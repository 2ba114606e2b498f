/** Whole runs of the upload store: any interleaving of effects of handlers, maintenance, workers and damage. */
module UploadRuns {
  import opened Options
  import opened UploadPaths
  import opened Uploads
  import opened UploadSteps

  datatype Action =
    | Start(id: string, s: Session)
    | WritePart(id: string, bytes: Bytes)
    | Damage(id: string, left: nat)
    | Ack(id: string, data: Bytes)
    | ComputeHash(a: nat)
    | MarkDuplicate(id: string, a: nat)
    | MarkCommitting(id: string)
    | RenamePart(id: string)
    | Finalise(id: string)
    | Remove(p: Path)
    | Forget(id: string)
    | WriteTemp(p: Path, bytes: Bytes)
    | Draw(id: string)
    | RenameTemp(p: Path, q: Path)
    | Insert(q: Path)
    | Trash(a: nat, at: int)
    | Intend(a: nat)
    | DeleteRow(a: nat)
    | Note(p: Path, r: Record)
    | Quarantine(p: Path)
    | Wait(now: int)

  ghost predicate Enabled(c: Config, st: State, x: Action)
  {
    match x
    case Start(id, s) => CanStart(c, st, id, s)
    case WritePart(id, bytes) => CanWritePart(st, id, bytes)
    case Damage(id, left) => CanDamage(st, id, left)
    case Ack(id, data) => CanAck(c, st, id, data)
    case ComputeHash(a) => a in st.assets && st.assets[a].path in st.files
    case MarkDuplicate(id, a) => CanMarkDuplicate(c, st, id, a)
    case MarkCommitting(id) => CanMarkCommitting(c, st, id)
    case RenamePart(id) => CanRenamePart(st, id)
    case Finalise(id) => CanFinalise(st, id)
    case Remove(p) => Expendable(st, p)
    case Forget(id) => CanForget(st, id)
    case WriteTemp(p, bytes) => CanWriteTemp(st, p)
    case Draw(id) => true
    case RenameTemp(p, q) => CanRenameTemp(st, p, q)
    case Insert(q) => CanInsert(c, st, q)
    case Trash(a, at) => a in st.assets
    case Intend(a) => a in st.assets
    case DeleteRow(a) => CanDeleteRow(st, a)
    case Note(p, r) => true
    case Quarantine(p) => CanQuarantine(st, p)
    case Wait(now) => true
  }

  ghost function After(c: Config, st: State, x: Action): State
    requires Enabled(c, st, x)
  {
    match x
    case Start(id, s) => Started(st, id, s)
    case WritePart(id, bytes) => WithPart(st, id, bytes)
    case Damage(id, left) => Damaged(st, id, left)
    case Ack(id, data) => Acked(st, id, data)
    case ComputeHash(a) => Hashed(c, st, a)
    case MarkDuplicate(id, a) => MarkedDuplicate(st, id, a)
    case MarkCommitting(id) => MarkedCommitting(st, id)
    case RenamePart(id) => Renamed(st, Part(id), Dest(id, st.sessions[id]))
    case Finalise(id) => Finalised(st, id)
    case Remove(p) => Without(st, p)
    case Forget(id) => Forgotten(st, id)
    case WriteTemp(p, bytes) => WithFile(st, p, bytes)
    case Draw(id) => Drawn(st, id)
    case RenameTemp(p, q) => Renamed(st, p, q)
    case Insert(q) => Inserted(st, q)
    case Trash(a, at) => Trashed(st, a, at)
    case Intend(a) => Intended(st, a)
    case DeleteRow(a) => RowDeleted(st, a)
    case Note(p, r) => Recorded(st, p, r)
    case Quarantine(p) => Renamed(st, p, Kept(p.owner, p.name))
    case Wait(now) => Later(st, now)
  }

  lemma InvStep(c: Config, st: State, x: Action)
    requires Inv(c, st) && Enabled(c, st, x)
    ensures Inv(c, After(c, st, x))
  {
    hide Inv;
    match x
    case Start(id, s) => InvStarted(c, st, id, s);
    case WritePart(id, bytes) => InvWithPart(c, st, id, bytes);
    case Damage(id, left) => InvDamaged(c, st, id, left);
    case Ack(id, data) => InvAcked(c, st, id, data);
    case ComputeHash(a) => InvHashed(c, st, a);
    case MarkDuplicate(id, a) => InvMarkedDuplicate(c, st, id, a);
    case MarkCommitting(id) => InvMarkedCommitting(c, st, id);
    case RenamePart(id) => InvRenamedPart(c, st, id);
    case Finalise(id) => InvFinalised(c, st, id);
    case Remove(p) => InvWithout(c, st, p);
    case Forget(id) => InvForgotten(c, st, id);
    case WriteTemp(p, bytes) => InvWithTemp(c, st, p, bytes);
    case Draw(id) => InvDrawn(c, st, id);
    case RenameTemp(p, q) => InvRenamedTemp(c, st, p, q);
    case Insert(q) => InvInserted(c, st, q);
    case Trash(a, at) => InvTrashed(c, st, a, at);
    case Intend(a) => InvIntended(c, st, a);
    case DeleteRow(a) => InvRowDeleted(c, st, a);
    case Note(p, r) => InvRecorded(c, st, p, r);
    case Quarantine(p) => InvQuarantined(c, st, p);
    case Wait(now) => InvLater(c, st, now);
  }

  /** The state after the actions, if each was possible when it came. */
  ghost function Run(c: Config, st: State, run: seq<Action>): Option<State>
  {
    if run == [] then Some(st)
    else
      match Run(c, st, run[..|run| - 1])
      case Some(mid) => if Enabled(c, mid, run[|run| - 1]) then Some(After(c, mid, run[|run| - 1])) else None
      case None => None
  }

  lemma RunSnoc(c: Config, st: State, run: seq<Action>, x: Action)
    requires Run(c, st, run).Some? && Enabled(c, Run(c, st, run).value, x)
    ensures Run(c, st, run + [x]) == Some(After(c, Run(c, st, run).value, x))
  {
    hide Enabled;
    hide After;
    assert (run + [x])[..|run + [x]| - 1] == run;
  }

  /** Nothing is stored yet, except perhaps files of an older version in users' directories. */
  ghost predicate Fresh(st: State)
  {
    && st.sessions == map[] && st.assets == map[] && st.jobs == {} && st.intents == {} && st.quarantine == map[] && st.nextAsset > 0
    && st.origin == map[] && st.acked == map[] && (forall p | p in st.files :: p.Flat?)
  }

  lemma FreshInv(c: Config, st: State)
    requires Fresh(st)
    ensures Inv(c, st)
  {
  }

  /** Every reachable state satisfies the invariant. */
  lemma {:induction false} InvRun(c: Config, st: State, run: seq<Action>)
    requires Inv(c, st) && Run(c, st, run).Some?
    ensures Inv(c, Run(c, st, run).value)
  {
    hide Inv;
    hide Enabled;
    hide After;
    if run != [] {
      InvRun(c, st, run[..|run| - 1]);
      InvStep(c, Run(c, st, run[..|run| - 1]).value, run[|run| - 1]);
    }
  }

  // ---- What is queued ----

  /** Exactly the assets that are not being deleted have got a job. */
  ghost predicate Queued(st: State)
  {
    forall a :: a in st.jobs <==> a in st.assets && a !in st.intents
  }

  lemma NextIsUnused(c: Config, st: State)
    requires Inv(c, st)
    ensures st.nextAsset !in st.assets && st.nextAsset !in st.intents
  {
    hide Sessions;
    hide Origins;
    hide Files;
    assert st.nextAsset in st.assets ==> AssetOk(c, st, st.nextAsset);
  }

  lemma QueuedStep(c: Config, st: State, x: Action)
    requires Inv(c, st) && Enabled(c, st, x) && Queued(st)
    ensures Queued(After(c, st, x))
  {
    hide Inv;
    hide CanStart;
    hide CanAck;
    hide CanMarkDuplicate;
    hide CanMarkCommitting;
    hide CanInsert;
    NextIsUnused(c, st);
  }

  /** No stored original is ever without its job, over any run. */
  lemma {:induction false} QueuedRun(c: Config, st: State, run: seq<Action>)
    requires Inv(c, st) && Queued(st) && Run(c, st, run).Some?
    ensures Queued(Run(c, st, run).value)
  {
    hide Inv;
    hide Queued;
    hide Enabled;
    hide After;
    if run != [] {
      QueuedRun(c, st, run[..|run| - 1]);
      InvRun(c, st, run[..|run| - 1]);
      QueuedStep(c, Run(c, st, run[..|run| - 1]).value, run[|run| - 1]);
    }
  }

  // ---- What a run does to a stored original ----

  /** Originals that are in the library later and were before are the same file; nothing comes back from a deletion. */
  ghost predicate OriginalsKept(st: State, next: State)
  {
    && st.nextAsset <= next.nextAsset
    && (forall a | a in next.assets && a < st.nextAsset ::
          && a in st.assets && next.assets[a].path == st.assets[a].path && next.assets[a].size == st.assets[a].size
          && (a !in next.intents ==>
                && a !in st.intents && st.assets[a].path in st.files && st.assets[a].path in next.files
                && next.files[st.assets[a].path] == st.files[st.assets[a].path]))
  }

  /** A step on files alone. */
  predicate MovesFile(x: Action)
  {
    x.WritePart? || x.Damage? || x.RenamePart? || x.Remove? || x.WriteTemp? || x.RenameTemp? || x.Quarantine?
  }

  lemma OriginalsFileStep(c: Config, st: State, x: Action)
    requires Assets(c, st) && Enabled(c, st, x) && MovesFile(x)
    ensures OriginalsKept(st, After(c, st, x))
  {
    assert forall a | a in st.assets :: AssetOk(c, st, a);
  }

  lemma OriginalsRowStep(c: Config, st: State, x: Action)
    requires Assets(c, st) && Enabled(c, st, x) && !MovesFile(x)
    ensures OriginalsKept(st, After(c, st, x))
  {
    hide CanStart;
    hide CanAck;
    hide CanMarkDuplicate;
    hide CanMarkCommitting;
    hide CanInsert;
    assert forall a | a in st.assets :: AssetOk(c, st, a);
  }

  lemma OriginalsStep(c: Config, st: State, x: Action)
    requires Assets(c, st) && Enabled(c, st, x)
    ensures OriginalsKept(st, After(c, st, x))
  {
    hide Assets;
    hide Enabled;
    hide After;
    hide OriginalsKept;
    if MovesFile(x) {
      OriginalsFileStep(c, st, x);
    } else {
      OriginalsRowStep(c, st, x);
    }
  }

  lemma {:induction false} OriginalsRun(c: Config, st: State, run: seq<Action>)
    requires Inv(c, st) && Run(c, st, run).Some?
    ensures OriginalsKept(st, Run(c, st, run).value)
  {
    hide Enabled;
    hide After;
    hide Sessions;
    hide Files;
    hide Origins;
    if run != [] {
      var mid := Run(c, st, run[..|run| - 1]).value;
      OriginalsRun(c, st, run[..|run| - 1]);
      InvRun(c, st, run[..|run| - 1]);
      OriginalsStep(c, mid, run[|run| - 1]);
    } else {
      assert forall a | a in st.assets :: AssetOk(c, st, a);
    }
  }

  /** A row goes only when its original is gone, and nothing names it afterwards. */
  lemma RowGoesLast(c: Config, st: State, x: Action, a: nat)
    requires Inv(c, st) && Enabled(c, st, x) && a in st.assets && a !in After(c, st, x).assets
    ensures a in st.intents && st.assets[a].path !in st.files
    ensures var next := After(c, st, x);
            a !in next.intents && a !in next.jobs && forall id | id in next.sessions :: next.sessions[id].asset != a
  {
    hide Inv;
    hide Load;
    hide Matches;
    hide Reservations;
  }

  lemma RecordStays(c: Config, st: State, x: Action, p: Path)
    requires Enabled(c, st, x) && p in st.quarantine
    ensures p in After(c, st, x).quarantine && After(c, st, x).quarantine[p] == st.quarantine[p]
  {
    hide Enabled;
  }

  lemma KeptFileStays(c: Config, st: State, x: Action, p: Path)
    requires Enabled(c, st, x) && p.Kept? && p in st.files
    ensures p in After(c, st, x).files && After(c, st, x).files[p] == st.files[p]
  {
    hide CanStart;
    hide CanAck;
    hide CanMarkDuplicate;
    hide CanMarkCommitting;
    hide CanInsert;
  }

  /** What is in quarantine stays there with its record, over any run. */
  lemma {:induction false} QuarantineRun(c: Config, st: State, run: seq<Action>, p: Path)
    requires Inv(c, st) && Run(c, st, run).Some? && p.Kept? && p in st.files
    ensures var end := Run(c, st, run).value;
            && p in end.files && end.files[p] == st.files[p]
            && p in end.quarantine && p in st.quarantine && end.quarantine[p] == st.quarantine[p]
  {
    hide Enabled;
    hide After;
    hide Sessions;
    hide Assets;
    hide Origins;
    if run != [] {
      QuarantineRun(c, st, run[..|run| - 1], p);
      KeptFileStays(c, Run(c, st, run[..|run| - 1]).value, run[|run| - 1], p);
      RecordStays(c, Run(c, st, run[..|run| - 1]).value, run[|run| - 1], p);
    }
  }

  // ---- What a run does to a session ----

  function Rank(p: Phase): nat
  {
    match p
    case Uploading => 0
    case Committing => 1
    case _ => 2
  }

  predicate SameFile(s: Session, t: Session)
  {
    t.owner == s.owner && t.key == s.key && t.filename == s.filename && t.ext == s.ext && t.folder == s.folder
    && t.size == s.size && t.hash == s.hash && t.keep == s.keep
  }

  /** The same declared file, no phase goes back, a result never changes, and acknowledged bytes stay acknowledged. */
  ghost predicate Advances(st: State, next: State, id: string)
    requires id in st.sessions && id in next.sessions
  {
    var s, t := st.sessions[id], next.sessions[id];
    && SameFile(s, t) && Rank(s.phase) <= Rank(t.phase) && s.received <= t.received
    && (Rank(s.phase) == 2 ==> t.phase == s.phase && t.asset == s.asset)
    && (s.phase != Uploading ==> t.received == s.received)
    && (id in st.acked ==> id in next.acked && st.acked[id] <= next.acked[id])
  }

  ghost predicate SessionsAdvance(st: State, next: State)
  {
    && st.used <= next.used
    && (forall id | id in next.sessions && id in st.used :: id in st.sessions && Advances(st, next, id))
    && (forall a | a in st.origin :: a in next.origin && next.origin[a] == st.origin[a])
  }

  /** One session moves on, and the others stay as they are. */
  lemma AdvanceOne(c: Config, st: State, next: State, id: string)
    requires Inv(c, st) && id in st.sessions && id in next.sessions && next.sessions == st.sessions[id := next.sessions[id]]
    requires forall i | i in st.acked && i != id :: i in next.acked && next.acked[i] == st.acked[i]
    requires st.used <= next.used && Advances(st, next, id)
    requires forall a | a in st.origin :: a in next.origin && next.origin[a] == st.origin[a]
    ensures SessionsAdvance(st, next)
  {
    hide Assets;
    hide Files;
    assert forall i | i in st.sessions :: SessionOk(c, st, i);
  }

  /** Sessions are left alone, or some of them are removed, or new ones come. */
  lemma AdvanceRest(c: Config, st: State, next: State)
    requires Inv(c, st) && st.used <= next.used && next.origin == st.origin
    requires forall i | i in next.sessions && i in st.used :: i in st.sessions && next.sessions[i] == st.sessions[i]
    requires forall i | i in st.acked && i in st.used :: i in next.acked && next.acked[i] == st.acked[i]
    ensures SessionsAdvance(st, next)
  {
    hide Assets;
    hide Files;
    assert forall i | i in st.sessions :: SessionOk(c, st, i);
  }

  predicate MovesSession(x: Action) { x.Ack? || x.MarkDuplicate? || x.MarkCommitting? || x.Finalise? }

  lemma QuietStep(c: Config, st: State, x: Action)
    requires Inv(c, st) && Enabled(c, st, x) && !MovesSession(x)
    ensures SessionsAdvance(st, After(c, st, x))
  {
    hide Inv;
    hide Load;
    hide Reservations;
    hide Matches;
    hide Expendable;
    hide CanWriteTemp;
    hide CanInsert;
    hide CanWritePart;
    hide CanQuarantine;
    hide SessionsAdvance;
    AdvanceRest(c, st, After(c, st, x));
  }

  lemma OriginsAreOld(c: Config, st: State)
    requires Inv(c, st)
    ensures st.nextAsset !in st.origin
  {
    hide Sessions;
    hide Assets;
    hide Files;
  }

  lemma AckAdvances(c: Config, st: State, id: string, data: Bytes)
    requires Inv(c, st) && CanAck(c, st, id, data)
    ensures SessionsAdvance(st, Acked(st, id, data))
  {
    hide Inv;
    hide SessionsAdvance;
    AdvanceOne(c, st, Acked(st, id, data), id);
  }

  lemma MarkAdvances(c: Config, st: State, id: string, a: nat)
    requires Inv(c, st) && id in st.sessions && Ready(c, st, id)
    ensures SessionsAdvance(st, MarkedDuplicate(st, id, a))
    ensures SessionsAdvance(st, MarkedCommitting(st, id))
  {
    hide Inv;
    hide HoldsAt;
    hide SessionsAdvance;
    AdvanceOne(c, st, MarkedDuplicate(st, id, a), id);
    AdvanceOne(c, st, MarkedCommitting(st, id), id);
  }

  lemma FinaliseAdvances(c: Config, st: State, id: string)
    requires Inv(c, st) && CanFinalise(st, id)
    ensures SessionsAdvance(st, Finalised(st, id))
  {
    hide Inv;
    hide SessionsAdvance;
    OriginsAreOld(c, st);
    AdvanceOne(c, st, Finalised(st, id), id);
  }

  lemma SessionsStep(c: Config, st: State, x: Action)
    requires Inv(c, st) && Enabled(c, st, x)
    ensures SessionsAdvance(st, After(c, st, x))
  {
    hide Inv;
    hide SessionsAdvance;
    hide Ready;
    hide CanAck;
    hide CanFinalise;
    hide CanStart;
    hide CanInsert;
    match x
    case Ack(id, data) => AckAdvances(c, st, id, data);
    case MarkDuplicate(id, a) => MarkAdvances(c, st, id, a);
    case MarkCommitting(id) => MarkAdvances(c, st, id, 0);
    case Finalise(id) => FinaliseAdvances(c, st, id);
    case _ => QuietStep(c, st, x);
  }

  lemma AdvanceTrans(a: State, b: State, d: State)
    requires SessionsAdvance(a, b) && SessionsAdvance(b, d)
    ensures SessionsAdvance(a, d)
  {
    forall id | id in d.sessions && id in a.used ensures id in a.sessions && Advances(a, d, id) {
      assert Advances(b, d, id) && Advances(a, b, id);
      if id in a.acked {
        assert a.acked[id] <= b.acked[id] <= d.acked[id];
      }
    }
  }

  lemma AdvanceRefl(c: Config, st: State)
    requires Inv(c, st)
    ensures SessionsAdvance(st, st)
  {
    hide Assets;
    hide Files;
  }

  /**
   Over a whole run an identifier stands for one declared file, its phase only
   moves forward, and the history of which session made which asset only grows;
   with the invariant, no session ever makes two assets.
   */
  lemma {:induction false} SessionsRun(c: Config, st: State, run: seq<Action>)
    requires Inv(c, st) && Run(c, st, run).Some?
    ensures SessionsAdvance(st, Run(c, st, run).value)
  {
    hide Enabled;
    hide After;
    hide Assets;
    hide Files;
    hide SessionsAdvance;
    if run != [] {
      var mid := Run(c, st, run[..|run| - 1]).value;
      SessionsRun(c, st, run[..|run| - 1]);
      InvRun(c, st, run[..|run| - 1]);
      SessionsStep(c, mid, run[|run| - 1]);
      AdvanceTrans(st, mid, After(c, mid, run[|run| - 1]));
    } else {
      AdvanceRefl(c, st);
    }
  }

  // ---- A transfer that lost acknowledged bytes ----

  /** The part file does not hold the acknowledged bytes any more. */
  predicate Lost(st: State, id: string)
  {
    && id in st.sessions && st.sessions[id].phase == Uploading && st.sessions[id].received > 0
    && (Part(id) in st.files ==> |st.files[Part(id)].bytes| < st.sessions[id].received)
  }

  lemma LostFacts(c: Config, st: State, id: string)
    requires Inv(c, st) && Lost(st, id)
    ensures id in st.used && PartOk(st, id, st.sessions[id]) && st.sessions[id].received <= st.sessions[id].size
  {
    hide Assets;
    hide Origins;
    hide Files;
    assert SessionOk(c, st, id);
  }

  /** The steps by which a transfer goes on or is completed. */
  predicate GoesOn(x: Action, id: string)
  {
    (x.Ack? || x.MarkDuplicate? || x.MarkCommitting? || x.RenamePart? || x.Finalise?) && x.id == id
  }

  /** The transfer was removed, or still lacks the bytes. */
  predicate LostOrGone(st: State, id: string, received: nat)
  {
    id in st.used && (id in st.sessions ==> Lost(st, id) && st.sessions[id].received == received)
  }

  lemma LostStep(c: Config, st: State, x: Action, id: string, received: nat)
    requires Inv(c, st) && Enabled(c, st, x) && LostOrGone(st, id, received)
    ensures !GoesOn(x, id) && LostOrGone(After(c, st, x), id, received)
  {
    hide Inv;
    hide Load;
    hide Reservations;
    hide Matches;
    hide Expendable;
    hide FromRequest;
    if id in st.sessions { LostFacts(c, st, id); }
  }

  /** A transfer that lost acknowledged bytes gets no further chunk and is never completed, over any run. */
  lemma {:induction false} LostRun(c: Config, st: State, run: seq<Action>, id: string)
    requires Inv(c, st) && Run(c, st, run).Some? && Lost(st, id)
    ensures forall x | x in run :: !GoesOn(x, id)
    ensures LostOrGone(Run(c, st, run).value, id, st.sessions[id].received)
  {
    hide Enabled;
    hide After;
    hide Inv;
    if run == [] {
      LostFacts(c, st, id);
    } else {
      var first := run[..|run| - 1];
      LostRun(c, st, first, id);
      InvRun(c, st, first);
      LostStep(c, Run(c, st, first).value, run[|run| - 1], id, st.sessions[id].received);
      assert run == first + [run[|run| - 1]];
    }
  }

  // ---- The main results, in terms of the run itself ----

  lemma {:induction false} RunPrefix(c: Config, st: State, run: seq<Action>, k: nat)
    requires k <= |run| && Run(c, st, run).Some?
    ensures Run(c, st, run[..k]).Some?
    ensures k > 0 ==> Run(c, st, run[..k - 1]).Some? && Enabled(c, Run(c, st, run[..k - 1]).value, run[k - 1])
                      && Run(c, st, run[..k]) == Some(After(c, Run(c, st, run[..k - 1]).value, run[k - 1]))
    decreases |run| - k
  {
    hide Enabled;
    hide After;
    if k == |run| {
      assert run[..k] == run;
      assert k > 0 ==> run[..|run| - 1] == run[..k - 1];
    } else {
      RunPrefix(c, st, run, k + 1);
      if k > 0 {
        assert run[..k][..|run[..k]| - 1] == run[..k - 1];
      }
    }
  }

  lemma {:induction false} RunSplit(c: Config, st: State, run: seq<Action>, k: nat)
    requires k <= |run| && Run(c, st, run).Some?
    ensures Run(c, st, run[..k]).Some? && Run(c, Run(c, st, run[..k]).value, run[k..]) == Run(c, st, run)
    decreases |run| - k
  {
    hide Enabled;
    hide After;
    if k == |run| {
      assert run[..k] == run && run[k..] == [];
    } else {
      RunPrefix(c, st, run, k + 1);
      RunSplit(c, st, run[..|run| - 1], k);
      assert run[..|run| - 1][..k] == run[..k];
      assert run[k..][..|run[k..]| - 1] == run[..|run| - 1][k..];
    }
  }

  lemma FinaliseIsDone(c: Config, st: State, id: string)
    requires Enabled(c, st, Finalise(id))
    ensures var next := After(c, st, Finalise(id)); id in next.sessions && next.sessions[id].phase == Done
  {
  }

  lemma DoneStays(c: Config, st: State, next: State, id: string)
    requires SessionsAdvance(st, next) && id in st.sessions && id in st.used && st.sessions[id].phase == Done
    ensures !Enabled(c, next, Finalise(id))
  {
  }

  lemma SessionIsUsed(c: Config, st: State, id: string)
    requires Inv(c, st) && id in st.sessions
    ensures id in st.used
  {
    hide Assets;
    hide Origins;
    hide Files;
    assert SessionOk(c, st, id);
  }

  lemma FinaliseEnds(c: Config, st: State, run: seq<Action>, i: nat, j: nat, id: string)
    requires Inv(c, st) && Run(c, st, run).Some? && i < j < |run| && run[i] == Finalise(id)
    ensures run[j] != Finalise(id)
  {
    hide Inv;
    hide Run;
    hide Enabled;
    hide After;
    hide SessionsAdvance;
    RunPrefix(c, st, run, i + 1);
    RunPrefix(c, st, run, j + 1);
    RunPrefix(c, st, run, j);
    var done, end := Run(c, st, run[..i + 1]).value, Run(c, st, run[..j]).value;
    RunSplit(c, st, run[..j], i + 1);
    assert run[..j][..i + 1] == run[..i + 1];
    FinaliseIsDone(c, Run(c, st, run[..i]).value, id);
    InvRun(c, st, run[..i + 1]);
    SessionsRun(c, done, run[..j][i + 1..]);
    SessionIsUsed(c, done, id);
    DoneStays(c, done, end, id);
  }

  /** No run finalises a session twice, so it never yields two assets or two jobs. */
  lemma FinalisedOnce(c: Config, st: State, run: seq<Action>, i: nat, j: nat, id: string)
    requires Inv(c, st) && Run(c, st, run).Some? && i < |run| && j < |run| && run[i] == Finalise(id) && run[j] == Finalise(id)
    ensures i == j
  {
    if i < j {
      FinaliseEnds(c, st, run, i, j, id);
    } else if j < i {
      FinaliseEnds(c, st, run, j, i, id);
    }
  }

  /** The chunks of a session that a run acknowledged, in order. */
  function Chunks(run: seq<Action>, id: string): Bytes
  {
    if run == [] then []
    else
      var last := run[|run| - 1];
      Chunks(run[..|run| - 1], id) + if last.Ack? && last.id == id then last.data else []
  }

  lemma ChunksStep(c: Config, st: State, x: Action, id: string, chunks: Bytes)
    requires Inv(c, st) && Enabled(c, st, x)
    requires id !in st.used ==> chunks == []
    requires id in st.acked ==> st.acked[id] == chunks
    ensures var next := After(c, st, x);
            var more := chunks + if x.Ack? && x.id == id then x.data else [];
            (id !in next.used ==> more == []) && (id in next.acked ==> next.acked[id] == more)
  {
    hide Inv;
    hide Load;
    hide Reservations;
    hide Matches;
    hide Expendable;
    if x.Ack? { SessionIsUsed(c, st, x.id); }
  }

  lemma {:induction false} ChunksAcked(c: Config, st: State, run: seq<Action>, id: string)
    requires Inv(c, st) && Run(c, st, run).Some? && id !in st.used
    ensures var end := Run(c, st, run).value;
            (id !in end.used ==> Chunks(run, id) == []) && (id in end.acked ==> end.acked[id] == Chunks(run, id))
  {
    hide Enabled;
    hide After;
    if run == [] {
      assert id in st.acked ==> id in st.used;
    } else {
      var first := run[..|run| - 1];
      ChunksAcked(c, st, first, id);
      InvRun(c, st, first);
      ChunksStep(c, Run(c, st, first).value, run[|run| - 1], id, Chunks(first, id));
    }
  }

  /**
   In every run the part file of a transfer begins with exactly the acknowledged
   chunks in order, unless acknowledged bytes were lost; what a finished session
   stored has the declared size and digest.
   */
  lemma TransferIsFaithful(c: Config, st: State, run: seq<Action>, id: string)
    requires Inv(c, st) && Run(c, st, run).Some? && id !in st.used && id in Run(c, st, run).value.sessions
    ensures var end := Run(c, st, run).value;
            var s := end.sessions[id];
            && (s.phase == Uploading ==>
                  && s.received == |Chunks(run, id)|
                  && (Part(id) in end.files && |end.files[Part(id)].bytes| >= s.received ==> Chunks(run, id) <= end.files[Part(id)].bytes))
            && (s.phase == Committing ==>
                  && (Part(id) in end.files <==> Managed(s.owner, id, s.ext) !in end.files)
                  && var p := if Part(id) in end.files then Part(id) else Managed(s.owner, id, s.ext);
                     |end.files[p].bytes| == s.size && c.hash(end.files[p].bytes) == s.hash && c.valid(end.files[p].bytes, s.ext))
            && (s.phase == Done && s.asset !in end.intents ==>
                  var p := Managed(s.owner, id, s.ext);
                  && s.asset in end.assets && end.assets[s.asset].path == p && end.assets[s.asset].size == s.size
                  && (s.asset in end.jobs || !Queued(st)) && p in end.files
                  && |end.files[p].bytes| == s.size && c.hash(end.files[p].bytes) == s.hash && c.valid(end.files[p].bytes, s.ext))
  {
    hide Enabled;
    hide After;
    hide Run;
    hide Assets;
    hide Origins;
    hide Files;
    InvRun(c, st, run);
    ChunksAcked(c, st, run, id);
    if Queued(st) { QueuedRun(c, st, run); }
    assert SessionOk(c, Run(c, st, run).value, id);
  }
}
