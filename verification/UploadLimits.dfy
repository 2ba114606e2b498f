/** The storage limit and the limit of active sessions, over whole runs. */
module UploadLimits {
  import opened Options
  import opened Totals
  import opened UploadPaths
  import opened Uploads
  import opened UploadSteps
  import opened UploadRuns

  /** Time does not go back. */
  predicate Onward(st: State, x: Action) { x.Wait? ==> st.now <= x.now }

  function Reserved(c: Config, st: State, uid: nat): map<string, nat> { Reservations(st.sessions, Cutoff(c, st), uid) }

  /** Fewer and smaller reservations and files. */
  ghost predicate Lighter(c: Config, st: State, next: State, uid: nat)
  {
    && (forall a | a in Stored(next.assets, next.intents, uid) ::
          a in Stored(st.assets, st.intents, uid) && next.assets[a].size <= st.assets[a].size)
    && KeptSizes(next.quarantine, uid) == KeptSizes(st.quarantine, uid)
    && (forall id | id in Reserved(c, next, uid) :: id in Reserved(c, st, uid) && Reserved(c, next, uid)[id] <= Reserved(c, st, uid)[id])
  }

  lemma {:induction false} CountSubset<K>(s: set<K>, t: set<K>)
    requires s <= t
    ensures |s| <= |t|
  {
    if s != {} {
      var k :| k in s;
      CountSubset(s - {k}, t - {k});
    }
  }

  lemma CountSubmap<K, V, W>(m: map<K, V>, n: map<K, W>)
    requires m.Keys <= n.Keys
    ensures |m| <= |n|
  {
    CountSubset(m.Keys, n.Keys);
  }

  lemma LighterWithin(c: Config, st: State, next: State, uid: nat)
    requires Lighter(c, st, next, uid) && WithinLimits(c, st, uid)
    ensures WithinLimits(c, next, uid)
  {
    TotalMonotone(Stored(next.assets, next.intents, uid), Stored(st.assets, st.intents, uid));
    TotalMonotone(Reserved(c, next, uid), Reserved(c, st, uid));
    CountSubmap(Reserved(c, next, uid), Reserved(c, st, uid));
  }

  lemma StoredWith(assets: map<nat, Asset>, intents: set<nat>, a: nat, row: Asset, uid: nat)
    requires a !in assets && a !in intents
    ensures Total(Stored(assets[a := row], intents, uid)) ==
            Total(Stored(assets, intents, uid)) + if OwnerOf(row.path) == Some(uid) then row.size else 0
  {
    var before, now := Stored(assets, intents, uid), Stored(assets[a := row], intents, uid);
    if OwnerOf(row.path) == Some(uid) {
      assert now == before[a := row.size];
      TotalAdd(before, a, row.size);
    } else {
      assert now == before;
    }
  }

  predicate Counts(s: Session, cutoff: int, uid: nat) { s.owner == uid && Active(s, cutoff) }

  lemma CountAdd<K, V>(m: map<K, V>, k: K, v: V)
    requires k !in m
    ensures |m[k := v]| == |m| + 1
  {
    assert m[k := v].Keys == m.Keys + {k};
    assert |m.Keys + {k}| == |m.Keys| + 1;
  }

  lemma ReservedWith(sessions: map<string, Session>, cutoff: int, id: string, s: Session, uid: nat)
    requires id in sessions ==> !Counts(sessions[id], cutoff, uid)
    ensures var before, now := Reservations(sessions, cutoff, uid), Reservations(sessions[id := s], cutoff, uid);
            if Counts(s, cutoff, uid) then Total(now) == Total(before) + s.size && |now| == |before| + 1 else now == before
  {
    var before, now := Reservations(sessions, cutoff, uid), Reservations(sessions[id := s], cutoff, uid);
    if Counts(s, cutoff, uid) {
      assert now == before[id := s.size];
      TotalAdd(before, id, s.size);
      CountAdd(before, id, s.size);
    } else {
      assert now == before;
    }
  }

  lemma NewIdIsNew(c: Config, st: State, id: string)
    requires Inv(c, st) && id !in st.used
    ensures id !in st.sessions
  {
    assert id in st.sessions ==> SessionOk(c, st, id);
  }

  lemma StartWithin(c: Config, st: State, id: string, s: Session, uid: nat)
    requires Inv(c, st) && CanStart(c, st, id, s) && WithinLimits(c, st, uid)
    ensures WithinLimits(c, Started(st, id, s), uid)
  {
    hide Inv;
    hide Reservations;
    hide Stored;
    hide Matches;
    NewIdIsNew(c, st, id);
    ReservedWith(st.sessions, Cutoff(c, st), id, s, uid);
  }

  lemma FinaliseWithin(c: Config, st: State, id: string, uid: nat)
    requires Inv(c, st) && CanFinalise(st, id) && WithinLimits(c, st, uid)
    ensures WithinLimits(c, Finalised(st, id), uid)
  {
    hide Inv;
    hide Reservations;
    hide Stored;
    var next, s := Finalised(st, id), st.sessions[id];
    NextIsUnused(c, st);
    StoredWith(st.assets, st.intents, st.nextAsset, next.assets[st.nextAsset], uid);
    ReservedWith(next.sessions, Cutoff(c, st), id, s, uid);
    assert next.sessions[id := s] == st.sessions;
  }

  lemma InsertWithin(c: Config, st: State, q: Path, uid: nat)
    requires Inv(c, st) && CanInsert(c, st, q) && WithinLimits(c, st, uid)
    ensures WithinLimits(c, Inserted(st, q), uid)
  {
    hide Inv;
    hide Reservations;
    hide Stored;
    var next := Inserted(st, q);
    NextIsUnused(c, st);
    StoredWith(st.assets, st.intents, st.nextAsset, next.assets[st.nextAsset], uid);
  }

  lemma DeleteRowLighter(c: Config, st: State, a: nat, uid: nat)
    requires Inv(c, st) && CanDeleteRow(st, a)
    ensures Lighter(c, st, RowDeleted(st, a), uid)
  {
    hide Sessions;
    hide Origins;
    hide Files;
    assert KeptSizes(RowDeleted(st, a).quarantine, uid) == KeptSizes(st.quarantine, uid);
  }

  /** Steps that free storage or leave it as it is, whatever there is. */
  predicate Frees(x: Action) { !x.Start? && !x.Finalise? && !x.Insert? && !x.DeleteRow? && !x.Ack? && !x.MarkCommitting? && !x.Note? }

  lemma SameIsLighter(c: Config, st: State, next: State, uid: nat)
    requires next.assets == st.assets && next.intents == st.intents && next.sessions == st.sessions
    requires next.quarantine == st.quarantine && next.now == st.now
    ensures Lighter(c, st, next, uid)
  {
  }

  lemma LighterFileStep(c: Config, st: State, x: Action, uid: nat)
    requires Enabled(c, st, x) && (MovesFile(x) || x.Draw?)
    ensures Lighter(c, st, After(c, st, x), uid)
  {
    hide Enabled;
    hide Lighter;
    SameIsLighter(c, st, After(c, st, x), uid);
  }

  lemma LighterSessionStep(c: Config, st: State, x: Action, uid: nat)
    requires Enabled(c, st, x) && Onward(st, x) && (x.MarkDuplicate? || x.Forget? || x.Wait?)
    ensures Lighter(c, st, After(c, st, x), uid)
  {
    hide Matches;
    hide Ready;
    hide Stored;
  }

  lemma SameSizeLighter(c: Config, st: State, a: nat, row: Asset, uid: nat)
    requires a in st.assets && row.path == st.assets[a].path && row.size == st.assets[a].size
    ensures Lighter(c, st, st.(assets := st.assets[a := row]), uid)
  {
    hide Reservations;
  }

  lemma IntendedLighter(c: Config, st: State, a: nat, uid: nat)
    ensures Lighter(c, st, Intended(st, a), uid)
  {
    hide Reservations;
  }

  lemma LighterAssetStep(c: Config, st: State, x: Action, uid: nat)
    requires Enabled(c, st, x) && (x.ComputeHash? || x.Trash? || x.Intend?)
    ensures Lighter(c, st, After(c, st, x), uid)
  {
    hide Lighter;
    match x
    case ComputeHash(a) => SameSizeLighter(c, st, a, Hashed(c, st, a).assets[a], uid);
    case Trash(a, at) => SameSizeLighter(c, st, a, st.assets[a].(trashedAt := at), uid);
    case Intend(a) => IntendedLighter(c, st, a, uid);
  }

  lemma LighterStep(c: Config, st: State, x: Action, uid: nat)
    requires Enabled(c, st, x) && Onward(st, x) && Frees(x)
    ensures Lighter(c, st, After(c, st, x), uid)
  {
    hide Enabled;
    hide After;
    hide Lighter;
    if MovesFile(x) || x.Draw? {
      LighterFileStep(c, st, x, uid);
    } else if x.MarkDuplicate? || x.Forget? || x.Wait? {
      LighterSessionStep(c, st, x, uid);
    } else {
      LighterAssetStep(c, st, x, uid);
    }
  }

  // ---- What the steps add to the load, and what they give back ----

  lemma StartedLoad(c: Config, st: State, id: string, s: Session)
    requires Inv(c, st) && CanStart(c, st, id, s) && c.retention > 0
    ensures Load(c, Started(st, id, s), s.owner) == Load(c, st, s.owner) + if s.phase == Uploading then s.size else 0
  {
    hide Inv;
    hide Reservations;
    hide Stored;
    hide Matches;
    hide FromRequest;
    NewIdIsNew(c, st, id);
    ReservedWith(st.sessions, Cutoff(c, st), id, s, s.owner);
  }

  /** A removed session gives its reservation back, if it still had one. */
  lemma ForgottenLoad(c: Config, st: State, id: string)
    requires id in st.sessions
    ensures var s := st.sessions[id];
            Load(c, st, s.owner) == Load(c, Forgotten(st, id), s.owner) +
              if s.phase == Committing || (s.phase == Uploading && s.updated > st.now - c.retention) then s.size else 0
  {
    hide Reservations;
    hide Stored;
    var s, rest := st.sessions[id], st.sessions - {id};
    ReservedWith(rest, Cutoff(c, st), id, s, s.owner);
    assert rest[id := s] == st.sessions;
  }

  /** The last transaction turns the reservation into a stored original of the same size. */
  lemma FinalisedLoad(c: Config, st: State, id: string)
    requires Inv(c, st) && CanFinalise(st, id)
    ensures Load(c, Finalised(st, id), st.sessions[id].owner) == Load(c, st, st.sessions[id].owner)
  {
    hide Inv;
    hide Reservations;
    hide Stored;
    var next, s := Finalised(st, id), st.sessions[id];
    NextIsUnused(c, st);
    StoredWith(st.assets, st.intents, st.nextAsset, next.assets[st.nextAsset], s.owner);
    ReservedWith(next.sessions, Cutoff(c, st), id, s, s.owner);
    assert next.sessions[id := s] == st.sessions;
  }

  /** A recorded deletion gives the bytes back at once. */
  lemma IntendedLoad(c: Config, st: State, a: nat, uid: nat)
    requires a in st.assets && a !in st.intents
    ensures var p := st.assets[a].path;
            Load(c, st, uid) == Load(c, Intended(st, a), uid) + if (p.Managed? || p.Flat?) && p.owner == uid then st.assets[a].size else 0
  {
    hide Reservations;
    var before, now := Stored(st.assets, st.intents, uid), Stored(st.assets, st.intents + {a}, uid);
    if OwnerOf(st.assets[a].path) == Some(uid) {
      assert now == before - {a};
      TotalSplit(before, a);
    } else {
      assert now == before;
    }
  }

  lemma ReservedAfterDeletion(c: Config, st: State, a: nat, uid: nat)
    requires Inv(c, st) && CanDeleteRow(st, a)
    ensures Reserved(c, RowDeleted(st, a), uid) == Reserved(c, st, uid)
  {
    hide Origins;
    hide Files;
    assert AssetOk(c, st, a);
    forall id | id in st.sessions && Active(st.sessions[id], Cutoff(c, st)) ensures st.sessions[id].asset == 0 {
      assert SessionOk(c, st, id);
    }
  }

  /** The end of the deletion gives nothing more back. */
  lemma RowDeletedLoad(c: Config, st: State, a: nat, uid: nat)
    requires Inv(c, st) && CanDeleteRow(st, a)
    ensures Load(c, RowDeleted(st, a), uid) == Load(c, st, uid)
  {
    var next := RowDeleted(st, a);
    ReservedAfterDeletion(c, st, a, uid);
    hide Inv;
    hide Reservations;
    assert Stored(next.assets, next.intents, uid) == Stored(st.assets, st.intents, uid);
  }

  // ---- The second of expiry ----

  lemma ReservedSame(c: Config, st: State, next: State, id: string)
    requires id in st.sessions && id in next.sessions && next.sessions == st.sessions[id := next.sessions[id]] && next.now == st.now
    requires SameFile(st.sessions[id], next.sessions[id])
    requires Active(st.sessions[id], Cutoff(c, st)) && Active(next.sessions[id], Cutoff(c, st))
    ensures Reserved(c, next, st.sessions[id].owner) == Reserved(c, st, st.sessions[id].owner)
  {
  }

  /** A session that becomes active again adds its size, unless it was active all the time. */
  lemma ResumedLoad(c: Config, st: State, next: State, id: string)
    requires id in st.sessions && id in next.sessions && next.sessions == st.sessions[id := next.sessions[id]]
    requires next.assets == st.assets && next.intents == st.intents && next.quarantine == st.quarantine && next.now == st.now
    requires SameFile(st.sessions[id], next.sessions[id]) && Active(next.sessions[id], Cutoff(c, st))
    ensures var uid := st.sessions[id].owner;
            if Active(st.sessions[id], Cutoff(c, st)) then
              Load(c, next, uid) == Load(c, st, uid) && Reserved(c, next, uid) == Reserved(c, st, uid)
            else
              Load(c, next, uid) == Load(c, st, uid) + st.sessions[id].size && |Reserved(c, next, uid)| == |Reserved(c, st, uid)| + 1
  {
    hide Stored;
    hide KeptSizes;
    hide Reservations;
    var uid := st.sessions[id].owner;
    if Active(st.sessions[id], Cutoff(c, st)) {
      ReservedSame(c, st, next, id);
    } else {
      ReservedWith(st.sessions, Cutoff(c, st), id, next.sessions[id], uid);
    }
  }

  /**
   An accepted chunk keeps the limits exactly if the session was still reserving
   its size, or there is room to reserve it again: the reservation ends one
   second before chunks are refused.
   */
  lemma ChunkKeepsLimits(c: Config, st: State, id: string, data: Bytes)
    requires CanAck(c, st, id, data) && c.retention > 0 && WithinLimits(c, st, st.sessions[id].owner)
    ensures var s := st.sessions[id];
            WithinLimits(c, Acked(st, id, data), s.owner) <==>
            (|| s.updated > Cutoff(c, st)
             || (s.size + Load(c, st, s.owner) <= c.quota(s.owner) && |Reserved(c, st, s.owner)| < ACTIVE_LIMIT))
  {
    ResumedLoad(c, st, Acked(st, id, data), id);
  }

  /** The same for the completion of a session. */
  lemma CommitKeepsLimits(c: Config, st: State, id: string)
    requires CanMarkCommitting(c, st, id) && WithinLimits(c, st, st.sessions[id].owner)
    ensures var s := st.sessions[id];
            WithinLimits(c, MarkedCommitting(st, id), s.owner) <==>
            (|| s.phase == Committing || s.updated > Cutoff(c, st)
             || (s.size + Load(c, st, s.owner) <= c.quota(s.owner) && |Reserved(c, st, s.owner)| < ACTIVE_LIMIT))
  {
    hide HoldsAt;
    ResumedLoad(c, st, MarkedCommitting(st, id), id);
  }

  lemma OthersUnmoved(c: Config, st: State, next: State, id: string, uid: nat)
    requires id in st.sessions && id in next.sessions && next.sessions == st.sessions[id := next.sessions[id]]
    requires next.assets == st.assets && next.intents == st.intents && next.quarantine == st.quarantine && next.now == st.now
    requires SameFile(st.sessions[id], next.sessions[id])
    requires uid != st.sessions[id].owner || !Active(next.sessions[id], Cutoff(c, st))
    ensures Lighter(c, st, next, uid)
  {
  }

  /** One more record in quarantine adds its size to what its owner uses. */
  lemma RecordedLoad(c: Config, st: State, p: Path, r: Record, uid: nat)
    requires p !in st.quarantine
    ensures Load(c, Recorded(st, p, r), uid) == Load(c, st, uid) + if r.owner == uid then r.size else 0
  {
    var before, now := KeptSizes(st.quarantine, uid), KeptSizes(Recorded(st, p, r).quarantine, uid);
    if r.owner == uid {
      assert now == before[p := r.size];
      TotalAdd(before, p, r.size);
    } else {
      assert now == before;
    }
  }

  // ---- Steps that need room ----

  ghost predicate Room(c: Config, st: State, uid: nat, size: nat)
  {
    size + Load(c, st, uid) <= c.quota(uid) && |Reserved(c, st, uid)| < ACTIVE_LIMIT
  }

  /**
   What a caller would have to check before the steps that the source performs
   without a check: to resume a session whose reservation has ended, and to
   record a file in quarantine.
   */
  ghost predicate HasRoom(c: Config, st: State, x: Action)
  {
    match x
    case Ack(id, _) =>
      id in st.sessions && (st.sessions[id].updated > Cutoff(c, st) || Room(c, st, st.sessions[id].owner, st.sessions[id].size))
    case MarkCommitting(id) =>
      && id in st.sessions
      && (|| st.sessions[id].phase == Committing || st.sessions[id].updated > Cutoff(c, st)
          || Room(c, st, st.sessions[id].owner, st.sessions[id].size))
    case Note(p, r) => p in st.quarantine || r.size + Load(c, st, r.owner) <= c.quota(r.owner)
    case _ => true
  }

  lemma AckWithin(c: Config, st: State, id: string, data: Bytes, uid: nat)
    requires CanAck(c, st, id, data) && HasRoom(c, st, Ack(id, data)) && WithinLimits(c, st, uid) && c.retention > 0
    ensures WithinLimits(c, Acked(st, id, data), uid)
  {
    hide Lighter;
    if uid == st.sessions[id].owner {
      ChunkKeepsLimits(c, st, id, data);
    } else {
      OthersUnmoved(c, st, Acked(st, id, data), id, uid);
      LighterWithin(c, st, Acked(st, id, data), uid);
    }
  }

  lemma CommitWithin(c: Config, st: State, id: string, uid: nat)
    requires CanMarkCommitting(c, st, id) && HasRoom(c, st, MarkCommitting(id)) && WithinLimits(c, st, uid)
    ensures WithinLimits(c, MarkedCommitting(st, id), uid)
  {
    hide Lighter;
    hide HoldsAt;
    if uid == st.sessions[id].owner {
      CommitKeepsLimits(c, st, id);
    } else {
      OthersUnmoved(c, st, MarkedCommitting(st, id), id, uid);
      LighterWithin(c, st, MarkedCommitting(st, id), uid);
    }
  }

  lemma NoteWithin(c: Config, st: State, p: Path, r: Record, uid: nat)
    requires HasRoom(c, st, Note(p, r)) && WithinLimits(c, st, uid)
    ensures WithinLimits(c, Recorded(st, p, r), uid)
  {
    if p !in st.quarantine { RecordedLoad(c, st, p, r, uid); }
  }

  lemma LimitsStep(c: Config, st: State, x: Action, uid: nat)
    requires Inv(c, st) && Enabled(c, st, x) && Onward(st, x) && HasRoom(c, st, x) && WithinLimits(c, st, uid) && c.retention > 0
    ensures WithinLimits(c, After(c, st, x), uid)
  {
    hide Inv;
    hide WithinLimits;
    hide Load;
    hide Matches;
    hide HoldsAt;
    hide Expendable;
    hide Lighter;
    hide HasRoom;
    match x
    case Start(id, s) => StartWithin(c, st, id, s, uid);
    case Finalise(id) => FinaliseWithin(c, st, id, uid);
    case Insert(q) => InsertWithin(c, st, q, uid);
    case Ack(id, data) => AckWithin(c, st, id, data, uid);
    case MarkCommitting(id) => CommitWithin(c, st, id, uid);
    case Note(p, r) => NoteWithin(c, st, p, r, uid);
    case DeleteRow(a) =>
      DeleteRowLighter(c, st, a, uid);
      LighterWithin(c, st, RowDeleted(st, a), uid);
    case _ =>
      LighterStep(c, st, x, uid);
      LighterWithin(c, st, After(c, st, x), uid);
  }

  ghost predicate AllWithin(c: Config, st: State)
  {
    forall uid :: WithinLimits(c, st, uid)
  }

  lemma LoadExceeds(c: Config, st: State, uid: nat)
    requires Load(c, st, uid) > c.quota(uid)
    ensures !WithinLimits(c, st, uid)
  {
  }

  /** Without room, the step takes a user over a limit. */
  lemma NoRoomExceeds(c: Config, st: State, x: Action)
    requires Enabled(c, st, x) && !HasRoom(c, st, x) && AllWithin(c, st) && c.retention > 0
    ensures !AllWithin(c, After(c, st, x))
  {
    hide WithinLimits;
    hide HoldsAt;
    hide Matches;
    match x
    case Ack(id, data) =>
      ChunkKeepsLimits(c, st, id, data);
      assert !WithinLimits(c, Acked(st, id, data), st.sessions[id].owner);
    case MarkCommitting(id) =>
      CommitKeepsLimits(c, st, id);
      assert !WithinLimits(c, MarkedCommitting(st, id), st.sessions[id].owner);
    case Note(p, r) =>
      RecordedLoad(c, st, p, r, r.owner);
      LoadExceeds(c, Recorded(st, p, r), r.owner);
  }

  /** The state before step `k` of a run. */
  ghost function At(c: Config, st: State, run: seq<Action>, k: nat): State
    requires Run(c, st, run).Some? && k <= |run|
  {
    RunPrefix(c, st, run, k);
    Run(c, st, run[..k]).value
  }

  ghost predicate Onwards(c: Config, st: State, run: seq<Action>)
    requires Run(c, st, run).Some?
  {
    forall k | 0 <= k < |run| :: Onward(At(c, st, run, k), run[k])
  }

  lemma AtStep(c: Config, st: State, run: seq<Action>, k: nat)
    requires Run(c, st, run).Some? && k < |run|
    ensures Enabled(c, At(c, st, run, k), run[k]) && At(c, st, run, k + 1) == After(c, At(c, st, run, k), run[k])
    ensures At(c, st, run, 0) == st && (Inv(c, st) ==> Inv(c, At(c, st, run, k)))
  {
    hide Enabled;
    hide After;
    hide Inv;
    RunPrefix(c, st, run, k + 1);
    RunPrefix(c, st, run, k);
    if Inv(c, st) { InvRun(c, st, run[..k]); }
  }

  lemma StartsAt(c: Config, st: State, run: seq<Action>)
    requires Run(c, st, run).Some?
    ensures At(c, st, run, 0) == st
  {
    assert run[..0] == [];
  }

  lemma {:induction false} RoomKeeps(c: Config, st: State, run: seq<Action>, k: nat)
    requires Inv(c, st) && Run(c, st, run).Some? && Onwards(c, st, run) && AllWithin(c, st) && c.retention > 0 && k <= |run|
    requires forall i | 0 <= i < |run| :: HasRoom(c, At(c, st, run, i), run[i])
    ensures AllWithin(c, At(c, st, run, k))
    decreases k
  {
    hide Inv;
    hide Run;
    hide Enabled;
    hide After;
    hide HasRoom;
    hide Onward;
    hide WithinLimits;
    hide At;
    if k == 0 {
      StartsAt(c, st, run);
    } else {
      RoomKeeps(c, st, run, k - 1);
      AtStep(c, st, run, k - 1);
      forall uid ensures WithinLimits(c, At(c, st, run, k), uid) {
        LimitsStep(c, At(c, st, run, k - 1), run[k - 1], uid);
      }
    }
  }

  /**
   A run keeps every user within the storage limit and within fifty active
   sessions at all times if and only if there is room at each of the steps that
   the source performs without a check.
   */
  lemma LimitsRun(c: Config, st: State, run: seq<Action>)
    requires Inv(c, st) && Run(c, st, run).Some? && Onwards(c, st, run) && AllWithin(c, st) && c.retention > 0
    ensures (forall k | 0 <= k <= |run| :: AllWithin(c, At(c, st, run, k))) <==>
            (forall k | 0 <= k < |run| :: HasRoom(c, At(c, st, run, k), run[k]))
  {
    hide Inv;
    hide Run;
    hide Enabled;
    hide After;
    hide AllWithin;
    hide HasRoom;
    hide At;
    hide Onwards;
    if forall k | 0 <= k < |run| :: HasRoom(c, At(c, st, run, k), run[k]) {
      forall k | 0 <= k <= |run| ensures AllWithin(c, At(c, st, run, k)) { RoomKeeps(c, st, run, k); }
    } else {
      var k :| 0 <= k < |run| && !HasRoom(c, At(c, st, run, k), run[k]);
      if AllWithin(c, At(c, st, run, k)) {
        AtStep(c, st, run, k);
        NoRoomExceeds(c, At(c, st, run, k), run[k]);
        assert !AllWithin(c, At(c, st, run, k + 1));
      }
    }
  }
}
