/** The hourly recovery and cleaning of the upload store (internal/api/upload_cleanup.go). */
module UploadCleanup {
  import opened Options
  import opened FileNames
  import opened UploadPaths
  import opened Uploads
  import opened UploadSteps
  import opened UploadRuns
  import opened UploadStore
  import opened UploadHandlers
  import opened MediaDeletion
  import Hex

  // ---- The names of generated files ----

  /** Only files with a generated name are looked at. */
  predicate Generated(name: string)
  {
    32 <= |Stem(name)| <= 80 && forall c | c in Stem(name) :: Hex.IsDigit(c)
  }

  predicate Partial(name: string) { FormatOf(name) == ".partial" }

  predicate Indexed(assets: map<nat, Asset>, p: Path) { exists a | a in assets :: assets[a].path == p }

  // ---- What cleaning may do to files ----

  /** A committing session may still need this file, or give it up as a duplicate. */
  predicate InTransit(st: State, p: Path)
  {
    exists id | id in st.sessions && st.sessions[id].phase == Committing :: p == Part(id) || p == Dest(id, st.sessions[id])
  }

  predicate SameAt(st: State, next: State, p: Path)
  {
    p in st.files && p in next.files && next.files[p] == st.files[p]
  }

  predicate KeptSafe(st: State, next: State, p: Path)
    requires p.Flat?
  {
    p in st.files && Kept(p.owner, p.name) in next.files && next.files[Kept(p.owner, p.name)] == st.files[p]
  }

  /** Originals of the library stay, with their rows. */
  ghost predicate OriginalsStay(st: State, next: State)
  {
    forall a | a in st.assets && a !in st.intents ::
      && a in next.assets && a !in next.intents && next.assets[a].path == st.assets[a].path && next.assets[a].size == st.assets[a].size
      && SameAt(st, next, st.assets[a].path)
  }

  /**
   Complete originals that no row names are never removed: a flat one may move
   to quarantine, and one in the layout of `managedOriginalPath` stays where it is.
   */
  ghost predicate OrphansStay(st: State, next: State)
  {
    && (forall p | p in st.files && p.Kept? :: SameAt(st, next, p))
    && (forall p | p in st.files && p.Managed? && !InTransit(st, p) && !Indexed(st.assets, p) :: SameAt(st, next, p))
    && (forall p | p in st.files && p.Flat? && !Indexed(st.assets, p) && !Partial(p.name) :: SameAt(st, next, p) || KeptSafe(st, next, p))
  }

  /** No session comes, and none starts to commit; assets come only from committing sessions. */
  ghost predicate SessionsShrink(st: State, next: State)
  {
    && (forall id | id in next.sessions :: id in st.sessions && SameFile(st.sessions[id], next.sessions[id]))
    && (forall id | id in next.sessions && next.sessions[id].phase == Committing :: st.sessions[id].phase == Committing)
    && (forall a | a in next.assets && a !in st.assets ::
          InTransit(st, next.assets[a].path) && next.assets[a].path.Managed? && a >= st.nextAsset)
    && (forall a | a in st.assets :: a < st.nextAsset) && st.nextAsset <= next.nextAsset
    && (forall a | a in next.assets && a in st.assets :: next.assets[a].path == st.assets[a].path)
    && next.now == st.now && next.intents <= st.intents
  }

  ghost predicate Spares(st: State, next: State)
  {
    OriginalsStay(st, next) && OrphansStay(st, next) && SessionsShrink(st, next)
  }

  lemma PathsDiffer(c: Config, st: State, a: nat, b: nat)
    requires Inv(c, st) && a in st.assets && b in st.assets && st.assets[a].path == st.assets[b].path
    ensures a == b
  {
    hide Sessions;
    hide Origins;
    hide Files;
    assert SamePath(st, a, b);
  }

  lemma RowsAreOld(c: Config, st: State)
    requires Inv(c, st)
    ensures forall a | a in st.assets :: a < st.nextAsset
  {
    hide Inv;
    forall a | a in st.assets ensures a < st.nextAsset { AssetFacts(c, st, a); }
  }

  lemma SparesNothing(c: Config, st: State)
    requires Inv(c, st)
    ensures Spares(st, st)
  {
    hide Inv;
    RowsAreOld(c, st);
    forall a | a in st.assets && a !in st.intents ensures SameAt(st, st, st.assets[a].path) { AssetFacts(c, st, a); }
  }

  lemma ShrinkTrans(a: State, b: State, d: State)
    requires SessionsShrink(a, b) && SessionsShrink(b, d)
    ensures SessionsShrink(a, d)
    ensures forall p | InTransit(b, p) :: InTransit(a, p)
  {
  }

  lemma OrphansTrans(a: State, b: State, d: State)
    requires OrphansStay(a, b) && OrphansStay(b, d) && SessionsShrink(a, b)
    ensures OrphansStay(a, d)
  {
    forall p | !Indexed(a.assets, p) && Indexed(b.assets, p) ensures InTransit(a, p) && p.Managed? {
      var x :| x in b.assets && b.assets[x].path == p;
    }
  }

  lemma SparesTrans(a: State, b: State, d: State)
    requires Spares(a, b) && Spares(b, d)
    ensures Spares(a, d)
  {
    ShrinkTrans(a, b, d);
    hide SessionsShrink;
    OrphansTrans(a, b, d);
    hide OrphansStay;
  }

  // ---- Recovery and expiry of sessions ----

  /** `fmt.Sprintf("user-%d/%s%s", …)`: the place of an original in the flat layout. */
  function FlatDest(id: string, s: Session): Path { Flat(s.owner, id + s.ext) }

  lemma SparesDeletion(c: Config, st: State, done: set<nat>, gone: set<nat>)
    requires Inv(c, st) && done <= gone <= Doomed(st)
    ensures Spares(st, Purged(st, done, gone))
  {
    hide Inv;
    var next := Purged(st, done, gone);
    RowsAreOld(c, st);
    forall a | a in st.assets && a !in st.intents ensures SameAt(st, next, st.assets[a].path) {
      AssetFacts(c, st, a);
      forall b | b in gone ensures st.assets[b].path != st.assets[a].path {
        if st.assets[b].path == st.assets[a].path { PathsDiffer(c, st, a, b); }
      }
    }
    forall p | p in PathsOf(st, gone) ensures p.Flat? && Indexed(st.assets, p) {}
  }

  lemma SparesTouch(c: Config, st: State, next: State, id: string)
    requires Inv(c, st) && id in st.sessions && st.sessions[id].phase == Committing && TouchesOnly(id, st, next)
    requires id in next.sessions && SameFile(st.sessions[id], next.sessions[id])
    ensures Spares(st, next)
  {
    hide Inv;
    StagedIsExpendable(c, st, id, Part(id));
    StagedIsExpendable(c, st, id, Dest(id, st.sessions[id]));
    RowsAreOld(c, st);
    forall a | a in st.assets && a !in st.intents ensures SameAt(st, next, st.assets[a].path) { AssetFacts(c, st, a); }
  }

  /** Removing the part of a session that is not committing, and the session. */
  lemma SparesExpiry(c: Config, st: State, p: Path)
    requires Inv(c, st) && p.Part?
    ensures Spares(st, Without(st, p))
  {
    hide Inv;
    var next := Without(st, p);
    RowsAreOld(c, st);
    forall a | a in st.assets && a !in st.intents ensures SameAt(st, next, st.assets[a].path) { AssetFacts(c, st, a); }
  }

  lemma SparesForget(c: Config, st: State, id: string)
    requires Inv(c, st)
    ensures Spares(st, Forgotten(st, id))
  {
    hide Inv;
    var next := Forgotten(st, id);
    RowsAreOld(c, st);
    forall a | a in st.assets && a !in st.intents ensures SameAt(st, next, st.assets[a].path) { AssetFacts(c, st, a); }
  }

  /** A transfer that may still be resumed. */
  predicate Live(s: Session, cutoff: int) { s.phase == Uploading && s.updated > cutoff }

  /** A session that is not being finished, and was used lately. */
  predicate Recent(s: Session, cutoff: int) { s.phase != Committing && s.updated > cutoff }

  /**
   Recent sessions stay, except for receipts of an asset whose deletion was
   completed, and so does what a transfer that may be resumed has sent.
   */
  ghost predicate LiveStay(st: State, next: State, cutoff: int)
  {
    && next.intents <= st.intents
    && (forall id | id in st.sessions && Recent(st.sessions[id], cutoff) ::
          || (id in next.sessions && next.sessions[id] == st.sessions[id])
          || (st.sessions[id].phase != Uploading && st.sessions[id].asset in st.intents))
    && (forall id | id in st.sessions && Live(st.sessions[id], cutoff) :: Part(id) in st.files ==> SameAt(st, next, Part(id)))
  }

  /** What became of a session of `st`. */
  predicate Settled(st: State, next: State, protected: set<Path>, cutoff: int, id: string)
    requires id in st.sessions
  {
    var s := st.sessions[id];
    if s.phase == Committing then
      id in next.sessions && (next.sessions[id].phase in {Done, Duplicate} || (Part(id) in protected && FlatDest(id, s) in protected))
    else if s.updated > cutoff then id in next.sessions && next.sessions[id] == s && Part(id) in protected
    else id !in next.sessions
  }

  lemma FinishSpares(c: Config, st: State, next: State, id: string, cutoff: int)
    requires Inv(c, st) && id in st.sessions && st.sessions[id].phase == Committing && TouchesOnly(id, st, next)
    requires id in next.sessions && SameFile(st.sessions[id], next.sessions[id])
    ensures Spares(st, next) && LiveStay(st, next, cutoff)
    ensures forall i | i != id :: (i in next.sessions <==> i in st.sessions) && (i in next.sessions ==> next.sessions[i] == st.sessions[i])
  {
    hide Inv;
    SparesTouch(c, st, next, id);
    hide Spares;
  }

  lemma LiveExpiry(st: State, id: string, cutoff: int)
    requires id in st.sessions && !Recent(st.sessions[id], cutoff)
    ensures LiveStay(st, Without(st, Part(id)), cutoff) && LiveStay(st, Forgotten(st, id), cutoff) && LiveStay(st, st, cutoff)
  {
  }

  lemma PartGoes(c: Config, st: State, id: string)
    requires Inv(c, st) && id in st.sessions && st.sessions[id].phase == Uploading
    ensures Expendable(st, Part(id))
  {
    hide Inv;
    StagedIsExpendable(c, st, id, Part(id));
    DestsDiffer(st, id);
  }

  lemma LiveTrans(a: State, b: State, d: State, cutoff: int)
    requires LiveStay(a, b, cutoff) && LiveStay(b, d, cutoff)
    ensures LiveStay(a, d, cutoff)
  {
  }

  /** The part of an old session and then its row are removed. */
  method ExpireSession(server: UploadServer, id: string, cutoff: int, healthy: bool) returns (ok: bool)
    requires server.Valid() && id in server.sessions && server.sessions[id].phase != Committing && server.sessions[id].updated <= cutoff
    modifies server
    ensures server.Valid() && (healthy ==> ok) && (ok ==> id !in server.sessions)
    ensures Spares(old(server.Store()), server.Store()) && LiveStay(old(server.Store()), server.Store(), cutoff)
    ensures server.sessions == old(server.sessions) || server.sessions == old(server.sessions) - {id}
  {
    hide Inv;
    hide Run;
    hide Spares;
    hide LiveStay;
    hide Expendable;
    ghost var st := server.Store();
    server.Holds();
    SparesNothing(server.c, st);
    LiveExpiry(st, id, cutoff);
    ok := true;
    if server.sessions[id].phase == Uploading {
      PartGoes(server.c, st, id);
      SparesExpiry(server.c, st, Part(id));
      ok := server.RemoveFile(Part(id), healthy);
      if !ok { return; }
    }
    ghost var mid := server.Store();
    server.Holds();
    SparesNothing(server.c, mid);
    SparesForget(server.c, mid, id);
    LiveExpiry(mid, id, cutoff);
    ok := server.DeleteSession(id, healthy);
    SparesTrans(st, mid, server.Store());
    LiveTrans(st, mid, server.Store(), cutoff);
  }

  lemma LiveNothing(st: State, cutoff: int)
    ensures LiveStay(st, st, cutoff)
  {
  }

  /** One session is finished, protected or removed. */
  method SettleSession(server: UploadServer, id: string, protected: set<Path>, cutoff: int, healthy: bool)
    returns (ok: bool, protected': set<Path>)
    requires server.Valid() && id in server.sessions
    modifies server
    ensures server.Valid() && protected <= protected' && (healthy ==> ok)
    ensures Spares(old(server.Store()), server.Store()) && LiveStay(old(server.Store()), server.Store(), cutoff)
    ensures forall i | i != id ::
              && (i in server.sessions <==> i in old(server.sessions))
              && (i in server.sessions ==> server.sessions[i] == old(server.sessions)[i])
    ensures ok ==> Settled(old(server.Store()), server.Store(), protected', cutoff, id)
    ensures healthy && id in server.sessions ==> server.sessions[id].phase != Committing
    ensures healthy ==> forall p | p in protected' - protected :: p == Part(id) && id in server.sessions
  {
    hide Inv;
    hide Run;
    hide Spares;
    hide LiveStay;
    hide TouchesOnly;
    protected' := protected;
    ghost var st := server.Store();
    server.Holds();
    SparesNothing(server.c, st);
    LiveNothing(st, cutoff);
    var v := server.sessions[id];
    if v.phase == Committing {
      var outcome := FinishUpload(server, id, healthy);
      ok := true;
      FinishSpares(server.c, st, server.Store(), id, cutoff);
      if outcome != Finished {
        var stops: bool := *;
        protected' := protected + {Part(id), FlatDest(id, v)};
        ok := !stops;
      }
      return;
    }
    if v.updated > cutoff {
      return true, protected + {Part(id)};
    }
    ok := ExpireSession(server, id, cutoff, healthy);
  }

  ghost predicate AllSettled(st: State, next: State, protected: set<Path>, cutoff: int)
  {
    forall id | id in st.sessions :: Settled(st, next, protected, cutoff, id)
  }

  /** A later step on another session leaves a settled one as it is. */
  lemma SettledStays(st: State, a: State, b: State, protected: set<Path>, more: set<Path>, cutoff: int, i: string)
    requires i in st.sessions && Settled(st, a, protected, cutoff, i) && protected <= more
    requires (i in a.sessions <==> i in b.sessions) && (i in a.sessions ==> b.sessions[i] == a.sessions[i])
    ensures Settled(st, b, more, cutoff, i)
  {
  }

  lemma SettledHere(st: State, mid: State, next: State, protected: set<Path>, cutoff: int, id: string)
    requires id in st.sessions && id in mid.sessions && mid.sessions[id] == st.sessions[id] && Settled(mid, next, protected, cutoff, id)
    ensures Settled(st, next, protected, cutoff, id)
  {
  }

  /** The loop over the sessions. */
  method SettleSessions(server: UploadServer, cutoff: int, healthy: bool) returns (ok: bool, protected: set<Path>)
    requires server.Valid()
    modifies server
    ensures server.Valid() && (healthy ==> ok)
    ensures Spares(old(server.Store()), server.Store()) && LiveStay(old(server.Store()), server.Store(), cutoff)
    ensures ok ==> AllSettled(old(server.Store()), server.Store(), protected, cutoff)
    ensures healthy ==> forall id | id in server.sessions :: server.sessions[id].phase != Committing
    ensures healthy ==> forall p | p in protected :: p.Part? && p.id in server.sessions
  {
    hide Inv;
    hide Run;
    hide Spares;
    hide Settled;
    hide LiveStay;
    ghost var st := server.Store();
    server.Holds();
    SparesNothing(server.c, st);
    LiveNothing(st, cutoff);
    var rows := server.sessions;
    var rest := rows.Keys;
    protected := {};
    ok := true;
    while rest != {}
      invariant server.Valid() && Spares(st, server.Store()) && LiveStay(st, server.Store(), cutoff)
      invariant rest <= rows.Keys && server.sessions.Keys <= rows.Keys
      invariant forall i | i in rest :: i in server.sessions && server.sessions[i] == rows[i]
      invariant forall i | i in rows && i !in rest :: Settled(st, server.Store(), protected, cutoff, i)
      invariant healthy ==> forall i | i in server.sessions && i !in rest :: server.sessions[i].phase != Committing
      invariant healthy ==> forall p | p in protected :: p.Part? && p.id in server.sessions && p.id !in rest
      decreases |rest|
    {
      var id :| id in rest;
      ghost var mid, before := server.Store(), protected;
      ok, protected := SettleSession(server, id, protected, cutoff, healthy);
      SparesTrans(st, mid, server.Store());
      LiveTrans(st, mid, server.Store(), cutoff);
      if !ok { return; }
      SettledHere(st, mid, server.Store(), protected, cutoff, id);
      forall i | i in rows && i !in rest ensures Settled(st, server.Store(), protected, cutoff, i) {
        SettledStays(st, mid, server.Store(), before, protected, cutoff, i);
      }
      rest := rest - {id};
      if healthy {
        forall p | p in protected ensures p.Part? && p.id in server.sessions && p.id !in rest {
          assert p in before || p in protected - before;
        }
      }
    }
  }

  // ---- Parts that belong to no session ----

  predicate OldPart(files: map<Path, File>, p: Path, protected: set<Path>, cutoff: int)
  {
    p in files && p.Part? && p !in protected && files[p].mtime < cutoff
  }

  lemma SettledProtects(st: State, next: State, protected: set<Path>, cutoff: int)
    requires AllSettled(st, next, protected, cutoff) && SessionsShrink(st, next)
    ensures forall id | id in next.sessions :: Live(next.sessions[id], cutoff) ==> Part(id) in protected
    ensures forall id | id in next.sessions && next.sessions[id].phase == Committing ::
      Part(id) in protected && FlatDest(id, next.sessions[id]) in protected
  {
    forall id | id in next.sessions
      ensures Live(next.sessions[id], cutoff) ==> Part(id) in protected
      ensures next.sessions[id].phase == Committing ==> Part(id) in protected && FlatDest(id, next.sessions[id]) in protected
    {
      assert Settled(st, next, protected, cutoff, id);
    }
  }

  ghost predicate ProtectsOpen(st: State, protected: set<Path>, cutoff: int)
  {
    && (forall id | id in st.sessions && Live(st.sessions[id], cutoff) :: Part(id) in protected)
    && (forall id | id in st.sessions && st.sessions[id].phase == Committing :: Part(id) in protected)
  }

  lemma PartIsExpendable(c: Config, st: State, p: Path, protected: set<Path>, cutoff: int)
    requires Inv(c, st) && p.Part? && p !in protected && ProtectsOpen(st, protected, cutoff)
    ensures Expendable(st, p) && Spares(st, Without(st, p)) && LiveStay(st, Without(st, p), cutoff)
  {
    hide Inv;
    SparesExpiry(c, st, p);
    hide Spares;
    forall a | a in st.assets ensures st.assets[a].path != p { AssetFacts(c, st, a); }
  }

  /** The loop over `.incoming`. */
  method RemoveOldParts(server: UploadServer, protected: set<Path>, cutoff: int, healthy: bool) returns (ok: bool)
    requires server.Valid() && ProtectsOpen(server.Store(), protected, cutoff)
    modifies server
    ensures server.Valid() && (healthy ==> ok)
    ensures Spares(old(server.Store()), server.Store()) && LiveStay(old(server.Store()), server.Store(), cutoff)
    ensures server.sessions == old(server.sessions)
    ensures ok ==> forall p :: !OldPart(server.files, p, protected, cutoff)
  {
    hide Inv;
    hide Run;
    hide Spares;
    hide LiveStay;
    hide Expendable;
    ghost var st := server.Store();
    server.Holds();
    SparesNothing(server.c, st);
    LiveNothing(st, cutoff);
    var rest := set p | p in server.files && OldPart(server.files, p, protected, cutoff);
    ok := true;
    while rest != {}
      invariant server.Valid() && Spares(st, server.Store()) && LiveStay(st, server.Store(), cutoff) && server.sessions == st.sessions
      invariant forall p | p in rest :: p.Part? && p !in protected
      invariant forall p | OldPart(server.files, p, protected, cutoff) :: p in rest
      decreases |rest|
    {
      var p :| p in rest;
      ghost var mid := server.Store();
      server.Holds();
      PartIsExpendable(server.c, mid, p, protected, cutoff);
      SparesNothing(server.c, mid);
      LiveNothing(mid, cutoff);
      ok := server.RemoveFile(p, healthy);
      SparesTrans(st, mid, server.Store());
      LiveTrans(st, mid, server.Store(), cutoff);
      if !ok { return; }
      rest := rest - {p};
    }
  }

  // ---- Originals that no row names ----

  /** The flat files that a pass deals with. */
  predicate OldOrphan(assets: map<nat, Asset>, files: map<Path, File>, users: set<nat>, protected: set<Path>, cutoff: int, p: Path)
  {
    && p in files && p.Flat? && p.owner in users && p.owner >= 1 && Generated(p.name) && p !in protected
    && files[p].mtime < cutoff && !Indexed(assets, p)
  }

  /** An orphan that stays: of no supported format, or already in quarantine. */
  predicate Stays(c: Config, files: map<Path, File>, p: Path)
    requires p.Flat?
  {
    !Partial(p.name) && (c.limit(FormatOf(p.name)) == 0 || Kept(p.owner, p.name) in files)
  }

  lemma SparesPartial(c: Config, st: State, p: Path)
    requires Inv(c, st) && p.Flat? && Partial(p.name) && !Indexed(st.assets, p)
    ensures Expendable(st, p) && Spares(st, Without(st, p))
  {
    hide Inv;
    var next := Without(st, p);
    RowsAreOld(c, st);
    forall a | a in st.assets && a !in st.intents ensures SameAt(st, next, st.assets[a].path) { AssetFacts(c, st, a); }
  }

  lemma SparesQuarantine(c: Config, st: State, p: Path)
    requires Inv(c, st) && CanQuarantine(st, p)
    ensures Spares(st, Renamed(st, p, Kept(p.owner, p.name)))
  {
    hide Inv;
    var next := Renamed(st, p, Kept(p.owner, p.name));
    RowsAreOld(c, st);
    forall a | a in st.assets && a !in st.intents ensures SameAt(st, next, st.assets[a].path) { AssetFacts(c, st, a); }
  }

  lemma SparesRecord(c: Config, st: State, q: Path, r: Record)
    requires Inv(c, st)
    ensures Spares(st, Recorded(st, q, r))
  {
    SparesNothing(c, st);
  }

  /** Nothing changes but this file and its place in quarantine, which keeps what it has. */
  ghost predicate OnlyMoves(files: map<Path, File>, now: map<Path, File>, p: Path)
    requires p.Flat?
  {
    && (forall q | q != p && q != Kept(p.owner, p.name) :: (q in now <==> q in files) && (q in now ==> now[q] == files[q]))
    && (Kept(p.owner, p.name) in files ==> Kept(p.owner, p.name) in now)
  }

  lemma OneMoves(st: State, p: Path)
    requires p.Flat? && p in st.files
    ensures OnlyMoves(st.files, st.files, p) && OnlyMoves(st.files, Without(st, p).files, p)
    ensures OnlyMoves(st.files, Renamed(st, p, Kept(p.owner, p.name)).files, p)
  {
  }

  ghost predicate PartsStay(files: map<Path, File>, now: map<Path, File>)
  {
    forall q: Path | q.Part? :: (q in now <==> q in files) && (q in now ==> now[q] == files[q])
  }

  lemma RecordedCanMove(c: Config, st: State, p: Path, r: Record)
    requires p.Flat? && p in st.files && !Indexed(st.assets, p) && Kept(p.owner, p.name) !in st.files
    ensures var q, next := Kept(p.owner, p.name), Recorded(st, Kept(p.owner, p.name), r);
            Enabled(c, st, Note(q, r)) && Enabled(c, next, Action.Quarantine(p)) && CanQuarantine(next, p)
  {
  }

  /** The record comes first, then the rename. */
  method MoveToQuarantine(server: UploadServer, p: Path, healthy: bool) returns (ok: bool)
    requires server.Valid() && p.Flat? && p in server.files && !Indexed(server.assets, p) && Kept(p.owner, p.name) !in server.files
    modifies server
    ensures server.Valid() && (healthy ==> ok) && Spares(old(server.Store()), server.Store())
    ensures server.sessions == old(server.sessions) && server.assets == old(server.assets)
    ensures OnlyMoves(old(server.files), server.files, p)
    ensures ok ==> p !in server.files && KeptSafe(old(server.Store()), server.Store(), p) && Kept(p.owner, p.name) in server.quarantine
    ensures ok && Kept(p.owner, p.name) !in old(server.quarantine) ==>
              server.quarantine[Kept(p.owner, p.name)] == Record(p.owner, |old(server.files)[p].bytes|)
  {
    hide Inv;
    hide Run;
    hide CanQuarantine;
    hide Enabled;
    hide Indexed;
    hide Spares;
    hide OnlyMoves;
    ghost var st := server.Store();
    server.Holds();
    SparesNothing(server.c, st);
    OneMoves(st, p);
    var q, r := Kept(p.owner, p.name), Record(p.owner, |server.files[p].bytes|);
    SparesRecord(server.c, st, q, r);
    RecordedCanMove(server.c, st, p, r);
    ok := server.InsertRecord(q, r, healthy);
    if !ok { return; }
    ghost var mid := server.Store();
    server.Holds();
    SparesNothing(server.c, mid);
    SparesQuarantine(server.c, mid, p);
    ok := server.Quarantine(p, healthy);
    SparesTrans(st, mid, server.Store());
  }

  /** One flat file that no row names. */
  method TreatOrphan(server: UploadServer, p: Path, healthy: bool) returns (ok: bool)
    requires server.Valid() && p.Flat? && p in server.files && !Indexed(server.assets, p)
    modifies server
    ensures server.Valid() && (healthy ==> ok) && Spares(old(server.Store()), server.Store())
    ensures server.sessions == old(server.sessions) && server.assets == old(server.assets)
    ensures OnlyMoves(old(server.files), server.files, p)
    ensures ok ==> p !in server.files || Stays(server.c, server.files, p)
  {
    hide Inv;
    hide Run;
    hide Spares;
    hide Expendable;
    hide OnlyMoves;
    ghost var st := server.Store();
    server.Holds();
    SparesNothing(server.c, st);
    OneMoves(st, p);
    if Partial(p.name) {
      SparesPartial(server.c, st, p);
      ok := server.RemoveFile(p, healthy);
    } else if server.c.limit(FormatOf(p.name)) == 0 || Kept(p.owner, p.name) in server.files {
      ok := true;
    } else {
      ok := MoveToQuarantine(server, p, healthy);
    }
  }

  /** After one more file was dealt with, what is left of the list is still all that is left. */
  lemma OneLess(c: Config, assets: map<nat, Asset>, files: map<Path, File>, now: map<Path, File>,
                users: set<nat>, protected: set<Path>, cutoff: int, p: Path, rest: set<Path>)
    requires p.Flat? && OnlyMoves(files, now, p) && (p in now ==> Stays(c, now, p))
    requires forall q | q in rest :: OldOrphan(assets, files, users, protected, cutoff, q)
    requires forall q | OldOrphan(assets, files, users, protected, cutoff, q) && q !in rest :: Stays(c, files, q)
    ensures forall q | q in rest - {p} :: OldOrphan(assets, now, users, protected, cutoff, q)
    ensures forall q | OldOrphan(assets, now, users, protected, cutoff, q) && q !in rest - {p} :: Stays(c, now, q)
  {
    hide Generated;
    hide Indexed;
  }

  lemma PartsUnmoved(files: map<Path, File>, now: map<Path, File>, p: Path)
    requires p.Flat? && OnlyMoves(files, now, p)
    ensures PartsStay(files, now)
  {
  }

  /** The loop over the users' directories. */
  method TreatOrphans(server: UploadServer, users: set<nat>, protected: set<Path>, cutoff: int, healthy: bool) returns (ok: bool)
    requires server.Valid()
    modifies server
    ensures server.Valid() && (healthy ==> ok) && Spares(old(server.Store()), server.Store())
    ensures server.sessions == old(server.sessions) && PartsStay(old(server.files), server.files)
    ensures ok ==> forall p | OldOrphan(server.assets, server.files, users, protected, cutoff, p) :: Stays(server.c, server.files, p)
  {
    hide Inv;
    hide Run;
    hide Spares;
    hide Generated;
    hide Indexed;
    hide OnlyMoves;
    hide Stays;
    ghost var st := server.Store();
    server.Holds();
    SparesNothing(server.c, st);
    var rest := set p | p in server.files && OldOrphan(server.assets, server.files, users, protected, cutoff, p);
    ok := true;
    while rest != {}
      invariant server.Valid() && Spares(st, server.Store()) && server.sessions == st.sessions && server.assets == st.assets
      invariant forall p | p in rest :: OldOrphan(server.assets, server.files, users, protected, cutoff, p)
      invariant forall p | OldOrphan(server.assets, server.files, users, protected, cutoff, p) && p !in rest :: Stays(server.c, server.files, p)
      invariant PartsStay(st.files, server.files)
      decreases |rest|
    {
      var p :| p in rest;
      ghost var mid := server.Store();
      ok := TreatOrphan(server, p, healthy);
      SparesTrans(st, mid, server.Store());
      PartsUnmoved(mid.files, server.files, p);
      if !ok { return; }
      OneLess(server.c, server.assets, mid.files, server.files, users, protected, cutoff, p, rest);
      rest := rest - {p};
    }
  }

  // ---- The whole pass ----

  lemma UploadingHasNone(c: Config, st: State, id: string)
    requires Inv(c, st) && id in st.sessions && st.sessions[id].phase == Uploading
    ensures st.sessions[id].asset == 0
  {
    hide Assets;
    hide Origins;
    hide Files;
    assert SessionOk(c, st, id);
  }

  lemma LiveDeletion(c: Config, st: State, done: set<nat>, gone: set<nat>, cutoff: int)
    requires Inv(c, st) && done <= gone <= Doomed(st)
    ensures LiveStay(st, Purged(st, done, gone), cutoff)
  {
    hide Inv;
    forall a | a in done ensures a > 0 { AssetFacts(c, st, a); }
    forall id | id in st.sessions && Live(st.sessions[id], cutoff) ensures st.sessions[id].asset == 0 { UploadingHasNone(c, st, id); }
  }

  /** What an undisturbed pass leaves: nothing that is finished with, and nothing half done. */
  ghost predicate Clean(c: Config, st: State, users: set<nat>, cutoff: int)
  {
    && (forall id | id in st.sessions :: st.sessions[id].phase in {Done, Duplicate} || Live(st.sessions[id], cutoff))
    && (forall p | p in st.files && p.Part? && st.files[p].mtime < cutoff :: p.id in st.sessions)
    && (forall p | OldOrphan(st.assets, st.files, users, {}, cutoff, p) :: Stays(c, st.files, p))
    && Doomed(st) == {}
  }

  /**
   What an undisturbed pass leaves of the sessions, parts, orphans and deletions
   of `st`: sessions that were committing and are finished, and those used within
   the retention time; parts of sessions, and young ones; of the old files with a
   generated name and no row only those of no supported format and those with a
   copy in quarantine; and no deletion of an original with a plain flat path.
   */
  ghost predicate Tidy(c: Config, st: State, next: State, users: set<nat>)
  {
    var cutoff := st.now - c.retention;
    && (forall id | id in next.sessions ::
          && id in st.sessions && next.sessions[id].phase != Committing
          && (st.sessions[id].phase == Committing || (next.sessions[id] == st.sessions[id] && st.sessions[id].updated > cutoff)))
    && (forall p | p in next.files && p.Part? :: p.id in next.sessions || next.files[p].mtime >= cutoff)
    && (forall p | p in next.files && p.Flat? && p.owner in users && p.owner >= 1 && next.files[p].mtime < cutoff ::
          32 <= |Stem(p.name)| <= 80 && (forall x | x in Stem(p.name) :: x in "0123456789abcdef") ==>
            || (exists a | a in next.assets :: next.assets[a].path == p)
            || (FormatOf(p.name) != ".partial" && (c.limit(FormatOf(p.name)) == 0 || Kept(p.owner, p.name) in next.files)))
    && (forall a | a in next.intents && a in next.assets && next.assets[a].path.Flat? ::
          var p := next.assets[a].path;
          p.owner < 1 || p.owner >= 0x8000_0000_0000_0000 || '\\' in p.name || ':' in p.name || p.name == "." || p.name == "..")
  }

  lemma TidySessions(c: Config, st: State, purged: State, settled: State, protected: set<Path>, cutoff: int)
    requires purged == Pass(st) && AllSettled(purged, settled, protected, cutoff) && Spares(purged, settled)
    requires forall id | id in settled.sessions :: settled.sessions[id].phase != Committing
    ensures forall id | id in settled.sessions ::
              && id in st.sessions
              && (st.sessions[id].phase == Committing || (settled.sessions[id] == st.sessions[id] && st.sessions[id].updated > cutoff))
  {
    forall id | id in settled.sessions
      ensures id in st.sessions
      ensures st.sessions[id].phase == Committing || (settled.sessions[id] == st.sessions[id] && st.sessions[id].updated > cutoff)
    {
      assert Settled(purged, settled, protected, cutoff, id);
    }
  }

  lemma CleanOrphans(c: Config, st: State, users: set<nat>, cutoff: int, p: Path)
    requires Clean(c, st, users, cutoff) && p in st.files && p.Flat? && p.owner in users && p.owner >= 1 && st.files[p].mtime < cutoff
    requires 32 <= |Stem(p.name)| <= 80 && forall x | x in Stem(p.name) :: x in "0123456789abcdef"
    ensures (exists a | a in st.assets :: st.assets[a].path == p)
            || (FormatOf(p.name) != ".partial" && (c.limit(FormatOf(p.name)) == 0 || Kept(p.owner, p.name) in st.files))
  {
    if !Indexed(st.assets, p) {
      assert OldOrphan(st.assets, st.files, users, {}, cutoff, p);
    }
  }

  lemma CleanDeletions(c: Config, st: State, users: set<nat>, cutoff: int, a: nat)
    requires Clean(c, st, users, cutoff) && a in st.intents && a in st.assets && st.assets[a].path.Flat?
    ensures var p := st.assets[a].path;
            p.owner < 1 || p.owner >= 0x8000_0000_0000_0000 || '\\' in p.name || ':' in p.name || p.name == "." || p.name == ".."
  {
    assert a !in Doomed(st);
  }

  lemma TidyHere(c: Config, st: State, settled: State, next: State, users: set<nat>)
    requires next.sessions == settled.sessions && next.now == st.now && Clean(c, next, users, st.now - c.retention)
    requires forall id | id in settled.sessions :: settled.sessions[id].phase != Committing
    requires forall id | id in settled.sessions ::
               && id in st.sessions
               && (st.sessions[id].phase == Committing
                   || (settled.sessions[id] == st.sessions[id] && st.sessions[id].updated > st.now - c.retention))
    ensures Tidy(c, st, next, users)
  {
    hide OldOrphan;
    hide Stays;
    hide Doomed;
    var cutoff := st.now - c.retention;
    forall p | p in next.files && p.Flat? && p.owner in users && p.owner >= 1 && next.files[p].mtime < cutoff
               && 32 <= |Stem(p.name)| <= 80 && forall x | x in Stem(p.name) :: x in "0123456789abcdef"
      ensures (exists a | a in next.assets :: next.assets[a].path == p)
              || (FormatOf(p.name) != ".partial" && (c.limit(FormatOf(p.name)) == 0 || Kept(p.owner, p.name) in next.files))
    {
      CleanOrphans(c, next, users, cutoff, p);
    }
    forall a | a in next.intents && a in next.assets && next.assets[a].path.Flat?
      ensures var p := next.assets[a].path;
              p.owner < 1 || p.owner >= 0x8000_0000_0000_0000 || '\\' in p.name || ':' in p.name || p.name == "." || p.name == ".."
    {
      CleanDeletions(c, next, users, cutoff, a);
    }
  }

  lemma Protected(st: State, next: State, protected: set<Path>, cutoff: int)
    requires AllSettled(st, next, protected, cutoff) && Spares(st, next)
    ensures ProtectsOpen(next, protected, cutoff)
  {
    SettledProtects(st, next, protected, cutoff);
  }

  lemma LiveSame(st: State, next: State, cutoff: int)
    requires next.sessions == st.sessions && Spares(st, next)
    requires PartsStay(st.files, next.files)
    ensures LiveStay(st, next, cutoff)
  {
  }

  lemma PassLeavesNone(st: State, purged: State, next: State)
    requires purged == Pass(st) && Spares(purged, next)
    ensures Doomed(next) == {} && next.now == st.now
  {
    assert Doomed(purged) == {};
  }

  lemma CleanHere(c: Config, purged: State, settled: State, swept: State, next: State, users: set<nat>, protected: set<Path>, cutoff: int)
    requires AllSettled(purged, settled, protected, cutoff) && Spares(purged, settled)
    requires forall id | id in settled.sessions :: settled.sessions[id].phase != Committing
    requires forall p | p in protected :: p.Part? && p.id in settled.sessions
    requires swept.sessions == settled.sessions && next.sessions == swept.sessions
    requires forall p :: !OldPart(swept.files, p, protected, cutoff)
    requires PartsStay(swept.files, next.files)
    requires forall p | OldOrphan(next.assets, next.files, users, protected, cutoff, p) :: Stays(c, next.files, p)
    requires Doomed(next) == {}
    ensures Clean(c, next, users, cutoff)
  {
    hide Stays;
    forall id | id in next.sessions ensures next.sessions[id].phase in {Done, Duplicate} || Live(next.sessions[id], cutoff) {
      assert Settled(purged, settled, protected, cutoff, id);
    }
    forall p | p in next.files && p.Part? && next.files[p].mtime < cutoff ensures p.id in next.sessions {
      assert !OldPart(swept.files, p, protected, cutoff);
    }
    forall p | OldOrphan(next.assets, next.files, users, {}, cutoff, p) ensures Stays(c, next.files, p) {
      assert OldOrphan(next.assets, next.files, users, protected, cutoff, p);
    }
  }

  /**
   `cleanUploads`, stopped anywhere: no original of the library, no transfer
   that may go on, and no complete original without a row is lost.
   */
  method CleanUploads(server: UploadServer, users: set<nat>, healthy: bool) returns (ok: bool)
    requires server.Valid()
    modifies server
    ensures server.Valid() && (healthy ==> ok)
    ensures Spares(old(server.Store()), server.Store())
    ensures LiveStay(old(server.Store()), server.Store(), Cutoff(server.c, old(server.Store())))
    ensures healthy ==> Clean(server.c, server.Store(), users, Cutoff(server.c, server.Store()))
    ensures healthy ==> Tidy(server.c, old(server.Store()), server.Store(), users)
  {
    hide Inv;
    hide Run;
    hide Spares;
    hide LiveStay;
    hide Settled;
    hide Purged;
    hide Tidy;
    hide Clean;
    hide OldOrphan;
    hide Stays;
    ghost var st := server.Store();
    server.Holds();
    var cutoff := server.now - server.c.retention;
    var crashed, done, gone := FinishMediaDeletions(server, healthy);
    SparesDeletion(server.c, st, done, gone);
    LiveDeletion(server.c, st, done, gone, cutoff);
    if crashed { return false; }
    ghost var purged := server.Store();
    var protected;
    ok, protected := SettleSessions(server, cutoff, healthy);
    ghost var settled := server.Store();
    SparesTrans(st, purged, settled);
    LiveTrans(st, purged, settled, cutoff);
    if !ok { return; }
    Protected(purged, settled, protected, cutoff);
    ok := RemoveOldParts(server, protected, cutoff, healthy);
    ghost var swept := server.Store();
    SparesTrans(st, settled, swept);
    LiveTrans(st, settled, swept, cutoff);
    if !ok { return; }
    ok := TreatOrphans(server, users, protected, cutoff, healthy);
    SparesTrans(st, swept, server.Store());
    LiveSame(swept, server.Store(), cutoff);
    LiveTrans(st, swept, server.Store(), cutoff);
    if healthy {
      SparesTrans(purged, settled, swept);
      SparesTrans(purged, swept, server.Store());
      PassLeavesNone(st, purged, server.Store());
      CleanHere(server.c, purged, settled, swept, server.Store(), users, protected, cutoff);
      TidySessions(server.c, st, purged, settled, protected, cutoff);
      TidyHere(server.c, st, settled, server.Store(), users);
    }
  }
}
