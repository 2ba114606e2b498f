/**
 The request handlers of resumable uploads (internal/api/upload_sessions.go).
 `healthy` says that nothing fails and the server does not crash; without it a
 handler may end after any of its effects.
 */
module UploadHandlers {
  import opened Options
  import opened Totals
  import opened UploadPaths
  import opened Uploads
  import opened UploadSteps
  import opened UploadRuns
  import opened UploadStore
  import opened FileNames
  import ManagedFolders

  const CHUNK_SIZE := 8388608

  datatype Reply = Accepted | NotFound | Invalid | Conflict | Expired | Full | TooMany | Failed
  datatype Outcome = Finished | Incomplete | Missing | Corrupt | Interrupted

  // ---- What the invariant says to a handler ----

  lemma UploadingFacts(c: Config, st: State, id: string)
    requires Inv(c, st) && id in st.sessions && st.sessions[id].phase == Uploading
    ensures PartOk(st, id, st.sessions[id]) && Dest(id, st.sessions[id]) !in st.files
  {
    hide Assets;
    hide Origins;
    hide Files;
    assert SessionOk(c, st, id);
  }

  /** A committing session can always go on: its verified bytes are at exactly one of the two paths. */
  lemma CommittingFacts(c: Config, st: State, id: string)
    requires Inv(c, st) && id in st.sessions && st.sessions[id].phase == Committing
    ensures Ready(c, st, id)
    ensures Part(id) in st.files <==> Dest(id, st.sessions[id]) !in st.files
    ensures HoldsAt(c, st, st.sessions[id], Staged(st, id))
  {
    hide Assets;
    hide Origins;
    hide Files;
    assert SessionOk(c, st, id);
  }

  /** A finished session's asset holds the declared bytes. */
  lemma DoneFacts(c: Config, st: State, id: string)
    requires Inv(c, st) && id in st.sessions && st.sessions[id].phase == Done
    ensures st.sessions[id].asset in st.assets
    ensures st.sessions[id].asset !in st.intents ==> HoldsAt(c, st, st.sessions[id], Dest(id, st.sessions[id]))
  {
    hide Assets;
    hide Origins;
    hide Files;
    assert SessionOk(c, st, id);
  }

  /** The result of a finished session is a stored asset. */
  lemma ResultFacts(c: Config, st: State, id: string)
    requires Inv(c, st) && id in st.sessions && st.sessions[id].phase in {Done, Duplicate}
    ensures st.sessions[id].asset in st.assets
  {
    hide Assets;
    hide Origins;
    hide Files;
    assert SessionOk(c, st, id);
  }

  lemma StagedIsExpendable(c: Config, st: State, id: string, p: Path)
    requires Inv(c, st) && id in st.sessions && st.sessions[id].phase in {Uploading, Committing}
    requires p == Part(id) || p == Dest(id, st.sessions[id])
    ensures forall a | a in st.assets :: st.assets[a].path != p
  {
    hide Origins;
    hide Files;
    assert DestFree(st, id);
    assert forall a | a in st.assets :: AssetOk(c, st, a);
  }

  lemma AssetFacts(c: Config, st: State, a: nat)
    requires Inv(c, st) && a in st.assets
    ensures AssetOk(c, st, a)
  {
    hide Sessions;
    hide Origins;
    hide Files;
  }

  // ---- Duplicates ----

  /** The rows that the query of `findDuplicate` returns. */
  predicate Candidate(assets: map<nat, Asset>, intents: set<nat>, a: nat, uid: nat, size: nat, digest: string)
  {
    && a in assets && a !in intents && OwnerOf(assets[a].path) == Some(uid) && assets[a].size == size
    && assets[a].hash in {None, Some(digest)}
  }

  function Candidates(assets: map<nat, Asset>, intents: set<nat>, uid: nat, size: nat, digest: string): set<nat>
  {
    set a | a in assets && Candidate(assets, intents, a, uid, size, digest)
  }

  /** `ORDER BY trashed_at,id` */
  predicate Before(assets: map<nat, Asset>, a: nat, b: nat)
    requires a in assets && b in assets
  {
    assets[a].trashedAt < assets[b].trashedAt || (assets[a].trashedAt == assets[b].trashedAt && a <= b)
  }

  lemma BeforeTrans(assets: map<nat, Asset>, a: nat, b: nat, d: nat)
    requires a in assets && b in assets && d in assets && Before(assets, a, b) && Before(assets, b, d)
    ensures Before(assets, a, d)
  {
  }

  lemma BeforeTotal(assets: map<nat, Asset>, a: nat, b: nat)
    requires a in assets && b in assets
    ensures Before(assets, a, b) || Before(assets, b, a)
    ensures Before(assets, a, a)
  {
  }

  predicate IsFirst(assets: map<nat, Asset>, s: set<nat>, a: nat)
    requires s <= assets.Keys
  {
    a in s && forall b | b in s :: Before(assets, a, b)
  }

  lemma FirstIsBefore(assets: map<nat, Asset>, s: set<nat>, a: nat, b: nat)
    requires s <= assets.Keys && IsFirst(assets, s, a) && b in s
    ensures Before(assets, a, b)
  {
  }

  lemma {:induction false} FirstExists(assets: map<nat, Asset>, s: set<nat>) returns (first: nat)
    requires s != {} && s <= assets.Keys
    ensures IsFirst(assets, s, first)
  {
    hide Before;
    var a :| a in s;
    BeforeTotal(assets, a, a);
    first := a;
    if s != {a} {
      var b := FirstExists(assets, s - {a});
      BeforeTotal(assets, a, b);
      first := if Before(assets, a, b) then a else b;
      forall d | d in s ensures Before(assets, first, d) {
        if d != a {
          assert d in s - {a};
          BeforeTrans(assets, first, b, d);
        }
      }
    }
  }

  /** Nothing but digests of stored bytes was filled in. */
  ghost predicate OnlyHashes(st: State, next: State)
  {
    && next == st.(assets := next.assets) && next.assets.Keys == st.assets.Keys
    && forall a | a in st.assets :: next.assets[a].(hash := st.assets[a].hash) == st.assets[a]
  }

  lemma MatchesStable(c: Config, st: State, next: State, uid: nat, size: nat, digest: string)
    requires OnlyHashes(st, next)
    ensures forall a :: Matches(c, next, a, uid, size, digest) <==> Matches(c, st, a, uid, size, digest)
    ensures forall a, b | a in st.assets && b in st.assets :: Before(next.assets, a, b) <==> Before(st.assets, a, b)
  {
    forall a | a in st.assets ensures next.assets[a].path == st.assets[a].path && next.assets[a].size == st.assets[a].size
      && next.assets[a].trashedAt == st.assets[a].trashedAt
    {
      assert next.assets[a].(hash := st.assets[a].hash) == st.assets[a];
    }
  }

  lemma MatchesAreCandidates(c: Config, st: State, uid: nat, size: nat, digest: string)
    requires Inv(c, st)
    ensures forall a | Matches(c, st, a, uid, size, digest) :: a in Candidates(st.assets, st.intents, uid, size, digest)
  {
    hide Inv;
    forall a | Matches(c, st, a, uid, size, digest) ensures a in Candidates(st.assets, st.intents, uid, size, digest) {
      AssetFacts(c, st, a);
      assert st.assets[a].hash in {None, Some(digest)};
    }
  }

  lemma CandidateFacts(c: Config, st: State, a: nat, uid: nat, size: nat, digest: string)
    requires Inv(c, st) && Candidate(st.assets, st.intents, a, uid, size, digest)
    ensures st.assets[a].path in st.files && |st.files[st.assets[a].path].bytes| == size
    ensures Matches(c, st, a, uid, size, digest) <==> c.hash(st.files[st.assets[a].path].bytes) == digest
    ensures st.assets[a].hash == Some(digest) ==> Matches(c, st, a, uid, size, digest)
  {
    hide Inv;
    AssetFacts(c, st, a);
  }

  lemma HashKeeps(c: Config, st: State, next: State, a: nat)
    requires OnlyHashes(st, next) && a in st.assets && st.assets[a].path in st.files
    ensures a in next.assets && next.assets[a].path in next.files && OnlyHashes(st, Hashed(c, next, a))
  {
    assert next.assets[a].(hash := st.assets[a].hash) == st.assets[a];
  }

  /** An original below the user's directory, not being deleted, of this size and with this digest. */
  predicate HasBytes(c: Config, st: State, a: nat, uid: nat, size: nat, digest: string)
  {
    && a in st.assets && a !in st.intents && st.assets[a].size == size
    && var p := st.assets[a].path;
       (p.Managed? || p.Flat?) && p.owner == uid && p in st.files && c.hash(st.files[p].bytes) == digest
  }

  lemma BytesMatch(c: Config, st: State, uid: nat, size: nat, digest: string)
    ensures forall a :: HasBytes(c, st, a, uid, size, digest) <==> Matches(c, st, a, uid, size, digest)
  {
  }

  /** Finds the first stored original with these bytes, if there is one; bytes are hashed when no digest is stored. */
  method FindDuplicate(server: UploadServer, uid: nat, size: nat, digest: string, healthy: bool) returns (ok: bool, found: nat)
    requires server.Valid()
    modifies server
    ensures server.Valid() && (healthy ==> ok) && OnlyHashes(old(server.Store()), server.Store())
    ensures ok && found > 0 ==>
      && Matches(server.c, old(server.Store()), found, uid, size, digest)
      && forall a | Matches(server.c, old(server.Store()), a, uid, size, digest) :: Before(old(server.assets), found, a)
    ensures ok && found == 0 ==> forall a :: !Matches(server.c, old(server.Store()), a, uid, size, digest)
    ensures ok && found > 0 ==> HasBytes(server.c, old(server.Store()), found, uid, size, digest)
    ensures ok ==> forall a | HasBytes(server.c, old(server.Store()), a, uid, size, digest) ::
                     && found > 0
                     && (|| old(server.assets)[found].trashedAt < old(server.assets)[a].trashedAt
                         || (old(server.assets)[found].trashedAt == old(server.assets)[a].trashedAt && found <= a))
  {
    hide Inv;
    hide Run;
    hide Matches;
    hide OwnerOf;
    server.Holds();
    ghost var st := server.Store();
    BytesMatch(server.c, st, uid, size, digest);
    hide HasBytes;
    var rows := server.assets;
    var rest := Candidates(rows, server.intents, uid, size, digest);
    MatchesAreCandidates(server.c, st, uid, size, digest);
    found := 0;
    while rest != {}
      invariant server.Valid() && OnlyHashes(st, server.Store()) && found == 0
      invariant forall a | a in rest :: Candidate(rows, st.intents, a, uid, size, digest)
      invariant forall a | Matches(server.c, st, a, uid, size, digest) :: a in rest
      decreases |rest|
    {
      ghost var first := FirstExists(rows, rest);
      var a :| a in rest && IsFirst(rows, rest, a);
      CandidateFacts(server.c, st, a, uid, size, digest);
      var p, hash := rows[a].path, rows[a].hash;
      if hash == None {
        if p !in server.files || |server.files[p].bytes| != size {
          rest := rest - {a};
          continue;
        }
        hash := Some(server.c.hash(server.files[p].bytes));
        HashKeeps(server.c, st, server.Store(), a);
        ok := server.StoreHash(a, healthy);
        if !ok { return; }
      }
      if hash == Some(digest) {
        AssetFacts(server.c, st, a);
        forall b | Matches(server.c, st, b, uid, size, digest) ensures Before(rows, a, b) {
          assert b in rest;
          FirstIsBefore(rows, rest, a, b);
        }
        return true, a;
      }
      rest := rest - {a};
    }
    return true, 0;
  }

  // ---- A chunk ----

  /** The file is long enough to go on: nothing that was acknowledged is missing. */
  predicate PartLongEnough(st: State, id: string)
    requires id in st.sessions
  {
    st.sessions[id].received == 0 || (Part(id) in st.files && |st.files[Part(id)].bytes| >= st.sessions[id].received)
  }

  /** The chunks that are accepted. */
  predicate ChunkFits(c: Config, st: State, uid: nat, id: string, offset: int, data: Bytes)
  {
    && id in st.sessions && st.sessions[id].owner == uid && 0 < |data| <= CHUNK_SIZE
    && st.sessions[id].phase == Uploading && offset == st.sessions[id].received
    && st.sessions[id].updated >= Cutoff(c, st) && |data| <= st.sessions[id].size - st.sessions[id].received
    && PartLongEnough(st, id)
  }

  /** The part file ends with the chunk and the row says so. */
  ghost function ChunkStored(st: State, id: string, data: Bytes): State
    requires id in st.sessions && id in st.acked
  {
    Acked(WithPart(st, id, st.acked[id] + data), id, data)
  }

  /** What an interrupted chunk leaves: the file has other bytes, or all is done but the answer. */
  ghost predicate PartlyStored(st: State, next: State, id: string, data: Bytes)
    requires id in st.sessions && id in st.acked
  {
    next == st || next == ChunkStored(st, id, data) || (exists bytes :: next == WithPart(st, id, bytes))
  }

  lemma CutKeepsAcked(c: Config, st: State, id: string)
    requires Inv(c, st) && id in st.sessions && st.sessions[id].phase == Uploading
    requires Part(id) in st.files && |st.files[Part(id)].bytes| >= st.sessions[id].received
    ensures id in st.acked && st.files[Part(id)].bytes[..st.sessions[id].received] == st.acked[id]
    ensures st.sessions[id].received <= st.sessions[id].size
  {
    hide Inv;
    UploadingFacts(c, st, id);
  }

  lemma AgainWithPart(st: State, id: string, bytes: Bytes, data: Bytes)
    requires id in st.sessions && id in st.acked
    ensures ChunkStored(WithPart(st, id, bytes), id, data) == ChunkStored(st, id, data)
    ensures forall other :: WithPart(WithPart(st, id, bytes), id, other) == WithPart(st, id, other)
  {
    forall other ensures WithPart(WithPart(st, id, bytes), id, other) == WithPart(st, id, other) {
      assert WithPart(WithPart(st, id, bytes), id, other).files == WithPart(st, id, other).files;
    }
    assert ChunkStored(WithPart(st, id, bytes), id, data).files == ChunkStored(st, id, data).files;
  }

  /** The writing part of `uploadChunk`: what a crash before the last acknowledgement left behind is cut off first. */
  method AppendChunk(server: UploadServer, id: string, data: Bytes, torn: nat, healthy: bool) returns (ok: bool)
    requires server.Valid() && id in server.sessions && server.sessions[id].phase == Uploading && Part(id) in server.files
    requires |server.files[Part(id)].bytes| >= server.sessions[id].received
    requires |data| <= server.sessions[id].size - server.sessions[id].received
    requires server.sessions[id].updated >= Cutoff(server.c, server.Store())
    modifies server
    ensures server.Valid() && (healthy ==> ok) && id in old(server.acked)
    ensures ok ==> server.Store() == ChunkStored(old(server.Store()), id, data)
    ensures PartlyStored(old(server.Store()), server.Store(), id, data)
  {
    hide Inv;
    hide Run;
    ghost var st := server.Store();
    server.Holds();
    CutKeepsAcked(server.c, st, id);
    var kept := server.files[Part(id)].bytes[..server.sessions[id].received];
    var written := kept + data;
    assert written[..|kept|] == kept;
    ok := server.WritePart(id, kept, healthy);
    AgainWithPart(st, id, kept, data);
    if !ok { return; }
    if !healthy {
      // The write may stop anywhere.
      var some := kept + data[..if torn <= |data| then torn else |data|];
      assert some[..|kept|] == kept;
      var _ := server.WritePart(id, some, healthy);
      AgainWithPart(st, id, some, data);
      var stops: bool := *;
      if stops { return false; }
    }
    ok := server.WritePart(id, written, healthy);
    if !ok { return; }
    ok := server.Acknowledge(id, data, healthy);
  }

  /** The file is the acknowledged bytes and the chunk, the row says so, and no other row or file changes. */
  predicate ChunkArrived(st: State, next: State, id: string, data: Bytes)
  {
    && id in st.sessions && Part(id) in next.files
    && var s := st.sessions[id];
       && next.sessions == st.sessions[id := s.(received := s.received + |data|, updated := st.now)]
       && next.files == st.files[Part(id) := next.files[Part(id)]] && next.files[Part(id)].mtime == st.now
       && next.assets == st.assets && next.now == st.now
       && (s.received == 0 ==> next.files[Part(id)].bytes == data)
       && (s.received > 0 ==>
             && Part(id) in st.files && |st.files[Part(id)].bytes| >= s.received
             && next.files[Part(id)].bytes == st.files[Part(id)].bytes[..s.received] + data)
  }

  lemma ArrivedHere(c: Config, st: State, uid: nat, id: string, offset: int, data: Bytes)
    requires Inv(c, st) && ChunkFits(c, st, uid, id, offset, data) && id in st.acked
    ensures ChunkArrived(st, ChunkStored(st, id, data), id, data)
  {
    hide Inv;
    UploadingFacts(c, st, id);
  }

  /** `uploadChunk` */
  method UploadChunk(server: UploadServer, uid: nat, id: string, offset: int, data: Bytes, torn: nat, healthy: bool) returns (reply: Reply)
    requires server.Valid()
    modifies server
    ensures server.Valid()
    ensures healthy ==> (reply == Accepted <==> ChunkFits(server.c, old(server.Store()), uid, id, offset, data)) && reply != Failed
    ensures reply == Accepted ==>
      && ChunkFits(server.c, old(server.Store()), uid, id, offset, data) && id in old(server.acked)
      && server.Store() == ChunkStored(old(server.Store()), id, data)
    ensures reply == Failed ==>
      id in old(server.sessions) && id in old(server.acked) && PartlyStored(old(server.Store()), server.Store(), id, data)
    ensures reply == Accepted ==> ChunkArrived(old(server.Store()), server.Store(), id, data)
    ensures healthy ==>
      (reply == Accepted <==>
         && id in old(server.sessions) && old(server.sessions)[id].owner == uid && 0 < |data| <= 8388608
         && var s := old(server.sessions)[id];
            && s.phase == Uploading && offset == s.received && s.updated >= server.now - server.c.retention
            && s.received + |data| <= s.size
            && (s.received == 0 || (Part(id) in old(server.files) && |old(server.files)[Part(id)].bytes| >= s.received)))
    ensures reply !in {Accepted, Failed} ==> server.Store() == old(server.Store()) || server.Store() == WithPart(old(server.Store()), id, [])
  {
    hide ChunkArrived;
    hide Inv;
    hide Run;
    if id !in server.sessions || server.sessions[id].owner != uid { return NotFound; }
    if data == [] || |data| > CHUNK_SIZE { return Invalid; }
    var v := server.sessions[id];
    if v.phase != Uploading || offset != v.received { return Conflict; }
    if v.updated < server.now - server.c.retention { return Expired; }
    if |data| > v.size - v.received { return Invalid; }
    ghost var st := server.Store();
    server.Holds();
    UploadingFacts(server.c, st, id);
    var ok;
    if Part(id) !in server.files {
      ok := server.WritePart(id, [], healthy);
      if !ok { return Failed; }
      AgainWithPart(st, id, [], data);
    }
    if |server.files[Part(id)].bytes| < v.received { return Conflict; }
    ok := AppendChunk(server, id, data, torn, healthy);
    AgainWithPart(st, id, [], data);
    ArrivedHere(server.c, st, uid, id, offset, data);
    return if ok then Accepted else Failed;
  }

  // ---- Completion ----

  /** Nothing but this session, its two files, digests and at most one new asset is touched. */
  ghost predicate TouchesOnly(id: string, st: State, next: State)
  {
    && (forall i | i != id :: (i in st.sessions <==> i in next.sessions) && (i in st.sessions ==> next.sessions[i] == st.sessions[i]))
    && (forall a | a in st.assets :: a in next.assets && next.assets[a].path == st.assets[a].path && next.assets[a].size == st.assets[a].size
                                     && next.assets[a].trashedAt == st.assets[a].trashedAt)
    && (forall a | a in next.assets && a !in st.assets ::
          id in st.sessions && next.assets[a].path == Dest(id, st.sessions[id]) && a >= st.nextAsset)
    && st.nextAsset <= next.nextAsset
    && (forall a :: a in next.jobs <==> a in st.jobs || (a in next.assets && a !in st.assets))
    && (id in st.sessions ==> forall p | p != Part(id) && p != Dest(id, st.sessions[id]) ::
          (p in st.files <==> p in next.files) && (p in st.files ==> next.files[p] == st.files[p]))
    && next.intents == st.intents && next.quarantine == st.quarantine && next.now == st.now && next.used == st.used
  }

  lemma SameRows(st: State, next: State)
    requires OnlyHashes(st, next)
    ensures forall id :: TouchesOnly(id, st, next)
    ensures forall a | a in st.assets ::
              && next.assets[a].path == st.assets[a].path && next.assets[a].size == st.assets[a].size
              && next.assets[a].trashedAt == st.assets[a].trashedAt
  {
    forall a | a in st.assets ensures next.assets[a].path == st.assets[a].path && next.assets[a].size == st.assets[a].size
      && next.assets[a].trashedAt == st.assets[a].trashedAt
    {
      assert next.assets[a].(hash := st.assets[a].hash) == st.assets[a];
    }
  }

  lemma TouchTrans(id: string, a: State, b: State, d: State)
    requires id in a.sessions && id in b.sessions && SameFile(a.sessions[id], b.sessions[id])
    requires TouchesOnly(id, a, b) && TouchesOnly(id, b, d)
    ensures TouchesOnly(id, a, d)
  {
  }

  lemma TouchesNothing(id: string, st: State)
    ensures TouchesOnly(id, st, st)
  {
  }

  lemma TouchSession(id: string, st: State, s: Session)
    ensures TouchesOnly(id, st, st.(sessions := st.sessions[id := s]))
    ensures TouchesOnly(id, st, Forgotten(st, id))
  {
  }

  lemma TouchFiles(id: string, st: State)
    requires id in st.sessions
    ensures Part(id) in st.files ==> TouchesOnly(id, st, Renamed(st, Part(id), Dest(id, st.sessions[id])))
    ensures TouchesOnly(id, st, Without(st, Part(id))) && TouchesOnly(id, st, Without(st, Dest(id, st.sessions[id])))
  {
  }

  lemma DestsDiffer(st: State, id: string)
    requires id in st.sessions
    ensures forall i | i in st.sessions && i != id ::
              && Part(i) != Part(id) && Dest(i, st.sessions[i]) != Dest(id, st.sessions[id])
              && Part(i) != Dest(id, st.sessions[id]) && Dest(i, st.sessions[i]) != Part(id)
  {
  }

  /** The end of `finishUpload` for bytes that are stored already. */
  method FinishAsDuplicate(server: UploadServer, id: string, a: nat, path: Path, healthy: bool) returns (outcome: Outcome)
    requires server.Valid() && CanMarkDuplicate(server.c, server.Store(), id, a) && path == Staged(server.Store(), id)
    modifies server
    ensures server.Valid() && id in server.sessions && TouchesOnly(id, old(server.Store()), server.Store())
    ensures outcome in {Finished, Interrupted} && (healthy ==> outcome == Finished)
    ensures SameFile(old(server.sessions)[id], server.sessions[id])
    ensures outcome == Finished ==> server.sessions[id].phase == Duplicate && server.sessions[id].asset == a
    ensures server.Store() == old(server.Store()) || server.sessions[id].phase == Duplicate
    ensures healthy ==> path !in server.files
    ensures server.sessions[id].phase == Duplicate ==> server.sessions[id].updated == old(server.now)
    ensures server.jobs == old(server.jobs)
  {
    hide Inv;
    hide Run;
    hide Matches;
    hide TouchesOnly;
    ghost var st := server.Store();
    server.Holds();
    StagedIsExpendable(server.c, st, id, path);
    DestsDiffer(st, id);
    TouchesNothing(id, st);
    TouchSession(id, st, MarkedDuplicate(st, id, a).sessions[id]);
    var ok := server.MarkDuplicate(id, a, healthy);
    if !ok { return Interrupted; }
    ghost var marked := server.Store();
    TouchesNothing(id, marked);
    TouchFiles(id, marked);
    var _ := server.RemoveFile(path, healthy);
    TouchTrans(id, st, marked, server.Store());
    return Finished;
  }

  lemma TouchFinalised(id: string, st: State)
    requires id in st.sessions && st.nextAsset !in st.assets
    ensures TouchesOnly(id, st, Finalised(st, id))
  {
  }

  lemma NextIsFree(server: UploadServer)
    requires server.Valid()
    ensures server.nextAsset !in server.assets
  {
    hide Inv;
    hide Run;
    server.Holds();
    if server.nextAsset in server.assets {
      AssetFacts(server.c, server.Store(), server.nextAsset);
    }
  }

  /** The session made the next asset, with its own file, size and digest, and not in the trash. */
  predicate RowMade(st: State, next: State, id: string)
  {
    && id in st.sessions && id in next.sessions && next.sessions[id].asset == st.nextAsset && st.nextAsset in next.assets
    && var s := st.sessions[id];
       next.assets[st.nextAsset] == Asset(Managed(s.owner, id, s.ext), s.size, Some(s.hash), 0)
  }

  method Place(server: UploadServer, id: string, atDest: bool, healthy: bool) returns (outcome: Outcome)
    requires server.Valid() && id in server.sessions && server.sessions[id].phase == Committing
    requires atDest <==> Dest(id, server.sessions[id]) in server.files
    requires atDest <==> Part(id) !in server.files
    modifies server
    ensures server.Valid() && id in server.sessions && TouchesOnly(id, old(server.Store()), server.Store())
    ensures outcome in {Finished, Interrupted} && (healthy ==> outcome == Finished)
    ensures SameFile(old(server.sessions)[id], server.sessions[id])
    ensures outcome == Finished ==> server.sessions[id].phase == Done
    ensures server.jobs == if server.sessions[id].phase == Done then old(server.jobs) + {old(server.nextAsset)} else old(server.jobs)
    ensures server.sessions[id].phase == Done ==> RowMade(old(server.Store()), server.Store(), id)
    ensures server.sessions[id].phase == Done ==> server.sessions[id].updated == old(server.now)
    ensures server.sessions[id].phase in {Committing, Done}
  {
    hide Inv;
    hide Run;
    hide TouchesOnly;
    ghost var st := server.Store();
    TouchesNothing(id, st);
    TouchFiles(id, st);
    if !atDest {
      var ok := server.RenamePart(id, healthy);
      if !ok { return Interrupted; }
    }
    ghost var placed := server.Store();
    NextIsFree(server);
    TouchesNothing(id, placed);
    TouchFinalised(id, placed);
    var ok := server.Finalise(id, healthy);
    TouchTrans(id, st, placed, server.Store());
    return if ok then Finished else Interrupted;
  }

  /** The durable committing record, the rename, and the final transaction. */
  method Commit(server: UploadServer, id: string, atDest: bool, healthy: bool) returns (outcome: Outcome)
    requires server.Valid() && CanMarkCommitting(server.c, server.Store(), id)
    requires atDest <==> Staged(server.Store(), id) == Dest(id, server.sessions[id])
    modifies server
    ensures server.Valid() && id in server.sessions && TouchesOnly(id, old(server.Store()), server.Store())
    ensures outcome in {Finished, Interrupted} && (healthy ==> outcome == Finished)
    ensures SameFile(old(server.sessions)[id], server.sessions[id])
    ensures outcome == Finished ==> server.sessions[id].phase == Done
    ensures server.jobs == if server.sessions[id].phase == Done then old(server.jobs) + {old(server.nextAsset)} else old(server.jobs)
    ensures server.sessions[id].phase == Done ==> RowMade(old(server.Store()), server.Store(), id)
    ensures server.sessions[id].phase == Done ==> server.sessions[id].updated == old(server.now)
    ensures server.Store() == old(server.Store()) || server.sessions[id].phase in {Committing, Done}
  {
    hide Inv;
    hide Run;
    hide Verified;
    hide TouchesOnly;
    ghost var st := server.Store();
    TouchesNothing(id, st);
    TouchSession(id, st, MarkedCommitting(st, id).sessions[id]);
    var ok := server.MarkCommitting(id, healthy);
    if !ok { return Interrupted; }
    ghost var marked := server.Store();
    server.Holds();
    CommittingFacts(server.c, marked, id);
    outcome := Place(server, id, atDest, healthy);
    TouchTrans(id, st, marked, server.Store());
  }

  /** What the session stored: a new asset, which is queued, and its verified bytes. */
  predicate Delivered(c: Config, st: State, next: State, id: string)
  {
    && RowMade(st, next, id) && next.jobs == st.jobs + {st.nextAsset} && st.nextAsset !in st.assets
    && HoldsAt(c, next, st.sessions[id], Dest(id, st.sessions[id]))
  }

  lemma DeliveredHere(c: Config, st: State, next: State, id: string)
    requires Inv(c, st) && Inv(c, next) && TouchesOnly(id, st, next) && RowMade(st, next, id)
    requires next.sessions[id].phase == Done && SameFile(st.sessions[id], next.sessions[id]) && next.jobs == st.jobs + {st.nextAsset}
    ensures Delivered(c, st, next, id)
  {
    hide Inv;
    NextIsUnused(c, st);
    DoneFacts(c, next, id);
  }

  lemma StaysReady(c: Config, st: State, next: State, id: string)
    requires OnlyHashes(st, next) && id in st.sessions && Ready(c, st, id)
    ensures next.sessions == st.sessions && next.jobs == st.jobs && next.nextAsset == st.nextAsset && next.now == st.now
    ensures Ready(c, next, id) && Staged(next, id) == Staged(st, id)
  {
  }

  lemma SameRowMade(st: State, hashed: State, next: State, id: string)
    requires st == hashed || OnlyHashes(st, hashed)
    requires id in next.sessions && next.sessions[id].phase == Done ==> RowMade(hashed, next, id)
    ensures id in next.sessions && next.sessions[id].phase == Done ==> RowMade(st, next, id)
  {
  }

  /** The end of `finishUpload`, when the bytes at `path` are the declared ones. */
  method StoreVerified(server: UploadServer, id: string, path: Path, healthy: bool) returns (outcome: Outcome)
    requires server.Valid() && id in server.sessions && Ready(server.c, server.Store(), id) && path == Staged(server.Store(), id)
    modifies server
    ensures server.Valid() && id in server.sessions && TouchesOnly(id, old(server.Store()), server.Store())
    ensures SameFile(old(server.sessions)[id], server.sessions[id])
    ensures outcome in {Finished, Interrupted} && (healthy ==> outcome == Finished)
    ensures outcome == Finished ==> server.sessions[id].phase in {Done, Duplicate}
    ensures server.sessions[id].phase in {Done, Duplicate} ==> server.sessions[id].updated == old(server.now)
    ensures outcome == Interrupted ==> server.sessions[id].phase in {Done, Duplicate} || Ready(server.c, server.Store(), id)
    ensures if server.sessions[id].phase == Done then Delivered(server.c, old(server.Store()), server.Store(), id)
            else server.jobs == old(server.jobs)
    ensures outcome == Finished ==>
      var s := old(server.sessions)[id];
      && (server.sessions[id].phase == Duplicate <==> !s.keep && exists a :: Matches(server.c, old(server.Store()), a, s.owner, s.size, s.hash))
      && (server.sessions[id].phase == Duplicate ==> Matches(server.c, old(server.Store()), server.sessions[id].asset, s.owner, s.size, s.hash))
      && (server.sessions[id].phase == Duplicate && healthy ==> path !in server.files)
  {
    hide Inv;
    hide Run;
    hide Matches;
    hide TouchesOnly;
    hide RowMade;
    hide Delivered;
    var v := server.sessions[id];
    ghost var st := server.Store();
    server.Holds();
    TouchesNothing(id, st);
    ghost var hashed := st;
    if !v.keep {
      var ok, found := FindDuplicate(server, v.owner, v.size, v.hash, healthy);
      hashed := server.Store();
      SameRows(st, hashed);
      StaysReady(server.c, st, hashed, id);
      if !ok { return Interrupted; }
      MatchesStable(server.c, st, server.Store(), v.owner, v.size, v.hash);
      if found > 0 {
        outcome := FinishAsDuplicate(server, id, found, path, healthy);
        TouchTrans(id, st, hashed, server.Store());
        return;
      }
    }
    outcome := Commit(server, id, path == Dest(id, v), healthy);
    TouchTrans(id, st, hashed, server.Store());
    SameRowMade(st, hashed, server.Store(), id);
    server.Holds();
    if server.sessions[id].phase == Done {
      DeliveredHere(server.c, st, server.Store(), id);
    } else if server.sessions[id].phase == Committing {
      CommittingFacts(server.c, server.Store(), id);
    }
  }

  /** `finishUpload`, which can be repeated after any interruption. */
  method FinishUpload(server: UploadServer, id: string, healthy: bool) returns (outcome: Outcome)
    requires server.Valid() && id in server.sessions
    requires server.sessions[id].phase == Uploading ==> server.sessions[id].updated >= Cutoff(server.c, server.Store())
    modifies server
    ensures server.Valid() && id in server.sessions && TouchesOnly(id, old(server.Store()), server.Store())
    ensures SameFile(old(server.sessions)[id], server.sessions[id])
    ensures healthy ==> (outcome == Finished <==> old(server.sessions)[id].phase in {Done, Duplicate} || Ready(server.c, old(server.Store()), id))
    ensures old(server.sessions)[id].phase == Committing ==> outcome in {Finished, Interrupted}
    ensures healthy ==> outcome != Interrupted
    ensures outcome == Finished ==> server.sessions[id].phase in {Done, Duplicate}
    ensures server.sessions[id].phase in {Done, Duplicate} && old(server.sessions)[id].phase in {Uploading, Committing} ==>
      server.sessions[id].updated == old(server.now)
    ensures outcome == Interrupted ==> server.sessions[id].phase in {Done, Duplicate} || Ready(server.c, server.Store(), id)
    ensures outcome !in {Finished, Interrupted} || old(server.sessions)[id].phase in {Done, Duplicate} ==> server.Store() == old(server.Store())
    ensures outcome == Finished && old(server.sessions)[id].phase in {Uploading, Committing} ==>
      var s := old(server.sessions)[id];
      && (server.sessions[id].phase == Duplicate <==> !s.keep && exists a :: Matches(server.c, old(server.Store()), a, s.owner, s.size, s.hash))
      && (server.sessions[id].phase == Duplicate ==> Matches(server.c, old(server.Store()), server.sessions[id].asset, s.owner, s.size, s.hash))
      && (server.sessions[id].phase == Duplicate && healthy ==> Staged(old(server.Store()), id) !in server.files)
      && (server.sessions[id].phase == Done ==> server.sessions[id].asset == old(server.nextAsset))
    ensures server.sessions[id].phase != Done || old(server.sessions)[id].phase == Done ==> server.jobs == old(server.jobs)
    ensures server.sessions[id].phase == Done && old(server.sessions)[id].phase != Done ==>
      var s, a := old(server.sessions)[id], old(server.nextAsset);
      var p := Managed(s.owner, id, s.ext);
      && server.jobs == old(server.jobs) + {a} && server.sessions[id].asset == a && a !in old(server.assets)
      && a in server.assets && server.assets[a] == Asset(p, s.size, Some(s.hash), 0)
      && p in server.files && |server.files[p].bytes| == s.size && server.c.hash(server.files[p].bytes) == s.hash
      && server.c.valid(server.files[p].bytes, s.ext)
    ensures healthy && old(server.sessions)[id].phase in {Uploading, Committing} ==>
      var s := old(server.sessions)[id];
      var q := Managed(s.owner, id, s.ext);
      var p := if s.phase == Committing && q in old(server.files) then q else Part(id);
      (outcome == Finished <==>
         && s.received == s.size && p in old(server.files) && |old(server.files)[p].bytes| == s.size
         && server.c.hash(old(server.files)[p].bytes) == s.hash && server.c.valid(old(server.files)[p].bytes, s.ext))
  {
    hide Inv;
    hide Run;
    hide Matches;
    hide TouchesOnly;
    var v := server.sessions[id];
    ghost var st := server.Store();
    TouchesNothing(id, st);
    if v.phase == Done || v.phase == Duplicate { return Finished; }
    server.Holds();
    if v.phase == Committing {
      CommittingFacts(server.c, st, id);
    }
    if v.received != v.size { return Incomplete; }
    var dest := Dest(id, v);
    var path := if v.phase == Committing && dest in server.files then dest else Part(id);
    if path !in server.files { return Missing; }
    var bytes := server.files[path].bytes;
    if |bytes| != v.size || server.c.hash(bytes) != v.hash || !server.c.valid(bytes, v.ext) { return Corrupt; }
    outcome := StoreVerified(server, id, path, healthy);
  }

  /** However often finishing a complete session is interrupted, the next undisturbed attempt succeeds. */
  method FinishAfterCrashes(server: UploadServer, id: string, crashes: nat) returns (outcome: Outcome)
    requires server.Valid() && id in server.sessions && Ready(server.c, server.Store(), id)
    modifies server
    ensures server.Valid() && outcome == Finished && id in server.sessions && server.sessions[id].phase in {Done, Duplicate}
    ensures server.sessions[id].asset in server.assets && (server.sessions[id].asset !in server.intents ==> server.sessions[id].asset in server.jobs)
  {
    hide Inv;
    hide Run;
    hide Matches;
    hide TouchesOnly;
    for i := 0 to crashes
      invariant server.Valid() && id in server.sessions
      invariant server.sessions[id].phase in {Done, Duplicate} || Ready(server.c, server.Store(), id)
    {
      var _ := FinishUpload(server, id, false);
    }
    outcome := FinishUpload(server, id, true);
    server.Holds();
    server.NothingForgotten();
    ResultFacts(server.c, server.Store(), id);
  }

  /** `completeUpload` */
  method CompleteUpload(server: UploadServer, uid: nat, id: string, healthy: bool) returns (reply: Reply)
    requires server.Valid()
    modifies server
    ensures server.Valid()
    ensures reply == NotFound <==> id !in old(server.sessions) || old(server.sessions)[id].owner != uid
    ensures reply == NotFound ==> server.Store() == old(server.Store())
    ensures healthy && reply != NotFound ==>
      (reply == Accepted <==> old(server.sessions)[id].phase in {Done, Duplicate} || Ready(server.c, old(server.Store()), id))
    ensures reply == Accepted ==> id in server.sessions && server.sessions[id].phase in {Done, Duplicate}
    ensures healthy && reply != Accepted ==> server.Store() == old(server.Store())
    ensures reply == Accepted ==>
      server.sessions[id].asset in server.assets && (server.sessions[id].asset !in server.intents ==> server.sessions[id].asset in server.jobs)
    ensures reply == Expired <==>
      && id in old(server.sessions) && old(server.sessions)[id].owner == uid && old(server.sessions)[id].phase == Uploading
      && old(server.sessions)[id].updated < old(server.now) - server.c.retention
    ensures TouchesOnly(id, old(server.Store()), server.Store())
  {
    hide Inv;
    hide Run;
    hide Matches;
    hide TouchesOnly;
    TouchesNothing(id, server.Store());
    if id !in server.sessions || server.sessions[id].owner != uid { return NotFound; }
    if server.sessions[id].phase == Uploading && server.sessions[id].updated < server.now - server.c.retention { return Expired; }
    var outcome := FinishUpload(server, id, healthy);
    if outcome == Finished {
      server.Holds();
      server.NothingForgotten();
      ResultFacts(server.c, server.Store(), id);
    }
    match outcome
    case Finished => return Accepted;
    case Interrupted => return Failed;
    case _ => return Conflict;
  }

  /** `cancelUpload` */
  method CancelUpload(server: UploadServer, uid: nat, id: string, healthy: bool) returns (reply: Reply)
    requires server.Valid()
    modifies server
    ensures server.Valid()
    ensures reply == Conflict <==> id in old(server.sessions) && old(server.sessions)[id].owner == uid && old(server.sessions)[id].phase == Committing
    ensures reply == Conflict ==> server.Store() == old(server.Store())
    ensures reply == Accepted && id in old(server.sessions) && old(server.sessions)[id].owner == uid ==>
      var st := old(server.Store());
      server.Store() == Forgotten(if st.sessions[id].phase == Uploading then Without(st, Part(id)) else st, id)
    ensures reply == Accepted && !(id in old(server.sessions) && old(server.sessions)[id].owner == uid) ==> server.Store() == old(server.Store())
    ensures healthy ==> reply in {Accepted, Conflict}
    ensures reply == Accepted ==> id !in server.sessions || server.sessions[id].owner != uid
    ensures reply == Accepted && id in old(server.sessions) && old(server.sessions)[id].owner == uid ==>
      && (old(server.sessions)[id].phase == Uploading ==> Part(id) !in server.files)
      && (old(server.sessions)[id].phase != Uploading ==> server.files == old(server.files))
      && server.assets == old(server.assets) && server.jobs == old(server.jobs)
    ensures TouchesOnly(id, old(server.Store()), server.Store())
  {
    hide Inv;
    hide Run;
    hide TouchesOnly;
    ghost var st := server.Store();
    TouchesNothing(id, st);
    if id !in server.sessions || server.sessions[id].owner != uid { return Accepted; }
    var v := server.sessions[id];
    if v.phase == Committing { return Conflict; }
    if v.phase == Uploading {
      server.Holds();
      StagedIsExpendable(server.c, st, id, Part(id));
      DestsDiffer(st, id);
      TouchFiles(id, st);
      var ok := server.RemoveFile(Part(id), healthy);
      if !ok { return Failed; }
    }
    ghost var mid := server.Store();
    TouchesNothing(id, mid);
    TouchSession(id, mid, v);
    var ok := server.DeleteSession(id, healthy);
    TouchTrans(id, st, mid, server.Store());
    return if ok then Accepted else Failed;
  }

  // ---- The start of a session ----

  /** The user's sessions that are being committed, or were used within the retention time. */
  function Unfinished(sessions: map<string, Session>, cutoff: int, uid: nat): set<string>
  {
    set id | id in sessions && sessions[id].owner == uid
             && (sessions[id].phase == Committing || (sessions[id].phase == Uploading && sessions[id].updated > cutoff))
  }

  lemma PendingIs(c: Config, st: State, uid: nat)
    ensures |Reservations(st.sessions, Cutoff(c, st), uid)| == |Unfinished(st.sessions, st.now - c.retention, uid)|
  {
    assert Reservations(st.sessions, Cutoff(c, st), uid).Keys == Unfinished(st.sessions, st.now - c.retention, uid);
  }

  method Usage(server: UploadServer, uid: nat) returns (total: nat, pending: nat)
    ensures total == Load(server.c, server.Store(), uid)
    ensures pending == |Reservations(server.sessions, Cutoff(server.c, server.Store()), uid)|
    ensures pending == |Unfinished(server.sessions, server.now - server.c.retention, uid)|
  {
    var stored := Sum(Stored(server.assets, server.intents, uid));
    var kept := Sum(KeptSizes(server.quarantine, uid));
    var active := Reservations(server.sessions, server.now - server.c.retention, uid);
    var reserved := Sum(active);
    PendingIs(server.c, server.Store(), uid);
    return stored + kept + reserved, |active|;
  }

  /** The session was started by the same request. */
  predicate SameRequest(s: Session, r: Request)
  {
    && s.hash == r.hash && s.size == r.size && s.filename == r.filename && s.keep == r.keep
    && ManagedFolders.UploadPath(s.owner, r.folder) == Some(s.folder)
  }

  ghost predicate HasDuplicate(c: Config, st: State, uid: nat, r: Request)
  {
    !r.keep && exists a :: Matches(c, st, a, uid, r.size, r.hash)
  }

  predicate HasKey(sessions: map<string, Session>, uid: nat, key: string)
  {
    exists i | i in sessions :: sessions[i].owner == uid && sessions[i].key == key
  }

  /** When a new session is opened. */
  ghost predicate Admitted(c: Config, st: State, uid: nat, r: Request)
  {
    && ValidRequest(c, uid, r) && !HasKey(st.sessions, uid, r.key)
    && (HasDuplicate(c, st, uid, r) || r.size + Load(c, st, uid) <= c.quota(uid))
    && |Reservations(st.sessions, Cutoff(c, st), uid)| < ACTIVE_LIMIT
  }

  lemma SameStore(st: State)
    ensures OnlyHashes(st, st)
  {
  }

  lemma NotAdmitted(c: Config, st: State, uid: nat, r: Request)
    requires !ValidRequest(c, uid, r)
    ensures !Admitted(c, st, uid, r)
  {
  }

  /** The answer to a request whose key is known. */
  ghost predicate Replayed(st: State, uid: nat, r: Request, reply: Reply, result: string)
  {
    && result in st.sessions && st.sessions[result].owner == uid && st.sessions[result].key == r.key
    && reply == (if SameRequest(st.sessions[result], r) then Accepted else Conflict)
    && forall j | j in st.sessions && SameKey(st, result, j) :: j == result
  }

  lemma ReplayedHere(st: State, uid: nat, r: Request, reply: Reply, i: string)
    requires i in st.sessions && st.sessions[i].owner == uid && st.sessions[i].key == r.key
    requires reply == if SameRequest(st.sessions[i], r) then Accepted else Conflict
    requires forall j | j in st.sessions && SameKey(st, i, j) :: j == i
    ensures Replayed(st, uid, r, reply, i)
  {
  }

  /** A new session, which is a duplicate exactly if the bytes are stored already, and of the first such original. */
  ghost predicate Opened(c: Config, st: State, next: State, uid: nat, r: Request, id: string)
  {
    && ManagedFolders.UploadPath(uid, r.folder).Some?
    && id in next.sessions && next.sessions == st.sessions[id := NewSession(uid, r, next.sessions[id].asset, st.now)]
    && OnlyHashes(st, next.(sessions := st.sessions, acked := st.acked, used := st.used))
    && (next.sessions[id].phase == Duplicate <==> HasDuplicate(c, st, uid, r))
    && (next.sessions[id].phase == Duplicate ==> Matches(c, st, next.sessions[id].asset, uid, r.size, r.hash))
  }

  /** Every row of a request that passed the checks may be inserted. */
  lemma RequestIsValid(c: Config, uid: nat, r: Request)
    requires ValidRequest(c, uid, r)
    ensures ManagedFolders.UploadPath(uid, r.folder).Some?
    ensures forall duplicate: nat, now: int :: FromRequest(c, NewSession(uid, r, duplicate, now)) && ValidExt(NewSession(uid, r, duplicate, now).ext)
  {
    FormatIsValid(r.filename);
    forall duplicate: nat, now: int ensures FromRequest(c, NewSession(uid, r, duplicate, now)) {
      var s := NewSession(uid, r, duplicate, now);
      assert s == NewSession(s.owner, r, s.asset, s.updated);
    }
  }

  lemma OpenedHere(c: Config, st: State, hashed: State, uid: nat, r: Request, id: string, duplicate: nat)
    requires OnlyHashes(st, hashed) && ValidRequest(c, uid, r)
    requires duplicate > 0 <==> HasDuplicate(c, st, uid, r)
    requires duplicate > 0 ==> Matches(c, st, duplicate, uid, r.size, r.hash)
    ensures Opened(c, st, Started(hashed, id, NewSession(uid, r, duplicate, st.now)), uid, r, id)
  {
    hide Matches;
  }

  lemma SameUsage(c: Config, st: State, next: State, uid: nat)
    requires OnlyHashes(st, next)
    ensures Load(c, next, uid) == Load(c, st, uid)
    ensures Reservations(next.sessions, Cutoff(c, next), uid) == Reservations(st.sessions, Cutoff(c, st), uid)
    ensures next.sessions == st.sessions && next.now == st.now && next.used == st.used
  {
    SameRows(st, next);
    assert Stored(next.assets, next.intents, uid) == Stored(st.assets, st.intents, uid);
  }

  /** The part of `startUpload` for an unknown key. */
  method Open(server: UploadServer, uid: nat, r: Request, id: string, healthy: bool) returns (reply: Reply)
    requires server.Valid() && id !in server.used && ValidId(id)
    requires ValidRequest(server.c, uid, r) && !HasKey(server.sessions, uid, r.key)
    modifies server
    ensures server.Valid() && (healthy ==> reply != Failed)
    ensures healthy ==> (reply == Accepted <==> Admitted(server.c, old(server.Store()), uid, r))
    ensures reply == Accepted ==> Opened(server.c, old(server.Store()), server.Store(), uid, r, id)
    ensures reply != Invalid && (reply == TooMany ==> |Reservations(old(server.sessions), Cutoff(server.c, old(server.Store())), uid)| >= 50)
    ensures reply == Accepted ==> |Reservations(old(server.sessions), Cutoff(server.c, old(server.Store())), uid)| < 50
    ensures reply !in {Accepted, Failed} ==> OnlyHashes(old(server.Store()), server.Store())
  {
    hide Inv;
    hide Run;
    hide Matches;
    hide Load;
    hide Reservations;
    hide OnlyHashes;
    hide Opened;
    hide ValidRequest;
    hide ValidId;
    hide ValidExt;
    hide FromRequest;
    ghost var st := server.Store();
    SameStore(st);
    RequestIsValid(server.c, uid, r);
    var ok, duplicate := true, 0;
    if !r.keep {
      ok, duplicate := FindDuplicate(server, uid, r.size, r.hash, healthy);
      if !ok { return Failed; }
    }
    ghost var hashed := server.Store();
    SameUsage(server.c, st, hashed, uid);
    MatchesStable(server.c, st, hashed, uid, r.size, r.hash);
    var total, pending := Usage(server, uid);
    if duplicate == 0 && r.size + total > server.c.quota(uid) { return Full; }
    if pending >= ACTIVE_LIMIT { return TooMany; }
    var s := NewSession(uid, r, duplicate, server.now);
    ok := server.InsertSession(id, s, healthy);
    if !ok { return Failed; }
    OpenedHere(server.c, st, hashed, uid, r, id, duplicate);
    return Accepted;
  }

  lemma KeyIsUnique(server: UploadServer, i: string)
    requires server.Valid() && i in server.sessions
    ensures forall j | j in server.sessions && SameKey(server.Store(), i, j) :: j == i
  {
    hide Run;
    hide Sessions;
    hide Assets;
    hide Origins;
    server.Holds();
  }

  /** Digest, key, file name, size and folder are acceptable. */
  predicate WellFormed(c: Config, uid: nat, r: Request)
  {
    && |r.hash| == 64 && (forall x | x in r.hash :: x in "0123456789abcdef")
    && 16 <= |r.key| <= 100 && '\0' !in r.key && '\r' !in r.key && '\n' !in r.key
    && 0 < |r.filename| <= 180 && '\\' !in r.filename && '/' !in r.filename && ':' !in r.filename && '\0' !in r.filename
    && r.filename[0] != '.' && 0 < r.size <= c.limit(FormatOf(r.filename)) && ManagedFolders.UploadPath(uid, r.folder).Some?
  }

  lemma ValidIsWellFormed(c: Config, uid: nat, r: Request)
    ensures ValidRequest(c, uid, r) <==> WellFormed(c, uid, r)
  {
    var key, name := "\0\r\n", "\\/:\0";
    assert key[0] in key && key[1] in key && key[2] in key;
    assert name[0] in name && name[1] in name && name[2] in name && name[3] in name;
  }

  /** The session with this identifier declared the same file for the same folder. */
  predicate SameDeclared(sessions: map<string, Session>, id: string, uid: nat, r: Request)
  {
    && id in sessions
    && var s := sessions[id];
       && s.owner == uid && s.key == r.key && s.hash == r.hash && s.size == r.size && s.filename == r.filename && s.keep == r.keep
       && ManagedFolders.UploadPath(uid, r.folder) == Some(s.folder)
  }

  /** A session with nothing received, or the receipt of an original that has the bytes already. */
  predicate NewRow(c: Config, st: State, next: State, uid: nat, r: Request, id: string)
  {
    && id !in st.sessions && id in next.sessions && ManagedFolders.UploadPath(uid, r.folder).Some?
    && var s, folder := next.sessions[id], ManagedFolders.UploadPath(uid, r.folder).value;
       if s.phase == Uploading then
         s == Session(uid, r.key, r.filename, FormatOf(r.filename), folder, r.size, r.hash, r.keep, 0, Uploading, 0, st.now)
       else
         && s == Session(uid, r.key, r.filename, FormatOf(r.filename), folder, r.size, r.hash, false, r.size, Duplicate, s.asset, st.now)
         && HasBytes(c, st, s.asset, uid, r.size, r.hash)
  }

  lemma OpenedMeans(c: Config, st: State, next: State, uid: nat, r: Request, id: string)
    requires Inv(c, st) && Opened(c, st, next, uid, r, id) && id !in st.used
    ensures NewRow(c, st, next, uid, r, id)
  {
    hide Inv;
    hide Matches;
    hide HasBytes;
    BytesMatch(c, st, uid, r.size, r.hash);
    if id in st.sessions { SessionIsUsed(c, st, id); }
  }

  /** `startUpload`; `id` is the random identifier that is drawn. */
  method StartUpload(server: UploadServer, uid: nat, r: Request, id: string, healthy: bool) returns (reply: Reply, result: string)
    requires server.Valid() && id !in server.used && ValidId(id)
    modifies server
    ensures server.Valid() && (healthy ==> reply != Failed)
    ensures ValidRequest(server.c, uid, r) && HasKey(old(server.sessions), uid, r.key) ==>
              server.Store() == old(server.Store()) && Replayed(server.Store(), uid, r, reply, result)
    ensures !HasKey(old(server.sessions), uid, r.key) ==>
              && (healthy ==> (reply == Accepted <==> Admitted(server.c, old(server.Store()), uid, r)))
              && (reply == Accepted ==> result == id && Opened(server.c, old(server.Store()), server.Store(), uid, r, id))
    ensures reply !in {Accepted, Failed} ==> OnlyHashes(old(server.Store()), server.Store())
    ensures reply == Invalid <==> !WellFormed(server.c, uid, r)
    ensures reply == Accepted && HasKey(old(server.sessions), uid, r.key) ==> SameDeclared(server.sessions, result, uid, r)
    ensures reply == Accepted && !HasKey(old(server.sessions), uid, r.key) ==> NewRow(server.c, old(server.Store()), server.Store(), uid, r, id)
    ensures !HasKey(old(server.sessions), uid, r.key) ==>
              var pending := |Unfinished(old(server.sessions), old(server.now) - server.c.retention, uid)|;
              (reply == TooMany ==> pending >= 50) && (reply == Accepted ==> pending < 50)
  {
    hide Inv;
    hide Run;
    hide OnlyHashes;
    hide Replayed;
    hide Opened;
    hide Admitted;
    hide ValidRequest;
    hide WellFormed;
    hide NewRow;
    hide Reservations;
    hide Unfinished;
    ghost var st := server.Store();
    server.Holds();
    ValidIsWellFormed(server.c, uid, r);
    PendingIs(server.c, st, uid);
    SameStore(st);
    result := "";
    if !ValidRequest(server.c, uid, r) {
      NotAdmitted(server.c, st, uid, r);
      return Invalid, "";
    }
    if HasKey(server.sessions, uid, r.key) {
      var i :| i in server.sessions && server.sessions[i].owner == uid && server.sessions[i].key == r.key;
      KeyIsUnique(server, i);
      reply, result := if SameRequest(server.sessions[i], r) then Accepted else Conflict, i;
      ReplayedHere(st, uid, r, reply, i);
      return;
    }
    reply := Open(server, uid, r, id, healthy);
    result := id;
    if reply == Accepted { OpenedMeans(server.c, st, server.Store(), uid, r, id); }
  }
}
