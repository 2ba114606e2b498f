/**
 The server's upload store: rows and files that are changed one durable effect
 at a time.  An effect may fail, or be the last one before a crash, unless the
 machine is healthy; the history says which run of effects led here.
 */
module UploadStore {
  import opened Options
  import opened UploadPaths
  import opened Uploads
  import opened UploadSteps
  import opened UploadRuns

  lemma AfterDeletion(c: Config, st: State, a: nat)
    requires CanDeleteRow(st, a)
    ensures Enabled(c, st, Action.DeleteRow(a))
    ensures After(c, st, Action.DeleteRow(a)) == RowDeleted(st, a)
  {
  }

  lemma AfterFinalise(c: Config, st: State, id: string)
    requires CanFinalise(st, id)
    ensures Enabled(c, st, Action.Finalise(id))
    ensures CanFinalise(st, id) && After(c, st, Action.Finalise(id)) == Finalised(st, id)
  {
  }

  lemma AfterInsert(c: Config, st: State, q: Path)
    requires CanInsert(c, st, q)
    ensures Enabled(c, st, Action.Insert(q))
    ensures q in st.files && After(c, st, Action.Insert(q)) == Inserted(st, q)
  {
  }

  class UploadServer {
    const c: Config
    ghost const first: State
    ghost var run: seq<Action>

    var sessions: map<string, Session>
    var assets: map<nat, Asset>
    var jobs: set<nat>
    var intents: set<nat>
    var quarantine: map<Path, Record>
    var files: map<Path, File>
    var now: int
    var nextAsset: nat
    ghost var acked: map<string, Bytes>
    ghost var origin: map<nat, string>
    ghost var used: set<string>

    ghost function Store(): State
      reads this
    {
      State(sessions, assets, jobs, intents, quarantine, files, now, nextAsset, acked, origin, used)
    }

    /** What is stored now is what a run of effects made of a store that satisfied the invariant. */
    ghost predicate Valid()
      reads this
    {
      Inv(c, first) && Queued(first) && Run(c, first, run) == Some(Store())
    }

    constructor (config: Config, old_files: map<Path, File>, time: int)
      requires forall p | p in old_files :: p.Flat?
      ensures Valid() && c == config && Fresh(Store()) && files == old_files && now == time
    {
      c := config;
      sessions, assets, jobs, intents, quarantine := map[], map[], {}, {}, map[];
      files, now, nextAsset := old_files, time, 1;
      acked, origin, used := map[], map[], {};
      run := [];
      first := State(map[], map[], {}, {}, map[], old_files, time, 1, map[], map[], {});
      new;
      FreshInv(c, first);
    }

    /** The invariant holds at every moment. */
    lemma Holds()
      requires Valid()
      ensures Inv(c, Store())
    {
      hide Inv;
      InvRun(c, first, run);
    }

    /** Every stored original that is not being deleted has got a job. */
    lemma NothingForgotten()
      requires Valid()
      ensures Queued(Store())
    {
      hide Inv;
      hide Queued;
      QueuedRun(c, first, run);
    }

    ghost method Append(x: Action, before: State)
      requires Inv(c, first) && Queued(first) && Run(c, first, run) == Some(before) && Enabled(c, before, x) && Store() == After(c, before, x)
      modifies this`run
      ensures Valid()
    {
      hide Inv;
      hide Queued;
      hide Enabled;
      hide After;
      RunSnoc(c, first, run, x);
      run := run + [x];
    }

    /** The `INSERT` of a session. */
    method InsertSession(id: string, s: Session, healthy: bool) returns (ok: bool)
      requires Valid() && CanStart(c, Store(), id, s)
      modifies this
      ensures Valid() && (healthy ==> ok)
      ensures Store() == Started(old(Store()), id, s) || (!ok && Store() == old(Store()))
    {
      hide CanStart;
      hide Inv;
      hide Queued;
      hide Run;
      ok := *;
      ok := ok || healthy;
      if !ok {
        var happened: bool := *;
        if !happened { return; }
      }
      ghost var before := Store();
      sessions, acked, used := sessions[id := s], acked[id := []], used + {id};
      Append(Action.Start(id, s), before);
    }

    method WritePart(id: string, bytes: Bytes, healthy: bool) returns (ok: bool)
      requires Valid() && CanWritePart(Store(), id, bytes)
      modifies this
      ensures Valid() && (healthy ==> ok)
      ensures Store() == WithPart(old(Store()), id, bytes) || (!ok && Store() == old(Store()))
    {
      hide Inv;
      hide Queued;
      hide Run;
      ok := *;
      ok := ok || healthy;
      if !ok {
        var happened: bool := *;
        if !happened { return; }
      }
      ghost var before := Store();
      files := files[Part(id) := File(bytes, now)];
      Append(Action.WritePart(id, bytes), before);
    }

    method Acknowledge(id: string, data: Bytes, healthy: bool) returns (ok: bool)
      requires Valid() && CanAck(c, Store(), id, data)
      modifies this
      ensures Valid() && (healthy ==> ok)
      ensures Store() == Acked(old(Store()), id, data) || (!ok && Store() == old(Store()))
    {
      hide Inv;
      hide Queued;
      hide Run;
      ok := *;
      ok := ok || healthy;
      if !ok {
        var happened: bool := *;
        if !happened { return; }
      }
      ghost var before := Store();
      sessions := sessions[id := sessions[id].(received := sessions[id].received + |data|, updated := now)];
      acked := acked[id := acked[id] + data];
      Append(Action.Ack(id, data), before);
    }

    method StoreHash(a: nat, healthy: bool) returns (ok: bool)
      requires Valid() && a in assets && assets[a].path in files
      modifies this
      ensures Valid() && (healthy ==> ok)
      ensures Store() == Hashed(c, old(Store()), a) || (!ok && Store() == old(Store()))
    {
      hide Inv;
      hide Queued;
      hide Run;
      ok := *;
      ok := ok || healthy;
      if !ok {
        var happened: bool := *;
        if !happened { return; }
      }
      ghost var before := Store();
      assets := assets[a := assets[a].(hash := Some(c.hash(files[assets[a].path].bytes)))];
      Append(Action.ComputeHash(a), before);
    }

    method MarkDuplicate(id: string, a: nat, healthy: bool) returns (ok: bool)
      requires Valid() && CanMarkDuplicate(c, Store(), id, a)
      modifies this
      ensures Valid() && (healthy ==> ok)
      ensures Store() == MarkedDuplicate(old(Store()), id, a) || (!ok && Store() == old(Store()))
    {
      hide Inv;
      hide Queued;
      hide Run;
      ok := *;
      ok := ok || healthy;
      if !ok {
        var happened: bool := *;
        if !happened { return; }
      }
      ghost var before := Store();
      sessions := sessions[id := sessions[id].(phase := Duplicate, asset := a, updated := now)];
      Append(Action.MarkDuplicate(id, a), before);
    }

    method MarkCommitting(id: string, healthy: bool) returns (ok: bool)
      requires Valid() && CanMarkCommitting(c, Store(), id)
      modifies this
      ensures Valid() && (healthy ==> ok)
      ensures Store() == MarkedCommitting(old(Store()), id) || (!ok && Store() == old(Store()))
    {
      hide Inv;
      hide Queued;
      hide Run;
      ok := *;
      ok := ok || healthy;
      if !ok {
        var happened: bool := *;
        if !happened { return; }
      }
      ghost var before := Store();
      sessions := sessions[id := sessions[id].(phase := Committing, updated := now)];
      Append(Action.MarkCommitting(id), before);
    }

    method RenamePart(id: string, healthy: bool) returns (ok: bool)
      requires Valid() && CanRenamePart(Store(), id)
      modifies this
      ensures Valid() && (healthy ==> ok)
      ensures Store() == Renamed(old(Store()), Part(id), Dest(id, old(Store()).sessions[id])) || (!ok && Store() == old(Store()))
    {
      hide Inv;
      hide Queued;
      hide Run;
      ok := *;
      ok := ok || healthy;
      if !ok {
        var happened: bool := *;
        if !happened { return; }
      }
      ghost var before := Store();
      var p, q := Part(id), Dest(id, sessions[id]);
      files := (files - {p})[q := files[p]];
      Append(Action.RenamePart(id), before);
    }

    /** The last transaction of `finishUpload`. */
    method Finalise(id: string, healthy: bool) returns (ok: bool)
      requires Valid() && CanFinalise(Store(), id)
      modifies this
      ensures Valid() && (healthy ==> ok)
      ensures Store() == Finalised(old(Store()), id) || (!ok && Store() == old(Store()))
    {
      hide Enabled;
      hide After;
      hide Inv;
      hide Queued;
      hide Run;
      ok := *;
      ok := ok || healthy;
      if !ok {
        var happened: bool := *;
        if !happened { return; }
      }
      ghost var before := Store();
      AfterFinalise(c, before, id);
      var s, a := sessions[id], nextAsset;
      assets := assets[a := Asset(Dest(id, s), s.size, Some(s.hash), 0)];
      jobs := jobs + {a};
      sessions := sessions[id := s.(phase := Done, asset := a, updated := now)];
      nextAsset := a + 1;
      origin := origin[a := id];
      Append(Action.Finalise(id), before);
    }

    method RemoveFile(p: Path, healthy: bool) returns (ok: bool)
      requires Valid() && Expendable(Store(), p)
      modifies this
      ensures Valid() && (healthy ==> ok)
      ensures Store() == Without(old(Store()), p) || (!ok && Store() == old(Store()))
    {
      hide Inv;
      hide Queued;
      hide Run;
      ok := *;
      ok := ok || healthy;
      if !ok {
        var happened: bool := *;
        if !happened { return; }
      }
      ghost var before := Store();
      files := files - {p};
      Append(Action.Remove(p), before);
    }

    method DeleteSession(id: string, healthy: bool) returns (ok: bool)
      requires Valid() && CanForget(Store(), id)
      modifies this
      ensures Valid() && (healthy ==> ok)
      ensures Store() == Forgotten(old(Store()), id) || (!ok && Store() == old(Store()))
    {
      hide Inv;
      hide Queued;
      hide Run;
      ok := *;
      ok := ok || healthy;
      if !ok {
        var happened: bool := *;
        if !happened { return; }
      }
      ghost var before := Store();
      sessions := sessions - {id};
      Append(Action.Forget(id), before);
    }

    method WriteTemp(p: Path, bytes: Bytes, healthy: bool) returns (ok: bool)
      requires Valid() && CanWriteTemp(Store(), p)
      modifies this
      ensures Valid() && (healthy ==> ok)
      ensures Store() == WithFile(old(Store()), p, bytes) || (!ok && Store() == old(Store()))
    {
      hide Inv;
      hide Queued;
      hide Run;
      ok := *;
      ok := ok || healthy;
      if !ok {
        var happened: bool := *;
        if !happened { return; }
      }
      ghost var before := Store();
      files := files[p := File(bytes, now)];
      Append(Action.WriteTemp(p, bytes), before);
    }

    method RenameTemp(p: Path, q: Path, healthy: bool) returns (ok: bool)
      requires Valid() && CanRenameTemp(Store(), p, q)
      modifies this
      ensures Valid() && (healthy ==> ok)
      ensures Store() == Renamed(old(Store()), p, q) || (!ok && Store() == old(Store()))
    {
      hide Inv;
      hide Queued;
      hide Run;
      ok := *;
      ok := ok || healthy;
      if !ok {
        var happened: bool := *;
        if !happened { return; }
      }
      ghost var before := Store();
      files := (files - {p})[q := files[p]];
      Append(Action.RenameTemp(p, q), before);
    }

    /** The transaction of `upload`. */
    method InsertAsset(q: Path, healthy: bool) returns (ok: bool)
      requires Valid() && CanInsert(c, Store(), q)
      modifies this
      ensures Valid() && (healthy ==> ok)
      ensures Store() == Inserted(old(Store()), q) || (!ok && Store() == old(Store()))
    {
      hide Enabled;
      hide After;
      hide Inv;
      hide Queued;
      hide Run;
      ok := *;
      ok := ok || healthy;
      if !ok {
        var happened: bool := *;
        if !happened { return; }
      }
      ghost var before := Store();
      AfterInsert(c, before, q);
      var a := nextAsset;
      assets := assets[a := Asset(q, |files[q].bytes|, None, 0)];
      jobs := jobs + {a};
      nextAsset := a + 1;
      Append(Action.Insert(q), before);
    }

    /** The transaction that ends a deletion. */
    method DeleteRow(a: nat, healthy: bool) returns (ok: bool)
      requires Valid() && CanDeleteRow(Store(), a)
      modifies this
      ensures Valid() && (healthy ==> ok)
      ensures Store() == RowDeleted(old(Store()), a) || (!ok && Store() == old(Store()))
    {
      hide Enabled;
      hide After;
      hide Inv;
      hide Queued;
      hide Run;
      ok := *;
      ok := ok || healthy;
      if !ok {
        var happened: bool := *;
        if !happened { return; }
      }
      ghost var before := Store();
      AfterDeletion(c, before, a);
      sessions := map id | id in sessions && sessions[id].asset != a :: sessions[id];
      assets, jobs, intents := assets - {a}, jobs - {a}, intents - {a};
      Append(Action.DeleteRow(a), before);
    }

    /** `INSERT OR IGNORE INTO upload_quarantine` */
    method InsertRecord(p: Path, r: Record, healthy: bool) returns (ok: bool)
      requires Valid()
      modifies this
      ensures Valid() && (healthy ==> ok)
      ensures Store() == Recorded(old(Store()), p, r) || (!ok && Store() == old(Store()))
    {
      hide Inv;
      hide Queued;
      hide Run;
      ok := *;
      ok := ok || healthy;
      if !ok {
        var happened: bool := *;
        if !happened { return; }
      }
      ghost var before := Store();
      if p !in quarantine {
        quarantine := quarantine[p := r];
      }
      Append(Action.Note(p, r), before);
    }

    method Quarantine(p: Path, healthy: bool) returns (ok: bool)
      requires Valid() && CanQuarantine(Store(), p)
      modifies this
      ensures Valid() && (healthy ==> ok)
      ensures Store() == Renamed(old(Store()), p, Kept(p.owner, p.name)) || (!ok && Store() == old(Store()))
    {
      hide Inv;
      hide Queued;
      hide Run;
      ok := *;
      ok := ok || healthy;
      if !ok {
        var happened: bool := *;
        if !happened { return; }
      }
      ghost var before := Store();
      var q := Kept(p.owner, p.name);
      files := (files - {p})[q := files[p]];
      Append(Action.Quarantine(p), before);
    }

    /** A random identifier is drawn. */
    ghost method DrawId(id: string)
      requires Valid()
      modifies this`run, this`used
      ensures Valid() && Store() == Drawn(old(Store()), id)
    {
      hide Inv;
      hide Queued;
      hide Run;
      ghost var before := Store();
      used := used + {id};
      Append(Draw(id), before);
    }
  }
}
