/**
 One scan of a mounted library (internal/scanner/scanner.go).  A scan commits in
 batches; workers, uploads, deletions, retries and audits may run between two
 batches, and the claims below hold whatever they do.
 */
module Scanner {
  import opened Options
  import opened Catalog
  import opened Jobs

  const BATCH := 128

  datatype File = File(path: string, size: int, mtime: int)

  /** What the walk reports: a media file, something to pass over, an unreadable path, or an error that ends it. */
  datatype Event = Media(file: File) | Ignored | Unreadable | Broken

  datatype Outcome = Clean | Skipped | Aborted

  /** The part of a row that only scans write. */
  datatype Row = Row(path: string, size: int, mtime: int, generation: nat, seen: nat)

  function RowOf(a: Asset): Row { Row(a.path, a.size, a.mtime, a.generation, a.seen) }

  function Rows(s: State, library: string): map<nat, Row>
  {
    map id | id in s.assets && s.assets[id].library == library :: RowOf(s.assets[id])
  }

  function Files(events: seq<Event>): seq<File>
  {
    if events == [] then []
    else
      var rest, last := Files(events[..|events| - 1]), events[|events| - 1];
      if last.Media? then rest + [last.file] else rest
  }

  predicate Distinct(files: seq<File>)
  {
    forall i, j | 0 <= i < j < |files| :: files[i].path != files[j].path
  }

  predicate Covers(files: seq<File>, path: string)
  {
    exists f | f in files :: f.path == path
  }

  predicate Describes(f: File, r: Row)
  {
    f.path == r.path && f.size == r.size && f.mtime == r.mtime
  }

  /** The generation goes up by one exactly where the size or the time changed. */
  predicate Follows(before: Row, after: Row)
  {
    && after.path == before.path
    && after.generation == before.generation +
         if after.size == before.size && after.mtime == before.mtime then 0 else 1
  }

  /** No row is gone, and generations tell which ones changed. */
  ghost predicate NothingRemoved(v0: map<nat, Row>, v: map<nat, Row>)
  {
    forall id | id in v0 :: id in v && Follows(v0[id], v[id])
  }

  /** Rows without the token of this scan are as they were; the new ones have it. */
  ghost predicate OnlySeenChanged(v0: map<nat, Row>, v: map<nat, Row>, token: nat)
  {
    && (forall id | id in v && id !in v0 :: v[id].generation == 1 && v[id].seen == token)
    && (forall id | id in v && v[id].seen != token :: id in v0 && v[id] == v0[id])
  }

  ghost predicate SeenIsCovered(v: map<nat, Row>, done: seq<File>, token: nat)
  {
    forall id | id in v :: v[id].seen == token <==> Covers(done, v[id].path)
  }

  ghost predicate SeenIsDescribed(v: map<nat, Row>, done: seq<File>, token: nat)
  {
    forall id | id in v && v[id].seen == token :: exists f | f in done :: Describes(f, v[id])
  }

  ghost predicate AllIndexed(v: map<nat, Row>, done: seq<File>)
  {
    forall f | f in done :: exists id | id in v :: Describes(f, v[id])
  }

  /** The state of the rows after the files in `done` were indexed. */
  ghost predicate Progress(v0: map<nat, Row>, v: map<nat, Row>, done: seq<File>, token: nat)
  {
    && NothingRemoved(v0, v) && OnlySeenChanged(v0, v, token)
    && SeenIsCovered(v, done, token) && SeenIsDescribed(v, done, token) && AllIndexed(v, done)
  }

  ghost predicate PathsUnique(v: map<nat, Row>)
  {
    forall i, j | i in v && j in v && v[i].path == v[j].path :: i == j
  }

  /** The result of a clean scan: the rows are the files, and surviving paths keep their identity. */
  ghost predicate Reconciled(v0: map<nat, Row>, v: map<nat, Row>, files: seq<File>)
  {
    && (forall id | id in v :: exists f | f in files :: Describes(f, v[id]))
    && (forall f | f in files :: exists id | id in v :: Describes(f, v[id]))
    && PathsUnique(v)
    && (forall id | id in v0 :: id in v <==> Covers(files, v0[id].path))
    && (forall id | id in v0 && id in v :: Follows(v0[id], v[id]))
    && (forall id | id in v && id !in v0 :: v[id].generation == 1)
  }

  /** A step that is not part of a scan of this library. */
  predicate Foreign(a: Action, library: string)
  {
    !(a.IndexFile? && a.library == library) && !(a.RemoveUnseen? && a.library == library)
  }

  lemma SameRows(s: State, t: State, library: string)
    requires forall id :: id in s.assets && s.assets[id].library == library <==> id in t.assets && t.assets[id].library == library
    requires forall id | id in s.assets && id in t.assets && s.assets[id].library == library :: RowOf(s.assets[id]) == RowOf(t.assets[id])
    ensures Rows(t, library) == Rows(s, library)
  {
  }

  lemma RowsOfInserted(s: State, a: Asset, library: string)
    requires Linked(s)
    ensures Rows(Inserted(s, a), library) ==
            if a.library == library then Rows(s, library)[s.nextId := RowOf(a)] else Rows(s, library)
  {
    var t := Inserted(s, a);
    assert s.nextId !in s.assets;
    if a.library != library {
      SameRows(s, t, library);
    }
  }

  lemma RowsOfUpdated(s: State, t: State, id: nat, library: string)
    requires id in s.assets && id in t.assets && t.assets == s.assets[id := t.assets[id]]
    requires t.assets[id].library == s.assets[id].library
    ensures Rows(t, library) ==
            if s.assets[id].library == library then Rows(s, library)[id := RowOf(t.assets[id])] else Rows(s, library)
  {
  }

  lemma FinishKeepsRows(s: State, worker: nat, previewOk: bool, metadataOk: bool, now: int, library: string)
    ensures Rows(Finished(s, worker, previewOk, metadataOk, now), library) == Rows(s, library)
  {
    SameRows(s, Finished(s, worker, previewOk, metadataOk, now), library);
  }

  lemma IndexKeepsOtherRows(s: State, other: string, path: string, size: int, mtime: int, token: nat, library: string)
    requires Linked(s) && other != library
    ensures Rows(Indexed(s, other, path, size, mtime, token), library) == Rows(s, library)
  {
    hide Rows;
    match Lookup(s, other, path)
    case None => RowsOfInserted(s, FreshAsset(other, path, size, mtime, token), library);
    case Some(id) =>
      assert At(s, id, other, path);
      RowsOfUpdated(s, Seen(s, id, token), id, library);
      RowsOfUpdated(s, Changed(s, id, size, mtime, token), id, library);
  }

  /** Steps that touch neither path, size, time, generation nor token of a row in another library than that of uploads. */
  predicate WorksOnly(a: Action)
  {
    !a.IndexFile? && !a.RemoveUnseen? && !a.AddUpload? && !a.RecordDeletion? && !a.FinishDeletion? && !a.Finish?
  }

  lemma WorkKeepsRows(s: State, a: Action, library: string)
    requires WorksOnly(a)
    ensures Rows(Apply(s, a), library) == Rows(s, library)
  {
    hide Rows;
    SameRows(s, Apply(s, a), library);
  }

  lemma DeletionKeepsRows(s: State, a: Action, library: string)
    requires Linked(s) && library != UPLOADS && (a.RecordDeletion? || a.FinishDeletion? || (a.RemoveUnseen? && a.library != library))
    ensures Rows(Apply(s, a), library) == Rows(s, library)
  {
    hide Rows;
    hide At;
    SameRows(s, Apply(s, a), library);
  }

  lemma ForeignKeepsRows(s: State, a: Action, library: string)
    requires Linked(s) && library != UPLOADS && Foreign(a, library)
    ensures Rows(Apply(s, a), library) == Rows(s, library)
  {
    hide Rows;
    hide Linked;
    match a
    case Finish(worker, previewOk, metadataOk, now) => FinishKeepsRows(s, worker, previewOk, metadataOk, now, library);
    case IndexFile(other, path, size, mtime, token) =>
      if other != UPLOADS {
        IndexKeepsOtherRows(s, other, path, size, mtime, token, library);
      }
    case AddUpload(path, size, mtime) => RowsOfInserted(s, FreshAsset(UPLOADS, path, size, mtime, 0), library);
    case RemoveUnseen(_, _) => DeletionKeepsRows(s, a, library);
    case RecordDeletion(_) => DeletionKeepsRows(s, a, library);
    case FinishDeletion(_) => DeletionKeepsRows(s, a, library);
    case _ => WorkKeepsRows(s, a, library);
  }

  lemma {:induction false} ForeignRunKeepsRows(s: State, actions: seq<Action>, library: string)
    requires Inv(s) && library != UPLOADS && forall a | a in actions :: Foreign(a, library)
    ensures Inv(Run(s, actions)) && Rows(Run(s, actions), library) == Rows(s, library)
  {
    if actions != [] {
      var n := |actions| - 1;
      ForeignRunKeepsRows(s, actions[..n], library);
      InvStep(Run(s, actions[..n]), actions[n]);
      ForeignKeepsRows(Run(s, actions[..n]), actions[n], library);
    }
  }

  lemma CoversMore(done: seq<File>, f: File, path: string)
    ensures Covers(done + [f], path) <==> Covers(done, path) || f.path == path
  {
    assert f in done + [f];
    forall g | g in done ensures g in done + [f] {}
  }

  /** The row for `f` is written: either a new one, or a later state of the one that had the path. */
  ghost predicate Writes(v: map<nat, Row>, id: nat, r: Row, f: File, token: nat)
  {
    && Describes(f, r) && r.seen == token
    && (if id in v then v[id].path == f.path && Follows(v[id], r) else r.generation == 1)
    && forall k | k in v && v[k].path == f.path :: k == id
  }

  lemma CoveredStep(v: map<nat, Row>, id: nat, r: Row, done: seq<File>, f: File, token: nat)
    requires SeenIsCovered(v, done, token) && Writes(v, id, r, f, token)
    ensures SeenIsCovered(v[id := r], done + [f], token)
  {
    hide Covers;
    var w := v[id := r];
    forall k | k in w
      ensures w[k].seen == token <==> Covers(done + [f], w[k].path)
    {
      CoversMore(done, f, w[k].path);
    }
  }

  lemma DescribedStep(v: map<nat, Row>, id: nat, r: Row, done: seq<File>, f: File, token: nat)
    requires SeenIsDescribed(v, done, token) && Writes(v, id, r, f, token)
    ensures SeenIsDescribed(v[id := r], done + [f], token)
  {
    var w := v[id := r];
    forall k | k in w && w[k].seen == token
      ensures exists g | g in done + [f] :: Describes(g, w[k])
    {
      if k == id {
        assert f in done + [f] && Describes(f, w[k]);
      } else {
        var g :| g in done && Describes(g, v[k]);
        assert g in done + [f] && Describes(g, w[k]);
      }
    }
  }

  lemma IndexedStep(v: map<nat, Row>, id: nat, r: Row, done: seq<File>, f: File, token: nat)
    requires AllIndexed(v, done) && !Covers(done, f.path) && Writes(v, id, r, f, token)
    ensures AllIndexed(v[id := r], done + [f])
  {
    var w := v[id := r];
    forall g | g in done + [f]
      ensures exists k | k in w :: Describes(g, w[k])
    {
      if g in done {
        var k :| k in v && Describes(g, v[k]);
        assert k != id && k in w && Describes(g, w[k]);
      } else {
        assert id in w && Describes(g, w[id]);
      }
    }
  }

  lemma RowsStep(v0: map<nat, Row>, v: map<nat, Row>, id: nat, r: Row, f: File, token: nat)
    requires NothingRemoved(v0, v) && OnlySeenChanged(v0, v, token) && Writes(v, id, r, f, token)
    requires (id in v ==> id in v0 && v[id] == v0[id]) && (id !in v ==> id !in v0)
    ensures NothingRemoved(v0, v[id := r]) && OnlySeenChanged(v0, v[id := r], token)
  {
  }

  /** A row with the path of a file that was not indexed yet is as it was before the scan. */
  lemma OldRowIsUnseen(v0: map<nat, Row>, v: map<nat, Row>, id: nat, done: seq<File>, path: string, token: nat)
    requires OnlySeenChanged(v0, v, token) && SeenIsCovered(v, done, token) && !Covers(done, path) && id in v && v[id].path == path
    ensures id in v0 && v[id] == v0[id]
  {
  }

  lemma ProgressStep(v0: map<nat, Row>, v: map<nat, Row>, id: nat, r: Row, done: seq<File>, f: File, token: nat)
    requires Progress(v0, v, done, token) && !Covers(done, f.path) && Writes(v, id, r, f, token)
    requires id !in v ==> id !in v0
    requires forall k | k in v0 :: v0[k].seen != token
    ensures Progress(v0, v[id := r], done + [f], token)
  {
    hide Covers;
    hide NothingRemoved;
    hide OnlySeenChanged;
    hide SeenIsCovered;
    hide SeenIsDescribed;
    hide AllIndexed;
    if id in v { OldRowIsUnseen(v0, v, id, done, f.path, token); }
    RowsStep(v0, v, id, r, f, token);
    CoveredStep(v, id, r, done, f, token);
    DescribedStep(v, id, r, done, f, token);
    IndexedStep(v, id, r, done, f, token);
  }

  lemma IndexProgress(s: State, library: string, v0: map<nat, Row>, done: seq<File>, f: File, token: nat)
    requires Linked(s) && !Covers(done, f.path)
    requires Progress(v0, Rows(s, library), done, token)
    requires forall id | id in v0 :: v0[id].seen != token && id < s.nextId
    ensures Progress(v0, Rows(Indexed(s, library, f.path, f.size, f.mtime, token), library), done + [f], token)
  {
    hide Progress;
    var v := Rows(s, library);
    assert forall k | k in v && v[k].path == f.path :: At(s, k, library, f.path);
    match Lookup(s, library, f.path)
    case None =>
      RowsOfInserted(s, FreshAsset(library, f.path, f.size, f.mtime, token), library);
      ProgressStep(v0, v, s.nextId, Row(f.path, f.size, f.mtime, 1, token), done, f, token);
    case Some(id) =>
      assert At(s, id, library, f.path);
      var t := Indexed(s, library, f.path, f.size, f.mtime, token);
      RowsOfUpdated(s, t, id, library);
      ProgressStep(v0, v, id, RowOf(t.assets[id]), done, f, token);
  }

  lemma LinkedPaths(s: State, library: string)
    requires Linked(s)
    ensures PathsUnique(Rows(s, library))
  {
    var v := Rows(s, library);
    forall i, j | i in v && j in v && v[i].path == v[j].path
      ensures i == j
    {
      assert At(s, i, library, s.assets[j].path);
    }
  }

  function OnlySeen(v: map<nat, Row>, token: nat): map<nat, Row>
  {
    map id | id in v && v[id].seen == token :: v[id]
  }

  lemma RowsOfRemoved(s: State, library: string, token: nat)
    ensures Rows(Removed(s, Unseen(s, library, token)), library) == OnlySeen(Rows(s, library), token)
  {
  }

  lemma CoversItself(files: seq<File>, f: File)
    requires f in files
    ensures Covers(files, f.path)
  {
  }

  /** Removing what was not seen leaves exactly the files. */
  lemma RemovalReconciles(v0: map<nat, Row>, v: map<nat, Row>, files: seq<File>, token: nat)
    requires Progress(v0, v, files, token) && PathsUnique(v)
    ensures Reconciled(v0, OnlySeen(v, token), files)
  {
    hide Covers;
    var w := OnlySeen(v, token);
    forall f | f in files
      ensures exists id | id in w :: Describes(f, w[id])
    {
      var id :| id in v && Describes(f, v[id]);
      CoversItself(files, f);
      assert id in w;
    }
  }

  lemma NothingDone(s: State, library: string, token: nat)
    requires forall id | id in Rows(s, library) :: Rows(s, library)[id].seen != token
    ensures Progress(Rows(s, library), Rows(s, library), [], token)
  {
  }

  lemma StepKeeps(s: State, a: Action)
    requires Inv(s)
    ensures Linked(s) && Inv(Apply(s, a)) && s.nextId <= Apply(s, a).nextId
  {
    InvStep(s, a);
  }

  lemma NotYetCovered(done: seq<File>, batch: seq<File>, i: nat)
    requires Distinct(done + batch) && i < |batch|
    ensures !Covers(done + batch[..i], batch[i].path)
  {
    var all := done + batch;
    forall f | f in done + batch[..i]
      ensures f.path != batch[i].path
    {
      var k :| 0 <= k < |done| + i && (done + batch[..i])[k] == f;
      assert all[k] == f && all[|done| + i] == batch[i];
    }
  }

  class Scan {
    const db: Database
    const library: string
    const token: nat
    var batch: seq<File>
    ghost var before: map<nat, Row>
    ghost var done: seq<File>

    ghost predicate Valid()
      reads this`before, this`done, db
    {
      && db.Valid() && library != UPLOADS
      && Progress(before, Rows(db.Tables(), library), done, token)
      && (forall id | id in before :: before[id].seen != token && id < db.nextId)
    }

    lemma Kept()
      requires Valid()
      ensures db.Valid() && Inv(db.Tables()) && NothingRemoved(before, Rows(db.Tables(), library))
    {
      hide Inv;
      db.Holds();
    }

    /** `token` is random, so no row carries it yet. */
    constructor (db: Database, library: string, token: nat)
      requires db.Valid() && library != UPLOADS
      requires forall id | id in db.assets :: db.assets[id].seen != token
      ensures Valid() && batch == [] && done == [] && before == Rows(db.Tables(), library)
      ensures this.db == db && this.library == library && this.token == token
    {
      this.db, this.library, this.token := db, library, token;
      batch, done, before := [], [], Rows(db.Tables(), library);
      new;
      db.Holds();
      NothingDone(db.Tables(), library, token);
    }

    /** Other transactions, none of them of a scan of this library: callers know nothing else about them. */
    method Others()
      requires Valid()
      modifies db
      ensures Valid()
      ensures exists actions: seq<Action> | (forall a | a in actions :: Foreign(a, library)) ::
                db.Tables() == Run(old(db.Tables()), actions)
    {
      ghost var none: seq<Action> := [];
      assert db.Tables() == Run(db.Tables(), none);
    }

    method IndexItem(f: File)
      requires Valid() && !Covers(done, f.path)
      modifies this`done, db
      ensures Valid() && done == old(done) + [f]
    {
      hide Progress;
      hide Inv;
      hide Indexed;
      hide Rows;
      hide Run;
      db.Holds();
      StepKeeps(db.Tables(), IndexFile(library, f.path, f.size, f.mtime, token));
      IndexProgress(db.Tables(), library, before, done, f, token);
      db.IndexOne(library, f.path, f.size, f.mtime, token);
      done := done + [f];
    }

    /** `flush`: one transaction for the whole batch; a failed one changes nothing. */
    method Flush() returns (ok: bool)
      requires Valid() && Distinct(done + batch)
      modifies this`batch, this`done, db
      ensures Valid()
      ensures ok ==> batch == [] && done == old(done + batch)
      ensures !ok ==> db.Tables() == old(db.Tables()) && done == old(done) && batch == old(batch)
    {
      hide Valid;
      if * {
        return false;
      }
      for i := 0 to |batch|
        invariant Valid() && batch == old(batch) && done == old(done) + batch[..i]
      {
        NotYetCovered(old(done), batch, i);
        IndexItem(batch[i]);
        assert batch[..i + 1] == batch[..i] + [batch[i]];
      }
      assert batch[..|batch|] == batch;
      batch := [];
      return true;
    }

    /** One media file: the batch is flushed when it is full, and others may have been at work before that. */
    method Take(f: File) returns (ok: bool)
      requires Valid() && |batch| < BATCH && Distinct(done + batch + [f])
      modifies this`batch, this`done, db
      ensures Valid() && done + batch == old(done + batch) + [f] && (ok ==> |batch| < BATCH)
    {
      hide Valid;
      assert done + (batch + [f]) == done + batch + [f];
      batch := batch + [f];
      ok := true;
      if |batch| == BATCH {
        Others();
        ok := Flush();
      }
    }

    /** The `DELETE` at the end of a clean scan. */
    method RemoveRest()
      requires Valid() && Distinct(done)
      modifies db
      ensures db.Valid() && Reconciled(before, Rows(db.Tables(), library), done)
    {
      hide Progress;
      hide Reconciled;
      hide Inv;
      hide Rows;
      hide Run;
      db.Holds();
      StepKeeps(db.Tables(), RemoveUnseen(library, token));
      LinkedPaths(db.Tables(), library);
      RowsOfRemoved(db.Tables(), library, token);
      RemovalReconciles(before, Rows(db.Tables(), library), done, token);
      db.RemoveUnseen(library, token);
    }
  }

  // ---- One file at a time ----

  /** The tables when the files are indexed one by one, each in its own transaction. */
  ghost function Unbatched(s: State, library: string, files: seq<File>, token: nat): State
  {
    if files == [] then s
    else
      var f := files[|files| - 1];
      Indexed(Unbatched(s, library, files[..|files| - 1], token), library, f.path, f.size, f.mtime, token)
  }

  /** The rows that are left when, after that, the unseen ones are removed. */
  ghost function UnbatchedRows(s: State, library: string, files: seq<File>, token: nat): map<nat, Row>
  {
    var t := Unbatched(s, library, files, token);
    Rows(Removed(t, Unseen(t, library, token)), library)
  }

  lemma UnbatchedStep(v0: map<nat, Row>, mid: State, library: string, rest: seq<File>, f: File, token: nat)
    requires Inv(mid) && library != UPLOADS && !Covers(rest, f.path)
    requires Progress(v0, Rows(mid, library), rest, token)
    requires forall id | id in v0 :: v0[id].seen != token && id < mid.nextId
    ensures var t := Indexed(mid, library, f.path, f.size, f.mtime, token);
            Inv(t) && mid.nextId <= t.nextId && Progress(v0, Rows(t, library), rest + [f], token)
  {
    hide Inv;
    hide Progress;
    hide Indexed;
    hide Rows;
    hide Covers;
    StepKeeps(mid, IndexFile(library, f.path, f.size, f.mtime, token));
    IndexProgress(mid, library, v0, rest, f, token);
  }

  lemma LastIsNew(files: seq<File>)
    requires Distinct(files) && files != []
    ensures Distinct(files[..|files| - 1]) && !Covers(files[..|files| - 1], files[|files| - 1].path)
  {
    var n := |files| - 1;
    var init := files[..n];
    forall f | f in init ensures f.path != files[n].path {
      var k :| 0 <= k < n && init[k] == f;
      assert files[k] == f;
    }
  }

  lemma NotSeenYet(s: State, library: string, token: nat)
    requires Inv(s) && forall id | id in s.assets :: s.assets[id].seen != token
    ensures forall id | id in Rows(s, library) :: Rows(s, library)[id].seen != token && id < s.nextId
  {
  }

  lemma {:induction false} UnbatchedProgress(s: State, library: string, files: seq<File>, token: nat)
    requires Inv(s) && library != UPLOADS && Distinct(files)
    requires forall id | id in s.assets :: s.assets[id].seen != token
    ensures Inv(Unbatched(s, library, files, token)) && s.nextId <= Unbatched(s, library, files, token).nextId
    ensures Progress(Rows(s, library), Rows(Unbatched(s, library, files, token), library), files, token)
  {
    hide Inv;
    hide Progress;
    hide Indexed;
    hide Covers;
    hide Distinct;
    hide Rows;
    NotSeenYet(s, library, token);
    if files == [] {
      NothingDone(s, library, token);
    } else {
      var rest, f := files[..|files| - 1], files[|files| - 1];
      LastIsNew(files);
      UnbatchedProgress(s, library, rest, token);
      UnbatchedStep(Rows(s, library), Unbatched(s, library, rest, token), library, rest, f, token);
      assert rest + [f] == files;
    }
  }

  /** Indexing one by one and then removing reconciles, too. */
  lemma UnbatchedReconciles(s: State, library: string, files: seq<File>, token: nat)
    requires Inv(s) && library != UPLOADS && Distinct(files)
    requires forall id | id in s.assets :: s.assets[id].seen != token
    ensures Reconciled(Rows(s, library), UnbatchedRows(s, library, files, token), files)
  {
    hide Inv;
    hide Progress;
    hide Reconciled;
    hide Rows;
    hide Removed;
    UnbatchedProgress(s, library, files, token);
    var t := Unbatched(s, library, files, token);
    StepKeeps(t, RemoveUnseen(library, token));
    LinkedPaths(t, library);
    RowsOfRemoved(t, library, token);
    RemovalReconciles(Rows(s, library), Rows(t, library), files, token);
  }

  /** The same file at the same generation. */
  predicate SameRow(r: Row, t: Row)
  {
    r.path == t.path && r.size == t.size && r.mtime == t.mtime && r.generation == t.generation
  }

  /** The same rows with the same ids, but for ids of new rows, which depend on what else was inserted. */
  ghost predicate SameOutcome(v0: map<nat, Row>, v: map<nat, Row>, w: map<nat, Row>)
  {
    && (forall id | id in v0 :: id in v <==> id in w)
    && (forall id | id in v0 && id in v && id in w :: SameRow(v[id], w[id]))
    && (forall i | i in v && i !in v0 :: exists j | j in w && j !in v0 :: SameRow(v[i], w[j]))
    && (forall j | j in w && j !in v0 :: exists i | i in v && i !in v0 :: SameRow(v[i], w[j]))
  }

  lemma SameDescription(files: seq<File>, r: Row, t: Row)
    requires Distinct(files) && r.path == t.path
    requires (exists f | f in files :: Describes(f, r)) && (exists f | f in files :: Describes(f, t))
    ensures r.size == t.size && r.mtime == t.mtime
  {
    var f :| f in files && Describes(f, r);
    var g :| g in files && Describes(g, t);
    var i :| 0 <= i < |files| && files[i] == f;
    var j :| 0 <= j < |files| && files[j] == g;
    assert i == j;
  }

  lemma RowIsDescribed(v0: map<nat, Row>, v: map<nat, Row>, files: seq<File>, id: nat) returns (f: File)
    requires Reconciled(v0, v, files) && id in v
    ensures f in files && Describes(f, v[id])
  {
    f :| f in files && Describes(f, v[id]);
  }

  lemma FileHasRow(v0: map<nat, Row>, v: map<nat, Row>, files: seq<File>, f: File) returns (id: nat)
    requires Reconciled(v0, v, files) && f in files
    ensures id in v && Describes(f, v[id])
  {
    id :| id in v && Describes(f, v[id]);
  }

  lemma OldRowStays(v0: map<nat, Row>, v: map<nat, Row>, w: map<nat, Row>, files: seq<File>, id: nat)
    requires Reconciled(v0, v, files) && Reconciled(v0, w, files) && id in v0
    ensures id in v <==> id in w
    ensures id in v ==> Follows(v0[id], v[id]) && Follows(v0[id], w[id])
  {
  }

  lemma PathHasOneRow(v0: map<nat, Row>, v: map<nat, Row>, files: seq<File>, i: nat, j: nat)
    requires Reconciled(v0, v, files) && i in v && j in v && v[i].path == v[j].path
    ensures i == j && (i !in v0 ==> v[i].generation == 1)
  {
  }

  lemma NewRowHasTwin(v0: map<nat, Row>, v: map<nat, Row>, w: map<nat, Row>, files: seq<File>, i: nat) returns (j: nat)
    requires Distinct(files) && Reconciled(v0, v, files) && Reconciled(v0, w, files) && i in v && i !in v0
    ensures j in w && j !in v0 && SameRow(v[i], w[j])
  {
    hide Reconciled;
    hide Distinct;
    var f := RowIsDescribed(v0, v, files, i);
    j := FileHasRow(v0, w, files, f);
    PathHasOneRow(v0, v, files, i, i);
    PathHasOneRow(v0, w, files, j, j);
    if j in v0 {
      OldRowStays(v0, v, w, files, j);
      PathHasOneRow(v0, v, files, i, j);
    }
  }

  /** What a clean scan leaves is determined by the rows before and the files. */
  lemma ReconciledDetermines(v0: map<nat, Row>, v: map<nat, Row>, w: map<nat, Row>, files: seq<File>)
    requires Distinct(files) && Reconciled(v0, v, files) && Reconciled(v0, w, files)
    ensures SameOutcome(v0, v, w)
  {
    hide Reconciled;
    hide Distinct;
    forall id | id in v0 ensures id in v <==> id in w {
      OldRowStays(v0, v, w, files, id);
    }
    forall id | id in v0 && id in v && id in w ensures SameRow(v[id], w[id]) {
      OldRowStays(v0, v, w, files, id);
      var f := RowIsDescribed(v0, v, files, id);
      var g := RowIsDescribed(v0, w, files, id);
      SameDescription(files, v[id], w[id]);
    }
    forall i | i in v && i !in v0 ensures exists j | j in w && j !in v0 :: SameRow(v[i], w[j]) {
      var j := NewRowHasTwin(v0, v, w, files, i);
    }
    forall j | j in w && j !in v0 ensures exists i | i in v && i !in v0 :: SameRow(v[i], w[j]) {
      var i := NewRowHasTwin(v0, w, v, files, j);
      assert SameRow(v[i], w[j]);
    }
  }

  lemma FollowsItself(v: map<nat, Row>)
    ensures NothingRemoved(v, v)
  {
  }

  lemma NoFiles(events: seq<Event>)
    ensures Files(events[..0]) == []
  {
  }

  lemma {:induction false} FilesPrefix(events: seq<Event>, i: nat)
    requires i <= |events|
    ensures Files(events[..i]) <= Files(events)
    decreases |events|
  {
    if i < |events| {
      var rest := events[..|events| - 1];
      FilesPrefix(rest, i);
      assert rest[..i] == events[..i];
    } else {
      assert events[..i] == events;
    }
  }

  lemma FilesStep(events: seq<Event>, i: nat)
    requires i < |events|
    requires Distinct(Files(events))
    ensures Files(events[..i + 1]) == if events[i].Media? then Files(events[..i]) + [events[i].file] else Files(events[..i])
    ensures Distinct(Files(events[..i + 1]))
  {
    assert events[..i + 1][..i] == events[..i];
    FilesPrefix(events, i + 1);
  }

  /**
   One scan of a library.  `rootOk` and `sameRoot` are the checks of the root
   directory before and after the walk; a database error may end the scan
   anywhere.  `Outcome.Skipped` is the scan that met unreadable paths.
   */
  method ScanRoot(db: Database, library: string, token: nat, rootOk: bool, events: seq<Event>, sameRoot: bool) returns (r: Outcome)
    requires db.Valid() && library != UPLOADS
    requires forall id | id in db.assets :: db.assets[id].seen != token
    requires Distinct(Files(events))
    modifies db
    ensures db.Valid()
    ensures r.Clean? ==>
              SameOutcome(old(Rows(db.Tables(), library)), Rows(db.Tables(), library),
                          UnbatchedRows(old(db.Tables()), library, Files(events), token))
    ensures r.Clean? ==> rootOk && sameRoot && Broken !in events && Unreadable !in events
    ensures r.Clean? ==> Reconciled(old(Rows(db.Tables(), library)), Rows(db.Tables(), library), Files(events))
    ensures !r.Clean? ==> NothingRemoved(old(Rows(db.Tables(), library)), Rows(db.Tables(), library))
  {
    hide Files;
    hide Rows;
    hide Inv;
    hide Reconciled;
    hide Progress;
    hide NothingRemoved;
    hide SameOutcome;
    hide UnbatchedRows;
    hide Run;
    ghost var s0 := db.Tables();
    ghost var v0 := Rows(s0, library);
    db.Holds();
    UnbatchedReconciles(s0, library, Files(events), token);
    FollowsItself(v0);
    if !rootOk {
      return Aborted;
    }
    var scan := new Scan(db, library, token);
    var denied := false;
    NoFiles(events);
    for i := 0 to |events|
      invariant fresh(scan) && scan.db == db && scan.library == library && scan.token == token
      invariant scan.Valid() && scan.before == v0
      invariant scan.done + scan.batch == Files(events[..i]) && |scan.batch| < BATCH
      invariant Broken !in events[..i] && (Unreadable in events[..i] ==> denied)
    {
      FilesStep(events, i);
      scan.Kept();
      match events[i]
      case Broken => return Aborted;
      case Unreadable => denied := true;
      case Ignored =>
      case Media(file) =>
        var ok := scan.Take(file);
        scan.Kept();
        if !ok {
          return Aborted;
        }
      assert events[..i + 1] == events[..i] + [events[i]];
    }
    assert events[..|events|] == events;
    scan.Others();
    var ok := scan.Flush();
    scan.Kept();
    if !ok || !sameRoot {
      return Aborted;
    }
    scan.Others();
    scan.Kept();
    if denied {
      return Skipped;
    }
    if * {
      return Aborted;
    }
    scan.RemoveRest();
    ReconciledDetermines(v0, Rows(db.Tables(), library), UnbatchedRows(s0, library, Files(events), token), Files(events));
    return Clean;
  }
}
