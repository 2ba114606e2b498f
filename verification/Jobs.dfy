/** The tables as mutable state, and the transactions of internal/jobs/jobs.go on them. */
module Jobs {
  import opened Options
  import opened Catalog

  /** What `process` sees of the file tree and of the external tools. */
  datatype Stat = Stat(size: int, mtime: int)

  /** `before` and `after` are what `os.Stat` says of the source before and after the work; `None` if it is not there. */
  datatype Observed = Observed(before: Option<Stat>, metadataRead: bool, previewsMade: bool, after: Option<Stat>)

  /** The worker owns the asset, and no other does. */
  ghost predicate OwnedBy(s: State, id: nat, worker: nat)
  {
    Owns(s, worker) && s.workers[worker].id == id && forall w | Owns(s, w) && s.workers[w].id == id :: w == worker
  }

  lemma OwnerIsAlone(s: State, worker: nat)
    requires Inv(s) && Owns(s, worker)
    ensures OwnedBy(s, s.workers[worker].id, worker)
  {
  }

  lemma OwnerFacts(s: State, worker: nat)
    requires Inv(s) && worker in s.workers
    ensures Owns(s, worker) ==>
              var c := s.workers[worker];
              && c.size == s.assets[c.id].size && c.mtime == s.assets[c.id].mtime
              && c.id in s.jobs && s.jobs[c.id].attempts == c.attempts <= 2
  {
    assert WorkerOk(s, worker);
  }

  lemma OwnerRuns(s: State, worker: nat)
    requires Inv(s) && worker in s.workers
    ensures Owns(s, worker) ==> s.workers[worker].id in s.jobs && s.jobs[s.workers[worker].id].state == Running
  {
    assert WorkerOk(s, worker);
  }

  lemma Unfinished(s: State)
    requires Inv(s)
    ensures forall id | id in s.assets && id !in s.intents && id !in s.jobs :: s.assets[id].preview == Ready && s.assets[id].metadata == Ready
  {
  }

  lemma AttemptsBound(s: State)
    requires Inv(s)
    ensures forall id | id in s.jobs && s.jobs[id].state != GivenUp :: s.jobs[id].attempts <= 2
  {
    assert forall id | id in s.jobs :: AttemptsOk(s.jobs[id]);
  }

  lemma JobsHaveAssets(s: State)
    requires Inv(s)
    ensures forall id | id in s.jobs :: id in s.assets
  {
  }

  lemma OwnersHaveJobs(s: State)
    requires Inv(s)
    ensures forall w | Owns(s, w) :: s.workers[w].id in s.jobs
  {
    forall w | Owns(s, w) ensures s.workers[w].id in s.jobs { assert WorkerOk(s, w); }
  }

  lemma WorkersAreNotAhead(s: State, id: nat)
    requires Inv(s) && id in s.assets
    ensures forall w | w in s.workers && s.workers[w].id == id :: s.workers[w].generation <= s.assets[id].generation
  {
    forall w | w in s.workers && s.workers[w].id == id ensures s.workers[w].generation <= s.assets[id].generation {
      assert WorkerOk(s, w);
    }
  }

  lemma PathsAreUnique(s: State)
    requires Inv(s)
    ensures forall i, j | i in s.assets && j in s.assets && At(s, i, s.assets[j].library, s.assets[j].path) :: i == j
  {
  }

  lemma LinkedHere(s: State)
    requires Inv(s)
    ensures Linked(s)
  {
  }

  /** The row was there and the file has the size and time that it shows. */
  predicate Unchanged(s: State, id: nat, size: int, mtime: int)
  {
    id in s.assets && s.assets[id].size == size && s.assets[id].mtime == mtime
  }

  /**
   Indexing a file leaves one row at its path that shows it.  A new or changed
   file starts a generation with nothing ready, and in an enabled library its
   job is due at once and may fail three times; for any other file no job changes.
   */
  lemma IndexedIsDue(s: State, library: string, path: string, size: int, mtime: int, token: nat) returns (id: nat)
    requires Inv(s) && library != UPLOADS
    ensures var t := Apply(s, IndexFile(library, path, size, mtime, token));
            && id in t.assets && t.assets[id].library == library && t.assets[id].path == path
            && t.assets[id].size == size && t.assets[id].mtime == mtime && t.assets[id].seen == token
            && (forall k | k in t.assets && t.assets[k].library == library && t.assets[k].path == path :: k == id)
            && (forall k | k in s.assets && k != id :: k in t.assets && t.assets[k] == s.assets[k])
            && (if Unchanged(s, id, size, mtime) then
                  t.jobs == s.jobs && t.assets[id] == s.assets[id].(seen := token)
                else
                  && t.assets[id].preview == Pending && t.assets[id].metadata == Pending && t.assets[id].key == None
                  && t.assets[id].generation == (if id in s.assets then s.assets[id].generation + 1 else 1)
                  && id in t.jobs && t.jobs[id].state == Waiting && t.jobs[id].nextAt == 0 && Left(t, id) == 3
                  && (library in s.enabled ==> forall now :: 0 <= now ==> Eligible(t, id, now)))
  {
    hide Inv;
    LinkedHere(s);
    match Lookup(s, library, path)
    case None => id := s.nextId;
    case Some(i) => id := i;
  }

  /** The same for an upload that was just stored. */
  lemma UploadIsDue(s: State, path: string, size: int, mtime: int)
    requires Inv(s) && Lookup(s, UPLOADS, path) == None
    ensures var t, id := Apply(s, AddUpload(path, size, mtime)), s.nextId;
            && id !in s.assets && id in t.assets && t.assets[id].library == UPLOADS && t.assets[id].path == path
            && t.assets[id].size == size && t.assets[id].mtime == mtime && t.assets[id].generation == 1
            && t.assets[id].preview == Pending && t.assets[id].metadata == Pending && Left(t, id) == 3
            && (UPLOADS in s.enabled ==> forall now :: 0 <= now ==> Eligible(t, id, now))
  {
    hide Inv;
    LinkedHere(s);
  }

  predicate NotBy(a: Action, worker: nat)
  {
    match a
    case Restart(_) => false
    case Claim(w, _, _) => w != worker
    case PublishStage(w) => w != worker
    case Finish(w, _, _, _) => w != worker
    case Abandon(w) => w != worker
    case _ => true
  }

  predicate PreviewReady(c: Claimed, o: Observed)
  {
    o.before == Some(Stat(c.size, c.mtime)) && o.previewsMade && o.after == Some(Stat(c.size, c.mtime))
  }

  predicate MetadataReady(c: Claimed, o: Observed) { o.before == Some(Stat(c.size, c.mtime)) && o.metadataRead }

  /** The error bookkeeping of `process`: both outcomes are errors unless the source had the claimed size and time. */
  method Outcome(c: Claimed, o: Observed) returns (e: bool, metaErr: bool)
    ensures !e <==> o.before == Some(Stat(c.size, c.mtime)) && o.previewsMade && o.after == Some(Stat(c.size, c.mtime))
    ensures !metaErr <==> o.before == Some(Stat(c.size, c.mtime)) && o.metadataRead
  {
    e, metaErr := o.before.None?, false;
    if !e && (o.before.value.size != c.size || o.before.value.mtime != c.mtime) {
      e := true;
    }
    if e {
      metaErr := true;
    }
    if !e {
      metaErr := !o.metadataRead;
      e := !o.previewsMade;
    }
    if !e {
      if o.after.None? {
        e := true;
      } else if o.after.value.size != c.size || o.after.value.mtime != c.mtime {
        e := true;
      }
    }
  }

  /** Some due job comes first. */
  lemma {:induction false} FirstAmong(s: State, ids: set<nat>, now: int) returns (id: nat)
    requires ids != {} && forall k | k in ids :: Eligible(s, k, now)
    ensures id in ids && Eligible(s, id, now)
    ensures forall k | k in ids && Eligible(s, k, now) :: s.jobs[id].nextAt < s.jobs[k].nextAt || (s.jobs[id].nextAt == s.jobs[k].nextAt && id <= k)
  {
    id :| id in ids;
    if ids != {id} {
      var other := FirstAmong(s, ids - {id}, now);
      if s.jobs[other].nextAt < s.jobs[id].nextAt || (s.jobs[other].nextAt == s.jobs[id].nextAt && other <= id) {
        id := other;
      }
    }
  }

  lemma FirstExists(s: State, due: set<nat>, now: int)
    requires due != {} && forall id :: id in due <==> id in s.jobs && Eligible(s, id, now)
    ensures exists id :: id in due && First(s, id, now)
  {
    var id := FirstAmong(s, due, now);
    assert First(s, id, now);
  }

  lemma FirstMeans(s: State, id: nat, now: int)
    requires Inv(s) && First(s, id, now)
    ensures id in s.assets && id in s.jobs
    ensures var a, j := s.assets[id], s.jobs[id];
            && a.library in s.enabled && id !in s.intents && j.state == Waiting && j.nextAt <= now
            && forall k | k in s.jobs && k in s.assets && k !in s.intents && s.assets[k].library in s.enabled && s.jobs[k].state == Waiting ::
                 s.jobs[k].nextAt <= now ==> j.nextAt < s.jobs[k].nextAt || (j.nextAt == s.jobs[k].nextAt && id <= k)
  {
    hide Inv;
  }

  lemma NoneMeans(s: State, now: int)
    requires forall id | id in s.jobs :: !Eligible(s, id, now)
    ensures forall k | k in s.jobs && k in s.assets && k !in s.intents && s.assets[k].library in s.enabled && s.jobs[k].state == Waiting ::
              s.jobs[k].nextAt > now
  {
  }

  lemma LookupFinds(s: State, library: string, path: string, id: nat)
    requires Inv(s) && id in s.assets && At(s, id, library, path)
    ensures Lookup(s, library, path) == Some(id)
  {
    PathsAreUnique(s);
  }

  lemma LookupMisses(s: State, library: string, path: string)
    requires forall id | id in s.assets :: !(s.assets[id].library == library && s.assets[id].path == path)
    ensures Lookup(s, library, path) == None
  {
  }

  class Database {
    var assets: map<nat, Asset>
    var jobs: map<nat, Job>
    var intents: set<nat>
    var workers: map<nat, Claimed>
    var enabled: set<string>
    var nextId: nat
    ghost const libraries: set<string>
    ghost var run: seq<Action>

    function Tables(): State
      reads this
    {
      State(assets, jobs, intents, workers, enabled, nextId)
    }

    /** The tables are what a run of transactions made of an empty database. */
    ghost predicate Valid()
      reads this
    {
      Tables() == Run(Initial(libraries), run)
    }

    constructor (enabled: set<string>)
      ensures Valid() && Tables() == Initial(enabled)
    {
      assets, jobs, intents, workers, nextId := map[], map[], {}, map[], 1;
      this.enabled, libraries, run := enabled, enabled, [];
    }

    /** The invariant holds at every moment. */
    lemma Holds()
      requires Valid()
      ensures Inv(Tables())
    {
      hide Inv;
      InvRun(libraries, run);
    }

    ghost method Append(x: Action, before: State)
      requires before == Run(Initial(libraries), run) && Tables() == Apply(before, x)
      modifies this`run
      ensures Valid() && run == old(run) + [x]
    {
      hide Apply;
      assert (run + [x])[..|run + [x]| - 1] == run;
      run := run + [x];
    }

    /** `Start`: nobody is working yet, so every running job goes back to the queue, and nothing unfinished is left out of it. */
    method Start(libraries: set<string>)
      requires Valid()
      modifies this
      ensures Valid() && Tables() == Apply(old(Tables()), Restart(libraries))
      ensures workers == map[] && forall id | id in jobs :: jobs[id].state != Running
      ensures forall id | id in assets && id !in intents && !(assets[id].preview == Ready && assets[id].metadata == Ready) :: id in jobs
      ensures jobs.Keys == old(jobs).Keys && forall id | id in jobs ::
                if old(jobs)[id].state == Running then jobs[id] == old(jobs)[id].(state := Waiting, stage := "") else jobs[id] == old(jobs)[id]
    {
      hide Inv;
      hide Run;
      Holds();
      Unfinished(Tables());
      ghost var before := Tables();
      workers, enabled := map[], libraries;
      jobs := map id | id in jobs :: if jobs[id].state == Running then jobs[id].(state := Waiting, stage := "") else jobs[id];
      Append(Restart(libraries), before);
    }

    /** `claim`: the first waiting job that is due, or `None` if there is none; from then on this worker alone owns the asset. */
    method ClaimNext(worker: nat, now: int) returns (r: Option<nat>)
      requires Valid() && worker !in workers
      modifies this
      ensures Valid()
      ensures assets == old(assets) && intents == old(intents) && enabled == old(enabled)
      ensures r.None? <==> forall id | id in old(jobs) :: !Eligible(old(Tables()), id, now)
      ensures r.None? ==> Tables() == old(Tables())
      ensures r.Some? ==> First(old(Tables()), r.value, now) && Tables() == Apply(old(Tables()), Claim(worker, r.value, now))
      ensures r.Some? ==> worker in workers && OwnedBy(Tables(), r.value, worker)
      ensures r.Some? ==>
                var id, a, j := r.value, old(assets)[r.value], old(jobs)[r.value];
                && a.library in enabled && id !in intents && j.state == Waiting && j.nextAt <= now
                && workers[worker] == Claimed(id, a.generation, a.size, a.mtime, j.attempts) && jobs[id] == j.(state := Running, stage := "metadata")
      ensures forall k | k in old(jobs) && k in assets && k !in intents && assets[k].library in enabled && old(jobs)[k].state == Waiting ::
                old(jobs)[k].nextAt <= now ==>
                  r.Some? && (old(jobs)[r.value].nextAt < old(jobs)[k].nextAt || (old(jobs)[r.value].nextAt == old(jobs)[k].nextAt && r.value <= k))
    {
      hide Inv;
      hide Run;
      hide First;
      hide Eligible;
      ghost var before := Tables();
      Holds();
      JobsHaveAssets(Tables());
      var due := set id | id in jobs && Eligible(Tables(), id, now);
      if due == {} {
        assert forall id | id in jobs :: id !in due;
        NoneMeans(before, now);
        return None;
      }
      FirstExists(Tables(), due, now);
      var id :| id in due && First(Tables(), id, now);
      FirstMeans(before, id, now);
      var row := assets[id];
      workers := workers[worker := Claimed(id, row.generation, row.size, row.mtime, jobs[id].attempts)];
      jobs := jobs[id := jobs[id].(state := Running, stage := "metadata")];
      Append(Claim(worker, id, now), before);
      Holds();
      OwnerIsAlone(Tables(), worker);
      return Some(id);
    }

    /** The stage is shown only while this worker still owns the current generation. */
    method ShowStage(worker: nat)
      requires Valid() && worker in workers
      modifies this
      ensures Valid() && Tables() == Apply(old(Tables()), PublishStage(worker))
      ensures !Owns(old(Tables()), worker) ==> Tables() == old(Tables())
      ensures assets == old(assets) && workers == old(workers)
      ensures forall id | id in jobs :: id in old(jobs) && jobs[id] == old(jobs)[id].(stage := jobs[id].stage)
      ensures Owns(old(Tables()), worker) ==>
                var id := workers[worker].id; id in jobs && jobs[id].stage == "previews"
    {
      hide Inv;
      hide Run;
      Holds();
      OwnerRuns(Tables(), worker);
      ghost var before := Tables();
      var j := workers[worker];
      if j.id in jobs && jobs[j.id].state == Running && j.id in assets && assets[j.id].generation == j.generation {
        jobs := jobs[j.id := jobs[j.id].(stage := "previews")];
      }
      Append(PublishStage(worker), before);
    }

    /**
     The end of `process`: a cancelled worker leaves its job running for the next
     start, and one whose generation is not current any more changes no row.
     */
    method Persist(worker: nat, o: Observed, cancelled: bool, now: int)
      requires Valid() && worker in workers
      modifies this
      ensures Valid() && worker !in workers
      ensures cancelled ==> Tables() == Apply(old(Tables()), Abandon(worker))
      ensures !cancelled ==>
                Tables() == Apply(old(Tables()), Finish(worker, PreviewReady(old(workers[worker]), o), MetadataReady(old(workers[worker]), o), now))
      ensures cancelled || !Owns(old(Tables()), worker) ==> assets == old(assets) && jobs == old(jobs)
      ensures !cancelled && Owns(old(Tables()), worker) ==>
                var c := old(workers[worker]);
                && c.id in assets && assets[c.id].key == Some(Key(c.id, c.generation, c.size, c.mtime))
                && assets[c.id].key == Some(CurrentKey(c.id, assets[c.id]))
                && (PreviewReady(c, o) && MetadataReady(c, o) <==> c.id !in jobs)
                && (c.id in jobs ==> jobs[c.id].attempts == old(jobs)[c.id].attempts + 1 == c.attempts + 1)
                && (c.id in jobs ==> jobs[c.id].nextAt == now + 60 * (c.attempts + 1))
                && (c.id in jobs ==> jobs[c.id].state == if c.attempts == 2 then GivenUp else Waiting)
    {
      hide Inv;
      hide Run;
      ghost var before := Tables();
      Holds();
      OwnerFacts(before, worker);
      var j := workers[worker];
      workers := workers - {worker};
      if cancelled {
        Append(Abandon(worker), before);
        return;
      }
      var previewError, metadataError := Outcome(j, o);
      if j.id in assets && assets[j.id].generation == j.generation {
        assets := assets[j.id := assets[j.id].(key := Some(Key(j.id, j.generation, j.size, j.mtime)),
                                               preview := if previewError then Failed else Ready,
                                               metadata := if metadataError then Failed else Ready)];
        if !previewError && !metadataError {
          jobs := jobs - {j.id};
        } else if j.id in jobs {
          var state := Waiting;
          if j.attempts >= 2 {
            state := GivenUp;
          }
          jobs := jobs[j.id := jobs[j.id].(state := state, attempts := jobs[j.id].attempts + 1, nextAt := now + 60 * (j.attempts + 1))];
        }
      }
      Append(Finish(worker, PreviewReady(j, o), MetadataReady(j, o), now), before);
    }

    /** The first statement of `retry`: nothing is given up any more. */
    method RetryGivenUp()
      requires Valid()
      modifies this
      ensures Valid() && Tables() == Apply(old(Tables()), RetryAll)
      ensures jobs.Keys == old(jobs).Keys && forall id | id in jobs :: jobs[id].state != GivenUp && jobs[id].attempts <= 2
      ensures forall id | id in jobs ::
                if old(jobs)[id].state == GivenUp then jobs[id].state == Waiting && jobs[id].attempts == 0 && jobs[id].nextAt == 0
                else jobs[id] == old(jobs)[id]
    {
      hide Inv;
      hide Run;
      Holds();
      AttemptsBound(Tables());
      ghost var before := Tables();
      jobs := map id | id in jobs :: if jobs[id].state == GivenUp then jobs[id].(state := Waiting, attempts := 0, nextAt := 0) else jobs[id];
      Append(RetryAll, before);
    }

    /** Its second statement: then every asset that is not being deleted has a job. */
    method RequeueAllReady()
      requires Valid()
      modifies this
      ensures Valid() && Tables() == Apply(old(Tables()), RequeueReady)
      ensures forall id | id in assets && id !in intents :: id in jobs
      ensures forall id | id in old(jobs) :: id in jobs && jobs[id] == old(jobs)[id]
      ensures forall id | id in jobs && id !in old(jobs) :: jobs[id].state == Waiting && jobs[id].attempts == 0 && jobs[id].nextAt == 0
    {
      hide Inv;
      hide Run;
      Holds();
      Unfinished(Tables());
      ghost var before := Tables();
      var ids := set id | id in assets && id !in intents && id !in jobs && assets[id].preview == Ready;
      jobs := jobs + map id | id in ids :: NEW_JOB;
      Append(RequeueReady, before);
    }

    /** `retryProcessing`: of the enabled libraries, the chosen failed job or all of them wait again, and no other row changes. */
    method RetryProcessing(only: Option<nat>)
      requires Valid()
      modifies this
      ensures Valid() && Tables() == Apply(old(Tables()), RetryFailed(only))
      ensures forall id | id in jobs && jobs[id].state == GivenUp ::
                id in assets && (assets[id].library !in enabled || (only.Some? && only.value != id))
      ensures forall id | id in old(jobs) && old(jobs)[id].state != GivenUp :: id in jobs && jobs[id] == old(jobs)[id]
      ensures forall id | id in jobs && old(jobs)[id].state == GivenUp && jobs[id].state != GivenUp ::
                jobs[id].state == Waiting && jobs[id].attempts == 0 && jobs[id].nextAt == 0
    {
      hide Inv;
      hide Run;
      Holds();
      JobsHaveAssets(Tables());
      ghost var before := Tables();
      jobs := map id | id in jobs ::
        if jobs[id].state == GivenUp && (only == None || only == Some(id)) && id in assets && assets[id].library in enabled
        then Job(Waiting, 0, 0, "") else jobs[id];
      Append(RetryFailed(only), before);
    }

    /**
     The transaction at the end of `auditCache`, for an asset read earlier;
     answers whether a job was added, and then nobody works on the asset.
     */
    method Requeue(id: nat, generation: nat) returns (added: bool)
      requires Valid()
      modifies this
      ensures Valid() && Tables() == Apply(old(Tables()), RequeueMissing(id, generation))
      ensures added <==> id !in old(jobs) && id in jobs
      ensures added ==> assets[id].preview == Pending && forall w | Owns(Tables(), w) :: workers[w].id != id
      ensures added <==>
                && id in old(assets) && old(assets)[id].generation == generation && id !in old(intents) && id !in old(jobs)
      ensures added ==> jobs == old(jobs)[id := jobs[id]] && jobs[id].state == Waiting && jobs[id].attempts == 0 && jobs[id].nextAt == 0
      ensures !added ==> jobs == old(jobs) && assets == old(assets)
    {
      hide Inv;
      hide Run;
      Holds();
      OwnersHaveJobs(Tables());
      ghost var before := Tables();
      added := id in assets && assets[id].generation == generation && id !in intents && id !in jobs;
      if added {
        jobs := jobs[id := NEW_JOB];
        assets := assets[id := assets[id].(preview := Pending)];
      }
      Append(RequeueMissing(id, generation), before);
    }

    /** The three statements by which `bulkAssets` records the deletion of an owned upload: nobody owns or claims it any more. */
    method DeleteOwned(id: nat)
      requires Valid() && id in assets && id !in intents && assets[id].library == UPLOADS
      modifies this
      ensures Valid() && Tables() == Apply(old(Tables()), RecordDeletion(id))
      ensures (forall w | Owns(Tables(), w) :: workers[w].id != id) && forall now :: !Eligible(Tables(), id, now)
      ensures id in intents && id !in jobs && assets == old(assets)[id := old(assets)[id].(generation := old(assets)[id].generation + 1)]
    {
      hide Inv;
      hide Run;
      Holds();
      WorkersAreNotAhead(Tables(), id);
      ghost var before := Tables();
      intents := intents + {id};
      assets := assets[id := assets[id].(generation := assets[id].generation + 1)];
      jobs := jobs - {id};
      Append(RecordDeletion(id), before);
    }

    /** Transactions of everybody but this worker, and no restart. */
    method Others(ghost worker: nat)
      requires Valid()
      modifies this
      ensures Valid() && exists actions: seq<Action> | (forall a | a in actions :: NotBy(a, worker)) :: Tables() == Run(old(Tables()), actions)
    {
      ghost var none: seq<Action> := [];
      assert Tables() == Run(Tables(), none);
    }

    /** `indexFile`, inside the transaction of a batch. */
    method IndexOne(library: string, path: string, size: int, mtime: int, token: nat)
      requires Valid() && library != UPLOADS
      modifies this
      ensures Valid() && Tables() == Apply(old(Tables()), IndexFile(library, path, size, mtime, token))
    {
      hide Inv;
      hide Run;
      hide Lookup;
      ghost var before := Tables();
      Holds();
      if id :| id in assets && assets[id].library == library && assets[id].path == path {
        LookupFinds(before, library, path, id);
        var a := assets[id];
        if a.size == size && a.mtime == mtime {
          assets := assets[id := a.(seen := token)];
        } else {
          assets := assets[id := a.(size := size, mtime := mtime, seen := token, generation := a.generation + 1,
                                    preview := Pending, metadata := Pending, key := None)];
          jobs := jobs[id := if id in jobs then jobs[id].(state := Waiting, attempts := 0, nextAt := 0) else NEW_JOB];
        }
      } else {
        LookupMisses(before, library, path);
        assets := assets[nextId := FreshAsset(library, path, size, mtime, token)];
        jobs := jobs[nextId := NEW_JOB];
        nextId := nextId + 1;
      }
      Append(IndexFile(library, path, size, mtime, token), before);
    }

    /** The `DELETE` at the end of a clean scan. */
    method RemoveUnseen(library: string, token: nat)
      requires Valid() && library != UPLOADS
      modifies this
      ensures Valid() && Tables() == Apply(old(Tables()), Action.RemoveUnseen(library, token))
    {
      hide Run;
      ghost var before := Tables();
      var ids := set id | id in assets && assets[id].library == library && assets[id].seen != token;
      assets, jobs, intents := assets - ids, jobs - ids, intents - ids;
      assert ids == Unseen(before, library, token);
      Append(Action.RemoveUnseen(library, token), before);
    }
  }

  // ---- Whole requests, and one turn of a worker ----

  /** `retry`, in its two separate statements: then every asset that is not being deleted has a job. */
  method Retry(db: Database, ghost worker: nat)
    requires db.Valid()
    modifies db
    ensures db.Valid() && forall id | id in db.assets && id !in db.intents :: id in db.jobs
  {
    hide Run;
    db.RetryGivenUp();
    db.Others(worker);
    db.RequeueAllReady();
  }

  lemma OthersStep(s: State, a: Action, worker: nat)
    requires NotBy(a, worker) && worker in s.workers
    ensures worker in Apply(s, a).workers && Apply(s, a).workers[worker] == s.workers[worker]
  {
  }

  /** Nobody else takes a worker's claim away. */
  lemma {:induction false} OthersKeepClaim(s: State, actions: seq<Action>, worker: nat)
    requires worker in s.workers && forall a | a in actions :: NotBy(a, worker)
    ensures worker in Run(s, actions).workers && Run(s, actions).workers[worker] == s.workers[worker]
  {
    hide Apply;
    if actions != [] {
      OthersKeepClaim(s, actions[..|actions| - 1], worker);
      OthersStep(Run(s, actions[..|actions| - 1]), actions[|actions| - 1], worker);
    }
  }

  method Interfere(db: Database, ghost worker: nat)
    requires db.Valid() && worker in db.workers
    modifies db
    ensures db.Valid() && worker in db.workers && db.workers[worker] == old(db.workers[worker])
  {
    hide Run;
    ghost var before := db.Tables();
    db.Others(worker);
    ghost var actions: seq<Action> :| (forall a | a in actions :: NotBy(a, worker)) && db.Tables() == Run(before, actions);
    OthersKeepClaim(before, actions, worker);
  }

  lemma ClaimIsExact(s: State, worker: nat, id: nat, now: int)
    requires worker !in s.workers && First(s, id, now)
    ensures var t := Apply(s, Claim(worker, id, now));
            && worker in t.workers
            && t.workers[worker] == Claimed(id, s.assets[id].generation, s.assets[id].size, s.assets[id].mtime, s.jobs[id].attempts)
  {
  }

  lemma FinishFacts(s: State, worker: nat, previewOk: bool, metadataOk: bool, now: int)
    requires worker in s.workers
    ensures var c, t := s.workers[worker], Apply(s, Finish(worker, previewOk, metadataOk, now));
            c.id in t.assets && t.assets[c.id].generation == c.generation ==>
              && (previewOk && metadataOk ==> c.id !in t.jobs)
              && t.assets[c.id].preview == (if previewOk then Ready else Failed)
              && t.assets[c.id].metadata == (if metadataOk then Ready else Failed)
              && t.assets[c.id].key == Some(Key(c.id, c.generation, c.size, c.mtime))
  {
  }

  /**
   One turn of a worker, with everybody else at work in between: what it writes
   in the end is the result for the generation it claimed, or nothing.
   */
  method WorkOnce(db: Database, worker: nat, o: Observed, cancelled: bool, start: int, end: int) returns (claimed: Option<Claimed>)
    requires db.Valid() && worker !in db.workers
    modifies db
    ensures db.Valid() && worker !in db.workers
    ensures claimed.None? <==> forall id | id in old(db.jobs) :: !Eligible(old(db.Tables()), id, start)
    ensures claimed.Some? ==>
              var c := claimed.value;
              && First(old(db.Tables()), c.id, start) && c.generation == old(db.assets)[c.id].generation
              && c.size == old(db.assets)[c.id].size && c.mtime == old(db.assets)[c.id].mtime
              && (!cancelled && c.id in db.assets && db.assets[c.id].generation == c.generation ==>
                    && db.assets[c.id].preview == (if o.before == Some(Stat(c.size, c.mtime)) == o.after && o.previewsMade then Ready else Failed)
                    && db.assets[c.id].metadata == (if o.before == Some(Stat(c.size, c.mtime)) && o.metadataRead then Ready else Failed)
                    && db.assets[c.id].key == Some(Key(c.id, c.generation, c.size, c.mtime))
                    && (db.assets[c.id].preview == Ready && db.assets[c.id].metadata == Ready ==> c.id !in db.jobs))
  {
    hide Run;
    hide Inv;
    hide Apply;
    hide Eligible;
    var r := db.ClaimNext(worker, start);
    if r.None? { return None; }
    claimed := Some(db.workers[worker]);
    ClaimIsExact(old(db.Tables()), worker, r.value, start);
    Interfere(db, worker);
    db.ShowStage(worker);
    Interfere(db, worker);
    FinishFacts(db.Tables(), worker, PreviewReady(claimed.value, o), MetadataReady(claimed.value, o), end);
    db.Persist(worker, o, cancelled, end);
  }
}
