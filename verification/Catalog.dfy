/**
 The indexed assets and the queue of processing jobs (internal/jobs/jobs.go,
 the row updates of internal/scanner/scanner.go, and every other statement that
 writes those rows).  The database runs one transaction at a time, so each
 transaction is one atomic step; workers keep a private copy of what they
 claimed, and everything else may happen between their steps.
 */
module Catalog {
  import opened Options

  const UPLOADS := "arkiv-uploads"

  /** `thumbnails.Key`: a digest of these four numbers, taken to be free of collisions. */
  datatype Key = Key(id: nat, generation: nat, size: int, mtime: int)

  datatype Status = Pending | Ready | Failed

  datatype Asset = Asset(library: string, path: string, size: int, mtime: int, generation: nat,
                         preview: Status, metadata: Status, key: Option<Key>, seen: nat)

  datatype JobState = Waiting | Running | GivenUp

  datatype Job = Job(state: JobState, attempts: nat, nextAt: int, stage: string)

  /** What `claim` hands to a worker. */
  datatype Claimed = Claimed(id: nat, generation: nat, size: int, mtime: int, attempts: nat)

  datatype State = State(assets: map<nat, Asset>, jobs: map<nat, Job>, intents: set<nat>,
                         workers: map<nat, Claimed>, enabled: set<string>, nextId: nat)

  const NEW_JOB := Job(Waiting, 0, 0, "")

  function FreshAsset(library: string, path: string, size: int, mtime: int, seen: nat): Asset
  {
    Asset(library, path, size, mtime, 1, Pending, Pending, None, seen)
  }

  function CurrentKey(id: nat, a: Asset): Key { Key(id, a.generation, a.size, a.mtime) }

  predicate At(s: State, id: nat, library: string, path: string)
    requires id in s.assets
  {
    s.assets[id].library == library && s.assets[id].path == path
  }

  /** The asset that a library has at a path, if any. */
  ghost function Lookup(s: State, library: string, path: string): Option<nat>
  {
    if exists id | id in s.assets :: At(s, id, library, path)
    then Some(var id :| id in s.assets && At(s, id, library, path); id)
    else None
  }

  // ---- The steps ----

  datatype Action =
    | Restart(enabled: set<string>)
    | Claim(worker: nat, id: nat, now: int)
    | PublishStage(worker: nat)
    | Finish(worker: nat, previewOk: bool, metadataOk: bool, now: int)
    | Abandon(worker: nat)
    | IndexFile(library: string, path: string, size: int, mtime: int, token: nat)
    | RemoveUnseen(library: string, token: nat)
    | AddUpload(path: string, size: int, mtime: int)
    | RecordDeletion(id: nat)
    | FinishDeletion(id: nat)
    | RetryAll
    | RequeueReady
    | RetryFailed(only: Option<nat>)
    | RequeueMissing(id: nat, generation: nat)

  predicate Eligible(s: State, id: nat, now: int)
  {
    && id in s.jobs && id in s.assets && id !in s.intents
    && s.assets[id].library in s.enabled
    && s.jobs[id].state == Waiting && s.jobs[id].nextAt <= now
  }

  /** `ORDER BY j.next_at, a.id LIMIT 1`. */
  predicate First(s: State, id: nat, now: int)
  {
    && Eligible(s, id, now)
    && forall k | k in s.jobs && Eligible(s, k, now) ::
         s.jobs[id].nextAt < s.jobs[k].nextAt || (s.jobs[id].nextAt == s.jobs[k].nextAt && id <= k)
  }

  /** The worker's generation is the one the asset has now. */
  predicate Owns(s: State, worker: nat)
  {
    && worker in s.workers
    && var c := s.workers[worker];
       c.id in s.assets && s.assets[c.id].generation == c.generation
  }

  function Restarted(s: State, enabled: set<string>): State
  {
    s.(workers := map[], enabled := enabled,
       jobs := map id | id in s.jobs :: if s.jobs[id].state == Running then s.jobs[id].(state := Waiting, stage := "") else s.jobs[id])
  }

  function ClaimedBy(s: State, worker: nat, id: nat, now: int): State
  {
    if worker !in s.workers && First(s, id, now) then
      var row := s.assets[id];
      s.(jobs := s.jobs[id := s.jobs[id].(state := Running, stage := "metadata")],
         workers := s.workers[worker := Claimed(id, row.generation, row.size, row.mtime, s.jobs[id].attempts)])
    else s
  }

  /** Published only while the worker still owns the current generation. */
  function Staged(s: State, worker: nat): State
  {
    if Owns(s, worker) && s.workers[worker].id in s.jobs && s.jobs[s.workers[worker].id].state == Running then
      var id := s.workers[worker].id;
      s.(jobs := s.jobs[id := s.jobs[id].(stage := "previews")])
    else s
  }

  /** `claimed` is the number of attempts that the worker read, `j` is the row as it is now. */
  function AfterFailure(j: Job, claimed: nat, now: int): Job
  {
    j.(state := if claimed >= 2 then GivenUp else Waiting, attempts := j.attempts + 1, nextAt := now + 60 * (claimed + 1))
  }

  function Recorded(s: State, c: Claimed, previewOk: bool, metadataOk: bool, now: int): State
    requires c.id in s.assets
  {
    var row := s.assets[c.id].(key := Some(Key(c.id, c.generation, c.size, c.mtime)),
                               preview := if previewOk then Ready else Failed,
                               metadata := if metadataOk then Ready else Failed);
    s.(assets := s.assets[c.id := row],
       jobs := if previewOk && metadataOk then s.jobs - {c.id}
               else if c.id in s.jobs then s.jobs[c.id := AfterFailure(s.jobs[c.id], c.attempts, now)]
               else s.jobs)
  }

  function Dropped(s: State, worker: nat): State { s.(workers := s.workers - {worker}) }

  /** The last transaction of `process`: nothing at all unless the generation still matches. */
  function Finished(s: State, worker: nat, previewOk: bool, metadataOk: bool, now: int): State
  {
    if Owns(s, worker) then Recorded(Dropped(s, worker), s.workers[worker], previewOk, metadataOk, now) else Dropped(s, worker)
  }

  function Inserted(s: State, a: Asset): State
  {
    s.(assets := s.assets[s.nextId := a], jobs := s.jobs[s.nextId := NEW_JOB], nextId := s.nextId + 1)
  }

  function Seen(s: State, id: nat, token: nat): State
    requires id in s.assets
  {
    s.(assets := s.assets[id := s.assets[id].(seen := token)])
  }

  function Changed(s: State, id: nat, size: int, mtime: int, token: nat): State
    requires id in s.assets
  {
    var a := s.assets[id];
    s.(assets := s.assets[id := a.(size := size, mtime := mtime, seen := token, generation := a.generation + 1,
                                   preview := Pending, metadata := Pending, key := None)],
       jobs := s.jobs[id := if id in s.jobs then s.jobs[id].(state := Waiting, attempts := 0, nextAt := 0) else NEW_JOB])
  }

  /** `indexFile`: one row per path; only a new size or time starts a new generation. */
  ghost function Indexed(s: State, library: string, path: string, size: int, mtime: int, token: nat): State
  {
    match Lookup(s, library, path)
    case None => Inserted(s, FreshAsset(library, path, size, mtime, token))
    case Some(id) =>
      if s.assets[id].size == size && s.assets[id].mtime == mtime then Seen(s, id, token) else Changed(s, id, size, mtime, token)
  }

  /** Deleting rows also deletes what refers to them. */
  function Removed(s: State, ids: set<nat>): State
  {
    s.(assets := s.assets - ids, jobs := s.jobs - ids, intents := s.intents - ids)
  }

  function Unseen(s: State, library: string, token: nat): set<nat>
  {
    set id | id in s.assets && s.assets[id].library == library && s.assets[id].seen != token
  }

  function DeletionRecorded(s: State, id: nat): State
  {
    if id in s.assets && id !in s.intents && s.assets[id].library == UPLOADS then
      s.(intents := s.intents + {id}, jobs := s.jobs - {id},
         assets := s.assets[id := s.assets[id].(generation := s.assets[id].generation + 1)])
    else s
  }

  function RetriedAll(s: State): State
  {
    s.(jobs := map id | id in s.jobs ::
         if s.jobs[id].state == GivenUp then s.jobs[id].(state := Waiting, attempts := 0, nextAt := 0) else s.jobs[id])
  }

  function RequeuedReady(s: State): State
  {
    var ids := set id | id in s.assets && id !in s.intents && id !in s.jobs && s.assets[id].preview == Ready;
    s.(jobs := s.jobs + map id | id in ids :: NEW_JOB)
  }

  function RetriedFailed(s: State, only: Option<nat>): State
  {
    s.(jobs := map id | id in s.jobs ::
         if s.jobs[id].state == GivenUp && (only == None || only == Some(id)) && id in s.assets && s.assets[id].library in s.enabled
         then Job(Waiting, 0, 0, "") else s.jobs[id])
  }

  function RequeuedMissing(s: State, id: nat, generation: nat): State
  {
    if id in s.assets && s.assets[id].generation == generation && id !in s.intents && id !in s.jobs then
      s.(jobs := s.jobs[id := NEW_JOB], assets := s.assets[id := s.assets[id].(preview := Pending)])
    else s
  }

  ghost function Apply(s: State, a: Action): State
  {
    match a
    case Restart(enabled) => Restarted(s, enabled)
    case Claim(worker, id, now) => ClaimedBy(s, worker, id, now)
    case PublishStage(worker) => Staged(s, worker)
    case Finish(worker, previewOk, metadataOk, now) => Finished(s, worker, previewOk, metadataOk, now)
    case Abandon(worker) => Dropped(s, worker)
    case IndexFile(library, path, size, mtime, token) =>
      if library != UPLOADS then Indexed(s, library, path, size, mtime, token) else s
    case RemoveUnseen(library, token) => if library != UPLOADS then Removed(s, Unseen(s, library, token)) else s
    case AddUpload(path, size, mtime) =>
      if Lookup(s, UPLOADS, path) == None then Inserted(s, FreshAsset(UPLOADS, path, size, mtime, 0)) else s
    case RecordDeletion(id) => DeletionRecorded(s, id)
    case FinishDeletion(id) => if id in s.intents then Removed(s, {id}) else s
    case RetryAll => RetriedAll(s)
    case RequeueReady => RequeuedReady(s)
    case RetryFailed(only) => RetriedFailed(s, only)
    case RequeueMissing(id, generation) => RequeuedMissing(s, id, generation)
  }

  // ---- What every run keeps ----

  ghost predicate Linked(s: State)
  {
    && s.jobs.Keys <= s.assets.Keys && s.intents <= s.assets.Keys
    && (forall id | id in s.assets :: id < s.nextId)
    && (forall w | w in s.workers :: s.workers[w].id < s.nextId)
    && (forall i, j | i in s.assets && j in s.assets && At(s, i, s.assets[j].library, s.assets[j].path) :: i == j)
    && (forall id | id in s.intents :: id !in s.jobs && s.assets[id].library == UPLOADS)
  }

  /** At most two failures are behind a job that may still run, and exactly three behind one that is given up. */
  predicate AttemptsOk(j: Job) { if j.state == GivenUp then j.attempts == 3 else j.attempts <= 2 }

  /** A worker that still owns its asset has the running job, and an exact copy of the row. */
  ghost predicate WorkerOk(s: State, w: nat)
    requires w in s.workers
  {
    var c := s.workers[w];
    c.id in s.assets ==>
      && c.generation <= s.assets[c.id].generation
      && (c.generation == s.assets[c.id].generation ==>
            && c.id !in s.intents && c.id in s.jobs
            && s.jobs[c.id].state == Running && s.jobs[c.id].attempts == c.attempts
            && c.size == s.assets[c.id].size && c.mtime == s.assets[c.id].mtime)
  }

  /** At most one live worker holds the current generation of an asset. */
  ghost predicate OneOwner(s: State)
  {
    forall v, w | Owns(s, v) && Owns(s, w) && s.workers[v].id == s.workers[w].id :: v == w
  }

  /** No work is lost: an asset that nobody is going to process is fully processed. */
  ghost predicate NothingLost(s: State)
  {
    forall id | id in s.assets && id !in s.intents && id !in s.jobs ::
      s.assets[id].preview == Ready && s.assets[id].metadata == Ready
  }

  /** A ready preview is the preview of the bytes that the row describes. */
  ghost predicate ReadyIsCurrent(s: State)
  {
    forall id | id in s.assets && id !in s.intents && s.assets[id].preview == Ready ::
      s.assets[id].key == Some(CurrentKey(id, s.assets[id]))
  }

  /** The rows of assets and jobs. */
  ghost predicate RowsOk(s: State)
  {
    Linked(s) && (forall id | id in s.jobs :: AttemptsOk(s.jobs[id])) && NothingLost(s) && ReadyIsCurrent(s)
  }

  /** The claims of workers. */
  ghost predicate WorkOk(s: State)
  {
    (forall w | w in s.workers :: WorkerOk(s, w)) && OneOwner(s)
  }

  ghost predicate Inv(s: State) { RowsOk(s) && WorkOk(s) }

  function Initial(enabled: set<string>): State { State(map[], map[], {}, map[], enabled, 1) }

  lemma InvInitial(enabled: set<string>)
    ensures Inv(Initial(enabled))
  {
  }

  lemma RowsRestarted(s: State, enabled: set<string>)
    requires Inv(s)
    ensures RowsOk(Restarted(s, enabled))
  {
    hide OneOwner;
    hide WorkerOk;
  }

  lemma WorkRestarted(s: State, enabled: set<string>)
    requires Inv(s)
    ensures WorkOk(Restarted(s, enabled))
  {
    hide NothingLost;
    hide ReadyIsCurrent;
    hide AttemptsOk;
  }

  lemma InvRestarted(s: State, enabled: set<string>)
    requires Inv(s)
    ensures Inv(Restarted(s, enabled))
  {
    hide RowsOk;
    hide WorkOk;
    RowsRestarted(s, enabled);
    WorkRestarted(s, enabled);
  }

  lemma RowsClaimed(s: State, worker: nat, id: nat, now: int)
    requires Inv(s)
    ensures RowsOk(ClaimedBy(s, worker, id, now))
  {
    hide OneOwner;
    hide WorkerOk;
  }

  lemma WorkClaimed(s: State, worker: nat, id: nat, now: int)
    requires Inv(s)
    ensures WorkOk(ClaimedBy(s, worker, id, now))
  {
    hide NothingLost;
    hide ReadyIsCurrent;
    hide AttemptsOk;
  }

  lemma InvClaimed(s: State, worker: nat, id: nat, now: int)
    requires Inv(s)
    ensures Inv(ClaimedBy(s, worker, id, now))
  {
    hide RowsOk;
    hide WorkOk;
    RowsClaimed(s, worker, id, now);
    WorkClaimed(s, worker, id, now);
  }

  lemma RowsStaged(s: State, worker: nat)
    requires Inv(s)
    ensures RowsOk(Staged(s, worker))
  {
    hide OneOwner;
    hide WorkerOk;
  }

  lemma WorkStaged(s: State, worker: nat)
    requires Inv(s)
    ensures WorkOk(Staged(s, worker))
  {
    hide NothingLost;
    hide ReadyIsCurrent;
    hide AttemptsOk;
  }

  lemma InvStaged(s: State, worker: nat)
    requires Inv(s)
    ensures Inv(Staged(s, worker))
  {
    hide RowsOk;
    hide WorkOk;
    RowsStaged(s, worker);
    WorkStaged(s, worker);
  }

  lemma RowsDropped(s: State, worker: nat)
    requires Inv(s)
    ensures RowsOk(Dropped(s, worker))
  {
    hide OneOwner;
    hide WorkerOk;
  }

  lemma WorkDropped(s: State, worker: nat)
    requires Inv(s)
    ensures WorkOk(Dropped(s, worker))
  {
    hide NothingLost;
    hide ReadyIsCurrent;
    hide AttemptsOk;
  }

  lemma InvDropped(s: State, worker: nat)
    requires Inv(s)
    ensures Inv(Dropped(s, worker))
  {
    hide RowsOk;
    hide WorkOk;
    RowsDropped(s, worker);
    WorkDropped(s, worker);
  }

  lemma LinkedRecorded(s: State, c: Claimed, previewOk: bool, metadataOk: bool, now: int)
    requires Inv(s)
    requires c.id in s.assets && c.id !in s.intents && c.id in s.jobs
    requires s.assets[c.id].generation == c.generation && s.assets[c.id].size == c.size && s.assets[c.id].mtime == c.mtime
    requires s.jobs[c.id].state == Running && s.jobs[c.id].attempts == c.attempts
    requires forall w | Owns(s, w) :: s.workers[w].id != c.id
    ensures Linked(Recorded(s, c, previewOk, metadataOk, now))
  {
    hide WorkOk;
    hide NothingLost;
    hide ReadyIsCurrent;
    hide AttemptsOk;
  }

  lemma RowsRecorded(s: State, c: Claimed, previewOk: bool, metadataOk: bool, now: int)
    requires Inv(s)
    requires c.id in s.assets && c.id !in s.intents && c.id in s.jobs
    requires s.assets[c.id].generation == c.generation && s.assets[c.id].size == c.size && s.assets[c.id].mtime == c.mtime
    requires s.jobs[c.id].state == Running && s.jobs[c.id].attempts == c.attempts
    requires forall w | Owns(s, w) :: s.workers[w].id != c.id
    ensures RowsOk(Recorded(s, c, previewOk, metadataOk, now))
  {
    hide WorkOk;
    hide Linked;
    hide At;
    LinkedRecorded(s, c, previewOk, metadataOk, now);
  }

  lemma WorkRecorded(s: State, c: Claimed, previewOk: bool, metadataOk: bool, now: int)
    requires Inv(s)
    requires c.id in s.assets && c.id !in s.intents && c.id in s.jobs
    requires s.assets[c.id].generation == c.generation && s.assets[c.id].size == c.size && s.assets[c.id].mtime == c.mtime
    requires s.jobs[c.id].state == Running && s.jobs[c.id].attempts == c.attempts
    requires forall w | Owns(s, w) :: s.workers[w].id != c.id
    ensures WorkOk(Recorded(s, c, previewOk, metadataOk, now))
  {
    hide NothingLost;
    hide ReadyIsCurrent;
    hide AttemptsOk;
  }

  /** Once its owner is gone from the list of workers, nobody owns the asset. */
  lemma InvRecorded(s: State, c: Claimed, previewOk: bool, metadataOk: bool, now: int)
    requires Inv(s)
    requires c.id in s.assets && c.id !in s.intents && c.id in s.jobs
    requires s.assets[c.id].generation == c.generation && s.assets[c.id].size == c.size && s.assets[c.id].mtime == c.mtime
    requires s.jobs[c.id].state == Running && s.jobs[c.id].attempts == c.attempts
    requires forall w | Owns(s, w) :: s.workers[w].id != c.id
    ensures Inv(Recorded(s, c, previewOk, metadataOk, now))
  {
    hide RowsOk;
    hide WorkOk;
    RowsRecorded(s, c, previewOk, metadataOk, now);
    WorkRecorded(s, c, previewOk, metadataOk, now);
  }

  lemma DroppedOwnerFacts(s: State, worker: nat)
    requires Inv(s) && Owns(s, worker)
    ensures var c, t := s.workers[worker], Dropped(s, worker);
            && c.id in t.assets && c.id !in t.intents && c.id in t.jobs
            && t.assets[c.id].generation == c.generation && t.assets[c.id].size == c.size && t.assets[c.id].mtime == c.mtime
            && t.jobs[c.id].state == Running && t.jobs[c.id].attempts == c.attempts
            && (forall w | Owns(t, w) :: t.workers[w].id != c.id)
  {
    assert WorkerOk(s, worker);
    hide RowsOk;
  }

  lemma InvFinished(s: State, worker: nat, previewOk: bool, metadataOk: bool, now: int)
    requires Inv(s)
    ensures Inv(Finished(s, worker, previewOk, metadataOk, now))
  {
    hide Inv;
    hide Recorded;
    InvDropped(s, worker);
    if Owns(s, worker) {
      DroppedOwnerFacts(s, worker);
      InvRecorded(Dropped(s, worker), s.workers[worker], previewOk, metadataOk, now);
    }
  }

  lemma LinkedInserted(s: State, a: Asset)
    requires Inv(s)
    requires a.preview != Ready && forall id | id in s.assets :: !At(s, id, a.library, a.path)
    ensures Linked(Inserted(s, a))
  {
    hide WorkOk;
    hide NothingLost;
    hide ReadyIsCurrent;
    hide AttemptsOk;
  }

  lemma RowsInserted(s: State, a: Asset)
    requires Inv(s)
    requires a.preview != Ready && forall id | id in s.assets :: !At(s, id, a.library, a.path)
    ensures RowsOk(Inserted(s, a))
  {
    hide WorkOk;
    hide At;
    LinkedInserted(s, a);
  }

  lemma WorkInserted(s: State, a: Asset)
    requires Inv(s)
    requires a.preview != Ready && forall id | id in s.assets :: !At(s, id, a.library, a.path)
    ensures WorkOk(Inserted(s, a))
  {
    hide NothingLost;
    hide ReadyIsCurrent;
    hide AttemptsOk;
  }

  lemma InvInserted(s: State, a: Asset)
    requires Inv(s)
    requires a.preview != Ready && forall id | id in s.assets :: !At(s, id, a.library, a.path)
    ensures Inv(Inserted(s, a))
  {
    hide RowsOk;
    hide WorkOk;
    RowsInserted(s, a);
    WorkInserted(s, a);
  }

  lemma RowsSeen(s: State, id: nat, token: nat)
    requires Inv(s)
    requires id in s.assets
    ensures RowsOk(Seen(s, id, token))
  {
    hide OneOwner;
    hide WorkerOk;
  }

  lemma WorkSeen(s: State, id: nat, token: nat)
    requires Inv(s)
    requires id in s.assets
    ensures WorkOk(Seen(s, id, token))
  {
    hide NothingLost;
    hide ReadyIsCurrent;
    hide AttemptsOk;
  }

  lemma InvSeen(s: State, id: nat, token: nat)
    requires Inv(s)
    requires id in s.assets
    ensures Inv(Seen(s, id, token))
  {
    hide RowsOk;
    hide WorkOk;
    RowsSeen(s, id, token);
    WorkSeen(s, id, token);
  }

  lemma LinkedChanged(s: State, id: nat, size: int, mtime: int, token: nat)
    requires Inv(s)
    requires id in s.assets && s.assets[id].library != UPLOADS
    ensures Linked(Changed(s, id, size, mtime, token))
  {
    hide WorkOk;
    hide NothingLost;
    hide ReadyIsCurrent;
    hide AttemptsOk;
  }

  lemma RowsChanged(s: State, id: nat, size: int, mtime: int, token: nat)
    requires Inv(s)
    requires id in s.assets && s.assets[id].library != UPLOADS
    ensures RowsOk(Changed(s, id, size, mtime, token))
  {
    hide WorkOk;
    hide Linked;
    hide At;
    LinkedChanged(s, id, size, mtime, token);
  }

  lemma WorkChanged(s: State, id: nat, size: int, mtime: int, token: nat)
    requires Inv(s)
    requires id in s.assets && s.assets[id].library != UPLOADS
    ensures WorkOk(Changed(s, id, size, mtime, token))
  {
    hide NothingLost;
    hide ReadyIsCurrent;
    hide AttemptsOk;
  }

  lemma InvChanged(s: State, id: nat, size: int, mtime: int, token: nat)
    requires Inv(s)
    requires id in s.assets && s.assets[id].library != UPLOADS
    ensures Inv(Changed(s, id, size, mtime, token))
  {
    hide RowsOk;
    hide WorkOk;
    RowsChanged(s, id, size, mtime, token);
    WorkChanged(s, id, size, mtime, token);
  }

  lemma InvIndexed(s: State, library: string, path: string, size: int, mtime: int, token: nat)
    requires Inv(s) && library != UPLOADS
    ensures Inv(Indexed(s, library, path, size, mtime, token))
  {
    hide Inv;
    match Lookup(s, library, path)
    case None => InvInserted(s, FreshAsset(library, path, size, mtime, token));
    case Some(id) =>
      InvSeen(s, id, token);
      InvChanged(s, id, size, mtime, token);
  }

  lemma RowsRemoved(s: State, ids: set<nat>)
    requires Inv(s)
    ensures RowsOk(Removed(s, ids))
  {
    hide OneOwner;
    hide WorkerOk;
  }

  lemma WorkRemoved(s: State, ids: set<nat>)
    requires Inv(s)
    ensures WorkOk(Removed(s, ids))
  {
    hide NothingLost;
    hide ReadyIsCurrent;
    hide AttemptsOk;
  }

  lemma InvRemoved(s: State, ids: set<nat>)
    requires Inv(s)
    ensures Inv(Removed(s, ids))
  {
    hide RowsOk;
    hide WorkOk;
    RowsRemoved(s, ids);
    WorkRemoved(s, ids);
  }

  lemma RowsDeletionRecorded(s: State, id: nat)
    requires Inv(s)
    ensures RowsOk(DeletionRecorded(s, id))
  {
    hide OneOwner;
    hide WorkerOk;
  }

  lemma WorkDeletionRecorded(s: State, id: nat)
    requires Inv(s)
    ensures WorkOk(DeletionRecorded(s, id))
  {
    hide NothingLost;
    hide ReadyIsCurrent;
    hide AttemptsOk;
  }

  lemma InvDeletionRecorded(s: State, id: nat)
    requires Inv(s)
    ensures Inv(DeletionRecorded(s, id))
  {
    hide RowsOk;
    hide WorkOk;
    RowsDeletionRecorded(s, id);
    WorkDeletionRecorded(s, id);
  }

  lemma RowsRetriedAll(s: State)
    requires Inv(s)
    ensures RowsOk(RetriedAll(s))
  {
    hide OneOwner;
    hide WorkerOk;
  }

  lemma WorkRetriedAll(s: State)
    requires Inv(s)
    ensures WorkOk(RetriedAll(s))
  {
    hide NothingLost;
    hide ReadyIsCurrent;
    hide AttemptsOk;
  }

  lemma InvRetriedAll(s: State)
    requires Inv(s)
    ensures Inv(RetriedAll(s))
  {
    hide RowsOk;
    hide WorkOk;
    RowsRetriedAll(s);
    WorkRetriedAll(s);
  }

  lemma RowsRequeuedReady(s: State)
    requires Inv(s)
    ensures RowsOk(RequeuedReady(s))
  {
    hide OneOwner;
    hide WorkerOk;
  }

  lemma WorkRequeuedReady(s: State)
    requires Inv(s)
    ensures WorkOk(RequeuedReady(s))
  {
    hide NothingLost;
    hide ReadyIsCurrent;
    hide AttemptsOk;
  }

  lemma InvRequeuedReady(s: State)
    requires Inv(s)
    ensures Inv(RequeuedReady(s))
  {
    hide RowsOk;
    hide WorkOk;
    RowsRequeuedReady(s);
    WorkRequeuedReady(s);
  }

  lemma RowsRetriedFailed(s: State, only: Option<nat>)
    requires Inv(s)
    ensures RowsOk(RetriedFailed(s, only))
  {
    hide OneOwner;
    hide WorkerOk;
  }

  lemma WorkRetriedFailed(s: State, only: Option<nat>)
    requires Inv(s)
    ensures WorkOk(RetriedFailed(s, only))
  {
    hide NothingLost;
    hide ReadyIsCurrent;
    hide AttemptsOk;
  }

  lemma InvRetriedFailed(s: State, only: Option<nat>)
    requires Inv(s)
    ensures Inv(RetriedFailed(s, only))
  {
    hide RowsOk;
    hide WorkOk;
    RowsRetriedFailed(s, only);
    WorkRetriedFailed(s, only);
  }

  lemma LinkedRequeuedMissing(s: State, id: nat, generation: nat)
    requires Inv(s)
    ensures Linked(RequeuedMissing(s, id, generation))
  {
    hide WorkOk;
    hide NothingLost;
    hide ReadyIsCurrent;
    hide AttemptsOk;
  }

  lemma RowsRequeuedMissing(s: State, id: nat, generation: nat)
    requires Inv(s)
    ensures RowsOk(RequeuedMissing(s, id, generation))
  {
    hide WorkOk;
    hide Linked;
    hide At;
    LinkedRequeuedMissing(s, id, generation);
  }

  lemma WorkRequeuedMissing(s: State, id: nat, generation: nat)
    requires Inv(s)
    ensures WorkOk(RequeuedMissing(s, id, generation))
  {
    hide NothingLost;
    hide ReadyIsCurrent;
    hide AttemptsOk;
  }

  lemma InvRequeuedMissing(s: State, id: nat, generation: nat)
    requires Inv(s)
    ensures Inv(RequeuedMissing(s, id, generation))
  {
    hide RowsOk;
    hide WorkOk;
    RowsRequeuedMissing(s, id, generation);
    WorkRequeuedMissing(s, id, generation);
  }

  /** Every step keeps the invariant. */
  lemma InvStep(s: State, a: Action)
    requires Inv(s)
    ensures Inv(Apply(s, a))
  {
    hide Inv;
    match a
    case Restart(enabled) => InvRestarted(s, enabled);
    case Claim(worker, id, now) => InvClaimed(s, worker, id, now);
    case PublishStage(worker) => InvStaged(s, worker);
    case Finish(worker, previewOk, metadataOk, now) => InvFinished(s, worker, previewOk, metadataOk, now);
    case Abandon(worker) => InvDropped(s, worker);
    case IndexFile(library, path, size, mtime, token) => if library != UPLOADS { InvIndexed(s, library, path, size, mtime, token); }
    case RemoveUnseen(library, token) => InvRemoved(s, Unseen(s, library, token));
    case AddUpload(path, size, mtime) =>
      if Lookup(s, UPLOADS, path) == None { InvInserted(s, FreshAsset(UPLOADS, path, size, mtime, 0)); }
    case RecordDeletion(id) => InvDeletionRecorded(s, id);
    case FinishDeletion(id) => InvRemoved(s, {id});
    case RetryAll => InvRetriedAll(s);
    case RequeueReady => InvRequeuedReady(s);
    case RetryFailed(only) => InvRetriedFailed(s, only);
    case RequeueMissing(id, generation) => InvRequeuedMissing(s, id, generation);
  }

  // ---- Over whole runs ----

  ghost function Run(s: State, actions: seq<Action>): State
  {
    if actions == [] then s else Apply(Run(s, actions[..|actions| - 1]), actions[|actions| - 1])
  }

  /** Whatever workers, scans, uploads, deletions, retries, audits and restarts do, in any order. */
  lemma {:induction false} InvRun(enabled: set<string>, actions: seq<Action>)
    ensures Inv(Run(Initial(enabled), actions))
  {
    if actions == [] {
      InvInitial(enabled);
    } else {
      InvRun(enabled, actions[..|actions| - 1]);
      InvStep(Run(Initial(enabled), actions[..|actions| - 1]), actions[|actions| - 1]);
    }
  }

  lemma {:induction false} InvRunFrom(s: State, actions: seq<Action>)
    requires Inv(s)
    ensures Inv(Run(s, actions))
  {
    if actions != [] {
      InvRunFrom(s, actions[..|actions| - 1]);
      InvStep(Run(s, actions[..|actions| - 1]), actions[|actions| - 1]);
    }
  }

  /** The claim is for a generation that is over: ids are not used again, and generations only grow. */
  predicate Outdated(s: State, c: Claimed)
  {
    c.id < s.nextId && (c.id in s.assets ==> c.generation < s.assets[c.id].generation)
  }

  lemma OutdatedStep(s: State, a: Action, c: Claimed)
    requires Linked(s) && Outdated(s, c)
    ensures Outdated(Apply(s, a), c)
  {
  }

  lemma StaleIsOutdated(s: State, worker: nat)
    requires Inv(s) && worker in s.workers && !Owns(s, worker)
    ensures Outdated(s, s.workers[worker])
  {
    assert WorkerOk(s, worker);
  }

  lemma {:induction false} OutdatedRun(s: State, actions: seq<Action>, c: Claimed)
    requires Inv(s) && Outdated(s, c)
    ensures Outdated(Run(s, actions), c)
  {
    hide Apply;
    hide Outdated;
    if actions != [] {
      var mid := Run(s, actions[..|actions| - 1]);
      OutdatedRun(s, actions[..|actions| - 1], c);
      InvRunFrom(s, actions[..|actions| - 1]);
      OutdatedStep(mid, actions[|actions| - 1], c);
    }
  }

  /** A worker that lost the current generation changes neither an asset nor a job with that claim, whenever it goes on. */
  lemma StaleWorkerIsHarmless(s: State, actions: seq<Action>, worker: nat, previewOk: bool, metadataOk: bool, now: int)
    requires Inv(s) && worker in s.workers && !Owns(s, worker)
    requires worker in Run(s, actions).workers && Run(s, actions).workers[worker] == s.workers[worker]
    ensures var t := Run(s, actions);
            && Apply(t, PublishStage(worker)) == t
            && Apply(t, Finish(worker, previewOk, metadataOk, now)).assets == t.assets
            && Apply(t, Finish(worker, previewOk, metadataOk, now)).jobs == t.jobs
            && Apply(t, Abandon(worker)).assets == t.assets && Apply(t, Abandon(worker)).jobs == t.jobs
  {
    hide Inv;
    hide Run;
    StaleIsOutdated(s, worker);
    OutdatedRun(s, actions, s.workers[worker]);
  }

  /** A step that gives an asset's job a clean slate. */
  predicate Resets(a: Action)
  {
    a.IndexFile? || a.AddUpload? || a.RetryAll? || a.RequeueReady? || a.RetryFailed? || a.RequeueMissing?
  }

  /** `a` records a failure of the asset `id`. */
  predicate RecordsFailure(s: State, a: Action, id: nat)
  {
    a.Finish? && Owns(s, a.worker) && s.workers[a.worker].id == id && !(a.previewOk && a.metadataOk)
  }

  ghost function Failures(s: State, actions: seq<Action>, id: nat): nat
  {
    if actions == [] then 0
    else
      var n := |actions| - 1;
      Failures(s, actions[..n], id) + if RecordsFailure(Run(s, actions[..n]), actions[n], id) then 1 else 0
  }

  /** How many more failures the job of an asset can record. */
  function Left(s: State, id: nat): int { if id in s.jobs then 3 - s.jobs[id].attempts else 0 }

  lemma LeftStep(s: State, a: Action, id: nat)
    requires Inv(s) && !Resets(a)
    ensures Left(Apply(s, a), id) <= Left(s, id) - if RecordsFailure(s, a, id) then (if id in Apply(s, a).jobs then 1 else 0) else 0
    ensures RecordsFailure(s, a, id) ==> id in Apply(s, a).jobs
  {
  }

  /** Between two resets an asset records at most three failures. */
  lemma {:induction false} AtMostThreeFailures(s: State, actions: seq<Action>, id: nat)
    requires Inv(s) && forall a | a in actions :: !Resets(a)
    ensures Inv(Run(s, actions))
    ensures Failures(s, actions, id) + Left(Run(s, actions), id) <= Left(s, id) <= 3
    ensures Failures(s, actions, id) <= 3
  {
    if actions != [] {
      var n := |actions| - 1;
      AtMostThreeFailures(s, actions[..n], id);
      InvStep(Run(s, actions[..n]), actions[n]);
      LeftStep(Run(s, actions[..n]), actions[n], id);
    }
  }
}
