/**
 The queue of compatible video copies (internal/api/video_playback.go): many
 requests, one conversion worker, rescans, deletions, cache removal and
 restarts, interleaved statement by statement.
 */
module VideoQueue {
  import opened Options

  const LIMIT: nat := 32

  datatype RowState = Pending | Running | Ready | Failed

  datatype Row = Row(generation: nat, state: RowState)

  /** One generation of one asset; `playbackAsset.key` digests it together with size and time. */
  datatype Version = Version(id: nat, generation: nat)

  /** A request: the generation it read first, then whether it wants a conversion. */
  datatype Request = Read(v: Version) | Wants(v: Version)

  /** Where the worker is between its statements. */
  datatype Worker = Idle | Selected(v: Version) | Converting(v: Version) | Checked(v: Version) | Ended(v: Version, ok: bool)

  /** `done` is history: the versions whose conversion was ever published. */
  datatype State = State(generations: map<nat, nat>, intents: set<nat>, rows: map<nat, Row>, worker: Worker,
                         requests: map<nat, Request>, cache: set<Version>, done: set<Version>, nextId: nat)

  datatype Action =
    | AddAsset
    | Rescan(id: nat)
    | RecordDeletion(id: nat)
    | RemoveAsset(id: nat)
    | RemoveCached(v: Version)
    | Begin(request: nat, id: nat)
    | Look(request: nat)
    | Insert(request: nat)
    | Select(id: nat)
    | Mark
    | Check
    | Publish
    | FailConversion
    | Store
    | Restart

  predicate Busy(r: Row) { r.state == Pending || r.state == Running }

  function Active(rows: map<nat, Row>): set<nat>
  {
    set id | id in rows && Busy(rows[id])
  }

  /** The state that a request reports: another generation's row, or a lost file, counts as missing (`None`). */
  function Reported(s: State, v: Version): Option<RowState>
  {
    if v.id !in s.rows || s.rows[v.id].generation != v.generation then None
    else if s.rows[v.id].state == Ready && v !in s.cache then None
    else Some(s.rows[v.id].state)
  }

  /** The guards of the `INSERT ... ON CONFLICT DO UPDATE`. */
  predicate Accepts(s: State, v: Version)
  {
    && v.id in s.generations && |Active(s.rows)| < LIMIT
    && (v.id in s.rows ==> !Busy(s.rows[v.id]) || s.rows[v.id].generation != v.generation)
  }

  /** `ORDER BY a.id LIMIT 1` among the pending rows. */
  predicate FirstPending(s: State, id: nat)
  {
    && id in s.rows && id in s.generations && s.rows[id].state == Pending
    && forall k | k in s.rows && k in s.generations && s.rows[k].state == Pending :: id <= k
  }

  function Bumped(s: State, id: nat): State
  {
    if id in s.generations then s.(generations := s.generations[id := s.generations[id] + 1]) else s
  }

  function Inserted(s: State, request: nat): State
  {
    if request in s.requests && s.requests[request].Wants? then
      var v := s.requests[request].v;
      var t := s.(requests := s.requests - {request});
      if Accepts(s, v) then t.(rows := s.rows[v.id := Row(v.generation, Pending)]) else t
    else s
  }

  function Stored(s: State): State
  {
    if s.worker.Ended? then
      var v := s.worker.v;
      var t := s.(worker := Idle);
      if v.id in s.rows && s.rows[v.id].generation == v.generation then
        t.(rows := s.rows[v.id := Row(v.generation, if s.worker.ok then Ready else Failed)])
      else t
    else s
  }

  function Marked(s: State): State
  {
    if s.worker.Selected? then
      var v := s.worker.v;
      var t := s.(worker := Converting(v));
      if v.id in s.rows then t.(rows := s.rows[v.id := Row(v.generation, Running)]) else t
    else s
  }

  function Restarted(s: State): State
  {
    s.(worker := Idle, requests := map[],
       rows := map id | id in s.rows :: if s.rows[id].state == Running then s.rows[id].(state := Pending) else s.rows[id])
  }

  function Apply(s: State, a: Action): State
  {
    match a
    case AddAsset => s.(generations := s.generations[s.nextId := 1], nextId := s.nextId + 1)
    case Rescan(id) => Bumped(s, id)
    case RecordDeletion(id) => if id in s.generations then Bumped(s, id).(intents := s.intents + {id}) else s
    case RemoveAsset(id) => s.(generations := s.generations - {id}, rows := s.rows - {id}, intents := s.intents - {id})
    case RemoveCached(v) => s.(cache := s.cache - {v})
    case Begin(request, id) =>
      if request !in s.requests && id in s.generations then
        s.(requests := s.requests[request := Read(Version(id, s.generations[id]))])
      else s
    case Look(request) =>
      if request in s.requests && s.requests[request].Read? then
        var v := s.requests[request].v;
        if Reported(s, v) == None || Reported(s, v) == Some(Failed) then s.(requests := s.requests[request := Wants(v)])
        else s.(requests := s.requests - {request})
      else s
    case Insert(request) => Inserted(s, request)
    case Select(id) =>
      if s.worker == Idle && FirstPending(s, id) then s.(worker := Selected(Version(id, s.generations[id]))) else s
    case Mark => Marked(s)
    case Check =>
      if s.worker.Converting? && s.worker.v.id in s.generations && s.worker.v.id !in s.intents &&
         s.generations[s.worker.v.id] == s.worker.v.generation
      then s.(worker := Checked(s.worker.v)) else s
    case Publish =>
      if s.worker.Checked? then
        s.(worker := Ended(s.worker.v, true), cache := s.cache + {s.worker.v}, done := s.done + {s.worker.v})
      else s
    case FailConversion =>
      if s.worker.Selected? || s.worker.Converting? || s.worker.Checked? then s.(worker := Ended(s.worker.v, false)) else s
    case Store => Stored(s)
    case Restart => Restarted(s)
  }

  // ---- What every run keeps ----

  /** A running row is the one that the worker converts. */
  predicate Holds(w: Worker, v: Version)
  {
    (w.Converting? || w.Checked? || w.Ended?) && w.v == v
  }

  ghost predicate WorkerOk(s: State)
  {
    && (s.worker.Selected? ==> s.worker.v.id < s.nextId && (s.worker.v.id in s.rows ==> s.rows[s.worker.v.id].state == Pending))
    && (s.worker.Ended? && s.worker.ok ==> s.worker.v in s.done)
  }

  ghost predicate Inv(s: State)
  {
    && s.rows.Keys <= s.generations.Keys
    && (forall id | id in s.generations :: id < s.nextId)
    && |Active(s.rows)| <= LIMIT
    && (forall id | id in s.rows && s.rows[id].state == Ready :: Version(id, s.rows[id].generation) in s.done)
    && s.cache <= s.done
    && WorkerOk(s)
    && (forall id | id in s.rows && s.rows[id].state == Running :: Holds(s.worker, Version(id, s.rows[id].generation)))
  }

  function Initial(): State { State(map[], {}, map[], Idle, map[], {}, {}, 1) }

  lemma {:induction false} CardinalityOfSubset(a: set<nat>, b: set<nat>)
    requires a <= b
    ensures |a| <= |b|
  {
    if a != {} {
      var x :| x in a;
      CardinalityOfSubset(a - {x}, b - {x});
    }
  }

  /** A set that does not gain members does not grow. */
  lemma ActiveShrinks(rows: map<nat, Row>, rows': map<nat, Row>)
    requires Active(rows') <= Active(rows)
    ensures |Active(rows')| <= |Active(rows)|
  {
    CardinalityOfSubset(Active(rows'), Active(rows));
  }

  lemma InvInserted(s: State, request: nat)
    requires Inv(s)
    ensures Inv(Inserted(s, request))
  {
    var t := Inserted(s, request);
    if t.rows != s.rows {
      var v := s.requests[request].v;
      assert Active(t.rows) <= Active(s.rows) + {v.id};
      CardinalityOfSubset(Active(t.rows), Active(s.rows) + {v.id});
    }
  }

  lemma InvMarked(s: State)
    requires Inv(s)
    ensures Inv(Marked(s))
  {
    ActiveShrinks(s.rows, Marked(s).rows);
  }

  lemma InvStored(s: State)
    requires Inv(s)
    ensures Inv(Stored(s))
  {
    ActiveShrinks(s.rows, Stored(s).rows);
  }

  lemma InvRestarted(s: State)
    requires Inv(s)
    ensures Inv(Restarted(s))
  {
    ActiveShrinks(s.rows, Restarted(s).rows);
  }

  lemma InvStep(s: State, a: Action)
    requires Inv(s)
    ensures Inv(Apply(s, a))
  {
    match a
    case Insert(request) => InvInserted(s, request);
    case Mark => InvMarked(s);
    case Store => InvStored(s);
    case Restart => InvRestarted(s);
    case RemoveAsset(id) => ActiveShrinks(s.rows, s.rows - {id});
    case _ =>
  }

  function Run(s: State, actions: seq<Action>): State
  {
    if actions == [] then s else Apply(Run(s, actions[..|actions| - 1]), actions[|actions| - 1])
  }

  /** In every interleaving: the bound, and no ready row without a conversion of its generation. */
  lemma {:induction false} InvRun(actions: seq<Action>)
    ensures Inv(Run(Initial(), actions))
  {
    if actions != [] {
      InvRun(actions[..|actions| - 1]);
      InvStep(Run(Initial(), actions[..|actions| - 1]), actions[|actions| - 1]);
    }
  }

  // ---- What others cannot do to a request or to the worker ----

  /** A step of neither the worker nor this request, and no restart. */
  predicate Foreign(a: Action, request: nat)
  {
    match a
    case Begin(r, _) => r != request
    case Look(r) => r != request
    case Insert(r) => r != request
    case Select(_) => false
    case Mark => false
    case Check => false
    case Publish => false
    case FailConversion => false
    case Store => false
    case Restart => false
    case _ => true
  }

  lemma ForeignStep(s: State, a: Action, request: nat)
    requires Foreign(a, request)
    ensures var t := Apply(s, a);
            && t.worker == s.worker && t.done == s.done
            && (request in t.requests <==> request in s.requests)
            && (request in s.requests ==> t.requests[request] == s.requests[request])
  {
  }

  lemma {:induction false} ForeignRun(s: State, actions: seq<Action>, request: nat)
    requires forall a | a in actions :: Foreign(a, request)
    ensures var t := Run(s, actions);
            && t.worker == s.worker && t.done == s.done
            && (request in t.requests <==> request in s.requests)
            && (request in s.requests ==> t.requests[request] == s.requests[request])
  {
    hide Apply;
    if actions != [] {
      ForeignRun(s, actions[..|actions| - 1], request);
      ForeignStep(Run(s, actions[..|actions| - 1]), actions[|actions| - 1], request);
    }
  }

  /** Generations only grow, a recorded deletion stays recorded, and no id comes back once it is gone. */
  ghost predicate Onward(s: State, t: State)
  {
    && s.nextId <= t.nextId
    && forall id | id in t.generations && id < s.nextId ::
         id in s.generations && s.generations[id] <= t.generations[id] && (id in s.intents ==> id in t.intents)
  }

  lemma OnwardNow(s: State)
    ensures Onward(s, s)
  {
  }

  lemma OnwardStep(s: State, a: Action)
    requires Inv(s)
    ensures Onward(s, Apply(s, a))
  {
  }

  lemma OnwardTrans(s: State, t: State, u: State)
    requires Onward(s, t) && Onward(t, u)
    ensures Onward(s, u)
  {
  }

  lemma {:induction false} OnwardRun(s: State, actions: seq<Action>)
    requires Inv(s)
    ensures Onward(s, Run(s, actions)) && Inv(Run(s, actions))
  {
    hide Apply;
    hide Inv;
    hide Onward;
    if actions == [] {
      OnwardNow(s);
    } else {
      var init := actions[..|actions| - 1];
      OnwardRun(s, init);
      OnwardStep(Run(s, init), actions[|actions| - 1]);
      OnwardTrans(s, Run(s, init), Run(s, actions));
      InvStep(Run(s, init), actions[|actions| - 1]);
    }
  }

  lemma IdsAreOld(s: State)
    requires Inv(s)
    ensures forall id | id in s.generations :: id < s.nextId
  {
  }

  lemma BoundHolds(s: State)
    requires Inv(s)
    ensures |Active(s.rows)| <= LIMIT && s.cache <= s.done
    ensures s.worker.Ended? && s.worker.ok ==> s.worker.v in s.done
  {
  }

  lemma ReadyIsConverted(s: State)
    requires Inv(s)
    ensures forall id | id in s.rows && s.rows[id].state == Ready :: Version(id, s.rows[id].generation) in s.done
  {
  }

  predicate IsSmallest(ids: set<nat>, a: nat) { a in ids && forall k | k in ids :: a <= k }

  lemma SmallestIsBelow(ids: set<nat>, a: nat, k: nat)
    requires IsSmallest(ids, a) && k in ids
    ensures a <= k
  {
  }

  lemma {:induction false} SmallestExists(ids: set<nat>) returns (a: nat)
    requires ids != {}
    ensures IsSmallest(ids, a)
  {
    a :| a in ids;
    var rest := ids - {a};
    if rest != {} {
      var b := SmallestExists(rest);
      if b < a { a := b; }
      forall k | k in ids ensures a <= k { assert k in rest || k !in rest; }
    } else {
      forall k | k in ids ensures a <= k { assert k !in rest; }
    }
  }

  class Server {
    var generations: map<nat, nat>
    var intents: set<nat>
    var rows: map<nat, Row>
    var worker: Worker
    var requests: map<nat, Request>
    var cache: set<Version>
    ghost var done: set<Version>
    var nextId: nat
    ghost var run: seq<Action>

    ghost function Tables(): State
      reads this
    {
      State(generations, intents, rows, worker, requests, cache, done, nextId)
    }

    /** The tables and the cache are what a run of steps made of an empty store. */
    ghost predicate Valid()
      reads this
    {
      Tables() == Run(Initial(), run)
    }

    constructor ()
      ensures Valid() && Tables() == Initial()
    {
      generations, intents, rows, worker, requests, cache, done, nextId := map[], {}, map[], Idle, map[], {}, {}, 1;
      run := [];
    }

    /** The invariant holds at every moment. */
    lemma Holds()
      requires Valid()
      ensures Inv(Tables())
    {
      hide Inv;
      InvRun(run);
    }

    ghost method Append(x: Action, before: State)
      requires before == Run(Initial(), run) && Tables() == Apply(before, x)
      modifies this`run
      ensures Valid()
    {
      hide Apply;
      assert (run + [x])[..|run + [x]| - 1] == run;
      run := run + [x];
    }

    /** Steps of other requests, of scans, deletions and the cache: callers know nothing else about them. */
    method Others(ghost request: nat)
      requires Valid()
      modifies this
      ensures Valid() && exists actions: seq<Action> | (forall a | a in actions :: Foreign(a, request)) :: Tables() == Run(old(Tables()), actions)
    {
      ghost var none: seq<Action> := [];
      assert Tables() == Run(Tables(), none);
    }

    method Interfere(ghost request: nat)
      requires Valid()
      modifies this
      ensures Valid() && worker == old(worker) && done == old(done)
      ensures (request in requests <==> request in old(requests)) && (request in requests ==> requests[request] == old(requests)[request])
      ensures Onward(old(Tables()), Tables())
    {
      hide Run;
      hide Inv;
      hide Onward;
      ghost var before := Tables();
      Holds();
      Others(request);
      ghost var actions: seq<Action> :| (forall a | a in actions :: Foreign(a, request)) && Tables() == Run(before, actions);
      ForeignRun(before, actions, request);
      OnwardRun(before, actions);
    }

    /** The first statement of `RunVideoJobs`, and the end of everything that was under way: what was running waits again. */
    method StartUp()
      requires Valid()
      modifies this`worker, this`requests, this`rows, this`run
      ensures Valid() && worker == Idle && requests == map[] && rows.Keys == old(rows).Keys
      ensures forall id | id in rows ::
                if old(rows)[id].state == Running then rows[id] == Row(old(rows)[id].generation, Pending) else rows[id] == old(rows)[id]
    {
      hide Run;
      hide Inv;
      ghost var before := Tables();
      worker, requests := Idle, map[];
      rows := map id | id in rows :: if rows[id].state == Running then rows[id].(state := Pending) else rows[id];
      Append(Action.Restart, before);
    }

    /** `playbackAsset`: the first statement of a request. */
    method ReadAsset(request: nat, id: nat) returns (v: Option<Version>)
      requires Valid() && request !in requests
      modifies this`requests, this`run
      ensures Valid() && Tables() == Apply(old(Tables()), Begin(request, id))
      ensures (v.Some? <==> request in requests) && (v.Some? <==> id in old(generations))
      ensures v.Some? ==> requests[request] == Read(v.value) && v.value == Version(id, generations[id])
    {
      hide Run;
      ghost var before := Tables();
      v := None;
      if id in generations {
        v := Some(Version(id, generations[id]));
        requests := requests[request := Read(v.value)];
      }
      Append(Begin(request, id), before);
    }

    /** The second statement of a POST: an answer, or the wish for a conversion. */
    method ReadRow(request: nat) returns (state: Option<RowState>)
      requires Valid() && request in requests && requests[request].Read?
      modifies this`requests, this`run
      ensures Valid() && Tables() == Apply(old(Tables()), Look(request))
      ensures state == Reported(old(Tables()), old(requests[request].v))
      ensures state == Some(Ready) ==> old(requests[request].v) in done && old(requests[request].v) in cache
      ensures var v := old(requests[request].v);
              && (state == Some(Ready) <==> v.id in rows && rows[v.id] == Row(v.generation, Ready) && v in cache)
              && forall x | x != Ready :: state == Some(x) <==> v.id in rows && rows[v.id] == Row(v.generation, x)
      ensures request in requests <==> state in {None, Some(Failed)}
      ensures request in requests ==> requests[request] == Wants(old(requests[request].v))
    {
      hide Run;
      hide Inv;
      Holds();
      BoundHolds(Tables());
      ghost var before := Tables();
      var v := requests[request].v;
      state := None;
      if v.id in rows && rows[v.id].generation == v.generation {
        state := Some(rows[v.id].state);
      }
      if state == Some(Ready) && v !in cache {
        state := None;
      }
      if state == None || state == Some(Failed) {
        requests := requests[request := Wants(v)];
      } else {
        requests := requests - {request};
      }
      Append(Look(request), before);
    }

    /** The `INSERT`; answers false when the queue is busy, and never makes it longer than the limit. */
    method Enqueue(request: nat) returns (accepted: bool)
      requires Valid() && request in requests && requests[request].Wants?
      modifies this`requests, this`rows, this`run
      ensures Valid() && Tables() == Apply(old(Tables()), Insert(request))
      ensures accepted <==> Accepts(old(Tables()), old(requests[request].v))
      ensures var v, busy := old(requests[request].v), set id | id in old(rows) && old(rows)[id].state in {Pending, Running};
              accepted <==>
                v.id in generations && |busy| < 32 && (v.id in busy ==> old(rows)[v.id].generation != v.generation)
      ensures accepted ==>
                var v := old(requests[request].v);
                v.id in rows && rows[v.id] == Row(v.generation, Pending)
      ensures !accepted ==> rows == old(rows)
      ensures request !in requests
      ensures |Active(rows)| <= LIMIT
    {
      hide Run;
      hide Inv;
      ghost var before := Tables();
      var v := requests[request].v;
      requests := requests - {request};
      assert Active(rows) == set id | id in rows && rows[id].state in {Pending, Running};
      var active := |Active(rows)|;
      accepted := v.id in generations && active < LIMIT && (v.id in rows ==> !Busy(rows[v.id]) || rows[v.id].generation != v.generation);
      if accepted {
        rows := rows[v.id := Row(v.generation, Pending)];
      }
      Append(Insert(request), before);
      Holds();
      BoundHolds(Tables());
    }

    /** The worker's first statement: the first pending row, if there is one. */
    method SelectNext() returns (found: bool)
      requires Valid() && worker == Idle
      modifies this`worker, this`run
      ensures Valid()
      ensures found <==> exists id | id in rows :: id in generations && rows[id].state == Pending
      ensures found ==> worker.Selected? && Tables() == Apply(old(Tables()), Select(worker.v.id))
      ensures found ==> FirstPending(old(Tables()), worker.v.id) && worker.v.generation == generations[worker.v.id]
      ensures !found ==> Tables() == old(Tables())
    {
      hide Run;
      ghost var before := Tables();
      var pending := set id | id in rows && id in generations && rows[id].state == Pending;
      if pending == {} {
        assert forall id | id in rows && id in generations && rows[id].state == Pending :: id in pending;
        return false;
      }
      ghost var smallest := SmallestExists(pending);
      var id :| id in pending && IsSmallest(pending, id);
      forall k | k in rows && k in generations && rows[k].state == Pending ensures id <= k {
        assert k in pending;
        SmallestIsBelow(pending, id, k);
      }
      assert FirstPending(before, id);
      worker := Selected(Version(id, generations[id]));
      Append(Select(id), before);
      return true;
    }

    /** A separate statement: the row may have changed since it was selected. */
    method MarkRunning()
      requires Valid() && worker.Selected?
      modifies this`worker, this`rows, this`run
      ensures Valid() && Tables() == Apply(old(Tables()), Mark)
      ensures worker == Converting(old(worker.v))
      ensures worker.v.id in rows ==> rows[worker.v.id] == Row(worker.v.generation, Running)
      ensures |Active(rows)| <= LIMIT
    {
      hide Run;
      hide Inv;
      ghost var before := Tables();
      var v := worker.v;
      if v.id in rows {
        rows := rows[v.id := Row(v.generation, Running)];
      }
      worker := Converting(v);
      Append(Mark, before);
      Holds();
      BoundHolds(Tables());
    }

    /** The end of `convertVideo`: the generation is read again before the file is renamed. */
    method CheckGeneration() returns (ok: bool)
      requires Valid() && worker.Converting?
      modifies this`worker, this`run
      ensures Valid() && Tables() == Apply(old(Tables()), if ok then Check else FailConversion)
      ensures worker.v == old(worker.v) && (if ok then worker.Checked? else worker == Ended(old(worker.v), false))
      ensures ok <==> worker.v.id in generations && worker.v.id !in intents && generations[worker.v.id] == worker.v.generation
    {
      hide Run;
      ghost var before := Tables();
      var v := worker.v;
      ok := v.id in generations && v.id !in intents && generations[v.id] == v.generation;
      worker := if ok then Checked(v) else Ended(v, false);
      Append(if ok then Check else FailConversion, before);
    }

    /** A conversion that failed before that. */
    method Fail()
      requires Valid() && worker.Converting?
      modifies this`worker, this`run
      ensures Valid() && worker == Ended(old(worker.v), false)
    {
      hide Run;
      ghost var before := Tables();
      worker := Ended(worker.v, false);
      Append(FailConversion, before);
    }

    method RenameOutput()
      requires Valid() && worker.Checked?
      modifies this`worker, this`cache, this`done, this`run
      ensures Valid() && worker == Ended(old(worker.v), true) && worker.v in cache && worker.v in done
    {
      hide Run;
      ghost var before := Tables();
      cache := cache + {worker.v};
      done := done + {worker.v};
      worker := Ended(worker.v, true);
      Append(Publish, before);
    }

    /** The result is stored only in the row of the converted generation. */
    method StoreResult()
      requires Valid() && worker.Ended?
      modifies this`worker, this`rows, this`run
      ensures Valid() && worker == Idle && Tables() == Apply(old(Tables()), Store)
      ensures forall id | id in rows && rows[id].state == Ready :: Version(id, rows[id].generation) in done
      ensures forall id | id in old(rows) && Version(id, old(rows)[id].generation) != old(worker.v) :: id in rows && rows[id] == old(rows)[id]
      ensures var v := old(worker.v);
              v.id in rows && rows[v.id].generation == v.generation ==> rows[v.id].state == if old(worker.ok) then Ready else Failed
      ensures generations == old(generations) && intents == old(intents) && done == old(done)
    {
      hide Run;
      hide Inv;
      ghost var before := Tables();
      var v, state := worker.v, Ready;
      if !worker.ok {
        state := Failed;
      }
      if v.id in rows && rows[v.id].generation == v.generation {
        rows := rows[v.id := Row(v.generation, state)];
      }
      worker := Idle;
      Append(Store, before);
      Holds();
      ReadyIsConverted(Tables());
    }

    /** `playbackFile`, after its first statement read the version `v`: the file that is opened, if any. */
    method Open(v: Version) returns (r: Option<Version>)
      requires Valid()
      ensures r.Some? ==> r.value == v && v in done && v in cache
      ensures r.Some? <==> v.id in rows && rows[v.id] == Row(v.generation, Ready) && v in cache
    {
      hide Run;
      Holds();
      if v.id !in rows || rows[v.id].state != Ready || rows[v.id].generation != v.generation {
        return None;
      }
      if v !in cache {
        return None;
      }
      return Some(v);
    }
  }

  // ---- Whole requests, and one turn of the worker ----

  datatype Answer = NoAsset | Known(state: RowState) | Queued | QueueFull

  /**
   A POST of `playback`, with everybody else at work between its statements:
   "ready" is answered only for a file of the version that the request read, and
   the queue never gets longer than the limit.
   */
  method Playback(server: Server, request: nat, id: nat) returns (v: Option<Version>, answer: Answer)
    requires server.Valid() && request !in server.requests
    modifies server
    ensures server.Valid() && |Active(server.rows)| <= 32 && request !in server.requests
    ensures v == (if id in old(server.generations) then Some(Version(id, old(server.generations)[id])) else None)
    ensures answer == NoAsset <==> v == None
    ensures answer == Known(Ready) ==> v.value in server.done
    ensures answer == Queued ==> id in server.rows && server.rows[id] == Row(v.value.generation, Pending)
  {
    hide Run;
    hide Inv;
    hide Apply;
    hide Accepts;
    hide Reported;
    hide Onward;
    server.Holds();
    BoundHolds(server.Tables());
    v := server.ReadAsset(request, id);
    if v.None? { return v, NoAsset; }
    server.Interfere(request);
    var state := server.ReadRow(request);
    server.Holds();
    BoundHolds(server.Tables());
    if state != None && state != Some(Failed) { return v, Known(state.value); }
    server.Interfere(request);
    var accepted := server.Enqueue(request);
    return v, if accepted then Queued else QueueFull;
  }

  /** The asset has this generation and is not being deleted. */
  predicate Current(s: State, v: Version)
  {
    v.id in s.generations && v.id !in s.intents && s.generations[v.id] == v.generation
  }

  lemma SameIds(s: State, t: State, u: State)
    requires t.generations == u.generations && t.intents == u.intents && t.nextId == u.nextId
    ensures Onward(s, t) ==> Onward(s, u)
    ensures Onward(t, s) ==> Onward(u, s)
  {
  }

  /** What is current in the end was current in between, if it was when the conversion began. */
  lemma CurrentBetween(s: State, t: State, u: State, v: Version)
    requires Inv(s) && Onward(s, t) && Onward(t, u) && Current(u, v)
    requires v.id in s.generations && s.generations[v.id] == v.generation
    ensures Current(t, v)
  {
    IdsAreOld(s);
  }

  /** The worker takes the first pending row, and others may have been at work before it is marked. */
  method Take(server: Server, ghost request: nat) returns (found: bool, v: Version)
    requires server.Valid() && server.worker == Idle
    modifies server
    ensures server.Valid()
    ensures found <==> exists id | id in old(server.rows) :: id in old(server.generations) && old(server.rows)[id].state == Pending
    ensures !found ==> server.Tables() == old(server.Tables())
    ensures found ==>
      && server.worker == Converting(v) && FirstPending(old(server.Tables()), v.id) && v.generation == old(server.generations)[v.id]
      && Onward(old(server.Tables()), server.Tables())
  {
    hide Run;
    hide Onward;
    ghost var s0 := server.Tables();
    v := Version(0, 0);
    found := server.SelectNext();
    if !found { return; }
    v := server.worker.v;
    ghost var s1 := server.Tables();
    OnwardNow(s0);
    SameIds(s0, s0, s1);
    server.Interfere(request);
    ghost var s2 := server.Tables();
    OnwardTrans(s0, s1, s2);
    server.MarkRunning();
    SameIds(s0, s2, server.Tables());
  }

  /** The conversion, which counts only if the version is current when it ends. */
  method Convert(server: Server, ghost request: nat, succeeds: bool, v: Version)
    requires server.Valid() && server.worker == Converting(v)
    modifies server
    ensures server.Valid() && server.worker.Ended? && server.worker.v == v && Onward(old(server.Tables()), server.Tables())
    ensures server.worker.ok <==> succeeds && Current(old(server.Tables()), v)
  {
    hide Run;
    hide Onward;
    ghost var s0 := server.Tables();
    OnwardNow(s0);
    if !succeeds {
      server.Fail();
      SameIds(s0, s0, server.Tables());
      return;
    }
    var ok := server.CheckGeneration();
    ghost var s1 := server.Tables();
    SameIds(s0, s0, s1);
    if ok {
      server.Interfere(request);
      ghost var s2 := server.Tables();
      OnwardTrans(s0, s1, s2);
      server.RenameOutput();
      SameIds(s0, s2, server.Tables());
    }
  }

  /** One turn of `RunVideoJobs`: what it leaves as ready was converted. */
  method ConvertOnce(server: Server, ghost request: nat, succeeds: bool) returns (found: bool, v: Version)
    requires server.Valid() && server.worker == Idle
    modifies server
    ensures server.Valid() && server.worker == Idle && |Active(server.rows)| <= 32
    ensures forall id | id in server.rows && server.rows[id].state == Ready :: Version(id, server.rows[id].generation) in server.done
    ensures found <==> exists id | id in old(server.rows) :: id in old(server.generations) && old(server.rows)[id].state == Pending
    ensures found ==>
      && v.id in old(server.rows) && old(server.rows)[v.id].state == Pending
      && v.id in old(server.generations) && v.generation == old(server.generations)[v.id]
      && forall id | id in old(server.rows) && id in old(server.generations) && old(server.rows)[id].state == Pending :: v.id <= id
    ensures found && v.id in server.rows && server.rows[v.id].generation == v.generation ==>
      && server.rows[v.id].state in {Ready, Failed} && (!succeeds ==> server.rows[v.id].state == Failed)
      && (succeeds && v.id in server.generations && v.id !in server.intents && server.generations[v.id] == v.generation ==>
            server.rows[v.id].state == Ready)
  {
    hide Run;
    hide Inv;
    hide Onward;
    ghost var s0 := server.Tables();
    server.Holds();
    BoundHolds(s0);
    ReadyIsConverted(s0);
    found, v := Take(server, request);
    if !found { return; }
    ghost var s1 := server.Tables();
    server.Interfere(request);
    ghost var s2 := server.Tables();
    OnwardTrans(s0, s1, s2);
    Convert(server, request, succeeds, v);
    ghost var s3 := server.Tables();
    server.Interfere(request);
    ghost var s4 := server.Tables();
    OnwardTrans(s2, s3, s4);
    server.StoreResult();
    SameIds(s2, s4, server.Tables());
    server.Holds();
    BoundHolds(server.Tables());
    if Current(server.Tables(), v) { CurrentBetween(s0, s2, server.Tables(), v); }
  }

  /** `playbackFile`: what it opens is a published conversion of exactly the version that the request read. */
  method PlaybackFile(server: Server, request: nat, id: nat) returns (r: Option<Version>)
    requires server.Valid()
    modifies server
    ensures server.Valid()
    ensures r.Some? ==> id in old(server.generations) && r.value == Version(id, old(server.generations)[id]) && r.value in server.done
  {
    hide Run;
    if id !in server.generations { return None; }
    var v := Version(id, server.generations[id]);
    server.Interfere(request);
    r := server.Open(v);
  }
}
