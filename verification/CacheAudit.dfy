/** The cleaning of the cache beside scans and workers (internal/api/cache_maintenance.go). */
module CacheAudit {
  import opened CachePaths
  import opened Totals
  import Hex

  const DAY := 86400

  /** What the key of a preview is made of. */
  datatype Ticket = Ticket(id: nat, generation: nat, size: int, mtime: int)

  datatype Row = Row(generation: nat, size: int, mtime: int, key: string, ready: bool, enabled: bool)

  datatype File = File(size: nat, mtime: int)

  /** `issued` is history: every ticket that was ever the current one of an asset. */
  datatype State = State(rows: map<nat, Row>, jobs: set<nat>, intents: set<nat>, files: map<string, File>, now: int, nextId: nat,
                         issued: set<Ticket>)

  const ZEROS: string := seq(64, _ => '0')

  lemma ZerosAreHex()
    ensures HexKey(ZEROS)
  {
    assert Hex.DIGITS[0] == '0';
  }

  function AllZeros(): (f: Ticket -> string)
    ensures forall t :: HexKey(f(t))
  {
    ZerosAreHex();
    (_ => ZEROS)
  }

  /** The digest of `thumbnails.Key`. */
  type Naming = f: Ticket -> string | forall t :: HexKey(f(t))
    witness AllZeros()

  function Current(rows: map<nat, Row>, id: nat): Ticket
    requires id in rows
  {
    Ticket(id, rows[id].generation, rows[id].size, rows[id].mtime)
  }

  /** The key of the current generation of an asset, or the one its row still shows. */
  predicate ValidKey(name: Naming, rows: map<nat, Row>, key: string)
  {
    exists id | id in rows :: key == name(Current(rows, id)) || (key == rows[id].key && HexKey(key))
  }

  function KeyOf(path: string): string { GeneratedCache(path).key }

  predicate Carries(path: string) { GeneratedCache(path).ok && KeyOf(path) != "" }

  // ---- What scans, workers and deletions do meanwhile ----

  datatype Action =
    | Bump(id: nat, size: int, mtime: int)
    | Add(row: Row)
    | ShowKey(id: nat)
    | Queue(id: nat)
    | Requeue(id: nat, generation: nat)
    | Intend(id: nat)
    | Drop(id: nat)
    | Write(path: string, ticket: Ticket, bytes: nat)
    | Erase(path: string)
    | Tick(now: int)

  predicate Distinct(name: Naming, st: State, t: Ticket)
  {
    forall u | u in st.issued && u != t :: name(u) != name(t)
  }

  /** Files are made for tickets that were issued, and digests of issued tickets do not collide. */
  predicate Enabled(name: Naming, st: State, x: Action)
  {
    match x
    case Bump(id, size, mtime) => id in st.rows && Distinct(name, st, Ticket(id, st.rows[id].generation + 1, size, mtime))
    case Add(row) => row.key == "" && Distinct(name, st, Ticket(st.nextId, row.generation, row.size, row.mtime))
    case ShowKey(id) => id in st.rows
    case Queue(id) => id in st.rows
    case Requeue(id, generation) => true
    case Intend(id) => id in st.rows && Distinct(name, st, Ticket(id, st.rows[id].generation + 1, st.rows[id].size, st.rows[id].mtime))
    case Drop(id) => true
    case Write(path, ticket, bytes) => ticket in st.issued && (Carries(path) ==> KeyOf(path) == name(ticket))
    case Erase(path) => true
    case Tick(now) => st.now <= now
  }

  /** The transaction of the audit for an asset that it read at that generation. */
  predicate CanRequeue(st: State, id: nat, generation: nat)
  {
    id in st.rows && st.rows[id].generation == generation && id !in st.intents && id !in st.jobs
  }

  function Requeued(st: State, id: nat, generation: nat): State
  {
    if CanRequeue(st, id, generation) then st.(jobs := st.jobs + {id}, rows := st.rows[id := st.rows[id].(ready := false)]) else st
  }

  function After(name: Naming, st: State, x: Action): State
    requires Enabled(name, st, x)
  {
    match x
    case Bump(id, size, mtime) =>
      var row := st.rows[id].(generation := st.rows[id].generation + 1, size := size, mtime := mtime, ready := false);
      st.(rows := st.rows[id := row], jobs := st.jobs + {id}, issued := st.issued + {Ticket(id, row.generation, size, mtime)})
    case Add(row) =>
      st.(rows := st.rows[st.nextId := row], jobs := st.jobs + {st.nextId}, nextId := st.nextId + 1,
          issued := st.issued + {Ticket(st.nextId, row.generation, row.size, row.mtime)})
    case ShowKey(id) => st.(rows := st.rows[id := st.rows[id].(key := name(Current(st.rows, id)), ready := true)], jobs := st.jobs - {id})
    case Queue(id) => st.(jobs := st.jobs + {id})
    case Requeue(id, generation) => Requeued(st, id, generation)
    case Intend(id) =>
      var row := st.rows[id].(generation := st.rows[id].generation + 1);
      st.(rows := st.rows[id := row], jobs := st.jobs - {id}, intents := st.intents + {id},
          issued := st.issued + {Ticket(id, row.generation, row.size, row.mtime)})
    case Drop(id) => st.(rows := st.rows - {id}, jobs := st.jobs - {id}, intents := st.intents - {id})
    case Write(path, ticket, bytes) => st.(files := st.files[path := File(bytes, st.now)])
    case Erase(path) => st.(files := st.files - {path})
    case Tick(now) => st.(now := now)
  }

  /** Tickets and the keys of files and rows come from the past. */
  predicate Inv(name: Naming, st: State)
  {
    && (forall id | id in st.rows :: id < st.nextId && Current(st.rows, id) in st.issued)
    && (forall id | id in st.rows && st.rows[id].key != "" :: exists t | t in st.issued :: st.rows[id].key == name(t))
    && (forall t | t in st.issued :: t.id < st.nextId && (t.id in st.rows ==> t.generation <= st.rows[t.id].generation))
    && (forall p | p in st.files && Carries(p) :: exists t | t in st.issued :: KeyOf(p) == name(t))
  }

  /**
   What holds from the moment `start` at which an audit has read the rows: a
   key that became valid since then is only on files that are younger.
   */
  predicate Guarded(name: Naming, st: State, keep: set<string>, start: int)
  {
    && start <= st.now
    && forall p | p in st.files && Carries(p) && KeyOf(p) !in keep && ValidKey(name, st.rows, KeyOf(p)) :: st.files[p].mtime >= start
  }

  lemma InvStep(name: Naming, st: State, x: Action)
    requires Inv(name, st) && Enabled(name, st, x)
    ensures Inv(name, After(name, st, x))
  {
    hide Carries;
    hide KeyOf;
    hide Distinct;
    var next := After(name, st, x);
    forall p | p in next.files && Carries(p) ensures exists t | t in next.issued :: KeyOf(p) == name(t) {
      if x.Write? && p == x.path {
        assert x.ticket in next.issued;
      } else {
        var t :| t in st.issued && KeyOf(p) == name(t);
        assert t in next.issued;
      }
    }
  }

  /** A key that becomes valid is not on a file that was there before. */
  lemma NewKeyIsNew(name: Naming, st: State, x: Action, key: string)
    requires Inv(name, st) && Enabled(name, st, x) && ValidKey(name, After(name, st, x).rows, key)
    requires exists t | t in st.issued :: key == name(t)
    ensures ValidKey(name, st.rows, key)
  {
    hide Carries;
    hide KeyOf;
  }

  lemma GuardedStep(name: Naming, st: State, x: Action, keep: set<string>, start: int)
    requires Inv(name, st) && Enabled(name, st, x) && Guarded(name, st, keep, start)
    ensures Guarded(name, After(name, st, x), keep, start)
  {
    hide Carries;
    hide KeyOf;
    hide ValidKey;
    hide Distinct;
    var next := After(name, st, x);
    forall p | p in next.files && Carries(p) && KeyOf(p) !in keep && ValidKey(name, next.rows, KeyOf(p)) ensures next.files[p].mtime >= start {
      if p in st.files { NewKeyIsNew(name, st, x, KeyOf(p)); }
    }
  }

  ghost predicate Meanwhile(name: Naming, st: State, next: State, run: seq<Action>)
    decreases |run|
  {
    if run == [] then next == st
    else Enabled(name, st, run[0]) && Meanwhile(name, After(name, st, run[0]), next, run[1..])
  }

  /** Whatever else happens, the invariant and the guard of the audit stay. */
  lemma {:induction false} MeanwhileKeeps(name: Naming, st: State, next: State, run: seq<Action>, keep: set<string>, start: int)
    requires Inv(name, st) && Guarded(name, st, keep, start) && Meanwhile(name, st, next, run)
    ensures Inv(name, next) && Guarded(name, next, keep, start)
    decreases |run|
  {
    hide Inv;
    hide Guarded;
    hide Enabled;
    hide After;
    if run != [] {
      InvStep(name, st, run[0]);
      GuardedStep(name, st, run[0], keep, start);
      MeanwhileKeeps(name, After(name, st, run[0]), next, run[1..], keep, start);
    }
  }

  // ---- The audit ----

  /** The keys that the audit keeps. */
  function Keep(name: Naming, rows: map<nat, Row>): set<string>
  {
    (set id | id in rows :: name(Current(rows, id))) + (set id | id in rows && HexKey(rows[id].key) :: rows[id].key)
  }

  predicate Stale(keep: set<string>, now: int, path: string, f: File)
  {
    var r := GeneratedCache(path);
    r.ok && ((r.key !in keep && now - f.mtime > DAY) || (r.expendable && now - f.mtime > 30 * DAY))
  }

  function Sizes(files: map<string, File>): map<string, nat> { map p | p in files :: files[p].size }

  /** The files that an audit removes. */
  function StaleFiles(keep: set<string>, now: int, files: map<string, File>): map<string, File>
  {
    map p | p in files && Stale(keep, now, p, files[p]) :: files[p]
  }

  predicate PreviewMissing(files: map<string, File>, key: string)
    requires HexKey(key)
  {
    exists size | size in SIZES :: PreviewPath(key, size) !in files || files[PreviewPath(key, size)].size == 0
  }

  /** A ready asset of an enabled library misses a preview. */
  predicate Lacks(files: map<string, File>, r: Row) { r.ready && r.enabled && HexKey(r.key) && PreviewMissing(files, r.key) }

  /** One removal as it happened: whether the key was valid then, and since when the audit was running. */
  datatype Removal = Removal(path: string, file: File, at: int, start: int, valid: bool)

  /**
   Only generated files are removed, and only after a day; one with a valid key
   only if it is a copy that was idle for thirty days, unless the audit itself takes longer than a day.
   */
  ghost predicate Harmless(r: Removal)
  {
    && Generated(r.path) && r.at - r.file.mtime > 86400
    && (r.valid ==> ((exists key :: CopyOf(r.path, key)) && r.at - r.file.mtime > 2592000) || r.at - r.start > 86400)
  }

  datatype Status = Status(bytes: int, reclaimable: int, removed: int)

  /** The files when all but `rest` were visited. */
  function FilesAfter(files: map<string, File>, rest: set<string>, keep: set<string>, now: int, clean: bool): map<string, File>
  {
    map p | p in files && (p in rest || !clean || !Stale(keep, now, p, files[p])) :: files[p]
  }

  function Visited(files: map<string, File>, rest: set<string>): map<string, File>
  {
    map p | p in files && p !in rest :: files[p]
  }

  /** The numbers when all but `rest` were visited. */
  ghost function StatusAfter(files: map<string, File>, rest: set<string>, keep: set<string>, now: int, clean: bool): Status
  {
    var seen := Visited(files, rest);
    var stale := Total(Sizes(StaleFiles(keep, now, seen)));
    Status(Total(Sizes(FilesAfter(seen, {}, keep, now, clean))), stale, if clean then stale else 0)
  }

  lemma StaleGrows(seen: map<string, File>, p: string, f: File, keep: set<string>, now: int)
    requires p !in seen
    ensures Total(Sizes(StaleFiles(keep, now, seen[p := f]))) ==
            Total(Sizes(StaleFiles(keep, now, seen))) + if Stale(keep, now, p, f) then f.size else 0
  {
    hide Stale;
    var stale, stale' := StaleFiles(keep, now, seen), StaleFiles(keep, now, seen[p := f]);
    if Stale(keep, now, p, f) {
      assert Sizes(stale') == Sizes(stale)[p := f.size];
      TotalAdd(Sizes(stale), p, f.size);
    } else {
      assert stale' == stale;
    }
  }

  lemma KeptGrows(seen: map<string, File>, p: string, f: File, keep: set<string>, now: int, clean: bool)
    requires p !in seen
    ensures Total(Sizes(FilesAfter(seen[p := f], {}, keep, now, clean))) ==
            Total(Sizes(FilesAfter(seen, {}, keep, now, clean))) + if Stale(keep, now, p, f) && clean then 0 else f.size
  {
    hide Stale;
    var kept, kept' := FilesAfter(seen, {}, keep, now, clean), FilesAfter(seen[p := f], {}, keep, now, clean);
    if Stale(keep, now, p, f) && clean {
      assert kept' == kept;
    } else {
      assert Sizes(kept') == Sizes(kept)[p := f.size];
      TotalAdd(Sizes(kept), p, f.size);
    }
  }

  lemma StatusStep(files: map<string, File>, rest: set<string>, keep: set<string>, now: int, clean: bool, p: string)
    requires p in rest && p in files
    ensures var before, after := StatusAfter(files, rest, keep, now, clean), StatusAfter(files, rest - {p}, keep, now, clean);
            var stale, size := Stale(keep, now, p, files[p]), files[p].size;
            && after.bytes == before.bytes + (if stale && clean then 0 else size)
            && after.reclaimable == before.reclaimable + (if stale then size else 0)
            && after.removed == before.removed + (if stale && clean then size else 0)
  {
    hide Stale;
    hide StaleFiles;
    hide FilesAfter;
    hide Sizes;
    var seen, more := Visited(files, rest), Visited(files, rest - {p});
    assert more == seen[p := files[p]];
    StaleGrows(seen, p, files[p], keep, now);
    KeptGrows(seen, p, files[p], keep, now, clean);
  }

  lemma FilesStep(files: map<string, File>, rest: set<string>, keep: set<string>, now: int, clean: bool, p: string)
    requires p in rest && p in files
    ensures FilesAfter(files, rest - {p}, keep, now, clean) ==
            if Stale(keep, now, p, files[p]) && clean then FilesAfter(files, rest, keep, now, clean) - {p}
            else FilesAfter(files, rest, keep, now, clean)
    ensures p in FilesAfter(files, rest, keep, now, clean) && FilesAfter(files, rest, keep, now, clean)[p] == files[p]
  {
    hide Stale;
  }

  lemma StatusStarts(files: map<string, File>, keep: set<string>, now: int, clean: bool)
    ensures StatusAfter(files, files.Keys, keep, now, clean) == Status(0, 0, 0)
    ensures FilesAfter(files, files.Keys, keep, now, clean) == files
  {
    assert Visited(files, files.Keys) == map[];
    assert FilesAfter(map[], {}, keep, now, clean) == map[] && StaleFiles(keep, now, map[]) == map[];
    assert Sizes(map[]) == map[];
  }

  lemma StatusEnds(files: map<string, File>, keep: set<string>, now: int, clean: bool)
    ensures var end := StatusAfter(files, {}, keep, now, clean);
            && end.bytes == Total(Sizes(FilesAfter(files, {}, keep, now, clean)))
            && end.reclaimable == Total(Sizes(StaleFiles(keep, now, files)))
            && end.removed == if clean then end.reclaimable else 0
    ensures FilesAfter(files, {}, keep, now, clean) == if clean then files - StaleFiles(keep, now, files).Keys else files
  {
    assert Visited(files, {}) == files;
  }

  /** When the rows were just read, every valid key is kept. */
  lemma StartsGuarded(name: Naming, st: State)
    requires Inv(name, st)
    ensures Guarded(name, st, Keep(name, st.rows), st.now)
  {
  }

  /** A stale file with a valid key is an idle copy, or the audit is late. */
  lemma StaleIsHarmless(name: Naming, st: State, keep: set<string>, start: int, path: string)
    requires Guarded(name, st, keep, start) && path in st.files && Stale(keep, st.now, path, st.files[path])
    ensures Harmless(Removal(path, st.files[path], st.now, start, Carries(path) && ValidKey(name, st.rows, KeyOf(path))))
  {
    RecognisedExactly(path);
    if GeneratedCache(path).ok { OkMeans(path); }
    hide Generated;
    hide PreviewOf;
    hide CopyOf;
    hide Leftover;
  }

  /** The file carries this key. */
  ghost predicate Names(path: string, key: string) { PreviewOf(path, key) || CopyOf(path, key) }

  /** No asset has this key now, by its generation, size and time, and no row shows it. */
  ghost predicate Unused(name: Naming, rows: map<nat, Row>, key: string)
  {
    forall id | id in rows ::
      key != rows[id].key && key != name(Ticket(id, rows[id].generation, rows[id].size, rows[id].mtime))
  }

  lemma UnusedIsNotKept(name: Naming, rows: map<nat, Row>, key: string)
    requires Digest(key)
    ensures Unused(name, rows, key) <==> key !in Keep(name, rows)
  {
    DigestIsKey(key);
  }

  /**
   What goes: previews and copies of no current or shown key and leftovers, a day
   old, and copies that were idle for thirty days.
   */
  ghost predicate Goes(name: Naming, rows: map<nat, Row>, now: int, path: string, f: File)
  {
    || (now - f.mtime > 86400 && exists key :: Names(path, key) && Unused(name, rows, key))
    || (now - f.mtime > 86400 && Leftover(path) && forall key :: !Names(path, key))
    || (now - f.mtime > 2592000 && exists key :: CopyOf(path, key))
  }

  lemma EmptyIsNotKept(name: Naming, rows: map<nat, Row>)
    ensures "" !in Keep(name, rows)
  {
    assert forall t :: HexKey(name(t));
  }

  lemma NamesAre(path: string)
    ensures var r := GeneratedCache(path);
            && (forall key | Names(path, key) :: r.ok && r.key == key && key != "")
            && (forall key | CopyOf(path, key) :: r == Recognised(key, true, true))
            && (forall key | PreviewOf(path, key) :: r == Recognised(key, false, true))
            && (r.ok ==> Names(path, r.key) || (r == Recognised("", false, true) && Leftover(path)))
            && (Leftover(path) ==> r.ok)
  {
    RecognisedExactly(path);
    var r := GeneratedCache(path);
    if r.ok { OkMeans(path); }
    hide GeneratedCache;
    hide Leftover;
    if r.ok && !Names(path, r.key) {
      forall key ensures !PreviewOf(path, key) && !CopyOf(path, key) {}
    }
  }

  lemma StaleMeans(name: Naming, rows: map<nat, Row>, now: int, path: string, f: File)
    ensures Stale(Keep(name, rows), now, path, f) <==> Goes(name, rows, now, path, f)
  {
    var r := GeneratedCache(path);
    NamesAre(path);
    EmptyIsNotKept(name, rows);
    assert r.ok && r.expendable ==> CopyOf(path, r.key);
    if Names(path, r.key) { UnusedIsNotKept(name, rows, r.key); }
    hide Unused;
    hide GeneratedCache;
    hide Keep;
    hide ValidKey;
    hide PreviewOf;
    hide CopyOf;
    hide Leftover;
  }

  predicate Absent(files: map<string, File>, path: string) { path !in files || files[path].size == 0 }

  /** A ready asset of an enabled library without one of its three previews, or with an empty one. */
  ghost predicate MissesPreview(files: map<string, File>, r: Row)
  {
    && r.ready && r.enabled && Digest(r.key)
    && exists size: nat | size in {256, 1024, 2048} :: Absent(files, PreviewPath(r.key, size))
  }

  lemma LacksMeans(files: map<string, File>, r: Row)
    ensures Lacks(files, r) <==> MissesPreview(files, r)
  {
    DigestIsKey(r.key);
    assert forall size: nat :: size in SIZES <==> size in {256, 1024, 2048};
    if Lacks(files, r) {
      var size :| size in SIZES && (PreviewPath(r.key, size) !in files || files[PreviewPath(r.key, size)].size == 0);
      assert Absent(files, PreviewPath(r.key, size));
    }
  }

  /** What an audit did when nothing else happened: to the files, the rows and the queue. */
  ghost predicate AloneDone(name: Naming, st: State, next: State, clean: bool, missing: set<nat>, requeued: set<nat>)
  {
    && (forall p | p in next.files :: p in st.files && next.files[p] == st.files[p])
    && (forall p | p in st.files :: p in next.files <==> !clean || !Goes(name, st.rows, st.now, p, st.files[p]))
    && (forall p | p in st.files && !Generated(p) :: p in next.files)
    && (forall id :: id in missing <==> id in st.rows && MissesPreview(next.files, st.rows[id]))
    && (forall id :: id in requeued <==> clean && id in missing && id !in st.jobs && id !in st.intents)
    && next.jobs == st.jobs + requeued && next.rows.Keys == st.rows.Keys
    && forall id | id in st.rows :: next.rows[id] == st.rows[id].(ready := st.rows[id].ready && id !in requeued)
  }

  lemma GoesIsGenerated(name: Naming, rows: map<nat, Row>, now: int, path: string, f: File)
    requires Goes(name, rows, now, path, f)
    ensures Generated(path)
  {
    hide PreviewOf;
    hide CopyOf;
    hide Leftover;
    hide ValidKey;
  }

  /** The rows when these assets wait for new previews. */
  function NotReady(rows: map<nat, Row>, ids: set<nat>): map<nat, Row>
  {
    map id | id in rows :: if id in ids then rows[id].(ready := false) else rows[id]
  }

  lemma AuditedAlone(name: Naming, st: State, next: State, clean: bool, missing: set<nat>, requeued: set<nat>)
    requires next.files == if clean then st.files - StaleFiles(Keep(name, st.rows), st.now, st.files).Keys else st.files
    requires forall id :: id in missing <==> id in st.rows && Lacks(next.files, st.rows[id])
    requires requeued == if clean then missing - st.jobs - st.intents else {}
    requires next.jobs == st.jobs + requeued && next.rows == NotReady(st.rows, requeued)
    ensures AloneDone(name, st, next, clean, missing, requeued)
  {
    forall p | p in st.files
      ensures Stale(Keep(name, st.rows), st.now, p, st.files[p]) <==> Goes(name, st.rows, st.now, p, st.files[p])
      ensures Goes(name, st.rows, st.now, p, st.files[p]) ==> Generated(p)
    {
      StaleMeans(name, st.rows, st.now, p, st.files[p]);
      if Goes(name, st.rows, st.now, p, st.files[p]) { GoesIsGenerated(name, st.rows, st.now, p, st.files[p]); }
    }
    forall id | id in st.rows ensures Lacks(next.files, st.rows[id]) <==> MissesPreview(next.files, st.rows[id]) {
      LacksMeans(next.files, st.rows[id]);
    }
    hide Stale;
    hide Goes;
    hide Generated;
    hide Keep;
    hide Lacks;
    hide MissesPreview;
  }

  // ---- How long an audit may take ----

  /** A valid preview that is no idle copy is stale for the audit that read the rows of `read`. */
  ghost predicate Harmed(name: Naming, read: State, st: State, path: string)
  {
    && path in st.files && Stale(Keep(name, read.rows), st.now, path, st.files[path])
    && Carries(path) && ValidKey(name, st.rows, KeyOf(path))
    && !(GeneratedCache(path).expendable && st.now - st.files[path].mtime > 30 * DAY)
  }

  lemma HarmIsLate(name: Naming, read: State, st: State, run: seq<Action>, path: string)
    requires Inv(name, read) && Meanwhile(name, read, st, run) && Harmed(name, read, st, path)
    ensures st.now - read.now > DAY
  {
    hide Inv;
    hide Meanwhile;
    hide GeneratedCache;
    hide Keep;
    hide ValidKey;
    StartsGuarded(name, read);
    MeanwhileKeeps(name, read, st, run, Keep(name, read.rows), read.now);
  }

  function Blank(start: int): State { State(map[], {}, {}, map[], start, 0, {}) }

  /** An audit of an empty cache and library begins; at once an asset is added and its preview is made. */
  lemma LateHarms(name: Naming, start: int, d: int) returns (st: State, run: seq<Action>, path: string)
    requires d > DAY
    ensures Inv(name, Blank(start)) && Meanwhile(name, Blank(start), st, run) && st.now - start == d && Harmed(name, Blank(start), st, path)
  {
    hide GeneratedCache;
    hide PreviewPath;
    hide FullImagePath;
    hide VideoPath;
    var row := Row(1, 1, 1, "", false, true);
    var t := Ticket(0, 1, 1, 1);
    path := PreviewPath(name(t), 256);
    RecognisesGenerated(name(t), 256);
    var s0 := Blank(start);
    var s1 := State(map[0 := row], {0}, {}, map[], start, 1, {t});
    assert s1 == After(name, s0, Add(row));
    var s2 := s1.(files := map[path := File(1, start)]);
    assert s2 == After(name, s1, Write(path, t, 1));
    st := s2.(now := start + d);
    run := [Add(row), Write(path, t, 1), Tick(start + d)];
    assert run[1..] == [Write(path, t, 1), Tick(start + d)] && run[1..][1..] == [Tick(start + d)] && run[1..][1..][1..] == [];
    assert Meanwhile(name, st, st, []);
    assert Meanwhile(name, s2, st, [Tick(start + d)]);
    assert Meanwhile(name, s1, st, run[1..]);
    assert Current(st.rows, 0) == t && KeyOf(path) == name(t);
  }

  /** Audits that take this long find no valid preview stale, whatever happens meanwhile, if and only if that is at most a day. */
  lemma SafeForADay(name: Naming, d: int)
    ensures (forall read, st, run, path | Inv(name, read) && Meanwhile(name, read, st, run) && st.now - read.now == d ::
               !Harmed(name, read, st, path)) <==>
            d <= DAY
  {
    hide Inv;
    hide Meanwhile;
    hide Harmed;
    if d <= DAY {
      forall read, st, run, path | Inv(name, read) && Meanwhile(name, read, st, run) && st.now - read.now == d
        ensures !Harmed(name, read, st, path)
      {
        if Harmed(name, read, st, path) { HarmIsLate(name, read, st, run, path); }
      }
    } else {
      var st, run, path := LateHarms(name, 0, d);
    }
  }

  /** What the loop over the assets has done, when all but `rest` were looked at and nothing else happened. */
  ghost predicate Checking(read: map<nat, Row>, rest: set<nat>, before: State, st: State, missing: set<nat>, requeued: set<nat>, clean: bool)
  {
    && (forall id :: id in missing <==> id in read && id !in rest && Lacks(st.files, read[id]))
    && requeued == (if clean then missing - before.jobs - before.intents else {})
    && st == before.(jobs := before.jobs + requeued, rows := NotReady(read, requeued))
  }

  lemma CheckingStarts(st: State, clean: bool)
    ensures Checking(st.rows, st.rows.Keys, st, st, {}, {}, clean)
  {
    assert NotReady(st.rows, {}) == st.rows;
  }

  lemma CheckingStep(read: map<nat, Row>, rest: set<nat>, before: State, st: State, missing: set<nat>, requeued: set<nat>, clean: bool,
                     id: nat, lacks: bool, added: bool, next: State)
    requires Checking(read, rest, before, st, missing, requeued, clean) && id in rest && id in read
    requires lacks == Lacks(st.files, read[id]) && added == (clean && lacks && CanRequeue(st, id, read[id].generation))
    requires next == if added then Requeued(st, id, read[id].generation) else st
    ensures Checking(read, rest - {id}, before, next, if lacks then missing + {id} else missing,
                     if added then requeued + {id} else requeued, clean)
  {
    hide Lacks;
    assert NotReady(read, requeued)[id] == read[id];
    assert NotReady(read, requeued)[id := read[id].(ready := false)] == NotReady(read, requeued + {id});
  }

  lemma CheckingEnds(read: map<nat, Row>, before: State, st: State, missing: set<nat>, requeued: set<nat>, clean: bool)
    requires Checking(read, {}, before, st, missing, requeued, clean)
    ensures forall id :: id in missing <==> id in read && Lacks(st.files, read[id])
    ensures requeued == (if clean then missing - before.jobs - before.intents else {})
    ensures st == before.(jobs := before.jobs + requeued, rows := NotReady(read, requeued))
  {
  }

  class Cache {
    const name: Naming
    var rows: map<nat, Row>
    var jobs: set<nat>
    var intents: set<nat>
    var files: map<string, File>
    var now: int
    var nextId: nat
    ghost var issued: set<Ticket>
    ghost var removals: seq<Removal>

    ghost function Store(): State
      reads this
    {
      State(rows, jobs, intents, files, now, nextId, issued)
    }

    ghost predicate Valid()
      reads this
    {
      Inv(name, Store()) && forall r | r in removals :: Harmless(r)
    }

    constructor (naming: Naming, time: int)
      ensures Valid() && name == naming && removals == []
    {
      name, rows, jobs, intents, files, now, nextId := naming, map[], {}, {}, map[], time, 0;
      issued, removals := {}, [];
    }

    lemma RemovalsMean()
      requires Valid()
      ensures forall i | 0 <= i < |removals| :: Generated(removals[i].path) && removals[i].at - removals[i].file.mtime > 86400
    {
      hide Generated;
      forall i | 0 <= i < |removals| ensures Generated(removals[i].path) && removals[i].at - removals[i].file.mtime > 86400 {
        assert removals[i] in removals && Harmless(removals[i]);
      }
    }

    /** Any number of steps of scans, workers and deletions. */
    method Others(ghost keep: set<string>, ghost start: int)
      requires Valid() && Guarded(name, Store(), keep, start)
      modifies this
      ensures Valid() && Guarded(name, Store(), keep, start) && removals == old(removals)
      ensures exists run :: Meanwhile(name, old(Store()), Store(), run)
    {
      ghost var none: seq<Action> := [];
      assert Meanwhile(name, Store(), Store(), none);
    }

    /** Removes one file that the audit found stale. */
    method Discard(path: string, ghost keep: set<string>, ghost start: int)
      requires Valid() && Guarded(name, Store(), keep, start)
      requires path in files && Stale(keep, now, path, files[path])
      modifies `files, `removals
      ensures Valid() && Guarded(name, Store(), keep, start) && files == old(files) - {path}
      ensures exists r :: removals == old(removals) + [r] && r.path == path
    {
      hide Inv;
      hide Guarded;
      hide Stale;
      hide Carries;
      hide KeyOf;
      hide ValidKey;
      hide Harmless;
      ghost var r := Removal(path, files[path], now, start, Carries(path) && ValidKey(name, rows, KeyOf(path)));
      StaleIsHarmless(name, Store(), keep, start, path);
      InvStep(name, Store(), Erase(path));
      GuardedStep(name, Store(), Erase(path), keep, start);
      files := files - {path};
      removals := removals + [r];
    }

    /** The transaction for an asset with a missing preview; answers whether a job was added. */
    method QueueAgain(id: nat, generation: nat, ghost keep: set<string>, ghost start: int) returns (added: bool)
      requires Valid() && Guarded(name, Store(), keep, start)
      modifies `rows, `jobs
      ensures Valid() && Guarded(name, Store(), keep, start)
      ensures Store() == Requeued(old(Store()), id, generation) && (added <==> CanRequeue(old(Store()), id, generation))
    {
      hide Inv;
      hide Guarded;
      InvStep(name, Store(), Requeue(id, generation));
      GuardedStep(name, Store(), Requeue(id, generation), keep, start);
      added := id in rows && rows[id].generation == generation && id !in intents && id !in jobs;
      if added {
        jobs := jobs + {id};
        rows := rows[id := rows[id].(ready := false)];
      }
    }

    /** One asset that was read. */
    method CheckOne(id: nat, row: Row, ghost keep: set<string>, ghost start: int, clean: bool, alone: bool) returns (lacks: bool, added: bool)
      requires Valid() && Guarded(name, Store(), keep, start)
      modifies this
      ensures Valid() && Guarded(name, Store(), keep, start) && removals == old(removals) && (added ==> clean && lacks)
      ensures alone ==>
        && files == old(files) && (lacks <==> Lacks(files, row))
        && (added <==> clean && lacks && CanRequeue(old(Store()), id, row.generation))
        && Store() == if added then Requeued(old(Store()), id, row.generation) else old(Store())
    {
      hide Inv;
      hide Guarded;
      hide Lacks;
      if !alone { Others(keep, start); }
      lacks := Lacks(files, row);
      added := false;
      if lacks && clean {
        added := QueueAgain(id, row.generation, keep, start);
      }
    }

    /** The loop over the assets that were read. */
    method Check(read: map<nat, Row>, ghost keep: set<string>, ghost start: int, clean: bool, alone: bool)
      returns (missing: set<nat>, requeued: set<nat>)
      requires Valid() && Guarded(name, Store(), keep, start) && (alone ==> read == rows)
      modifies this
      ensures Valid() && Guarded(name, Store(), keep, start) && removals == old(removals) && (!clean ==> requeued == {})
      ensures alone ==>
        && files == old(files)
        && (forall id :: id in missing <==> id in read && Lacks(files, read[id]))
        && requeued == (if clean then missing - old(jobs) - old(intents) else {})
        && jobs == old(jobs) + requeued && intents == old(intents) && rows == NotReady(read, requeued)
    {
      hide Inv;
      hide Guarded;
      hide Harmless;
      hide Lacks;
      hide NotReady;
      hide Requeued;
      hide CanRequeue;
      hide Checking;
      missing, requeued := {}, {};
      var rest := read.Keys;
      CheckingStarts(Store(), clean);
      while rest != {}
        invariant Valid() && Guarded(name, Store(), keep, start) && rest <= read.Keys && removals == old(removals)
        invariant (!clean ==> requeued == {})
        invariant alone ==> Checking(read, rest, old(Store()), Store(), missing, requeued, clean)
        decreases |rest|
      {
        var id :| id in rest;
        ghost var mid := Store();
        var lacks, added := CheckOne(id, read[id], keep, start, clean, alone);
        if alone { CheckingStep(read, rest, old(Store()), mid, missing, requeued, clean, id, lacks, added, Store()); }
        if lacks { missing := missing + {id}; }
        if added { requeued := requeued + {id}; }
        rest := rest - {id};
      }
      if alone { CheckingEnds(read, old(Store()), Store(), missing, requeued, clean); }
    }

    /** The walk over the cache. */
    method Sweep(keep: set<string>, ghost start: int, clean: bool, alone: bool) returns (ok: bool, status: Status)
      requires Valid() && Guarded(name, Store(), keep, start)
      modifies this
      ensures Valid() && Guarded(name, Store(), keep, start) && old(removals) <= removals
      ensures !clean ==> removals == old(removals)
      ensures alone ==>
        && ok && rows == old(rows) && jobs == old(jobs) && intents == old(intents) && files == FilesAfter(old(files), {}, keep, old(now), clean)
        && status.bytes == Total(Sizes(files))
        && status.reclaimable == Total(Sizes(StaleFiles(keep, old(now), old(files))))
        && status.removed == (if clean then status.reclaimable else 0)
    {
      hide Inv;
      hide Guarded;
      hide FilesAfter;
      hide StatusAfter;
      hide Stale;
      hide StaleFiles;
      hide Harmless;
      hide Sizes;
      ghost var f0, t0 := files, now;
      var rest := files.Keys;
      ok, status := true, Status(0, 0, 0);
      StatusStarts(f0, keep, t0, clean);
      while rest != {}
        invariant Valid() && Guarded(name, Store(), keep, start)
        invariant old(removals) <= removals && (!clean ==> removals == old(removals))
        invariant alone ==> rows == old(rows) && jobs == old(jobs) && intents == old(intents)
        invariant alone ==> rest <= f0.Keys && now == t0 && files == FilesAfter(f0, rest, keep, t0, clean)
        invariant alone ==> status == StatusAfter(f0, rest, keep, t0, clean)
        decreases |rest|
      {
        var p :| p in rest;
        if !alone { Others(keep, start); }
        if alone {
          StatusStep(f0, rest, keep, t0, clean, p);
          FilesStep(f0, rest, keep, t0, clean, p);
        }
        if p !in files { return false, status; }
        var size := files[p].size;
        status := status.(bytes := status.bytes + size);
        if Stale(keep, now, p, files[p]) {
          status := status.(reclaimable := status.reclaimable + size);
          if clean {
            Discard(p, keep, start);
            status := status.(removed := status.removed + size, bytes := status.bytes - size);
          }
        }
        rest := rest - {p};
      }
      if alone { StatusEnds(f0, keep, t0, clean); }
    }

    /**
     `auditCache`; `alone` says that nothing else happens meanwhile.  Answers the
     numbers, the ready assets with a missing preview, and those queued again.
     */
    method Audit(clean: bool, alone: bool) returns (ok: bool, status: Status, missing: set<nat>, requeued: set<nat>)
      requires Valid()
      modifies this
      ensures Valid() && old(removals) <= removals
      ensures !clean ==> removals == old(removals) && requeued == {}
      ensures alone ==>
        && ok && files == (if clean then old(files) - StaleFiles(Keep(name, old(rows)), old(now), old(files)).Keys else old(files))
        && status.bytes == Total(Sizes(files))
        && status.reclaimable == Total(Sizes(StaleFiles(Keep(name, old(rows)), old(now), old(files))))
        && status.removed == (if clean then status.reclaimable else 0)
        && (forall id :: id in missing <==> id in old(rows) && Lacks(files, old(rows)[id]))
        && requeued == (if clean then missing - old(jobs) - old(intents) else {})
        && jobs == old(jobs) + requeued && intents == old(intents) && rows == NotReady(old(rows), requeued)
      ensures forall i | |old(removals)| <= i < |removals| :: Generated(removals[i].path) && removals[i].at - removals[i].file.mtime > 86400
      ensures alone ==> AloneDone(name, old(Store()), Store(), clean, missing, requeued)
    {
      hide Inv;
      hide Guarded;
      hide FilesAfter;
      hide Stale;
      hide StaleFiles;
      hide Harmless;
      hide Sizes;
      hide Keep;
      hide Lacks;
      hide AloneDone;
      hide Generated;
      var keep := Keep(name, rows);
      var read := rows;
      ghost var start := now;
      StartsGuarded(name, Store());
      missing, requeued := {}, {};
      ok, status := Sweep(keep, start, clean, alone);
      StatusEnds(old(files), keep, old(now), clean);
      if !ok {
        RemovalsMean();
        return;
      }
      missing, requeued := Check(read, keep, start, clean, alone);
      RemovalsMean();
      if alone { AuditedAlone(name, old(Store()), Store(), clean, missing, requeued); }
    }
  }
}
