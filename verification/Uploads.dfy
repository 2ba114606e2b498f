/**
 The upload store: the rows of upload_sessions, assets and upload_quarantine,
 and the files below the upload root.  Handlers change it in small durable
 effects, one file operation or one transaction each, and may be cut off after
 any of them.  This module has the effects, each with the condition under which
 a handler performs it, and what all of them keep.
 */
module Uploads {
  import opened Options
  import opened FileNames
  import opened Totals
  import opened UploadPaths
  import Hex
  import ManagedFolders

  type Byte = x: int | 0 <= x < 256
  type Bytes = seq<Byte>

  /**
   SHA-256 as a hex digest, the container check of an upload, the size limit of
   an extension (0: unsupported), how long an idle session is kept, and the
   storage limit of a user.
   */
  datatype Config = Config(hash: Bytes -> string, valid: (Bytes, string) -> bool, limit: string -> nat, retention: nat, quota: nat -> nat)

  const ACTIVE_LIMIT: nat := 50

  datatype Phase = Uploading | Committing | Done | Duplicate

  datatype Session = Session(owner: nat, key: string, filename: string, ext: string, folder: string, size: nat, hash: string,
                             keep: bool, received: nat, phase: Phase, asset: nat, updated: int)

  datatype Asset = Asset(path: Path, size: nat, hash: Option<string>, trashedAt: int)

  datatype File = File(bytes: Bytes, mtime: int)

  datatype Record = Record(owner: nat, size: nat)

  /**
   `jobs` are the assets that got a job and were not deleted since; what workers
   make of it is in module Catalog.
   `acked` and `origin` are history: the bytes that were acknowledged for a
   session, and which session an asset was made from.  `used` are all session
   and upload identifiers ever drawn, which are random and never drawn twice.
   */
  datatype State = State(sessions: map<string, Session>, assets: map<nat, Asset>, jobs: set<nat>, intents: set<nat>,
                         quarantine: map<Path, Record>, files: map<Path, File>, now: int, nextAsset: nat,
                         acked: map<string, Bytes>, origin: map<nat, string>, used: set<string>)

  function Dest(id: string, s: Session): Path { Managed(s.owner, id, s.ext) }

  function OwnerOf(p: Path): Option<nat>
  {
    match p
    case Managed(owner, _, _) => Some(owner)
    case Flat(owner, _) => Some(owner)
    case _ => None
  }

  /** The bytes are the ones that the session declared. */
  predicate Verified(c: Config, s: Session, bytes: Bytes)
  {
    |bytes| == s.size && c.hash(bytes) == s.hash && c.valid(bytes, s.ext)
  }

  predicate HoldsAt(c: Config, st: State, s: Session, p: Path)
  {
    p in st.files && Verified(c, s, st.files[p].bytes)
  }

  // ---- What every run keeps ----

  /** The acknowledged bytes are a prefix of the part file, or the file is too short for the session to go on. */
  predicate PartOk(st: State, id: string, s: Session)
  {
    && id in st.acked && |st.acked[id]| == s.received <= s.size
    && (Part(id) in st.files ==>
          |st.files[Part(id)].bytes| < s.received || st.files[Part(id)].bytes[..s.received] == st.acked[id])
  }

  predicate SessionOk(c: Config, st: State, id: string)
    requires id in st.sessions
  {
    var s := st.sessions[id];
    && id in st.used && ValidId(id) && ValidExt(s.ext)
    && match s.phase
       case Uploading => PartOk(st, id, s) && Dest(id, s) !in st.files && s.asset == 0
       case Committing =>
         && PartOk(st, id, s) && s.received == s.size && s.asset == 0
         && (Part(id) in st.files <==> Dest(id, s) !in st.files)
         && (Part(id) in st.files ==> Verified(c, s, st.files[Part(id)].bytes))
         && (Dest(id, s) in st.files ==> Verified(c, s, st.files[Dest(id, s)].bytes))
       case Done =>
         && s.asset in st.assets && st.assets[s.asset].path == Dest(id, s) && st.assets[s.asset].size == s.size
         && (s.asset !in st.intents ==> HoldsAt(c, st, s, Dest(id, s)))
       case Duplicate => s.asset in st.assets
  }

  /** A stored original has the size and, once computed, the digest of its row. */
  predicate AssetOk(c: Config, st: State, a: nat)
    requires a in st.assets
  {
    var row := st.assets[a];
    && 0 < a < st.nextAsset && (row.path.Managed? || row.path.Flat?)
    && (row.path.Managed? ==> row.path.id in st.used)
    && (a !in st.intents ==>
          && row.path in st.files && |st.files[row.path].bytes| == row.size
          && (row.hash.Some? ==> c.hash(st.files[row.path].bytes) == row.hash.value))
  }

  /** Only a finished session has an asset at its destination. */
  predicate DestFree(st: State, id: string)
    requires id in st.sessions
  {
    st.sessions[id].phase in {Uploading, Committing} ==>
      forall a | a in st.assets :: st.assets[a].path != Dest(id, st.sessions[id])
  }

  predicate SamePath(st: State, a: nat, b: nat)
    requires a in st.assets && b in st.assets
  {
    st.assets[a].path == st.assets[b].path
  }

  ghost predicate Sessions(c: Config, st: State)
  {
    && (forall id | id in st.sessions :: SessionOk(c, st, id))
    && (forall id | id in st.sessions :: DestFree(st, id))
  }

  ghost predicate Assets(c: Config, st: State)
  {
    && (forall a | a in st.assets :: AssetOk(c, st, a))
    && (forall a, b | a in st.assets && b in st.assets && SamePath(st, a, b) :: a == b)
    && st.intents <= st.assets.Keys && 0 < st.nextAsset
  }

  /** No session ever makes two assets, and one that made an asset is finished for good. */
  ghost predicate Origins(st: State)
  {
    && (forall a, b | a in st.origin && b in st.origin && st.origin[a] == st.origin[b] :: a == b)
    && (forall a | a in st.origin :: a < st.nextAsset && st.origin[a] in st.used)
    && (forall a | a in st.origin && st.origin[a] in st.sessions ::
          st.sessions[st.origin[a]].phase == Done && st.sessions[st.origin[a]].asset == a)
    && (forall id | id in st.sessions && st.sessions[id].phase == Done ::
          st.sessions[id].asset in st.origin && st.origin[st.sessions[id].asset] == id)
    && (forall id | id in st.acked :: id in st.used)
  }

  predicate SameKey(st: State, i: string, j: string)
    requires i in st.sessions && j in st.sessions
  {
    st.sessions[i].owner == st.sessions[j].owner && st.sessions[i].key == st.sessions[j].key
  }

  /** Every quarantined file has its record, files carry identifiers that were drawn, and a client key names one session. */
  ghost predicate Files(st: State)
  {
    && (forall p | p in st.files && p.Kept? :: p in st.quarantine)
    && (forall p | p in st.files && (p.Part? || p.Managed?) :: p.id in st.used)
    && (forall i, j | i in st.sessions && j in st.sessions && SameKey(st, i, j) :: i == j)
  }

  ghost predicate Inv(c: Config, st: State)
  {
    Sessions(c, st) && Assets(c, st) && Origins(st) && Files(st)
  }

  // ---- Storage limits ----

  /** A session that still reserves its size. */
  predicate Active(s: Session, cutoff: int)
  {
    s.phase == Committing || (s.phase == Uploading && s.updated > cutoff)
  }

  function Reservations(sessions: map<string, Session>, cutoff: int, uid: nat): map<string, nat>
  {
    map id | id in sessions && sessions[id].owner == uid && Active(sessions[id], cutoff) :: sessions[id].size
  }

  function Stored(assets: map<nat, Asset>, intents: set<nat>, uid: nat): map<nat, nat>
  {
    map a | a in assets && a !in intents && OwnerOf(assets[a].path) == Some(uid) :: assets[a].size
  }

  function KeptSizes(quarantine: map<Path, Record>, uid: nat): map<Path, nat>
  {
    map p | p in quarantine && quarantine[p].owner == uid :: quarantine[p].size
  }

  function Cutoff(c: Config, st: State): int { st.now - c.retention }

  /** What `quota` reports as used and as reserved, together. */
  ghost function Load(c: Config, st: State, uid: nat): nat
  {
    Total(Stored(st.assets, st.intents, uid)) + Total(KeptSizes(st.quarantine, uid)) + Total(Reservations(st.sessions, Cutoff(c, st), uid))
  }

  ghost predicate WithinLimits(c: Config, st: State, uid: nat)
  {
    Load(c, st, uid) <= c.quota(uid) && |Reservations(st.sessions, Cutoff(c, st), uid)| <= ACTIVE_LIMIT
  }

  // ---- What a client declares ----

  datatype Request = Request(key: string, filename: string, folder: string, size: nat, hash: string, keep: bool)

  /** The checks of `startUpload` before it looks at the tables. */
  predicate ValidRequest(c: Config, uid: nat, r: Request)
  {
    && Hex.ValidDigest(r.hash) && 16 <= |r.key| <= 100 && (forall x | x in "\0\r\n" :: x !in r.key)
    && ValidName(r.filename) && 0 < r.size <= c.limit(FormatOf(r.filename))
    && ManagedFolders.UploadPath(uid, r.folder).Some?
  }

  /** The row of a new session; `duplicate` is the original that has the bytes already, or 0. */
  function NewSession(uid: nat, r: Request, duplicate: nat, now: int): Session
    requires ManagedFolders.UploadPath(uid, r.folder).Some?
  {
    var folder, ext := ManagedFolders.UploadPath(uid, r.folder).value, FormatOf(r.filename);
    if duplicate > 0 then Session(uid, r.key, r.filename, ext, folder, r.size, r.hash, r.keep, r.size, Duplicate, duplicate, now)
    else Session(uid, r.key, r.filename, ext, folder, r.size, r.hash, r.keep, 0, Uploading, 0, now)
  }

  /** The row is that of a request which passed the checks. */
  ghost predicate FromRequest(c: Config, s: Session)
  {
    exists r :: ValidRequest(c, s.owner, r) && s == NewSession(s.owner, r, s.asset, s.updated)
  }

  // ---- The effects of the session handlers ----

  /** A stored original of the owner with this size and digest. */
  predicate Matches(c: Config, st: State, a: nat, owner: nat, size: nat, hash: string)
  {
    && a in st.assets && a !in st.intents && OwnerOf(st.assets[a].path) == Some(owner) && st.assets[a].size == size
    && st.assets[a].path in st.files && c.hash(st.files[st.assets[a].path].bytes) == hash
  }

  /** The `INSERT` of `startUpload`. */
  function Started(st: State, id: string, s: Session): State
  {
    st.(sessions := st.sessions[id := s], acked := st.acked[id := []], used := st.used + {id})
  }

  ghost predicate CanStart(c: Config, st: State, id: string, s: Session)
  {
    && id !in st.used && ValidId(id) && FromRequest(c, s) && ValidExt(s.ext) && s.updated == st.now
    && (forall i | i in st.sessions :: st.sessions[i].owner != s.owner || st.sessions[i].key != s.key)
    && |Reservations(st.sessions, Cutoff(c, st), s.owner)| < ACTIVE_LIMIT
    && (|| (s.phase == Uploading && s.received == 0 && s.asset == 0 && s.size + Load(c, st, s.owner) <= c.quota(s.owner))
        || (s.phase == Duplicate && !s.keep && Matches(c, st, s.asset, s.owner, s.size, s.hash)))
  }

  /** The part file now has these bytes. */
  function WithPart(st: State, id: string, bytes: Bytes): State
  {
    st.(files := st.files[Part(id) := File(bytes, st.now)])
  }

  /** `uploadChunk` creates an empty part, cuts it to the acknowledged length, and writes after that. */
  predicate CanWritePart(st: State, id: string, bytes: Bytes)
  {
    && id in st.sessions && st.sessions[id].phase == Uploading
    && (|| (Part(id) !in st.files && bytes == [])
        || (|bytes| >= st.sessions[id].received && Part(id) in st.files
            && |st.files[Part(id)].bytes| >= st.sessions[id].received
            && bytes[..st.sessions[id].received] == st.files[Part(id)].bytes[..st.sessions[id].received]))
  }

  /** Damage from outside: the part file of a session that is not committing loses its end. */
  function Damaged(st: State, id: string, left: nat): State
    requires Part(id) in st.files && left <= |st.files[Part(id)].bytes|
  {
    st.(files := st.files[Part(id) := st.files[Part(id)].(bytes := st.files[Part(id)].bytes[..left])])
  }

  predicate CanDamage(st: State, id: string, left: nat)
  {
    && Part(id) in st.files && left <= |st.files[Part(id)].bytes|
    && (id in st.sessions ==> st.sessions[id].phase != Committing)
  }

  /** The chunk is on disk; its bytes are acknowledged. */
  function Acked(st: State, id: string, data: Bytes): State
    requires id in st.sessions && id in st.acked
  {
    var s := st.sessions[id];
    st.(sessions := st.sessions[id := s.(received := s.received + |data|, updated := st.now)],
        acked := st.acked[id := st.acked[id] + data])
  }

  predicate CanAck(c: Config, st: State, id: string, data: Bytes)
  {
    && id in st.sessions && st.sessions[id].phase == Uploading && id in st.acked && Part(id) in st.files
    && st.sessions[id].received + |data| <= st.sessions[id].size
    && st.sessions[id].updated >= Cutoff(c, st)
    && st.files[Part(id)].bytes == st.acked[id] + data
  }

  /** `UPDATE assets SET content_hash=?` with the digest of the stored bytes. */
  function Hashed(c: Config, st: State, a: nat): State
    requires a in st.assets && st.assets[a].path in st.files
  {
    st.(assets := st.assets[a := st.assets[a].(hash := Some(c.hash(st.files[st.assets[a].path].bytes)))])
  }

  /** The file that `finishUpload` reads. */
  function Staged(st: State, id: string): Path
    requires id in st.sessions
  {
    if st.sessions[id].phase == Committing && Dest(id, st.sessions[id]) in st.files then Dest(id, st.sessions[id]) else Part(id)
  }

  /** Everything arrived and is what was declared, and the session did not expire. */
  predicate Ready(c: Config, st: State, id: string)
    requires id in st.sessions
  {
    var s := st.sessions[id];
    && s.phase in {Uploading, Committing} && s.received == s.size && HoldsAt(c, st, s, Staged(st, id))
    && (s.phase == Uploading ==> s.updated >= Cutoff(c, st))
  }

  function MarkedDuplicate(st: State, id: string, a: nat): State
    requires id in st.sessions
  {
    st.(sessions := st.sessions[id := st.sessions[id].(phase := Duplicate, asset := a, updated := st.now)])
  }

  predicate CanMarkDuplicate(c: Config, st: State, id: string, a: nat)
  {
    && id in st.sessions && Ready(c, st, id) && !st.sessions[id].keep
    && Matches(c, st, a, st.sessions[id].owner, st.sessions[id].size, st.sessions[id].hash)
  }

  function MarkedCommitting(st: State, id: string): State
    requires id in st.sessions
  {
    st.(sessions := st.sessions[id := st.sessions[id].(phase := Committing, updated := st.now)])
  }

  predicate CanMarkCommitting(c: Config, st: State, id: string)
  {
    id in st.sessions && Ready(c, st, id)
  }

  function Renamed(st: State, p: Path, q: Path): State
    requires p in st.files
  {
    st.(files := (st.files - {p})[q := st.files[p]])
  }

  predicate CanRenamePart(st: State, id: string)
  {
    id in st.sessions && st.sessions[id].phase == Committing && Part(id) in st.files && Dest(id, st.sessions[id]) !in st.files
  }

  /** The last transaction of `finishUpload`: the asset, its job and the session in one step. */
  function Finalised(st: State, id: string): State
    requires id in st.sessions
  {
    var s, a := st.sessions[id], st.nextAsset;
    st.(assets := st.assets[a := Asset(Dest(id, s), s.size, Some(s.hash), 0)], jobs := st.jobs + {a},
        sessions := st.sessions[id := s.(phase := Done, asset := a, updated := st.now)],
        nextAsset := a + 1, origin := st.origin[a := id])
  }

  predicate CanFinalise(st: State, id: string)
  {
    id in st.sessions && st.sessions[id].phase == Committing && Dest(id, st.sessions[id]) in st.files
  }

  function Without(st: State, p: Path): State { st.(files := st.files - {p}) }

  /** Files that nothing of value depends on: no original of the library, nothing of a committing session, nothing in quarantine. */
  predicate Expendable(st: State, p: Path)
  {
    && !p.Kept?
    && (forall a | a in st.assets && st.assets[a].path == p :: a in st.intents)
    && (forall id | id in st.sessions && st.sessions[id].phase == Committing :: p != Part(id) && p != Dest(id, st.sessions[id]))
  }

  function Forgotten(st: State, id: string): State { st.(sessions := st.sessions - {id}) }

  predicate CanForget(st: State, id: string)
  {
    id in st.sessions ==> st.sessions[id].phase != Committing
  }

  // ---- The effects of the one-request upload ----

  function WithFile(st: State, p: Path, bytes: Bytes): State
  {
    st.(files := st.files[p := File(bytes, st.now)])
  }

  /** A temporary file may be written where no asset has its original. */
  predicate CanWriteTemp(st: State, p: Path)
  {
    p.Flat? && forall a | a in st.assets && st.assets[a].path == p :: a in st.intents
  }

  function Drawn(st: State, id: string): State { st.(used := st.used + {id}) }

  predicate CanRenameTemp(st: State, p: Path, q: Path)
  {
    && CanWriteTemp(st, p) && p in st.files && q.Managed? && q !in st.files && q.id in st.used && q.id !in st.sessions
  }

  /** The transaction of `upload`, after the file was renamed. */
  function Inserted(st: State, q: Path): State
    requires q in st.files
  {
    var a := st.nextAsset;
    st.(assets := st.assets[a := Asset(q, |st.files[q].bytes|, None, 0)], jobs := st.jobs + {a}, nextAsset := a + 1)
  }

  ghost predicate CanInsert(c: Config, st: State, q: Path)
  {
    && q.Managed? && q in st.files && q.id in st.used && q.id !in st.sessions
    && (forall a | a in st.assets :: st.assets[a].path != q)
    && |st.files[q].bytes| + Load(c, st, q.owner) <= c.quota(q.owner)
  }

  // ---- The effects of trash, deletion and quarantine ----

  function Trashed(st: State, a: nat, at: int): State
    requires a in st.assets
  {
    st.(assets := st.assets[a := st.assets[a].(trashedAt := at)])
  }

  function Intended(st: State, a: nat): State { st.(intents := st.intents + {a}, jobs := st.jobs - {a}) }

  /** The transaction at the end of a deletion: the row, what refers to it, and the receipts that name it. */
  function RowDeleted(st: State, a: nat): State
  {
    st.(sessions := map id | id in st.sessions && st.sessions[id].asset != a :: st.sessions[id],
        assets := st.assets - {a}, jobs := st.jobs - {a}, intents := st.intents - {a})
  }

  predicate CanDeleteRow(st: State, a: nat)
  {
    a in st.intents && a in st.assets && st.assets[a].path !in st.files
  }

  /** `INSERT OR IGNORE INTO upload_quarantine` */
  function Recorded(st: State, p: Path, r: Record): State
  {
    if p in st.quarantine then st else st.(quarantine := st.quarantine[p := r])
  }

  /** Only an unindexed flat file with a record goes to quarantine. */
  predicate CanQuarantine(st: State, p: Path)
  {
    && p.Flat? && p in st.files && Kept(p.owner, p.name) in st.quarantine && Kept(p.owner, p.name) !in st.files
    && forall a | a in st.assets :: st.assets[a].path != p
  }

  function Later(st: State, now: int): State { st.(now := now) }
}
