/** The upload of a file in one request (internal/api/uploads.go), which shares the storage limit with sessions. */
module OneRequestUpload {
  import opened FileNames
  import opened Options
  import opened UploadPaths
  import ManagedFolders
  import opened Uploads
  import opened UploadSteps
  import opened UploadRuns
  import opened UploadStore
  import opened UploadHandlers

  /** The temporary file and the place of the original. */
  function Temp(uid: nat, token: string): Path { Flat(uid, token + ".partial") }
  function Original(uid: nat, token: string, ext: string): Path { Managed(uid, token, ext) }

  /** A token that was never drawn names nothing in the store. */
  lemma TokenIsFresh(c: Config, st: State, uid: nat, token: string, ext: string)
    requires Inv(c, st) && token !in st.used
    ensures token !in st.sessions && Original(uid, token, ext) !in st.files
    ensures forall a | a in st.assets :: st.assets[a].path != Original(uid, token, ext)
  {
    hide Origins;
    assert token in st.sessions ==> SessionOk(c, st, token);
    assert forall a | a in st.assets :: AssetOk(c, st, a);
  }

  /** Where no file is, no asset has its original, unless it is being deleted. */
  lemma NoFileNoAsset(c: Config, st: State, p: Path)
    requires Inv(c, st) && p !in st.files
    ensures forall a | a in st.assets && st.assets[a].path == p :: a in st.intents
  {
    hide Sessions;
    hide Origins;
    hide Files;
    assert forall a | a in st.assets :: AssetOk(c, st, a);
  }

  /** How much of the body is read: one byte more than may be stored, if there is one. */
  function Limit(c: Config, st_load: nat, uid: nat, ext: string): int
  {
    if c.quota(uid) - st_load < c.limit(ext) then c.quota(uid) - st_load else c.limit(ext)
  }

  /** The requests that are stored; `single` says that the body has one part. */
  ghost predicate Storable(c: Config, st: State, uid: nat, name: string, folder: string, body: Bytes, single: bool)
  {
    var ext := FormatOf(name);
    && ValidName(name) && ManagedFolders.UploadPath(uid, folder).Some? && c.limit(ext) > 0 && Load(c, st, uid) < c.quota(uid)
    && |body| <= c.limit(ext) && |body| + Load(c, st, uid) <= c.quota(uid)
    && single && c.valid(body, ext)
  }

  /** The original is in its place with a row and a job. */
  ghost function Uploaded(st: State, uid: nat, token: string, ext: string, body: Bytes): State
  {
    var q := Original(uid, token, ext);
    Inserted(Drawn(st, token).(files := st.files[q := File(body, st.now)]), q)
  }

  /** Only the two files of the token differ, and they are no asset's. */
  ghost predicate OnlyItsFiles(st: State, next: State, uid: nat, token: string, ext: string)
  {
    && next.(files := st.files) == Drawn(st, token)
    && forall p | p != Temp(uid, token) && p != Original(uid, token, ext) ::
         (p in st.files <==> p in next.files) && (p in st.files ==> next.files[p] == st.files[p])
  }

  /** The temporary file with what was read so far. */
  ghost function Partial(st: State, uid: nat, token: string, bytes: Bytes): State
  {
    WithFile(Drawn(st, token), Temp(uid, token), bytes)
  }

  lemma OwnChanges(st: State, uid: nat, token: string, ext: string, bytes: Bytes)
    requires Temp(uid, token) !in st.files && Original(uid, token, ext) !in st.files
    ensures var p, q := Temp(uid, token), Original(uid, token, ext);
            var some := Partial(st, uid, token, bytes);
            && OnlyItsFiles(st, Drawn(st, token), uid, token, ext) && OnlyItsFiles(st, some, uid, token, ext)
            && OnlyItsFiles(st, Renamed(some, p, q), uid, token, ext)
            && Without(some, p) == Drawn(st, token) && Without(Renamed(some, p, q), q) == Drawn(st, token)
            && Inserted(Renamed(some, p, q), q) == Uploaded(st, uid, token, ext, bytes)
  {
    var p, q := Temp(uid, token), Original(uid, token, ext);
    var some := Partial(st, uid, token, bytes);
    assert Without(some, p).files == st.files;
    assert Renamed(some, p, q).files == st.files[q := File(bytes, st.now)];
    assert Without(Renamed(some, p, q), q).files == st.files;
  }

  lemma Rewritten(st: State, uid: nat, token: string, some: Bytes)
    ensures forall bytes :: WithFile(Partial(st, uid, token, some), Temp(uid, token), bytes) == Partial(st, uid, token, bytes)
  {
    forall bytes ensures WithFile(Partial(st, uid, token, some), Temp(uid, token), bytes) == Partial(st, uid, token, bytes) {
      assert WithFile(Partial(st, uid, token, some), Temp(uid, token), bytes).files == Partial(st, uid, token, bytes).files;
    }
  }

  method Overwrite(server: UploadServer, ghost st: State, uid: nat, token: string, ghost some: Bytes, bytes: Bytes, healthy: bool)
    returns (ok: bool)
    requires server.Valid() && server.Store() == Partial(st, uid, token, some) && CanWriteTemp(st, Temp(uid, token))
    modifies server
    ensures server.Valid() && (healthy ==> ok)
    ensures server.Store() == Partial(st, uid, token, bytes) || (!ok && server.Store() == Partial(st, uid, token, some))
  {
    hide Inv;
    hide Run;
    ok := server.WriteTemp(Temp(uid, token), bytes, healthy);
    Rewritten(st, uid, token, some);
  }

  ghost predicate SomeWritten(st: State, next: State, uid: nat, token: string)
  {
    next == Drawn(st, token) || exists some :: next == Partial(st, uid, token, some)
  }

  /** The temporary file is created empty and then filled; the write may stop anywhere. */
  method WriteBody(server: UploadServer, ghost st: State, uid: nat, token: string, bytes: Bytes, written: nat, healthy: bool) returns (ok: bool)
    requires server.Valid() && server.Store() == Drawn(st, token) && CanWriteTemp(st, Temp(uid, token))
    modifies server
    ensures server.Valid() && (healthy ==> ok)
    ensures ok ==> server.Store() == Partial(st, uid, token, bytes)
    ensures !ok ==> SomeWritten(st, server.Store(), uid, token)
  {
    hide Inv;
    hide Run;
    ok := server.WriteTemp(Temp(uid, token), [], healthy);
    assert server.Store() == Drawn(st, token) || server.Store() == Partial(st, uid, token, []);
    if !ok { return; }
    var torn := bytes[..if written <= |bytes| then written else |bytes|];
    ok := Overwrite(server, st, uid, token, [], torn, healthy);
    if !ok { return; }
    ok := Overwrite(server, st, uid, token, torn, bytes, healthy);
  }

  lemma OriginalIsExpendable(c: Config, st: State, p: Path, q: Path)
    requires Inv(c, st) && CanRenameTemp(st, p, q) && forall a | a in st.assets :: st.assets[a].path != q
    ensures Expendable(Renamed(st, p, q), q)
  {
  }

  /** The rename inside the open transaction, and its commit. */
  method Keep(server: UploadServer, p: Path, q: Path, healthy: bool) returns (ok: bool)
    requires server.Valid() && CanRenameTemp(server.Store(), p, q)
    requires forall a | a in server.assets :: server.assets[a].path != q
    requires |server.files[p].bytes| + Load(server.c, server.Store(), q.owner) <= server.c.quota(q.owner)
    modifies server
    ensures server.Valid() && (healthy ==> ok)
    ensures ok ==> server.Store() == Inserted(Renamed(old(server.Store()), p, q), q)
    ensures var st := old(server.Store());
            server.Store() in {st, Renamed(st, p, q), Inserted(Renamed(st, p, q), q), Without(Renamed(st, p, q), q)}
  {
    hide Inv;
    hide Run;
    ghost var st := server.Store();
    server.Holds();
    ok := server.RenameTemp(p, q, healthy);
    if !ok { return; }
    assert Load(server.c, server.Store(), q.owner) == Load(server.c, st, q.owner);
    if !healthy {
      var fails: bool := *;
      if fails {
        // The commit failed: the original goes away again.
        OriginalIsExpendable(server.c, st, p, q);
        var _ := server.RemoveFile(q, healthy);
        return false;
      }
    }
    ok := server.InsertAsset(q, healthy);
  }

  lemma TempIsExpendable(st: State, uid: nat, token: string, bytes: Bytes)
    requires CanWriteTemp(st, Temp(uid, token))
    ensures Expendable(Partial(st, uid, token, bytes), Temp(uid, token))
  {
  }

  lemma SameLoadOfPartial(c: Config, st: State, uid: nat, token: string, bytes: Bytes)
    ensures Load(c, Partial(st, uid, token, bytes), uid) == Load(c, st, uid)
  {
  }

  /** The part of `upload` that stores the body, or takes everything back if it is not wanted. */
  method Receive(server: UploadServer, ghost st: State, uid: nat, ext: string, body: Bytes, read: Bytes, wanted: bool, token: string,
                 written: nat, healthy: bool) returns (reply: Reply)
    requires server.Valid() && server.Store() == Drawn(st, token)
    requires CanWriteTemp(st, Temp(uid, token)) && Temp(uid, token) !in st.files
    requires Original(uid, token, ext) !in st.files && token !in st.sessions
    requires forall a | a in st.assets :: st.assets[a].path != Original(uid, token, ext)
    requires wanted ==> read == body && |body| + Load(server.c, st, uid) <= server.c.quota(uid)
    modifies server
    ensures server.Valid() && reply in {Accepted, Invalid, Failed} && (healthy ==> reply != Failed)
    ensures healthy ==> (reply == Accepted <==> wanted && server.c.valid(body, ext))
    ensures reply == Accepted ==> server.Store() == Uploaded(st, uid, token, ext, body)
    ensures reply == Invalid ==> server.Store() == Drawn(st, token)
    ensures reply == Failed ==>
              OnlyItsFiles(st, server.Store(), uid, token, ext) || server.Store() == Uploaded(st, uid, token, ext, body)
  {
    hide Inv;
    hide Run;
    hide Load;
    hide OnlyItsFiles;
    hide Uploaded;
    var temp, dest := Temp(uid, token), Original(uid, token, ext);
    forall some: Bytes { OwnChanges(st, uid, token, ext, some); }
    var ok := WriteBody(server, st, uid, token, read, written, healthy);
    if !ok { return Failed; }
    if !wanted || !server.c.valid(body, ext) {
      TempIsExpendable(st, uid, token, read);
      ok := server.RemoveFile(temp, healthy);
      return if ok then Invalid else Failed;
    }
    SameLoadOfPartial(server.c, st, uid, token, body);
    ok := Keep(server, temp, dest, healthy);
    return if ok then Accepted else Failed;
  }

  lemma DrawnOnly(st: State, uid: nat, token: string, ext: string)
    ensures OnlyItsFiles(st, Drawn(st, token), uid, token, ext)
  {
  }

  /** The file name, the folder and the size are acceptable, and the bytes pass the check of their format. */
  ghost predicate MayBeStored(c: Config, st: State, uid: nat, name: string, folder: string, body: Bytes, single: bool)
  {
    && 0 < |name| <= 180 && '\\' !in name && '/' !in name && ':' !in name && '\0' !in name && name[0] != '.'
    && ManagedFolders.UploadPath(uid, folder).Some? && 0 < c.limit(FormatOf(name)) && |body| <= c.limit(FormatOf(name))
    && Load(c, st, uid) < c.quota(uid) && |body| + Load(c, st, uid) <= c.quota(uid) && single && c.valid(body, FormatOf(name))
  }

  lemma StorableMeans(c: Config, st: State, uid: nat, name: string, folder: string, body: Bytes, single: bool)
    ensures Storable(c, st, uid, name, folder, body, single) <==> MayBeStored(c, st, uid, name, folder, body, single)
  {
    hide Load;
    hide FormatOf;
    var special := "\\/:\0";
    assert special[0] in special && special[1] in special && special[2] in special && special[3] in special;
  }

  /** What an interrupted upload leaves has a name by which cleaning recognises and removes it. */
  lemma TempIsRecognised(uid: nat, token: string)
    requires ValidId(token)
    ensures var p := Temp(uid, token);
            && p.Flat? && p.owner == uid && Stem(p.name) == token && FormatOf(p.name) == ".partial"
            && 32 <= |Stem(p.name)| <= 80 && forall x | x in Stem(p.name) :: x in "0123456789abcdef"
  {
    var ext := ".partial";
    assert ext[1..] == "partial";
    ExtOfJoined(token, ext);
    assert Lower(ext) == ".partial";
  }

  /** One file, one row, which is not in the trash, and one job more, and nothing else. */
  ghost predicate OneMore(st: State, next: State, uid: nat, token: string, ext: string, body: Bytes)
  {
    var q := Managed(uid, token, ext);
    && next.files == st.files[q := File(body, st.now)] && next.assets == st.assets[st.nextAsset := Asset(q, |body|, None, 0)]
    && next.jobs == st.jobs + {st.nextAsset} && next.sessions == st.sessions && next.intents == st.intents
    && next.quarantine == st.quarantine
  }

  lemma UploadedMeans(st: State, uid: nat, token: string, ext: string, body: Bytes)
    ensures OneMore(st, Uploaded(st, uid, token, ext, body), uid, token, ext, body)
  {
  }

  /** `upload`: `name` and `folder` are what the request asks for, and `token` is the random identifier that is drawn. */
  method Upload(server: UploadServer, uid: nat, name: string, folder: string, body: Bytes, single: bool, token: string, written: nat, healthy: bool)
    returns (reply: Reply)
    requires server.Valid() && token !in server.used && ValidId(token)
    modifies server
    ensures server.Valid()
    ensures healthy && Temp(uid, token) !in old(server.files) ==>
              (reply == Accepted <==> Storable(server.c, old(server.Store()), uid, name, folder, body, single))
    ensures reply == Accepted ==> server.Store() == Uploaded(old(server.Store()), uid, token, FormatOf(name), body)
    ensures healthy && Temp(uid, token) !in old(server.files) ==>
              (reply == Accepted <==> MayBeStored(server.c, old(server.Store()), uid, name, folder, body, single))
    ensures reply == Accepted ==> OneMore(old(server.Store()), server.Store(), uid, token, FormatOf(name), body)
    ensures reply !in {Accepted, Failed} ==>
              server.Store() == old(server.Store()) || server.Store() == Drawn(old(server.Store()), token)
    ensures reply == Failed ==>
              || OnlyItsFiles(old(server.Store()), server.Store(), uid, token, FormatOf(name))
              || server.Store() == Uploaded(old(server.Store()), uid, token, FormatOf(name), body)
  {
    hide Inv;
    hide Run;
    hide Load;
    hide OnlyItsFiles;
    hide Uploaded;
    hide ValidName;
    hide FormatOf;
    hide MayBeStored;
    hide OneMore;
    ghost var st := server.Store();
    var ext := FormatOf(name);
    StorableMeans(server.c, st, uid, name, folder, body, single);
    UploadedMeans(st, uid, token, ext, body);
    if !ValidName(name) || server.c.limit(ext) == 0 || ManagedFolders.UploadPath(uid, folder).None? { return Invalid; }
    var total, _ := Usage(server, uid);
    if total >= server.c.quota(uid) { return Full; }
    var temp, dest := Temp(uid, token), Original(uid, token, ext);
    server.Holds();
    TokenIsFresh(server.c, st, uid, token, ext);
    server.DrawId(token);
    if temp in server.files {
      DrawnOnly(st, uid, token, ext);
      return Failed;
    }
    NoFileNoAsset(server.c, st, temp);
    var limit := Limit(server.c, total, uid, ext);
    var read := if |body| <= limit then body else body[..limit + 1];
    reply := Receive(server, st, uid, ext, body, read, |body| <= limit && single, token, written, healthy);
  }
}
