/** The files of the upload store, and how they are named below its root. */
module UploadPaths {
  import opened Paths
  import opened Decimals
  import opened FileNames
  import Hex

  /**
   `Part` is a transfer in progress, `Managed` a stored original in the layout of
   `managedOriginalPath`, `Flat` any file directly in a user's directory (the
   layout before that, and the temporary file of a one-request upload), and
   `Kept` a flat file moved to quarantine.
   */
  datatype Path = Part(id: string) | Managed(owner: nat, id: string, ext: string) | Flat(owner: nat, name: string) | Kept(owner: nat, name: string)

  /** `fmt.Sprintf("%x", rand.Text())`: the digits of 26 characters. */
  predicate ValidId(id: string) { |id| == 52 && forall c | c in id :: Hex.IsDigit(c) }

  predicate Valid(p: Path)
  {
    match p
    case Part(id) => ValidId(id)
    case Managed(owner, id, ext) => ValidId(id) && ValidExt(ext)
    case Flat(owner, name) => name != "" && '/' !in name
    case Kept(owner, name) => name != "" && '/' !in name
  }

  function Parts(p: Path): seq<string>
    requires Valid(p)
  {
    match p
    case Part(id) => [".incoming", id + ".part"]
    case Managed(owner, id, ext) => [UserRoot(owner), id[..2], id[2..4], id + ext]
    case Flat(owner, name) => [UserRoot(owner), name]
    case Kept(owner, name) => [".quarantine", UserRoot(owner), name]
  }

  /** The path below the root of the store. */
  function Text(p: Path): string
    requires Valid(p)
  {
    Join(Parts(p))
  }

  lemma HexIsPlain(s: string)
    requires forall c | c in s :: Hex.IsDigit(c)
    ensures '/' !in s && '.' !in s
  {
    assert forall c | c in Hex.DIGITS :: c != '/' && c != '.';
  }

  lemma PartsArePlain(p: Path)
    requires Valid(p)
    ensures forall part | part in Parts(p) :: '/' !in part
  {
    if p.Part? || p.Managed? {
      HexIsPlain(p.id);
    }
  }

  /** Splitting a path at its slashes gives its parts: the two layouts differ in their number. */
  lemma SplitText(p: Path)
    requires Valid(p)
    ensures Split(Text(p)) == Parts(p)
    ensures p.Part? ==> Split(Text(p)) == [".incoming", p.id + ".part"]
    ensures p.Managed? ==> Split(Text(p)) == ["user-" + Decimal(p.owner), p.id[..2], p.id[2..4], p.id + p.ext]
    ensures p.Flat? ==> Split(Text(p)) == ["user-" + Decimal(p.owner), p.name]
    ensures p.Kept? ==> Split(Text(p)) == [".quarantine", "user-" + Decimal(p.owner), p.name]
  {
    PartsArePlain(p);
    SplitJoin(Parts(p));
  }

  lemma {:induction false} FirstPart(parts: seq<string>)
    requires |parts| > 1
    ensures parts[0] + "/" <= Join(parts)
  {
    if |parts| == 2 {
      assert Join(parts) == parts[0] + "/" + parts[1] by { assert Join(parts[..1]) == parts[0]; }
    } else {
      FirstPart(parts[..|parts| - 1]);
    }
  }

  lemma RootsAreNotDots(p: Path)
    requires Valid(p)
    ensures Parts(p)[0] == ".incoming" <==> p.Part?
    ensures Parts(p)[0] == ".quarantine" <==> p.Kept?
    ensures |Parts(p)| == 4 <==> p.Managed?
  {
    if p.Flat? || p.Managed? {
      assert UserRoot(p.owner)[0] == 'u';
    }
  }

  /** The prefix test of the queries, `LIKE 'user-N/%'`, is true exactly of the originals of that user. */
  lemma OwnerByPrefix(p: Path, uid: nat)
    requires Valid(p)
    ensures "user-" + Decimal(uid) + "/" <= Text(p) <==> (p.Managed? || p.Flat?) && p.owner == uid
  {
    var parts, root := Parts(p), UserRoot(uid);
    PartsArePlain(p);
    FirstPart(parts);
    RootsAreNotDots(p);
    assert parts[0] in parts && root[0] == 'u';
    if root + "/" <= Text(p) {
      SameFirst(root, parts[0], Text(p));
    }
    if p.Managed? || p.Flat? {
      UserRootsDiffer(uid, p.owner);
    }
  }

  lemma StemsDiffer(i: string, x: string, j: string, y: string)
    requires ValidId(i) && ValidId(j) && ValidExt(x) && ValidExt(y) && i + x == j + y
    ensures i == j && x == y
  {
    HexIsPlain(i);
    HexIsPlain(j);
    var s := i + x;
    assert i == s[..|i|] && j == s[..|j|];
    assert x != "" ==> s[|i|] == '.';
    assert y != "" ==> s[|j|] == '.';
    forall k | 0 <= k < |i| ensures s[k] != '.' { assert s[k] in i; }
    forall k | 0 <= k < |j| ensures s[k] != '.' { assert s[k] in j; }
    assert |i| == |j|;
    assert x == s[|i|..] && y == s[|j|..];
  }

  /** Different files have different paths. */
  lemma TextInjective(p: Path, q: Path)
    requires Valid(p) && Valid(q) && Text(p) == Text(q)
    ensures p == q
  {
    SplitText(p);
    SplitText(q);
    var a, b := Parts(p), Parts(q);
    assert a == b;
    RootsAreNotDots(p);
    RootsAreNotDots(q);
    match p
    case Part(id) => assert a[1][..|id|] == id && b[1][..|id|] == q.id;
    case Managed(owner, id, ext) =>
      UserRootsDiffer(owner, q.owner);
      StemsDiffer(id, ext, q.id, q.ext);
    case Flat(owner, name) => UserRootsDiffer(owner, q.owner);
    case Kept(owner, name) => UserRootsDiffer(owner, q.owner);
  }
}
