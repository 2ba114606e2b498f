/** The names of generated files in the cache, and their recognition (internal/thumbnails/thumbnails.go, internal/api/cache_maintenance.go). */
module CachePaths {
  import opened Paths
  import opened Decimals
  import Hex
  import UploadPaths

  const SIZES: seq<nat> := [256, 1024, 2048]

  predicate HexKey(key: string) { Hex.ValidDigest(key) }

  function Suffix(size: nat): string { "-" + Decimal(size) + ".webp" }

  /** `thumbnails.Path` below the root of the cache. */
  function PreviewPath(key: string, size: nat): string
    requires HexKey(key)
  {
    Join([key[..2], key[2..4], key + Suffix(size)])
  }

  function FullImagePath(key: string): string { Join(["full-images-v1", key + ".png"]) }
  function VideoPath(key: string): string { Join(["video-v1", key + ".mp4"]) }

  predicate HasSuffix(s: string, suffix: string) { |suffix| <= |s| && s[|s| - |suffix|..] == suffix }

  function TrimSuffix(s: string, suffix: string): string { if HasSuffix(s, suffix) then s[..|s| - |suffix|] else s }

  /** What a path is recognised as: the key that it carries, if any, and whether an idle copy may go even then. */
  datatype Recognised = Recognised(key: string, expendable: bool, ok: bool)

  const UNKNOWN := Recognised("", false, false)
  const SCRATCH := Recognised("", false, true)

  /** The loop over the sizes of previews; the empty text if there is none. */
  function PreviewKey(parts: seq<string>, sizes: seq<nat>): string
    requires |parts| == 3
    decreases |sizes|
  {
    if sizes == [] then ""
    else
      var key := TrimSuffix(parts[2], Suffix(sizes[0]));
      if HasSuffix(parts[2], Suffix(sizes[0])) && HexKey(key) && parts[0] == key[..2] && parts[1] == key[2..4] then key
      else PreviewKey(parts, sizes[1..])
  }

  /** `generatedCache` */
  function GeneratedCache(path: string): Recognised
  {
    var parts := Split(path);
    if |parts| == 2 && (parts[0] == "full-images-v1" || parts[0] == "video-v1") then
      var ext := if parts[0] == "video-v1" then ".mp4" else ".png";
      var key := TrimSuffix(parts[1], ext);
      Recognised(key, true, HasSuffix(parts[1], ext) && HexKey(key))
    else if |parts| == 3 && |parts[0]| == 2 && |parts[1]| == 2 && PreviewKey(parts, SIZES) != "" then
      Recognised(PreviewKey(parts, SIZES), false, true)
    else if |parts| == 3 && |parts[0]| == 2 && |parts[1]| == 2 && ".preview-" <= parts[2] && HasSuffix(parts[2], ".webp") then SCRATCH
    else if |parts| >= 2 && "processing-" <= parts[0] then SCRATCH
    else if |parts| >= 3 && parts[0] == "full-images-v1" && "render-" <= parts[1] then SCRATCH
    else if |parts| >= 3 && parts[0] == "video-v1" && "transcode-" <= parts[1] then SCRATCH
    else UNKNOWN
  }

  // ---- Recognition inverts naming ----

  lemma DecimalStep(n: nat, digit: char)
    requires n >= 10 && (n % 10) as char + '0' == digit
    ensures Decimal(n) == Decimal(n / 10) + [digit]
  {
  }

  lemma SizesRead()
    ensures Decimal(256) == "256" && Decimal(1024) == "1024" && Decimal(2048) == "2048"
  {
    DecimalStep(25, '5');
    DecimalStep(256, '6');
    DecimalStep(10, '0');
    DecimalStep(102, '2');
    DecimalStep(1024, '4');
    DecimalStep(20, '0');
    DecimalStep(204, '4');
    DecimalStep(2048, '8');
    assert Decimal(1) == "1" && Decimal(2) == "2";
  }

  lemma SuffixEnds()
    ensures Suffix(256) == "-256.webp" && Suffix(1024) == "-1024.webp" && Suffix(2048) == "-2048.webp"
  {
    hide Decimal;
    SizesRead();
  }

  /** The last digit of the size is six characters from the end, and it differs. */
  lemma OneSuffix(s: string, a: nat, b: nat)
    requires a in SIZES && b in SIZES && HasSuffix(s, Suffix(a)) && HasSuffix(s, Suffix(b))
    ensures a == b
  {
    SuffixEnds();
    assert s[|s| - 6] == Suffix(a)[|Suffix(a)| - 6];
    assert s[|s| - 6] == Suffix(b)[|Suffix(b)| - 6];
  }

  lemma KeyIsPlain(key: string)
    requires HexKey(key)
    ensures '/' !in key && '/' !in key[..2] && '/' !in key[2..4]
  {
    UploadPaths.HexIsPlain(key);
  }

  lemma SuffixIsPlain(size: nat)
    ensures '/' !in Suffix(size)
  {
  }

  lemma {:induction false} FindsPreview(key: string, size: nat, sizes: seq<nat>)
    requires HexKey(key) && size in sizes && forall s | s in sizes :: s in SIZES
    ensures PreviewKey([key[..2], key[2..4], key + Suffix(size)], sizes) == key
    decreases |sizes|
  {
    var name := key + Suffix(size);
    assert HasSuffix(name, Suffix(size)) && name[..|key|] == key;
    if HasSuffix(name, Suffix(sizes[0])) {
      OneSuffix(name, size, sizes[0]);
    } else {
      FindsPreview(key, size, sizes[1..]);
    }
  }

  lemma RecognisesPreview(key: string, size: nat)
    requires HexKey(key) && size in SIZES
    ensures GeneratedCache(PreviewPath(key, size)) == Recognised(key, false, true)
  {
    KeyIsPlain(key);
    SuffixIsPlain(size);
    var parts := [key[..2], key[2..4], key + Suffix(size)];
    SplitJoin(parts);
    FindsPreview(key, size, SIZES);
    hide PreviewKey;
    hide Suffix;
    assert key != "";
  }

  lemma RecognisesCopy(dir: string, ext: string, key: string)
    requires HexKey(key) && ((dir == "full-images-v1" && ext == ".png") || (dir == "video-v1" && ext == ".mp4"))
    ensures GeneratedCache(Join([dir, key + ext])) == Recognised(key, true, true)
  {
    hide PreviewKey;
    KeyIsPlain(key);
    hide HexKey;
    assert '/' !in key + ext && '/' !in dir;
    SplitJoin([dir, key + ext]);
    hide Join;
    assert (key + ext)[..|key|] == key && (key + ext)[|key|..] == ext;
  }

  /** Every preview, full image and video copy is recognised with its key. */
  lemma RecognisesGenerated(key: string, size: nat)
    requires HexKey(key) && size in SIZES
    ensures GeneratedCache(PreviewPath(key, size)) == Recognised(key, false, true)
    ensures GeneratedCache(FullImagePath(key)) == Recognised(key, true, true)
    ensures GeneratedCache(VideoPath(key)) == Recognised(key, true, true)
  {
    RecognisesPreview(key, size);
    RecognisesCopy("full-images-v1", ".png", key);
    RecognisesCopy("video-v1", ".mp4", key);
  }

  lemma {:induction false} PreviewKeyIs(parts: seq<string>, sizes: seq<nat>) returns (size: nat)
    requires |parts| == 3 && PreviewKey(parts, sizes) != ""
    ensures size in sizes && HexKey(PreviewKey(parts, sizes))
    ensures var key := PreviewKey(parts, sizes); parts == [key[..2], key[2..4], key + Suffix(size)]
    decreases |sizes|
  {
    var suffix := Suffix(sizes[0]);
    var key := TrimSuffix(parts[2], suffix);
    if HasSuffix(parts[2], suffix) && HexKey(key) && parts[0] == key[..2] && parts[1] == key[2..4] {
      size := sizes[0];
      assert parts[2] == key + suffix;
    } else {
      size := PreviewKeyIs(parts, sizes[1..]);
    }
  }

  /** A path that is recognised with a key is the path of exactly one generated file. */
  lemma RecognisedIsGenerated(path: string)
    requires GeneratedCache(path).ok && GeneratedCache(path).key != ""
    ensures var r := GeneratedCache(path);
            && HexKey(r.key)
            && (r.expendable ==> path == FullImagePath(r.key) || path == VideoPath(r.key))
            && (!r.expendable ==> exists size | size in SIZES :: path == PreviewPath(r.key, size))
  {
    var parts := Split(path);
    JoinSplit(path);
    var r := GeneratedCache(path);
    if r.expendable {
      var ext := if parts[0] == "video-v1" then ".mp4" else ".png";
      assert parts[1] == r.key + ext && parts == [parts[0], parts[1]];
    } else {
      var size := PreviewKeyIs(parts, SIZES);
      assert path == PreviewPath(r.key, size);
    }
  }

  // ---- Exactly the generated files are recognised ----

  /** Sixty-four lower-case hexadecimal digits. */
  predicate Digest(key: string) { |key| == 64 && forall c | c in key :: c in "0123456789abcdef" }

  /** `ab/cd/abcd….webp`: a preview of this key in one of the three sizes. */
  predicate PreviewOf(path: string, key: string)
  {
    && Digest(key)
    && Split(path) in {[key[..2], key[2..4], key + "-256.webp"], [key[..2], key[2..4], key + "-1024.webp"],
                       [key[..2], key[2..4], key + "-2048.webp"]}
  }

  /** A full-size image or a playable video made for this key. */
  predicate CopyOf(path: string, key: string)
  {
    Digest(key) && Split(path) in {["full-images-v1", key + ".png"], ["video-v1", key + ".mp4"]}
  }

  /** What an interrupted preview, worker, image conversion or video conversion leaves behind. */
  predicate Leftover(path: string)
  {
    var parts := Split(path);
    || (|parts| == 3 && |parts[0]| == 2 && |parts[1]| == 2 && ".preview-" <= parts[2] && 5 <= |parts[2]| && parts[2][|parts[2]| - 5..] == ".webp")
    || (|parts| >= 2 && "processing-" <= parts[0])
    || (|parts| >= 3 && parts[0] == "full-images-v1" && "render-" <= parts[1])
    || (|parts| >= 3 && parts[0] == "video-v1" && "transcode-" <= parts[1])
  }

  ghost predicate Generated(path: string)
  {
    (exists key :: PreviewOf(path, key) || CopyOf(path, key)) || Leftover(path)
  }

  lemma DigestIsKey(key: string)
    ensures Digest(key) <==> HexKey(key)
  {
  }

  lemma {:induction false} PreviewKeyFinds(path: string, key: string)
    requires PreviewOf(path, key)
    ensures |Split(path)| == 3 && PreviewKey(Split(path), SIZES) == key
  {
    SuffixEnds();
    DigestIsKey(key);
    var parts := Split(path);
    var size: nat := if parts[2] == key + "-256.webp" then 256 else if parts[2] == key + "-1024.webp" then 1024 else 2048;
    assert parts == [key[..2], key[2..4], key + Suffix(size)];
    FindsPreview(key, size, SIZES);
  }

  lemma PreviewKeyMeans(path: string)
    requires |Split(path)| == 3 && PreviewKey(Split(path), SIZES) != ""
    ensures PreviewOf(path, PreviewKey(Split(path), SIZES))
  {
    var size := PreviewKeyIs(Split(path), SIZES);
    SuffixEnds();
    DigestIsKey(PreviewKey(Split(path), SIZES));
  }

  lemma CopyMeans(path: string)
    requires |Split(path)| == 2 && GeneratedCache(path).ok && GeneratedCache(path).expendable
    ensures CopyOf(path, GeneratedCache(path).key)
  {
    hide PreviewKey;
    var parts, key := Split(path), GeneratedCache(path).key;
    hide Split;
    DigestIsKey(key);
    var ext := if parts[0] == "video-v1" then ".mp4" else ".png";
    assert parts[1] == key + ext && parts == [parts[0], parts[1]];
  }

  lemma CopyIsFound(path: string, key: string)
    requires CopyOf(path, key)
    ensures GeneratedCache(path) == Recognised(key, true, true)
  {
    hide PreviewKey;
    hide Split;
    DigestIsKey(key);
    var parts := Split(path);
    var ext := if parts[0] == "video-v1" then ".mp4" else ".png";
    assert parts[1] == key + ext && parts[1][..|key|] == key && parts[1][|key|..] == ext;
  }

  lemma PreviewIsFound(path: string, key: string)
    requires PreviewOf(path, key)
    ensures GeneratedCache(path) == Recognised(key, false, true)
  {
    PreviewKeyFinds(path, key);
    hide PreviewKey;
    hide Split;
  }

  lemma ScratchIsNoCopy(dir: string)
    requires "processing-" <= dir
    ensures dir != "full-images-v1" && dir != "video-v1"
  {
    assert dir[0] == "processing-"[0];
  }

  lemma LeftoverIsFound(path: string)
    requires Leftover(path)
    ensures GeneratedCache(path).ok
    ensures GeneratedCache(path).key == "" ==> !GeneratedCache(path).expendable
    ensures GeneratedCache(path).key != "" ==> PreviewOf(path, GeneratedCache(path).key)
  {
    var parts := Split(path);
    if |parts| == 3 && PreviewKey(parts, SIZES) != "" { PreviewKeyMeans(path); }
    hide PreviewKey;
    hide PreviewOf;
    hide Split;
    hide HexKey;
    hide TrimSuffix;
    if "processing-" <= parts[0] { ScratchIsNoCopy(parts[0]); }
  }

  lemma OkMeans(path: string)
    requires GeneratedCache(path).ok
    ensures Leftover(path) || PreviewOf(path, GeneratedCache(path).key) || CopyOf(path, GeneratedCache(path).key)
  {
    if |Split(path)| == 3 && PreviewKey(Split(path), SIZES) != "" { PreviewKeyMeans(path); }
    if |Split(path)| == 2 && GeneratedCache(path).expendable { CopyMeans(path); }
    hide PreviewKey;
    hide PreviewOf;
    hide CopyOf;
    hide Split;
    hide HexKey;
    hide TrimSuffix;
  }

  /**
   A path is recognised exactly if it is that of a preview, a copy or a leftover;
   previews and copies are recognised with their key, leftovers without one, and
   only copies may go when they are idle.
   */
  lemma RecognisedExactly(path: string)
    ensures GeneratedCache(path).ok <==> Generated(path)
    ensures forall key | PreviewOf(path, key) :: GeneratedCache(path) == Recognised(key, false, true)
    ensures forall key | CopyOf(path, key) :: GeneratedCache(path) == Recognised(key, true, true)
    ensures GeneratedCache(path).ok && (forall key :: !PreviewOf(path, key) && !CopyOf(path, key)) ==>
              GeneratedCache(path) == Recognised("", false, true)
  {
    if GeneratedCache(path).ok { OkMeans(path); }
    forall key | PreviewOf(path, key) { PreviewIsFound(path, key); }
    forall key | CopyOf(path, key) { CopyIsFound(path, key); }
    if Leftover(path) { LeftoverIsFound(path); }
    hide PreviewOf;
    hide CopyOf;
    hide Leftover;
    hide GeneratedCache;
  }
}
