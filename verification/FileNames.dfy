/** Names of files: their extension as the programs read it. */
module FileNames {

  /** `filepath.Ext(name)`: from the last dot. */
  function Ext(name: string): (ext: string)
    ensures |ext| <= |name|
  {
    if name == "" then "" else if name[|name| - 1] == '.' then "."
    else
      var rest := Ext(name[..|name| - 1]);
      if rest == "" then "" else rest + [name[|name| - 1]]
  }

  function LowerChar(c: char): char { if 'A' <= c <= 'Z' then c - 'A' + 'a' else c }

  function Lower(s: string): string { seq(|s|, i requires 0 <= i < |s| => LowerChar(s[i])) }

  function Stem(name: string): string { name[..|name| - |Ext(name)|] }

  /** The extension that decides the format. */
  function FormatOf(name: string): string { Lower(Ext(name)) }

  /** Nothing, or a dot and a text without dots and slashes. */
  predicate ValidExt(ext: string) { ext == "" || (ext[0] == '.' && '/' !in ext && '.' !in ext[1..]) }

  /** The file names that an upload may have. */
  predicate ValidName(name: string)
  {
    name != "" && |name| <= 180 && (forall c | c in "\\/:\0" :: c !in name) && name[0] != '.'
  }

  /** The extension begins at the last dot, and is empty exactly if there is none. */
  lemma {:induction false} NameParts(name: string)
    ensures name == Stem(name) + Ext(name)
    ensures Ext(name) == "" <==> '.' !in name
    ensures Ext(name) != "" ==> Ext(name)[0] == '.' && '.' !in Ext(name)[1..]
  {
    if name != "" {
      var init, last := name[..|name| - 1], name[|name| - 1];
      NameParts(init);
      assert name == init + [last];
    }
  }

  /** A name that is put together is taken apart again. */
  lemma ExtOfJoined(stem: string, ext: string)
    requires ext != "" && ext[0] == '.' && '.' !in ext[1..]
    ensures Ext(stem + ext) == ext && Stem(stem + ext) == stem
  {
    var name := stem + ext;
    NameParts(name);
    var found := Ext(name);
    assert name[|stem|] == '.';
    assert found == name[|name| - |found|..] && ext == name[|name| - |ext|..];
    forall k | |stem| < k < |name| ensures name[k] != '.' { assert name[k] == ext[1..][k - |stem| - 1]; }
    forall k | |name| - |found| < k < |name| ensures name[k] != '.' { assert name[k] == found[1..][k - (|name| - |found|) - 1]; }
    assert name[|name| - |found|] == found[0];
    assert |found| == |ext|;
  }

  /** The letters A to Z become a to z, and nothing else changes. */
  lemma LowerLetters(s: string)
    ensures |Lower(s)| == |s|
    ensures forall i | 0 <= i < |s| :: !('A' <= Lower(s)[i] <= 'Z')
    ensures forall i | 0 <= i < |s| && Lower(s)[i] != s[i] ::
              'A' <= s[i] <= 'Z' && 'a' <= Lower(s)[i] <= 'z' && Lower(s)[i] as int - s[i] as int == 32
  {
  }

  lemma {:induction false} ExtIsValid(name: string)
    requires '/' !in name
    ensures ValidExt(Ext(name))
  {
    if name != "" {
      var init := name[..|name| - 1];
      ExtIsValid(init);
      assert name[|name| - 1] in name;
    }
  }

  lemma LowerIsValid(ext: string)
    requires ValidExt(ext)
    ensures ValidExt(Lower(ext))
  {
    var low := Lower(ext);
    forall c | c in low ensures c != '/' {
      var i :| 0 <= i < |low| && low[i] == c;
      assert ext[i] in ext;
    }
    if ext != "" {
      forall c | c in low[1..] ensures c != '.' {
        var i :| 0 <= i < |low[1..]| && low[1..][i] == c;
        assert ext[1..][i] in ext[1..];
      }
    }
  }

  lemma FormatIsValid(name: string)
    requires ValidName(name)
    ensures ValidExt(FormatOf(name))
  {
    assert "\\/:\0"[1] == '/';
    ExtIsValid(name);
    LowerIsValid(Ext(name));
  }
}
