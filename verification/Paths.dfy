/** Slash-separated paths, and the prefix tests that the SQL statements make on them. */
module Paths {

  /** `strings.Split(s, "/")`. */
  function Split(s: string): (parts: seq<string>)
    ensures |parts| > 0 && forall p | p in parts :: '/' !in p
  {
    if s == "" then [""]
    else
      var rest := Split(s[..|s| - 1]);
      var c := s[|s| - 1];
      if c == '/' then rest + [""] else rest[..|rest| - 1] + [rest[|rest| - 1] + [c]]
  }

  /** `strings.Join(parts, "/")`. */
  function Join(parts: seq<string>): string
  {
    if |parts| == 0 then "" else if |parts| == 1 then parts[0] else Join(parts[..|parts| - 1]) + "/" + parts[|parts| - 1]
  }

  lemma JoinSnoc(parts: seq<string>, last: string)
    requires |parts| > 0
    ensures Join(parts + [last]) == Join(parts) + "/" + last
  {
    assert (parts + [last])[..|parts|] == parts;
  }

  lemma JoinOne(part: string)
    ensures Join([part]) == part
  {
  }

  lemma AppendAssoc<T>(a: seq<T>, b: seq<T>, c: seq<T>)
    ensures a + (b + c) == a + b + c
  {
  }

  lemma InitAndLast<T>(parts: seq<T>)
    requires |parts| > 0
    ensures parts == parts[..|parts| - 1] + [parts[|parts| - 1]]
  {
  }

  lemma JoinLonger(init: seq<string>, last: string, c: char)
    ensures Join(init + [last + [c]]) == Join(init + [last]) + [c]
  {
    hide Join;
    if |init| == 0 {
      JoinOne(last);
      JoinOne(last + [c]);
      assert init + [last] == [last];
      assert init + [last + [c]] == [last + [c]];
    } else {
      JoinSnoc(init, last);
      JoinSnoc(init, last + [c]);
      AppendAssoc(Join(init) + "/", last, [c]);
    }
  }

  lemma {:induction false} JoinSplit(s: string)
    ensures Join(Split(s)) == s
  {
    hide Join;
    if s == "" {
      JoinOne("");
    } else {
      var rest, c := s[..|s| - 1], s[|s| - 1];
      JoinSplit(rest);
      InitAndLast(s);
      var parts := Split(rest);
      InitAndLast(parts);
      if c == '/' {
        JoinSnoc(parts, "");
        assert rest + "/" + "" == rest + [c];
      } else {
        JoinLonger(parts[..|parts| - 1], parts[|parts| - 1], c);
      }
    }
  }

  /** `a` is `p` cut off before one of its slashes. */
  predicate CutAt(p: string, i: nat) { i < |p| && p[i] == '/' }

  predicate Ancestor(a: string, p: string)
  {
    CutAt(p, |a|) && a == p[..|a|]
  }

  /** The joins of the non-empty beginnings of `parts`. */
  function Prefixes(parts: seq<string>): set<string>
  {
    if parts == [] then {} else Prefixes(parts[..|parts| - 1]) + {Join(parts)}
  }

  lemma PrefixesSnoc(parts: seq<string>, last: string)
    ensures Prefixes(parts + [last]) == Prefixes(parts) + {Join(parts + [last])}
  {
    assert (parts + [last])[..|parts|] == parts;
  }

  lemma NotItsOwnAncestor(p: string)
    ensures !Ancestor(p, p)
  {
  }

  lemma AncestorOfLonger(a: string, p: string, c: char)
    ensures Ancestor(a, p + [c]) <==> Ancestor(a, p) || (c == '/' && a == p)
  {
    var q := p + [c];
    if |a| < |p| {
      assert q[..|a|] == p[..|a|];
    } else if |a| == |p| {
      assert q[..|a|] == p;
    }
  }

  lemma {:induction false} PrefixesAreShorter(init: seq<string>, length: nat)
    requires init != [] ==> |Join(init)| < length
    ensures forall a | a in Prefixes(init) :: |a| < length
  {
    if init != [] {
      var shorter := init[..|init| - 1];
      assert init == shorter + [init[|init| - 1]];
      if shorter != [] {
        JoinSnoc(shorter, init[|init| - 1]);
      }
      PrefixesAreShorter(shorter, length);
    }
  }

  lemma NotItsOwnPrefix(init: seq<string>, last: string)
    ensures Join(init + [last]) !in Prefixes(init)
  {
    if init != [] {
      JoinSnoc(init, last);
      PrefixesAreShorter(init, |Join(init + [last])|);
    }
  }

  lemma PrefixesOfLonger(p: string, c: char)
    requires forall a :: a in Prefixes(Split(p)) <==> a == p || Ancestor(a, p)
    ensures forall a :: a in Prefixes(Split(p + [c])) <==> a == p + [c] || Ancestor(a, p + [c])
  {
    hide Prefixes;
    hide Join;
    hide Ancestor;
    var parts, q := Split(p), p + [c];
    JoinSplit(p);
    JoinSplit(q);
    assert q[..|q| - 1] == p;
    forall a
      ensures Ancestor(a, q) <==> Ancestor(a, p) || (c == '/' && a == p)
    {
      AncestorOfLonger(a, p, c);
    }
    if c == '/' {
      PrefixesSnoc(parts, "");
    } else {
      var init, last := parts[..|parts| - 1], parts[|parts| - 1];
      assert parts == init + [last];
      PrefixesSnoc(init, last);
      PrefixesSnoc(init, last + [c]);
      NotItsOwnPrefix(init, last);
      NotItsOwnAncestor(p);
    }
  }

  /** The beginnings of a split path are the path itself and its ancestors. */
  lemma {:induction false} PrefixesAreAncestors(s: string)
    ensures forall a :: a in Prefixes(Split(s)) <==> a == s || Ancestor(a, s)
  {
    if s == "" {
      PrefixesSnoc([], "");
      assert [] + [""] == [""];
    } else {
      PrefixesAreAncestors(s[..|s| - 1]);
      PrefixesOfLonger(s[..|s| - 1], s[|s| - 1]);
      assert s == s[..|s| - 1] + [s[|s| - 1]];
    }
  }

  /** `folder = f OR substr(folder, 1, length(f) + 1) = f || '/'`. */
  predicate Under(folder: string, f: string)
  {
    folder == f || f + "/" <= folder
  }

  /** Whether a grant on the folder `g` covers `folder`; a grant on "" covers a whole library. */
  predicate Covers(g: string, folder: string)
  {
    g == "" || Under(folder, g)
  }

  lemma UnderIsAncestor(folder: string, f: string)
    ensures Under(folder, f) <==> folder == f || Ancestor(f, folder)
  {
    if f + "/" <= folder {
      assert folder[..|f| + 1] == f + "/";
      assert folder[|f|] == (f + "/")[|f|];
      assert folder[..|f|] == folder[..|f| + 1][..|f|];
    }
    if Ancestor(f, folder) {
      assert folder[..|f| + 1] == f + "/";
    }
  }

  lemma UnderTransitive(a: string, b: string, c: string)
    requires Under(a, b) && Under(b, c)
    ensures Under(a, c)
  {
  }

  /** Both lie on one line of descent. */
  lemma UnderComparable(p: string, a: string, b: string)
    requires Under(p, a) && Under(p, b)
    ensures Under(a, b) || Under(b, a)
  {
    if |a| < |b| {
      assert b == p[..|b|];
      assert a + "/" == p[..|a| + 1] == b[..|a| + 1];
    } else if |a| > |b| {
      assert a == p[..|a|];
      assert b + "/" == p[..|b| + 1] == a[..|b| + 1];
    } else {
      assert a == p[..|a|] && b == p[..|b|];
    }
  }

  // ---- Paths that are put together ----

  lemma {:induction false} SplitPlain(s: string)
    requires '/' !in s
    ensures Split(s) == [s]
  {
    if s != "" {
      SplitPlain(s[..|s| - 1]);
      assert s[|s| - 1] in s;
      assert s == s[..|s| - 1] + [s[|s| - 1]];
    }
  }

  lemma {:induction false} SplitSnoc(s: string, last: string)
    requires '/' !in last
    ensures Split(s + "/" + last) == Split(s) + [last]
  {
    var t := s + "/" + last;
    if last == "" {
      assert t == s + "/" && t[..|t| - 1] == s;
    } else {
      var n := |last| - 1;
      assert last[n] in last;
      SplitSnoc(s, last[..n]);
      assert t[..|t| - 1] == s + "/" + last[..n];
      assert last == last[..n] + [last[n]];
    }
  }

  lemma {:induction false} SplitJoin(parts: seq<string>)
    requires parts != [] && forall p | p in parts :: '/' !in p
    ensures Split(Join(parts)) == parts
  {
    hide Split;
    var init, last := parts[..|parts| - 1], parts[|parts| - 1];
    assert last in parts;
    if |parts| == 1 {
      SplitPlain(parts[0]);
      assert [parts[0]] == parts;
    } else {
      SplitJoin(init);
      SplitSnoc(Join(init), last);
      assert Join(parts) == Join(init) + "/" + last;
      assert init + [last] == parts;
    }
  }

  /** The parts when one more character is read. */
  function More(parts: seq<string>, c: char): seq<string>
    requires |parts| > 0
  {
    if c == '/' then parts + [""] else parts[..|parts| - 1] + [parts[|parts| - 1] + [c]]
  }

  lemma MoreAfter(a: string, parts: seq<string>, c: char)
    requires |parts| > 0
    ensures More([a] + parts, c) == [a] + More(parts, c)
  {
  }

  lemma SplitStep(s: string, c: char)
    ensures Split(s + [c]) == More(Split(s), c)
  {
    assert (s + [c])[..|s|] == s;
  }

  lemma {:induction false} SplitFirst(a: string, b: string)
    requires '/' !in a
    ensures Split(a + "/" + b) == [a] + Split(b)
  {
    if b == "" {
      SplitSnoc(a, "");
      SplitPlain(a);
    } else {
      hide Split;
      var init, last := b[..|b| - 1], b[|b| - 1];
      SplitFirst(a, init);
      SplitStep(init, last);
      MoreAfter(a, Split(init), last);
      hide More;
      SplitStep(a + "/" + init, last);
      InitAndLast(b);
      assert a + "/" + b == a + "/" + init + [last];
    }
  }

  lemma FirstSlash(a: string, text: string)
    requires '/' !in a && a + "/" <= text
    ensures a == text[..|a|] && text[|a|] == '/' && forall i | 0 <= i < |a| :: text[i] != '/'
  {
    assert text[|a|] == (a + "/")[|a|] && a == text[..|a|];
    forall i | 0 <= i < |a| ensures text[i] != '/' { assert a[i] in a; }
  }

  lemma SameFirst(a: string, b: string, text: string)
    requires '/' !in a && '/' !in b && a + "/" <= text && b + "/" <= text
    ensures a == b
  {
    FirstSlash(a, text);
    FirstSlash(b, text);
  }
}
