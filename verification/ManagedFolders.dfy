/** The folder tree of managed uploads and the re-keying of a moved subtree (internal/api/managed_folders.go). */
module ManagedFolders {
  import opened Options
  import opened Paths
  import opened Decimals

  const PATH_LIMIT: nat := 240

  predicate Forbidden(c: char) { c in "\\:\0\r\n" }

  predicate IsSpace(c: char)
  {
    c in "\t\n\r \U{b}\U{c}\U{85}\U{a0}\U{1680}\U{2028}\U{2029}\U{202f}\U{205f}\U{3000}" || '\U{2000}' <= c <= '\U{200a}'
  }

  predicate ValidPart(part: string)
  {
    part != "" && part != "." && part != ".." && !IsSpace(part[0]) && !IsSpace(part[|part| - 1])
  }

  /** `uploadPath`: the folder below the user's root, or `None` for an invalid one. */
  function UploadPath(uid: nat, relative: string): Option<string>
  {
    if |relative| > PATH_LIMIT || exists c | c in relative :: Forbidden(c) then None
    else if relative != "" && exists part | part in Split(relative) :: !ValidPart(part) then None
    else if relative == "" then Some(UserRoot(uid))
    else Some(UserRoot(uid) + "/" + relative)
  }

  type Grant = (nat, string)

  /**
   The tables of the uploads library: folders with their owner, grants of a
   folder to a user with their label, assets with their folder, and the folders
   of unfinished transfers.
   */
  datatype State = State(folders: map<string, nat>, grants: map<Grant, string>, assets: map<nat, string>, transfers: set<Grant>)

  ghost predicate Closed(folders: set<string>)
  {
    forall p, a | p in folders && Ancestor(a, p) :: a in folders
  }

  /** Every asset and every grant, except whole-library ones, is in a folder of the tree. */
  ghost predicate Inv(s: State)
  {
    && Closed(s.folders.Keys)
    && (forall g | g in s.grants :: g.1 == "" || g.1 in s.folders)
    && (forall id | id in s.assets :: s.assets[id] in s.folders)
    && "" !in s.folders
  }

  /** `INSERT OR IGNORE` of every path of a set. */
  function WithFolders(folders: map<string, nat>, paths: set<string>, uid: nat): map<string, nat>
  {
    (map p | p in paths :: uid) + folders
  }

  function WithGrant(grants: map<Grant, string>, g: Grant, text: string): map<Grant, string>
  {
    if g in grants then grants else grants[g := text]
  }

  /** `ensureUploadFolder` */
  function Ensured(s: State, uid: nat, path: string): State
  {
    s.(folders := WithFolders(s.folders, Prefixes(Split(path)), uid),
       grants := WithGrant(s.grants, (uid, Split(path)[0]), "My uploads"))
  }

  /** `target || substr(p, length(source) + 1)` where `p` is the source or below it. */
  function Rekey(p: string, source: string, target: string): string
  {
    if Under(p, source) then target + p[|source|..] else p
  }

  /** What a move needs of the tree: the source is in it, the target is not, and the target is not below the source. */
  ghost predicate CanMove(folders: set<string>, source: string, target: string)
  {
    Closed(folders) && source in folders && target !in folders && target != "" && source != "" && !Under(target, source) && "" !in folders
  }

  lemma NothingBelowTarget(folders: set<string>, source: string, target: string, p: string)
    requires CanMove(folders, source, target) && (p in folders || p == "")
    ensures !Under(p, target)
  {
    UnderIsAncestor(p, target);
  }

  lemma SourceStaysApart(folders: set<string>, source: string, target: string)
    requires CanMove(folders, source, target)
    ensures !Under(source, target)
  {
    UnderIsAncestor(source, target);
  }

  lemma SuffixUnder(base: string, p: string, other: string)
    requires Under(p, base)
    ensures Under(other + p[|base|..], other)
  {
    if p != base {
      assert p[|base|..][0] == p[..|base| + 1][|base|] == '/';
      assert (other + p[|base|..])[..|other| + 1] == other + "/";
    }
  }

  /** No two paths of the tree are moved to the same place. */
  lemma RekeyInjective(folders: set<string>, source: string, target: string, p: string, q: string)
    requires CanMove(folders, source, target)
    requires (p in folders || p == "") && (q in folders || q == "")
    requires Rekey(p, source, target) == Rekey(q, source, target)
    ensures p == q
  {
    NothingBelowTarget(folders, source, target, p);
    NothingBelowTarget(folders, source, target, q);
    if Under(p, source) { SuffixUnder(source, p, target); }
    if Under(q, source) { SuffixUnder(source, q, target); }
    if Under(p, source) && Under(q, source) {
      assert p == source + p[|source|..] && q == source + q[|source|..];
      assert (target + p[|source|..])[|target|..] == (target + q[|source|..])[|target|..];
    }
  }

  /** Moving a path there and back again changes nothing. */
  lemma RekeyBack(folders: set<string>, source: string, target: string, p: string)
    requires CanMove(folders, source, target) && (p in folders || p == "")
    ensures Rekey(Rekey(p, source, target), target, source) == p
  {
    NothingBelowTarget(folders, source, target, p);
    if Under(p, source) {
      SuffixUnder(source, p, target);
      assert (target + p[|source|..])[|target|..] == p[|source|..];
    }
  }

  lemma SamePrefix(base: string, x: string, y: string)
    ensures Under(base + y, base + x) <==> y == x || x + "/" <= y
  {
    assert (base + x) + "/" == base + (x + "/");
    if x + "/" <= y {
      assert (base + y)[..|base| + |x| + 1] == base + y[..|x| + 1];
    }
    if base + (x + "/") <= base + y {
      assert (base + y)[..|base| + |x| + 1][|base|..] == y[..|x| + 1];
      assert (base + (x + "/"))[|base|..] == x + "/";
    }
    if base + y == base + x {
      assert (base + y)[|base|..] == (base + x)[|base|..];
    }
  }

  /** A grant inside the moved subtree covers a moved folder exactly when it did before. */
  lemma InsideCoverage(folders: set<string>, source: string, target: string, g: string, f: string)
    requires CanMove(folders, source, target) && Under(g, source) && Under(f, source)
    ensures Covers(Rekey(g, source, target), Rekey(f, source, target)) <==> Covers(g, f)
  {
    var x, y := g[|source|..], f[|source|..];
    assert g == source + x && f == source + y;
    SamePrefix(source, x, y);
    SamePrefix(target, x, y);
    assert target + x != "";
  }

  /** A grant inside the moved subtree still covers nothing outside it. */
  lemma OutsideUncovered(folders: set<string>, source: string, target: string, g: string, f: string)
    requires CanMove(folders, source, target) && Under(g, source) && f in folders && !Under(f, source)
    ensures !Covers(g, f) && !Covers(Rekey(g, source, target), f)
  {
    if Under(f, g) { UnderTransitive(f, g, source); }
    SuffixUnder(source, g, target);
    NothingBelowTarget(folders, source, target, f);
    if Under(f, target + g[|source|..]) { UnderTransitive(f, target + g[|source|..], target); }
  }

  /** A grant outside the moved subtree covers a moved folder exactly when it covers the target. */
  lemma InheritedCoverage(folders: set<string>, source: string, target: string, g: string, f: string)
    requires CanMove(folders, source, target) && (g in folders || g == "") && !Under(g, source) && Under(f, source)
    ensures Covers(g, Rekey(f, source, target)) <==> Covers(g, target)
  {
    if g != "" {
      var h := Rekey(f, source, target);
      SuffixUnder(source, f, target);
      NothingBelowTarget(folders, source, target, g);
      if Under(target, g) { UnderTransitive(h, target, g); }
      if Under(h, g) { UnderComparable(h, g, target); }
    }
  }

  function RekeyedSet(folders: set<string>, source: string, target: string): set<string>
  {
    set p | p in folders :: Rekey(p, source, target)
  }

  lemma AncestorOfMoved(folders: set<string>, source: string, target: string, p: string, a: string)
    requires CanMove(folders, source, target) && (forall b | Ancestor(b, target) :: b in folders)
    requires p in folders && Under(p, source) && Ancestor(a, Rekey(p, source, target))
    ensures a in RekeyedSet(folders, source, target)
  {
    var y := p[|source|..];
    var q := target + y;
    if |a| < |target| {
      assert a == target[..|a|];
      assert Ancestor(a, target);
      if Under(a, source) {
        UnderIsAncestor(target, a);
        UnderTransitive(target, a, source);
      }
      assert Rekey(a, source, target) == a;
    } else {
      var b := source + y[..|a| - |target|];
      assert b == p[..|b|] && p[|b|] == q[|a|];
      assert Ancestor(b, p);
      if b != source {
        UnderIsAncestor(p, source);
        assert p[..|source| + 1] == source + "/";
        assert b[..|source| + 1] == p[..|source| + 1];
      }
      assert Under(b, source);
      assert Rekey(b, source, target) == target + y[..|a| - |target|] == a;
    }
  }

  lemma RekeyedClosed(folders: set<string>, source: string, target: string)
    requires CanMove(folders, source, target) && (forall a | Ancestor(a, target) :: a in folders)
    ensures Closed(RekeyedSet(folders, source, target))
  {
    var image := RekeyedSet(folders, source, target);
    forall q, a | q in image && Ancestor(a, q)
      ensures a in image
    {
      var p :| p in folders && Rekey(p, source, target) == q;
      if !Under(p, source) {
        assert a in folders;
        if Under(a, source) {
          UnderIsAncestor(p, a);
          UnderTransitive(p, a, source);
        }
        assert Rekey(a, source, target) == a;
      } else {
        AncestorOfMoved(folders, source, target, p, a);
      }
    }
  }

  /** `target[:strings.LastIndex(target, "/")]` */
  function Parent(p: string): string
  {
    if p == "" then "" else if p[|p| - 1] == '/' then p[..|p| - 1] else Parent(p[..|p| - 1])
  }

  lemma {:induction false} ParentIsAncestor(p: string)
    requires '/' in p
    ensures Ancestor(Parent(p), p)
    ensures forall a | Ancestor(a, p) :: a == Parent(p) || Ancestor(a, Parent(p))
  {
    var q, c := p[..|p| - 1], p[|p| - 1];
    assert p == q + [c];
    forall a
      ensures Ancestor(a, p) <==> Ancestor(a, q) || (c == '/' && a == q)
    {
      AncestorOfLonger(a, q, c);
    }
    if c != '/' {
      ParentIsAncestor(q);
    }
  }

  function RekeyAssets(assets: map<nat, string>, source: string, target: string): map<nat, string>
  {
    map id | id in assets :: Rekey(assets[id], source, target)
  }

  function RekeyGrant(g: Grant, source: string, target: string): Grant { (g.0, Rekey(g.1, source, target)) }

  function RekeyGrants(grants: map<Grant, string>, source: string, target: string): map<Grant, string>
    requires forall g, h | g in grants && h in grants && RekeyGrant(g, source, target) == RekeyGrant(h, source, target) :: g == h
  {
    map g | g in grants :: RekeyGrant(g, source, target) := grants[g]
  }

  function RekeyFolders(folders: map<string, nat>, source: string, target: string): map<string, nat>
    requires forall p, q | p in folders && q in folders && Rekey(p, source, target) == Rekey(q, source, target) :: p == q
  {
    map p | p in folders :: Rekey(p, source, target) := folders[p]
  }

  lemma RekeyIsInjective(s: State, source: string, target: string)
    requires Inv(s) && CanMove(s.folders.Keys, source, target)
    ensures forall p, q | p in s.folders && q in s.folders && Rekey(p, source, target) == Rekey(q, source, target) :: p == q
    ensures forall g, h | g in s.grants && h in s.grants && RekeyGrant(g, source, target) == RekeyGrant(h, source, target) :: g == h
  {
    forall p, q | p in s.folders && q in s.folders && Rekey(p, source, target) == Rekey(q, source, target)
      ensures p == q
    {
      RekeyInjective(s.folders.Keys, source, target, p, q);
    }
    forall g, h | g in s.grants && h in s.grants && RekeyGrant(g, source, target) == RekeyGrant(h, source, target)
      ensures g == h
    {
      RekeyInjective(s.folders.Keys, source, target, g.1, h.1);
    }
  }

  /** The three `UPDATE` statements of a move. */
  function Moved(s: State, source: string, target: string): State
    requires Inv(s) && CanMove(s.folders.Keys, source, target)
  {
    RekeyIsInjective(s, source, target);
    s.(assets := RekeyAssets(s.assets, source, target),
       grants := RekeyGrants(s.grants, source, target),
       folders := RekeyFolders(s.folders, source, target))
  }

  lemma {:induction false} FirstOfPrefixes(parts: seq<string>)
    requires parts != []
    ensures parts[0] in Prefixes(parts)
  {
    if |parts| == 1 {
      assert Join(parts) == parts[0];
    } else {
      FirstOfPrefixes(parts[..|parts| - 1]);
    }
  }

  /** The first part of a path is the path or one of its ancestors. */
  lemma {:induction false} FirstPart(path: string)
    ensures Split(path)[0] in Prefixes(Split(path))
  {
    FirstOfPrefixes(Split(path));
  }

  /** Ensuring a folder adds exactly the folder and its ancestors, and keeps the tree closed. */
  lemma EnsuredKeepsTree(s: State, uid: nat, path: string)
    requires Inv(s) && path != "" && path[0] != '/'
    ensures Inv(Ensured(s, uid, path))
    ensures forall p :: p in Ensured(s, uid, path).folders <==> p in s.folders || p == path || Ancestor(p, path)
    ensures forall p | p in s.folders :: Ensured(s, uid, path).folders[p] == s.folders[p]
  {
    PrefixesAreAncestors(path);
    var t := Ensured(s, uid, path);
    forall p, a | p in t.folders && Ancestor(a, p)
      ensures a in t.folders
    {
      if p !in s.folders && p != path {
        assert Ancestor(a, path);
      }
    }
    FirstPart(path);
  }

  lemma MovedKeepsTree(s: State, source: string, target: string)
    requires Inv(s) && CanMove(s.folders.Keys, source, target)
    requires '/' in target && Parent(target) in s.folders
    ensures Inv(Moved(s, source, target))
    ensures target in Moved(s, source, target).folders && source !in Moved(s, source, target).folders
    ensures Moved(s, source, target).folders[target] == s.folders[source]
  {
    var t := Moved(s, source, target);
    ParentIsAncestor(target);
    assert t.folders.Keys == RekeyedSet(s.folders.Keys, source, target);
    RekeyedClosed(s.folders.Keys, source, target);
    assert Rekey(source, source, target) == target;
    SourceStaysApart(s.folders.Keys, source, target);
    forall p | p in s.folders
      ensures Rekey(p, source, target) != source && Rekey(p, source, target) != ""
    {
      if Under(p, source) { SuffixUnder(source, p, target); }
    }
  }

  // ---- Who can see what ----

  /** `access.grant`: the user holds a grant that covers the folder. */
  ghost predicate Granted(s: State, user: nat, folder: string)
  {
    exists g | g in s.grants && g.0 == user :: Covers(g.1, folder)
  }

  /** Access to folders outside the moved subtree does not change. */
  lemma OutsideAccess(s: State, source: string, target: string, user: nat, f: string)
    requires Inv(s) && CanMove(s.folders.Keys, source, target)
    requires f in s.folders && !Under(f, source)
    ensures Granted(Moved(s, source, target), user, f) <==> Granted(s, user, f)
  {
    var t := Moved(s, source, target);
    forall g | g in s.grants
      ensures RekeyGrant(g, source, target) in t.grants && (Covers(Rekey(g.1, source, target), f) <==> Covers(g.1, f))
    {
      if Under(g.1, source) { OutsideUncovered(s.folders.Keys, source, target, g.1, f); }
    }
    if Granted(s, user, f) {
      var g :| g in s.grants && g.0 == user && Covers(g.1, f);
      assert RekeyGrant(g, source, target) in t.grants;
    }
    if Granted(t, user, f) {
      var h :| h in t.grants && h.0 == user && Covers(h.1, f);
      var g :| g in s.grants && RekeyGrant(g, source, target) == h;
    }
  }

  /** A moved folder keeps the grants inside the subtree, and inherits from the ancestors of the target instead. */
  lemma InsideAccess(s: State, source: string, target: string, user: nat, f: string)
    requires Inv(s) && CanMove(s.folders.Keys, source, target)
    requires f in s.folders && Under(f, source)
    ensures Granted(Moved(s, source, target), user, Rekey(f, source, target)) <==>
            || (exists g | g in s.grants && g.0 == user && Under(g.1, source) :: Covers(g.1, f))
            || (exists g | g in s.grants && g.0 == user && !Under(g.1, source) :: Covers(g.1, target))
  {
    var t, h := Moved(s, source, target), Rekey(f, source, target);
    forall g | g in s.grants
      ensures RekeyGrant(g, source, target) in t.grants
      ensures Covers(Rekey(g.1, source, target), h) <==> Covers(g.1, if Under(g.1, source) then f else target)
    {
      if Under(g.1, source) {
        InsideCoverage(s.folders.Keys, source, target, g.1, f);
      } else {
        InheritedCoverage(s.folders.Keys, source, target, g.1, f);
      }
    }
    if Granted(t, user, h) {
      var k :| k in t.grants && k.0 == user && Covers(k.1, h);
      var g :| g in s.grants && RekeyGrant(g, source, target) == k;
    }
    forall g | g in s.grants && g.0 == user && Covers(g.1, if Under(g.1, source) then f else target)
      ensures Granted(t, user, h)
    {
      assert RekeyGrant(g, source, target) in t.grants;
    }
  }

  lemma MovedFacts(s: State, source: string, target: string)
    requires Inv(s) && CanMove(s.folders.Keys, source, target)
    ensures var t := Moved(s, source, target);
            && (forall p | p in s.folders :: Rekey(p, source, target) in t.folders && t.folders[Rekey(p, source, target)] == s.folders[p])
            && (forall p | p in t.folders :: exists q | q in s.folders :: p == Rekey(q, source, target))
    ensures var t := Moved(s, source, target);
            && (forall g | g in s.grants :: RekeyGrant(g, source, target) in t.grants && t.grants[RekeyGrant(g, source, target)] == s.grants[g])
            && (forall g | g in t.grants :: exists h | h in s.grants :: g == RekeyGrant(h, source, target))
    ensures var t := Moved(s, source, target);
            && t.assets.Keys == s.assets.Keys && (forall id | id in s.assets :: t.assets[id] == Rekey(s.assets[id], source, target))
            && t.transfers == s.transfers
  {
    hide Rekey;
    RekeyIsInjective(s, source, target);
  }

  lemma MoveIsReversible(s: State, source: string, target: string)
    requires Inv(s) && CanMove(s.folders.Keys, source, target)
    requires '/' in target && Parent(target) in s.folders
    ensures Inv(Moved(s, source, target)) && CanMove(Moved(s, source, target).folders.Keys, target, source)
  {
    hide Moved;
    MovedKeepsTree(s, source, target);
    SourceStaysApart(s.folders.Keys, source, target);
  }

  lemma BackTwice(s: State, source: string, target: string)
    requires Inv(s) && CanMove(s.folders.Keys, source, target)
    ensures forall p | p in s.folders :: Rekey(Rekey(p, source, target), target, source) == p
    ensures forall g | g in s.grants :: Rekey(Rekey(g.1, source, target), target, source) == g.1
    ensures forall id | id in s.assets :: Rekey(Rekey(s.assets[id], source, target), target, source) == s.assets[id]
  {
    hide Rekey;
    forall p | p in s.folders || p == ""
      ensures Rekey(Rekey(p, source, target), target, source) == p
    {
      RekeyBack(s.folders.Keys, source, target, p);
    }
  }

  lemma FoldersBack(s: State, t: State, u: State, source: string, target: string)
    requires forall p | p in s.folders :: Rekey(Rekey(p, source, target), target, source) == p
    requires forall p | p in s.folders :: Rekey(p, source, target) in t.folders && t.folders[Rekey(p, source, target)] == s.folders[p]
    requires forall p | p in t.folders :: Rekey(p, target, source) in u.folders && u.folders[Rekey(p, target, source)] == t.folders[p]
    requires forall p | p in t.folders :: exists q | q in s.folders :: p == Rekey(q, source, target)
    requires forall p | p in u.folders :: exists q | q in t.folders :: p == Rekey(q, target, source)
    ensures u.folders == s.folders
  {
    forall p | p in s.folders
      ensures p in u.folders && u.folders[p] == s.folders[p]
    {
      assert Rekey(p, source, target) in t.folders;
    }
    forall p | p in u.folders
      ensures p in s.folders
    {
      var q :| q in t.folders && p == Rekey(q, target, source);
      var r :| r in s.folders && q == Rekey(r, source, target);
    }
  }

  lemma GrantsBack(s: State, t: State, u: State, source: string, target: string)
    requires forall g | g in s.grants :: Rekey(Rekey(g.1, source, target), target, source) == g.1
    requires forall g | g in s.grants :: RekeyGrant(g, source, target) in t.grants && t.grants[RekeyGrant(g, source, target)] == s.grants[g]
    requires forall g | g in t.grants :: RekeyGrant(g, target, source) in u.grants && u.grants[RekeyGrant(g, target, source)] == t.grants[g]
    requires forall g | g in t.grants :: exists h | h in s.grants :: g == RekeyGrant(h, source, target)
    requires forall g | g in u.grants :: exists h | h in t.grants :: g == RekeyGrant(h, target, source)
    ensures u.grants == s.grants
  {
    forall g | g in s.grants
      ensures g in u.grants && u.grants[g] == s.grants[g]
    {
      var h := RekeyGrant(g, source, target);
      assert h in t.grants && RekeyGrant(h, target, source) == g;
    }
    forall g | g in u.grants
      ensures g in s.grants
    {
      var h :| h in t.grants && g == RekeyGrant(h, target, source);
      var k :| k in s.grants && h == RekeyGrant(k, source, target);
      assert RekeyGrant(RekeyGrant(k, source, target), target, source) == k;
    }
  }

  /** Moving the subtree back restores every table. */
  lemma MoveBack(s: State, source: string, target: string)
    requires Inv(s) && CanMove(s.folders.Keys, source, target)
    requires '/' in target && Parent(target) in s.folders
    ensures Inv(Moved(s, source, target)) && CanMove(Moved(s, source, target).folders.Keys, target, source)
    ensures Moved(Moved(s, source, target), target, source) == s
  {
    hide Moved;
    hide Rekey;
    hide Inv;
    hide CanMove;
    hide Ancestor;
    hide Under;
    hide RekeyFolders;
    hide RekeyGrants;
    hide RekeyAssets;
    MovedKeepsTree(s, source, target);
    MoveIsReversible(s, source, target);
    var t := Moved(s, source, target);
    MovedFacts(s, source, target);
    MovedFacts(t, target, source);
    BackTwice(s, source, target);
    FoldersBack(s, t, Moved(t, target, source), source, target);
    GrantsBack(s, t, Moved(t, target, source), source, target);
  }

  /** The replies of `manageFolder`. */
  datatype Reply = Done | BadRequest | NotFound | Conflict

  /** The tables after `manageFolder` made sure of the user's root, and of the parent of the target. */
  function Prepared(s: State, uid: nat, target: string): State
  {
    Ensured(Ensured(s, uid, UserRoot(uid)), uid, Parent(target))
  }

  /** An unfinished transfer of the user goes to the folder or below it. */
  predicate Transferring(s: State, uid: nat, source: string)
  {
    exists x | x in s.transfers :: x.0 == uid && Under(x.1, source)
  }

  /** When `manageFolder` moves `source` to `target`. */
  predicate MoveAllowed(s: State, uid: nat, source: string, target: string)
  {
    && source in s.folders && s.folders[source] == uid && !Transferring(s, uid, source)
    && source != UserRoot(uid) && target != UserRoot(uid) && !Under(target, source)
    && target !in s.folders
  }

  // ---- Whose folders ----

  /** The folder is the root of this user or below it. */
  predicate Own(uid: nat, p: string)
  {
    p == "user-" + Decimal(uid) || "user-" + Decimal(uid) + "/" <= p
  }

  lemma ForbiddenIs(c: char)
    ensures Forbidden(c) <==> c == '\\' || c == ':' || c == '\0' || c == '\r' || c == '\n'
  {
    var special := "\\:\0\r\n";
    assert special[0] in special && special[1] in special && special[2] in special && special[3] in special && special[4] in special;
  }

  /** Which folders a request may name. */
  lemma UploadPathExactly(uid: nat, relative: string)
    ensures UploadPath(uid, relative).Some? <==>
              && |relative| <= 240 && (forall c | c in relative :: c != '\\' && c != ':' && c != '\0' && c != '\r' && c != '\n')
              && (relative == "" || forall part | part in Split(relative) ::
                    part != "" && part != "." && part != ".." && !IsSpace(part[0]) && !IsSpace(part[|part| - 1]))
  {
    hide IsSpace;
    hide Split;
    hide Forbidden;
    forall c { ForbiddenIs(c); }
  }

  /** Each of them is the user's own root or a folder below it. */
  lemma UploadPathIsOwn(uid: nat, relative: string)
    requires UploadPath(uid, relative).Some?
    ensures var p := UploadPath(uid, relative).value;
            && Own(uid, p) && (p == "user-" + Decimal(uid) <==> relative == "")
            && (relative != "" ==> p == "user-" + Decimal(uid) + "/" + relative && Split(p) == ["user-" + Decimal(uid)] + Split(relative))
  {
    hide IsSpace;
    hide Split;
    SplitFirst(UserRoot(uid), relative);
  }

  lemma OwnerIsUnique(a: nat, b: nat, p: string)
    requires Own(a, p) && Own(b, p)
    ensures a == b
  {
    UserRootsDiffer(a, b);
    SameFirst(UserRoot(a), UserRoot(b), p + "/");
  }

  /** Different users and different texts never name the same folder. */
  lemma UploadPathInjective(a: nat, x: string, b: nat, y: string)
    requires UploadPath(a, x).Some? && UploadPath(a, x) == UploadPath(b, y)
    ensures a == b && x == y
  {
    UploadPathIsOwn(a, x);
    UploadPathIsOwn(b, y);
    OwnerIsUnique(a, b, UploadPath(a, x).value);
    var root := UserRoot(a);
    if x != "" && y != "" {
      assert x == (root + "/" + x)[|root| + 1..] && y == (root + "/" + y)[|root| + 1..];
    }
  }

  lemma OwnAncestor(uid: nat, a: string, p: string)
    requires Own(uid, p) && Ancestor(a, p)
    ensures Own(uid, a)
  {
    var root := UserRoot(uid);
    FirstSlash(root, p + "/");
    assert p[|a|] == '/' && (p + "/")[|a|] == '/';
    if |a| > |root| {
      assert a[..|root| + 1] == p[..|root| + 1];
    }
  }

  /** Folders, assets and grants outside the user's own tree are as before, and nothing leaves or enters that tree. */
  ghost predicate OthersKept(s: State, t: State, uid: nat)
  {
    && (forall p | !Own(uid, p) :: (p in s.folders <==> p in t.folders) && (p in s.folders ==> t.folders[p] == s.folders[p]))
    && s.assets.Keys == t.assets.Keys
    && (forall id | id in s.assets :: if Own(uid, s.assets[id]) then Own(uid, t.assets[id]) else t.assets[id] == s.assets[id])
    && (forall g: Grant | !Own(uid, g.1) :: (g in s.grants <==> g in t.grants) && (g in s.grants ==> t.grants[g] == s.grants[g]))
    && t.transfers == s.transfers
  }

  lemma OthersTrans(s: State, t: State, u: State, uid: nat)
    requires OthersKept(s, t, uid) && OthersKept(t, u, uid)
    ensures OthersKept(s, u, uid)
  {
  }

  lemma EnsuredOthers(s: State, uid: nat, path: string)
    requires Own(uid, path)
    ensures OthersKept(s, Ensured(s, uid, path), uid)
  {
    var root := UserRoot(uid);
    assert root[0] == 'u' && path[0] == root[0];
    PrefixesAreAncestors(path);
    forall a | a in Prefixes(Split(path)) ensures Own(uid, a) {
      if a != path {
        OwnAncestor(uid, a, path);
      }
    }
    FirstPart(path);
  }

  lemma NobodyChanged(s: State, uid: nat)
    ensures OthersKept(s, s, uid)
  {
  }

  /** Giving or taking away a grant on one of the user's own folders. */
  lemma GrantOthers(s: State, uid: nat, recipient: nat, p: string, text: string)
    requires Own(uid, p)
    ensures OthersKept(s, s.(grants := s.grants[(recipient, p) := text]), uid)
    ensures OthersKept(s, s.(grants := s.grants - {(recipient, p)}), uid)
  {
  }

  lemma RootEnsured(s: State, uid: nat)
    requires Inv(s)
    ensures var t, root := Ensured(s, uid, UserRoot(uid)), UserRoot(uid);
            && t.folders == (if root in s.folders then s.folders else s.folders[root := uid]) && t.assets == s.assets
            && t.transfers == s.transfers
  {
    var root := UserRoot(uid);
    assert root[0] == 'u';
    EnsuredKeepsTree(s, uid, root);
    FirstSlash(root, root + "/");
    var t := Ensured(s, uid, root);
    assert forall i | 0 <= i < |root| :: root[i] == (root + "/")[i];
    assert forall a :: !Ancestor(a, root);
    assert forall p | p in t.folders && p !in s.folders :: t.folders[p] == uid;
  }

  /** The folder can be made: it is no root, and does not exist. */
  predicate Creatable(s: State, uid: nat, path: string)
  {
    UploadPath(uid, path).Some? && path != "" && "user-" + Decimal(uid) + "/" + path !in s.folders
  }

  lemma CreatableMeans(s: State, uid: nat, path: string)
    requires Inv(s) && UploadPath(uid, path).Some?
    ensures UploadPath(uid, path).value !in Ensured(s, uid, UserRoot(uid)).folders <==> Creatable(s, uid, path)
  {
    RootEnsured(s, uid);
    UploadPathIsOwn(uid, path);
    hide UploadPath;
    hide Ensured;
  }

  /** The folder is there and is the user's, nothing is being uploaded to it, and its new place is free and not inside it. */
  predicate Movable(s: State, uid: nat, path: string, destination: string)
  {
    && UploadPath(uid, path).Some? && UploadPath(uid, destination).Some? && path != "" && destination != ""
    && var p, q := "user-" + Decimal(uid) + "/" + path, "user-" + Decimal(uid) + "/" + destination;
       && p in s.folders && s.folders[p] == uid && q !in s.folders && p != q && !(p + "/" <= q)
       && forall x | x in s.transfers && x.0 == uid :: x.1 != p && !(p + "/" <= x.1)
  }

  lemma MovableMeans(s: State, uid: nat, path: string, destination: string)
    requires Inv(s) && UploadPath(uid, path).Some? && UploadPath(uid, destination).Some?
    ensures MoveAllowed(Ensured(s, uid, UserRoot(uid)), uid, UploadPath(uid, path).value, UploadPath(uid, destination).value)
            <==> Movable(s, uid, path, destination)
  {
    RootEnsured(s, uid);
    UploadPathIsOwn(uid, path);
    UploadPathIsOwn(uid, destination);
    hide UploadPath;
    hide Ensured;
  }

  /** Where a folder, or the folder of an asset or a grant, is after the move of `p` to `q`. */
  predicate Follows(old_path: string, new_path: string, p: string, q: string)
  {
    if old_path == p || p + "/" <= old_path then new_path == q + old_path[|p|..] else new_path == old_path
  }

  /** Everything in the moved folder is below its new place, and everything else stays; new are only ancestors of that place. */
  ghost predicate TreeMoved(s: State, t: State, p: string, q: string)
  {
    && (forall f | f in s.folders :: exists g | g in t.folders :: Follows(f, g, p, q) && t.folders[g] == s.folders[f])
    && (forall g | g in t.folders :: Ancestor(g, q) || exists f | f in s.folders :: Follows(f, g, p, q))
    && t.assets.Keys == s.assets.Keys && (forall id | id in s.assets :: Follows(s.assets[id], t.assets[id], p, q))
    && (forall g: Grant | g in s.grants :: exists h: Grant | h in t.grants :: h.0 == g.0 && Follows(g.1, h.1, p, q) && t.grants[h] == s.grants[g])
  }

  /** Nobody got a grant but the user, on their own root. */
  ghost predicate OnlyOwnRoot(s: State, t: State, uid: nat)
  {
    forall g: Grant | g in t.grants && g !in s.grants :: g == (uid, "user-" + Decimal(uid)) && t.grants[g] == "My uploads"
  }

  /** Every grant is one that was there, on the same folder where it is now, or the user's on their own root. */
  ghost predicate GrantsMoved(s: State, t: State, uid: nat, p: string, q: string)
  {
    forall h: Grant | h in t.grants ::
      h == (uid, "user-" + Decimal(uid)) || exists g: Grant | g in s.grants :: g.0 == h.0 && Follows(g.1, h.1, p, q) && s.grants[g] == t.grants[h]
  }

  lemma EnsuredOwnRoot(s: State, uid: nat, path: string)
    requires Own(uid, path)
    ensures OnlyOwnRoot(s, Ensured(s, uid, path), uid) && (uid, "user-" + Decimal(uid)) in Ensured(s, uid, path).grants
    ensures forall g: Grant | g in s.grants :: g in Ensured(s, uid, path).grants && Ensured(s, uid, path).grants[g] == s.grants[g]
  {
    var root := UserRoot(uid);
    if path == root {
      SplitPlain(root);
    } else {
      SplitFirst(root, path[|root| + 1..]);
      assert path == root + "/" + path[|root| + 1..];
    }
    assert Split(path)[0] == root;
  }

  lemma PreparedOwnRoot(s: State, uid: nat, q: string)
    requires Own(uid, q) && q != UserRoot(uid)
    ensures forall g: Grant | g in Prepared(s, uid, q).grants && g !in s.grants :: g == (uid, "user-" + Decimal(uid))
    ensures forall g: Grant | g in s.grants :: g in Prepared(s, uid, q).grants && Prepared(s, uid, q).grants[g] == s.grants[g]
  {
    var root := UserRoot(uid);
    assert q[|root|] == '/';
    ParentIsAncestor(q);
    OwnAncestor(uid, Parent(q), q);
    EnsuredOwnRoot(s, uid, root);
    EnsuredOwnRoot(Ensured(s, uid, root), uid, Parent(q));
  }

  lemma RootStays(uid: nat, p: string, q: string)
    requires Own(uid, p) && p != UserRoot(uid)
    ensures Rekey(UserRoot(uid), p, q) == UserRoot(uid)
  {
    assert |p| > |UserRoot(uid)|;
  }

  lemma RekeyFollows(x: string, p: string, q: string)
    ensures Follows(x, Rekey(x, p, q), p, q)
  {
  }

  lemma GrantsCome(s: State, uid: nat, p: string, q: string)
    requires Inv(Prepared(s, uid, q)) && CanMove(Prepared(s, uid, q).folders.Keys, p, q) && Own(uid, p) && p != UserRoot(uid)
    requires Own(uid, q) && q != UserRoot(uid)
    ensures GrantsMoved(s, Moved(Prepared(s, uid, q), p, q), uid, p, q)
  {
    hide Rekey;
    hide Follows;
    var r := Prepared(s, uid, q);
    PreparedOwnRoot(s, uid, q);
    RekeyIsInjective(r, p, q);
    RootStays(uid, p, q);
    forall h: Grant | h in Moved(r, p, q).grants
      ensures h == (uid, "user-" + Decimal(uid))
              || exists g: Grant | g in s.grants :: g.0 == h.0 && Follows(g.1, h.1, p, q) && s.grants[g] == Moved(r, p, q).grants[h]
    {
      var g: Grant :| g in r.grants && RekeyGrant(g, p, q) == h && Moved(r, p, q).grants[h] == r.grants[g];
      RekeyFollows(g.1, p, q);
    }
  }

  /** Only ancestors of `q` and grants came to `s`. */
  ghost predicate MadeReady(s: State, r: State, q: string)
  {
    && (forall f | f in s.folders :: f in r.folders && r.folders[f] == s.folders[f])
    && (forall f | f in r.folders && f !in s.folders :: Ancestor(f, q))
    && r.assets == s.assets && (forall g: Grant | g in s.grants :: g in r.grants && r.grants[g] == s.grants[g])
  }

  lemma ReadyStays(f: string, p: string, q: string)
    requires Ancestor(f, q) && !Under(q, p)
    ensures Rekey(f, p, q) == f
  {
    UnderIsAncestor(q, f);
    if Under(f, p) { UnderTransitive(q, f, p); }
  }

  lemma FoldersMove(s: State, r: State, p: string, q: string)
    requires Inv(r) && CanMove(r.folders.Keys, p, q) && MadeReady(s, r, q)
    ensures var t := Moved(r, p, q);
            && (forall f | f in s.folders :: Rekey(f, p, q) in t.folders && t.folders[Rekey(f, p, q)] == s.folders[f])
            && (forall g | g in t.folders :: exists f :: f in r.folders && Rekey(f, p, q) == g)
  {
    hide Rekey;
    RekeyIsInjective(r, p, q);
  }

  lemma GrantsMove(s: State, r: State, p: string, q: string)
    requires Inv(r) && CanMove(r.folders.Keys, p, q) && MadeReady(s, r, q)
    ensures var t := Moved(r, p, q);
            && t.assets == RekeyAssets(s.assets, p, q)
            && forall g: Grant | g in s.grants :: (g.0, Rekey(g.1, p, q)) in t.grants && t.grants[(g.0, Rekey(g.1, p, q))] == s.grants[g]
  {
    hide Rekey;
    RekeyIsInjective(r, p, q);
    forall g: Grant | g in s.grants
      ensures (g.0, Rekey(g.1, p, q)) in Moved(r, p, q).grants && Moved(r, p, q).grants[(g.0, Rekey(g.1, p, q))] == s.grants[g]
    {
      assert RekeyGrant(g, p, q) == (g.0, Rekey(g.1, p, q));
    }
  }

  lemma FoldersFollow(s: State, r: State, p: string, q: string)
    requires Inv(r) && CanMove(r.folders.Keys, p, q) && MadeReady(s, r, q)
    ensures var t := Moved(r, p, q);
            && (forall f | f in s.folders :: exists g | g in t.folders :: Follows(f, g, p, q) && t.folders[g] == s.folders[f])
            && (forall g | g in t.folders :: Ancestor(g, q) || exists f | f in s.folders :: Follows(f, g, p, q))
  {
    FoldersMove(s, r, p, q);
    forall x ensures Follows(x, Rekey(x, p, q), p, q) { RekeyFollows(x, p, q); }
    hide Inv;
    hide Moved;
    hide Follows;
    hide Rekey;
    var t := Moved(r, p, q);
    forall g | g in t.folders ensures Ancestor(g, q) || exists f | f in s.folders :: Follows(f, g, p, q) {
      var f :| f in r.folders && Rekey(f, p, q) == g;
      if f !in s.folders { ReadyStays(f, p, q); }
    }
  }

  lemma ReadyMoves(s: State, r: State, p: string, q: string)
    requires Inv(r) && CanMove(r.folders.Keys, p, q) && MadeReady(s, r, q)
    ensures TreeMoved(s, Moved(r, p, q), p, q)
  {
    FoldersFollow(s, r, p, q);
    GrantsMove(s, r, p, q);
    forall x ensures Follows(x, Rekey(x, p, q), p, q) { RekeyFollows(x, p, q); }
    hide Inv;
    hide CanMove;
    hide MadeReady;
    hide Moved;
    hide Follows;
    hide Rekey;
    var t := Moved(r, p, q);
    forall g: Grant | g in s.grants
      ensures exists h: Grant | h in t.grants :: h.0 == g.0 && Follows(g.1, h.1, p, q) && t.grants[h] == s.grants[g]
    {
      var h := (g.0, Rekey(g.1, p, q));
      assert h in t.grants;
    }
  }

  lemma AncestorTrans(f: string, a: string, q: string)
    requires Ancestor(f, a) && Ancestor(a, q)
    ensures Ancestor(f, q)
  {
    assert q[|f|] == a[|f|] && q[..|f|] == a[..|f|];
  }

  lemma EnsuredReady(s: State, uid: nat, path: string, q: string)
    requires Inv(s) && path != "" && path[0] != '/' && Ancestor(path, q)
    ensures MadeReady(s, Ensured(s, uid, path), q) && Inv(Ensured(s, uid, path))
  {
    EnsuredKeepsTree(s, uid, path);
    forall f | Ancestor(f, path) ensures Ancestor(f, q) { AncestorTrans(f, path, q); }
  }

  lemma PreparedReady(s: State, uid: nat, q: string)
    requires Inv(s) && Own(uid, q) && q != UserRoot(uid)
    ensures MadeReady(s, Prepared(s, uid, q), q)
  {
    var root := UserRoot(uid);
    assert root[0] == 'u' && q[0] == 'u' && q[|root|] == '/';
    ParentIsAncestor(q);
    var parent := Parent(q);
    assert Ancestor(root, q) && parent != "" && parent[0] == q[0];
    EnsuredReady(s, uid, root, q);
    EnsuredReady(Ensured(s, uid, root), uid, parent, q);
  }

  lemma NotMovable(s: State, uid: nat, path: string, destination: string)
    requires UploadPath(uid, path).None? || UploadPath(uid, destination).None?
    ensures !Movable(s, uid, path, destination)
  {
  }

  lemma RekeyOwn(uid: nat, p: string, source: string, target: string)
    requires Own(uid, source) && Own(uid, target)
    ensures Own(uid, p) <==> Own(uid, Rekey(p, source, target))
    ensures !Own(uid, p) ==> Rekey(p, source, target) == p
  {
    if Under(p, source) {
      assert Own(uid, p);
      assert target <= Rekey(p, source, target);
      if p != source { assert p[|source|] == '/'; }
    }
  }

  lemma MovedOthers(s: State, uid: nat, source: string, target: string)
    requires Inv(s) && CanMove(s.folders.Keys, source, target) && Own(uid, source) && Own(uid, target)
    ensures OthersKept(s, Moved(s, source, target), uid)
  {
    RekeyIsInjective(s, source, target);
    forall p ensures (Own(uid, p) <==> Own(uid, Rekey(p, source, target))) && (!Own(uid, p) ==> Rekey(p, source, target) == p) {
      RekeyOwn(uid, p, source, target);
    }
  }

  lemma UploadPathShape(uid: nat, relative: string)
    requires UploadPath(uid, relative).Some?
    ensures var p := UploadPath(uid, relative).value; p != "" && p[0] != '/' && (p != UserRoot(uid) ==> '/' in p)
  {
    var p := UploadPath(uid, relative).value;
    var root := UserRoot(uid);
    assert root[0] == 'u' && p[0] == root[0];
    if relative != "" {
      assert p[|root|] == '/';
    }
  }

  lemma PreparedKeepsTree(s: State, uid: nat, source: string, target: string)
    requires Inv(s) && MoveAllowed(Ensured(s, uid, UserRoot(uid)), uid, source, target)
    requires target != "" && target[0] != '/' && '/' in target
    ensures Inv(Prepared(s, uid, target)) && CanMove(Prepared(s, uid, target).folders.Keys, source, target)
    ensures Parent(target) in Prepared(s, uid, target).folders
    ensures Prepared(s, uid, target).assets == s.assets
  {
    var root := UserRoot(uid);
    assert root[0] == 'u';
    EnsuredKeepsTree(s, uid, root);
    ParentIsAncestor(target);
    var p := Parent(target);
    assert p != "" && p[0] == target[0];
    EnsuredKeepsTree(Ensured(s, uid, root), uid, p);
    assert target != p && !Ancestor(target, p);
  }

  lemma PreparedOthers(s: State, uid: nat, target: string)
    requires Inv(s) && Own(uid, target) && target != UserRoot(uid)
    ensures OthersKept(s, Prepared(s, uid, target), uid)
  {
    var root := UserRoot(uid);
    assert target[|root|] == '/';
    ParentIsAncestor(target);
    OwnAncestor(uid, Parent(target), target);
    EnsuredOthers(s, uid, root);
    EnsuredOthers(Ensured(s, uid, root), uid, Parent(target));
    OthersTrans(s, Ensured(s, uid, root), Prepared(s, uid, target), uid);
  }

  lemma MoveMeans(s: State, uid: nat, source: string, target: string)
    requires Inv(s) && Own(uid, source) && Own(uid, target) && target != UserRoot(uid)
    requires Inv(Prepared(s, uid, target)) && CanMove(Prepared(s, uid, target).folders.Keys, source, target)
    ensures TreeMoved(s, Moved(Prepared(s, uid, target), source, target), source, target)
    ensures OthersKept(s, Moved(Prepared(s, uid, target), source, target), uid)
  {
    PreparedReady(s, uid, target);
    ReadyMoves(s, Prepared(s, uid, target), source, target);
    PreparedOthers(s, uid, target);
    MovedOthers(Prepared(s, uid, target), uid, source, target);
    OthersTrans(s, Prepared(s, uid, target), Moved(Prepared(s, uid, target), source, target), uid);
  }

  lemma CreatedFolder(s: State, uid: nat, p: string)
    requires Inv(s) && Own(uid, p) && p !in Ensured(s, uid, UserRoot(uid)).folders && p != UserRoot(uid)
    ensures var t := Ensured(Ensured(s, uid, UserRoot(uid)), uid, p);
            && p in t.folders && t.folders[p] == uid && t.assets == s.assets
            && forall f | f in t.folders && f !in s.folders :: f == p || Ancestor(f, p)
  {
    var root := UserRoot(uid);
    assert root[0] == 'u' && p[0] == 'u' && p[|root|] == '/';
    assert Ancestor(root, p);
    RootEnsured(s, uid);
    EnsuredKeepsTree(s, uid, root);
    EnsuredKeepsTree(Ensured(s, uid, root), uid, p);
  }

  /** The folder is one of the user's own, whose root exists by then. */
  predicate Shareable(s: State, uid: nat, path: string)
  {
    var folders := Ensured(s, uid, UserRoot(uid)).folders;
    UploadPath(uid, path).Some? && UploadPath(uid, path).value in folders && folders[UploadPath(uid, path).value] == uid
  }

  lemma NoFolders(folders: map<string, nat>, uid: nat)
    ensures WithFolders(folders, Prefixes([]), uid) == folders
  {
  }

  lemma OneMoreFolder(folders: map<string, nat>, parts: seq<string>, i: nat, uid: nat)
    requires i < |parts|
    ensures var before, p := WithFolders(folders, Prefixes(parts[..i]), uid), Join(parts[..i + 1]);
            WithFolders(folders, Prefixes(parts[..i + 1]), uid) == if p in before then before else before[p := uid]
  {
    hide Join;
    assert parts[..i + 1][..i] == parts[..i];
    assert Prefixes(parts[..i + 1]) == Prefixes(parts[..i]) + {Join(parts[..i + 1])};
  }

  class FolderTables {
    var folders: map<string, nat>
    var grants: map<Grant, string>
    var assets: map<nat, string>
    var transfers: set<Grant>

    function Tables(): State
      reads this
    {
      State(folders, grants, assets, transfers)
    }

    /** `INSERT OR IGNORE` for the path and every beginning of it, then the grant on the user's root. */
    method EnsureUploadFolder(uid: nat, path: string)
      modifies this`folders, this`grants
      ensures Tables() == Ensured(old(Tables()), uid, path)
    {
      hide WithFolders;
      hide Prefixes;
      var parts := Split(path);
      NoFolders(folders, uid);
      assert parts[..0] == [];
      for i := 0 to |parts|
        invariant folders == WithFolders(old(folders), Prefixes(parts[..i]), uid)
        invariant grants == old(grants)
      {
        var p := Join(parts[..i + 1]);
        OneMoreFolder(old(folders), parts, i, uid);
        if p !in folders {
          folders := folders[p := uid];
        }
      }
      assert parts[..|parts|] == parts;
      if (uid, parts[0]) !in grants {
        grants := grants[(uid, parts[0]) := "My uploads"];
      }
    }

    method Update(source: string, target: string)
      requires Inv(Tables()) && CanMove(folders.Keys, source, target)
      modifies this`folders, this`grants, this`assets
      ensures Tables() == Moved(old(Tables()), source, target)
    {
      RekeyIsInjective(Tables(), source, target);
      assets := RekeyAssets(assets, source, target);
      grants := RekeyGrants(grants, source, target);
      folders := RekeyFolders(folders, source, target);
    }

    /** The end of a move that is allowed. */
    method Relocate(uid: nat, source: string, target: string, ghost before: State)
      requires Inv(before) && Tables() == Ensured(before, uid, UserRoot(uid)) && MoveAllowed(Tables(), uid, source, target)
      requires Own(uid, source) && Own(uid, target)
      modifies this`folders, this`grants, this`assets
      ensures Inv(Tables()) && Inv(Prepared(before, uid, target)) && CanMove(Prepared(before, uid, target).folders.Keys, source, target)
      ensures Tables() == Moved(Prepared(before, uid, target), source, target)
      ensures TreeMoved(before, Tables(), source, target) && OthersKept(before, Tables(), uid)
      ensures GrantsMoved(before, Tables(), uid, source, target)
    {
      hide Moved;
      hide Ensured;
      hide TreeMoved;
      hide OthersKept;
      hide GrantsMoved;
      assert UserRoot(uid)[0] == 'u' && target[0] == 'u' && target[|UserRoot(uid)|] == '/';
      PreparedKeepsTree(before, uid, source, target);
      EnsureUploadFolder(uid, Parent(target));
      Update(source, target);
      MovedKeepsTree(Prepared(before, uid, target), source, target);
      MoveMeans(before, uid, source, target);
      GrantsCome(before, uid, source, target);
    }

    /** The "move" action: either the whole transaction or nothing. */
    method Move(uid: nat, path: string, destination: string) returns (r: Reply)
      requires Inv(Tables())
      modifies this
      ensures Inv(Tables())
      ensures r != Done ==> Tables() == old(Tables())
      ensures r == Done <==>
              var s, t := UploadPath(uid, path), UploadPath(uid, destination);
              s.Some? && t.Some? && MoveAllowed(Ensured(old(Tables()), uid, UserRoot(uid)), uid, s.value, t.value)
      ensures r == Done ==>
              var s, t := UploadPath(uid, path).value, UploadPath(uid, destination).value;
              && CanMove(Prepared(old(Tables()), uid, t).folders.Keys, s, t) && Inv(Prepared(old(Tables()), uid, t))
              && Tables() == Moved(Prepared(old(Tables()), uid, t), s, t)
      ensures r == Done <==> Movable(old(Tables()), uid, path, destination)
      ensures r == Done ==>
                var p, q := "user-" + Decimal(uid) + "/" + path, "user-" + Decimal(uid) + "/" + destination;
                TreeMoved(old(Tables()), Tables(), p, q) && GrantsMoved(old(Tables()), Tables(), uid, p, q)
      ensures OthersKept(old(Tables()), Tables(), uid)
    {
      hide Moved;
      hide UploadPath;
      hide Ensured;
      hide Movable;
      hide TreeMoved;
      hide GrantsMoved;
      hide OthersKept;
      hide Own;
      hide Inv;
      NobodyChanged(Tables(), uid);
      var source := UploadPath(uid, path);
      if source == None {
        NotMovable(Tables(), uid, path, destination);
        return BadRequest;
      }
      UploadPathIsOwn(uid, path);
      ghost var before := Tables();
      if UploadPath(uid, destination) == None { NotMovable(before, uid, path, destination); } else { MovableMeans(before, uid, path, destination); }
      var saved := (folders, grants, assets, transfers);
      var root := UserRoot(uid);
      EnsureUploadFolder(uid, root);
      if source.value !in folders || folders[source.value] != uid {
        folders, grants := saved.0, saved.1;
        return NotFound;
      }
      if exists x | x in transfers :: x.0 == uid && Under(x.1, source.value) {
        folders, grants := saved.0, saved.1;
        return Conflict;
      }
      var target := UploadPath(uid, destination);
      if target == None || source.value == root || target.value == root || Under(target.value, source.value) {
        folders, grants := saved.0, saved.1;
        return BadRequest;
      }
      if target.value in folders {
        folders, grants := saved.0, saved.1;
        return Conflict;
      }
      UploadPathIsOwn(uid, destination);
      Relocate(uid, source.value, target.value, before);
      return Done;
    }

    /** The "create" action. */
    method Create(uid: nat, path: string) returns (r: Reply)
      requires Inv(Tables())
      modifies this
      ensures Inv(Tables())
      ensures r != Done ==> Tables() == old(Tables())
      ensures r == Done <==> UploadPath(uid, path).Some? && UploadPath(uid, path).value !in Ensured(old(Tables()), uid, UserRoot(uid)).folders
      ensures r == Done ==> Tables() == Ensured(Ensured(old(Tables()), uid, UserRoot(uid)), uid, UploadPath(uid, path).value)
      ensures r == Done <==> Creatable(old(Tables()), uid, path)
      ensures r == Done ==>
                var p := "user-" + Decimal(uid) + "/" + path;
                && p in folders && folders[p] == uid && assets == old(assets)
                && forall f | f in folders && f !in old(folders) :: f == p || Ancestor(f, p)
      ensures OnlyOwnRoot(old(Tables()), Tables(), uid) && (r == Done ==> (uid, "user-" + Decimal(uid)) in grants)
      ensures OthersKept(old(Tables()), Tables(), uid)
    {
      hide UploadPath;
      hide Ensured;
      hide OthersKept;
      NobodyChanged(Tables(), uid);
      var source := UploadPath(uid, path);
      if source == None {
        return BadRequest;
      }
      var saved := (folders, grants);
      ghost var before := Tables();
      assert UserRoot(uid)[0] == 'u';
      EnsuredKeepsTree(before, uid, UserRoot(uid));
      EnsureUploadFolder(uid, UserRoot(uid));
      UploadPathIsOwn(uid, path);
      CreatableMeans(before, uid, path);
      EnsuredOthers(before, uid, UserRoot(uid));
      ghost var mid := Tables();
      if source.value in folders {
        folders, grants := saved.0, saved.1;
        return Conflict;
      }
      UploadPathShape(uid, path);
      EnsuredKeepsTree(Tables(), uid, source.value);
      EnsureUploadFolder(uid, source.value);
      EnsuredOthers(mid, uid, source.value);
      OthersTrans(before, mid, Tables(), uid);
      CreatedFolder(before, uid, source.value);
      EnsuredOwnRoot(before, uid, UserRoot(uid));
      EnsuredOwnRoot(mid, uid, source.value);
      return Done;
    }

    /** The "share" action, for a recipient that was found by name. */
    method Share(uid: nat, path: string, recipient: nat, text: string) returns (r: Reply)
      requires Inv(Tables())
      modifies this
      ensures Inv(Tables())
      ensures r != Done ==> Tables() == old(Tables())
      ensures r == Done <==> Shareable(old(Tables()), uid, path) && recipient != uid
      ensures r == Done ==>
              var s := Ensured(old(Tables()), uid, UserRoot(uid));
              Tables() == s.(grants := s.grants[(recipient, UploadPath(uid, path).value) := text])
      ensures OthersKept(old(Tables()), Tables(), uid)
      ensures forall g: Grant | g in grants && g !in old(grants) ::
                || (g == (uid, "user-" + Decimal(uid)) && grants[g] == "My uploads")
                || (r == Done && UploadPath(uid, path) == Some(g.1) && g.0 == recipient && grants[g] == text)
      ensures r == Done ==> UploadPath(uid, path).Some? && (recipient, UploadPath(uid, path).value) in grants
    {
      hide UploadPath;
      hide Ensured;
      hide OthersKept;
      NobodyChanged(Tables(), uid);
      ghost var before := Tables();
      var source := UploadPath(uid, path);
      if source == None || recipient == uid {
        return BadRequest;
      }
      var saved := (folders, grants);
      assert UserRoot(uid)[0] == 'u';
      EnsuredKeepsTree(Tables(), uid, UserRoot(uid));
      EnsureUploadFolder(uid, UserRoot(uid));
      EnsuredOthers(before, uid, UserRoot(uid));
      EnsuredOwnRoot(before, uid, UserRoot(uid));
      if source.value !in folders || folders[source.value] != uid {
        folders, grants := saved.0, saved.1;
        return NotFound;
      }
      ghost var mid := Tables();
      grants := grants[(recipient, source.value) := text];
      UploadPathIsOwn(uid, path);
      GrantOthers(mid, uid, recipient, source.value, text);
      OthersTrans(before, mid, Tables(), uid);
      return Done;
    }

    /** The "revoke" action: that grant and no other is gone. */
    method Revoke(uid: nat, path: string, recipient: nat) returns (r: Reply)
      requires Inv(Tables())
      modifies this
      ensures Inv(Tables())
      ensures r != Done ==> Tables() == old(Tables())
      ensures r == Done <==> Shareable(old(Tables()), uid, path) && recipient != uid
      ensures r == Done ==>
              var s := Ensured(old(Tables()), uid, UserRoot(uid));
              Tables() == s.(grants := s.grants - {(recipient, UploadPath(uid, path).value)})
      ensures OthersKept(old(Tables()), Tables(), uid)
      ensures forall g: Grant | g in grants && g !in old(grants) ::
                g == (uid, "user-" + Decimal(uid)) && grants[g] == "My uploads"
      ensures r == Done ==> UploadPath(uid, path).Some? && (recipient, UploadPath(uid, path).value) !in grants
    {
      hide UploadPath;
      hide Ensured;
      hide OthersKept;
      NobodyChanged(Tables(), uid);
      ghost var before := Tables();
      var source := UploadPath(uid, path);
      if source == None || recipient == uid {
        return BadRequest;
      }
      var saved := (folders, grants);
      assert UserRoot(uid)[0] == 'u';
      EnsuredKeepsTree(Tables(), uid, UserRoot(uid));
      EnsureUploadFolder(uid, UserRoot(uid));
      EnsuredOthers(before, uid, UserRoot(uid));
      EnsuredOwnRoot(before, uid, UserRoot(uid));
      if source.value !in folders || folders[source.value] != uid {
        folders, grants := saved.0, saved.1;
        return NotFound;
      }
      ghost var mid := Tables();
      grants := grants - {(recipient, source.value)};
      UploadPathIsOwn(uid, path);
      GrantOthers(mid, uid, recipient, source.value, "");
      OthersTrans(before, mid, Tables(), uid);
      return Done;
    }
  }
}
