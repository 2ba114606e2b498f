/**
 The k-d tree that names coordinates (internal/places/places.go), over exact
 reals: the in-place median build, and the branch-and-bound search, which must
 find what a linear scan finds.
 */
module Places {

  type Point = p: seq<real> | |p| == 3 witness [0.0, 0.0, 0.0]

  datatype Place = Place(id: string, name: string, point: Point)

  datatype Tree = Empty | Node(place: Place, axis: nat, left: Tree, right: Tree)

  /** A squared distance, or positive infinity. */
  datatype Distance = Finite(value: real) | Infinite
  {
    predicate Less(other: Distance)
    {
      Finite? && (other.Infinite? || value < other.value)
    }
  }

  function Square(x: real): real { x * x }

  function DistanceSquared(p: Point, q: Point): real
  {
    Square(q[0] - p[0]) + Square(q[1] - p[1]) + Square(q[2] - p[2])
  }

  function Elements(t: Tree): multiset<Place>
  {
    match t
    case Empty => multiset{}
    case Node(place, _, left, right) => Elements(left) + multiset{place} + Elements(right)
  }

  /** Every node splits its subtrees on its axis, and the axes cycle with the depth. */
  ghost predicate Ordered(t: Tree, depth: nat)
  {
    match t
    case Empty => true
    case Node(place, axis, left, right) =>
      && axis == depth % 3
      && (forall p | p in Elements(left) :: p.point[axis] <= place.point[axis])
      && (forall p | p in Elements(right) :: place.point[axis] <= p.point[axis])
      && Ordered(left, depth + 1) && Ordered(right, depth + 1)
  }

  function Height(t: Tree): nat
  {
    match t
    case Empty => 0
    case Node(_, _, left, right) => 1 + if Height(left) < Height(right) then Height(right) else Height(left)
  }

  function Pow2(n: nat): (r: nat)
    ensures r > 0
  {
    if n == 0 then 1 else 2 * Pow2(n - 1)
  }

  /** Height at most 1 + log2(n). */
  predicate Balanced(t: Tree, n: nat)
  {
    if n == 0 then Height(t) == 0 else Pow2(Height(t)) <= 2 * n
  }

  ghost predicate SortedOn(s: seq<Place>, axis: nat)
    requires axis < 3
  {
    forall i, j | 0 <= i < j < |s| :: s[i].point[axis] <= s[j].point[axis]
  }

  /** `t` is `s` with only the stretch from `lo` to `hi` permuted. */
  ghost predicate Permuted(s: seq<Place>, t: seq<Place>, lo: nat, hi: nat)
    requires lo <= hi <= |s|
  {
    && |t| == |s| && t[..lo] == s[..lo] && t[hi..] == s[hi..]
    && multiset(t[lo..hi]) == multiset(s[lo..hi])
  }

  function Swapped(s: seq<Place>, i: nat): (t: seq<Place>)
    requires i + 1 < |s|
    ensures |t| == |s|
  {
    s[i := s[i + 1]][i + 1 := s[i]]
  }

  lemma SwapPermutes(r: seq<Place>, s: seq<Place>, i: nat, lo: nat, hi: nat)
    requires lo <= i && i + 1 < hi <= |s| && |r| == |s| && Permuted(r, s, lo, hi)
    ensures Permuted(r, Swapped(s, i), lo, hi)
  {
    var t := Swapped(s, i);
    assert s[lo..hi] == s[lo..i] + [s[i], s[i + 1]] + s[i + 2..hi];
    assert t[lo..hi] == s[lo..i] + [s[i + 1], s[i]] + s[i + 2..hi];
  }

  /** Sorted from `lo` to `i`, except that element `j` may still be too small for its place. */
  ghost predicate SortedBut(s: seq<Place>, lo: nat, i: nat, j: nat, axis: nat)
    requires i < |s| && axis < 3
  {
    forall a, b | lo <= a < b <= i && b != j :: s[a].point[axis] <= s[b].point[axis]
  }

  lemma StartInsert(s: seq<Place>, lo: nat, i: nat, hi: nat, axis: nat)
    requires lo <= i < hi <= |s| && axis < 3 && SortedOn(s[lo..i], axis)
    ensures SortedBut(s, lo, i, i, axis) && Permuted(s, s, lo, hi)
  {
    forall a, b | lo <= a < b <= i && b != i
      ensures s[a].point[axis] <= s[b].point[axis]
    {
      assert s[lo..i][a - lo].point[axis] <= s[lo..i][b - lo].point[axis];
    }
  }

  lemma EndInsert(s: seq<Place>, lo: nat, i: nat, j: nat, axis: nat)
    requires lo <= j <= i < |s| && axis < 3 && SortedBut(s, lo, i, j, axis)
    requires j > lo ==> s[j - 1].point[axis] <= s[j].point[axis]
    ensures SortedOn(s[lo..i + 1], axis)
  {
    forall a, b | lo <= a < b <= i
      ensures s[a].point[axis] <= s[b].point[axis]
    {
      if b == j && a < j - 1 {
        assert s[a].point[axis] <= s[j - 1].point[axis];
      }
    }
  }

  method Swap(p: array<Place>, i: nat)
    requires i + 1 < p.Length
    modifies p
    ensures p[..] == Swapped(old(p[..]), i)
  {
    p[i], p[i + 1] := p[i + 1], p[i];
  }

  lemma SwapSorts(s: seq<Place>, lo: nat, i: nat, j: nat, axis: nat)
    requires lo < j <= i < |s| && axis < 3
    requires SortedBut(s, lo, i, j, axis) && s[j].point[axis] < s[j - 1].point[axis]
    ensures SortedBut(Swapped(s, j - 1), lo, i, j - 1, axis)
  {
  }

  /** Moves element `i` down to its place among the sorted ones below it. */
  method Insert(p: array<Place>, lo: nat, i: nat, hi: nat, axis: nat)
    requires lo <= i < hi <= p.Length && axis < 3
    requires SortedOn(p[lo..i], axis)
    modifies p
    ensures SortedOn(p[lo..i + 1], axis)
    ensures Permuted(old(p[..]), p[..], lo, hi)
  {
    hide Permuted;
    hide SortedBut;
    hide SortedOn;
    var j := i;
    ghost var s := p[..];
    StartInsert(s, lo, i, hi, axis);
    assert p[lo..i] == s[lo..i];
    while j > lo && p[j].point[axis] < p[j - 1].point[axis]
      invariant lo <= j <= i
      invariant SortedBut(p[..], lo, i, j, axis)
      invariant Permuted(s, p[..], lo, hi)
    {
      ghost var t := p[..];
      SwapSorts(t, lo, i, j, axis);
      Swap(p, j - 1);
      SwapPermutes(s, t, j - 1, lo, hi);
      j := j - 1;
    }
    EndInsert(p[..], lo, i, j, axis);
    assert p[..][lo..i + 1] == p[lo..i + 1];
  }

  /** Stands for `sort.Slice(p[lo:hi], ...)`: some permutation that is ordered on the axis. */
  method SortSlice(p: array<Place>, lo: nat, hi: nat, axis: nat)
    requires lo <= hi <= p.Length && axis < 3
    modifies p
    ensures SortedOn(p[lo..hi], axis)
    ensures Permuted(old(p[..]), p[..], lo, hi)
  {
    for i := lo to hi
      invariant SortedOn(p[lo..i], axis)
      invariant Permuted(old(p[..]), p[..], lo, hi)
    {
      Insert(p, lo, i, hi, axis);
    }
  }

  /** Two neighbouring stretches, the second of which is left alone. */
  lemma RestStays(s: seq<Place>, t: seq<Place>, lo: nat, mid: nat, hi: nat)
    requires lo <= mid <= hi <= |s| && Permuted(s, t, lo, mid)
    ensures |t| == |s| && t[mid..hi] == s[mid..hi] && t[hi..] == s[hi..]
  {
    assert t[mid..hi] == t[mid..][..hi - mid] && s[mid..hi] == s[mid..][..hi - mid];
    assert t[hi..] == t[mid..][hi - mid..] && s[hi..] == s[mid..][hi - mid..];
  }

  lemma FirstStays(s: seq<Place>, t: seq<Place>, lo: nat, mid: nat, hi: nat)
    requires lo <= mid <= hi <= |s| && Permuted(s, t, mid, hi)
    ensures |t| == |s| && t[lo..mid] == s[lo..mid] && t[..lo] == s[..lo]
  {
    assert t[lo..mid] == t[..mid][lo..] && s[lo..mid] == s[..mid][lo..];
    assert t[..lo] == t[..mid][..lo] && s[..lo] == s[..mid][..lo];
  }

  /** Sorting and the two recursive calls together only reorder the stretch. */
  lemma HalvesPermute(s: seq<Place>, sorted: seq<Place>, half: seq<Place>, t: seq<Place>, lo: nat, mid: nat, hi: nat)
    requires lo <= mid < hi <= |s| && Permuted(s, sorted, lo, hi)
    requires Permuted(sorted, half, lo, mid) && Permuted(half, t, mid + 1, hi)
    ensures |sorted| == |s| && |half| == |s|
    ensures Permuted(s, t, lo, hi) && half[mid + 1..hi] == sorted[mid + 1..hi]
    ensures multiset(s[lo..hi]) == multiset(sorted[lo..mid]) + multiset{sorted[mid]} + multiset(half[mid + 1..hi])
  {
    RestStays(sorted, half, lo, mid, hi);
    FirstStays(half, t, lo, mid + 1, hi);
    assert half[mid..hi] == [half[mid]] + half[mid + 1..hi] && sorted[mid..hi] == [sorted[mid]] + sorted[mid + 1..hi];
    assert sorted[mid] == sorted[mid..hi][0] && half[mid] == half[mid..hi][0];
    assert half[mid + 1..hi] == half[mid..hi][1..] && sorted[mid + 1..hi] == sorted[mid..hi][1..];
    assert sorted[lo..hi] == sorted[lo..mid] + [sorted[mid]] + sorted[mid + 1..hi];
    assert t[lo..hi] == t[lo..mid + 1] + t[mid + 1..hi];
    assert half[lo..mid + 1] == half[lo..mid] + [half[mid]];
  }

  lemma SortedAround(sorted: seq<Place>, lo: nat, mid: nat, hi: nat, axis: nat)
    requires lo <= mid < hi <= |sorted| && axis < 3 && SortedOn(sorted[lo..hi], axis)
    ensures forall p | p in sorted[lo..mid] :: p.point[axis] <= sorted[mid].point[axis]
    ensures forall p | p in sorted[mid + 1..hi] :: sorted[mid].point[axis] <= p.point[axis]
  {
    var run := sorted[lo..hi];
    forall p | p in sorted[lo..mid]
      ensures p.point[axis] <= sorted[mid].point[axis]
    {
      var i :| 0 <= i < mid - lo && sorted[lo..mid][i] == p;
      assert run[i].point[axis] <= run[mid - lo].point[axis];
    }
    forall p | p in sorted[mid + 1..hi]
      ensures sorted[mid].point[axis] <= p.point[axis]
    {
      var i :| 0 <= i < hi - mid - 1 && sorted[mid + 1..hi][i] == p;
      assert run[mid - lo].point[axis] <= run[mid - lo + 1 + i].point[axis];
    }
  }

  /** What sorting and the two recursive calls together leave of a stretch of places. */
  lemma MedianSplits(s: seq<Place>, sorted: seq<Place>, half: seq<Place>, t: seq<Place>, lo: nat, mid: nat, hi: nat, axis: nat)
    requires lo <= mid < hi <= |s| && axis < 3
    requires Permuted(s, sorted, lo, hi) && SortedOn(sorted[lo..hi], axis)
    requires Permuted(sorted, half, lo, mid) && Permuted(half, t, mid + 1, hi)
    ensures Permuted(s, t, lo, hi)
    ensures multiset(s[lo..hi]) == multiset(sorted[lo..mid]) + multiset{sorted[mid]} + multiset(half[mid + 1..hi])
    ensures forall p | p in multiset(sorted[lo..mid]) :: p.point[axis] <= sorted[mid].point[axis]
    ensures forall p | p in multiset(half[mid + 1..hi]) :: sorted[mid].point[axis] <= p.point[axis]
  {
    HalvesPermute(s, sorted, half, t, lo, mid, hi);
    SortedAround(sorted, lo, mid, hi, axis);
  }

  lemma HeightStep(left: Tree, right: Tree, a: nat, b: nat)
    requires Balanced(left, a) && Balanced(right, b) && b <= a <= b + 1
    ensures forall place, axis :: Balanced(Node(place, axis, left, right), a + 1 + b)
  {
    if a == 0 {
      assert Pow2(1) == 2;
    }
  }

  lemma NothingMoved(s: seq<Place>, lo: nat, depth: nat)
    requires lo <= |s|
    ensures Permuted(s, s, lo, lo) && multiset(s[lo..lo]) == Elements(Empty) && Ordered(Empty, depth) && Balanced(Empty, 0)
  {
  }

  lemma NodeIsTree(s: seq<Place>, sorted: seq<Place>, half: seq<Place>, place: Place, left: Tree, right: Tree,
                   lo: nat, mid: nat, hi: nat, depth: nat)
    requires lo <= mid < hi <= |s| && |sorted| == |s| && |half| == |s| && place == sorted[mid]
    requires Elements(left) == multiset(sorted[lo..mid]) && Elements(right) == multiset(half[mid + 1..hi])
    requires Ordered(left, depth + 1) && Ordered(right, depth + 1) && Balanced(left, mid - lo) && Balanced(right, hi - mid - 1)
    requires mid == lo + (hi - lo) / 2
    requires multiset(s[lo..hi]) == multiset(sorted[lo..mid]) + multiset{sorted[mid]} + multiset(half[mid + 1..hi])
    requires forall p | p in multiset(sorted[lo..mid]) :: p.point[depth % 3] <= sorted[mid].point[depth % 3]
    requires forall p | p in multiset(half[mid + 1..hi]) :: sorted[mid].point[depth % 3] <= p.point[depth % 3]
    ensures var t := Node(place, depth % 3, left, right);
            Elements(t) == multiset(s[lo..hi]) && Ordered(t, depth) && Balanced(t, hi - lo)
  {
    HeightStep(left, right, mid - lo, hi - mid - 1);
  }

  /** Splits on the median, in place, and recurses on the two halves. */
  method Build(p: array<Place>, lo: nat, hi: nat, depth: nat) returns (t: Tree)
    requires lo <= hi <= p.Length
    modifies p
    ensures Elements(t) == multiset(old(p[lo..hi])) && Permuted(old(p[..]), p[..], lo, hi)
    ensures Ordered(t, depth) && Balanced(t, hi - lo)
    decreases hi - lo
  {
    hide Permuted;
    hide SortedOn;
    hide Elements;
    hide Ordered;
    hide Balanced;
    if lo == hi {
      NothingMoved(p[..], lo, depth);
      return Empty;
    }
    var axis := depth % 3;
    SortSlice(p, lo, hi, axis);
    var mid := lo + (hi - lo) / 2;
    var place := p[mid];
    ghost var sorted := p[..];
    assert p[lo..mid] == sorted[lo..mid] && p[lo..hi] == sorted[lo..hi];
    var left := Build(p, lo, mid, depth + 1);
    ghost var half := p[..];
    assert p[mid + 1..hi] == half[mid + 1..hi];
    var right := Build(p, mid + 1, hi, depth + 1);
    t := Node(place, axis, left, right);
    MedianSplits(old(p[..]), sorted, half, p[..], lo, mid, hi, axis);
    NodeIsTree(old(p[..]), sorted, half, place, left, right, lo, mid, hi, depth);
  }

  /** The best place so far and its squared distance. */
  datatype Found = Found(best: Place, distance: Distance)

  predicate Nearer(p: Place, q: Point, distance: Distance)
  {
    Finite(DistanceSquared(p.point, q)).Less(distance)
  }

  /** After looking at `ps`, no place of `ps` is nearer; the best one is from `ps` and nearer than before, or unchanged. */
  ghost predicate Improved(f: Found, g: Found, ps: multiset<Place>, q: Point)
  {
    && (forall p | p in ps :: !Nearer(p, q, g.distance))
    && (g == f || (g.best in ps && g.distance == Finite(DistanceSquared(g.best.point, q)) && g.distance.Less(f.distance)))
  }

  lemma ImprovedTwice(f: Found, g: Found, h: Found, ps: multiset<Place>, rs: multiset<Place>, q: Point)
    requires Improved(f, g, ps, q) && Improved(g, h, rs, q)
    ensures Improved(f, h, ps + rs, q)
  {
  }

  function Visit(f: Found, p: Place, q: Point): Found
  {
    if Nearer(p, q, f.distance) then Found(p, Finite(DistanceSquared(p.point, q))) else f
  }

  /** The linear scan that the tree replaces. */
  function Scan(f: Found, ps: seq<Place>, q: Point): Found
  {
    if ps == [] then f else Visit(Scan(f, ps[..|ps| - 1], q), ps[|ps| - 1], q)
  }

  lemma {:induction false} ScanImproves(f: Found, ps: seq<Place>, q: Point)
    ensures Improved(f, Scan(f, ps, q), multiset(ps), q)
  {
    if ps != [] {
      var n := |ps| - 1;
      ScanImproves(f, ps[..n], q);
      ImprovedTwice(f, Scan(f, ps[..n], q), Scan(f, ps, q), multiset(ps[..n]), multiset{ps[n]}, q);
      assert ps == ps[..n] + [ps[n]];
    }
  }

  /** Both find the same distance; only which of several equally near places is returned may differ. */
  lemma SameDistance(f: Found, g: Found, h: Found, ps: multiset<Place>, q: Point)
    requires Improved(f, g, ps, q) && Improved(f, h, ps, q)
    ensures g.distance == h.distance
  {
    if g != f { assert !Nearer(g.best, q, h.distance); }
    if h != f { assert !Nearer(h.best, q, g.distance); }
  }

  lemma SquareMonotone(x: real, y: real)
    requires 0.0 <= x <= y || y <= x <= 0.0
    ensures Square(x) <= Square(y)
  {
    assert (y - x) * (y + x) >= 0.0;
    assert (y - x) * (y + x) == y * y - x * x;
  }

  /** A point on the far side of the splitting plane is at least as far away as the plane. */
  lemma BeyondThePlane(p: Point, q: Point, split: Point, axis: nat)
    requires axis < 3
    requires if q[axis] - split[axis] > 0.0 then p[axis] <= split[axis] else split[axis] <= p[axis]
    ensures Square(q[axis] - split[axis]) <= DistanceSquared(p, q)
  {
    SquareMonotone(q[axis] - split[axis], q[axis] - p[axis]);
    SquareMonotone(0.0, q[0] - p[0]);
    SquareMonotone(0.0, q[1] - p[1]);
    SquareMonotone(0.0, q[2] - p[2]);
  }

  /** Where the node's plane is at least as far as the best place, its far side is. */
  lemma FarSide(n: Tree, q: Point, depth: nat, f: Found)
    requires n.Node? && Ordered(n, depth)
    requires !Finite(Square(q[n.axis] - n.place.point[n.axis])).Less(f.distance)
    ensures Improved(f, f, Elements(if q[n.axis] - n.place.point[n.axis] > 0.0 then n.left else n.right), q)
  {
    forall p | p in Elements(if q[n.axis] - n.place.point[n.axis] > 0.0 then n.left else n.right)
      ensures !Nearer(p, q, f.distance)
    {
      BeyondThePlane(p.point, q, n.place.point, n.axis);
    }
  }

  lemma EmptyImproves(f: Found, q: Point)
    ensures Improved(f, f, multiset{}, q)
  {
  }

  lemma VisitImproves(f: Found, p: Place, q: Point)
    ensures Improved(f, Visit(f, p, q), multiset{p}, q)
  {
  }

  method DistanceTo(p: Point, q: Point) returns (d: real)
    ensures d == DistanceSquared(p, q)
  {
    d := 0.0;
    for i := 0 to 3
      invariant d == (if i > 0 then Square(q[0] - p[0]) else 0.0) +
                     (if i > 1 then Square(q[1] - p[1]) else 0.0) +
                     (if i > 2 then Square(q[2] - p[2]) else 0.0)
    {
      var delta := q[i] - p[i];
      d := d + Square(delta);
    }
  }

  /** The variables that the recursive search writes through. */
  class Search {
    var best: Place
    var distance: Distance

    ghost function State(): Found reads this { Found(best, distance) }

    constructor ()
      ensures State() == Found(Place("", "", [0.0, 0.0, 0.0]), Infinite)
    {
      best := Place("", "", [0.0, 0.0, 0.0]);
      distance := Infinite;
    }

    method Nearest(n: Tree, q: Point, depth: nat)
      requires Ordered(n, depth)
      modifies this
      ensures Improved(old(State()), State(), Elements(n), q)
      decreases n
    {
      hide Square;
      hide DistanceSquared;
      hide Improved;
      if n == Empty {
        EmptyImproves(State(), q);
        return;
      }
      ghost var f0 := State();
      var d := DistanceTo(n.place.point, q);
      if Finite(d).Less(distance) {
        distance := Finite(d);
        best := n.place;
      }
      ghost var f1 := State();
      VisitImproves(f0, n.place, q);
      var delta := q[n.axis] - n.place.point[n.axis];
      var first, second := n.left, n.right;
      if delta > 0.0 {
        first, second := second, first;
      }
      Nearest(first, q, depth + 1);
      ghost var f2 := State();
      if Finite(Square(delta)).Less(distance) {
        Nearest(second, q, depth + 1);
      } else {
        FarSide(n, q, depth, f2);
      }
      ImprovedTwice(f0, f1, f2, multiset{n.place}, Elements(first), q);
      ImprovedTwice(f0, f2, State(), multiset{n.place} + Elements(first), Elements(second), q);
      assert Elements(n) == multiset{n.place} + Elements(first) + Elements(second);
    }
  }

  /** The square of the straight distance between two points. */
  ghost function Gap(a: Point, b: Point): real
  {
    (a[0] - b[0]) * (a[0] - b[0]) + (a[1] - b[1]) * (a[1] - b[1]) + (a[2] - b[2]) * (a[2] - b[2])
  }

  lemma OppositeSquare(x: real)
    ensures Square(x) == (-x) * (-x)
  {
  }

  lemma GapIsDistance(a: Point, b: Point)
    ensures Gap(a, b) == DistanceSquared(a, b)
  {
    OppositeSquare(b[0] - a[0]);
    OppositeSquare(b[1] - a[1]);
    OppositeSquare(b[2] - a[2]);
  }

  /** Building the tree and searching it finds the distance that a linear scan of the places finds. */
  method BuildAndFind(p: array<Place>, q: Point) returns (best: Place, distance: Distance)
    modifies p
    ensures distance == Scan(Found(Place("", "", [0.0, 0.0, 0.0]), Infinite), old(p[..]), q).distance
    ensures p.Length > 0 ==> best in old(p[..]) && distance == Finite(DistanceSquared(best.point, q))
    ensures p.Length > 0 ==> forall r | r in old(p[..]) :: DistanceSquared(best.point, q) <= DistanceSquared(r.point, q)
    ensures p.Length > 0 ==>
              && best in old(p[..]) && distance == Finite(Gap(best.point, q))
              && forall r | r in old(p[..]) :: Gap(best.point, q) <= Gap(r.point, q)
    ensures p.Length == 0 ==> distance == Infinite
  {
    hide Scan;
    hide DistanceSquared;
    hide Gap;
    ghost var ps := p[..];
    forall r: Point { GapIsDistance(r, q); }
    assert p[0..p.Length] == ps;
    var tree := Build(p, 0, p.Length, 0);
    var search := new Search();
    ghost var f := search.State();
    search.Nearest(tree, q, 0);
    best, distance := search.best, search.distance;
    ScanImproves(f, ps, q);
    SameDistance(f, search.State(), Scan(f, ps, q), multiset(ps), q);
    if p.Length > 0 {
      assert ps[0] in multiset(ps);
      assert !Nearer(ps[0], q, distance);
      forall r | r in ps
        ensures DistanceSquared(best.point, q) <= DistanceSquared(r.point, q)
      {
        assert r in multiset(ps);
        assert !Nearer(r, q, distance);
      }
    }
  }
}
