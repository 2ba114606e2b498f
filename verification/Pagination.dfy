/** Pages of the library in reverse order of time, and the client that appends them (internal/api/assets.go, web/src/composables/useGallery.ts). */
module Pagination {
  import opened Options

  /** The columns that order a list; `taken` is the point in time that `taken_at` writes. */
  datatype Item = Item(taken: int, id: nat)

  /** `a` comes after `b` in `ORDER BY taken_at DESC, id DESC`. */
  predicate Below(a: Item, b: Item)
  {
    a.taken < b.taken || (a.taken == b.taken && a.id < b.id)
  }

  predicate Descending(items: seq<Item>)
  {
    forall i, j | 0 <= i < j < |items| :: Below(items[j], items[i])
  }

  /** The condition that a cursor adds. */
  predicate After(cursor: Option<Item>, a: Item) { cursor.Some? ==> Below(a, cursor.value) }

  datatype Page = Page(items: seq<Item>, next: Option<Item>)

  function Rest(visible: set<Item>, cursor: Option<Item>): set<Item>
  {
    set a | a in visible && After(cursor, a)
  }

  /** The page holds the first items after the cursor, and continues at its last one if there are more. */
  ghost predicate IsPage(visible: set<Item>, cursor: Option<Item>, limit: nat, page: Page)
  {
    && Descending(page.items) && |page.items| <= limit
    && (forall a | a in page.items :: a in Rest(visible, cursor))
    && match page.next
       case None => forall a | a in Rest(visible, cursor) :: a in page.items
       case Some(last) =>
         && |page.items| == limit > 0 && last == page.items[limit - 1]
         && (forall a | a in Rest(visible, cursor) :: a in page.items || Below(a, last))
         && (exists a | a in Rest(visible, cursor) :: a !in page.items)
  }

  lemma {:induction false} FirstExists(s: set<Item>)
    requires s != {}
    ensures exists a :: a in s && forall b | b in s && b != a :: Below(b, a)
  {
    var a :| a in s;
    if s == {a} {
      assert forall b | b in s && b != a :: Below(b, a);
    } else {
      var t := s - {a};
      FirstExists(t);
      var b :| b in t && forall d | d in t && d != b :: Below(d, b);
      var first := if Below(a, b) then b else a;
      assert forall d | d in s && d != first :: d == a || d == b || (d in t && Below(d, b));
      assert forall d | d in s && d != first :: Below(d, first);
    }
  }

  /** The time it was taken never rises along the list, and among equal times the ids fall. */
  predicate NewestFirst(items: seq<Item>)
  {
    forall i, j | 0 <= i < j < |items| ::
      items[i].taken > items[j].taken || (items[i].taken == items[j].taken && items[i].id > items[j].id)
  }

  /** Comes after the cursor in that order. */
  predicate Older(cursor: Option<Item>, a: Item)
  {
    cursor == None || a.taken < cursor.value.taken || (a.taken == cursor.value.taken && a.id < cursor.value.id)
  }

  /** The page is what comes next, in order, and it ends only when it is full or nothing is left; then its last item is the next cursor. */
  ghost predicate FollowsCursor(visible: set<Item>, cursor: Option<Item>, limit: nat, page: Page)
  {
    && NewestFirst(page.items) && |page.items| <= limit && (forall a | a in page.items :: a in visible && Older(cursor, a))
    && (forall a | a in visible && Older(cursor, a) && a !in page.items ::
          page.next.Some? && |page.items| == limit > 0 && Older(page.next, a) && page.next.value == page.items[limit - 1])
    && (page.next.Some? ==> exists a | a in visible :: Older(page.next, a))
  }

  lemma DescendingMeans(items: seq<Item>)
    ensures Descending(items) <==> NewestFirst(items)
  {
  }

  lemma PageMeans(visible: set<Item>, cursor: Option<Item>, limit: nat, page: Page)
    requires IsPage(visible, cursor, limit, page)
    ensures FollowsCursor(visible, cursor, limit, page)
  {
    DescendingMeans(page.items);
    hide Descending;
    hide NewestFirst;
  }

  /** The list query and the cut to the limit. */
  method Assets(visible: set<Item>, cursor: Option<Item>, limit: nat) returns (page: Page)
    requires 1 <= limit
    ensures IsPage(visible, cursor, limit, page)
    ensures FollowsCursor(visible, cursor, limit, page)
  {
    hide FollowsCursor;
    var rest := Rest(visible, cursor);
    var items: seq<Item> := [];
    while rest != {} && |items| < limit + 1
      invariant Descending(items) && |items| <= limit + 1
      invariant rest <= Rest(visible, cursor)
      invariant forall a | a in items :: a in Rest(visible, cursor) && a !in rest
      invariant forall a | a in Rest(visible, cursor) :: a in items || a in rest
      invariant forall a, b | a in rest && b in items :: Below(a, b)
      decreases |rest|
    {
      FirstExists(rest);
      var a :| a in rest && forall b | b in rest && b != a :: Below(b, a);
      items := items + [a];
      rest := rest - {a};
    }
    if |items| > limit {
      assert items[limit] in items;
      var cut := items[..limit];
      assert forall a | a in items :: a in cut || a == items[limit];
      assert items[limit] !in cut;
      page := Page(cut, Some(cut[limit - 1]));
    } else {
      page := Page(items, None);
    }
    PageMeans(visible, cursor, limit, page);
  }

  // ---- A walk along the cursors ----

  /** Each page continues the one before; what is visible may change in between. */
  ghost predicate IsWalk(views: seq<set<Item>>, cursor: Option<Item>, limit: nat, pages: seq<Page>)
    decreases |pages|
  {
    && |views| == |pages|
    && (pages == [] ||
        (&& IsPage(views[0], cursor, limit, pages[0])
         && (if pages[0].next.None? then |pages| == 1 else |pages| > 1 && IsWalk(views[1..], pages[0].next, limit, pages[1..]))))
  }

  function Concat(pages: seq<Page>): seq<Item>
  {
    if pages == [] then [] else pages[0].items + Concat(pages[1..])
  }

  lemma {:induction false} WalkDescends(views: seq<set<Item>>, cursor: Option<Item>, limit: nat, pages: seq<Page>)
    requires IsWalk(views, cursor, limit, pages)
    ensures Descending(Concat(pages)) && forall a | a in Concat(pages) :: After(cursor, a)
    decreases |pages|
  {
    if |pages| > 1 {
      WalkDescends(views[1..], pages[0].next, limit, pages[1..]);
      var items, more := pages[0].items, Concat(pages[1..]);
      forall i, j | 0 <= i < j < |items + more| ensures Below((items + more)[j], (items + more)[i]) {
        if i < |items| <= j {
          assert more[j - |items|] in more;
          assert i == limit - 1 || Below(items[limit - 1], items[i]);
        }
      }
      assert forall a | a in more :: Below(a, items[limit - 1]);
      assert items[limit - 1] in items;
    } else if |pages| == 1 {
      assert Concat(pages[1..]) == [];
      assert Concat(pages) == pages[0].items;
    }
  }

  /** What was visible all the time is met, at whatever moments the pages were read. */
  lemma {:induction false} WalkVisits(views: seq<set<Item>>, cursor: Option<Item>, limit: nat, pages: seq<Page>, a: Item)
    requires pages != [] && IsWalk(views, cursor, limit, pages) && After(cursor, a)
    requires forall v | v in views :: a in v
    ensures a in Concat(pages)
    decreases |pages|
  {
    assert a in views[0];
    assert a in Rest(views[0], cursor);
    if pages[0].next.Some? && a !in pages[0].items {
      WalkVisits(views[1..], pages[0].next, limit, pages[1..], a);
    }
  }

  lemma ConcatOne(page: Page)
    ensures Concat([page]) == page.items
  {
    assert Concat([page][1..]) == [];
  }

  lemma {:induction false} ConcatSnoc(pages: seq<Page>, page: Page)
    ensures Concat(pages + [page]) == Concat(pages) + page.items
    decreases |pages|
  {
    if pages == [] {
      ConcatOne(page);
      assert pages + [page] == [page];
    } else {
      ConcatSnoc(pages[1..], page);
      assert (pages + [page])[1..] == pages[1..] + [page];
    }
  }

  lemma DescendsOn(items: seq<Item>, more: seq<Item>, last: Item)
    requires Descending(items) && Descending(more) && items != [] && items[|items| - 1] == last
    requires forall a | a in more :: Below(a, last)
    ensures Descending(items + more)
  {
    forall i, j | 0 <= i < j < |items + more| ensures Below((items + more)[j], (items + more)[i]) {
      if i < |items| <= j {
        assert more[j - |items|] in more;
        assert i == |items| - 1 || Below(last, items[i]);
      }
    }
  }

  lemma Smaller(s: set<Item>, t: set<Item>, a: Item)
    requires s <= t && a in t && a !in s
    ensures |s| < |t|
  {
    var d := t - s;
    assert t == s + d && s !! d && a in d;
    assert |t| == |s| + |d|;
  }

  lemma Shrinks(visible: set<Item>, cursor: Option<Item>, limit: nat, page: Page)
    requires IsPage(visible, cursor, limit, page) && page.next.Some?
    ensures |Rest(visible, page.next)| < |Rest(visible, cursor)|
  {
    var last := page.next.value;
    assert last in page.items;
    assert last in Rest(visible, cursor) && last !in Rest(visible, page.next);
    forall a | a in Rest(visible, page.next) ensures a in Rest(visible, cursor) {
      assert Below(a, last);
    }
    Smaller(Rest(visible, page.next), Rest(visible, cursor), last);
  }

  /** On a fixed set the cursors come to an end, and the pages together are exactly the set in order. */
  method FollowCursors(visible: set<Item>, limit: nat) returns (pages: seq<Page>, items: seq<Item>)
    requires 1 <= limit
    ensures Descending(items) && forall a :: a in items <==> a in visible
    ensures items == Concat(pages)
    ensures NewestFirst(items)
  {
    hide NewestFirst;
    hide FollowsCursor;
    var page := Assets(visible, None, limit);
    pages, items := [page], page.items;
    ConcatOne(page);
    while page.next.Some?
      invariant Descending(items) && items == Concat(pages)
      invariant forall a | a in items :: a in visible
      invariant page.next.Some? ==> items != [] && page.next.value == items[|items| - 1]
      invariant forall a | a in visible :: a in items || (page.next.Some? && Below(a, page.next.value))
      decreases page.next.Some?, |Rest(visible, page.next)|
    {
      var cursor := page.next;
      page := Assets(visible, cursor, limit);
      if page.next.Some? { Shrinks(visible, cursor, limit, page); }
      ConcatSnoc(pages, page);
      DescendsOn(items, page.items, cursor.value);
      pages, items := pages + [page], items + page.items;
    }
    DescendingMeans(items);
  }

  // ---- The client's list ----

  predicate DistinctIds(items: seq<Item>)
  {
    forall i, j | 0 <= i < j < |items| :: items[i].id != items[j].id
  }

  predicate HasId(items: seq<Item>, id: nat) { exists i | 0 <= i < |items| :: items[i].id == id }

  /** `data.items.filter(item => !assets.some(old => old.id === item.id))` */
  function New(old_items: seq<Item>, items: seq<Item>): seq<Item>
  {
    if items == [] then []
    else (if HasId(old_items, items[0].id) then [] else [items[0]]) + New(old_items, items[1..])
  }

  lemma {:induction false} NewHas(old_items: seq<Item>, items: seq<Item>)
    ensures forall a | a in New(old_items, items) :: a in items && !HasId(old_items, a.id)
    ensures forall a | a in items && !HasId(old_items, a.id) :: a in New(old_items, items)
  {
    hide HasId;
    if items != [] {
      NewHas(old_items, items[1..]);
    }
  }

  lemma {:induction false} NewIsSubset(old_items: seq<Item>, items: seq<Item>)
    ensures forall a | a in New(old_items, items) :: a in items && !HasId(old_items, a.id)
    ensures forall a | a in items && !HasId(old_items, a.id) :: a in New(old_items, items)
    ensures DistinctIds(items) ==> DistinctIds(New(old_items, items))
  {
    hide HasId;
    NewHas(old_items, items);
    if items != [] {
      NewIsSubset(old_items, items[1..]);
      var more := New(old_items, items[1..]);
      NewHas(old_items, items[1..]);
      if DistinctIds(items) && !HasId(old_items, items[0].id) {
        forall j | 0 <= j < |more| ensures more[j].id != items[0].id {
          assert more[j] in items[1..];
        }
      }
    }
  }

  /** Appending never shows an asset twice, and loses nothing that was not shown yet. */
  lemma AppendedIsDistinct(old_items: seq<Item>, items: seq<Item>)
    requires DistinctIds(old_items) && DistinctIds(items)
    ensures DistinctIds(old_items + New(old_items, items))
    ensures forall a | a in items :: HasId(old_items + New(old_items, items), a.id)
  {
    NewIsSubset(old_items, items);
    var all := old_items + New(old_items, items);
    forall i, j | 0 <= i < j < |all| ensures all[i].id != all[j].id {
      if i < |old_items| <= j {
        assert all[j] in New(old_items, items);
        assert !HasId(old_items, all[j].id);
      }
    }
    forall a | a in items ensures HasId(all, a.id) {
      if HasId(old_items, a.id) {
        var i :| 0 <= i < |old_items| && old_items[i].id == a.id;
        assert all[i].id == a.id;
      } else {
        var i :| 0 <= i < |New(old_items, items)| && New(old_items, items)[i] == a;
        assert all[|old_items| + i].id == a.id;
      }
    }
  }

  datatype Ticket = Ticket(number: nat, append: bool, cursor: Option<Item>)

  /** What is shown: a user who has to change the password is led away first; some views show no assets. */
  datatype Screen = PasswordChange | Elsewhere | List

  /** The refs of `useGallery` that a list request changes; a request and its response are two steps. */
  class Gallery {
    var assets: seq<Item>
    var nextCursor: Option<Item>
    var request: nat
    var loading: bool
    var loadingMore: bool
    ghost var pending: set<Ticket>

    /** No asset is shown twice, tickets are numbered, and the flags say that the last request is under way. */
    ghost predicate Valid()
      reads this
    {
      && DistinctIds(assets) && !(loading && loadingMore)
      && (forall t | t in pending :: t.number <= request)
      && (forall t, u | t in pending && u in pending && t.number == u.number :: t == u)
      && (loading || loadingMore ==> exists t :: t in pending && t.number == request && t.append == loadingMore)
      && (forall t | t in pending && t.number == request && t.append :: t.cursor == nextCursor)
    }

    constructor ()
      ensures Valid() && assets == [] && nextCursor == None && pending == {}
    {
      assets, nextCursor, request, loading, loadingMore, pending := [], None, 0, false, false, {};
    }

    /** `load` until its first `await`; `cursor` is that of the current page. */
    method Load(append: bool, screen: Screen, cursor: Option<Item>) returns (ticket: Option<Ticket>)
      requires Valid()
      modifies this
      ensures Valid() && request == old(request) + 1 && nextCursor == old(nextCursor)
      ensures screen == List ==> ticket.Some? && ticket.value.number == request && pending == old(pending) + {ticket.value}
      ensures screen == List ==> ticket.value.append == append && ticket.value.cursor == if append then old(nextCursor) else cursor
      ensures screen != List ==> ticket.None? && pending == old(pending) && !loading && !loadingMore
      ensures assets == if screen == Elsewhere then [] else old(assets)
      ensures forall t | t in old(pending) :: t.number != request
    {
      request := request + 1;
      loading, loadingMore := false, false;
      if screen == PasswordChange {
        return None;
      }
      if screen == Elsewhere {
        assets := [];
        return None;
      }
      loading, loadingMore := !append, append;
      var t := Ticket(request, append, if append then nextCursor else cursor);
      pending := pending + {t};
      assert t in pending && t.number == request && t.append == loadingMore;
      return Some(t);
    }

    /** `loadMore` */
    method LoadMore() returns (ticket: Option<Ticket>)
      requires Valid()
      modifies this
      ensures Valid() && assets == old(assets) && nextCursor == old(nextCursor)
      ensures ticket.Some? <==> old(nextCursor).Some? && !old(loading) && !old(loadingMore)
      ensures ticket.Some? ==> ticket.value.cursor == nextCursor && ticket.value.append && ticket.value.number == request
      ensures ticket.None? ==> request == old(request) && pending == old(pending)
    {
      if nextCursor.None? || loading || loadingMore { return None; }
      ticket := Load(true, List, None);
    }

    /** The response: one to a request that is not the last any more changes nothing. */
    method Receive(t: Ticket, page: Page)
      requires Valid() && t in pending && DistinctIds(page.items)
      modifies this
      ensures Valid() && pending == old(pending) - {t} && request == old(request)
      ensures t.number != request ==> assets == old(assets) && nextCursor == old(nextCursor)
                                      && loading == old(loading) && loadingMore == old(loadingMore)
      ensures t.number == request ==> nextCursor == page.next && !loading && !loadingMore
                                      && assets == (if t.append then old(assets) + New(old(assets), page.items) else page.items)
    {
      pending := pending - {t};
      if t.number != request {
        return;
      }
      if t.append {
        AppendedIsDistinct(assets, page.items);
      }
      assets := if t.append then assets + New(assets, page.items) else page.items;
      nextCursor := page.next;
      loading, loadingMore := false, false;
    }

    /** A request that failed. */
    method Fail(t: Ticket)
      requires Valid() && t in pending
      modifies this
      ensures Valid() && assets == old(assets) && nextCursor == old(nextCursor) && pending == old(pending) - {t}
      ensures t.number != request ==> loading == old(loading) && loadingMore == old(loadingMore)
    {
      pending := pending - {t};
      if t.number == request {
        loading, loadingMore := false, false;
      }
    }
  }

  // ---- What a client that appends the pages of a walk shows ----

  /** The list after each page was appended in turn. */
  function Shown(pages: seq<Page>): seq<Item>
  {
    if pages == [] then []
    else
      var before := Shown(pages[..|pages| - 1]);
      before + New(before, pages[|pages| - 1].items)
  }

  /** Of the items with one id only the first. */
  function FirstOfEach(items: seq<Item>): seq<Item>
  {
    if items == [] then []
    else
      var before, last := FirstOfEach(items[..|items| - 1]), items[|items| - 1];
      if HasId(before, last.id) then before else before + [last]
  }

  lemma HasIdSnoc(items: seq<Item>, a: Item, id: nat)
    ensures HasId(items + [a], id) <==> HasId(items, id) || a.id == id
  {
    var all := items + [a];
    if HasId(items, id) {
      var i :| 0 <= i < |items| && items[i].id == id;
      assert all[i].id == id;
    }
    if a.id == id { assert all[|items|].id == id; }
  }

  lemma {:induction false} FirstOfEachHas(items: seq<Item>, id: nat)
    ensures HasId(FirstOfEach(items), id) <==> HasId(items, id)
    ensures DistinctIds(FirstOfEach(items))
  {
    if items != [] {
      var init, last := items[..|items| - 1], items[|items| - 1];
      var before := FirstOfEach(init);
      FirstOfEachHas(init, id);
      HasIdSnoc(init, last, id);
      HasIdSnoc(before, last, id);
      assert items == init + [last];
    }
  }

  lemma {:induction false} NewSnoc(old_items: seq<Item>, items: seq<Item>, a: Item)
    ensures New(old_items, items + [a]) == New(old_items, items) + if HasId(old_items, a.id) then [] else [a]
  {
    if items != [] {
      NewSnoc(old_items, items[1..], a);
      assert (items + [a])[1..] == items[1..] + [a];
    }
  }

  lemma NotYetIn(shown: seq<Item>, init: seq<Item>, last: Item, items: seq<Item>)
    requires items == init + [last] && DistinctIds(items)
    ensures HasId(shown + New(shown, init), last.id) <==> HasId(shown, last.id)
  {
    NewIsSubset(shown, init);
    var all := shown + New(shown, init);
    if HasId(shown, last.id) {
      var i :| 0 <= i < |shown| && shown[i].id == last.id;
      assert all[i].id == last.id;
    }
    forall b | b in init ensures b.id != last.id {
      var k :| 0 <= k < |init| && init[k] == b;
      assert items[k] == b && items[|init|] == last;
    }
    forall i | |shown| <= i < |all| ensures all[i].id != last.id { assert all[i] in init; }
    if HasId(all, last.id) {
      var i :| 0 <= i < |all| && all[i].id == last.id;
      assert shown[i].id == last.id;
    }
  }

  /** One page, in which no id comes twice, is appended as taking the first of each id does. */
  lemma {:induction false} AppendIsFirstOfEach(before: seq<Item>, items: seq<Item>)
    requires DistinctIds(items)
    ensures FirstOfEach(before + items) == FirstOfEach(before) + New(FirstOfEach(before), items)
    decreases |items|
  {
    var shown := FirstOfEach(before);
    if items == [] {
      assert before + items == before;
    } else {
      var init, last := items[..|items| - 1], items[|items| - 1];
      AppendIsFirstOfEach(before, init);
      assert (before + items)[..|before + items| - 1] == before + init;
      NewSnoc(shown, init, last);
      assert items == init + [last];
      NotYetIn(shown, init, last, items);
    }
  }

  /** The client shows of each asset the first item that the pages had of it, whatever changed during the walk. */
  lemma {:induction false} ShownIsFirstOfEach(pages: seq<Page>)
    requires forall p | p in pages :: DistinctIds(p.items)
    ensures Shown(pages) == FirstOfEach(Concat(pages))
  {
    if pages != [] {
      var init, last := pages[..|pages| - 1], pages[|pages| - 1];
      ShownIsFirstOfEach(init);
      ConcatSnoc(init, last);
      assert pages == init + [last];
      AppendIsFirstOfEach(Concat(init), last.items);
    }
  }

  /** An asset has one date at a time. */
  ghost predicate IdsUnique(view: set<Item>)
  {
    forall a, b | a in view && b in view && a.id == b.id :: a == b
  }

  lemma {:induction false} PagesAreDistinct(views: seq<set<Item>>, cursor: Option<Item>, limit: nat, pages: seq<Page>)
    requires IsWalk(views, cursor, limit, pages) && forall v | v in views :: IdsUnique(v)
    ensures forall p | p in pages :: DistinctIds(p.items)
    decreases |pages|
  {
    if pages != [] {
      var items := pages[0].items;
      forall i, j | 0 <= i < j < |items| ensures items[i].id != items[j].id {
        assert items[i] in items && items[j] in items;
        assert items[i] in views[0] && items[j] in views[0] && Below(items[j], items[i]);
        assert IdsUnique(views[0]);
      }
      if |pages| > 1 { PagesAreDistinct(views[1..], pages[0].next, limit, pages[1..]); }
    }
  }

  lemma {:induction false} AllFirst(items: seq<Item>)
    requires DistinctIds(items)
    ensures FirstOfEach(items) == items
  {
    if items != [] {
      var init, last := items[..|items| - 1], items[|items| - 1];
      AllFirst(init);
      assert forall i | 0 <= i < |init| :: init[i].id == items[i].id;
      assert items == init + [last];
    }
  }

  /**
   A client that appends the pages of a walk shows no asset twice, and each one
   that was there unchanged all the time, even if others changed their date.
   */
  lemma ListFollowsWalk(views: seq<set<Item>>, limit: nat, pages: seq<Page>, a: Item)
    requires pages != [] && IsWalk(views, None, limit, pages) && forall v | v in views :: IdsUnique(v)
    ensures Shown(pages) == FirstOfEach(Concat(pages)) && DistinctIds(Shown(pages))
    ensures (forall v | v in views :: a in v) ==> HasId(Shown(pages), a.id)
    ensures DistinctIds(Concat(pages)) ==> Shown(pages) == Concat(pages)
  {
    PagesAreDistinct(views, None, limit, pages);
    ShownIsFirstOfEach(pages);
    FirstOfEachHas(Concat(pages), a.id);
    if forall v | v in views :: a in v {
      WalkVisits(views, None, limit, pages, a);
      var i :| 0 <= i < |Concat(pages)| && Concat(pages)[i] == a;
      assert HasId(Concat(pages), a.id);
    }
    if DistinctIds(Concat(pages)) { AllFirst(Concat(pages)); }
  }
}
