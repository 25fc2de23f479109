/** The page strip under a paged list: page 1, the last page and the pages
    within two of the current one, an ellipsis wherever pages are skipped,
    and previous/next buttons that are disabled at the ends. Both list pages
    of the site render it the same way. */
module Pager {

  /** The pagination block a list page holds. */
  datatype Pagination = Pagination(total: int, page: int, limit: int, totalPages: int)

  /** The filter's test: `page === 1 || page === totalPages || Math.abs(page - current) <= 2`. */
  predicate Shown(p: int, current: int, totalPages: int)
  {
    p == 1 || p == totalPages || -2 <= p - current <= 2
  }

  /** The pages lo, lo + 1, ..., totalPages that pass the test, ascending. */
  function ShownFrom(lo: int, current: int, totalPages: int): seq<int>
    decreases totalPages + 1 - lo
  {
    if lo > totalPages then []
    else (if Shown(lo, current, totalPages) then [lo] else []) + ShownFrom(lo + 1, current, totalPages)
  }

  /** `Array.from({ length: totalPages }, (_, i) => i + 1).filter(...)`. */
  function Window(current: int, totalPages: int): seq<int>
  {
    ShownFrom(1, current, totalPages)
  }

  /** `index > 0 && array[index - 1] !== page - 1`: an ellipsis goes before
      the i-th shown page. */
  predicate EllipsisBefore(w: seq<int>, i: int)
  {
    0 < i < |w| && w[i - 1] != w[i] - 1
  }

  /** The strip holds exactly the pages that pass the test, ascending, and
      the i-th one is at least lo + i. */
  lemma {:induction false} ShownFromMeaning(lo: int, current: int, totalPages: int)
    ensures var r := ShownFrom(lo, current, totalPages);
      && (forall p :: p in r <==> lo <= p <= totalPages && Shown(p, current, totalPages))
      && (forall i | 0 <= i < |r| :: lo + i <= r[i] <= totalPages)
      && (forall i, j | 0 <= i < j < |r| :: r[j] - r[i] >= j - i)
    decreases totalPages + 1 - lo
  {
    if lo <= totalPages {
      var rest := ShownFrom(lo + 1, current, totalPages);
      ShownFromMeaning(lo + 1, current, totalPages);
      var r := ShownFrom(lo, current, totalPages);
      if Shown(lo, current, totalPages) {
        assert r == [lo] + rest;
        forall i, j | 0 <= i < j < |r|
          ensures r[j] - r[i] >= j - i
        {
          if i > 0 {
            assert r[i] == rest[i - 1] && r[j] == rest[j - 1];
          } else {
            assert r[j] == rest[j - 1];
          }
        }
      }
    }
  }

  /** Pages 1 and totalPages are always in the strip, and it never has more
      than seven buttons: besides the two ends only the five pages around
      the current one can appear. */
  lemma WindowBounds(current: int, totalPages: int)
    requires totalPages >= 1
    ensures 1 in Window(current, totalPages) && totalPages in Window(current, totalPages)
    ensures |Window(current, totalPages)| <= 7
  {
    var w := Window(current, totalPages);
    ShownFromMeaning(1, current, totalPages);
    if |w| > 7 {
      InnerNearCurrent(current, totalPages, 1);
      InnerNearCurrent(current, totalPages, |w| - 2);
    }
  }

  /** A button between the first and the last is within two of the
      current page. */
  lemma InnerNearCurrent(current: int, totalPages: int, i: int)
    requires 0 < i < |Window(current, totalPages)| - 1
    ensures -2 <= Window(current, totalPages)[i] - current <= 2
  {
    var w := Window(current, totalPages);
    WindowAscending(current, totalPages);
    assert w[0] < w[i] < w[|w| - 1];
    assert w[i] in w;
  }

  /** Strictly ascending, by at least one per position. */
  predicate Ascending(w: seq<int>)
  {
    forall i, j | 0 <= i < j < |w| :: w[j] - w[i] >= j - i
  }

  /** Nothing in an ascending strip lies strictly between two neighbours. */
  lemma NothingBetween(w: seq<int>, i: int, k: int)
    requires Ascending(w) && 0 < i < |w| && 0 <= k < |w|
    ensures !(w[i - 1] < w[k] < w[i])
  {
    if k < i {
      assert w[i - 1] - w[k] >= i - 1 - k;
    } else {
      assert w[k] - w[i] >= k - i;
    }
  }

  lemma WindowAscending(current: int, totalPages: int)
    ensures Ascending(Window(current, totalPages))
    ensures forall i | 0 <= i < |Window(current, totalPages)| :: 1 <= Window(current, totalPages)[i] <= totalPages
    ensures forall p :: p in Window(current, totalPages) <==> 1 <= p <= totalPages && Shown(p, current, totalPages)
  {
    ShownFromMeaning(1, current, totalPages);
  }

  /** An ellipsis can only stand before the second button (pages skipped
      after page 1) or before the last one (pages skipped before the last
      page), so there are at most two. */
  lemma EllipsisPlaces(current: int, totalPages: int, i: int)
    requires EllipsisBefore(Window(current, totalPages), i)
    ensures i == 1 || i == |Window(current, totalPages)| - 1
  {
    var w := Window(current, totalPages);
    WindowAscending(current, totalPages);
    var n := |w|;
    if 1 < i < n - 1 {
      var h := w[i - 1] + 1;
      InnerNearCurrent(current, totalPages, i - 1);
      InnerNearCurrent(current, totalPages, i);
      assert Shown(h, current, totalPages);
      var k :| 0 <= k < n && w[k] == h;
      NothingBetween(w, i, k);
    }
  }

  /** An ellipsis stands before the i-th button iff some page between it
      and the previous button is left out. */
  lemma EllipsisMeansGap(current: int, totalPages: int, i: int)
    requires 0 < i < |Window(current, totalPages)|
    ensures var w := Window(current, totalPages);
      EllipsisBefore(w, i) <==> exists h :: w[i - 1] < h < w[i] && h !in w
  {
    var w := Window(current, totalPages);
    WindowAscending(current, totalPages);
    assert w[i] - w[i - 1] >= 1;
    if EllipsisBefore(w, i) {
      var h := w[i - 1] + 1;
      if h in w {
        var k :| 0 <= k < |w| && w[k] == h;
        NothingBetween(w, i, k);
      }
      assert w[i - 1] < h < w[i] && h !in w;
    }
  }

  /** Every page that is left out lies under an ellipsis. */
  lemma HiddenUnderEllipsis(current: int, totalPages: int, h: int)
    requires 1 <= h <= totalPages && h !in Window(current, totalPages)
    ensures var w := Window(current, totalPages);
      exists i :: EllipsisBefore(w, i) && w[i - 1] < h < w[i]
  {
    var w := Window(current, totalPages);
    WindowAscending(current, totalPages);
    assert 1 in w && totalPages in w;
    var i := FirstAbove(w, h);
    assert EllipsisBefore(w, i);
  }

  /** In an ascending strip that holds pages below and above h but not h,
      some neighbouring pair straddles h. */
  lemma FirstAbove(w: seq<int>, h: int) returns (i: int)
    requires Ascending(w)
    requires |w| > 0 && w[0] < h && h !in w && exists k | 0 <= k < |w| :: w[k] > h
    ensures 0 < i < |w| && w[i - 1] < h < w[i]
  {
    i := 1;
    while w[i] < h
      invariant 1 <= i < |w| && w[i - 1] < h
      invariant exists k | i <= k < |w| :: w[k] > h
      decreases |w| - i
    {
      assert w[i] != h;
      i := i + 1;
    }
    assert w[i] != h;
  }

  /** `totalPages > 1 && (...)`: a single page gets no strip. */
  predicate Rendered(p: Pagination)
  {
    p.totalPages > 1
  }

  /** `disabled={pagination.page === 1}` and `disabled={pagination.page === pagination.totalPages}`. */
  predicate PreviousDisabled(p: Pagination)
  {
    p.page == 1
  }

  predicate NextDisabled(p: Pagination)
  {
    p.page == p.totalPages
  }

  /** From a page inside the range, the enabled previous and next buttons
      and the page buttons all lead to a page inside the range. */
  lemma NavigationStaysInRange(p: Pagination, target: int)
    requires Rendered(p) && 1 <= p.page <= p.totalPages
    ensures !PreviousDisabled(p) ==> 1 <= p.page - 1 <= p.totalPages
    ensures !NextDisabled(p) ==> 1 <= p.page + 1 <= p.totalPages
    ensures PreviousDisabled(p) ==> p.page - 1 < 1
    ensures NextDisabled(p) ==> p.page + 1 > p.totalPages
    ensures target in Window(p.page, p.totalPages) ==> 1 <= target <= p.totalPages
  {
    ShownFromMeaning(1, p.page, p.totalPages);
  }

  /** For example, page 6 of 12 shows 1 … 4 5 6 7 8 … 12. */
  lemma WindowExample()
    ensures Window(6, 12) == [1, 4, 5, 6, 7, 8, 12]
    ensures EllipsisBefore(Window(6, 12), 1) && EllipsisBefore(Window(6, 12), 6)
  {
    assert ShownFrom(9, 6, 12) == [12];
    assert ShownFrom(4, 6, 12) == [4, 5, 6, 7, 8, 12];
    assert ShownFrom(2, 6, 12) == [4, 5, 6, 7, 8, 12];
  }
}
