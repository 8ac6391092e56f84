/** Pagination as the list views compute it: the page count
    Math.ceil(n / perPage), the window of a 1-based page taken with
    Array.prototype.slice, the "Showing a to b of n" range, and the guarded
    Previous/Next handlers of the shipments page and the dashboard list. */
module Paging {

  function Min(a: int, b: int): int {
    if a <= b then a else b
  }

  function Max(a: int, b: int): int {
    if a <= b then b else a
  }

  lemma MulStep(k: int, perPage: int)
    ensures k * perPage == (k - 1) * perPage + perPage
  {
  }

  lemma MulMonotone(a: int, b: int, c: nat)
    requires a <= b
    ensures a * c <= b * c
  {
  }

  /** Math.ceil(n / perPage): the least number of pages of perPage items
      that holds n items. */
  function PageCount(n: nat, perPage: nat): (r: nat)
    requires perPage > 0
    ensures n <= r * perPage
    ensures r == 0 || (r - 1) * perPage < n
    ensures r == 0 <==> n == 0
  {
    var q := (n + perPage - 1) / perPage;
    var m := (n + perPage - 1) % perPage;
    assert q * perPage + m == n + perPage - 1;
    assert (q - 1) * perPage == q * perPage - perPage;
    q
  }

  /** Where Array.prototype.slice starts or stops for the argument i on a
      sequence of length len: a negative i counts from the end, and the
      result is clamped into 0..len. */
  function SlicePosition(i: int, len: nat): (r: nat)
    ensures r <= len
    ensures 0 <= i <= len ==> r == i
    ensures i > len ==> r == len
    ensures i < 0 ==> r == Max(len + i, 0)
  {
    if i < 0 then Max(len + i, 0) else Min(i, len)
  }

  /** xs.slice(start, end): items taken from xs only; for start <= end, at
      most end - start of them (a negative end counts from the end of xs, so
      slice(0, -1) of five items holds four). */
  function Slice<T>(xs: seq<T>, start: int, end: int): (r: seq<T>)
    ensures |r| <= |xs|
    ensures start <= end ==> |r| <= end - start
    ensures forall x :: x in r ==> x in xs
  {
    var a, b := SlicePosition(start, |xs|), SlicePosition(end, |xs|);
    if a < b then xs[a..b] else []
  }

  /** The items of the 1-based page: xs.slice(start, start + perPage) with
      start = (page - 1) * perPage. ShipmentTable writes the same window as
      slice(page * perPage - perPage, page * perPage). */
  function PageItems<T>(xs: seq<T>, page: int, perPage: nat): (r: seq<T>)
    ensures |r| <= perPage
    ensures forall x :: x in r ==> x in xs
  {
    var start := (page - 1) * perPage;
    Slice(xs, start, start + perPage)
  }

  /** For a page from 1 on, the window is the stretch of xs from
      (page - 1) * perPage to page * perPage, cut at the end of xs, so it
      holds at most perPage items. */
  lemma PageItemsWindow<T>(xs: seq<T>, page: int, perPage: nat)
    requires page >= 1
    ensures var first, last := Min((page - 1) * perPage, |xs|), Min(page * perPage, |xs|);
      first <= last && PageItems(xs, page, perPage) == xs[first..last]
    ensures |PageItems(xs, page, perPage)| <= perPage
  {
    var start := (page - 1) * perPage;
    assert start >= 0 by {
      assert page - 1 >= 0;
    }
    assert start + perPage == page * perPage;
  }

  /** Page 0 (which ShipmentTable's Next handler reaches when there are no
      pages) is empty: slice(-perPage, 0) stops at position 0. */
  lemma PageZeroIsEmpty<T>(xs: seq<T>, perPage: nat)
    ensures PageItems(xs, 0, perPage) == []
  {
  }

  /** A page past the page count is empty. The page number is not reset when
      a search shortens the list, so this window is reachable. */
  lemma PageBeyondCountIsEmpty<T>(xs: seq<T>, page: int, perPage: nat)
    requires perPage > 0 && page > PageCount(|xs|, perPage)
    ensures PageItems(xs, page, perPage) == []
  {
    var count := PageCount(|xs|, perPage);
    MulMonotone(count, page - 1, perPage);
    var start := (page - 1) * perPage;
    assert start >= |xs|;
    assert SlicePosition(start, |xs|) == |xs|;
  }

  /** A page from 1 to the page count holds perPage items, or the rest of
      the list on the last page; in particular it is never empty. */
  lemma PageWithinCountIsFull<T>(xs: seq<T>, page: int, perPage: nat)
    requires perPage > 0 && 1 <= page <= PageCount(|xs|, perPage)
    ensures |PageItems(xs, page, perPage)| == Min(perPage, |xs| - (page - 1) * perPage) > 0
  {
    PageStartWithinList(|xs|, page, perPage);
    PageItemsWindow(xs, page, perPage);
    MulStep(page, perPage);
  }

  /** A page from 1 to the page count starts inside the list. */
  lemma PageStartWithinList(n: nat, page: int, perPage: nat)
    requires perPage > 0 && 1 <= page <= PageCount(n, perPage)
    ensures 0 <= (page - 1) * perPage < n
  {
    MulMonotone(page - 1, PageCount(n, perPage) - 1, perPage);
    MulMonotone(0, page - 1, perPage);
  }

  /** What a view needs to know of its current page: at most perPage items;
      from page 1 on, the page's stretch of the list; non-empty within the
      page count; empty past it and on page 0. */
  lemma PageItemsFacts<T>(xs: seq<T>, page: int, perPage: nat)
    requires perPage > 0
    ensures |PageItems(xs, page, perPage)| <= perPage
    ensures page >= 1 ==>
      PageItems(xs, page, perPage) == xs[Min((page - 1) * perPage, |xs|)..Min(page * perPage, |xs|)]
    ensures 1 <= page <= PageCount(|xs|, perPage) ==> |PageItems(xs, page, perPage)| > 0
    ensures page > PageCount(|xs|, perPage) || page == 0 ==> PageItems(xs, page, perPage) == []
  {
    if page >= 1 {
      PageItemsWindow(xs, page, perPage);
      if page <= PageCount(|xs|, perPage) {
        PageWithinCountIsFull(xs, page, perPage);
      } else {
        PageBeyondCountIsEmpty(xs, page, perPage);
      }
    } else if page == 0 {
      PageZeroIsEmpty(xs, perPage);
    }
  }

  /** The concatenation of pages 1 to k. */
  function PagesThrough<T>(xs: seq<T>, k: nat, perPage: nat): seq<T> {
    if k == 0 then [] else PagesThrough(xs, k - 1, perPage) + PageItems(xs, k, perPage)
  }

  /** Where page k ends: after k * perPage items, or at the end of a list
      of n items. */
  function PageEnd(k: nat, perPage: nat, n: nat): nat {
    Min(k * perPage, n)
  }

  /** Page k runs from the end of page k - 1 to its own end. */
  lemma PageBetweenEnds<T>(xs: seq<T>, k: nat, perPage: nat)
    requires k >= 1
    ensures PageEnd(k - 1, perPage, |xs|) <= PageEnd(k, perPage, |xs|)
    ensures PageItems(xs, k, perPage) == xs[PageEnd(k - 1, perPage, |xs|)..PageEnd(k, perPage, |xs|)]
  {
    PageItemsWindow(xs, k, perPage);
  }

  /** Pages 1 to k together are the first k * perPage items. */
  lemma {:induction false} PagesThroughIsPrefix<T>(xs: seq<T>, k: nat, perPage: nat)
    ensures PagesThrough(xs, k, perPage) == xs[..PageEnd(k, perPage, |xs|)]
  {
    if k > 0 {
      var first, last := PageEnd(k - 1, perPage, |xs|), PageEnd(k, perPage, |xs|);
      PagesThroughIsPrefix(xs, k - 1, perPage);
      PageBetweenEnds(xs, k, perPage);
      assert xs[..last] == xs[..first] + xs[first..last];
    }
  }

  /** The pages from 1 to the page count partition the list: read in order
      they give back every item once, in the list's order. */
  lemma PagesCoverList<T>(xs: seq<T>, perPage: nat)
    requires perPage > 0
    ensures PagesThrough(xs, PageCount(|xs|, perPage), perPage) == xs
  {
    PagesThroughIsPrefix(xs, PageCount(|xs|, perPage), perPage);
  }

  /** The "Showing from to to of n" footer: from is start + 1 and to is
      Math.min(start + perPage, n), with start = (page - 1) * perPage. */
  function ShowingFrom(page: int, perPage: nat): (r: int)
    ensures page >= 1 ==> r >= 1
  {
    ShowingFromStep(page, perPage);
    (page - 1) * perPage + 1
  }

  /** From page 1 on, the rows before the page are not negative in number. */
  lemma ShowingFromStep(page: int, perPage: nat)
    ensures page >= 1 ==> (page - 1) * perPage >= 0
  {
    if page >= 1 {
      MulMonotone(0, page - 1, perPage);
    }
  }

  /** The footer's to: never past the list, and at most perPage rows after
      from. */
  function ShowingTo(page: int, perPage: nat, n: nat): (r: int)
    ensures r <= n
    ensures r - ShowingFrom(page, perPage) + 1 <= perPage
  {
    Min((page - 1) * perPage + perPage, n)
  }

  /** From page 1 on, the footer counts exactly the rows on the page when
      there are any; on an empty page past the end it reads backwards
      (from > to). */
  lemma ShowingRangeMatchesPage<T>(xs: seq<T>, page: int, perPage: nat)
    requires page >= 1
    ensures |PageItems(xs, page, perPage)| == Max(0, ShowingTo(page, perPage, |xs|) - ShowingFrom(page, perPage) + 1)
    ensures |PageItems(xs, page, perPage)| > 0 <==> ShowingFrom(page, perPage) <= ShowingTo(page, perPage, |xs|)
  {
    PageItemsWindow(xs, page, perPage);
    MulStep(page, perPage);
  }

  /** handlePrevPage of the shipments page and the dashboard list: step back
      only from a page above 1. */
  function GuardedPrevious(page: int): (r: int)
    ensures page > 1 ==> r == page - 1
    ensures page <= 1 ==> r == page
  {
    if page > 1 then page - 1 else page
  }

  /** handleNextPage of the shipments page and the dashboard list: step
      forward only from a page below the page count. */
  function GuardedNext(page: int, pageCount: int): (r: int)
    ensures page < pageCount ==> r == page + 1
    ensures page >= pageCount ==> r == page
  {
    if page < pageCount then page + 1 else page
  }

  datatype Click = PreviousClick | NextClick

  /** The page after a run of clicks on Previous and Next while the list,
      and so the page count, stays the same. */
  function AfterGuardedClicks(page: int, pageCount: int, clicks: seq<Click>): int
    decreases |clicks|
  {
    if clicks == [] then page
    else
      var next := match clicks[0]
        case PreviousClick => GuardedPrevious(page)
        case NextClick => GuardedNext(page, pageCount);
      AfterGuardedClicks(next, pageCount, clicks[1..])
  }

  /** Starting from a page in 1..max(1, pageCount), no run of clicks leaves
      that range. */
  lemma {:induction false} GuardedClicksStayInRange(page: int, pageCount: int, clicks: seq<Click>)
    requires 1 <= page <= Max(1, pageCount)
    ensures 1 <= AfterGuardedClicks(page, pageCount, clicks) <= Max(1, pageCount)
    decreases |clicks|
  {
    if clicks != [] {
      var next := match clicks[0]
        case PreviousClick => GuardedPrevious(page)
        case NextClick => GuardedNext(page, pageCount);
      GuardedClicksStayInRange(next, pageCount, clicks[1..]);
    }
  }
}
