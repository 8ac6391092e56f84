/** The ShipmentTable component: five of the store's shipments per page,
    an unguarded pair of page handlers (Math.max / Math.min) whose buttons
    are disabled at the ends instead, and the footer "Showing a-b of n". */
module ShipmentTableView {
  import opened Paging
  import Storage

  const ItemsPerPage: nat := 5

  /** Math.ceil(shipments.length / itemsPerPage): the fewest pages of five
      that hold the list, 0 exactly for an empty list. */
  function TotalPages(shipments: seq<Storage.Shipment>): (r: nat)
    ensures |shipments| <= r * ItemsPerPage
    ensures r == 0 || (r - 1) * ItemsPerPage < |shipments|
    ensures r == 0 <==> shipments == []
  {
    PageCount(|shipments|, ItemsPerPage)
  }

  /** The Previous button is disabled on page 1 and while loading. When not
      loading and from page 1 on, that is exactly where handlePreviousPage
      would leave the page as it is. */
  predicate PreviousDisabled(page: int, isLoading: bool)
    ensures !isLoading && page >= 1 ==> (PreviousDisabled(page, isLoading) <==> Max(page - 1, 1) == page)
  {
    page == 1 || isLoading
  }

  /** The Next button is disabled on the last page, when there are no
      pages at all, and while loading. When not loading and on a page from
      1 to the page count, that is exactly where handleNextPage would leave
      the page as it is. */
  predicate NextDisabled(page: int, totalPages: int, isLoading: bool)
    ensures !isLoading && 1 <= page <= totalPages ==>
      (NextDisabled(page, totalPages, isLoading) <==> Min(page + 1, totalPages) == page)
  {
    page == totalPages || totalPages == 0 || isLoading
  }

  /** The page after one click: a disabled button does nothing, an enabled
      one runs its handler, Math.max(p - 1, 1) or Math.min(p + 1, totalPages). */
  function PageAfterClick(page: int, totalPages: nat, isLoading: bool, click: Click): (r: int)
    ensures isLoading ==> r == page
    ensures click == PreviousClick && page >= 1 ==> 1 <= r <= page
    ensures click == PreviousClick && page < 1 && !isLoading ==> r == 1
    ensures click == NextClick && page <= totalPages ==> page <= r <= totalPages
  {
    match click
    case PreviousClick =>
      if PreviousDisabled(page, isLoading) then page else Max(page - 1, 1)
    case NextClick =>
      if NextDisabled(page, totalPages, isLoading) then page else Min(page + 1, totalPages)
  }

  /** The page after a run of clicks while the list stays the same. */
  function PageAfterClicks(page: int, totalPages: nat, isLoading: bool, clicks: seq<Click>): int
    decreases |clicks|
  {
    if clicks == [] then page
    else PageAfterClicks(PageAfterClick(page, totalPages, isLoading, clicks[0]), totalPages, isLoading, clicks[1..])
  }

  /** One click from a page in 1 .. max(1, totalPages) stays in that range;
      the totalPages === 0 condition on Next is what keeps an empty list on
      page 1. */
  lemma ClickStaysInRange(page: int, totalPages: nat, isLoading: bool, click: Click)
    requires 1 <= page <= Max(1, totalPages)
    ensures 1 <= PageAfterClick(page, totalPages, isLoading, click) <= Max(1, totalPages)
  {
  }

  /** No run of clicks leaves 1 .. max(1, totalPages). */
  lemma {:induction false} ClicksStayInRange(page: int, totalPages: nat, isLoading: bool, clicks: seq<Click>)
    requires 1 <= page <= Max(1, totalPages)
    ensures 1 <= PageAfterClicks(page, totalPages, isLoading, clicks) <= Max(1, totalPages)
    decreases |clicks|
  {
    if clicks != [] {
      ClickStaysInRange(page, totalPages, isLoading, clicks[0]);
      ClicksStayInRange(PageAfterClick(page, totalPages, isLoading, clicks[0]), totalPages, isLoading, clicks[1..]);
    }
  }

  /** On an empty list only the totalPages === 0 condition disables Next
      (page 1 is not the page count 0); without it handleNextPage would move
      to page 0, whose footer reads "Showing -4-0 of 0". */
  lemma UnguardedNextOnEmptyList(shipments: seq<Storage.Shipment>)
    requires shipments == []
    ensures Min(1 + 1, TotalPages(shipments)) == 0
    ensures ShowingFrom(0, ItemsPerPage) == -4 && ShowingTo(0, ItemsPerPage, |shipments|) == 0
    ensures NextDisabled(1, TotalPages(shipments), false) && 1 != TotalPages(shipments)
  {
  }

  /** The table is not reset when the list shrinks; from a page beyond the
      last one, Next is enabled and moves back to the last page, and
      Previous moves one page down. */
  lemma NextFromBeyondGoesToLastPage(page: int, totalPages: int)
    requires 0 < totalPages < page
    ensures PageAfterClick(page, totalPages, false, NextClick) == totalPages
    ensures PageAfterClick(page, totalPages, false, PreviousClick) == page - 1
  {
  }

  class ShipmentTable {
    var currentPage: int

    /** useState(1) */
    constructor ()
      ensures currentPage == 1
    {
      currentPage := 1;
    }

    /** currentItems: shipments.slice(currentPage * 5 - 5, currentPage * 5).
        From page 1 on it is the fifth of the list that page stands for, cut
        at the end of the list; a page within the page count is never empty,
        one past it always is. */
    function CurrentItems(shipments: seq<Storage.Shipment>): (r: seq<Storage.Shipment>)
      reads this
      ensures |r| <= ItemsPerPage
      ensures currentPage >= 1 ==>
        r == shipments[Min((currentPage - 1) * ItemsPerPage, |shipments|)..Min(currentPage * ItemsPerPage, |shipments|)]
      ensures 1 <= currentPage <= TotalPages(shipments) ==> |r| > 0
      ensures currentPage > TotalPages(shipments) || currentPage == 0 ==> r == []
    {
      PageItemsFacts(shipments, currentPage, ItemsPerPage);
      PageItems(shipments, currentPage, ItemsPerPage)
    }

    /** handlePreviousPage: Math.max(prev - 1, 1). */
    method HandlePreviousPage()
      modifies this`currentPage
      ensures currentPage == Max(old(currentPage) - 1, 1)
      ensures currentPage >= 1
    {
      currentPage := Max(currentPage - 1, 1);
    }

    /** handleNextPage: Math.min(prev + 1, totalPages). */
    method HandleNextPage(shipments: seq<Storage.Shipment>)
      modifies this`currentPage
      ensures currentPage == Min(old(currentPage) + 1, TotalPages(shipments))
      ensures currentPage <= TotalPages(shipments)
    {
      currentPage := Min(currentPage + 1, TotalPages(shipments));
    }

    /** A click on Previous: nothing when the button is disabled. */
    method ClickPrevious(shipments: seq<Storage.Shipment>, isLoading: bool)
      modifies this`currentPage
      ensures currentPage == PageAfterClick(old(currentPage), TotalPages(shipments), isLoading, PreviousClick)
      ensures 1 <= old(currentPage) <= Max(1, TotalPages(shipments)) ==> 1 <= currentPage <= Max(1, TotalPages(shipments))
    {
      if !PreviousDisabled(currentPage, isLoading) {
        HandlePreviousPage();
      }
    }

    /** A click on Next: nothing when the button is disabled. */
    method ClickNext(shipments: seq<Storage.Shipment>, isLoading: bool)
      modifies this`currentPage
      ensures currentPage == PageAfterClick(old(currentPage), TotalPages(shipments), isLoading, NextClick)
      ensures 1 <= old(currentPage) <= Max(1, TotalPages(shipments)) ==> 1 <= currentPage <= Max(1, TotalPages(shipments))
    {
      if !NextDisabled(currentPage, TotalPages(shipments), isLoading) {
        HandleNextPage(shipments);
      }
    }
  }
}
