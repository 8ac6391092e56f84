/** The Shipments page: the schema's shipment rows filtered by the search
    box over product id, source, destination and status, newest first, ten
    per page, with Previous/Next handlers that only move within the page
    count. */
module ShipmentsPage {
  import opened Paging
  import opened Schema
  import ShipmentSearch

  const ItemsPerPage: nat := 10

  class Shipments {
    var searchTerm: string
    var currentPage: int

    /** useState('') and useState(1) */
    constructor ()
      ensures searchTerm == "" && currentPage == 1
    {
      searchTerm := "";
      currentPage := 1;
    }

    /** filteredShipments: the shipments whose productId, source,
        destination or status includes the search term, in lower case, newest first. It holds
        exactly the matching shipments, as often as the list does. */
    function FilteredShipments(shipments: seq<Shipment>): (r: seq<Shipment>)
      reads this
      ensures forall s :: multiset(r)[s] == (if ShipmentSearch.MatchesWithStatus(s, searchTerm) then multiset(shipments)[s] else 0)
      ensures forall i, j :: 0 <= i < j < |r| ==> r[i].createdAt >= r[j].createdAt
      ensures searchTerm == "" ==> multiset(r) == multiset(shipments)
    {
      var term := searchTerm;
      var matches := s => ShipmentSearch.MatchesWithStatus(s, term);
      ShipmentSearch.SearchKeepsExactlyTheMatches(shipments, matches);
      ShipmentSearch.SearchIsNewestFirst(shipments, matches);
      if term == "" then
        ShipmentSearch.EmptyTermListsEverything(shipments, term);
        ShipmentSearch.Search(shipments, matches)
      else
        ShipmentSearch.Search(shipments, matches)
    }

    /** Math.ceil(filteredShipments.length / itemsPerPage) */
    function TotalPages(shipments: seq<Shipment>): (r: nat)
      reads this
      ensures |FilteredShipments(shipments)| <= r * ItemsPerPage
      ensures r == 0 || (r - 1) * ItemsPerPage < |FilteredShipments(shipments)|
      ensures r == 0 <==> FilteredShipments(shipments) == []
    {
      PageCount(|FilteredShipments(shipments)|, ItemsPerPage)
    }

    /** paginatedShipments: filteredShipments.slice(startIndex, startIndex +
        10) with startIndex = (currentPage - 1) * 10. From page 1 on it
        is the stretch of the filtered list that page stands for; a page
        within the page count is never empty, and a page past it is empty,
        which a search that shortens the list can bring about because it
        leaves currentPage as it is. */
    function PaginatedShipments(shipments: seq<Shipment>): (r: seq<Shipment>)
      reads this
      ensures |r| <= ItemsPerPage
      ensures var f := FilteredShipments(shipments);
        currentPage >= 1 ==> r == f[Min((currentPage - 1) * ItemsPerPage, |f|)..Min(currentPage * ItemsPerPage, |f|)]
      ensures 1 <= currentPage <= TotalPages(shipments) ==> |r| > 0
      ensures currentPage > TotalPages(shipments) ==> r == []
    {
      var f := FilteredShipments(shipments);
      PageItemsFacts(f, currentPage, ItemsPerPage);
      PageItems(f, currentPage, ItemsPerPage)
    }

    /** The footer "Showing from to to of n": from page 1 on, it counts the
        rows of the page exactly when there are any. */
    function ShowingRange(shipments: seq<Shipment>): (r: (int, int))
      reads this
      ensures currentPage >= 1 ==> |PaginatedShipments(shipments)| == Max(0, r.1 - r.0 + 1)
      ensures currentPage >= 1 ==> (|PaginatedShipments(shipments)| > 0 <==> r.0 <= r.1)
    {
      var f := FilteredShipments(shipments);
      if currentPage >= 1 then
        ShowingRangeMatchesPage(f, currentPage, ItemsPerPage);
        (ShowingFrom(currentPage, ItemsPerPage), ShowingTo(currentPage, ItemsPerPage, |f|))
      else
        (ShowingFrom(currentPage, ItemsPerPage), ShowingTo(currentPage, ItemsPerPage, |f|))
    }

    /** setSearchTerm from the search box; the page number stays. */
    method SetSearchTerm(term: string)
      modifies this`searchTerm
      ensures searchTerm == term
    {
      searchTerm := term;
    }

    /** handlePrevPage: one page back, only from a page above 1. */
    method HandlePrevPage()
      modifies this`currentPage
      ensures currentPage == GuardedPrevious(old(currentPage))
      ensures old(currentPage) >= 1 ==> currentPage >= 1
    {
      if currentPage > 1 {
        currentPage := currentPage - 1;
      }
    }

    /** handleNextPage: one page on, only from a page below the page count,
        so a page within 1 .. max(1, totalPages) stays within it. */
    method HandleNextPage(shipments: seq<Shipment>)
      modifies this`currentPage
      ensures currentPage == GuardedNext(old(currentPage), TotalPages(shipments))
      ensures 1 <= old(currentPage) <= Max(1, TotalPages(shipments)) ==>
        1 <= currentPage <= Max(1, TotalPages(shipments))
    {
      if currentPage < TotalPages(shipments) {
        currentPage := currentPage + 1;
      }
    }
  }

  /** The Previous button is disabled on page 1 only. From page 1 on, that
      is exactly where handlePrevPage would leave the page as it is. */
  predicate PreviousDisabled(page: int)
    ensures page >= 1 ==> (PreviousDisabled(page) <==> GuardedPrevious(page) == page)
  {
    page == 1
  }

  /** The Next button is disabled when the page is the page count. On a
      page from 1 to the page count, that is exactly where handleNextPage
      would leave the page as it is. */
  predicate NextDisabled(page: int, totalPages: int)
    ensures 1 <= page <= totalPages ==> (NextDisabled(page, totalPages) <==> GuardedNext(page, totalPages) == page)
  {
    page == totalPages
  }

  /** With nothing to list there are no pages, yet page 1 is not page 0, so
      Next stays enabled; its handler's guard is what keeps the page at 1. */
  lemma NextEnabledButInertWhenEmpty(page: int, totalPages: int)
    requires page == 1 && totalPages == 0
    ensures !NextDisabled(page, totalPages)
    ensures GuardedNext(page, totalPages) == page
  {
  }
}
