/** The five-button page window the three paginated admin/creator tables
    render, the page-change guard their `handlePageChange` applies, and the
    "Showing X - Y" range of the users table. */
module Pagination {
  import opened Lists

  const WindowSize := 5

  /** The `pagination` state of a paginated page, as the server reports it. */
  datatype PageInfo = PageInfo(currentPage: int, totalPages: nat)

  /** Where every paginated page starts before its first response. */
  const FirstPage := PageInfo(1, 1)

  /** `pageToShow` of button `i`: the first five pages near the start, the
      last five near the end, otherwise the current page two from each side. */
  function PageToShow(currentPage: int, totalPages: int, i: int): int
  {
    if totalPages <= 5 then i + 1
    else if currentPage <= 3 then i + 1
    else if currentPage >= totalPages - 2 then totalPages - 4 + i
    else currentPage - 2 + i
  }

  /** `[...Array(Math.min(5, totalPages))].map((_, i) => pageToShow)` */
  function PageWindow(currentPage: int, totalPages: nat): (w: seq<int>)
    ensures |w| == Min(WindowSize, totalPages)
    ensures forall i :: 0 <= i < |w| ==> 1 <= w[i] <= totalPages
    ensures forall i :: 0 < i < |w| ==> w[i] == w[i - 1] + 1
  {
    seq(Min(WindowSize, totalPages), i => PageToShow(currentPage, totalPages, i))
  }

  /** `newPage >= 1 && newPage <= pagination.totalPages` */
  predicate PageChangeAllowed(newPage: int, totalPages: int)
  {
    1 <= newPage <= totalPages
  }

  /** The window always shows the current page when it is a real page. */
  lemma WindowContainsCurrent(currentPage: int, totalPages: nat)
    requires 1 <= currentPage <= totalPages
    ensures currentPage in PageWindow(currentPage, totalPages)
  {
    var w := PageWindow(currentPage, totalPages);
    var k := if totalPages <= 5 || currentPage <= 3 then currentPage - 1
             else if currentPage >= totalPages - 2 then currentPage - totalPages + 4
             else 2;
    assert w[k] == currentPage;
  }

  /** Away from both ends the current page sits in the middle of the window. */
  lemma WindowCentred(currentPage: int, totalPages: nat)
    requires totalPages > 5 && 3 < currentPage < totalPages - 2
    ensures PageWindow(currentPage, totalPages)
         == [currentPage - 2, currentPage - 1, currentPage, currentPage + 1, currentPage + 2]
  {
  }

  /** Every button of the window leads to a page the guard lets through. */
  lemma WindowPagesAllowed(currentPage: int, totalPages: nat, i: nat)
    requires i < |PageWindow(currentPage, totalPages)|
    ensures PageChangeAllowed(PageWindow(currentPage, totalPages)[i], totalPages)
  {
  }

  /** The "Previous" and "Next" buttons are handed `currentPage - 1` and
      `currentPage + 1`; from a real page the guard refuses them exactly at the
      first and at the last page. */
  lemma NeighbourPages(currentPage: int, totalPages: nat)
    requires 1 <= currentPage <= totalPages
    ensures PageChangeAllowed(currentPage - 1, totalPages) <==> currentPage != 1
    ensures PageChangeAllowed(currentPage + 1, totalPages) <==> currentPage != totalPages
  {
  }

  datatype Range = Range(first: int, last: int)

  const PageSize := 10

  /** "Showing {first} - {last}": `(c - 1) * 10 + 1` to
      `Math.min(c * 10, (c - 1) * 10 + shown)`. */
  function ShowingRange(currentPage: int, shown: nat): (r: Range)
    ensures r.first == (currentPage - 1) * PageSize + 1
    ensures r.last <= currentPage * PageSize
    ensures r.last - r.first + 1 == Min(PageSize, shown)
  {
    Range((currentPage - 1) * PageSize + 1,
          Min(currentPage * PageSize, (currentPage - 1) * PageSize + shown))
  }
}
