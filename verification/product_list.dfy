/** The pagination bar of pages/Products/ProductList.jsx: the window of at most five
    page numbers around the current page, the first and last page links with
    ellipses when pages are skipped, and Prev/Next, disabled at the ends. */
module Pager {
  import opened Store

  const MaxVisiblePages := 5

  /** The window of page numbers shown, `start..end` inclusive. */
  datatype Span = Span(start: int, end: int)

  /** renderPagination's window: centred on the current page where possible, shifted
      to keep five pages when it would run past the last page. */
  function Window(current: int, total: int): (w: Span)
    requires total >= 1
    ensures 1 <= w.start <= w.end <= total
    ensures w.end - w.start <= MaxVisiblePages - 1
    ensures 1 <= current <= total ==> w.start <= current <= w.end
    ensures total >= MaxVisiblePages ==> w.end - w.start == MaxVisiblePages - 1
    ensures total < MaxVisiblePages ==> w.start == 1 && w.end == total
  {
    var start := if current - MaxVisiblePages / 2 > 1 then current - MaxVisiblePages / 2 else 1;
    var end := if total < start + MaxVisiblePages - 1 then total else start + MaxVisiblePages - 1;
    if end - start < MaxVisiblePages - 1 then
      Span(if end - MaxVisiblePages + 1 > 1 then end - MaxVisiblePages + 1 else 1, end)
    else Span(start, end)
  }

  /** One element of the bar. */
  datatype Control = Prev(disabled: bool) | PageLink(page: int, active: bool) | Ellipsis | Next(disabled: bool)

  /** The numbered links `start..end`, the current one active. */
  function Numbers(start: int, end: int, current: int): (r: seq<Control>)
    ensures |r| == if start <= end then end - start + 1 else 0
    decreases end - start
  {
    if start > end then [] else Numbers(start, end - 1, current) + [PageLink(end, end == current)]
  }

  /** The `i`-th numbered link is page `start + i`, active exactly when it is the current page. */
  lemma {:induction false} NumbersAt(start: int, end: int, current: int)
    ensures forall i :: 0 <= i < |Numbers(start, end, current)| ==>
      Numbers(start, end, current)[i] == PageLink(start + i, start + i == current)
    decreases end - start
  {
    if start <= end {
      NumbersAt(start, end - 1, current);
    }
  }

  /** The link to page 1 before the window, and '...' when page 2 is skipped too. */
  function FirstLinks(start: int): seq<Control>
  {
    if start > 1 then [PageLink(1, false)] + (if start > 2 then [Ellipsis] else []) else []
  }

  /** '...' when the page before the last is skipped, and the link to the last page. */
  function LastLinks(end: int, total: int): seq<Control>
  {
    if end < total then (if end < total - 1 then [Ellipsis] else []) + [PageLink(total, false)] else []
  }

  /** The whole bar for a current page and a page count above one. */
  function Layout(current: int, total: int): seq<Control>
    requires total >= 1
  {
    var w := Window(current, total);
    [Prev(current == 1)] + FirstLinks(w.start) + Numbers(w.start, w.end, current) + LastLinks(w.end, total) + [Next(current == total)]
  }

  predicate Shows(bar: seq<Control>, page: int)
  {
    exists active :: PageLink(page, active) in bar
  }

  /** The bar links exactly page 1, the last page and the pages of the window; only
      the current page is marked active, and it is whenever it is a real page. */
  lemma LayoutLinks(current: int, total: int, page: int)
    requires total >= 1
    ensures Shows(Layout(current, total), page) <==>
      1 <= page <= total && (page == 1 || page == total || Window(current, total).start <= page <= Window(current, total).end)
    ensures PageLink(page, true) in Layout(current, total) ==> page == current
    ensures 1 <= current <= total ==> PageLink(current, true) in Layout(current, total)
  {
    var w := Window(current, total);
    var nums := Numbers(w.start, w.end, current);
    var bar := Layout(current, total);
    NumbersAt(w.start, w.end, current);
    assert bar == [Prev(current == 1)] + FirstLinks(w.start) + nums + LastLinks(w.end, total) + [Next(current == total)];
    if 1 <= page <= total && (page == 1 || page == total || w.start <= page <= w.end) {
      if w.start <= page <= w.end {
        assert nums[page - w.start] == PageLink(page, page == current);
        assert PageLink(page, page == current) in bar;
      } else if page == 1 {
        assert PageLink(1, false) in FirstLinks(w.start);
        assert PageLink(1, false) in bar;
      } else {
        assert PageLink(total, false) in LastLinks(w.end, total);
        assert PageLink(total, false) in bar;
      }
    }
    if Shows(bar, page) {
      var active :| PageLink(page, active) in bar;
      if PageLink(page, active) in nums {
        var i :| 0 <= i < |nums| && nums[i] == PageLink(page, active);
      }
    }
    if PageLink(page, true) in bar {
      if PageLink(page, true) in nums {
        var i :| 0 <= i < |nums| && nums[i] == PageLink(page, true);
      }
    }
    if 1 <= current <= total {
      assert nums[current - w.start] == PageLink(current, true);
      assert PageLink(current, true) in bar;
    }
  }

  /** The `for` loop of renderPagination: pushes the links `start..end`. */
  method PushNumbers(pages: seq<Control>, start: int, end: int, current: int) returns (r: seq<Control>)
    requires start <= end
    ensures r == pages + Numbers(start, end, current)
  {
    r := pages;
    var i := start;
    while i <= end
      invariant start <= i <= end + 1
      invariant r == pages + Numbers(start, i - 1, current)
    {
      assert Numbers(start, i, current) == Numbers(start, i - 1, current) + [PageLink(i, i == current)];
      r := r + [PageLink(i, i == current)];
      i := i + 1;
    }
  }

  /** The listing's pagination state. */
  class Pagination {
    var currentPage: int
    var totalPages: int
    var totalItems: int
    var itemsPerPage: int

    /** The state the page starts from: page 1 of 1, twelve products per page. */
    constructor ()
      ensures currentPage == 1 && totalPages == 1 && totalItems == 0 && itemsPerPage == 12
    {
      currentPage, totalPages, totalItems, itemsPerPage := 1, 1, 0, 12;
    }

    /** handleFilterChange: a new filter starts again from page 1. */
    method HandleFilterChange()
      modifies this
      ensures currentPage == 1
      ensures totalPages == old(totalPages) && totalItems == old(totalItems) && itemsPerPage == old(itemsPerPage)
    {
      currentPage := 1;
    }

    /** handlePageChange */
    method HandlePageChange(page: int)
      modifies this
      ensures currentPage == page
      ensures totalPages == old(totalPages) && totalItems == old(totalItems) && itemsPerPage == old(itemsPerPage)
    {
      currentPage := page;
    }

    /** renderPagination: nothing for a single page; otherwise Prev, the first-page
        link, the window's numbers pushed one by one, the last-page link, and Next. */
    method RenderPagination() returns (bar: Option<seq<Control>>)
      ensures totalPages <= 1 <==> bar == None
      ensures totalPages > 1 ==> bar == Some(Layout(currentPage, totalPages))
      ensures totalPages > 1 ==> bar.value[0] == Prev(currentPage == 1) && bar.value[|bar.value| - 1] == Next(currentPage == totalPages)
    {
      if totalPages <= 1 {
        return None;
      }
      var start := if currentPage - MaxVisiblePages / 2 > 1 then currentPage - MaxVisiblePages / 2 else 1;
      var end := if totalPages < start + MaxVisiblePages - 1 then totalPages else start + MaxVisiblePages - 1;
      if end - start < MaxVisiblePages - 1 {
        start := if end - MaxVisiblePages + 1 > 1 then end - MaxVisiblePages + 1 else 1;
      }
      assert Span(start, end) == Window(currentPage, totalPages);
      var pages := [Prev(currentPage == 1)];
      if start > 1 {
        pages := pages + [PageLink(1, false)];
        if start > 2 {
          pages := pages + [Ellipsis];
        }
      }
      assert pages == [Prev(currentPage == 1)] + FirstLinks(start);
      pages := PushNumbers(pages, start, end, currentPage);
      var mid := pages;
      if end < totalPages {
        if end < totalPages - 1 {
          pages := pages + [Ellipsis];
        }
        pages := pages + [PageLink(totalPages, false)];
      }
      assert pages == mid + LastLinks(end, totalPages);
      pages := pages + [Next(currentPage == totalPages)];
      assert pages == [Prev(currentPage == 1)] + FirstLinks(start) + Numbers(start, end, currentPage) + LastLinks(end, totalPages) + [Next(currentPage == totalPages)];
      return Some(pages);
    }
  }
}
