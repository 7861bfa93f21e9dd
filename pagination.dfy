/** The page selector every table uses (`components/ui/pagination.tsx`): the row of page buttons with
    ellipses that `renderPageNumbers` builds, and the previous/next buttons. */
module Pagination {
  import opened Util

  /** One entry of the row: a numbered button (highlighted when it is the current page) or one of the
      two ellipses. */
  datatype PageItem = PageButton(page: int, active: bool) | EllipsisStart | EllipsisEnd

  /** `maxPagesToShow`. */
  const MaxPagesToShow: int := 5

  function Max(a: int, b: int): int { if a >= b then a else b }
  function Min(a: int, b: int): int { if a <= b then a else b }

  /** The buttons for pages `lo..hi`, in order. */
  function Buttons(lo: int, hi: int, current: int): (r: seq<PageItem>)
    ensures |r| == if hi < lo then 0 else hi - lo + 1
    ensures forall k :: 0 <= k < |r| ==> r[k] == PageButton(lo + k, current == lo + k)
  {
    if hi < lo then [] else seq(hi - lo + 1, k requires 0 <= k < hi - lo + 1 => PageButton(lo + k, current == lo + k))
  }

  /** `Math.max(2, currentPage - 1)`: the first page of the middle run. */
  function StartPage(current: int): int { Max(2, current - 1) }

  /** `Math.min(totalPages - 1, currentPage + 1)`: the last page of the middle run. */
  function EndPage(current: int, total: int): int { Min(total - 1, current + 1) }

  /** The start of a long row: page 1, then an ellipsis if the middle run starts after page 2. */
  function Lead(current: int): seq<PageItem>
  {
    [PageButton(1, current == 1)] + (if StartPage(current) > 2 then [EllipsisStart] else [])
  }

  /** The end of a long row: an ellipsis if the middle run ends before page `total - 1`, then the last
      page. */
  function Trail(current: int, total: int): seq<PageItem>
  {
    (if EndPage(current, total) < total - 1 then [EllipsisEnd] else []) + [PageButton(total, current == total)]
  }

  /** The row `renderPageNumbers` produces, written as one expression: every page when there are at
      most five; otherwise the lead, the middle run around the current page, and the trail. */
  function PageRow(current: int, total: int): seq<PageItem>
  {
    if total <= MaxPagesToShow then Buttons(1, total, current)
    else Lead(current) + Buttons(StartPage(current), EndPage(current, total), current) + Trail(current, total)
  }

  /** The `for` loop that pushes the buttons `lo..hi`. */
  method PushButtons(items: seq<PageItem>, lo: int, hi: int, current: int) returns (r: seq<PageItem>)
    ensures r == items + Buttons(lo, hi, current)
  {
    r := items;
    var i := lo;
    while i <= hi
      invariant lo <= i <= (if hi < lo then lo else hi + 1)
      invariant r == items + Buttons(lo, i - 1, current)
    {
      assert Buttons(lo, i, current) == Buttons(lo, i - 1, current) + [PageButton(i, current == i)];
      r := r + [PageButton(i, current == i)];
      i := i + 1;
    }
  }

  /** `renderPageNumbers()`: pushes the buttons and ellipses one by one. */
  method RenderPageNumbers(current: int, total: int) returns (items: seq<PageItem>)
    ensures items == PageRow(current, total)
  {
    items := [];
    if total <= MaxPagesToShow {
      items := PushButtons(items, 1, total, current);
    } else {
      items := items + [PageButton(1, current == 1)];
      var startPage := Max(2, current - 1);
      var endPage := Min(total - 1, current + 1);
      if startPage > 2 {
        items := items + [EllipsisStart];
      }
      assert items == Lead(current);
      items := PushButtons(items, startPage, endPage, current);
      ghost var middle := items;
      if endPage < total - 1 {
        items := items + [EllipsisEnd];
      }
      items := items + [PageButton(total, current == total)];
      assert items == middle + Trail(current, total);
    }
  }

  /** With at most five pages the row is exactly the buttons 1..totalPages, with no ellipsis. */
  lemma SmallRowIsEveryPage(current: int, total: int)
    requires total <= MaxPagesToShow
    ensures |PageRow(current, total)| == Max(total, 0)
    ensures forall k :: 0 <= k < |PageRow(current, total)| ==>
              PageRow(current, total)[k] == PageButton(k + 1, current == k + 1)
  {
  }

  /** With more than five pages the row starts with page 1 and ends with the last page, and the
      middle run is `startPage..endPage`. */
  lemma LargeRowEnds(current: int, total: int)
    requires total > MaxPagesToShow
    ensures var r := PageRow(current, total);
      |r| >= 2 && r[0] == PageButton(1, current == 1) && r[|r| - 1] == PageButton(total, current == total)
    ensures var r := PageRow(current, total);
      forall k :: 0 < k < |r| - 1 && r[k].PageButton? ==> 1 < r[k].page < total
  {
    var r := PageRow(current, total);
    var lead, trail := Lead(current), Trail(current, total);
    var mid := Buttons(StartPage(current), EndPage(current, total), current);
    assert r == lead + mid + trail;
    assert r[0] == lead[0];
    assert r[|r| - 1] == trail[|trail| - 1];
    forall k | 0 < k < |r| - 1 ensures r[k].PageButton? ==> 1 < r[k].page < total {
      if k < |lead| {
        assert r[k] == lead[k] == EllipsisStart;
      } else if k < |lead| + |mid| {
        assert r[k] == mid[k - |lead|];
      } else {
        assert r[k] == trail[k - |lead| - |mid|] == EllipsisEnd;
      }
    }
  }

  predicate IsNumber(it: PageItem) { it.PageButton? }
  predicate IsEllipsis(it: PageItem) { !it.PageButton? }

  /** With more than five pages, the leading ellipsis appears exactly when the middle run starts after
      page 2, and the trailing one exactly when it ends before page `totalPages - 1`. */
  lemma EllipsesIff(current: int, total: int)
    requires total > MaxPagesToShow
    ensures EllipsisStart in PageRow(current, total) <==> StartPage(current) > 2
    ensures EllipsisEnd in PageRow(current, total) <==> EndPage(current, total) < total - 1
  {
    var mid := Buttons(StartPage(current), EndPage(current, total), current);
    assert EllipsisStart !in mid && EllipsisEnd !in mid;
    assert EllipsisStart in Lead(current) <==> StartPage(current) > 2;
    assert EllipsisStart !in Trail(current, total);
    assert EllipsisEnd !in Lead(current);
    assert EllipsisEnd in Trail(current, total) <==> EndPage(current, total) < total - 1;
  }

  /** A row holds at most five page numbers and at most two ellipses. */
  lemma RowShort(current: int, total: int)
    ensures Count(PageRow(current, total), IsNumber) <= MaxPagesToShow
    ensures Count(PageRow(current, total), IsEllipsis) <= 2
  {
    if total <= MaxPagesToShow {
      assert Count(PageRow(current, total), IsEllipsis) == 0;
    } else {
      var lead, trail := Lead(current), Trail(current, total);
      var mid := Buttons(StartPage(current), EndPage(current, total), current);
      CountConcat(lead + mid, trail, IsNumber);
      CountConcat(lead, mid, IsNumber);
      CountConcat(lead + mid, trail, IsEllipsis);
      CountConcat(lead, mid, IsEllipsis);
      assert Count(mid, IsEllipsis) == 0;
      assert |mid| <= 3;
      EndsCount(current, total);
    }
  }

  /** The lead and the trail each hold one page number and at most one ellipsis. */
  lemma EndsCount(current: int, total: int)
    ensures Count(Lead(current), IsNumber) == 1 && Count(Lead(current), IsEllipsis) <= 1
    ensures Count(Trail(current, total), IsNumber) == 1 && Count(Trail(current, total), IsEllipsis) <= 1
  {
    var lead, trail := Lead(current), Trail(current, total);
    assert |lead| <= 2 && |trail| <= 2;
    if |lead| == 2 {
      assert lead[1..][1..] == [];
    }
    if |trail| == 2 {
      assert trail[1..][1..] == [];
    }
  }

  /** Every button of `r` is highlighted exactly when it is for page `current`. */
  predicate HighlightsCurrent(r: seq<PageItem>, current: int)
  {
    forall k :: 0 <= k < |r| && r[k].PageButton? ==> (r[k].active <==> r[k].page == current)
  }

  /** The page numbers of a row, strictly increasing from left to right. */
  predicate Ascending(r: seq<PageItem>)
  {
    forall i, j :: 0 <= i < j < |r| && r[i].PageButton? && r[j].PageButton? ==> r[i].page < r[j].page
  }

  /** Every page number in `r` is in `lo..hi`. */
  predicate PagesWithin(r: seq<PageItem>, lo: int, hi: int)
  {
    forall k :: 0 <= k < |r| && r[k].PageButton? ==> lo <= r[k].page <= hi
  }

  /** Two ascending rows, the second entirely after the first, make an ascending row. */
  lemma AscendingConcat(a: seq<PageItem>, b: seq<PageItem>, m: int)
    requires Ascending(a) && Ascending(b)
    requires forall k :: 0 <= k < |a| && a[k].PageButton? ==> a[k].page <= m
    requires forall k :: 0 <= k < |b| && b[k].PageButton? ==> b[k].page > m
    ensures Ascending(a + b)
  {
  }

  /** A run of buttons is ascending, within its bounds, and highlights only the current page. */
  lemma ButtonsFacts(lo: int, hi: int, current: int)
    ensures Ascending(Buttons(lo, hi, current))
    ensures PagesWithin(Buttons(lo, hi, current), lo, hi)
    ensures HighlightsCurrent(Buttons(lo, hi, current), current)
  {
  }

  lemma PagesWithinConcat(a: seq<PageItem>, b: seq<PageItem>, lo: int, hi: int)
    requires PagesWithin(a, lo, hi) && PagesWithin(b, lo, hi)
    ensures PagesWithin(a + b, lo, hi)
  {
    forall k | 0 <= k < |a + b| && (a + b)[k].PageButton? ensures lo <= (a + b)[k].page <= hi {
      if k >= |a| {
        assert (a + b)[k] == b[k - |a|];
      }
    }
  }

  lemma HighlightsConcat(a: seq<PageItem>, b: seq<PageItem>, current: int)
    requires HighlightsCurrent(a, current) && HighlightsCurrent(b, current)
    ensures HighlightsCurrent(a + b, current)
  {
    forall k | 0 <= k < |a + b| && (a + b)[k].PageButton?
      ensures ((a + b)[k].active <==> (a + b)[k].page == current)
    {
      if k >= |a| {
        assert (a + b)[k] == b[k - |a|];
      }
    }
  }

  /** Whatever the current page, the row's page numbers are strictly increasing (so none appears
      twice), and only the button of the current page is highlighted. */
  lemma RowAscending(current: int, total: int)
    ensures Ascending(PageRow(current, total))
    ensures HighlightsCurrent(PageRow(current, total), current)
  {
    if total <= MaxPagesToShow {
      ButtonsFacts(1, total, current);
    } else {
      var start, end := StartPage(current), EndPage(current, total);
      var lead, trail := Lead(current), Trail(current, total);
      var mid := Buttons(start, end, current);
      ButtonsFacts(start, end, current);
      LeadTrailFacts(current, total);
      AscendingConcat(lead, mid, 1);
      PagesWithinConcat(lead, mid, 1, total - 1);
      AscendingConcat(lead + mid, trail, total - 1);
      HighlightsConcat(lead, mid, current);
      HighlightsConcat(lead + mid, trail, current);
    }
  }

  lemma LeadTrailFacts(current: int, total: int)
    ensures PagesWithin(Lead(current), 1, 1) && HighlightsCurrent(Lead(current), current) && Ascending(Lead(current))
    ensures PagesWithin(Trail(current, total), total, total) && HighlightsCurrent(Trail(current, total), current) &&
      Ascending(Trail(current, total))
  {
  }

  /** When the current page is one of the pages, its button is in the row, highlighted. */
  lemma CurrentPageShown(current: int, total: int)
    requires 1 <= current <= total
    ensures PageButton(current, true) in PageRow(current, total)
  {
    if total <= MaxPagesToShow {
      assert PageRow(current, total)[current - 1] == PageButton(current, true);
    } else if current == 1 {
      assert PageButton(current, true) in Lead(current);
    } else if current == total {
      assert PageButton(current, true) in Trail(current, total);
    } else {
      var mid := Buttons(StartPage(current), EndPage(current, total), current);
      assert mid[current - StartPage(current)] == PageButton(current, true);
    }
  }

  /** The previous button: `onPageChange(Math.max(1, currentPage - 1))`, disabled on page 1. */
  function PreviousRequest(current: int): int { Max(1, current - 1) }
  predicate PreviousDisabled(current: int) { current == 1 }

  /** The next button: `onPageChange(Math.min(totalPages, currentPage + 1))`, disabled on the last
      page. */
  function NextRequest(current: int, total: int): int { Min(total, current + 1) }
  predicate NextDisabled(current: int, total: int) { current == total }

  /** On a valid page, an enabled previous/next button requests the neighbouring page, which is again
      a valid page; a disabled one sits on the first/last page. */
  lemma StepsStayInRange(current: int, total: int)
    requires 1 <= current <= total
    ensures 1 <= PreviousRequest(current) <= total && 1 <= NextRequest(current, total) <= total
    ensures !PreviousDisabled(current) ==> PreviousRequest(current) == current - 1
    ensures !NextDisabled(current, total) ==> NextRequest(current, total) == current + 1
    ensures PreviousDisabled(current) ==> PreviousRequest(current) == current
    ensures NextDisabled(current, total) ==> NextRequest(current, total) == current
  {
  }

  /** Over an empty list (`totalPages == 0`) on page 1, the next button is enabled and requests page
      0, and the row has no buttons. */
  lemma EmptyListNext()
    ensures !NextDisabled(1, 0) && NextRequest(1, 0) == 0
    ensures PageRow(1, 0) == []
  {
  }
}
