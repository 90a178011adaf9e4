/** The page buttons of src/components/ui/Pagination.tsx: the list of page
    numbers and ellipses `getPageNumbers` builds, and when the Prev and
    Next buttons are disabled. */
module Pagination {

  datatype PageItem = Num(n: int) | Ellipsis

  function Max(a: int, b: int): int { if a >= b then a else b }
  function Min(a: int, b: int): int { if a <= b then a else b }

  /** The buttons lo, lo+1, ..., hi (none when lo > hi). */
  function Range(lo: int, hi: int): (r: seq<PageItem>)
    ensures |r| == Max(0, hi - lo + 1)
    ensures forall k :: 0 <= k < |r| ==> r[k] == Num(lo + k)
  {
    seq(Max(0, hi - lo + 1), k => Num(lo + k))
  }

  /** The list as a whole: every page when there are at most seven;
      otherwise the first page, an ellipsis when the window does not reach
      back to page 2, the window of pages around the current one, an
      ellipsis when it does not reach the last but one, and the last page. */
  function PageList(current: int, total: int): seq<PageItem>
  {
    if total <= 7 then Range(1, total)
    else
      [Num(1)]
      + (if current > 3 then [Ellipsis] else [])
      + Range(Max(2, current - 1), Min(total - 1, current + 1))
      + (if current < total - 2 then [Ellipsis] else [])
      + [Num(total)]
  }

  /** `getPageNumbers`, pushing onto `pages` as the component does. */
  method PageNumbers(current: int, total: int) returns (pages: seq<PageItem>)
    ensures pages == PageList(current, total)
  {
    pages := [];
    var showEllipsis := total > 7;
    if !showEllipsis {
      var i := 1;
      while i <= total
        invariant 1 <= i <= Max(total + 1, 1)
        invariant pages == Range(1, i - 1)
      {
        pages := pages + [Num(i)];
        i := i + 1;
      }
    } else {
      pages := pages + [Num(1)];
      if current > 3 {
        pages := pages + [Ellipsis];
      }
      var start := Max(2, current - 1);
      var end := Min(total - 1, current + 1);
      ghost var before := pages;
      var i := start;
      while i <= end
        invariant start <= i <= Max(end + 1, start)
        invariant pages == before + Range(start, i - 1)
      {
        pages := pages + [Num(i)];
        i := i + 1;
      }
      if current < total - 2 {
        pages := pages + [Ellipsis];
      }
      pages := pages + [Num(total)];
    }
  }

  /** Up to seven pages: exactly 1..total, no ellipsis. */
  lemma FewPagesAllShown(current: int, total: int)
    requires total <= 7
    ensures var r := PageList(current, total);
      && |r| == Max(0, total)
      && (forall k :: 0 <= k < |r| ==> r[k] == Num(k + 1))
      && Ellipsis !in r
  {
  }

  /** Where each part of the list sits when there are more than seven
      pages: `lead` and `trail` are 1 when the ellipsis is present. */
  lemma ManyPagesLayout(current: int, total: int)
    requires total > 7
    ensures var r := PageList(current, total);
      var lead := if current > 3 then 1 else 0;
      var trail := if current < total - 2 then 1 else 0;
      var lo := Max(2, current - 1);
      var width := Max(0, Min(total - 1, current + 1) - lo + 1);
      && |r| == 2 + lead + width + trail
      && r[0] == Num(1) && r[|r| - 1] == Num(total)
      && (lead == 1 ==> r[1] == Ellipsis)
      && (forall k :: 1 + lead <= k < 1 + lead + width ==> r[k] == Num(lo + k - 1 - lead))
      && (trail == 1 ==> r[1 + lead + width] == Ellipsis)
  {
  }

  /** More than seven pages: the list starts at page 1 and ends at the last
      page; an ellipsis appears only right after page 1, exactly when the
      current page is beyond 3, and only right before the last page,
      exactly when the current page is before total - 2. */
  lemma ManyPagesShape(current: int, total: int)
    requires total > 7
    ensures var r := PageList(current, total);
      && |r| >= 3 && r[0] == Num(1) && r[|r| - 1] == Num(total)
      && (forall k :: 0 <= k < |r| && r[k].Ellipsis? ==>
            (k == 1 && current > 3) || (k == |r| - 2 && current < total - 2))
      && (current > 3 ==> r[1] == Ellipsis)
      && (current < total - 2 ==> r[|r| - 2] == Ellipsis)
      && (1 <= current <= total ==>
            (r[1] == Ellipsis <==> current > 3) &&
            (r[|r| - 2] == Ellipsis <==> current < total - 2))
  {
    ManyPagesLayout(current, total);
  }

  /** The numbers shown lie within 1..total, begin with page 1, end with
      the last page and strictly increase. */
  lemma PageNumbersIncrease(current: int, total: int)
    requires total >= 1
    ensures var r := PageList(current, total);
      && r[0] == Num(1) && r[|r| - 1] == Num(total)
      && (forall k :: 0 <= k < |r| && r[k].Num? ==> 1 <= r[k].n <= total)
      && (forall i, j :: 0 <= i < j < |r| && r[i].Num? && r[j].Num? ==> r[i].n < r[j].n)
  {
    if total > 7 {
      ManyPagesLayout(current, total);
    }
  }

  /** No page is skipped without an ellipsis in its place: neighbouring
      numbers are consecutive pages, and an ellipsis stands between two
      numbers at least two apart. */
  lemma NoPageSkipped(current: int, total: int)
    ensures var r := PageList(current, total);
      && (forall k :: 1 <= k < |r| && r[k - 1].Num? && r[k].Num? ==> r[k].n == r[k - 1].n + 1)
      && (forall k :: 1 <= k < |r| - 1 && r[k].Ellipsis? ==>
            r[k - 1].Num? && r[k + 1].Num? && r[k + 1].n >= r[k - 1].n + 2)
  {
    if total > 7 {
      ManyPagesLayout(current, total);
    }
  }

  /** The current page always has a button when it is a real page. */
  lemma CurrentPageShown(current: int, total: int)
    requires 1 <= current <= total
    ensures Num(current) in PageList(current, total)
  {
    var r := PageList(current, total);
    if total > 7 {
      ManyPagesLayout(current, total);
      var lo := Max(2, current - 1);
      var lead := if current > 3 then 1 else 0;
      if current == 1 {
        assert r[0] == Num(current);
      } else if current == total {
        assert r[|r| - 1] == Num(current);
      } else {
        assert r[1 + lead + current - lo] == Num(current);
      }
    } else {
      assert r[current - 1] == Num(current);
    }
  }

  /** Prev is disabled on the first page. */
  predicate PrevDisabled(current: int)
  {
    current == 1
  }

  /** Next is disabled on the last page. */
  predicate NextDisabled(current: int, total: int)
  {
    current == total
  }

  /** The listing shows the buttons only when there is more than one page;
      from any page there, an enabled Prev or Next leads to another page
      within 1..total, and at least one of the two is enabled. */
  lemma NavigationStaysInRange(current: int, total: int)
    requires total > 1 && 1 <= current <= total
    ensures !PrevDisabled(current) ==> 1 <= current - 1 <= total
    ensures !NextDisabled(current, total) ==> 1 <= current + 1 <= total
    ensures !PrevDisabled(current) || !NextDisabled(current, total)
  {
  }
}
