/** The page renumbering used when the page size changes. */
module Helpers {

  /** `Math.ceil(n / d)` on integers: the ceiling of the exact quotient.
      Dafny's `/` is Euclidean, which for a positive divisor is the floor. */
  function CeilDiv(n: int, d: int): (r: int)
    requires d != 0
    ensures d > 0 ==> (r - 1) * d < n <= r * d
    ensures d < 0 ==> r * d <= n < (r - 1) * d
  {
    var e := if d > 0 then d else -d;
    var m := if d > 0 then -n else n;
    var q := m / e;
    assert q * e <= m < q * e + e;
    assert (-q - 1) * e == -(q * e) - e;
    -q
  }

  /** The 1-based index of the first item shown on page `curPage` of size `curSize`. */
  function FirstItemIndex(curPage: int, curSize: int): int {
    1 + (curPage - 1) * curSize
  }

  /** `getNewPageNumberOnPageSizeChange`: the ceiling of the first item's
      index divided by the new size. A zero `newSize` makes the source
      divide by zero (Infinity or NaN), so the model excludes it. */
  function NewPageNumber(curPage: int, curSize: int, newSize: int): (newPage: int)
    requires newSize != 0
    ensures (newPage - 1) as real < FirstItemIndex(curPage, curSize) as real / newSize as real <= newPage as real
  {
    CeilDivIsCeiling(FirstItemIndex(curPage, curSize), newSize);
    CeilDiv(FirstItemIndex(curPage, curSize), newSize)
  }

  /** `CeilDiv` is the ceiling of the rational quotient, for either sign of the divisor. */
  lemma CeilDivIsCeiling(n: int, d: int)
    requires d != 0
    ensures (CeilDiv(n, d) - 1) as real < n as real / d as real <= CeilDiv(n, d) as real
  {
    var r := CeilDiv(n, d);
    if d > 0 {
      DivideBounds((r - 1) as real, n as real, r as real, d as real);
    } else {
      assert (r - 1) * (-d) < -n <= r * (-d);
      DivideBounds((r - 1) as real, (-n) as real, r as real, (-d) as real);
      assert (-n) as real / (-d) as real == n as real / d as real;
    }
  }

  lemma DivideBounds(lo: real, x: real, hi: real, d: real)
    requires d > 0.0
    requires lo * d < x <= hi * d
    ensures lo < x / d <= hi
  {
    assert x / d * d == x;
  }

  /** Continuity, as the source's doc comment argues it: the item at the top
      of the current page still lies on the page returned for the new size,
      `(newPage - 1) * newSize < idx <= newPage * newSize`. */
  lemma FirstItemStaysOnNewPage(curPage: int, curSize: int, newSize: int)
    requires newSize >= 1
    ensures var idx := FirstItemIndex(curPage, curSize);
            var newPage := NewPageNumber(curPage, curSize, newSize);
            (newPage - 1) * newSize < idx <= newPage * newSize
  {
  }

  /** The continuity bounds fix the page: no other page number satisfies them. */
  lemma NewPageIsUnique(curPage: int, curSize: int, newSize: int, page: int)
    requires newSize >= 1
    requires (page - 1) * newSize < FirstItemIndex(curPage, curSize) <= page * newSize
    ensures page == NewPageNumber(curPage, curSize, newSize)
  {
    var idx := FirstItemIndex(curPage, curSize);
    var p := NewPageNumber(curPage, curSize, newSize);
    FirstItemStaysOnNewPage(curPage, curSize, newSize);
    if page < p {
      MulMonotone(page, p - 1, newSize);
    } else if page > p {
      MulMonotone(p, page - 1, newSize);
    }
  }

  lemma MulMonotone(a: int, b: int, n: int)
    requires a <= b && n >= 0
    ensures a * n <= b * n
  {
    assert b * n - a * n == (b - a) * n;
  }

  /** A positive current page and page size give a new page of at least 1. */
  lemma NewPageIsPositive(curPage: int, curSize: int, newSize: int)
    requires curPage >= 1 && curSize >= 1 && newSize >= 1
    ensures NewPageNumber(curPage, curSize, newSize) >= 1
  {
    var p := NewPageNumber(curPage, curSize, newSize);
    FirstItemStaysOnNewPage(curPage, curSize, newSize);
    assert (curPage - 1) * curSize >= 0;
    if p < 1 {
      MulMonotone(p, 0, newSize);
      assert false;
    }
  }

  /** For a positive size the result is the integer ceiling division `(idx + newSize - 1) / newSize`. */
  lemma NewPageIsIntegerCeiling(curPage: int, curSize: int, newSize: int)
    requires newSize >= 1
    ensures var idx := FirstItemIndex(curPage, curSize);
            NewPageNumber(curPage, curSize, newSize) == (idx + newSize - 1) / newSize
  {
    var idx := FirstItemIndex(curPage, curSize);
    var q := (idx + newSize - 1) / newSize;
    assert q * newSize <= idx + newSize - 1 < q * newSize + newSize;
    assert (q - 1) * newSize == q * newSize - newSize;
    NewPageIsUnique(curPage, curSize, newSize, q);
  }

  /** Keeping the size keeps the page. */
  lemma SameSizeKeepsPage(curPage: int, curSize: int)
    requires curSize >= 1
    ensures NewPageNumber(curPage, curSize, curSize) == curPage
  {
    assert curPage * curSize == (curPage - 1) * curSize + curSize;
    NewPageIsUnique(curPage, curSize, curSize, curPage);
  }

  /** The worked cases: (3, 20, 50) gives 1, (1, 10, 10) gives 1, (5, 10, 3) gives 14. */
  lemma WorkedExamples()
    ensures NewPageNumber(3, 20, 50) == 1
    ensures NewPageNumber(1, 10, 10) == 1
    ensures NewPageNumber(5, 10, 3) == 14
  {
  }
}
