/** `getPageData` of the pagination page, and what it shows before and after
    a page-size change. */
module PaginationPage {
  import opened QueryTypes
  import opened Helpers
  import opened UsePagination

  /** The item indices of a page, as the source's loop pushes them:
      `offset`, `offset + 1`, ..., `offset + limit - 1`. */
  function PageItems(limit: int, offset: int): seq<int>
    decreases limit
  {
    if limit <= 0 then [] else PageItems(limit - 1, offset) + [offset + limit - 1]
  }

  /** A page holds `max(limit, 0)` items, item `i` being `offset + i`. */
  lemma {:induction false} PageItemsMeaning(limit: int, offset: int)
    ensures |PageItems(limit, offset)| == if limit > 0 then limit else 0
    ensures forall i :: 0 <= i < |PageItems(limit, offset)| ==> PageItems(limit, offset)[i] == offset + i
    decreases limit
  {
    if limit > 0 {
      PageItemsMeaning(limit - 1, offset);
    }
  }

  /** Consecutive items differ by exactly one, and the page is empty exactly when `limit <= 0`. */
  lemma PageItemsShape(limit: int, offset: int)
    ensures var items := PageItems(limit, offset);
            (forall i :: 0 <= i < |items| - 1 ==> items[i + 1] == items[i] + 1)
            && (items == [] <==> limit <= 0)
  {
    PageItemsMeaning(limit, offset);
  }

  /** `getPageData`. */
  method GetPageData(limit: int, offset: int) returns (res: seq<int>)
    ensures res == PageItems(limit, offset)
    ensures |res| == (if limit > 0 then limit else 0)
    ensures forall i :: 0 <= i < |res| ==> res[i] == offset + i
  {
    res := [];
    var i := 0;
    while i < limit
      invariant 0 <= i && (limit > 0 ==> i <= limit) && (limit <= 0 ==> i == 0)
      invariant res == PageItems(i, offset)
    {
      res := res + [offset + i];
      i := i + 1;
    }
    assert i == (if limit > 0 then limit else 0);
    assert limit <= 0 ==> PageItems(limit, offset) == [] == PageItems(0, offset);
    PageItemsMeaning(limit, offset);
  }

  /** Array destructuring `const [a, b, c] = xs`: element `i`, or `undefined` past the end. */
  function ElementAt(xs: seq<HookElement>, i: nat): Option<HookElement> {
    if i < |xs| then Some(xs[i]) else None
  }

  /** The page destructures `changePageSize` as the third element of what
      `usePagination` returns, but the hook returns two elements: it is
      `undefined` for every store and every default, so calling it throws. */
  lemma ChangePageSizeIsUndefined(defaultPageSize: Option<int>, read: Schema -> PageState)
    ensures ElementAt(UsePaginationResult(defaultPageSize, read), 1) == Some(StateSetter)
    ensures ElementAt(UsePaginationResult(defaultPageSize, read), 2) == None
  {
  }

  /** With the corrected hook the third element is the page-size changer. */
  lemma CorrectedHookHasChanger(defaultPageSize: Option<int>, read: Schema -> PageState)
    ensures ElementAt(UsePaginationWithChanger(defaultPageSize, read), 2) == Some(PageSizeChanger)
  {
  }

  /** End to end: after `ChangePageSize`, the page shown through
      `usePagination`'s limit and offset still contains the 0-based index of
      the item that headed the old page. */
  lemma FirstItemVisibleAfterPageSizeChange(curPage: int, curSize: int, newSize: int)
    requires newSize >= 1
    ensures var view := Derive(ChangePageSize(PageState(curPage, curSize), newSize));
            (curPage - 1) * curSize in PageItems(view.limit, view.offset)
  {
    var next := ChangePageSize(PageState(curPage, curSize), newSize);
    var view := Derive(next);
    PageItemsMeaning(view.limit, view.offset);
    var k := (curPage - 1) * curSize - view.offset;
    assert view.offset == (next.page - 1) * newSize;
    assert 0 <= k < newSize;
    assert PageItems(view.limit, view.offset)[k] == (curPage - 1) * curSize;
  }
}
