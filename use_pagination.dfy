/** `usePagination`: page and page size from the store, with limit and offset derived from them. */
module UsePagination {
  import opened QueryTypes
  import opened Helpers

  /** The page size used when the caller gives none. */
  const DefaultPageSize: int := 20

  /** What the store returns for the pagination schema: both keys decoded as integers. */
  datatype PageState = PageState(page: int, pageSize: int)

  /** The derived record `{ page, pageSize, limit, offset }`. */
  datatype Pagination = Pagination(page: int, pageSize: int, limit: int, offset: int)

  /** The schema handed to the store: `page` defaults to 1, `pageSize` to the chosen default. */
  function PaginationSchema(defaultPageSize: Option<int>): (schema: Schema)
    ensures schema.Keys == {"page", "pageSize"}
    ensures schema["page"] == WithDefault(IntegerCodec, Number(1))
    ensures defaultPageSize == None ==> schema["pageSize"] == WithDefault(IntegerCodec, Number(DefaultPageSize))
    ensures defaultPageSize.Some? ==> schema["pageSize"] == WithDefault(IntegerCodec, Number(defaultPageSize.value))
  {
    var size := match defaultPageSize case Some(n) => n case None => DefaultPageSize;
    map["page" := WithDefault(IntegerCodec, Number(1)), "pageSize" := WithDefault(IntegerCodec, Number(size))]
  }

  /** The state that stands when neither key is in the store: each key's default. */
  function DefaultState(defaultPageSize: Option<int>): PageState {
    PageState(1, match defaultPageSize case Some(n) => n case None => DefaultPageSize)
  }

  /** The record built from a snapshot. */
  function Derive(states: PageState): Pagination {
    Pagination(states.page, states.pageSize, states.pageSize, states.pageSize * (states.page - 1))
  }

  /** `usePagination`, with the store's `useQueryStates` read passed in as `read`. */
  function UsePagination(defaultPageSize: Option<int>, read: Schema -> PageState): Pagination {
    Derive(read(PaginationSchema(defaultPageSize)))
  }

  /** Page and page size pass through from the snapshot, the limit is the
      page size, and the offset counts the items on all earlier pages. */
  lemma DerivedFields(defaultPageSize: Option<int>, read: Schema -> PageState)
    ensures var states := read(PaginationSchema(defaultPageSize));
            var r := UsePagination(defaultPageSize, read);
            r.page == states.page && r.pageSize == states.pageSize
            && r.limit == states.pageSize && r.offset == states.pageSize * (states.page - 1)
  {
  }

  /** Under the defaults, the first page of 20 items, the offset is 0. */
  lemma DefaultsStartAtZero(defaultPageSize: Option<int>)
    ensures var r := Derive(DefaultState(defaultPageSize));
            r.page == 1 && r.offset == 0
            && (defaultPageSize == None ==> r.pageSize == 20 && r.limit == 20)
  {
  }

  /** The defaults of the state are the defaults written into the schema. */
  lemma DefaultStateMatchesSchema(defaultPageSize: Option<int>)
    ensures PaginationSchema(defaultPageSize)["page"].default == Number(DefaultState(defaultPageSize).page)
    ensures PaginationSchema(defaultPageSize)["pageSize"].default == Number(DefaultState(defaultPageSize).pageSize)
  {
  }

  /** From page 1 on, with a non-negative page size, the offset is never negative. */
  lemma OffsetIsNonNegative(page: int, pageSize: int)
    requires page >= 1 && pageSize >= 0
    ensures Derive(PageState(page, pageSize)).offset >= 0
  {
  }

  /** The next page starts one page size further on. */
  lemma NextPageOffset(page: int, pageSize: int)
    ensures Derive(PageState(page + 1, pageSize)).offset == Derive(PageState(page, pageSize)).offset + pageSize
  {
    assert pageSize * (page + 1 - 1) == pageSize * (page - 1) + pageSize;
  }

  /** An element of the array a pagination hook returns. */
  datatype HookElement = StateRecord(pagination: Pagination) | StateSetter | PageSizeChanger

  /** The array `usePagination` returns: the record and the store's setter, nothing more. */
  function UsePaginationResult(defaultPageSize: Option<int>, read: Schema -> PageState): (r: seq<HookElement>)
    ensures |r| == 2 && r[0] == StateRecord(UsePagination(defaultPageSize, read)) && r[1] == StateSetter
  {
    [StateRecord(UsePagination(defaultPageSize, read)), StateSetter]
  }

  /** The state a page-size change should write: the new size and the page
      that still holds the first item of the current page. */
  function ChangePageSize(states: PageState, newSize: int): (next: PageState)
    requires newSize != 0
    ensures next.pageSize == newSize
    ensures newSize >= 1 ==>
              (next.page - 1) * newSize < FirstItemIndex(states.page, states.pageSize) <= next.page * newSize
  {
    var page := NewPageNumber(states.page, states.pageSize, newSize);
    if newSize >= 1 then
      FirstItemStaysOnNewPage(states.page, states.pageSize, newSize);
      PageState(page, newSize)
    else
      PageState(page, newSize)
  }

  /** The hook the pagination page expects: the record, the setter and a page-size changer. */
  function UsePaginationWithChanger(defaultPageSize: Option<int>, read: Schema -> PageState): (r: seq<HookElement>)
    ensures |r| == 3 && r[..2] == UsePaginationResult(defaultPageSize, read) && r[2] == PageSizeChanger
  {
    UsePaginationResult(defaultPageSize, read) + [PageSizeChanger]
  }
}
