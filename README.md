# next-query-utils: the query-state derivation core in Dafny

next-query-utils derives application query state (filters, sort order,
pagination) from values the `next-query-state` store keeps in the URL. This
project models the pure layer between the store and the pages:

- **Page renumbering** (`Helpers`). `getNewPageNumberOnPageSizeChange` is
  `Math.ceil((1 + (curPage - 1) * curSize) / newSize)`. It is modelled over
  unbounded integers, as the ceiling of the rational quotient, for either
  sign of the divisor. Its doc comment argues continuity: the item heading
  the current page stays on the new page. That argument is proved here,
  together with uniqueness, positivity, the integer ceiling form and the
  unchanged-size case.
- **Filter behaviours and the definition factory** (`FilterDefFactory`).
  `equal`, `in` and `range` each produce a codec schema and a transform from
  a state snapshot to `[field, operator, value]` triples. In the source,
  `{ ...this, generate }` carries the behaviour's codec on the receiver. Here
  that receiver is an explicit `FilterConfig`, held by the `FilterGenerator`
  value. The `filterTypes` entries are constants, or a function for `enum`.
  State values are tri-state: `Missing` is JavaScript `undefined`, then
  `Null`, then `Present(v)`. The bound tests use strict `!== undefined`, so
  `Null` counts as present for `=`, `<=` and `>=`. The not-null test uses
  loose `!= undefined`, so `Null` counts as absent there. The model keeps
  that split. The range transform pushes onto a local array, so it is
  modelled as the method `RangeTransform`. That method is proved equal to
  `RangeExpressions`, the function its closure uses.
- **The filter combinator** (`UseFilter`). It merges every definition's
  schema, with later keys winning as with `Object.fromEntries`. It makes one
  store read for the merged schema, then concatenates every transform's
  output over that one snapshot, in definition order.
- **The sort serializer** (`UseSort`). `firstParam`, `sortSerealizer.parse`
  and `serialize`, the `SortType` prefix constraint as a subset type, and the
  schema `useSort` hands to the store.
- **Pagination** (`UsePagination`, `PaginationPage`). This covers the derived
  `{ page, pageSize, limit, offset }` record and its defaults, and
  `getPageData` as a method with its loop. An end-to-end lemma ties these to
  `Helpers`: after a page-size change, the recomputed page still shows the
  old page's first item.

The store is a parameter. `useQueryStates` becomes a function
`read: Schema -> Snapshot`, or `Schema -> PageState` for pagination. Codecs
are opaque tokens (`QueryTypes.Codec`): the core only passes them on to the
store.

Three behaviours of the code are kept as written:

- Sort parsing does not prepend `+` to a bare field name, and it checks no
  allow-list. A value whose first character is not `+` or `-` parses to
  `null`.
- The presence tests compare against `undefined` whatever codec is in use.
- The range filter mixes strict and loose comparisons, as described above.

## Model

| member | source | states |
|---|---|---|
| `Helpers.CeilDiv` | src/helpers.ts:19 | `Math.ceil(n / d)` on integers: for a positive divisor (r - 1) * d < n <= r * d, for a negative one r * d <= n < (r - 1) * d |
| `Helpers.NewPageNumber` | src/helpers.ts:18-19 | the result is the ceiling of (1 + (curPage - 1) * curSize) / newSize over the rationals, for any nonzero newSize; its continuity is `FirstItemStaysOnNewPage` |
| `Helpers.CeilDivIsCeiling` | src/helpers.ts:19 | the modelled `Math.ceil(n / d)` is the least integer not below the rational quotient, for every nonzero divisor of either sign |
| `Helpers.FirstItemStaysOnNewPage` | src/helpers.ts:4-19 | continuity: with idx = 1 + (curPage - 1) * curSize and newSize >= 1, the new page satisfies (newPage - 1) * newSize < idx <= newPage * newSize |
| `Helpers.NewPageIsUnique` | src/helpers.ts:7-11 | every page number satisfying the continuity bounds is the one computed |
| `Helpers.NewPageIsPositive` | src/helpers.ts:18-19 | positive current page, current size and new size give a new page >= 1 |
| `Helpers.NewPageIsIntegerCeiling` | src/helpers.ts:19 | for newSize >= 1 the result equals the integer ceiling division (idx + newSize - 1) / newSize |
| `Helpers.SameSizeKeepsPage` | src/helpers.ts:19 | a page-size "change" to the same positive size keeps the current page |
| `Helpers.WorkedExamples` | src/helpers.ts:18-19 | (3, 20, 50) gives 1, (1, 10, 10) gives 1, (5, 10, 3) gives 14 |
| `UseFilter.MergeSchemas` | src/useFilter.ts:9-11 | computes the `Object.fromEntries` merge of all definitions' schemas, assigning in order; its keys and winners are stated by `MergedKeysAreUnion` and `LastDefinitionWins` |
| `UseFilter.ApplyAll` | src/useFilter.ts:12-14 | computes the flat-map of every transform over one snapshot; its order and length are stated by `ApplyAllAppend`, `UseFilterIsOrderedConcatenation` and `ApplyAllLength` |
| `UseFilter.UseFilter` | src/useFilter.ts:8-15 | computes one store read for the merged schema and the flat-map over it; stated by `UseFilterIsOrderedConcatenation`, `UseFilterOfNothing` and `UseFilterDependsOnOneSnapshot` |
| `UseFilter.MergedKeysAreUnion` | src/useFilter.ts:9-11 | the merged schema's keys are exactly the keys of some definition's schema |
| `UseFilter.LastDefinitionWins` | src/useFilter.ts:10 | on a key several definitions declare, the merged schema holds the codec of the last one declaring it |
| `UseFilter.ApplyAllAppend` | src/useFilter.ts:12-14 | collecting over two definition lists in sequence is the concatenation of collecting over each |
| `UseFilter.UseFilterIsOrderedConcatenation` | src/useFilter.ts:8-15 | the result is the outputs of the definitions before i, then definition i's output, then those after it, all computed on the one snapshot read for the merged schema |
| `UseFilter.ApplyAllLength` | src/useFilter.ts:14 | the number of expressions is the sum of the transforms' output lengths |
| `UseFilter.UseFilterOfNothing` | src/useFilter.ts:8-15 | an empty list of definitions yields no expressions |
| `UseFilter.UseFilterDependsOnOneSnapshot` | src/useFilter.ts:9-14 | two stores agreeing on the snapshot for the merged schema give the same expressions |
| `FilterDefFactory.FilterTypesCodecs` | src/filterDefFactory.ts:81-104 | the string, float, integer and boolean entries carry the matching codec, and `enum(values)` the string enum of those values |
| `FilterDefFactory.EnumFilter` | src/filterDefFactory.ts:98-103 | computes the configuration of `filterTypes.enum(values)`; stated by `FilterTypesCodecs` |
| `FilterDefFactory.Equal` | src/filterDefFactory.ts:27-38 | computes the generator `equal()` returns over its configuration; its output is stated by `EqualGenerates` |
| `FilterDefFactory.In` | src/filterDefFactory.ts:39-50 | computes the generator `in()` returns over its configuration; its output is stated by `InGenerates` |
| `FilterDefFactory.EqualExpressions` | src/filterDefFactory.ts:34 | computes the transform shared by `equal` and `in`; stated by `EqualGenerates` and `InGenerates` |
| `FilterDefFactory.RangeExpressions` | src/filterDefFactory.ts:58-66 | computes the range transform the closure returns; stated by `RangeExpressionsMeaning` and matched by `RangeTransform` |
| `FilterDefFactory.Generate` | src/filterDefFactory.ts:26-71 | computes `generate(key)` for each behaviour; stated by `EqualGenerates`, `InGenerates`, `RangeSchema`, `RangeGenerates` and `GeneratedExpressionsWellFormed` |
| `FilterDefFactory.Range` | src/filterDefFactory.ts:51 | `excludeNull` is true only when `true` is passed and defaults to false otherwise |
| `FilterDefFactory.RangeTransform` | src/filterDefFactory.ts:58-66 | the step-by-step pushes build exactly the range expressions the closure returns |
| `FilterDefFactory.FilterDefs` | src/filterDefFactory.ts:106-110 | one definition per entry, in entry order, the i-th being the i-th generator's `generate` applied to the i-th label |
| `FilterDefFactory.EqualGenerates` | src/filterDefFactory.ts:27-38 | schema is exactly {key: codec}; transform yields [key, "=", v] when v is not undefined (null included) and nothing otherwise |
| `FilterDefFactory.InGenerates` | src/filterDefFactory.ts:39-50 | schema is exactly {key: array(codec)}; same presence rule and single "=" triple as `equal` |
| `FilterDefFactory.RangeSchema` | src/filterDefFactory.ts:57 | schema has exactly the two distinct keys key+"Max" and key+"Min", both mapped to the codec |
| `FilterDefFactory.RangeGenerates` | src/filterDefFactory.ts:51-69 | the generated transform is the range expressions under the generator's own `excludeNull` |
| `FilterDefFactory.RangeExpressionsMeaning` | src/filterDefFactory.ts:58-65 | at most three expressions in the order <=, >=, !=; the max triple iff Max is not undefined, the min triple iff Min is not undefined, the not-null triple iff excludeNull and some bound is neither undefined nor null; every field is the key, and every triple is the max bound under <=, the min bound under >=, or null under != |
| `FilterDefFactory.RangeDefaultEmitsNoNotNull` | src/filterDefFactory.ts:51-64 | with the default options no "!=" triple is ever emitted |
| `FilterDefFactory.RangeNullBounds` | src/filterDefFactory.ts:62-64 | two null bounds still give their "<=" and ">=" triples but no "!=" triple |
| `FilterDefFactory.RangeMinOnlyExample` | src/filterDefFactory.ts:58-65 | min 5, no max, excludeNull: [key, ">=", 5] then [key, "!=", null] |
| `FilterDefFactory.GeneratedExpressionsWellFormed` | src/filterDefFactory.ts:30-65 | every triple any behaviour emits has the generator's key as field, an operator among =, <=, >=, != and a value that is never undefined |
| `FilterDefFactory.EmittedOperatorSymbols` | src/filterDefFactory.ts:34-64 | every emitted operator is written as one of "=", "<=", ">=", "!=", and distinct operators are written differently |
| `UseSort.FirstParam` | src/useSort.ts:4-8 | undefined for undefined, the string for a string, the first element for an array (undefined when it is empty) |
| `UseSort.Parse` | src/useSort.ts:15-18 | computes `sortSerealizer.parse`; stated by `ParseAcceptsExactlySortTypes`, `ParseOfNothingIsNull` and the round-trip lemmas |
| `UseSort.Serialize` | src/useSort.ts:19 | computes the template literal `${v}`; stated by `RoundTrip` and `NullRoundTrip` |
| `UseSort.ParseAcceptsExactlySortTypes` | src/useSort.ts:12-18 | parse returns the first value unchanged iff it starts with + or - (a `SortType`), and null otherwise |
| `UseSort.ParseOfNothingIsNull` | src/useSort.ts:15-18 | parse of undefined, of the empty string and of an empty array is null |
| `UseSort.RoundTrip` | src/useSort.ts:15-19 | parse(serialize(s)) == s for every `SortType` s |
| `UseSort.NullRoundTrip` | src/useSort.ts:17-19 | null serializes to "null", which parses back to null |
| `UseSort.SortValues` | src/useSort.ts:29 | the default sort entries as stored values: same length, entry i held as text i |
| `UseSort.SortSchema` | src/useSort.ts:26-31 | the only key is "sort", holding an array of sort-entry codecs whose default is `defaultSort`, empty when not given |
| `UsePagination.Derive` | src/usePagination.ts:22-27 | computes the record from a snapshot; stated by `DerivedFields`, `OffsetIsNonNegative` and `NextPageOffset` |
| `UsePagination.UsePagination` | src/usePagination.ts:10-30 | computes one store read for the pagination schema and the record derived from it; stated by `DerivedFields` |
| `UsePagination.DefaultState` | src/usePagination.ts:14-18 | computes the state of an empty store, each key at its default; stated by `DefaultsStartAtZero` and `DefaultStateMatchesSchema` |
| `UsePagination.PaginationSchema` | src/usePagination.ts:10-20 | keys exactly page and pageSize, integer codecs defaulting to 1 and to the given page size, 20 when none is given |
| `UsePagination.DerivedFields` | src/usePagination.ts:22-27 | page and pageSize pass through from the snapshot; limit == pageSize; offset == pageSize * (page - 1) |
| `UsePagination.DefaultsStartAtZero` | src/usePagination.ts:11-26 | under the defaults the page is 1 and the offset 0, and with no page size given the limit is 20 |
| `UsePagination.DefaultStateMatchesSchema` | src/usePagination.ts:14-18 | the default state is the pair of defaults the schema declares |
| `UsePagination.OffsetIsNonNegative` | src/usePagination.ts:26 | page >= 1 and pageSize >= 0 give a non-negative offset |
| `UsePagination.NextPageOffset` | src/usePagination.ts:26 | the offset of page p + 1 is the offset of page p plus pageSize |
| `UsePagination.UsePaginationResult` | src/usePagination.ts:22-29 | the hook returns exactly two elements, the derived record and the store's setter |
| `UsePagination.ChangePageSize` | src/pages/pagination.tsx:20-23 | the state a page-size change writes: the new size and a page satisfying the continuity bounds for the old first item |
| `UsePagination.UsePaginationWithChanger` | src/pages/pagination.tsx:11 | the hook the page expects: the two returned elements followed by a page-size changer |
| `PaginationPage.PageItems` | src/pages/pagination.tsx:4-8 | computes the items the loop pushes, one push per step; stated by `PageItemsMeaning` and `PageItemsShape` |
| `PaginationPage.PageItemsMeaning` | src/pages/pagination.tsx:4-8 | the page holds max(limit, 0) items and item i is offset + i |
| `PaginationPage.PageItemsShape` | src/pages/pagination.tsx:5-7 | consecutive items differ by exactly 1, and the page is empty iff limit <= 0 |
| `PaginationPage.GetPageData` | src/pages/pagination.tsx:4-8 | the loop returns the page items: length max(limit, 0), element i equal to offset + i |
| `PaginationPage.ChangePageSizeIsUndefined` | src/pages/pagination.tsx:11 | destructuring the page's third element from what `usePagination` returns gives undefined for every store and default |
| `PaginationPage.CorrectedHookHasChanger` | src/pages/pagination.tsx:11 | with the corrected hook the third element is the page-size changer |
| `PaginationPage.FirstItemVisibleAfterPageSizeChange` | src/pages/pagination.tsx:11-13 | after `ChangePageSize` to any positive size, the 0-based first item of the old page, (curPage - 1) * curSize, is among the items shown for the new state |

## Left out

- The `next-query-state` library is not part of this model. Its codecs
  (`queryTypes.*`, `withDefault`, `stringEnum`, `array`) are opaque tokens,
  and their parsing is not modelled: no float parsing, `parseInt` or `NaN`.
  The store read (`useQueryStates`, `useQueryState`) is a function parameter.
- The store setters, `history` and `TransitionOptions` are writes to the
  store with no computation in this core. This includes the `setStates` that
  `usePagination` returns and the option forwarding in `useSort`.
- `changePageSize` is absent from `usePagination`; see "## Findings".
  `UsePagination.ChangePageSize` is the corrected computation. It does not
  model the store write.
- The sort options `allowed`, `showPlus`, `delimiter` and `dynamic` are not
  modelled. They are passed through to the library, with no behaviour in
  this code.
- `filterTypes.nullable` and a delimiter option for `in` are not modelled,
  because neither is defined in this code.
- `FilterDefs` takes the record's entries in enumeration order. The model
  does not capture why: JavaScript lists integer-like keys first.
- Helpers.NewPageNumber: arithmetic is exact over unbounded integers. It agrees with the source's double-precision numbers only while `1 + (curPage - 1) * curSize` stays within the safe-integer range (magnitude below 2^53). Beyond it, JavaScript rounds. The model does not capture non-integer or `NaN` arguments, nor `newSize == 0`, where the source returns Infinity or NaN.
- UsePagination.Derive: `offset = pageSize * (page - 1)` is exact. It agrees with the source only while the product stays within the safe-integer range.
- PaginationPage.GetPageData: inputs are integers and `offset + i` is exact. The model does not cover a fractional `limit` in the JavaScript loop, nor items beyond the safe-integer range.
- React rendering, the demo pages' event handlers, `console.log` and the
  app provider are UI and I/O.

## Findings

| source | as written | input that shows it | evidently intended | confidence | as-written member | corrected member |
|---|---|---|---|---|---|---|
| src/pages/pagination.tsx:11 | the page destructures `changePageSize` as the third element of `usePagination`'s result. The hook (src/usePagination.ts:22-29) returns only the record and the setter. | any page-size selection: `changePageSize` is undefined, and src/pages/pagination.tsx:22 calls `undefined(newPageSize)`, a TypeError | `usePagination` also returns a `changePageSize(newSize)` that writes `{ page: getNewPageNumberOnPageSizeChange(page, pageSize, newSize), pageSize: newSize }` | not executed | `PaginationPage.ChangePageSizeIsUndefined` | `UsePagination.ChangePageSize` |
