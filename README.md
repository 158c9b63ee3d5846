# angular-data-table: the list-query pipeline, in Dafny

This project models the part of angular-data-table that turns the state of
a Material table into a paginated REST query and puts the reply back on
screen:

- **`GenericDao`** (`generic_dao.dfy`) models the list side of
  `DaoGeneric<T>`:
  - `_getUrlHttpParams` copies the extra parameters into `HttpParams` (a
    method with a loop over the Map's entries in insertion order);
  - `_getParams` adds `limit`/`offset` when paging is on and `search` for a
    keyword;
  - `_getSorting` adds `ordering`, with a `-` prefix for `desc`;
  - `list`, `listItems` and `listAllItems` send one GET on the root URL;
  - `_getPagination` turns the reply (a `{count, results}` envelope, a bare
    array, another object, or a body that is not an object, on which it
    throws) into a `Pagination` or an error;
  - `_getUrl` builds item URLs.

  `HttpParams` is an immutable `map<string, string>`. The HTTP transport is a
  function parameter `server` from the GET to its reply.
- **`DataSource`** (`data_source.dfy`) models `MatDataSourceGeneric<T>`.
  - Its `list(extraParams)` merges the sort, page and filter triggers and
    starts with one synthetic trigger.
  - Each trigger builds a `ListParameters` from the widgets' current state
    and `switchMap`s to the DAO.
  - Failures go through `finalize` and then `catchError`.

  The subscription is a sequential state machine (`Stream`, `Step`, `Run`).
  Its events are: a trigger, request *n* settling with a Pagination or an
  error, and unsubscription. The class `MatDataSourceGeneric` holds the filter
  value, the sort and paginator fields, the table data, the loading subject (a
  `BehaviorSubject` class) and the one live subscription.
- **`DataTable`** (`data_table.dfy`) models `DataTableComponent`.
  - Pure helpers: `displayedColumns`, `flexWidth`, `getColor`, `getTooltip`,
    and the search box's length rule and keyword normalisation.
  - The class `DataTableComponent` models the handlers: `getList`,
    `ngAfterViewInit`, `reload`, and the sort, page and keyup handlers. It also
    models how a list result is applied and `toggleLoading`.
- **`JsText`** (`js_text.dfy`) holds the JavaScript built-ins the pipeline
  relies on: `Number.prototype.toString` on integers, `String.prototype.trim`,
  `toLowerCase` and `length`, which counts UTF-16 code units. Each comes with its round trip or characterisation.
- **`Wrappers`** (`wrappers.dfy`) provides `Option`. None stands for null,
  undefined or "not an array".

Two behaviours of the code are modelled as written, although a reader of
the class comments might expect otherwise:

- **Two requests on subscription.** Subscribing to `list()` issues two
  requests with the same parameters. `startWith({})` fires the first.
  `filterChange` is a `BehaviorSubject`, so `merge` immediately replays its
  value, which fires the second and supersedes the first
  (`DataSource.Subscribed`, `DataSource.FirstRequestSuperseded`). Every later
  trigger issues exactly one request (`DataSource.OneRequestPerTrigger`).
- **A failure ends the subscription.** `catchError` sits after `switchMap`, so
  a failed request makes the subscriber receive one `[]` and ends the
  subscription. Later triggers issue nothing (`DataSource.FailureEndsStream`).
  The component then assigns `[].total` and `[].list`, both undefined, so
  `total` and the table data become None, not an empty page.

## Model

| member | source | states |
|---|---|---|
| JsText.DecimalRoundTrip | demo/src/app/data-table/service/generic-dao/generic.dao.ts:167 | the decimal string `toString` gives for an integer is read back as that integer |
| JsText.DecimalInjective | demo/src/app/data-table/service/generic-dao/generic.dao.ts:167 | distinct integers give distinct query-string values |
| JsText.NatDigitsRoundTrip | demo/src/app/data-table/service/generic-dao/generic.dao.ts:167 | the digits of a natural number parse back to it |
| JsText.NatDigits | demo/src/app/data-table/service/generic-dao/generic.dao.ts:167 | the digits are non-empty decimal digits with no leading zero |
| JsText.DecimalString | demo/src/app/data-table/component/data-table.component.ts:166 | `${n}` is non-empty and starts with '-' exactly for negative n |
| JsText.SkipSpace | demo/src/app/data-table/component/data-table.component.ts:221 | the index of the first code point from a start index that is not white space, everything skipped being white space |
| JsText.BackSpace | demo/src/app/data-table/component/data-table.component.ts:221 | the end index once the white space before it has been cut off, everything cut off being white space |
| JsText.Trim | demo/src/app/data-table/component/data-table.component.ts:221 | `trim()` is an infix of its input, with only white space before and after it and neither end of it white space |
| JsText.TrimmedAtUnique | demo/src/app/data-table/component/data-table.component.ts:221 | any two ways of cutting white space off both ends leave the same string, so that property determines `trim()` |
| JsText.TrimTrimmedEnds | demo/src/app/data-table/component/data-table.component.ts:221 | `trim()` is no longer than its input and neither starts nor ends with white space |
| JsText.TrimEmptyIffBlank | demo/src/app/data-table/component/data-table.component.ts:221 | `trim()` is empty exactly when the input is all white space |
| JsText.TrimTrimmed | demo/src/app/data-table/component/data-table.component.ts:221 | a string without surrounding white space is its own trim |
| JsText.ToLower | demo/src/app/data-table/component/data-table.component.ts:221 | `toLowerCase()` keeps the length, turns each capital into the letter 32 code points further on and leaves every other code point as it is |
| JsText.ToLowerProperties | demo/src/app/data-table/component/data-table.component.ts:221 | `toLowerCase()` keeps the length and the white space, leaves no capital and is idempotent |
| JsText.Utf16Length | demo/src/app/data-table/component/data-table.component.ts:217 | `.length` counts UTF-16 code units: at least one and at most two per code point, and zero exactly for the empty string |
| JsText.Utf16LengthBasic | demo/src/app/data-table/component/data-table.component.ts:217 | text with no code point above U+FFFF has a `.length` equal to its number of code points |
| GenericDao.GetUrl | demo/src/app/data-table/service/generic-dao/generic.dao.ts:129-137 | no id gives the root URL; an id gives the root, the id and a trailing '/' |
| GenericDao.EntriesQueryLookup | demo/src/app/data-table/service/generic-dao/generic.dao.ts:199-208 | setting a Map's entries one by one yields every entry with its value and no other key |
| GenericDao.GetUrlHttpParams | demo/src/app/data-table/service/generic-dao/generic.dao.ts:199-209 | the loop over the extra Map leaves the query parameters ExtraQuery denotes (none for null) |
| GenericDao.GetParams | demo/src/app/data-table/service/generic-dao/generic.dao.ts:164-175 | limit and offset are set to their decimal strings when limit > 0; search is set to a non-empty keyword; otherwise, and for every other key, the extra parameters pass through unchanged |
| GenericDao.PagingParamsRoundTrip | demo/src/app/data-table/service/generic-dao/generic.dao.ts:166-168 | a server reads the `limit` and `offset` values back as the numbers given |
| GenericDao.GetSorting | demo/src/app/data-table/service/generic-dao/generic.dao.ts:177-197 | a non-empty sort sets `ordering` to '-' + sort for 'desc' and to sort for any other order; an empty sort changes nothing; no other key changes |
| GenericDao.OrderingRoundTrip | demo/src/app/data-table/service/generic-dao/generic.dao.ts:177-196 | a server reads the field and whether it is descending back from `ordering` |
| GenericDao.ListRequest | demo/src/app/data-table/service/generic-dao/generic.dao.ts:43-50 | the GET goes to the root URL with paging, search and ordering decided key by key; every other extra parameter passes through |
| GenericDao.GetPagination | demo/src/app/data-table/service/generic-dao/generic.dao.ts:146-162 | an envelope with paging on gives count and results; a bare array gives itself and its length; an envelope with paging off, or any other object, gives total and totalView undefined and a list that is not an array (None); totalView is the length of the list; a body that is not an object (null, a number, a string) makes `'results' in` throw, which is an error |
| GenericDao.List | demo/src/app/data-table/service/generic-dao/generic.dao.ts:43-54 | a failed GET, or a body that is not an object, is an error; otherwise the result is the reply's Pagination for this limit |
| GenericDao.ListItems | demo/src/app/data-table/service/generic-dao/generic.dao.ts:62-64 | the GET carries every field of the parameters, and the reply maps as in `list`, errors included |
| GenericDao.ListAllRequest | demo/src/app/data-table/service/generic-dao/generic.dao.ts:70-72 | `listAllItems` sends the root URL with no query parameter |
| GenericDao.ListAllItems | demo/src/app/data-table/service/generic-dao/generic.dao.ts:70-72 | a bare array gives the whole list with its length as total; an envelope or any other object gives total and totalView undefined and a list that is not an array (None); a failed GET or a body that is not an object is an error |
| DataSource.BuildParameters | demo/src/app/data-table/service/generic-dao/MatDataSourceGeneric.ts:90-101 | limit is the page size, offset is pageIndex * pageSize (non-negative for non-negative inputs), keyword is the filter value or '', and sort, order and extra are copied unchanged |
| DataSource.PageIndexRecovered | demo/src/app/data-table/service/generic-dao/MatDataSourceGeneric.ts:93-94 | offset / limit is the page index, with no remainder |
| DataSource.IssueRequest | demo/src/app/data-table/service/generic-dao/MatDataSourceGeneric.ts:89-104 | a trigger on a live subscription adds one pending request; otherwise it does nothing |
| DataSource.Subscribed | demo/src/app/data-table/service/generic-dao/MatDataSourceGeneric.ts:86-88 | subscribing issues two identical requests, the second pending |
| DataSource.SettleRequest | demo/src/app/data-table/service/generic-dao/MatDataSourceGeneric.ts:89-111 | only the pending newest request is heard: a Pagination is passed on, a failure passes on `[]` and ends the stream; anything else changes nothing |
| DataSource.EndSubscription | demo/src/app/data-table/service/generic-dao/MatDataSourceGeneric.ts:108 | unsubscribing ends a live subscription and cancels its pending request |
| DataSource.StepValid | demo/src/app/data-table/service/generic-dao/MatDataSourceGeneric.ts:86-111 | every event keeps results in issue order, at most one per request, with `[]` last and only on an ended stream |
| DataSource.SubscribedValid | demo/src/app/data-table/service/generic-dao/MatDataSourceGeneric.ts:86-88 | a fresh subscription satisfies that invariant |
| DataSource.RunValid | demo/src/app/data-table/service/generic-dao/MatDataSourceGeneric.ts:86-111 | any run of events keeps the invariant |
| DataSource.NoStaleResult | demo/src/app/data-table/service/generic-dao/MatDataSourceGeneric.ts:89-104 | after a request is issued, every result received comes from it or a newer one; earlier output and requests are kept |
| DataSource.DoneIsFinal | demo/src/app/data-table/service/generic-dao/MatDataSourceGeneric.ts:109-111 | an ended subscription ignores every later event |
| DataSource.FailureEndsStream | demo/src/app/data-table/service/generic-dao/MatDataSourceGeneric.ts:109-111 | a failure of the pending request emits a single `[]`, and no later event issues or emits anything |
| DataSource.FirstRequestSuperseded | demo/src/app/data-table/service/generic-dao/MatDataSourceGeneric.ts:86-89 | the startWith request of a fresh subscription never delivers |
| DataSource.OneRequestPerTrigger | demo/src/app/data-table/service/generic-dao/MatDataSourceGeneric.ts:86-104 | while nothing ends the subscription, it stays live and issues exactly one request per trigger |
| DataSource.BehaviorSubject.constructor | demo/src/app/data-table/service/generic-dao/MatDataSourceGeneric.ts:29 | the subject starts open, holding its initial value, which an early observer receives |
| DataSource.BehaviorSubject.Next | demo/src/app/data-table/service/generic-dao/MatDataSourceGeneric.ts:83 | the value is always stored, and observers receive it only while the subject is not completed |
| DataSource.BehaviorSubject.Complete | demo/src/app/data-table/service/generic-dao/MatDataSourceGeneric.ts:84 | completing keeps the value and delivers nothing |
| DataSource.MatDataSourceGeneric.constructor | demo/src/app/data-table/service/generic-dao/MatDataSourceGeneric.ts:22-29 | a data source with filter '', empty data, an open loading subject holding false, and no subscription |
| DataSource.MatDataSourceGeneric.Trigger | demo/src/app/data-table/service/generic-dao/MatDataSourceGeneric.ts:86-104 | a trigger issues a request built from the current state |
| DataSource.MatDataSourceGeneric.FilterValue | demo/src/app/data-table/service/generic-dao/MatDataSourceGeneric.ts:36-38 | the getter gives the filter subject's value, which is the keyword the next request searches for ('' when unset) |
| DataSource.MatDataSourceGeneric.SetFilterValue | demo/src/app/data-table/service/generic-dao/MatDataSourceGeneric.ts:32-38 | reading `filterValue` gives back the value set, and setting it issues a request with it |
| DataSource.MatDataSourceGeneric.List | demo/src/app/data-table/service/generic-dao/MatDataSourceGeneric.ts:82-112 | the loading subject delivers `true` (if still open) and is completed; the subscription starts with two requests built from the current state and the extra parameters |
| DataSource.MatDataSourceGeneric.Unsubscribe | demo/src/app/data-table/service/generic-dao/MatDataSourceGeneric.ts:108 | ending a live subscription runs `finalize`, whose `next(false)` reaches no observer |
| DataSource.MatDataSourceGeneric.Settle | demo/src/app/data-table/service/generic-dao/MatDataSourceGeneric.ts:89-111 | the subscriber receives the newest pending request's Pagination, or `[]` on its failure, and nothing for any other; `finalize`'s `next(false)` reaches no observer |
| DataTable.ColumnIds | demo/src/app/data-table/component/data-table.component.ts:137-143 | one id per column, in order: a non-empty sortField, else columnDef |
| DataTable.ActionLabels | demo/src/app/data-table/component/data-table.component.ts:147-149 | one label per action, in order |
| DataTable.DisplayedColumns | demo/src/app/data-table/component/data-table.component.ts:134-152 | one id per column and per action: the column ids in order, then the action labels in order; a null list contributes none |
| DataTable.FlexWidth | demo/src/app/data-table/component/data-table.component.ts:161-178 | a percentage whose number reads back as a truthy own flex, else flexColumn for 'column', flexAction for 'action', and 10 otherwise |
| DataTable.GetColor | demo/src/app/data-table/component/data-table.component.ts:186-194 | the column's colour callback on the row, else '#000000' |
| DataTable.GetTooltip | demo/src/app/data-table/component/data-table.component.ts:201-209 | the column's tooltip callback on the row, else '' |
| DataTable.SearchForwarded | demo/src/app/data-table/component/data-table.component.ts:216-218 | an empty text is forwarded; a non-empty one exactly when its UTF-16 length is at least minFilter, so any text of at least minFilter code points is, and a forwarded one has at least minFilter / 2 code points |
| DataTable.NormalizeSearch | demo/src/app/data-table/component/data-table.component.ts:220-221 | the pushed keyword is no longer than the raw text and has no capitals |
| DataTable.NormalizedKeyword | demo/src/app/data-table/component/data-table.component.ts:220-221 | the pushed keyword is no longer than the raw text, has no surrounding white space and no capitals, and is empty exactly when the raw text is blank |
| DataTable.NormalizeIdempotent | demo/src/app/data-table/component/data-table.component.ts:221 | normalising a pushed keyword again changes nothing |
| DataTable.ForwardedKeywordLength | demo/src/app/data-table/component/data-table.component.ts:216-221 | a forwarded non-empty keyword comes from raw text whose UTF-16 length is at least minFilter |
| DataTable.SurrogatePairForwarded | demo/src/app/data-table/component/data-table.component.ts:216-218 | with minFilter 3, an emoji followed by one letter (two code points, three UTF-16 code units) is forwarded |
| DataTable.ShortKeywordForwarded | demo/src/app/data-table/component/data-table.component.ts:216-221 | with minFilter 3, the raw text "ab " is forwarded as the two-letter keyword "ab" |
| DataTable.RequestCarriesTableState | demo/src/app/data-table/service/generic-dao/MatDataSourceGeneric.ts:92-103 | a server reads back the page size, the page index, the keyword and the sort field and direction from the GET a trigger sends |
| DataTable.ThirdPageByNameDescending | demo/src/app/data-table/service/generic-dao/MatDataSourceGeneric.ts:92-103 | page index 2 of 10 rows, sorted by name descending and searching "x", sends exactly limit=10, offset=20, search=x, ordering=-name |
| DataTable.DataTableComponent.constructor | demo/src/app/data-table/component/data-table.component.ts:232-235 | the component holds its inputs, total 0 (line 120), not loading (line 127) and not listening; the data source's filter is the component's own subject, created holding '' at line 107, so it reads '' whatever it held before |
| DataTable.DataTableComponent.ToggleLoading | demo/src/app/data-table/component/data-table.component.ts:307-311 | `loading` takes the value only when showLoader is on |
| DataTable.DataTableComponent.GetList | demo/src/app/data-table/component/data-table.component.ts:281-301 | the old subscription ends, the handlers are attached, and a new subscription starts with two requests from the current state; the loader ends on when shown; the loading subject delivers `true` (if still open), holds `true` and is completed |
| DataTable.DataTableComponent.AfterViewInit | demo/src/app/data-table/component/data-table.component.ts:211-230 | the keyup pipeline is attached when the filter is displayed, then the list is fetched: two requests from the current state, and the loading subject delivers `true` (if still open), holds `true` and is completed |
| DataTable.DataTableComponent.Reload | demo/src/app/data-table/component/data-table.component.ts:112-118 | the paginator goes back to page 0 and every request of the new subscription asks for offset 0; the loading subject delivers `true` (if still open), holds `true` and is completed |
| DataTable.DataTableComponent.OnSortChange | demo/src/app/data-table/component/data-table.component.ts:264-269 | the new sort is recorded; once the handlers are attached, the page goes back to 0 before the request, so the request asks for offset 0 with the new sort |
| DataTable.DataTableComponent.OnPageChange | demo/src/app/data-table/component/data-table.component.ts:272-274 | the request asks for offset index * size with limit size, with the sort unchanged |
| DataTable.DataTableComponent.OnSearchKeyup | demo/src/app/data-table/component/data-table.component.ts:211-226 | a forwarded keyup resets the page to 0 and pushes the normalised keyword, which the request carries with offset 0; any other keyup changes nothing |
| DataTable.DataTableComponent.OnFetchSettled | demo/src/app/data-table/component/data-table.component.ts:290-300 | a heard Pagination sets total and the table data from it; a heard failure makes both undefined and ends the stream; the loader ends off when shown; a superseded result changes nothing; the loading subject neither delivers nor changes its completion, and its value turns false exactly after a heard failure |

## Left out

- HTTP transport and the CRUD calls (`get`, `create`, `update`, `delete`,
  `_throwObservable`) are not modelled. The list GET is the parameter
  `server`, and its failures are one `HttpFailure` value.
- Timing is not modelled.
  - `fromEvent`, `debounceTime(400)` and `distinctUntilChanged` on the keyup
    events: each forwarded keyup is one discrete event.
  - `setTimeout` in `toggleLoading`: the assignment happens at once.
- Angular wiring, `console.log`, `ngOnDestroy` and the Material widgets'
  internals are not modelled. `MatSort`, `MatPaginator` and
  `MatTableDataSource` are the fields `sortActive`, `sortDirection`,
  `pageIndex`, `pageSize` and `tableData`.
- The component's null checks on `sort` and `paginator` are not modelled.
  Both widgets are always present.
- The subscriptions that are never stored are not modelled. The page and
  filter handlers of `onSortPageFilterChange` pile up across `getList` calls;
  each only switches the loader on, which is idempotent.
- The user callbacks `display`, `click` and `hidden` are not modelled.
  `color` and `tooltip` are opaque functions, present or not.
- Numbers are integers: non-integral flex, page or limit values and their
  `toString` forms are not modelled.
- JsText.DecimalString: writes every integer in plain decimal digits.
  JavaScript switches to exponent notation from 10^21 in magnitude, and a
  number above 2^53 may already have lost digits. Page sizes and offsets stay
  far below both.
- Sort, order and keyword values that are undefined are the empty string.
  Every place that reads them treats both as falsy.
- `toLowerCase` covers ASCII and the Latin-1 capitals only. Other Unicode
  case mappings are not modelled.
- `HttpParams` is a map, so the order of the query string is not modelled.
- `GenericDao.GetPagination` is a function returning a fresh record, not the
  field-by-field filling of a `new Pagination()`, which is not observable.
- GenericDao.GetPagination: a `list` that holds the reply object itself (an
  envelope with paging off, or another object) is None, the same as an
  undefined `list`, so the table data that `OnFetchSettled` assigns does not
  tell the two apart.
- DataSource.MatDataSourceGeneric.List: requires that no subscription be
  live. The model tracks one subscription, and the component always ends the
  old one first.
- demo/src/app/data-table/service/pagination/pagination-base.ts is not part
  of this model: `changePage` only delegates to an abstract `getList`.
- pagination.ts (the `Pagination` class) is not part of this model beyond
  its three fields, `total`, `list` and `totalView`.
