/**
 * DataTableComponent: the table view. Its pure helpers (displayed column
 * ids, flex widths, colour and tooltip defaults, the search-box rule) and
 * the handlers that move the paginator back to the first page, push the
 * search keyword, (re)subscribe to the data source and apply its results.
 */
module DataTable {
  import opened Wrappers
  import opened JsText
  import opened GenericDao
  import opened DataSource

  /** ColumnDataTable: `color` and `tooltip` are the user's callbacks, None when not a function. */
  datatype ColumnDataTable<!R> = ColumnDataTable(
    columnDef: string,
    header: string,
    flex: Option<int>,
    color: Option<R -> string>,
    sort: bool,
    sortField: Option<string>,
    hidden: Option<bool>,
    tooltip: Option<R -> string>)

  /** ActionDataTable, without its `click` and `hidden` callbacks. */
  datatype ActionDataTable = ActionDataTable(actionLabel: string, tooltip: string, icon: string, flex: Option<int>)

  /** The `colaction` argument of flexWidth: a column or an action. */
  datatype ColAction<!R> = ColumnItem(column: ColumnDataTable<R>) | ActionItem(action: ActionDataTable)
  {
    function Flex(): Option<int> {
      match this
      case ColumnItem(c) => c.flex
      case ActionItem(a) => a.flex
    }
  }

  /** A column's id in the table: its sortField when that is a non-empty string, else its columnDef. */
  function ColumnId<R>(c: ColumnDataTable<R>): string {
    if c.sortField.Some? && c.sortField.value != "" then c.sortField.value else c.columnDef
  }

  /** `columns.map(...)`: one id per column, in order. */
  function ColumnIds<R>(columns: seq<ColumnDataTable<R>>): (ids: seq<string>)
    ensures |ids| == |columns|
    ensures forall i :: 0 <= i < |columns| ==> ids[i] == ColumnId(columns[i])
    decreases |columns|
  {
    if columns == [] then [] else [ColumnId(columns[0])] + ColumnIds(columns[1..])
  }

  /** `actions.map(a => a.label)`: the labels, in order. */
  function ActionLabels(actions: seq<ActionDataTable>): (labels: seq<string>)
    ensures |labels| == |actions|
    ensures forall i :: 0 <= i < |actions| ==> labels[i] == actions[i].actionLabel
    decreases |actions|
  {
    if actions == [] then [] else [actions[0].actionLabel] + ActionLabels(actions[1..])
  }

  /** The getter `displayedColumns`: the column ids, then the action labels; a null list contributes nothing. */
  function DisplayedColumns<R>(columns: Option<seq<ColumnDataTable<R>>>, actions: Option<seq<ActionDataTable>>): (ids: seq<string>)
    ensures var nc := if columns.Some? then |columns.value| else 0;
      && |ids| == nc + (if actions.Some? then |actions.value| else 0)
      && (forall i :: 0 <= i < nc ==> ids[i] == ColumnId(columns.value[i]))
      && (forall i :: nc <= i < |ids| ==> ids[i] == actions.value[i - nc].actionLabel)
  {
    (if columns.Some? then ColumnIds(columns.value) else []) + (if actions.Some? then ActionLabels(actions.value) else [])
  }

  /** `${n}%` */
  function Percent(n: int): string {
    DecimalString(n) + "%"
  }

  /** The width flexWidth picks: a truthy (non-zero) flex of the column or action, else by kind. */
  function FlexChoice<R>(kind: string, colaction: Option<ColAction<R>>, flexColumn: int, flexAction: int): int {
    if colaction.Some? && colaction.value.Flex().Some? && colaction.value.Flex().value != 0 then colaction.value.Flex().value
    else if kind == "column" then flexColumn
    else if kind == "action" then flexAction
    else 10
  }

  /**
   * `flexWidth(type, colaction, row)`: a percentage whose number is the
   * column's or action's own flex when that is truthy (0 is not), else
   * flexColumn for 'column', flexAction for 'action' and 10 otherwise.
   */
  function FlexWidth<R>(kind: string, colaction: Option<ColAction<R>>, flexColumn: int, flexAction: int): (w: string)
    ensures |w| > 1 && w[|w| - 1] == '%'
    ensures var own := colaction.Some? && colaction.value.Flex().Some? && colaction.value.Flex().value != 0;
      && (own ==> ParseDecimal(w[..|w| - 1]) == Some(colaction.value.Flex().value))
      && (!own && kind == "column" ==> ParseDecimal(w[..|w| - 1]) == Some(flexColumn))
      && (!own && kind == "action" ==> ParseDecimal(w[..|w| - 1]) == Some(flexAction))
      && (!own && kind != "column" && kind != "action" ==> w == "10%")
  {
    var n := FlexChoice(kind, colaction, flexColumn, flexAction);
    var w := Percent(n);
    assert w[..|w| - 1] == DecimalString(n);
    DecimalRoundTrip(n);
    w
  }

  /** `getColor(column, row)`: the column's colour callback on the row, black when there is none. */
  function GetColor<R>(column: Option<ColumnDataTable<R>>, row: R): (colour: string)
    ensures column.None? || column.value.color.None? ==> colour == "#000000"
    ensures column.Some? && column.value.color.Some? ==> colour == column.value.color.value(row)
  {
    if column.Some? && column.value.color.Some? then column.value.color.value(row) else "#000000"
  }

  /** `getTooltip(column, row)`: the column's tooltip callback on the row, empty when there is none. */
  function GetTooltip<R>(column: Option<ColumnDataTable<R>>, row: R): (tip: string)
    ensures column.None? || column.value.tooltip.None? ==> tip == ""
    ensures column.Some? && column.value.tooltip.Some? ==> tip == column.value.tooltip.value(row)
  {
    if column.Some? && column.value.tooltip.Some? then column.value.tooltip.value(row) else ""
  }

  /**
   * The filter on the search box's keyups: the raw text is empty or at least
   * minFilter long, its length counted in UTF-16 code units.
   */
  function SearchForwarded(raw: string, minFilter: int): (forwarded: bool)
    ensures raw == [] ==> forwarded
    ensures raw != [] ==> (forwarded <==> Utf16Length(raw) >= minFilter)
    ensures |raw| >= minFilter ==> forwarded
    ensures forwarded && raw != [] ==> 2 * |raw| >= minFilter
  {
    Utf16Length(raw) >= minFilter || Utf16Length(raw) == 0
  }

  /** The keyword pushed for a forwarded keyup: the raw text trimmed and lower-cased. */
  function NormalizeSearch(raw: string): (keyword: string)
    ensures |keyword| <= |raw|
    ensures forall i :: 0 <= i < |keyword| ==> !IsUpper(keyword[i])
  {
    ToLower(Trim(raw))
  }

  /**
   * The pushed keyword: no longer than the raw text, without surrounding white
   * space or capitals, and empty exactly when the raw text is blank.
   */
  lemma NormalizedKeyword(raw: string)
    ensures var k := NormalizeSearch(raw);
      && |k| <= |raw|
      && (k == [] || (!IsWhitespace(k[0]) && !IsWhitespace(k[|k| - 1])))
      && (forall i :: 0 <= i < |k| ==> !IsUpper(k[i]))
      && (k == [] <==> AllWhitespace(raw))
  {
    TrimTrimmedEnds(raw);
    ToLowerProperties(Trim(raw));
    TrimEmptyIffBlank(raw);
  }

  /** Normalising a pushed keyword again gives the same keyword. */
  lemma NormalizeIdempotent(raw: string)
    ensures NormalizeSearch(NormalizeSearch(raw)) == NormalizeSearch(raw)
  {
    var t := Trim(raw);
    var k := ToLower(t);
    NormalizedKeyword(raw);
    assert k == NormalizeSearch(raw);
    TrimTrimmed(k);
    assert Trim(k) == k;
    ToLowerProperties(t);
    assert ToLower(k) == k;
  }

  /**
   * The length rule looks at the raw text, before trimming: a forwarded
   * keyword is empty or comes from raw text of at least minFilter characters,
   * yet it can itself be shorter than minFilter.
   */
  lemma ForwardedKeywordLength(raw: string, minFilter: int)
    requires SearchForwarded(raw, minFilter)
    ensures NormalizeSearch(raw) != "" ==> Utf16Length(raw) >= minFilter
  {
    NormalizedKeyword(raw);
  }

  /**
   * The length rule counts UTF-16 code units: with minFilter 3, an emoji
   * followed by one letter is two code points and still gets through.
   */
  lemma SurrogatePairForwarded()
    ensures |"\U{1F600}a"| == 2 && SearchForwarded("\U{1F600}a", 3)
  {
    var raw := "\U{1F600}a";
    assert Astral(raw[0]) && !Astral(raw[1]);
    assert raw[1..][1..] == [];
    assert Utf16Length(raw) == 2 + Utf16Length(raw[1..]) == 3;
  }

  /** With minFilter 3, typing "ab " pushes the two-letter keyword "ab". */
  lemma ShortKeywordForwarded()
    ensures SearchForwarded("ab ", 3) && NormalizeSearch("ab ") == "ab"
  {
    assert !IsWhitespace('a') && !IsWhitespace('b') && IsWhitespace(' ');
    assert TrimmedAt("ab ", 0, 2);
    TrimmedAtUnique("ab ", SkipSpace("ab ", 0), BackSpace("ab ", SkipSpace("ab ", 0), 3), 0, 2);
    assert Trim("ab ") == "ab "[0..2] == "ab";
    assert LowerChar('a') == 'a' && LowerChar('b') == 'b';
    assert ToLower("ab") == "ab";
  }

  /**
   * From the widgets to the wire: the GET a data-source request sends lets a
   * server read back the page size, the page index, the search keyword, the
   * sort field and its direction.
   */
  lemma RequestCarriesTableState(root: string, filterValue: Option<string>, sortActive: string, sortDirection: string,
                                 pageIndex: int, pageSize: int, extraParams: Option<JsMap>)
    requires pageIndex >= 0 && pageSize > 0
    requires sortActive != "" && sortActive[0] != '-'
    ensures var p := BuildParameters(filterValue, sortActive, sortDirection, pageIndex, pageSize, extraParams);
      var g := ItemsRequest(root, p);
      && g.url == root
      && LimitKey in g.params && ParseDecimal(g.params[LimitKey]) == Some(pageSize)
      && OffsetKey in g.params && ParseDecimal(g.params[OffsetKey]) == Some(p.offset)
      && p.offset / pageSize == pageIndex && p.offset % pageSize == 0
      && (p.keyword != "" ==> SearchKey in g.params && g.params[SearchKey] == p.keyword)
      && OrderingKey in g.params && DecodeOrdering(g.params[OrderingKey]) == (sortActive, sortDirection == "desc")
  {
    var p := BuildParameters(filterValue, sortActive, sortDirection, pageIndex, pageSize, extraParams);
    var params := GetParams(p.limit, p.offset, p.keyword, extraParams);
    PagingParamsRoundTrip(p.limit, p.offset, p.keyword, extraParams);
    PageIndexRecovered(filterValue, sortActive, sortDirection, pageIndex, pageSize, extraParams);
    OrderingRoundTrip(sortActive, sortDirection, params);
  }

  /**
   * Page 3 (index 2) of 10 rows sorted by name descending, searching "x" with
   * no extra parameters: `?limit=10&offset=20&search=x&ordering=-name`.
   */
  lemma ThirdPageByNameDescending(root: string)
    ensures ItemsRequest(root, BuildParameters(Some("x"), "name", "desc", 2, 10, None))
      == HttpGet(root, map[LimitKey := "10", OffsetKey := "20", SearchKey := "x", OrderingKey := "-name"])
  {
    var g := ItemsRequest(root, BuildParameters(Some("x"), "name", "desc", 2, 10, None));
    var expected := map[LimitKey := "10", OffsetKey := "20", SearchKey := "x", OrderingKey := "-name"];
    assert DecimalString(10) == "10" && DecimalString(20) == "20";
    forall k ensures k in g.params <==> k in expected {
      assert Agrees(g.params, map[], k) || k == LimitKey || k == OffsetKey || k == SearchKey || k == OrderingKey;
    }
    assert g.params[LimitKey] == "10" && g.params[OffsetKey] == "20";
    assert g.params[SearchKey] == "x" && g.params[OrderingKey] == "-name";
    assert g.params == expected;
  }

  class DataTableComponent<T> {
    const dataSource: MatDataSourceGeneric<T>
    var columns: Option<seq<ColumnDataTable<T>>>
    var actions: Option<seq<ActionDataTable>>
    var extraParams: Option<JsMap>
    var flexColumn: int
    var flexAction: int
    var filterDisplay: bool
    var minFilter: int
    var showLoader: bool
    /** `total`; None once it has been assigned an undefined value. */
    var total: Option<int>
    var loading: bool
    /** The sort, page and filter handlers of onSortPageFilterChange are attached. */
    var listening: bool
    /** The search box's keyup pipeline is attached (ngAfterViewInit with filterDisplay). */
    var keyupAttached: bool

    ghost predicate Valid()
      reads this, dataSource, dataSource.loadingSubject
    {
      dataSource.Valid() && (listening <==> dataSource.stream.phase != Idle)
    }

    /**
     * The component after construction and ngOnInit, which hands the sort
     * header, paginator and filter subject to the data source. The filter
     * subject is the component's own, created holding '', so from then on the
     * data source's filter reads '' whatever it held before.
     */
    constructor (dataSource: MatDataSourceGeneric<T>, columns: Option<seq<ColumnDataTable<T>>>,
                 actions: Option<seq<ActionDataTable>>, extraParams: Option<JsMap>, flexColumn: int, flexAction: int,
                 filterDisplay: bool, minFilter: int, showLoader: bool)
      requires dataSource.Valid() && dataSource.stream.phase == Idle
      modifies dataSource`filterValue
      ensures Valid()
      ensures dataSource.filterValue == Some("")
      ensures this.dataSource == dataSource && this.columns == columns && this.actions == actions
      ensures this.extraParams == extraParams && this.flexColumn == flexColumn && this.flexAction == flexAction
      ensures this.filterDisplay == filterDisplay && this.minFilter == minFilter && this.showLoader == showLoader
      ensures total == Some(0) && !loading && !listening && !keyupAttached
    {
      this.dataSource := dataSource;
      this.columns := columns;
      this.actions := actions;
      this.extraParams := extraParams;
      this.flexColumn := flexColumn;
      this.flexAction := flexAction;
      this.filterDisplay := filterDisplay;
      this.minFilter := minFilter;
      this.showLoader := showLoader;
      this.total := Some(0);
      this.loading := false;
      this.listening := false;
      this.keyupAttached := false;
      new;
      dataSource.filterValue := Some("");
    }

    /** `toggleLoading(value)`: only a table that shows its loader changes `loading`. */
    method ToggleLoading(value: bool)
      modifies this`loading
      ensures loading == if showLoader then value else old(loading)
    {
      if showLoader {
        loading := value;
      }
    }

    /**
     * `getList()`: ends the current subscription (whose finalize toggles the
     * loader off), reattaches the sort, page and filter handlers (the filter
     * subject replays its value, toggling the loader on) and subscribes to
     * `dataSource.list(extraParams)`.
     */
    method GetList()
      requires Valid()
      modifies this`loading, this`listening, dataSource`stream, dataSource.loadingSubject
      ensures Valid() && listening
      ensures dataSource.stream == Subscribed(extraParams, dataSource.CurrentParameters())
      ensures loading == if showLoader then true else old(loading)
      ensures dataSource.loadingSubject.completed && dataSource.loadingSubject.value
      ensures dataSource.loadingSubject.delivered ==
        old(dataSource.loadingSubject.delivered) + (if old(dataSource.loadingSubject.completed) then [] else [true])
    {
      if dataSource.stream.phase == Live {
        dataSource.Unsubscribe();
        ToggleLoading(false);
      }
      listening := true;
      ToggleLoading(true);
      dataSource.List(extraParams);
    }

    /** `ngAfterViewInit()`: attaches the search box's keyup pipeline when the filter is displayed, then `getList()`. */
    method AfterViewInit()
      requires Valid()
      modifies this`loading, this`listening, this`keyupAttached, dataSource`stream, dataSource.loadingSubject
      ensures Valid() && listening && keyupAttached == (old(keyupAttached) || filterDisplay)
      ensures dataSource.stream == Subscribed(extraParams, dataSource.CurrentParameters())
      ensures loading == if showLoader then true else old(loading)
      ensures dataSource.loadingSubject.completed && dataSource.loadingSubject.value
      ensures dataSource.loadingSubject.delivered ==
        old(dataSource.loadingSubject.delivered) + (if old(dataSource.loadingSubject.completed) then [] else [true])
    {
      if filterDisplay {
        keyupAttached := true;
      }
      GetList();
    }

    /** `reload()`: back to the first page, then `getList()`; every request of the new subscription has offset 0. */
    method Reload()
      requires Valid()
      modifies this`loading, this`listening, dataSource`pageIndex, dataSource`stream, dataSource.loadingSubject
      ensures Valid() && listening
      ensures dataSource.pageIndex == 0
      ensures dataSource.stream == Subscribed(extraParams, dataSource.CurrentParameters())
      ensures forall i :: 0 <= i < |dataSource.stream.issued| ==> dataSource.stream.issued[i].offset == 0
      ensures loading == if showLoader then true else old(loading)
      ensures dataSource.loadingSubject.completed && dataSource.loadingSubject.value
      ensures dataSource.loadingSubject.delivered ==
        old(dataSource.loadingSubject.delivered) + (if old(dataSource.loadingSubject.completed) then [] else [true])
    {
      dataSource.pageIndex := 0;
      GetList();
    }

    /**
     * The sort header emitting `sortChange` with its new active column and
     * direction: the component's handler (attached first) toggles the loader
     * on and goes back to the first page; then the data source issues a
     * request, which therefore asks for offset 0.
     */
    method OnSortChange(active: string, direction: string)
      requires Valid()
      modifies this`loading, dataSource`sortActive, dataSource`sortDirection, dataSource`pageIndex, dataSource`stream
      ensures Valid()
      ensures dataSource.sortActive == active && dataSource.sortDirection == direction
      ensures dataSource.pageIndex == if listening then 0 else old(dataSource.pageIndex)
      ensures dataSource.stream == IssueRequest(old(dataSource.stream), dataSource.CurrentParameters())
      ensures dataSource.stream.phase == Live ==> (
        var p := dataSource.stream.issued[|dataSource.stream.issued| - 1];
        p.offset == 0 && p.sort == active && p.order == direction && p.limit == dataSource.pageSize)
      ensures loading == if listening && showLoader then true else old(loading)
    {
      dataSource.sortActive, dataSource.sortDirection := active, direction;
      if listening {
        ToggleLoading(true);
        dataSource.pageIndex := 0;
      }
      dataSource.Trigger();
    }

    /** The paginator emitting `page` with its new index and size; sort and filter stay as they are. */
    method OnPageChange(index: int, size: int)
      requires Valid()
      modifies this`loading, dataSource`pageIndex, dataSource`pageSize, dataSource`stream
      ensures Valid()
      ensures dataSource.pageIndex == index && dataSource.pageSize == size
      ensures dataSource.stream == IssueRequest(old(dataSource.stream), dataSource.CurrentParameters())
      ensures dataSource.stream.phase == Live ==> (
        var p := dataSource.stream.issued[|dataSource.stream.issued| - 1];
        p.offset == index * size && p.limit == size
        && p.sort == dataSource.sortActive && p.order == dataSource.sortDirection)
      ensures loading == if listening && showLoader then true else old(loading)
    {
      dataSource.pageIndex, dataSource.pageSize := index, size;
      if listening {
        ToggleLoading(true);
      }
      dataSource.Trigger();
    }

    /**
     * A keyup in the search box carrying its raw text. Only an empty text or
     * one of at least minFilter characters gets through; it goes back to the
     * first page and pushes the trimmed, lower-cased text into the filter
     * subject, whose handlers toggle the loader on and issue a request.
     */
    method OnSearchKeyup(raw: string)
      requires Valid()
      modifies this`loading, dataSource`pageIndex, dataSource`filterValue, dataSource`stream
      ensures Valid()
      ensures keyupAttached && SearchForwarded(raw, minFilter) ==> (
        && dataSource.FilterValue() == Some(NormalizeSearch(raw))
        && dataSource.pageIndex == 0
        && dataSource.stream == IssueRequest(old(dataSource.stream), dataSource.CurrentParameters())
        && loading == (if listening && showLoader then true else old(loading)))
      ensures keyupAttached && SearchForwarded(raw, minFilter) && dataSource.stream.phase == Live ==> (
        var p := dataSource.stream.issued[|dataSource.stream.issued| - 1];
        p.keyword == NormalizeSearch(raw) && p.offset == 0)
      ensures !(keyupAttached && SearchForwarded(raw, minFilter)) ==> (
        && dataSource.filterValue == old(dataSource.filterValue)
        && dataSource.pageIndex == old(dataSource.pageIndex)
        && dataSource.stream == old(dataSource.stream)
        && loading == old(loading))
    {
      if keyupAttached && SearchForwarded(raw, minFilter) {
        var keyword := NormalizeSearch(raw);
        dataSource.pageIndex := 0;
        if listening {
          ToggleLoading(true);
        }
        dataSource.SetFilterValue(Some(keyword));
        // The guard reads nothing this branch writes; restating it carries it to the postconditions.
        assert keyupAttached && SearchForwarded(raw, minFilter);
      }
    }

    /**
     * Request `request` settling with `outcome`. When the data source passes
     * a Pagination on, the loader is toggled off, `total` takes its total and
     * the table its list. When it passes on the `[]` of a failure, the same
     * assignments read `[].total` and `[].list` (both undefined), and the
     * stream's completion toggles the loader off again. A superseded request
     * changes nothing.
     */
    method OnFetchSettled(request: nat, outcome: Fetched<T>)
      requires Valid()
      modifies this`loading, this`total, dataSource`stream, dataSource`tableData, dataSource.loadingSubject
      ensures Valid()
      ensures dataSource.stream == SettleRequest(old(dataSource.stream), request, outcome)
      ensures dataSource.loadingSubject.delivered == old(dataSource.loadingSubject.delivered)
      ensures dataSource.loadingSubject.completed == old(dataSource.loadingSubject.completed)
      ensures var heard := old(dataSource.stream).phase == Live && old(dataSource.stream).pending
                           && request + 1 == |old(dataSource.stream).issued|;
        && (!heard ==> total == old(total) && dataSource.tableData == old(dataSource.tableData) && loading == old(loading))
        && (heard && outcome.Fetched? ==> total == outcome.page.total && dataSource.tableData == outcome.page.list)
        && (heard && outcome.FetchError? ==> total == None && dataSource.tableData == None && dataSource.stream.phase == Done)
        && (heard ==> loading == if showLoader then false else old(loading))
        && (heard && outcome.FetchError? ==> !dataSource.loadingSubject.value)
        && (!(heard && outcome.FetchError?) ==> dataSource.loadingSubject.value == old(dataSource.loadingSubject.value))
    {
      var emitted := dataSource.Settle(request, outcome);
      match emitted
      case None =>
      case Some(Data(_, page)) =>
        ToggleLoading(false);
        total := page.total;
        dataSource.tableData := page.list;
      case Some(EmptyArray) =>
        ToggleLoading(false);
        total := None;
        dataSource.tableData := None;
        ToggleLoading(false);
    }
  }
}
