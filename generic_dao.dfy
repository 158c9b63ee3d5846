/**
 * The list side of DaoGeneric<T>: how a list request's sort, order, paging,
 * keyword and extra parameters become the query string of one HTTP GET on the
 * API's root URL, and how the reply becomes a Pagination record.
 *
 * The HTTP transport is a parameter: `server` maps the GET that is sent to
 * the reply that comes back (a body, or a failed request).
 */
module GenericDao {
  import opened Wrappers
  import opened JsText

  /** A JavaScript Map<string, string> as its entries in insertion order; a Map has no repeated key. */
  type Entries = seq<(string, string)>

  ghost predicate DistinctKeys(es: Entries) {
    forall i, j :: 0 <= i < j < |es| ==> es[i].0 != es[j].0
  }

  type JsMap = es: Entries | DistinctKeys(es)

  /** ListParameters: an absent sort, order or keyword is the empty string. */
  datatype ListParameters = ListParameters(
    limit: int,
    offset: int,
    sort: string,
    order: string,
    extraParams: Option<JsMap>,
    keyword: string)

  /**
   * The Pagination record the list calls produce. None stands for a field that
   * reads as undefined (a number) or does not hold an array (the list).
   */
  datatype Pagination<T> = Pagination(total: Option<int>, list: Option<seq<T>>, totalView: Option<int>)

  /**
   * A reply body: the paginated envelope `{count, results}`, a bare JSON array,
   * some other JSON object (one without a `results` key), or a value that is
   * not an object at all (null, a number, a string or a boolean).
   */
  datatype Response<T> = Envelope(count: int, results: seq<T>) | Bare(items: seq<T>) | OtherObject | Primitive

  /** What the server does with one GET: answer with a body, or fail. */
  datatype Reply<T> = Answer(body: Response<T>) | HttpFailure

  /** One GET request: URL and query parameters (HttpParams, as a map). */
  datatype HttpGet = HttpGet(url: string, params: map<string, string>)

  /** What the list observable delivers: a Pagination, or an error. */
  datatype Fetched<T> = Fetched(page: Pagination<T>) | FetchError

  const LimitKey := "limit"
  const OffsetKey := "offset"
  const SearchKey := "search"
  const OrderingKey := "ordering"

  /** m holds key k exactly when base does, and with the same value. */
  predicate Agrees(m: map<string, string>, base: map<string, string>, k: string) {
    (k in m <==> k in base) && (k in m && k in base ==> m[k] == base[k])
  }

  /** `_getUrl(id)`: the root URL, or the root URL followed by the id and a slash. */
  function GetUrl(root: string, id: Option<string>): (url: string)
    ensures id.None? ==> url == root
    ensures id.Some? ==> (
      && |url| == |root| + |id.value| + 1
      && url[..|root|] == root
      && url[|root|..|url| - 1] == id.value
      && url[|url| - 1] == '/')
  {
    if id.Some? then root + id.value + "/" else root
  }

  /** The query parameters left by setting the entries one after the other. */
  function EntriesQuery(es: Entries): map<string, string>
    decreases |es|
  {
    if es == [] then map[] else EntriesQuery(es[..|es| - 1])[es[|es| - 1].0 := es[|es| - 1].1]
  }

  /** The query parameters `_getUrlHttpParams` builds from the extra parameters (none for null). */
  function ExtraQuery(extraQS: Option<JsMap>): map<string, string> {
    if extraQS.None? then map[] else EntriesQuery(extraQS.value)
  }

  /** Every entry of the Map is a query parameter with its value, and there is no other. */
  lemma {:induction false} EntriesQueryLookup(es: JsMap)
    ensures forall i :: 0 <= i < |es| ==> es[i].0 in EntriesQuery(es) && EntriesQuery(es)[es[i].0] == es[i].1
    ensures forall k :: k in EntriesQuery(es) ==> exists i :: 0 <= i < |es| && es[i].0 == k
    decreases |es|
  {
    if es != [] {
      var n := |es| - 1;
      var init: JsMap := es[..n];
      EntriesQueryLookup(init);
      var q := EntriesQuery(es);
      assert q == EntriesQuery(init)[es[n].0 := es[n].1];
      forall i | 0 <= i < |es| ensures es[i].0 in q && q[es[i].0] == es[i].1 {
        if i < n {
          assert es[i].0 != es[n].0;
          assert init[i] == es[i];
        }
      }
      forall k | k in q ensures exists i :: 0 <= i < |es| && es[i].0 == k {
        if k != es[n].0 {
          var i :| 0 <= i < n && init[i].0 == k;
          assert es[i].0 == k;
        }
      }
    }
  }

  /** `_getUrlHttpParams`: sets each extra entry in turn on an empty HttpParams. */
  method GetUrlHttpParams(extraQS: Option<JsMap>) returns (urlQS: map<string, string>)
    ensures urlQS == ExtraQuery(extraQS)
  {
    urlQS := map[];
    if extraQS.Some? {
      var es := extraQS.value;
      var i := 0;
      while i < |es|
        invariant 0 <= i <= |es|
        invariant urlQS == EntriesQuery(es[..i])
      {
        assert es[..i + 1][..i] == es[..i];
        urlQS := urlQS[es[i].0 := es[i].1];
        i := i + 1;
      }
      assert es[..|es|] == es;
    }
  }

  /**
   * `_getParams`: the extra parameters first; then `limit` and `offset` when
   * paging is on (limit > 0) and `search` for a non-empty keyword, each
   * replacing an extra parameter of the same name. Every other extra
   * parameter passes through.
   */
  function GetParams(limit: int, offset: int, keyword: string, extraQS: Option<JsMap>): (params: map<string, string>)
    ensures limit > 0 ==> LimitKey in params && params[LimitKey] == DecimalString(limit)
    ensures limit > 0 ==> OffsetKey in params && params[OffsetKey] == DecimalString(offset)
    ensures limit <= 0 ==> Agrees(params, ExtraQuery(extraQS), LimitKey) && Agrees(params, ExtraQuery(extraQS), OffsetKey)
    ensures keyword != "" ==> SearchKey in params && params[SearchKey] == keyword
    ensures keyword == "" ==> Agrees(params, ExtraQuery(extraQS), SearchKey)
    ensures forall k :: k != LimitKey && k != OffsetKey && k != SearchKey ==> Agrees(params, ExtraQuery(extraQS), k)
  {
    var extra := ExtraQuery(extraQS);
    var paged := if limit > 0 then extra[LimitKey := DecimalString(limit)][OffsetKey := DecimalString(offset)] else extra;
    if keyword != "" then paged[SearchKey := keyword] else paged
  }

  /** The paging parameters are decimal strings a server reads back as limit and offset. */
  lemma PagingParamsRoundTrip(limit: int, offset: int, keyword: string, extraQS: Option<JsMap>)
    requires limit > 0
    ensures var params := GetParams(limit, offset, keyword, extraQS);
      && ParseDecimal(params[LimitKey]) == Some(limit)
      && ParseDecimal(params[OffsetKey]) == Some(offset)
  {
    DecimalRoundTrip(limit);
    DecimalRoundTrip(offset);
  }

  /** The prefix `_getSorting` puts before the sort field: '-' for 'desc', nothing for 'asc' or any other order. */
  function OrderDirection(order: string): string {
    if order == "desc" then "-" else ""
  }

  /** `_getSorting`: for a non-empty sort, sets `ordering` to the direction prefix and the field. */
  function GetSorting(sort: string, order: string, params: map<string, string>): (r: map<string, string>)
    ensures sort != "" ==> OrderingKey in r && r[OrderingKey] == OrderDirection(order) + sort
    ensures sort == "" ==> r == params
    ensures forall k :: k != OrderingKey ==> Agrees(r, params, k)
  {
    if sort != "" then params[OrderingKey := OrderDirection(order) + sort] else params
  }

  /** How a server reads `ordering`: a leading '-' means descending. */
  function DecodeOrdering(v: string): (string, bool) {
    if |v| > 0 && v[0] == '-' then (v[1..], true) else (v, false)
  }

  /** The field and the direction are read back from `ordering`, for a field that does not itself start with '-'. */
  lemma OrderingRoundTrip(sort: string, order: string, params: map<string, string>)
    requires sort != "" && sort[0] != '-'
    ensures var r := GetSorting(sort, order, params);
      DecodeOrdering(r[OrderingKey]) == (sort, order == "desc")
  {
    var v := OrderDirection(order) + sort;
    if order == "desc" {
      assert v[1..] == sort;
    } else {
      assert v == sort;
    }
  }

  /**
   * The GET that `list(sort, order, limit, offset, extraParams, keyword)` sends:
   * on the root URL, each query parameter decided as follows.
   */
  function ListRequest(root: string, sort: string, order: string, limit: int, offset: int,
                       extraParams: Option<JsMap>, keyword: string): (g: HttpGet)
    ensures g.url == root
    ensures limit > 0 ==> LimitKey in g.params && g.params[LimitKey] == DecimalString(limit)
    ensures limit > 0 ==> OffsetKey in g.params && g.params[OffsetKey] == DecimalString(offset)
    ensures limit <= 0 ==> Agrees(g.params, ExtraQuery(extraParams), LimitKey) && Agrees(g.params, ExtraQuery(extraParams), OffsetKey)
    ensures keyword != "" ==> SearchKey in g.params && g.params[SearchKey] == keyword
    ensures keyword == "" ==> Agrees(g.params, ExtraQuery(extraParams), SearchKey)
    ensures sort != "" ==> OrderingKey in g.params && g.params[OrderingKey] == OrderDirection(order) + sort
    ensures sort == "" ==> Agrees(g.params, ExtraQuery(extraParams), OrderingKey)
    ensures forall k :: k != LimitKey && k != OffsetKey && k != SearchKey && k != OrderingKey ==>
      Agrees(g.params, ExtraQuery(extraParams), k)
  {
    var params := GetParams(limit, offset, keyword, extraParams);
    HttpGet(root, if sort != "" then GetSorting(sort, order, params) else params)
  }

  /**
   * `_getPagination`: an envelope, when paging is on, gives the server's count
   * as total and its results as the list; a bare array gives itself as the list
   * and its length as total. An envelope with paging off, or any other object,
   * falls into the array branch: the list is the object and its `length` is
   * undefined. totalView is the length of the list whenever the list is an
   * array. On a body that is not an object, `'results' in response` throws a
   * TypeError, which is the error here.
   */
  function GetPagination<T>(response: Response<T>, limit: int): (r: Fetched<T>)
    ensures r.FetchError? <==> response.Primitive?
    ensures response.Envelope? && limit > 0 ==> r.page.total == Some(response.count) && r.page.list == Some(response.results)
    ensures response.Bare? ==> r.page.list == Some(response.items) && r.page.total == Some(|response.items|)
    ensures (response.Envelope? && limit <= 0) || response.OtherObject? ==> r == Fetched(Pagination(None, None, None))
    ensures r.Fetched? ==> (r.page.list.Some? <==> r.page.totalView.Some?)
    ensures r.Fetched? && r.page.list.Some? ==> r.page.totalView.value == |r.page.list.value|
  {
    match response
    case Envelope(count, results) =>
      if limit > 0 then Fetched(Pagination(Some(count), Some(results), Some(|results|)))
      else Fetched(Pagination(None, None, None))
    case Bare(items) => Fetched(Pagination(Some(|items|), Some(items), Some(|items|)))
    case OtherObject => Fetched(Pagination(None, None, None))
    case Primitive => FetchError
  }

  /**
   * `list(...)`: sends ListRequest and maps the reply through `_getPagination`.
   * A failed request, or a body on which `_getPagination` throws, is an error.
   */
  function List<T>(root: string, server: HttpGet -> Reply<T>, sort: string, order: string, limit: int, offset: int,
                   extraParams: Option<JsMap>, keyword: string): (r: Fetched<T>)
    ensures var reply := server(ListRequest(root, sort, order, limit, offset, extraParams, keyword));
      && (r.FetchError? <==> reply.HttpFailure? || reply.body.Primitive?)
      && (reply.Answer? ==> r == GetPagination(reply.body, limit))
  {
    var reply := server(ListRequest(root, sort, order, limit, offset, extraParams, keyword));
    if reply.HttpFailure? then FetchError else GetPagination(reply.body, limit)
  }

  /** The GET that `listItems(parameters)` sends. */
  function ItemsRequest(root: string, parameters: ListParameters): HttpGet {
    ListRequest(root, parameters.sort, parameters.order, parameters.limit, parameters.offset,
                parameters.extraParams, parameters.keyword)
  }

  /** `listItems(parameters)`: `list` with each field of the parameters passed unchanged. */
  function ListItems<T>(root: string, server: HttpGet -> Reply<T>, parameters: ListParameters): (r: Fetched<T>)
    ensures var reply := server(ItemsRequest(root, parameters));
      && (r.FetchError? <==> reply.HttpFailure? || reply.body.Primitive?)
      && (reply.Answer? ==> r == GetPagination(reply.body, parameters.limit))
  {
    List(root, server, parameters.sort, parameters.order, parameters.limit, parameters.offset,
         parameters.extraParams, parameters.keyword)
  }

  /** The GET that `listAllItems()` sends: the root URL with no query parameter at all. */
  lemma ListAllRequest(root: string)
    ensures ListRequest(root, "", "", 0, 0, None, "") == HttpGet(root, map[])
  {
    var g := ListRequest(root, "", "", 0, 0, None, "");
    assert forall k :: k !in g.params by {
      forall k ensures k !in g.params {
        assert Agrees(g.params, map[], k);
      }
    }
  }

  /**
   * `listAllItems()`: `list('', '', 0, 0, null)`. Paging is off, so a bare
   * array gives the whole list with its length as total, an envelope or any
   * other object gives no usable list at all, and a body that is not an object
   * is an error.
   */
  function ListAllItems<T>(root: string, server: HttpGet -> Reply<T>): (r: Fetched<T>)
    ensures var reply := server(HttpGet(root, map[]));
      && (reply.HttpFailure? || reply.body.Primitive? <==> r.FetchError?)
      && (reply.Answer? && reply.body.Bare? ==>
            r == Fetched(Pagination(Some(|reply.body.items|), Some(reply.body.items), Some(|reply.body.items|))))
      && (reply.Answer? && (reply.body.Envelope? || reply.body.OtherObject?) ==> r == Fetched(Pagination(None, None, None)))
  {
    ListAllRequest(root);
    List(root, server, "", "", 0, 0, None, "")
  }
}
