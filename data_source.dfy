/**
 * MatDataSourceGeneric<T>: the object the data table reads its rows from.
 *
 * Its `list(extraParams)` merges the sort header's `sortChange`, the
 * paginator's `page` and the search box's `filterChange`, starts with one
 * synthetic trigger, and `switchMap`s every trigger to a DAO list call built
 * from the current sort, page and filter. The stream is modelled as a
 * sequential state machine (Stream, Step, Run) whose events are a trigger, a
 * request settling and the subscriber unsubscribing; the class holds the
 * widgets' state, the loading subject and the one subscription.
 */
module DataSource {
  import opened Wrappers
  import opened GenericDao

  /** Where the subscription to the observable `list()` returns stands. */
  datatype Phase = Idle | Live | Done

  /** A value the subscriber receives: the Pagination of request `request`, or the `[]` catchError substitutes. */
  datatype Emission<T> = Data(request: nat, page: Pagination<T>) | EmptyArray

  /**
   * The subscription to `list(extra)`. `issued` holds the parameters of every
   * request switchMap has started, oldest first; `pending` says whether the
   * newest one is still outstanding (switchMap has cancelled every older one);
   * `output` is what the subscriber has received.
   */
  datatype Stream<T> = Stream(
    phase: Phase,
    extra: Option<JsMap>,
    issued: seq<ListParameters>,
    pending: bool,
    output: seq<Emission<T>>)

  function NotSubscribed<T>(): Stream<T> {
    Stream(Idle, None, [], false, [])
  }

  /** The ListParameters switchMap builds from the current filter, sort and paginator state. */
  function BuildParameters(filterValue: Option<string>, sortActive: string, sortDirection: string,
                           pageIndex: int, pageSize: int, extraParams: Option<JsMap>): (p: ListParameters)
    ensures p.limit == pageSize && p.offset == pageIndex * pageSize
    ensures pageIndex >= 0 && pageSize >= 0 ==> p.offset >= 0
    ensures filterValue.Some? ==> p.keyword == filterValue.value
    ensures filterValue.None? ==> p.keyword == ""
    ensures p.sort == sortActive && p.order == sortDirection && p.extraParams == extraParams
  {
    var search := if filterValue.Some? then filterValue.value else "";
    ListParameters(pageSize, pageIndex * pageSize, sortActive, sortDirection, extraParams, search)
  }

  /** The page index is read back from a request: offset / limit, with no remainder. */
  lemma {:induction false} PageIndexRecovered(filterValue: Option<string>, sortActive: string, sortDirection: string,
                                              pageIndex: int, pageSize: int, extraParams: Option<JsMap>)
    requires pageIndex >= 0 && pageSize > 0
    ensures var p := BuildParameters(filterValue, sortActive, sortDirection, pageIndex, pageSize, extraParams);
      p.offset / p.limit == pageIndex && p.offset % p.limit == 0
  {
    MultipleDivides(pageIndex, pageSize);
  }

  /** A nonzero multiple of a positive n is at least n away from zero. */
  lemma MultipleBounds(n: int, d: int)
    requires n > 0
    ensures d >= 1 ==> n * d >= n
    ensures d <= -1 ==> n * d <= -n
  {
    if d >= 1 {
      assert n * d == n * (d - 1) + n;
    } else if d <= -1 {
      assert n * d == n * (d + 1) - n;
    }
  }

  /** A multiple of n divided by n gives back the factor, with no remainder. */
  lemma MultipleDivides(k: nat, n: int)
    requires n > 0
    ensures (k * n) / n == k && (k * n) % n == 0
  {
    var q, r := (k * n) / n, (k * n) % n;
    assert k * n == n * q + r && 0 <= r < n;
    assert n * (k - q) == r;
    MultipleBounds(n, k - q);
  }

  /** A trigger reaching switchMap: on a live subscription, one new request that supersedes the pending one. */
  function IssueRequest<T>(s: Stream<T>, p: ListParameters): (t: Stream<T>)
    ensures s.phase == Live ==> t.issued == s.issued + [p] && t.pending
    ensures s.phase != Live ==> t == s
    ensures t.phase == s.phase && t.output == s.output && t.extra == s.extra
  {
    if s.phase == Live then s.(issued := s.issued + [p], pending := true) else s
  }

  /**
   * Subscribing to `list(extra)`: startWith({}) fires a trigger, then merge
   * subscribes to filterChange, a BehaviorSubject, which replays its value at
   * once: two requests with the same parameters, the first superseded.
   */
  function Subscribed<T>(extra: Option<JsMap>, p: ListParameters): (s: Stream<T>)
    ensures s.phase == Live && s.extra == extra && s.issued == [p, p] && s.pending && s.output == []
  {
    IssueRequest(IssueRequest(Stream(Live, extra, [], false, []), p), p)
  }

  /**
   * Request `request` settling. switchMap only listens to the newest request,
   * so only its outcome is heard, and once: a Pagination is passed on; a
   * failure becomes catchError's `[]`, after which the whole stream ends.
   */
  function SettleRequest<T>(s: Stream<T>, request: nat, outcome: Fetched<T>): (t: Stream<T>)
    ensures t.issued == s.issued && t.extra == s.extra
    ensures !(s.phase == Live && s.pending && request + 1 == |s.issued|) ==> t == s
    ensures s.phase == Live && s.pending && request + 1 == |s.issued| ==> (
      && !t.pending
      && (outcome.Fetched? ==> t.phase == Live && t.output == s.output + [Data(request, outcome.page)])
      && (outcome.FetchError? ==> t.phase == Done && t.output == s.output + [EmptyArray]))
  {
    if s.phase == Live && s.pending && request + 1 == |s.issued| then
      match outcome
      case Fetched(page) => s.(pending := false, output := s.output + [Data(request, page)])
      case FetchError => s.(phase := Done, pending := false, output := s.output + [EmptyArray])
    else s
  }

  /** The subscriber unsubscribing: the pending request is cancelled and nothing more arrives. */
  function EndSubscription<T>(s: Stream<T>): (t: Stream<T>)
    ensures s.phase == Live ==> t.phase == Done && !t.pending
    ensures t.issued == s.issued && t.output == s.output && t.extra == s.extra
    ensures s.phase != Live ==> t == s
  {
    if s.phase == Live then s.(phase := Done, pending := false) else s
  }

  datatype Event<T> = Triggered(parameters: ListParameters) | Settled(request: nat, outcome: Fetched<T>) | Unsubscribed

  function Step<T>(s: Stream<T>, e: Event<T>): Stream<T> {
    match e
    case Triggered(p) => IssueRequest(s, p)
    case Settled(request, outcome) => SettleRequest(s, request, outcome)
    case Unsubscribed => EndSubscription(s)
  }

  function Run<T>(s: Stream<T>, events: seq<Event<T>>): Stream<T>
    decreases |events|
  {
    if events == [] then s else Run(Step(s, events[0]), events[1..])
  }

  /**
   * What every reachable subscription satisfies: results arrive in the order
   * their requests were issued, each request delivers at most once, and `[]`
   * can only be the last thing received, on an ended stream.
   */
  ghost predicate StreamValid<T>(s: Stream<T>) {
    && (s.phase == Idle ==> s.issued == [] && s.output == [] && !s.pending)
    && (s.pending ==> s.phase == Live && |s.issued| > 0)
    && (forall i :: 0 <= i < |s.output| && s.output[i].Data? ==> s.output[i].request < |s.issued|)
    && (forall i :: 0 <= i < |s.output| && s.output[i].Data? && s.pending ==> s.output[i].request + 1 < |s.issued|)
    && (forall i, j :: 0 <= i < j < |s.output| && s.output[i].Data? && s.output[j].Data? ==>
          s.output[i].request < s.output[j].request)
    && (forall i :: 0 <= i < |s.output| && s.output[i].EmptyArray? ==> i == |s.output| - 1 && s.phase == Done)
  }

  /** Every step keeps a subscription valid. */
  lemma StepValid<T>(s: Stream<T>, e: Event<T>)
    requires StreamValid(s)
    ensures StreamValid(Step(s, e))
  {
    match e
    case Triggered(p) =>
    case Unsubscribed =>
    case Settled(request, outcome) =>
      var t := Step(s, e);
      if s.phase == Live && s.pending && request + 1 == |s.issued| {
        assert t.output[..|s.output|] == s.output;
        assert forall i :: 0 <= i < |s.output| ==> t.output[i] == s.output[i];
      }
  }

  lemma SubscribedValid<T>(extra: Option<JsMap>, p: ListParameters)
    ensures StreamValid<T>(Subscribed(extra, p))
  {
  }

  /** Any run of events keeps a subscription valid. */
  lemma {:induction false} RunValid<T>(s: Stream<T>, events: seq<Event<T>>)
    requires StreamValid(s)
    ensures StreamValid(Run(s, events))
    decreases |events|
  {
    if events != [] {
      StepValid(s, events[0]);
      RunValid(Step(s, events[0]), events[1..]);
    }
  }

  /**
   * Latest wins: whatever the subscriber receives after a request has been
   * issued comes from that request or a newer one, whatever order the
   * requests settle in. What was received before is kept, and requests are
   * only added.
   */
  lemma {:induction false} NoStaleResult<T>(s: Stream<T>, events: seq<Event<T>>)
    ensures var t := Run(s, events);
      && |s.output| <= |t.output| && t.output[..|s.output|] == s.output
      && |s.issued| <= |t.issued| && t.issued[..|s.issued|] == s.issued
      && forall i :: |s.output| <= i < |t.output| && t.output[i].Data? ==> t.output[i].request + 1 >= |s.issued|
    decreases |events|
  {
    if events != [] {
      var m := Step(s, events[0]);
      var t := Run(m, events[1..]);
      NoStaleResult(m, events[1..]);
      assert |s.output| <= |m.output| && m.output[..|s.output|] == s.output;
      assert |s.issued| <= |m.issued| && m.issued[..|s.issued|] == s.issued;
      assert forall i :: |s.output| <= i < |m.output| && m.output[i].Data? ==> m.output[i].request + 1 >= |s.issued|;
      forall i | |s.output| <= i < |t.output| && t.output[i].Data?
        ensures t.output[i].request + 1 >= |s.issued|
      {
        if i < |m.output| {
          assert t.output[i] == t.output[..|m.output|][i];
        }
      }
      assert t.output[..|s.output|] == t.output[..|m.output|][..|s.output|];
      assert t.issued[..|s.issued|] == t.issued[..|m.issued|][..|s.issued|];
    }
  }

  /** An ended subscription ignores every later event: no new request, nothing received. */
  lemma {:induction false} DoneIsFinal<T>(s: Stream<T>, events: seq<Event<T>>)
    requires s.phase == Done
    ensures Run(s, events) == s
    decreases |events|
  {
    if events != [] {
      DoneIsFinal(Step(s, events[0]), events[1..]);
    }
  }

  /** A failure of the pending request: the subscriber receives one `[]`, and later triggers issue nothing. */
  lemma FailureEndsStream<T>(s: Stream<T>, events: seq<Event<T>>)
    requires s.phase == Live && s.pending && |s.issued| > 0
    ensures var t := SettleRequest(s, |s.issued| - 1, FetchError);
      && t.output == s.output + [EmptyArray]
      && Run(t, events) == t
  {
    DoneIsFinal(SettleRequest(s, |s.issued| - 1, FetchError), events);
  }

  /** The first of the two requests of a fresh subscription can never deliver. */
  lemma FirstRequestSuperseded<T>(extra: Option<JsMap>, p: ListParameters, outcome: Fetched<T>)
    ensures SettleRequest(Subscribed(extra, p), 0, outcome) == Subscribed(extra, p)
  {
  }

  /** True when no event of the run can end the subscription. */
  predicate KeepsLive<T>(events: seq<Event<T>>) {
    forall i :: 0 <= i < |events| ==> !events[i].Unsubscribed? && !(events[i].Settled? && events[i].outcome.FetchError?)
  }

  function Triggers<T>(events: seq<Event<T>>): nat
    decreases |events|
  {
    if events == [] then 0 else (if events[0].Triggered? then 1 else 0) + Triggers(events[1..])
  }

  /** On a live subscription that no failure or unsubscription ends, each trigger issues exactly one request. */
  lemma {:induction false} OneRequestPerTrigger<T>(s: Stream<T>, events: seq<Event<T>>)
    requires s.phase == Live && KeepsLive(events)
    ensures Run(s, events).phase == Live
    ensures |Run(s, events).issued| == |s.issued| + Triggers(events)
    decreases |events|
  {
    if events != [] {
      assert KeepsLive(events[1..]) by {
        forall i | 0 <= i < |events[1..]| ensures !events[1..][i].Unsubscribed? && !(events[1..][i].Settled? && events[1..][i].outcome.FetchError?) {
          assert events[1..][i] == events[i + 1];
        }
      }
      OneRequestPerTrigger(Step(s, events[0]), events[1..]);
    }
  }

  /** A BehaviorSubject<boolean> (RxJS 5): the loading subject. */
  class BehaviorSubject {
    /** The held value. */
    var value: bool
    var completed: bool
    /** The values handed to observers, starting with the initial one an early subscriber receives. */
    var delivered: seq<bool>

    constructor (initial: bool)
      ensures value == initial && !completed && delivered == [initial]
    {
      value := initial;
      completed := false;
      delivered := [initial];
    }

    /** `next(v)`: the value is always stored; observers only hear of it while the subject is not completed. */
    method Next(v: bool)
      modifies this
      ensures value == v && completed == old(completed)
      ensures delivered == if old(completed) then old(delivered) else old(delivered) + [v]
    {
      value := v;
      if !completed {
        delivered := delivered + [v];
      }
    }

    method Complete()
      modifies this
      ensures completed && value == old(value) && delivered == old(delivered)
    {
      completed := true;
    }
  }

  class MatDataSourceGeneric<T> {
    /** The value held by `_filterChange` (None: null or undefined). */
    var filterValue: Option<string>
    /** `sort.active` and `sort.direction` of the sort header ('' when unset). */
    var sortActive: string
    var sortDirection: string
    /** `paginator.pageIndex` and `paginator.pageSize`. */
    var pageIndex: int
    var pageSize: int
    /** `datasource.data`: the rows the table shows (None: undefined, or an object that is not an array). */
    var tableData: Option<seq<T>>
    const loadingSubject: BehaviorSubject
    /** The subscription to the observable returned by `list()`. */
    var stream: Stream<T>

    ghost predicate Valid()
      reads this, loadingSubject
    {
      StreamValid(stream) && (stream.phase != Idle ==> loadingSubject.completed)
    }

    /** The data source once the sort header, the paginator and the table's filter subject are wired in. */
    constructor (sortActive: string, sortDirection: string, pageIndex: int, pageSize: int)
      ensures Valid() && fresh(loadingSubject)
      ensures this.filterValue == Some("") && this.tableData == Some([])
      ensures this.sortActive == sortActive && this.sortDirection == sortDirection
      ensures this.pageIndex == pageIndex && this.pageSize == pageSize
      ensures !loadingSubject.completed && !loadingSubject.value && loadingSubject.delivered == [false]
      ensures stream == NotSubscribed()
    {
      this.filterValue := Some("");
      this.sortActive := sortActive;
      this.sortDirection := sortDirection;
      this.pageIndex := pageIndex;
      this.pageSize := pageSize;
      this.tableData := Some([]);
      this.loadingSubject := new BehaviorSubject(false);
      this.stream := NotSubscribed();
    }

    /**
     * The getter `filterValue`: the value the filter subject holds, which is
     * the keyword the next request searches for (none when it is unset).
     */
    function FilterValue(): (v: Option<string>)
      reads this
      ensures v.Some? ==> CurrentParameters().keyword == v.value
      ensures v.None? ==> CurrentParameters().keyword == ""
    {
      filterValue
    }

    /** The parameters a trigger would build now. */
    function CurrentParameters(): ListParameters
      reads this
    {
      BuildParameters(filterValue, sortActive, sortDirection, pageIndex, pageSize, stream.extra)
    }

    /** One emission of the merged trigger streams reaching switchMap. */
    method Trigger()
      requires Valid()
      modifies this`stream
      ensures Valid()
      ensures stream == IssueRequest(old(stream), CurrentParameters())
    {
      StepValid(stream, Triggered(CurrentParameters()));
      stream := IssueRequest(stream, CurrentParameters());
    }

    /** The setter `filterValue = v`: `_filterChange.next(v)`, which a live subscription hears as a trigger. */
    method SetFilterValue(v: Option<string>)
      requires Valid()
      modifies this`filterValue, this`stream
      ensures Valid()
      ensures FilterValue() == v
      ensures stream == IssueRequest(old(stream), CurrentParameters())
    {
      filterValue := v;
      Trigger();
    }

    /**
     * `list(extra)` and its subscription: the loading subject receives `true`
     * and is completed at once, then the subscription starts with two requests
     * built from the current state.
     */
    method List(extra: Option<JsMap>)
      requires Valid() && stream.phase != Live
      modifies this`stream, loadingSubject
      ensures Valid()
      ensures stream == Subscribed(extra, old(CurrentParameters()).(extraParams := extra))
      ensures stream.issued[1] == CurrentParameters()
      ensures loadingSubject.completed && loadingSubject.value
      ensures loadingSubject.delivered == old(loadingSubject.delivered) + (if old(loadingSubject.completed) then [] else [true])
    {
      loadingSubject.Next(true);
      loadingSubject.Complete();
      var p := BuildParameters(filterValue, sortActive, sortDirection, pageIndex, pageSize, extra);
      SubscribedValid<T>(extra, p);
      stream := Subscribed(extra, p);
    }

    /**
     * The subscriber unsubscribing: on a live subscription `finalize` calls
     * `loadingSubject.next(false)`, which no observer hears.
     */
    method Unsubscribe()
      requires Valid()
      modifies this`stream, loadingSubject
      ensures Valid()
      ensures stream == EndSubscription(old(stream))
      ensures loadingSubject.completed == old(loadingSubject.completed)
      ensures loadingSubject.delivered == old(loadingSubject.delivered)
      ensures old(stream).phase == Live ==> !loadingSubject.value
      ensures old(stream).phase != Live ==> loadingSubject.value == old(loadingSubject.value)
    {
      StepValid(stream, Unsubscribed);
      if stream.phase == Live {
        stream := EndSubscription(stream);
        loadingSubject.Next(false);
      }
    }

    /**
     * Request `request` settling with `outcome`; `emitted` is what the
     * subscriber receives, if anything. A failure that ends the stream runs
     * `finalize`, whose `next(false)` no observer hears.
     */
    method Settle(request: nat, outcome: Fetched<T>) returns (emitted: Option<Emission<T>>)
      requires Valid()
      modifies this`stream, loadingSubject
      ensures Valid()
      ensures stream == SettleRequest(old(stream), request, outcome)
      ensures var heard := old(stream).phase == Live && old(stream).pending && request + 1 == |old(stream).issued|;
        && (!heard <==> emitted.None?)
        && (heard && outcome.Fetched? ==> emitted == Some(Data(request, outcome.page)))
        && (heard && outcome.FetchError? ==> emitted == Some(EmptyArray))
      ensures emitted.Some? ==> stream.output == old(stream.output) + [emitted.value]
      ensures loadingSubject.completed == old(loadingSubject.completed)
      ensures loadingSubject.delivered == old(loadingSubject.delivered)
      ensures emitted == Some(EmptyArray) ==> !loadingSubject.value
      ensures emitted != Some(EmptyArray) ==> loadingSubject.value == old(loadingSubject.value)
    {
      StepValid(stream, Settled(request, outcome));
      var live := stream.phase == Live && stream.pending && request + 1 == |stream.issued|;
      stream := SettleRequest(stream, request, outcome);
      if !live {
        emitted := None;
      } else if outcome.Fetched? {
        emitted := Some(Data(request, outcome.page));
      } else {
        emitted := Some(EmptyArray);
        loadingSubject.Next(false);
      }
    }
  }
}
