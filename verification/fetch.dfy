/** The data path of `get_elevation_data`: build the lattice, send its
    locations in batches to the elevation service, check every response,
    collect the elevations in order and reshape them into a grid. The
    service is an injected `transport`, so no network is involved; the
    pause between batches is recorded as an event rather than slept. */
module ElevationFetch {
  import opened Wrappers
  import opened Lattice
  import opened Batching

  /** The query parameters `requests.get` sends for one batch. */
  datatype Request = Request(locations: string, key: string)

  /** The fields of the decoded JSON body that the code reads; `None`
      stands for an absent key. `results` lists, per point, the value of
      its `"elevation"` key. */
  datatype Payload = Payload(status: Option<string>, errorMessage: Option<string>, results: Option<seq<Option<real>>>)

  /** What the transport hands back for one request: `requests.get`
      raising, or a reply whose body may or may not decode as JSON. */
  datatype Response =
    | ConnectionFailed
    | Reply(statusCode: int, text: string, json: Option<Payload>)

  /** What can be observed of the loop: a request sent, or a pause. */
  datatype Event = Send(request: Request) | Sleep

  /** The exceptions that end `get_elevation_data`. */
  datatype FetchError =
    | NegativeGridSize(gridSize: int)                    // np.linspace rejects a negative count
    | ConnectionError                                    // requests.get raised
    | HttpError(statusCode: int, bodySnippet: string)    // RuntimeError after raise_for_status
    | InvalidJson                                        // response.json() raised
    | MissingKey(key: string)                            // KeyError on data[...] or result[...]
    | ApiError(status: string, message: string)          // RuntimeError for a status other than "OK"
    | ReshapeFailed(count: nat, rows: nat, cols: nat)    // ValueError from reshape

  const SnippetLength: nat := 500
  const NoErrorMessage: string := "No error message provided"

  /** `raise_for_status` raises for 4xx client and 5xx server errors. */
  predicate RaisesForStatus(code: int) {
    400 <= code < 600
  }

  /** `text[:n]`. */
  function Truncate(text: string, n: nat): (r: string)
    ensures |r| == Min(n, |text|) && r <= text
    ensures |text| <= n ==> r == text
  {
    text[..Min(n, |text|)]
  }

  /** `[result["elevation"] for result in results]`: fails with a
      `KeyError` when some result has no elevation, otherwise keeps every
      value in order. */
  function ElevationsOf(results: seq<Option<real>>): (r: Result<seq<real>, FetchError>)
    ensures r.Success? <==> forall k :: 0 <= k < |results| ==> results[k].Some?
    ensures r.Success? ==> |r.value| == |results| && forall k :: 0 <= k < |results| ==> r.value[k] == results[k].value
    ensures r.Failure? ==> r.error == MissingKey("elevation")
    decreases |results|
  {
    if results == [] then Success([])
    else
      match ElevationsOf(results[..|results| - 1])
      case Failure(e) => Failure(e)
      case Success(init) =>
        if results[|results| - 1].None? then Failure(MissingKey("elevation"))
        else Success(init + [results[|results| - 1].value])
  }

  /** The checks one response goes through: HTTP status first, then the
      JSON body, then its `"status"`, then the per-point results. */
  function CheckResponse(response: Response): (r: Result<seq<real>, FetchError>)
    ensures r.Success? <==>
      && response.Reply? && !RaisesForStatus(response.statusCode)
      && response.json.Some? && response.json.value.status == Some("OK")
      && response.json.value.results.Some?
      && forall k :: 0 <= k < |response.json.value.results.value| ==> response.json.value.results.value[k].Some?
    ensures r.Success? ==>
      && |r.value| == |response.json.value.results.value|
      && forall k :: 0 <= k < |r.value| ==> r.value[k] == response.json.value.results.value[k].value
    ensures response.ConnectionFailed? ==> r == Failure(ConnectionError)
    ensures response.Reply? && RaisesForStatus(response.statusCode) ==>
      && r.Failure? && r.error.HttpError? && r.error.statusCode == response.statusCode
      && |r.error.bodySnippet| == Min(SnippetLength, |response.text|) && r.error.bodySnippet <= response.text
    ensures response.Reply? && !RaisesForStatus(response.statusCode) && response.json.None? ==>
      r == Failure(InvalidJson)
    ensures (response.Reply? && !RaisesForStatus(response.statusCode) && response.json.Some?
             && response.json.value.status.None?) ==>
      r == Failure(MissingKey("status"))
    ensures (r.Failure? && r.error.ApiError?) <==>
      && response.Reply? && !RaisesForStatus(response.statusCode) && response.json.Some?
      && response.json.value.status.Some? && response.json.value.status.value != "OK"
    ensures r.Failure? && r.error.ApiError? ==>
      && r.error.status == response.json.value.status.value
      && r.error.message == response.json.value.errorMessage.GetOr(NoErrorMessage)
    ensures (response.Reply? && !RaisesForStatus(response.statusCode) && response.json.Some?
             && response.json.value.status == Some("OK") && response.json.value.results.None?) ==>
      r == Failure(MissingKey("results"))
    ensures (response.Reply? && !RaisesForStatus(response.statusCode) && response.json.Some?
             && response.json.value.status == Some("OK") && response.json.value.results.Some?
             && exists k :: 0 <= k < |response.json.value.results.value| && response.json.value.results.value[k].None?) ==>
      r == Failure(MissingKey("elevation"))
  {
    match response
    case ConnectionFailed => Failure(ConnectionError)
    case Reply(code, text, json) =>
      if RaisesForStatus(code) then Failure(HttpError(code, Truncate(text, SnippetLength)))
      else if json.None? then Failure(InvalidJson)
      else
        var data := json.value;
        if data.status.None? then Failure(MissingKey("status"))
        else if data.status.value != "OK" then Failure(ApiError(data.status.value, data.errorMessage.GetOr(NoErrorMessage)))
        else if data.results.None? then Failure(MissingKey("results"))
        else ElevationsOf(data.results.value)
  }

  /** A failing HTTP status decides the outcome before the body is read:
      two replies that differ only in their JSON check alike. */
  lemma HttpStatusBeforeBody(code: int, text: string, json1: Option<Payload>, json2: Option<Payload>)
    requires RaisesForStatus(code)
    ensures CheckResponse(Reply(code, text, json1)) == CheckResponse(Reply(code, text, json2))
    ensures CheckResponse(Reply(code, text, json1)) == Failure(HttpError(code, Truncate(text, SnippetLength)))
  {
  }

  // ---------------------------------------------------------------------
  // The batch loop, as a specification

  /** The request for one batch: its locations joined with `"|"`. */
  function BatchRequest(batch: seq<string>, key: string): Request {
    Request(Join(batch, '|'), key)
  }

  function RequestsFor(batches: seq<seq<string>>, key: string): (rs: seq<Request>)
    ensures |rs| == |batches|
  {
    seq(|batches|, j requires 0 <= j < |batches| => BatchRequest(batches[j], key))
  }

  /** Where the batch loop stands: still collecting, or aborted by the
      batch at index `failedAt`. */
  datatype FetchState = Fetching(elevations: seq<real>) | Aborted(error: FetchError, failedAt: nat)

  /** The loop over `batches`: one request per batch, in order, each
      response's elevations appended, stopping at the first check that
      fails. */
  function Gather(batches: seq<seq<string>>, key: string, transport: Request -> Response): (st: FetchState)
    ensures st.Aborted? ==> st.failedAt < |batches|
    decreases |batches|
  {
    if batches == [] then Fetching([])
    else
      match Gather(batches[..|batches| - 1], key, transport)
      case Aborted(e, k) => Aborted(e, k)
      case Fetching(acc) =>
        match CheckResponse(transport(BatchRequest(batches[|batches| - 1], key)))
        case Failure(e) => Aborted(e, |batches| - 1)
        case Success(values) => Fetching(acc + values)
  }

  /** The check of batch j's response. */
  function BatchCheck(batches: seq<seq<string>>, j: nat, key: string, transport: Request -> Response): Result<seq<real>, FetchError>
    requires j < |batches|
  {
    CheckResponse(transport(BatchRequest(batches[j], key)))
  }

  /** Every batch's values, batch after batch, when every check passes. */
  function BatchValues(batches: seq<seq<string>>, key: string, transport: Request -> Response): (vs: seq<seq<real>>)
    requires forall j :: 0 <= j < |batches| ==> BatchCheck(batches, j, key, transport).Success?
    ensures |vs| == |batches|
  {
    seq(|batches|, j requires 0 <= j < |batches| => BatchCheck(batches, j, key, transport).value)
  }

  /** The checks of a prefix of the batches are the checks of those batches. */
  lemma BatchCheckPrefix(batches: seq<seq<string>>, n: nat, key: string, transport: Request -> Response)
    requires n <= |batches|
    ensures forall j :: 0 <= j < n ==> BatchCheck(batches[..n], j, key, transport) == BatchCheck(batches, j, key, transport)
  {
  }

  lemma BatchValuesPrefix(batches: seq<seq<string>>, n: nat, key: string, transport: Request -> Response)
    requires n <= |batches|
    requires forall j :: 0 <= j < |batches| ==> BatchCheck(batches, j, key, transport).Success?
    ensures forall j :: 0 <= j < n ==> BatchCheck(batches[..n], j, key, transport).Success?
    ensures BatchValues(batches, key, transport)[..n] == BatchValues(batches[..n], key, transport)
  {
    BatchCheckPrefix(batches, n, key, transport);
    assert BatchValues(batches, key, transport)[..n] == BatchValues(batches[..n], key, transport);
  }

  /** One more batch: the loop goes on exactly when it had not aborted and
      the new batch's check passes. */
  lemma GatherStepSpec(batches: seq<seq<string>>, key: string, transport: Request -> Response)
    requires batches != []
    ensures var init := batches[..|batches| - 1];
      var last := BatchCheck(batches, |batches| - 1, key, transport);
      Gather(batches, key, transport) ==
        if Gather(init, key, transport).Aborted? then Gather(init, key, transport)
        else if last.Failure? then Aborted(last.error, |batches| - 1)
        else Fetching(Gather(init, key, transport).elevations + last.value)
  {
  }

  /** The loop succeeds exactly when every check passes. */
  lemma {:induction false} GatherSucceeds(batches: seq<seq<string>>, key: string, transport: Request -> Response)
    ensures Gather(batches, key, transport).Fetching? <==>
      forall j :: 0 <= j < |batches| ==> BatchCheck(batches, j, key, transport).Success?
    decreases |batches|
  {
    if batches != [] {
      var n := |batches| - 1;
      GatherSucceeds(batches[..n], key, transport);
      BatchCheckPrefix(batches, n, key, transport);
      GatherStepSpec(batches, key, transport);
    }
  }

  /** An aborted loop stopped at the first batch whose check fails, with
      that check's error. */
  lemma {:induction false} GatherAborts(batches: seq<seq<string>>, key: string, transport: Request -> Response)
    ensures Gather(batches, key, transport).Aborted? ==>
      var k := Gather(batches, key, transport).failedAt;
      && k < |batches|
      && BatchCheck(batches, k, key, transport) == Failure(Gather(batches, key, transport).error)
      && forall j :: 0 <= j < k ==> BatchCheck(batches, j, key, transport).Success?
    decreases |batches|
  {
    if batches != [] {
      var n := |batches| - 1;
      GatherAborts(batches[..n], key, transport);
      GatherSucceeds(batches[..n], key, transport);
      BatchCheckPrefix(batches, n, key, transport);
      GatherStepSpec(batches, key, transport);
    }
  }

  /** When every check passes, the loop's elevations are every batch's
      values, batch after batch. */
  lemma {:induction false} GatherElevations(batches: seq<seq<string>>, key: string, transport: Request -> Response)
    ensures (forall j :: 0 <= j < |batches| ==> BatchCheck(batches, j, key, transport).Success?) ==>
      Gather(batches, key, transport) == Fetching(Flatten(BatchValues(batches, key, transport)))
    decreases |batches|
  {
    if batches != [] && forall j :: 0 <= j < |batches| ==> BatchCheck(batches, j, key, transport).Success? {
      var n := |batches| - 1;
      var init := batches[..n];
      BatchCheckPrefix(batches, n, key, transport);
      GatherElevations(init, key, transport);
      GatherStepSpec(batches, key, transport);
      var vs := BatchValues(batches, key, transport);
      BatchValuesPrefix(batches, n, key, transport);
      FlattenSnoc(vs, n + 1);
      assert vs[..n + 1] == vs;
    }
  }

  /** The loop aborts at the first batch whose check fails, with that
      check's error, and succeeds exactly when every check passes; then
      its elevations are every batch's values, batch after batch. */
  lemma GatherFirstFailure(batches: seq<seq<string>>, key: string, transport: Request -> Response)
    ensures Gather(batches, key, transport).Fetching? <==>
      forall j :: 0 <= j < |batches| ==> BatchCheck(batches, j, key, transport).Success?
    ensures Gather(batches, key, transport).Aborted? ==>
      var k := Gather(batches, key, transport).failedAt;
      && k < |batches|
      && BatchCheck(batches, k, key, transport) == Failure(Gather(batches, key, transport).error)
      && forall j :: 0 <= j < k ==> BatchCheck(batches, j, key, transport).Success?
    ensures Gather(batches, key, transport).Fetching? ==>
      Gather(batches, key, transport).elevations == Flatten(BatchValues(batches, key, transport))
  {
    GatherSucceeds(batches, key, transport);
    GatherAborts(batches, key, transport);
    GatherElevations(batches, key, transport);
  }

  /** Once aborted, the loop stays aborted: batches after the failing one
      change nothing. */
  lemma {:induction false} GatherAbortIsFinal(batches: seq<seq<string>>, more: seq<seq<string>>, key: string, transport: Request -> Response)
    requires Gather(batches, key, transport).Aborted?
    ensures Gather(batches + more, key, transport) == Gather(batches, key, transport)
    decreases |more|
  {
    if more == [] {
      assert batches + more == batches;
    } else {
      var all := batches + more;
      assert all[..|all| - 1] == batches + more[..|more| - 1];
      GatherAbortIsFinal(batches, more[..|more| - 1], key, transport);
    }
  }

  /** The requests the loop sends: every batch's on success, up to and
      including the failing batch's on abort. */
  function Requested(batches: seq<seq<string>>, key: string, transport: Request -> Response): seq<Request> {
    var st := Gather(batches, key, transport);
    RequestsFor(if st.Aborted? then batches[..st.failedAt + 1] else batches, key)
  }

  /** Requests one after another, a pause between each two, none after
      the last. */
  function Schedule(requests: seq<Request>): (events: seq<Event>)
    ensures |events| == if requests == [] then 0 else 2 * |requests| - 1
    decreases |requests|
  {
    if requests == [] then []
    else if |requests| == 1 then [Send(requests[0])]
    else Schedule(requests[..|requests| - 1]) + [Sleep, Send(requests[|requests| - 1])]
  }

  /** The requests in an event trace, in order. */
  function SentRequests(events: seq<Event>): seq<Request>
    decreases |events|
  {
    if events == [] then []
    else
      var last := events[|events| - 1];
      SentRequests(events[..|events| - 1]) + (if last.Send? then [last.request] else [])
  }

  /** The number of pauses in an event trace. */
  function Pauses(events: seq<Event>): nat
    decreases |events|
  {
    if events == [] then 0
    else Pauses(events[..|events| - 1]) + (if events[|events| - 1].Sleep? then 1 else 0)
  }

  lemma {:induction false} TraceAppend(a: seq<Event>, b: seq<Event>)
    ensures SentRequests(a + b) == SentRequests(a) + SentRequests(b)
    ensures Pauses(a + b) == Pauses(a) + Pauses(b)
    decreases |b|
  {
    if b == [] {
      assert a + b == a;
    } else {
      var ab := a + b;
      assert ab[..|ab| - 1] == a + b[..|b| - 1];
      TraceAppend(a, b[..|b| - 1]);
    }
  }

  /** A schedule sends exactly the given requests, in order, pauses one
      time fewer than it sends, and never ends on a pause. */
  lemma {:induction false} ScheduleShape(requests: seq<Request>)
    ensures SentRequests(Schedule(requests)) == requests
    ensures Pauses(Schedule(requests)) == if requests == [] then 0 else |requests| - 1
    ensures requests != [] ==> |Schedule(requests)| > 0 && Schedule(requests)[|Schedule(requests)| - 1] == Send(requests[|requests| - 1])
    decreases |requests|
  {
    if |requests| == 1 {
      assert SentRequests([Send(requests[0])]) == SentRequests([]) + [requests[0]];
    } else if |requests| > 1 {
      var init := requests[..|requests| - 1];
      var last := requests[|requests| - 1];
      ScheduleShape(init);
      TraceAppend(Schedule(init), [Sleep, Send(last)]);
      assert [Sleep, Send(last)][..1] == [Sleep];
      assert [Sleep][..0] == [];
      assert SentRequests([Sleep, Send(last)]) == [last];
      assert Pauses([Sleep, Send(last)]) == 1;
      assert init + [last] == requests;
    }
  }

  function FetchResult(locations: seq<string>, key: string, transport: Request -> Response): Result<seq<real>, FetchError> {
    match Gather(Batches(locations, BatchSize), key, transport)
    case Fetching(elevations) => Success(elevations)
    case Aborted(e, _) => Failure(e)
  }

  function FetchEvents(locations: seq<string>, key: string, transport: Request -> Response): seq<Event> {
    Schedule(Requested(Batches(locations, BatchSize), key, transport))
  }

  // ---------------------------------------------------------------------
  // The batch loop itself

  /** One more batch: its check either aborts the loop there or appends
      its elevations. */
  lemma GatherStep(batches: seq<seq<string>>, k: nat, acc: seq<real>, key: string, transport: Request -> Response)
    requires k < |batches| && Gather(batches[..k], key, transport) == Fetching(acc)
    ensures Gather(batches[..k + 1], key, transport) ==
      match BatchCheck(batches, k, key, transport)
      case Failure(e) => Aborted(e, k)
      case Success(values) => Fetching(acc + values)
  {
    assert batches[..k + 1][..k] == batches[..k];
  }

  /** One more request: after a pause unless it is the first one. */
  lemma ScheduleStep(batches: seq<seq<string>>, k: nat, key: string)
    requires k < |batches|
    ensures Schedule(RequestsFor(batches[..k], key)) + (if 0 < k then [Sleep] else []) + [Send(BatchRequest(batches[k], key))]
         == Schedule(RequestsFor(batches[..k + 1], key))
  {
    var rs := RequestsFor(batches[..k + 1], key);
    assert rs[..k] == RequestsFor(batches[..k], key);
  }

  /** The loop's result when batch k is the first to fail. */
  lemma FetchAbortsAt(locations: seq<string>, k: nat, acc: seq<real>, key: string, transport: Request -> Response)
    requires var batches := Batches(locations, BatchSize);
      && k < |batches| && Gather(batches[..k], key, transport) == Fetching(acc)
      && BatchCheck(batches, k, key, transport).Failure?
    ensures var batches := Batches(locations, BatchSize);
      && FetchResult(locations, key, transport) == Failure(BatchCheck(batches, k, key, transport).error)
      && FetchEvents(locations, key, transport) == Schedule(RequestsFor(batches[..k + 1], key))
  {
    var batches := Batches(locations, BatchSize);
    GatherStep(batches, k, acc, key, transport);
    GatherAbortIsFinal(batches[..k + 1], batches[k + 1..], key, transport);
    assert batches[..k + 1] + batches[k + 1..] == batches;
  }

  /** The loop's result when every batch passed. */
  lemma FetchCompletes(locations: seq<string>, acc: seq<real>, key: string, transport: Request -> Response)
    requires var batches := Batches(locations, BatchSize);
      Gather(batches[..|batches|], key, transport) == Fetching(acc)
    ensures var batches := Batches(locations, BatchSize);
      && FetchResult(locations, key, transport) == Success(acc)
      && FetchEvents(locations, key, transport) == Schedule(RequestsFor(batches[..|batches|], key))
  {
    var batches := Batches(locations, BatchSize);
    assert batches[..|batches|] == batches;
  }

  /** The loop's state after k batches: the elevations gathered so far,
      and the trace so far, with the pause that follows a batch unless it
      was the last. */
  ghost predicate FetchLoop(batches: seq<seq<string>>, k: nat, elevations: seq<real>, events: seq<Event>,
                            key: string, transport: Request -> Response)
  {
    && k <= |batches|
    && Gather(batches[..k], key, transport) == Fetching(elevations)
    && events == Schedule(RequestsFor(batches[..k], key)) + (if 0 < k < |batches| then [Sleep] else [])
  }

  /** A batch whose check passes moves the loop's state on by one batch. */
  lemma FetchAdvances(batches: seq<seq<string>>, k: nat, elevations: seq<real>, events: seq<Event>,
                      values: seq<real>, key: string, transport: Request -> Response)
    requires k < |batches| && FetchLoop(batches, k, elevations, events, key, transport)
    requires BatchCheck(batches, k, key, transport) == Success(values)
    ensures FetchLoop(batches, k + 1, elevations + values,
                      events + [Send(BatchRequest(batches[k], key))] + (if k + 1 < |batches| then [Sleep] else []),
                      key, transport)
  {
    ScheduleStep(batches, k, key);
    GatherStep(batches, k, elevations, key, transport);
  }

  /** Lines 60-95, one pass of the loop: the batch starting at `i`, which
      is batch k, sent as one request and its response checked. */
  method SendBatch(locations: seq<string>, i: nat, ghost k: nat, key: string, transport: Request -> Response)
    returns (request: Request, checked: Result<seq<real>, FetchError>)
    requires k < |Batches(locations, BatchSize)| && i == k * BatchSize
    ensures request == BatchRequest(Batches(locations, BatchSize)[k], key)
    ensures checked == BatchCheck(Batches(locations, BatchSize), k, key, transport)
  {
    var batch := Slice(locations, i, i + BatchSize);
    BatchAt(locations, BatchSize, k);
    request := Request(Join(batch, '|'), key);
    var response := transport(request);
    checked := CheckResponse(response);
  }

  /** Lines 59-102: the loop over `range(0, total_points, batch_size)`. It
      returns the collected elevations or the error that ended it, and the
      trace of requests and pauses. */
  method FetchElevations(locations: seq<string>, key: string, transport: Request -> Response)
    returns (outcome: Result<seq<real>, FetchError>, events: seq<Event>)
    ensures outcome == FetchResult(locations, key, transport)
    ensures events == FetchEvents(locations, key, transport)
  {
    var total := |locations|;
    ghost var batches := Batches(locations, BatchSize);
    var elevations: seq<real> := [];
    events := [];
    var i := 0;
    ghost var k := 0;
    NumBatchesBound(total, BatchSize, 0);
    while i < total
      invariant 0 <= k <= |batches| && i == k * BatchSize
      invariant k < |batches| <==> i < total
      invariant FetchLoop(batches, k, elevations, events, key, transport)
      decreases total - i
    {
      var request, checked := SendBatch(locations, i, k, key, transport);
      ghost var before := events;
      events := events + [Send(request)];
      if checked.Failure? {
        outcome := Failure(checked.error);
        ScheduleStep(batches, k, key);
        FetchAbortsAt(locations, k, elevations, key, transport);
        return;
      }
      FetchAdvances(batches, k, elevations, before, checked.value, key, transport);
      elevations := elevations + checked.value;
      NumBatchesBound(total, BatchSize, k + 1);
      if i + BatchSize < total {
        events := events + [Sleep];
      }
      i := i + BatchSize;
      k := k + 1;
    }
    FetchCompletes(locations, elevations, key, transport);
    outcome := Success(elevations);
  }

  /** A fetch that succeeds sends every batch, in order, which is
      `(total - 1) / 100 + 1` requests for `total >= 1` and none for an
      empty list, and pauses once fewer than it sends. */
  lemma FetchSuccessTrace(locations: seq<string>, key: string, transport: Request -> Response)
    requires FetchResult(locations, key, transport).Success?
    ensures var events := FetchEvents(locations, key, transport);
      && SentRequests(events) == RequestsFor(Batches(locations, BatchSize), key)
      && |SentRequests(events)| == (|locations| - 1) / BatchSize + 1
      && Pauses(events) == if locations == [] then 0 else |SentRequests(events)| - 1
  {
    var batches := Batches(locations, BatchSize);
    ScheduleShape(RequestsFor(batches, key));
    BatchCount(|locations|, BatchSize);
    NumBatchesBound(|locations|, BatchSize, 0);
  }

  /** A fetch that fails at batch k has sent batches 0 to k and no later
      one, the last of them being the batch whose check failed, every
      earlier check having passed; it paused k times, never after the
      failing batch. */
  lemma FetchFailureTrace(locations: seq<string>, key: string, transport: Request -> Response)
    requires FetchResult(locations, key, transport).Failure?
    ensures var batches := Batches(locations, BatchSize);
      var k := Gather(batches, key, transport).failedAt;
      var events := FetchEvents(locations, key, transport);
      && k < |batches|
      && SentRequests(events) == RequestsFor(batches[..k + 1], key)
      && BatchCheck(batches, k, key, transport) == Failure(FetchResult(locations, key, transport).error)
      && (forall j :: 0 <= j < k ==> BatchCheck(batches, j, key, transport).Success?)
      && Pauses(events) == k
      && events[|events| - 1] == Send(BatchRequest(batches[k], key))
  {
    var batches := Batches(locations, BatchSize);
    var k := Gather(batches, key, transport).failedAt;
    GatherFirstFailure(batches, key, transport);
    ScheduleShape(RequestsFor(batches[..k + 1], key));
  }

  // ---------------------------------------------------------------------
  // The whole of get_elevation_data

  /** The grids `get_elevation_data` returns. */
  datatype Terrain = Terrain(latGrid: seq<seq<real>>, lonGrid: seq<seq<real>>, elevationGrid: seq<seq<real>>)

  /** Lines 41-48: the `n` x `n` lattice around the centre. */
  function SampleLattice(centerLat: real, centerLon: real, n: nat, areaSizeDeg: real): (grids: (seq<seq<real>>, seq<seq<real>>))
    ensures IsMatrix(grids.0, n, n) && IsMatrix(grids.1, n, n)
  {
    Meshgrid(Axis(centerLat, areaSizeDeg, n), Axis(centerLon, areaSizeDeg, n))
  }

  /** Lines 51-54: the `n * n` location strings, row-major. */
  function SampleLocations(centerLat: real, centerLon: real, n: nat, areaSizeDeg: real, fmt: real -> string): (locs: seq<string>)
    ensures |locs| == n * n
  {
    var (latGrid, lonGrid) := SampleLattice(centerLat, centerLon, n, areaSizeDeg);
    FlattenLength(latGrid, n, n);
    FlattenLength(lonGrid, n, n);
    Locations(latGrid, lonGrid, n * n, fmt)
  }

  /** What `get_elevation_data` returns or raises. */
  function ElevationData(centerLat: real, centerLon: real, gridSize: int, areaSizeDeg: real,
                         key: string, fmt: real -> string, transport: Request -> Response): (r: Result<Terrain, FetchError>)
    ensures gridSize < 0 ==> r == Failure(NegativeGridSize(gridSize))
    ensures r.Success? ==>
      && (r.value.latGrid, r.value.lonGrid) == SampleLattice(centerLat, centerLon, gridSize, areaSizeDeg)
      && IsMatrix(r.value.elevationGrid, gridSize, gridSize)
  {
    if gridSize < 0 then Failure(NegativeGridSize(gridSize))
    else
      var n := gridSize as nat;
      var (latGrid, lonGrid) := SampleLattice(centerLat, centerLon, n, areaSizeDeg);
      match FetchResult(SampleLocations(centerLat, centerLon, n, areaSizeDeg, fmt), key, transport)
      case Failure(e) => Failure(e)
      case Success(elevations) =>
        match Reshape(elevations, n, n)
        case None => Failure(ReshapeFailed(|elevations|, n, n))
        case Some(grid) => Success(Terrain(latGrid, lonGrid, grid))
  }

  /** Lines 22-107. `key` stands for `GOOGLE_API_KEY`, `fmt` for the
      float-to-text conversion of the f-string, `transport` for the
      elevation service behind `requests.get`. */
  method GetElevationData(centerLat: real, centerLon: real, gridSize: int, areaSizeDeg: real,
                          key: string, fmt: real -> string, transport: Request -> Response)
    returns (outcome: Result<Terrain, FetchError>, events: seq<Event>)
    ensures outcome == ElevationData(centerLat, centerLon, gridSize, areaSizeDeg, key, fmt, transport)
    ensures gridSize < 0 ==> events == []
    ensures gridSize >= 0 ==>
      events == FetchEvents(SampleLocations(centerLat, centerLon, gridSize as nat, areaSizeDeg, fmt), key, transport)
  {
    if gridSize < 0 {
      outcome, events := Failure(NegativeGridSize(gridSize)), [];
      return;
    }
    var n := gridSize as nat;
    var latMin, latMax := centerLat - areaSizeDeg / 2.0, centerLat + areaSizeDeg / 2.0;
    var lonMin, lonMax := centerLon - areaSizeDeg / 2.0, centerLon + areaSizeDeg / 2.0;
    var latVals := Linspace(latMin, latMax, n);
    var lonVals := Linspace(lonMin, lonMax, n);
    var grids := Meshgrid(latVals, lonVals);
    var latGrid, lonGrid := grids.0, grids.1;
    assert grids == SampleLattice(centerLat, centerLon, n, areaSizeDeg);
    var totalPoints := n * n;
    FlattenLength(latGrid, n, n);
    FlattenLength(lonGrid, n, n);
    var locations := Locations(latGrid, lonGrid, totalPoints, fmt);
    assert locations == SampleLocations(centerLat, centerLon, n, areaSizeDeg, fmt);
    var fetched;
    fetched, events := FetchElevations(locations, key, transport);
    if fetched.Failure? {
      outcome := Failure(fetched.error);
      return;
    }
    var elevations := fetched.value;
    var grid := Reshape(elevations, n, n);
    if grid.None? {
      outcome := Failure(ReshapeFailed(|elevations|, n, n));
    } else {
      outcome := Success(Terrain(latGrid, lonGrid, grid.value));
    }
  }

  /** A fetch that aborts ends `get_elevation_data` with the same error:
      no grid is returned. */
  lemma FailureReturnsNoGrid(centerLat: real, centerLon: real, n: nat, areaSizeDeg: real,
                             key: string, fmt: real -> string, transport: Request -> Response)
    requires FetchResult(SampleLocations(centerLat, centerLon, n, areaSizeDeg, fmt), key, transport).Failure?
    ensures ElevationData(centerLat, centerLon, n, areaSizeDeg, key, fmt, transport)
         == Failure(FetchResult(SampleLocations(centerLat, centerLon, n, areaSizeDeg, fmt), key, transport).error)
  {
  }

  /** When every batch is answered, the reshape decides: the grid is
      returned exactly when `n * n` elevations came back in total. The
      per-batch counts are never compared with the request sizes. */
  lemma ReshapeDecides(centerLat: real, centerLon: real, n: nat, areaSizeDeg: real,
                       key: string, fmt: real -> string, transport: Request -> Response)
    requires FetchResult(SampleLocations(centerLat, centerLon, n, areaSizeDeg, fmt), key, transport).Success?
    ensures var elevations := FetchResult(SampleLocations(centerLat, centerLon, n, areaSizeDeg, fmt), key, transport).value;
      var data := ElevationData(centerLat, centerLon, n, areaSizeDeg, key, fmt, transport);
      && (data.Success? <==> |elevations| == n * n)
      && (data.Failure? ==> data.error == ReshapeFailed(|elevations|, n, n))
      && (data.Success? ==> Flatten(data.value.elevationGrid) == elevations)
  {
    var elevations := FetchResult(SampleLocations(centerLat, centerLon, n, areaSizeDeg, fmt), key, transport).value;
    if |elevations| == n * n {
      FlattenReshape(elevations, n, n);
    }
  }

  // ---------------------------------------------------------------------
  // A deterministic stub service

  /** Answers every request with status 200 and `"OK"`, giving each
      `"|"`-separated location `elevationAt` of its text. */
  function Stub(elevationAt: string -> real): Request -> Response {
    (request: Request) =>
      var points := Split(request.locations, '|');
      Reply(200, "", Some(Payload(Some("OK"), None, Some(seq(|points|, k requires 0 <= k < |points| => Some(elevationAt(points[k])))))))
  }

  /** The stub answers a non-empty batch of `"|"`-free locations with one
      elevation per location, in order. */
  lemma StubAnswersBatch(batch: seq<string>, key: string, elevationAt: string -> real)
    requires |batch| > 0 && forall k :: 0 <= k < |batch| ==> '|' !in batch[k]
    ensures CheckResponse(Stub(elevationAt)(BatchRequest(batch, key)))
         == Success(Map(elevationAt, batch))
  {
    SplitJoin(batch, '|');
    var results := seq(|batch|, k requires 0 <= k < |batch| => Some(elevationAt(batch[k])));
    assert Stub(elevationAt)(BatchRequest(batch, key)) == Reply(200, "", Some(Payload(Some("OK"), None, Some(results))));
    var r := ElevationsOf(results);
    assert r.value == Map(elevationAt, batch);
  }

  /** Against the stub, a loop over non-empty batches of `"|"`-free
      locations succeeds with one elevation per location, in order. */
  lemma {:induction false} GatherStub(batches: seq<seq<string>>, key: string, elevationAt: string -> real)
    requires forall j :: 0 <= j < |batches| ==> |batches[j]| > 0
    requires forall j, k :: 0 <= j < |batches| && 0 <= k < |batches[j]| ==> '|' !in batches[j][k]
    ensures var flat := Flatten(batches);
      Gather(batches, key, Stub(elevationAt)) == Fetching(Map(elevationAt, flat))
    decreases |batches|
  {
    if batches != [] {
      var init, last := batches[..|batches| - 1], batches[|batches| - 1];
      GatherStub(init, key, elevationAt);
      StubAnswersBatch(last, key, elevationAt);
      var flat, front := Flatten(batches), Flatten(init);
      assert flat == front + last;
      var values := Map(elevationAt, last);
      assert Map(elevationAt, front) + values
          == Map(elevationAt, flat);
    }
  }

  /** Against the stub, fetching `"|"`-free locations succeeds with one
      elevation per location, in order, and sends every batch. */
  lemma StubFetch(locations: seq<string>, key: string, elevationAt: string -> real)
    requires forall m :: 0 <= m < |locations| ==> '|' !in locations[m]
    ensures FetchResult(locations, key, Stub(elevationAt))
         == Success(Map(elevationAt, locations))
    ensures SentRequests(FetchEvents(locations, key, Stub(elevationAt))) == RequestsFor(Batches(locations, BatchSize), key)
  {
    var batches := Batches(locations, BatchSize);
    forall j | 0 <= j < |batches| ensures |batches[j]| > 0 {
      BatchShape(locations, BatchSize, j);
    }
    forall j, k | 0 <= j < |batches| && 0 <= k < |batches[j]| ensures '|' !in batches[j][k] {
      BatchShape(locations, BatchSize, j);
      assert batches[j][k] == locations[j * BatchSize + k];
    }
    GatherStub(batches, key, elevationAt);
    BatchesConcat(locations, BatchSize);
    ScheduleShape(RequestsFor(batches, key));
  }

  /** The formatted location never holds `"|"` when the float text does not. */
  lemma FormatLocationHasNoPipe(fmt: real -> string, lat: real, lon: real)
    requires '|' !in fmt(lat) && '|' !in fmt(lon)
    ensures '|' !in FormatLocation(fmt, lat, lon)
  {
    assert FormatLocation(fmt, lat, lon) == fmt(lat) + [','] + fmt(lon);
  }

  /** The lattice's location strings hold no `"|"` when the float text
      never does. */
  lemma SampleLocationsHaveNoPipe(centerLat: real, centerLon: real, n: nat, areaSizeDeg: real, fmt: real -> string)
    requires forall x :: '|' !in fmt(x)
    ensures var locs := SampleLocations(centerLat, centerLon, n, areaSizeDeg, fmt);
      forall m :: 0 <= m < |locs| ==> '|' !in locs[m]
  {
    var (latGrid, lonGrid) := SampleLattice(centerLat, centerLon, n, areaSizeDeg);
    FlattenLength(latGrid, n, n);
    FlattenLength(lonGrid, n, n);
    var locs := SampleLocations(centerLat, centerLon, n, areaSizeDeg, fmt);
    forall m | 0 <= m < |locs| ensures '|' !in locs[m] {
      FormatLocationHasNoPipe(fmt, Flatten(latGrid)[m], Flatten(lonGrid)[m]);
    }
  }

  /** The flatten/reshape round trip: against a stub that answers each
      location with `elevationAt` of its text, `get_elevation_data`
      returns the lattice and an `n` x `n` grid whose cell (i, j) is the
      stub's answer for cell (i, j) of the lattice, after sending every
      batch. */
  lemma StubRoundTrip(centerLat: real, centerLon: real, n: nat, areaSizeDeg: real,
                      key: string, fmt: real -> string, elevationAt: string -> real)
    requires forall x :: '|' !in fmt(x)
    ensures var data := ElevationData(centerLat, centerLon, n, areaSizeDeg, key, fmt, Stub(elevationAt));
      && data.Success?
      && (data.value.latGrid, data.value.lonGrid) == SampleLattice(centerLat, centerLon, n, areaSizeDeg)
      && IsMatrix(data.value.elevationGrid, n, n)
      && forall i, j :: 0 <= i < n && 0 <= j < n ==>
           data.value.elevationGrid[i][j]
             == elevationAt(FormatLocation(fmt, data.value.latGrid[i][j], data.value.lonGrid[i][j]))
    ensures var locs := SampleLocations(centerLat, centerLon, n, areaSizeDeg, fmt);
      SentRequests(FetchEvents(locs, key, Stub(elevationAt))) == RequestsFor(Batches(locs, BatchSize), key)
  {
    var (latGrid, lonGrid) := SampleLattice(centerLat, centerLon, n, areaSizeDeg);
    var locs := SampleLocations(centerLat, centerLon, n, areaSizeDeg, fmt);
    SampleLocationsHaveNoPipe(centerLat, centerLon, n, areaSizeDeg, fmt);
    StubFetch(locs, key, elevationAt);
    var elevations := Map(elevationAt, locs);
    ReshapePerLocation(latGrid, lonGrid, n, fmt, elevationAt);
    assert locs == Locations(latGrid, lonGrid, n * n, fmt);
    var grid := Reshape(elevations, n, n).value;
    var data := ElevationData(centerLat, centerLon, n, areaSizeDeg, key, fmt, Stub(elevationAt));
    assert data == Success(Terrain(latGrid, lonGrid, grid));
    forall i, j | 0 <= i < n && 0 <= j < n
      ensures data.value.elevationGrid[i][j]
           == elevationAt(FormatLocation(fmt, data.value.latGrid[i][j], data.value.lonGrid[i][j]))
    {
      assert grid[i][j] == elevationAt(FormatLocation(fmt, latGrid[i][j], lonGrid[i][j]));
    }
  }
}
