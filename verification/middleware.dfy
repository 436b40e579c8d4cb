/** `CorrelationIdMiddleware.dispatch` of lumen_logger/middleware.py, for one
    request handled by one task: resolve the correlation id, install it in
    the context and on `request.state`, run the handler, clear the context
    on every exit path, and on success stamp the trace headers on the
    response. */
module Middleware {
  import opened Options
  import opened TaskLocal
  import opened Headers
  import Uuids
  import Context
  import LoggingConf

  const CorrelationHeader: string := "X-Correlation-ID"
  const TimingHeader: string := "X-Response-Time-ms"

  /** The inbound request; only `request.state.correlation_id` is written. */
  class Request {
    const headers: seq<Header>
    var stateCorrelationId: Option<string>

    constructor (headers: seq<Header>)
      ensures this.headers == headers && stateCorrelationId == None
    {
      this.headers := headers;
      stateCorrelationId := None;
    }
  }

  datatype Response = Response(statusCode: int, headers: seq<Header>)

  /** A raised exception. `isException` is false for a `BaseException` that
      is not an `Exception` (cancellation, interrupts): `except Exception`
      does not see it, the `finally` still does. */
  datatype Failure = Failure(name: string, isException: bool)

  /** How `call_next(request)` ends. */
  datatype Outcome = Returned(response: Response) | Raised(failure: Failure)

  /** What the application sees while it runs: the request headers,
      `request.state.correlation_id`, and `get_correlation_id()`. */
  datatype HandlerView = HandlerView(headers: seq<Header>, stateCorrelationId: Option<string>, context: Option<string>)

  /** The middleware's own log lines, each with the correlation id that the
      context held when the line was emitted (the record enricher turns it
      into the `correlation_id` field). */
  datatype Event = Started(cid: string) | Failed(cid: string, error: string) | Completed(status: int, cid: string)
  datatype LogLine = LogLine(event: Event, context: Option<string>)

  /** `request.headers.get("X-Correlation-ID") or str(uuid.uuid4())[:8]`: a
      non-empty header value verbatim, otherwise eight hexadecimal digits of
      a fresh UUID. */
  function ResolveCid(headers: seq<Header>, random: nat): (cid: string)
    requires random < Uuids.UuidSpace
    ensures cid != ""
    ensures Get(headers, CorrelationHeader).Some? && Get(headers, CorrelationHeader).value != "" ==>
              cid == Get(headers, CorrelationHeader).value
    ensures Get(headers, CorrelationHeader).None? || Get(headers, CorrelationHeader).value == "" ==>
              cid == Uuids.ShortId(random) && |cid| == 8
  {
    var supplied := Get(headers, CorrelationHeader);
    if supplied.Some? && supplied.value != "" then supplied.value else Uuids.ShortId(random)
  }

  /** Step 8: `response.headers["X-Correlation-ID"] = cid` then
      `response.headers["X-Response-Time-ms"] = elapsed`. */
  function WithTraceHeaders(response: Response, cid: string, elapsed: string): Response
  {
    var withCid := Set(response.headers, CorrelationHeader, cid);
    response.(headers := Set(withCid, TimingHeader, elapsed))
  }

  lemma TraceHeadersDiffer()
    ensures !SameName(TimingHeader, CorrelationHeader)
  {
    assert |Ascii.Lower(TimingHeader)| != |Ascii.Lower(CorrelationHeader)|;
  }

  /** The stamped response keeps its status, answers `cid` and `elapsed` for
      the two trace headers (each present once), and keeps every other
      header, in order. */
  lemma TraceHeadersSpec(response: Response, cid: string, elapsed: string)
    ensures WithTraceHeaders(response, cid, elapsed).statusCode == response.statusCode
    ensures Get(WithTraceHeaders(response, cid, elapsed).headers, CorrelationHeader) == Some(cid)
    ensures Get(WithTraceHeaders(response, cid, elapsed).headers, TimingHeader) == Some(elapsed)
    ensures Occurrences(WithTraceHeaders(response, cid, elapsed).headers, CorrelationHeader) == 1
    ensures Occurrences(WithTraceHeaders(response, cid, elapsed).headers, TimingHeader) == 1
    ensures Others(Others(WithTraceHeaders(response, cid, elapsed).headers, CorrelationHeader), TimingHeader)
         == Others(Others(response.headers, CorrelationHeader), TimingHeader)
    ensures forall other :: !SameName(other, CorrelationHeader) && !SameName(other, TimingHeader) ==>
              Get(WithTraceHeaders(response, cid, elapsed).headers, other) == Get(response.headers, other)
  {
    var h := response.headers;
    var h1 := Set(h, CorrelationHeader, cid);
    var h2 := Set(h1, TimingHeader, elapsed);
    TraceHeadersDiffer();
    SetSpec(h, CorrelationHeader, cid);
    SetSpec(h1, TimingHeader, elapsed);
    OthersCommute(h2, CorrelationHeader, TimingHeader);
    OthersCommute(h1, CorrelationHeader, TimingHeader);
    OccurrencesOfOthers(h2, CorrelationHeader, TimingHeader);
    OccurrencesOfOthers(h1, CorrelationHeader, TimingHeader);
  }

  /** The log lines of one request, given how the handler ended. */
  function ExpectedLogs(cid: string, outcome: Outcome): seq<LogLine>
  {
    [LogLine(Started(cid), Some(cid))] +
    match outcome
    case Raised(f) => if f.isException then [LogLine(Failed(cid, f.name), Some(cid))] else []
    case Returned(r) => [LogLine(Completed(r.statusCode, cid), None)]
  }

  /** `dispatch(request, call_next)` run by task `task`. `random` stands for
      the UUID's random bits and `elapsed` for the formatted duration. */
  method Dispatch(ctx: ContextVar, task: TaskId, request: Request, callNext: HandlerView -> Outcome,
                  random: nat, elapsed: string) returns (result: Outcome, logs: seq<LogLine>)
    requires random < Uuids.UuidSpace
    modifies ctx, request
    ensures request.stateCorrelationId == Some(ResolveCid(request.headers, random))
    ensures ctx.Current(task) == None
    ensures forall u :: u != task ==> ctx.Current(u) == old(ctx.Current(u))
    ensures var cid := ResolveCid(request.headers, random);
            var outcome := callNext(HandlerView(request.headers, Some(cid), Some(cid)));
            && result == (if outcome.Raised? then outcome else Returned(WithTraceHeaders(outcome.response, cid, elapsed)))
            && logs == ExpectedLogs(cid, outcome)
  {
    // Step 1: resolve the id and install it.
    var supplied := Get(request.headers, CorrelationHeader);
    var cid := if supplied.Some? && supplied.value != "" then supplied.value else Uuids.ShortId(random);
    Context.SetCorrelationId(ctx, task, cid);
    request.stateCorrelationId := Some(cid);

    // Step 2: the start line.
    var visible := ctx.Get(task);
    logs := [LogLine(Started(cid), visible)];

    // Steps 3-5: the handler, the exception log, the `finally`.
    var outcome := callNext(HandlerView(request.headers, request.stateCorrelationId, visible));
    if outcome.Raised? {
      if outcome.failure.isException {
        var during := ctx.Get(task);
        logs := logs + [LogLine(Failed(cid, outcome.failure.name), during)];
      }
      Context.ClearCorrelationId(ctx, task);
      result := outcome;
      return;
    }
    Context.ClearCorrelationId(ctx, task);

    // Steps 6-8: the completion line, then the trace headers.
    var after := ctx.Get(task);
    logs := logs + [LogLine(Completed(outcome.response.statusCode, cid), after)];
    var response := outcome.response;
    response := response.(headers := Set(response.headers, CorrelationHeader, cid));
    response := response.(headers := Set(response.headers, TimingHeader, elapsed));
    result := Returned(response);
  }

  /** The completion line is emitted after the `finally` has cleared the
      context, so its `correlation_id` field is "-"; the lines before it
      carry the id. */
  lemma CompletionLineLosesId(cid: string, response: Response)
    requires cid != ""
    ensures var logs := ExpectedLogs(cid, Returned(response));
            && |logs| == 2
            && LoggingConf.CorrelationField(logs[0].context) == cid
            && LoggingConf.CorrelationField(logs[1].context) == "-"
  {
  }

  /** One request through a fresh context: the id the handler sees is the
      one echoed in the response, a failure passes through untouched and
      without headers, and nothing is left in the context afterwards. */
  method RequestScenario(task: TaskId, headers: seq<Header>, callNext: HandlerView -> Outcome,
                         random: nat, elapsed: string)
    returns (result: Outcome, leftover: Option<string>)
    requires random < Uuids.UuidSpace
    ensures leftover == None
    ensures var cid := ResolveCid(headers, random);
            var outcome := callNext(HandlerView(headers, Some(cid), Some(cid)));
            && (outcome.Raised? ==> result == outcome)
            && (outcome.Returned? ==>
                  && result.Returned?
                  && result.response.statusCode == outcome.response.statusCode
                  && Get(result.response.headers, CorrelationHeader) == Some(cid)
                  && Get(result.response.headers, TimingHeader) == Some(elapsed))
  {
    var ctx := new ContextVar();
    var request := new Request(headers);
    var logs;
    result, logs := Dispatch(ctx, task, request, callNext, random, elapsed);
    var cid := ResolveCid(headers, random);
    var outcome := callNext(HandlerView(headers, Some(cid), Some(cid)));
    if outcome.Returned? {
      TraceHeadersSpec(outcome.response, cid, elapsed);
    }
    leftover := ctx.Get(task);
  }

  /** A caller-supplied id is adopted verbatim and echoed back. */
  lemma AdoptsSuppliedId(headers: seq<Header>, random: nat, response: Response, elapsed: string)
    requires random < Uuids.UuidSpace
    requires Get(headers, CorrelationHeader) == Some("test-cid-1234")
    ensures ResolveCid(headers, random) == "test-cid-1234"
    ensures Get(WithTraceHeaders(response, ResolveCid(headers, random), elapsed).headers, CorrelationHeader)
         == Some("test-cid-1234")
  {
    TraceHeadersSpec(response, "test-cid-1234", elapsed);
  }
}
