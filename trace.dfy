/**
 * The values that pass through the worker loop and the trace of collaborator
 * calls the loop makes, with projections that pick one kind of call out of it.
 */
module Trace {
  import opened Wrappers
  import opened Faults

  /** A PSR-7 server request; only its identity matters to the loop. */
  datatype Request = Request(verb: string, target: string, body: string)

  /** A PSR-7 response: status code, reason phrase and body. */
  datatype Response = Response(status: int, reason: string, body: string)

  /**
   * The events the loop dispatches (the classes under src/Events and `TerminateWorker`).
   * `PreDispatch` carries the request, although the PHP field is named `$response`.
   */
  datatype Event =
    | PreDispatch(request: Request)
    | PostDispatch(response: Response)
    | BadRequest(fault: Fault)
    | UnhandledException(fault: Fault)
    | TerminateWorker

  /** PSR-3 log levels the loop uses. */
  datatype Level = Info | Notice | Error

  /** One `LoggerInterface::log` call: level, message and context array. */
  datatype LogEntry = LogEntry(level: Level, message: string, context: map<string, FaultRecord>)

  /** What one `waitRequest()` does: no request (termination), throw, or yield a request. */
  datatype Acquire = NoRequest | AcquireFault(fault: Fault) | Req(request: Request)

  /** What one `RequestHandlerInterface::handle` call does: return a response or throw. */
  datatype HandlerOutcome = Handled(response: Response) | Threw(fault: Fault)

  /** One call the loop makes on a collaborator, with the fault it raised, if any. */
  datatype Obs =
    | Acquired(acquire: Acquire)
    | Logged(entry: LogEntry, fault: Option<Fault>)
    | Dispatched(event: Event, fault: Option<Fault>)
    | Invoked(request: Request, outcome: HandlerOutcome)
    | Responded(response: Response, fault: Option<Fault>)

  /** The contributions `f` makes for each call of `s`, in order. */
  function Pick<T>(s: seq<Obs>, f: Obs -> seq<T>): seq<T>
  {
    if s == [] then [] else f(s[0]) + Pick(s[1..], f)
  }

  function AcquisitionOf(o: Obs): seq<Acquire> { if o.Acquired? then [o.acquire] else [] }
  function LogOf(o: Obs): seq<LogEntry> { if o.Logged? then [o.entry] else [] }
  function EventOf(o: Obs): seq<Event> { if o.Dispatched? then [o.event] else [] }
  function RequestOf(o: Obs): seq<Request> { if o.Invoked? then [o.request] else [] }
  function ReturnOf(o: Obs): seq<Response>
  {
    if o.Invoked? && o.outcome.Handled? then [o.outcome.response] else []
  }
  function AttemptOf(o: Obs): seq<Response> { if o.Responded? then [o.response] else [] }
  function DeliveryOf(o: Obs): seq<Response>
  {
    if o.Responded? && o.fault.None? then [o.response] else []
  }
  function FaultOf(o: Obs): seq<Fault>
  {
    match o
    case Acquired(_) => []
    case Logged(_, f) => OptionToSeq(f)
    case Dispatched(_, f) => OptionToSeq(f)
    case Invoked(_, outcome) => if outcome.Threw? then [outcome.fault] else []
    case Responded(_, f) => OptionToSeq(f)
  }

  /**
   * The calls made so far, in order, and beside them each kind of call picked
   * out of them: every `waitRequest()` outcome, every entry passed to the logger
   * and every event passed to the dispatcher (whether or not that call then
   * threw), every request passed to the handler and every response it
   * returned, every response passed to `respond` and every one whose `respond`
   * call completed, and every fault raised by a logger, dispatcher, handler or
   * respond call.
   */
  datatype History = History(
    calls: seq<Obs>,
    acquisitions: seq<Acquire>,
    logEntries: seq<LogEntry>,
    events: seq<Event>,
    requests: seq<Request>,
    returned: seq<Response>,
    attempts: seq<Response>,
    delivered: seq<Response>,
    raised: seq<Fault>)

  const Empty := History([], [], [], [], [], [], [], [], [])

  /** The history after one more call `o`: only the kinds of call `o` is of grow. */
  function Record(h: History, o: Obs): (r: History)
    ensures r.calls == h.calls + [o]
  {
    var h' := h.(calls := h.calls + [o]);
    match o
    case Acquired(a) => h'.(acquisitions := h.acquisitions + [a])
    case Logged(e, f) => h'.(logEntries := h.logEntries + [e], raised := h.raised + OptionToSeq(f))
    case Dispatched(e, f) => h'.(events := h.events + [e], raised := h.raised + OptionToSeq(f))
    case Invoked(req, outcome) =>
      if outcome.Handled? then h'.(requests := h.requests + [req], returned := h.returned + [outcome.response])
      else h'.(requests := h.requests + [req], raised := h.raised + [outcome.fault])
    case Responded(resp, f) =>
      if f.None? then h'.(attempts := h.attempts + [resp], delivered := h.delivered + [resp])
      else h'.(attempts := h.attempts + [resp], raised := h.raised + [f.value])
  }

  /** Each kind of call kept in `h` is exactly that kind picked out of its calls. */
  ghost predicate Consistent(h: History)
  {
    h.acquisitions == Pick(h.calls, AcquisitionOf) && h.logEntries == Pick(h.calls, LogOf)
    && h.events == Pick(h.calls, EventOf) && h.requests == Pick(h.calls, RequestOf)
    && h.returned == Pick(h.calls, ReturnOf) && h.attempts == Pick(h.calls, AttemptOf)
    && h.delivered == Pick(h.calls, DeliveryOf) && h.raised == Pick(h.calls, FaultOf)
  }

  lemma {:induction false} PickAppend<T>(a: seq<Obs>, b: seq<Obs>, f: Obs -> seq<T>)
    ensures Pick(a + b, f) == Pick(a, f) + Pick(b, f)
  {
    if a == [] {
      assert a + b == b;
    } else {
      assert (a + b)[0] == a[0];
      assert (a + b)[1..] == a[1..] + b;
      PickAppend(a[1..], b, f);
    }
  }

  lemma PickSingle<T>(o: Obs, f: Obs -> seq<T>)
    ensures Pick([o], f) == f(o)
  {
    assert [o][1..] == [];
  }

  lemma PickSnoc<T>(t: seq<Obs>, o: Obs, f: Obs -> seq<T>)
    ensures Pick(t + [o], f) == Pick(t, f) + f(o)
  {
    PickAppend(t, [o], f);
    PickSingle(o, f);
  }

  /** Recording a call keeps every kind of call in step with the calls. */
  lemma RecordKeeps(h: History, o: Obs)
    requires Consistent(h)
    ensures Consistent(Record(h, o))
  {
    PickSnoc(h.calls, o, AcquisitionOf);
    PickSnoc(h.calls, o, LogOf);
    PickSnoc(h.calls, o, EventOf);
    PickSnoc(h.calls, o, RequestOf);
    PickSnoc(h.calls, o, ReturnOf);
    PickSnoc(h.calls, o, AttemptOf);
    PickSnoc(h.calls, o, DeliveryOf);
    PickSnoc(h.calls, o, FaultOf);
  }
}
