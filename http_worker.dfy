/**
 * `HttpWorker::run` and `HttpWorker::log`: the dispatch loop of a RoadRunner
 * HTTP worker, with its two tiers of fault recovery.
 *
 * Each collaborator is a function of the trace so far and of its argument,
 * so it may behave differently on every call: the application handler says
 * what `handle` returns or throws, `respond` and the (optional) logger and
 * event dispatcher say which fault, if any, their call throws.  The stage
 * functions below give the loop's meaning one try/catch region at a time;
 * `Run` is the loop itself and is proved to compute `RunFrom`.
 */
module HttpWorker {
  import opened Wrappers
  import opened Faults
  import opened Trace

  type Handler = (seq<Obs>, Request) -> HandlerOutcome
  type Responder = (seq<Obs>, Response) -> Option<Fault>
  type Logger = (seq<Obs>, LogEntry) -> Option<Fault>
  type Dispatcher = (seq<Obs>, Event) -> Option<Fault>

  /** The worker's collaborators; logger and event dispatcher are nullable. */
  datatype Worker = Worker(
    handler: Handler,
    respond: Responder,
    logger: Option<Logger>,
    dispatcher: Option<Dispatcher>)

  /** How `run` ends. `Exhausted` is the model's horizon: the script of acquisitions ran out. */
  datatype Exit =
    | Terminated                  // the `break` after `TerminateWorker`
    | BadRequestFatal(fault: Fault)  // the `break` after the 400 could not be delivered
    | HandlerFatal(fault: Fault)     // the `break` after the 500 could not be delivered
    | Escaped(fault: Fault)          // a logger fault outside any try leaves `run`
    | Exhausted

  datatype Next = Continue | Stop(exit: Exit)

  /** The trace after one iteration (or part of one) and whether the loop goes on. */
  datatype Round = Round(trace: History, next: Next)

  /** The trace after a collaborator call, or after a try block, and the fault it threw, if any. */
  datatype Step = Step(trace: History, fault: Option<Fault>)

  /** The whole run: the trace and how the loop ended. */
  datatype Outcome = Outcome(trace: History, exit: Exit)

  const TerminationMessage := "Termination request received"
  const MalformedMessage := "Malformed request received!"
  const BadRequestFailure := "Failed to deliver bad request response, terminating worker."
  const UnhandledMessage := "Request handler threw unhandled exception!"
  const InternalErrorFailure := "Failed to deliver internal server error response, terminating worker."

  /** `ResponseFactoryInterface::createResponse`: a response with that status and reason phrase. */
  function CreateResponse(status: int, reason: string): Response
  {
    Response(status, reason, "")
  }

  const BadRequestResponse := CreateResponse(400, "Bad Request")
  const InternalErrorResponse := CreateResponse(500, "Internal Server Error")

  /** The context array `log` builds: a 'throwable' entry exactly when a throwable is given. */
  function Context(throwable: Option<Fault>): map<string, FaultRecord>
  {
    if throwable.Some? then map["throwable" := ThrowableToArray(throwable.value, DefaultLevels)] else map[]
  }

  /** `$this->log($level, $msg, $throwable)`: nothing without a logger, one logger call otherwise. */
  function Log(w: Worker, t: History, level: Level, msg: string, throwable: Option<Fault>): Step
  {
    if w.logger.None? then Step(t, None)
    else
      var entry := LogEntry(level, msg, Context(throwable));
      var raised := w.logger.value(t.calls, entry);
      Step(Record(t, Logged(entry, raised)), raised)
  }

  /** `$this->eventDispatcher?->dispatch($event)`: nothing without a dispatcher. */
  function Emit(w: Worker, t: History, e: Event): Step
  {
    if w.dispatcher.None? then Step(t, None)
    else
      var raised := w.dispatcher.value(t.calls, e);
      Step(Record(t, Dispatched(e, raised)), raised)
  }

  /** `$this->PSR7Worker->respond($response)`. */
  function Send(w: Worker, t: History, r: Response): Step
  {
    var raised := w.respond(t.calls, r);
    Step(Record(t, Responded(r, raised)), raised)
  }

  /** Lines 36-40, inside the outer try: log INFO, then dispatch `TerminateWorker`. */
  function TryTerminate(w: Worker, t: History): Step
  {
    var logged := Log(w, t, Info, TerminationMessage, None);
    if logged.fault.Some? then logged else Emit(w, logged.trace, TerminateWorker)
  }

  /** The inner try of lines 50-54: dispatch `BadRequest(f)`, then send the 400. */
  function TryBadRequest(w: Worker, t: History, f: Fault): Step
  {
    var emitted := Emit(w, t, BadRequest(f));
    if emitted.fault.Some? then emitted else Send(w, emitted.trace, BadRequestResponse)
  }

  /** An inner catch (lines 55-61, 82-88): log ERROR about `g` and stop with `fatal`; a fault of that log escapes. */
  function GiveUp(w: Worker, t: History, msg: string, g: Fault, fatal: Exit): Round
  {
    var logged := Log(w, t, Error, msg, Some(g));
    Round(logged.trace, Stop(if logged.fault.Some? then Escaped(logged.fault.value) else fatal))
  }

  /** The outer catch (lines 44-63), reached with the fault `f`; its NOTICE log is outside any try. */
  function RejectMalformed(w: Worker, t: History, f: Fault): Round
  {
    var notice := Log(w, t, Notice, MalformedMessage, Some(f));
    if notice.fault.Some? then Round(notice.trace, Stop(Escaped(notice.fault.value)))
    else
      var tried := TryBadRequest(w, notice.trace, f);
      if tried.fault.Some? then GiveUp(w, tried.trace, BadRequestFailure, tried.fault.value, BadRequestFatal(tried.fault.value))
      else Round(tried.trace, Continue)
  }

  /** The try of lines 66-70: `PreDispatch`, the handler, `PostDispatch`, respond. */
  function TryDispatch(w: Worker, t: History, req: Request): Step
  {
    var pre := Emit(w, t, PreDispatch(req));
    if pre.fault.Some? then pre
    else
      var outcome := w.handler(pre.trace.calls, req);
      var t1 := Record(pre.trace, Invoked(req, outcome));
      if outcome.Threw? then Step(t1, Some(outcome.fault))
      else
        var post := Emit(w, t1, PostDispatch(outcome.response));
        if post.fault.Some? then post else Send(w, post.trace, outcome.response)
  }

  /** The inner try of lines 72-81: log ERROR about `f`, dispatch `UnhandledException(f)`, send the 500. */
  function TryRecover(w: Worker, t: History, f: Fault): Step
  {
    var logged := Log(w, t, Error, UnhandledMessage, Some(f));
    if logged.fault.Some? then logged
    else
      var emitted := Emit(w, logged.trace, UnhandledException(f));
      if emitted.fault.Some? then emitted else Send(w, emitted.trace, InternalErrorResponse)
  }

  /** The catch of lines 71-89, reached with the fault `f`. */
  function RecoverUnhandled(w: Worker, t: History, f: Fault): Round
  {
    var tried := TryRecover(w, t, f);
    if tried.fault.Some? then GiveUp(w, tried.trace, InternalErrorFailure, tried.fault.value, HandlerFatal(tried.fault.value))
    else Round(tried.trace, Continue)
  }

  /** Lines 33-41 and, when they throw, the outer catch: the termination branch. */
  function Terminate(w: Worker, t: History): Round
  {
    var tried := TryTerminate(w, t);
    if tried.fault.Some? then RejectMalformed(w, tried.trace, tried.fault.value)
    else Round(tried.trace, Stop(Terminated))
  }

  /** Lines 66-89: dispatch a request and, when that throws, the catch of lines 71-89. */
  function Serve(w: Worker, t: History, req: Request): Round
  {
    var tried := TryDispatch(w, t, req);
    if tried.fault.Some? then RecoverUnhandled(w, tried.trace, tried.fault.value)
    else Round(tried.trace, Continue)
  }

  /** One pass of the `do { ... } while (true)` body, after the history `t`. */
  function Iteration(w: Worker, t: History, a: Acquire): Round
  {
    var t0 := Record(t, Acquired(a));
    match a
    case NoRequest => Terminate(w, t0)
    case AcquireFault(f) => RejectMalformed(w, t0, f)
    case Req(req) => Serve(w, t0, req)
  }

  /**
   * A `do { ... } while (true)` loop whose body is `body`, run after the history
   * `t` on the acquisitions `script`: it ends at a `break` (a `Stop`), or when
   * the script runs out.
   */
  function Loop(body: (History, Acquire) -> Round, t: History, script: seq<Acquire>): Outcome
    decreases |script|
  {
    if script == [] then Outcome(t, Exhausted)
    else
      var r := body(t, script[0]);
      match r.next
      case Continue => Loop(body, r.trace, script[1..])
      case Stop(exit) => Outcome(r.trace, exit)
  }

  /** The loop of `HttpWorker::run` after the history `t` on the remaining acquisitions `script`. */
  function RunFrom(w: Worker, t: History, script: seq<Acquire>): Outcome
  {
    Loop((h, a) => Iteration(w, h, a), t, script)
  }

  /** `HttpWorker::run` on the acquisitions `script`. */
  method Run(w: Worker, script: seq<Acquire>) returns (trace: History, exit: Exit)
    ensures Outcome(trace, exit) == RunFrom(w, Empty, script)
  {
    trace, exit := Empty, Exhausted;
    var i := 0;
    while i < |script|
      invariant 0 <= i <= |script|
      invariant RunFrom(w, Empty, script) == RunFrom(w, trace, script[i..])
    {
      assert script[i..][0] == script[i] && script[i..][1..] == script[i + 1..];
      var acquired := script[i];
      i := i + 1;
      trace := Record(trace, Acquired(acquired));
      // the outer try: waitRequest and the termination branch
      var caught: Option<Fault> := None;
      match acquired {
        case NoRequest =>
          var c := Log(w, trace, Info, TerminationMessage, None);
          trace, caught := c.trace, c.fault;
          if caught.None? {
            c := Emit(w, trace, TerminateWorker);
            trace, caught := c.trace, c.fault;
            if caught.None? {
              exit := Terminated;
              break;
            }
          }
        case AcquireFault(f) =>
          caught := Some(f);
        case Req(_) =>
      }
      if caught.Some? {
        // the outer catch: a malformed request
        var throwable := caught.value;
        var c := Log(w, trace, Notice, MalformedMessage, Some(throwable));
        trace := c.trace;
        if c.fault.Some? {
          exit := Escaped(c.fault.value);
          break;
        }
        c := Emit(w, trace, BadRequest(throwable));
        trace := c.trace;
        if c.fault.None? {
          c := Send(w, trace, BadRequestResponse);
          trace := c.trace;
        }
        if c.fault.Some? {
          var badRequestException := c.fault.value;
          c := Log(w, trace, Error, BadRequestFailure, Some(badRequestException));
          trace := c.trace;
          exit := if c.fault.Some? then Escaped(c.fault.value) else BadRequestFatal(badRequestException);
          break;
        }
        continue;
      }
      // the dispatch try
      var request := acquired.request;
      var c := Emit(w, trace, PreDispatch(request));
      var thrown: Option<Fault>;
      trace, thrown := c.trace, c.fault;
      if thrown.None? {
        var outcome := w.handler(trace.calls, request);
        trace := Record(trace, Invoked(request, outcome));
        if outcome.Threw? {
          thrown := Some(outcome.fault);
        } else {
          var response := outcome.response;
          c := Emit(w, trace, PostDispatch(response));
          trace, thrown := c.trace, c.fault;
          if thrown.None? {
            c := Send(w, trace, response);
            trace, thrown := c.trace, c.fault;
          }
        }
      }
      if thrown.Some? {
        // its catch, with the inner try around the recovery
        var throwable := thrown.value;
        c := Log(w, trace, Error, UnhandledMessage, Some(throwable));
        trace := c.trace;
        if c.fault.None? {
          c := Emit(w, trace, UnhandledException(throwable));
          trace := c.trace;
          if c.fault.None? {
            c := Send(w, trace, InternalErrorResponse);
            trace := c.trace;
          }
        }
        if c.fault.Some? {
          var internalServerError := c.fault.value;
          c := Log(w, trace, Error, InternalErrorFailure, Some(internalServerError));
          trace := c.trace;
          exit := if c.fault.Some? then Escaped(c.fault.value) else HandlerFatal(internalServerError);
          break;
        }
      }
    }
  }
}
