/**
 * The histories `HttpWorker::run` builds keep every kind of call in step with
 * the sequence of calls: each projection is exactly that kind of call picked
 * out of the calls, in order.
 */
module HistoryProperties {
  import opened Wrappers
  import opened Faults
  import opened Trace
  import opened HttpWorker

  lemma LogConsistent(w: Worker, t: History, level: Level, msg: string, throwable: Option<Fault>)
    requires Consistent(t)
    ensures Consistent(Log(w, t, level, msg, throwable).trace)
  {
    if w.logger.Some? {
      var entry := LogEntry(level, msg, Context(throwable));
      RecordKeeps(t, Logged(entry, w.logger.value(t.calls, entry)));
    }
  }

  lemma EmitConsistent(w: Worker, t: History, e: Event)
    requires Consistent(t)
    ensures Consistent(Emit(w, t, e).trace)
  {
    if w.dispatcher.Some? {
      RecordKeeps(t, Dispatched(e, w.dispatcher.value(t.calls, e)));
    }
  }

  lemma SendConsistent(w: Worker, t: History, r: Response)
    requires Consistent(t)
    ensures Consistent(Send(w, t, r).trace)
  {
    RecordKeeps(t, Responded(r, w.respond(t.calls, r)));
  }

  lemma GiveUpConsistent(w: Worker, t: History, msg: string, g: Fault, fatal: Exit)
    requires Consistent(t)
    ensures Consistent(GiveUp(w, t, msg, g, fatal).trace)
  {
    LogConsistent(w, t, Error, msg, Some(g));
  }

  lemma TerminateConsistent(w: Worker, t: History)
    requires Consistent(t)
    ensures Consistent(Terminate(w, t).trace)
  {
    var logged := Log(w, t, Info, TerminationMessage, None);
    LogConsistent(w, t, Info, TerminationMessage, None);
    if logged.fault.None? {
      EmitConsistent(w, logged.trace, TerminateWorker);
    }
    var tried := TryTerminate(w, t);
    if tried.fault.Some? {
      RejectMalformedConsistent(w, tried.trace, tried.fault.value);
    }
  }

  lemma RejectMalformedConsistent(w: Worker, t: History, f: Fault)
    requires Consistent(t)
    ensures Consistent(RejectMalformed(w, t, f).trace)
  {
    var notice := Log(w, t, Notice, MalformedMessage, Some(f));
    LogConsistent(w, t, Notice, MalformedMessage, Some(f));
    if notice.fault.None? {
      var emitted := Emit(w, notice.trace, BadRequest(f));
      EmitConsistent(w, notice.trace, BadRequest(f));
      if emitted.fault.None? {
        SendConsistent(w, emitted.trace, BadRequestResponse);
      }
      var tried := TryBadRequest(w, notice.trace, f);
      if tried.fault.Some? {
        GiveUpConsistent(w, tried.trace, BadRequestFailure, tried.fault.value, BadRequestFatal(tried.fault.value));
      }
    }
  }

  lemma TryDispatchConsistent(w: Worker, t: History, req: Request)
    requires Consistent(t)
    ensures Consistent(TryDispatch(w, t, req).trace)
  {
    var pre := Emit(w, t, PreDispatch(req));
    EmitConsistent(w, t, PreDispatch(req));
    if pre.fault.None? {
      var outcome := w.handler(pre.trace.calls, req);
      var t1 := Record(pre.trace, Invoked(req, outcome));
      RecordKeeps(pre.trace, Invoked(req, outcome));
      if outcome.Handled? {
        var post := Emit(w, t1, PostDispatch(outcome.response));
        EmitConsistent(w, t1, PostDispatch(outcome.response));
        if post.fault.None? {
          SendConsistent(w, post.trace, outcome.response);
        }
      }
    }
  }

  lemma RecoverUnhandledConsistent(w: Worker, t: History, f: Fault)
    requires Consistent(t)
    ensures Consistent(RecoverUnhandled(w, t, f).trace)
  {
    var logged := Log(w, t, Error, UnhandledMessage, Some(f));
    LogConsistent(w, t, Error, UnhandledMessage, Some(f));
    if logged.fault.None? {
      var emitted := Emit(w, logged.trace, UnhandledException(f));
      EmitConsistent(w, logged.trace, UnhandledException(f));
      if emitted.fault.None? {
        SendConsistent(w, emitted.trace, InternalErrorResponse);
      }
    }
    var tried := TryRecover(w, t, f);
    if tried.fault.Some? {
      GiveUpConsistent(w, tried.trace, InternalErrorFailure, tried.fault.value, HandlerFatal(tried.fault.value));
    }
  }

  lemma IterationConsistent(w: Worker, t: History, a: Acquire)
    requires Consistent(t)
    ensures Consistent(Iteration(w, t, a).trace)
  {
    var t0 := Record(t, Acquired(a));
    RecordKeeps(t, Acquired(a));
    match a {
      case NoRequest => TerminateConsistent(w, t0);
      case AcquireFault(f) => RejectMalformedConsistent(w, t0, f);
      case Req(req) =>
        TryDispatchConsistent(w, t0, req);
        var tried := TryDispatch(w, t0, req);
        if tried.fault.Some? {
          RecoverUnhandledConsistent(w, tried.trace, tried.fault.value);
        }
    }
  }

  lemma {:induction false} LoopConsistent(body: (History, Acquire) -> Round, t: History, script: seq<Acquire>)
    requires forall h, a :: Consistent(h) ==> Consistent(body(h, a).trace)
    requires Consistent(t)
    ensures Consistent(Loop(body, t, script).trace)
    decreases |script|
  {
    if script != [] {
      var r := body(t, script[0]);
      if r.next == Continue {
        LoopConsistent(body, r.trace, script[1..]);
      }
    }
  }

  /**
   * After any run from the start, every projection of the history is exactly
   * that kind of call picked out of the calls, in order.
   */
  lemma RunConsistent(w: Worker, script: seq<Acquire>)
    ensures Consistent(RunFrom(w, Empty, script).trace)
  {
    var body := (h, a) => Iteration(w, h, a);
    forall h, a | Consistent(h) ensures Consistent(body(h, a).trace) {
      IterationConsistent(w, h, a);
    }
    LoopConsistent(body, Empty, script);
  }
}
