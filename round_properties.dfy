/**
 * What one iteration of the `do { ... } while (true)` loop of
 * `HttpWorker::run` does for each outcome of `waitRequest`.
 */
module RoundProperties {
  import opened Wrappers
  import opened Faults
  import opened Trace
  import opened HttpWorker
  import opened WorkerProperties

  /**
   * No request (lines 33-41): the branch ends the loop through `Terminated`
   * exactly when none of its calls throws, and then it has logged the INFO
   * entry, dispatched `TerminateWorker` once and sent nothing.
   */
  lemma TerminationRound(w: Worker, t: History)
    ensures var r := Terminate(w, t);
      r.trace.acquisitions == t.acquisitions && r.trace.requests == t.requests
      && (r.next == Stop(Terminated) <==> r.trace.raised == t.raised)
      && (r.next == Stop(Terminated) ==>
            r.trace.logEntries == t.logEntries + OnlyIf(w.logger.Some?, [TerminationEntry])
            && r.trace.events == t.events + OnlyIf(w.dispatcher.Some?, [TerminateWorker])
            && r.trace.attempts == t.attempts && r.trace.delivered == t.delivered)
  {
    var tried := TryTerminate(w, t);
    TryTerminateSpec(w, t);
    if tried.fault.Some? {
      RejectMalformedSpec(w, tried.trace, tried.fault.value);
      RejectMalformedStops(w, tried.trace, tried.fault.value);
    }
  }

  /**
   * A fault `f` of the INFO log or of the `TerminateWorker` dispatch (both inside
   * the outer try) is handled as a malformed request: the NOTICE entry about it
   * follows the INFO entry, no handler is called, at most a 400 is sent, and the
   * loop goes on exactly when that recovery makes no further fault, having
   * dispatched `BadRequest` of that fault last.
   */
  lemma TerminationFaultRound(w: Worker, t: History)
    ensures var r := Terminate(w, t);
      r.next != Stop(Terminated) ==>
        |r.trace.raised| > |t.raised| && r.trace.raised[..|t.raised|] == t.raised
        && var f := r.trace.raised[|t.raised|];
        r.trace.requests == t.requests
        && (r.trace.attempts == t.attempts || r.trace.attempts == t.attempts + [BadRequestResponse])
        && (w.logger.Some? ==>
              |r.trace.logEntries| > |t.logEntries| + 1
              && r.trace.logEntries[|t.logEntries|] == TerminationEntry
              && r.trace.logEntries[|t.logEntries| + 1] == EntryAbout(Notice, MalformedMessage, f))
        && (r.next == Continue <==> |r.trace.raised| == |t.raised| + 1)
        && (r.next == Continue ==> r.trace.delivered == t.delivered + [BadRequestResponse])
        && (r.next == Continue && w.dispatcher.Some? ==>
              |r.trace.events| > 0 && Last(r.trace.events) == BadRequest(f))
        && (r.next.Stop? ==>
              r.trace.delivered == t.delivered && (r.next.exit.BadRequestFatal? || r.next.exit.Escaped?))
  {
    var tried := TryTerminate(w, t);
    TryTerminateSpec(w, t);
    if tried.fault.Some? {
      var f := tried.fault.value;
      var u := tried.trace;
      RejectMalformedSpec(w, u, f);
      RejectMalformedStops(w, u, f);
      var r := RejectMalformed(w, u, f);
      assert u.raised == t.raised + [f];
      assert r.trace.raised[..|u.raised|] == u.raised;
      assert r.trace.raised[|t.raised|] == u.raised[|t.raised|] == f;
      assert r.trace.raised[..|t.raised|] == u.raised[..|t.raised|] == t.raised;
      if w.logger.Some? {
        assert u.logEntries == t.logEntries + [TerminationEntry];
        assert r.trace.logEntries[..|u.logEntries|] == u.logEntries;
        assert r.trace.logEntries[|t.logEntries|] == u.logEntries[|t.logEntries|];
      }
    }
  }

  /**
   * A request (lines 66-89): the handler is called at most once and at most
   * three faults occur.  With no fault the history grows by exactly
   * `PreDispatch(req)`, one handler call, `PostDispatch` of its response and the
   * delivery of that same response; with at most one fault the loop goes on.
   */
  lemma ServeRound(w: Worker, t: History, req: Request)
    ensures var r := Serve(w, t, req);
      r.trace.acquisitions == t.acquisitions
      && (r.trace.requests == t.requests || r.trace.requests == t.requests + [req])
      && |t.raised| <= |r.trace.raised| <= |t.raised| + 3 && r.trace.raised[..|t.raised|] == t.raised
      && (r.next == Continue <==> |r.trace.raised| <= |t.raised| + 1)
      && (r.trace.raised == t.raised ==>
            |r.trace.returned| > 0 && r.trace.calls == t.calls + HappyPath(w, req, Last(r.trace.returned)))
  {
    var tried := TryDispatch(w, t, req);
    TryDispatchSpec(w, t, req);
    TryDispatchHappy(w, t, req);
    if tried.fault.Some? {
      var f := tried.fault.value;
      var u := tried.trace;
      RecoverUnhandledSpec(w, u, f);
      RecoverUnhandledStops(w, u, f);
      var r := RecoverUnhandled(w, u, f);
      assert u.raised == t.raised + [f];
      assert r.trace.raised[..|u.raised|] == u.raised;
      assert r.trace.raised[..|t.raised|] == u.raised[..|t.raised|] == t.raised;
    }
  }

  /**
   * A request whose dispatch region throws `g` (from `PreDispatch`, the handler,
   * `PostDispatch` or respond): the first log entry after it is the ERROR about
   * `g`, and with no second fault the loop goes on having dispatched
   * `UnhandledException(g)` last and delivered one 500.
   */
  lemma ServeRecoveryRound(w: Worker, t: History, req: Request)
    ensures var r := Serve(w, t, req);
      |r.trace.raised| > |t.raised| ==>
        var g := r.trace.raised[|t.raised|];
        (w.logger.Some? ==>
            |r.trace.logEntries| > |t.logEntries|
            && r.trace.logEntries[|t.logEntries|] == EntryAbout(Error, UnhandledMessage, g))
        && (|r.trace.raised| == |t.raised| + 1 ==>
              r.next == Continue
              && r.trace.logEntries == t.logEntries + OnlyIf(w.logger.Some?, [EntryAbout(Error, UnhandledMessage, g)])
              && (w.dispatcher.Some? ==> |r.trace.events| > 0 && Last(r.trace.events) == UnhandledException(g))
              && |r.trace.attempts| > 0 && Last(r.trace.attempts) == InternalErrorResponse
              && r.trace.delivered == t.delivered + [InternalErrorResponse])
  {
    var tried := TryDispatch(w, t, req);
    TryDispatchSpec(w, t, req);
    if tried.fault.Some? {
      var g := tried.fault.value;
      var u := tried.trace;
      RecoverUnhandledSpec(w, u, g);
      RecoverUnhandledStops(w, u, g);
      var r := RecoverUnhandled(w, u, g);
      assert u.raised == t.raised + [g];
      assert r.trace.raised[..|u.raised|] == u.raised;
      assert r.trace.raised[|t.raised|] == u.raised[|t.raised|] == g;
    }
  }

  /**
   * A request whose dispatch region throws and whose recovery throws `h` as well:
   * nothing is delivered, the last log entry is the ERROR about `h`, and the loop
   * stops through the `break` of line 88, or, when that log throws too, `run` ends
   * with the logger's fault.
   */
  lemma ServeDoubleFaultRound(w: Worker, t: History, req: Request)
    ensures var r := Serve(w, t, req);
      |r.trace.raised| >= |t.raised| + 2 ==>
        var h := r.trace.raised[|t.raised| + 1];
        r.next.Stop? && r.trace.delivered == t.delivered
        && (r.next.exit == HandlerFatal(h) <==> |r.trace.raised| == |t.raised| + 2)
        && (r.next.exit.Escaped? <==> |r.trace.raised| == |t.raised| + 3)
        && (w.logger.Some? ==>
              |r.trace.logEntries| > 0 && Last(r.trace.logEntries) == EntryAbout(Error, InternalErrorFailure, h))
  {
    var tried := TryDispatch(w, t, req);
    TryDispatchSpec(w, t, req);
    if tried.fault.Some? {
      var g := tried.fault.value;
      var u := tried.trace;
      RecoverUnhandledSpec(w, u, g);
      RecoverUnhandledStops(w, u, g);
      var r := RecoverUnhandled(w, u, g);
      assert u.raised == t.raised + [g];
      if |r.trace.raised| >= |t.raised| + 2 {
        assert r.trace.raised[..|u.raised|] == u.raised;
        assert r.trace.raised[|t.raised| + 1] == r.trace.raised[|u.raised|];
      }
    }
  }

  /** Which `break` (or escaping fault) can end an iteration that acquired `a`. */
  predicate ExitFits(e: Exit, a: Acquire)
  {
    match e
    case Terminated => a == NoRequest
    case BadRequestFatal(_) => !a.Req?
    case HandlerFatal(_) => a.Req?
    case Escaped(_) => true
    case Exhausted => false
  }

  /** A fault leaves `run` only from the logger, as the outcome of the last call of the history. */
  predicate EscapedFromLog(w: Worker, h: History, f: Fault)
  {
    w.logger.Some? && |h.calls| > 0 && Last(h.calls).Logged? && Last(h.calls).fault == Some(f)
  }

  /**
   * What every iteration that acquired `a` after the history `t` does: one
   * acquisition, no handler call unless a request was acquired and then at most
   * one, exactly one more delivery when the loop goes on and none when it stops,
   * and a stop only through a `break` that fits `a` or a logger fault leaving `run`.
   */
  ghost predicate Accounts(w: Worker, r: Round, t: History, a: Acquire)
  {
    r.trace.acquisitions == t.acquisitions + [a]
    && (!a.Req? ==> r.trace.requests == t.requests)
    && |r.trace.requests| <= |t.requests| + 1
    && (r.next == Continue ==>
          |r.trace.delivered| == |t.delivered| + 1 && r.trace.delivered[..|t.delivered|] == t.delivered)
    && (r.next.Stop? ==> r.trace.delivered == t.delivered && ExitFits(r.next.exit, a))
    && (r.next.Stop? && r.next.exit.Escaped? ==> EscapedFromLog(w, r.trace, r.next.exit.fault))
  }

  lemma TerminateAccounts(w: Worker, t: History)
    ensures var r := Terminate(w, t);
      r.trace.acquisitions == t.acquisitions && r.trace.requests == t.requests
      && (r.next == Continue ==> r.trace.delivered == t.delivered + [BadRequestResponse])
      && (r.next.Stop? ==> r.trace.delivered == t.delivered && !r.next.exit.HandlerFatal? && r.next.exit != Exhausted)
      && (r.next.Stop? && r.next.exit.Escaped? ==> EscapedFromLog(w, r.trace, r.next.exit.fault))
  {
    var tried := TryTerminate(w, t);
    TryTerminateSpec(w, t);
    if tried.fault.Some? {
      RejectMalformedSpec(w, tried.trace, tried.fault.value);
      RejectMalformedStops(w, tried.trace, tried.fault.value);
    }
  }

  lemma RejectAccounts(w: Worker, t: History, f: Fault)
    ensures var r := RejectMalformed(w, t, f);
      r.trace.acquisitions == t.acquisitions && r.trace.requests == t.requests
      && (r.next == Continue ==> r.trace.delivered == t.delivered + [BadRequestResponse])
      && (r.next.Stop? ==> r.trace.delivered == t.delivered && (r.next.exit.BadRequestFatal? || r.next.exit.Escaped?))
      && (r.next.Stop? && r.next.exit.Escaped? ==> EscapedFromLog(w, r.trace, r.next.exit.fault))
  {
    RejectMalformedSpec(w, t, f);
    RejectMalformedStops(w, t, f);
  }

  lemma ServeAccounts(w: Worker, t: History, req: Request)
    ensures var r := Serve(w, t, req);
      r.trace.acquisitions == t.acquisitions && |r.trace.requests| <= |t.requests| + 1
      && (r.next == Continue ==>
            |r.trace.delivered| == |t.delivered| + 1 && r.trace.delivered[..|t.delivered|] == t.delivered)
      && (r.next.Stop? ==> r.trace.delivered == t.delivered && (r.next.exit.HandlerFatal? || r.next.exit.Escaped?))
      && (r.next.Stop? && r.next.exit.Escaped? ==> EscapedFromLog(w, r.trace, r.next.exit.fault))
  {
    var tried := TryDispatch(w, t, req);
    TryDispatchSpec(w, t, req);
    if tried.fault.Some? {
      RecoverUnhandledSpec(w, tried.trace, tried.fault.value);
      RecoverUnhandledStops(w, tried.trace, tried.fault.value);
    } else {
      assert tried.trace.delivered[..|t.delivered|] == t.delivered;
    }
  }

  /** Every iteration keeps the accounts of `Accounts`. */
  lemma IterationSpec(w: Worker, t: History, a: Acquire)
    ensures Accounts(w, Iteration(w, t, a), t, a)
  {
    var t0 := Record(t, Acquired(a));
    match a {
      case NoRequest => TerminateAccounts(w, t0);
      case AcquireFault(f) => RejectAccounts(w, t0, f);
      case Req(req) => ServeAccounts(w, t0, req);
    }
  }

  /** The collaborators never throw and the handler always returns a response. */
  ghost predicate Reliable(w: Worker)
  {
    (forall h, req :: w.handler(h, req).Handled?)
    && (forall h, resp :: w.respond(h, resp).None?)
    && (w.logger.Some? ==> forall h, e :: w.logger.value(h, e).None?)
    && (w.dispatcher.Some? ==> forall h, e :: w.dispatcher.value(h, e).None?)
  }

  /** `PreDispatch(reqs[i])` then `PostDispatch(resps[i])`, for each `i` in order. */
  function DispatchEvents(reqs: seq<Request>, resps: seq<Response>): seq<Event>
    requires |reqs| == |resps|
  {
    if reqs == [] then [] else [PreDispatch(reqs[0]), PostDispatch(resps[0])] + DispatchEvents(reqs[1..], resps[1..])
  }

  lemma {:induction false} DispatchEventsSnoc(reqs: seq<Request>, resps: seq<Response>, req: Request, resp: Response)
    requires |reqs| == |resps|
    ensures DispatchEvents(reqs + [req], resps + [resp]) == DispatchEvents(reqs, resps) + [PreDispatch(req), PostDispatch(resp)]
  {
    if reqs == [] {
      assert reqs + [req] == [req] && resps + [resp] == [resp];
    } else {
      assert (reqs + [req])[1..] == reqs[1..] + [req];
      assert (resps + [resp])[1..] == resps[1..] + [resp];
      DispatchEventsSnoc(reqs[1..], resps[1..], req, resp);
    }
  }

  /**
   * What a reliable run keeps: every response returned by the handler was
   * delivered, in order, one per request, and (when `dispatched`) the dispatcher
   * has seen each request's `PreDispatch` and `PostDispatch` pair in that order.
   */
  ghost predicate ServedInOrder(h: History, dispatched: bool)
  {
    h.delivered == h.returned && |h.requests| == |h.returned|
    && h.events == OnlyIf(dispatched, DispatchEvents(h.requests, h.returned))
  }

  /** With reliable collaborators lines 66-70 run to the end without a fault. */
  lemma ReliableDispatch(w: Worker, t: History, req: Request)
    requires Reliable(w)
    ensures var s := TryDispatch(w, t, req);
      s.fault.None? && |s.trace.returned| > 0
      && s.trace.requests == t.requests + [req]
      && s.trace.events == t.events
           + OnlyIf(w.dispatcher.Some?, [PreDispatch(req), PostDispatch(Last(s.trace.returned))])
  {
    var pre := Emit(w, t, PreDispatch(req));
    var outcome := w.handler(pre.trace.calls, req);
    var t1 := Record(pre.trace, Invoked(req, outcome));
    var post := Emit(w, t1, PostDispatch(outcome.response));
  }

  /**
   * What a reliable iteration over the request `req` does to the history `t`:
   * the loop goes on, the handler is called once with `req` and its response is
   * delivered, the dispatcher (when `dispatched`) sees `PreDispatch(req)` and
   * `PostDispatch` of that response, and nothing is logged or thrown.
   */
  ghost predicate ServesReliably(r: Round, t: History, req: Request, dispatched: bool)
  {
    r.next == Continue && |r.trace.returned| > 0
    && var resp := Last(r.trace.returned);
    r.trace.requests == t.requests + [req] && r.trace.returned == t.returned + [resp]
    && r.trace.delivered == t.delivered + [resp]
    && r.trace.events == t.events + OnlyIf(dispatched, [PreDispatch(req), PostDispatch(resp)])
    && r.trace.raised == t.raised && r.trace.logEntries == t.logEntries
  }

  /** With reliable collaborators a request is served along the happy path and the loop goes on. */
  lemma ReliableIteration(w: Worker, t: History, req: Request)
    requires Reliable(w)
    ensures ServesReliably(Iteration(w, t, Req(req)), t, req, w.dispatcher.Some?)
  {
    var t0 := Record(t, Acquired(Req(req)));
    TryDispatchSpec(w, t0, req);
    ReliableDispatch(w, t0, req);
  }
}
