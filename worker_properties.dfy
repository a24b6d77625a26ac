/**
 * What each try block and each catch of `HttpWorker::run` does, stated over
 * the projections of the trace: which calls were made, with which
 * arguments, and which of them threw.
 */
module WorkerProperties {
  import opened Wrappers
  import opened Faults
  import opened Trace
  import opened HttpWorker

  function Last<T>(s: seq<T>): T
    requires |s| > 0
  {
    s[|s| - 1]
  }

  /** The entry `log` passes for `msg` at `level` about the fault `f`. */
  function EntryAbout(level: Level, msg: string, f: Fault): LogEntry
  {
    LogEntry(level, msg, Context(Some(f)))
  }

  /** The INFO entry of line 36; it has an empty context. */
  const TerminationEntry := LogEntry(Info, TerminationMessage, map[])

  /** The calls of a fault-free dispatch, in order; `resp` is the handler's response. */
  function HappyPath(w: Worker, req: Request, resp: Response): seq<Obs>
  {
    OnlyIf(w.dispatcher.Some?, [Dispatched(PreDispatch(req), None)])
    + [Invoked(req, Handled(resp))]
    + OnlyIf(w.dispatcher.Some?, [Dispatched(PostDispatch(resp), None)])
    + [Responded(resp, None)]
  }

  /** `log` with a null logger does nothing; otherwise it makes one logger call with that level, message and context. */
  lemma LogForwarding(w: Worker, t: History, level: Level, msg: string, throwable: Option<Fault>)
    ensures var s := Log(w, t, level, msg, throwable); var calls := s.trace.calls;
      (w.logger.None? ==> s == Step(t, None))
      && (w.logger.Some? ==>
            |calls| == |t.calls| + 1 && calls[..|t.calls|] == t.calls && Last(calls).Logged?
            && Last(calls).fault == s.fault
            && Last(calls).entry.level == level && Last(calls).entry.message == msg
            && Last(calls).entry.context.Keys <= {"throwable"}
            && ("throwable" in Last(calls).entry.context <==> throwable.Some?)
            && (throwable.Some? ==>
                  Last(calls).entry.context["throwable"] == ThrowableToArray(throwable.value, DefaultLevels)))
  {
  }

  /** The two inner catches: one ERROR entry about `g`, no respond, and a stop; a fault of that log escapes. */
  lemma GiveUpSpec(w: Worker, t: History, msg: string, g: Fault, fatal: Exit)
    requires fatal.BadRequestFatal? || fatal.HandlerFatal?
    ensures var r := GiveUp(w, t, msg, g, fatal);
      r.next.Stop?
      && r.trace.logEntries == t.logEntries + OnlyIf(w.logger.Some?, [EntryAbout(Error, msg, g)])
      && r.trace.acquisitions == t.acquisitions && r.trace.events == t.events
      && r.trace.requests == t.requests && r.trace.returned == t.returned
      && r.trace.attempts == t.attempts && r.trace.delivered == t.delivered
      && (r.next.exit == fatal <==> r.trace.raised == t.raised)
      && (r.next.exit != fatal ==>
            r.next.exit.Escaped? && r.trace.raised == t.raised + [r.next.exit.fault]
            && w.logger.Some? && |r.trace.calls| > 0
            && Last(r.trace.calls) == Logged(EntryAbout(Error, msg, g), Some(r.next.exit.fault)))
  {
  }

  /**
   * Lines 36-40: first the INFO entry, with an empty context; if that log throws,
   * nothing else happens; otherwise `TerminateWorker` is dispatched.  Nothing is
   * sent and no handler is called, and the block's fault is its last call's.
   */
  lemma TryTerminateSpec(w: Worker, t: History)
    ensures var s := TryTerminate(w, t); var calls := s.trace.calls; var n := |t.calls|;
      s.trace.acquisitions == t.acquisitions && s.trace.requests == t.requests
      && s.trace.returned == t.returned && s.trace.attempts == t.attempts && s.trace.delivered == t.delivered
      && s.trace.logEntries == t.logEntries + OnlyIf(w.logger.Some?, [TerminationEntry])
      && (s.trace.events == t.events || s.trace.events == t.events + [TerminateWorker])
      && (s.fault.None? ==> s.trace.events == t.events + OnlyIf(w.dispatcher.Some?, [TerminateWorker]))
      && s.trace.raised == t.raised + OptionToSeq(s.fault)
      && (w.logger.Some? ==>
            |calls| > n && calls[n].Logged? && calls[n].entry == TerminationEntry
            && (calls[n].fault.Some? ==>
                  calls == t.calls + [calls[n]] && s.fault == calls[n].fault && s.trace.events == t.events))
      && (w.logger.None? || calls[n].fault.None? ==>
            calls == t.calls + OnlyIf(w.logger.Some?, [Logged(TerminationEntry, None)])
                     + OnlyIf(w.dispatcher.Some?, [Dispatched(TerminateWorker, s.fault)])
            && (w.dispatcher.None? ==> s.fault.None?))
  {
    var logged := Log(w, t, Info, TerminationMessage, None);
    assert Context(None) == map[];
    if logged.fault.None? {
    }
  }

  /**
   * Lines 50-54: `BadRequest(f)` is dispatched first; if that throws, nothing
   * else happens; otherwise the 400 is sent.  The 400 is attempted exactly when
   * the dispatch did not throw, and delivered exactly when the block throws nothing.
   */
  lemma TryBadRequestSpec(w: Worker, t: History, f: Fault)
    ensures var s := TryBadRequest(w, t, f); var calls := s.trace.calls; var n := |t.calls|;
      s.trace.acquisitions == t.acquisitions && s.trace.requests == t.requests
      && s.trace.returned == t.returned && s.trace.logEntries == t.logEntries
      && s.trace.events == t.events + OnlyIf(w.dispatcher.Some?, [BadRequest(f)])
      && (s.trace.attempts == t.attempts || s.trace.attempts == t.attempts + [BadRequestResponse])
      && (s.fault.None? ==>
            s.trace.attempts == t.attempts + [BadRequestResponse]
            && s.trace.delivered == t.delivered + [BadRequestResponse])
      && (s.fault.Some? ==> s.trace.delivered == t.delivered)
      && s.trace.raised == t.raised + OptionToSeq(s.fault)
      && (w.dispatcher.Some? ==>
            |calls| > n && calls[n].Dispatched? && calls[n].event == BadRequest(f)
            && (calls[n].fault.Some? ==>
                  calls == t.calls + [calls[n]] && s.fault == calls[n].fault && s.trace.attempts == t.attempts))
      && (w.dispatcher.None? || calls[n].fault.None? ==>
            calls == t.calls + OnlyIf(w.dispatcher.Some?, [Dispatched(BadRequest(f), None)])
                     + [Responded(BadRequestResponse, s.fault)]
            && s.trace.attempts == t.attempts + [BadRequestResponse])
  {
    var emitted := Emit(w, t, BadRequest(f));
    if emitted.fault.None? {
    }
  }

  /** Lines 66-70: at most one handler call, no log entry, and nothing delivered when a fault ends the block. */
  lemma TryDispatchSpec(w: Worker, t: History, req: Request)
    ensures var s := TryDispatch(w, t, req);
      s.trace.acquisitions == t.acquisitions && s.trace.logEntries == t.logEntries
      && (s.trace.requests == t.requests || s.trace.requests == t.requests + [req])
      && s.trace.raised == t.raised + OptionToSeq(s.fault)
      && (s.fault.Some? ==> s.trace.delivered == t.delivered)
      && (s.fault.None? ==>
            |s.trace.returned| == |t.returned| + 1
            && s.trace.returned == t.returned + [Last(s.trace.returned)]
            && s.trace.delivered == t.delivered + [Last(s.trace.returned)])
  {
    var pre := Emit(w, t, PreDispatch(req));
    if pre.fault.None? {
      var outcome := w.handler(pre.trace.calls, req);
      var t1 := Record(pre.trace, Invoked(req, outcome));
      if outcome.Handled? {
        var post := Emit(w, t1, PostDispatch(outcome.response));
        if post.fault.None? {
        }
      }
    }
  }

  /**
   * Lines 66-70 without a fault: `PreDispatch(req)`, the handler, `PostDispatch`
   * of the response it returned, and `respond` of that same response, in that order.
   */
  lemma TryDispatchHappy(w: Worker, t: History, req: Request)
    ensures var s := TryDispatch(w, t, req);
      s.fault.None? ==>
        |s.trace.returned| > 0 && s.trace.calls == t.calls + HappyPath(w, req, Last(s.trace.returned))
  {
    var pre := Emit(w, t, PreDispatch(req));
    if pre.fault.None? {
      var outcome := w.handler(pre.trace.calls, req);
      var t1 := Record(pre.trace, Invoked(req, outcome));
      if outcome.Handled? {
        var resp := outcome.response;
        var post := Emit(w, t1, PostDispatch(resp));
        if post.fault.None? {
          var sent := Send(w, post.trace, resp);
          if sent.fault.None? {
            var a := OnlyIf(w.dispatcher.Some?, [Dispatched(PreDispatch(req), None)]);
            var b := OnlyIf(w.dispatcher.Some?, [Dispatched(PostDispatch(resp), None)]);
            assert pre.trace.calls == t.calls + a;
            assert post.trace.calls == t1.calls + b;
            assert sent.trace.calls == t.calls + (a + [Invoked(req, outcome)] + b + [Responded(resp, None)]);
            assert Last(sent.trace.returned) == resp;
          }
        }
      }
    }
  }

  /**
   * Lines 72-81: the ERROR entry about `f` first, then `UnhandledException(f)`,
   * then the 500; the first call that throws ends the block, and no later step
   * is taken.
   */
  lemma TryRecoverSpec(w: Worker, t: History, f: Fault)
    ensures var s := TryRecover(w, t, f); var calls := s.trace.calls; var n := |t.calls|;
      var entry := EntryAbout(Error, UnhandledMessage, f);
      var m := n + |OnlyIf(w.logger.Some?, [entry])|;
      s.trace.acquisitions == t.acquisitions && s.trace.requests == t.requests && s.trace.returned == t.returned
      && s.trace.logEntries == t.logEntries + OnlyIf(w.logger.Some?, [entry])
      && (s.trace.events == t.events || s.trace.events == t.events + [UnhandledException(f)])
      && (s.trace.attempts == t.attempts || s.trace.attempts == t.attempts + [InternalErrorResponse])
      && s.trace.raised == t.raised + OptionToSeq(s.fault)
      && (s.fault.Some? ==> s.trace.delivered == t.delivered)
      && (s.fault.None? ==>
            s.trace.events == t.events + OnlyIf(w.dispatcher.Some?, [UnhandledException(f)])
            && s.trace.attempts == t.attempts + [InternalErrorResponse]
            && s.trace.delivered == t.delivered + [InternalErrorResponse])
      && (w.logger.Some? ==>
            |calls| > n && calls[n].Logged? && calls[n].entry == entry
            && (calls[n].fault.Some? ==>
                  calls == t.calls + [calls[n]] && s.fault == calls[n].fault
                  && s.trace.events == t.events && s.trace.attempts == t.attempts))
      && (w.logger.None? || calls[n].fault.None? ==>
            |calls| >= m && calls[..m] == t.calls + OnlyIf(w.logger.Some?, [Logged(entry, None)])
            && (w.dispatcher.Some? ==>
                  |calls| > m && calls[m].Dispatched? && calls[m].event == UnhandledException(f)
                  && (calls[m].fault.Some? ==>
                        calls == calls[..m + 1] && s.fault == calls[m].fault && s.trace.attempts == t.attempts))
            && (w.dispatcher.None? || calls[m].fault.None? ==>
                  calls == calls[..m] + OnlyIf(w.dispatcher.Some?, [Dispatched(UnhandledException(f), None)])
                           + [Responded(InternalErrorResponse, s.fault)]))
  {
    var logged := Log(w, t, Error, UnhandledMessage, Some(f));
    if logged.fault.None? {
      var emitted := Emit(w, logged.trace, UnhandledException(f));
      if emitted.fault.None? {
      }
    }
  }

  /**
   * The outer catch (lines 44-63), reached with the fault `f`: it never calls the
   * handler, logs NOTICE about `f` before anything else, dispatches nothing but
   * `BadRequest(f)`, sends nothing but one 400, and goes on exactly when none of
   * its own calls throws.
   */
  lemma RejectMalformedSpec(w: Worker, t: History, f: Fault)
    ensures var r := RejectMalformed(w, t, f);
      r.trace.acquisitions == t.acquisitions
      && r.trace.requests == t.requests && r.trace.returned == t.returned
      && (r.trace.attempts == t.attempts || r.trace.attempts == t.attempts + [BadRequestResponse])
      && (r.trace.events == t.events || r.trace.events == t.events + [BadRequest(f)])
      && t.logEntries <= r.trace.logEntries
      && (w.logger.Some? ==>
            |r.trace.logEntries| > |t.logEntries|
            && r.trace.logEntries[|t.logEntries|] == EntryAbout(Notice, MalformedMessage, f))
      && (r.next == Continue <==> r.trace.raised == t.raised)
      && (r.next == Continue ==>
            r.trace.logEntries == t.logEntries + OnlyIf(w.logger.Some?, [EntryAbout(Notice, MalformedMessage, f)])
            && r.trace.events == t.events + OnlyIf(w.dispatcher.Some?, [BadRequest(f)])
            && r.trace.delivered == t.delivered + [BadRequestResponse])
  {
    var notice := Log(w, t, Notice, MalformedMessage, Some(f));
    if notice.fault.None? {
      var tried := TryBadRequest(w, notice.trace, f);
      TryBadRequestSpec(w, notice.trace, f);
      if tried.fault.Some? {
        GiveUpSpec(w, tried.trace, BadRequestFailure, tried.fault.value, BadRequestFatal(tried.fault.value));
      }
    }
  }

  /**
   * When the outer catch stops the loop, nothing was delivered.  A fault of the
   * `BadRequest` dispatch or of the 400 is logged at ERROR and ends the loop
   * through the `break` of line 61; a fault of a log call ends `run` instead.
   */
  lemma RejectMalformedStops(w: Worker, t: History, f: Fault)
    ensures var r := RejectMalformed(w, t, f);
      (r.next.Stop? ==>
            r.trace.delivered == t.delivered && (r.next.exit.BadRequestFatal? || r.next.exit.Escaped?)
            && |t.raised| < |r.trace.raised| <= |t.raised| + 2 && r.trace.raised[..|t.raised|] == t.raised)
      && (r.next.Stop? && r.next.exit.BadRequestFatal? ==>
            r.trace.raised == t.raised + [r.next.exit.fault]
            && r.trace.events == t.events + OnlyIf(w.dispatcher.Some?, [BadRequest(f)])
            && r.trace.logEntries == t.logEntries + OnlyIf(w.logger.Some?, [EntryAbout(Notice, MalformedMessage, f)])
                 + OnlyIf(w.logger.Some?, [EntryAbout(Error, BadRequestFailure, r.next.exit.fault)]))
      && (r.next.Stop? && r.next.exit.Escaped? ==>
            w.logger.Some? && Last(r.trace.raised) == r.next.exit.fault
            && |r.trace.calls| > 0 && Last(r.trace.calls).Logged? && Last(r.trace.calls).fault == Some(r.next.exit.fault))
  {
    var notice := Log(w, t, Notice, MalformedMessage, Some(f));
    if notice.fault.None? {
      var tried := TryBadRequest(w, notice.trace, f);
      TryBadRequestSpec(w, notice.trace, f);
      if tried.fault.Some? {
        GiveUpSpec(w, tried.trace, BadRequestFailure, tried.fault.value, BadRequestFatal(tried.fault.value));
      }
    }
  }

  /**
   * The catch of lines 71-89, reached with the fault `f`: no handler call, the
   * ERROR entry about `f` first, nothing dispatched but `UnhandledException(f)`,
   * nothing sent but one 500; it goes on exactly when none of its calls throws.
   */
  lemma RecoverUnhandledSpec(w: Worker, t: History, f: Fault)
    ensures var r := RecoverUnhandled(w, t, f);
      r.trace.acquisitions == t.acquisitions
      && r.trace.requests == t.requests && r.trace.returned == t.returned
      && (r.trace.attempts == t.attempts || r.trace.attempts == t.attempts + [InternalErrorResponse])
      && (r.trace.events == t.events || r.trace.events == t.events + [UnhandledException(f)])
      && t.logEntries <= r.trace.logEntries
      && (w.logger.Some? ==>
            |r.trace.logEntries| > |t.logEntries|
            && r.trace.logEntries[|t.logEntries|] == EntryAbout(Error, UnhandledMessage, f))
      && (r.next == Continue <==> r.trace.raised == t.raised)
      && (r.next == Continue ==>
            r.trace.logEntries == t.logEntries + OnlyIf(w.logger.Some?, [EntryAbout(Error, UnhandledMessage, f)])
            && r.trace.events == t.events + OnlyIf(w.dispatcher.Some?, [UnhandledException(f)])
            && r.trace.delivered == t.delivered + [InternalErrorResponse])
  {
    var tried := TryRecover(w, t, f);
    TryRecoverSpec(w, t, f);
    if tried.fault.Some? {
      GiveUpSpec(w, tried.trace, InternalErrorFailure, tried.fault.value, HandlerFatal(tried.fault.value));
    }
  }

  /**
   * When the catch of lines 71-89 stops the loop, nothing was delivered: the
   * second fault `g` is logged at ERROR and ends the loop through the `break` of
   * line 88, unless that last log throws and the fault leaves `run`.
   */
  lemma RecoverUnhandledStops(w: Worker, t: History, f: Fault)
    ensures var r := RecoverUnhandled(w, t, f);
      (r.next.Stop? ==>
            r.trace.delivered == t.delivered && (r.next.exit.HandlerFatal? || r.next.exit.Escaped?)
            && |t.raised| < |r.trace.raised| <= |t.raised| + 2 && r.trace.raised[..|t.raised|] == t.raised
            && (w.logger.Some? ==>
                  |r.trace.logEntries| > 0
                  && Last(r.trace.logEntries) == EntryAbout(Error, InternalErrorFailure, r.trace.raised[|t.raised|])))
      && (r.next.Stop? && r.next.exit.HandlerFatal? ==>
            r.trace.raised == t.raised + [r.next.exit.fault])
      && (r.next.Stop? && r.next.exit.Escaped? ==>
            w.logger.Some? && |r.trace.raised| == |t.raised| + 2 && Last(r.trace.raised) == r.next.exit.fault
            && |r.trace.calls| > 0 && Last(r.trace.calls).Logged? && Last(r.trace.calls).fault == Some(r.next.exit.fault))
  {
    var tried := TryRecover(w, t, f);
    TryRecoverSpec(w, t, f);
    if tried.fault.Some? {
      GiveUpSpec(w, tried.trace, InternalErrorFailure, tried.fault.value, HandlerFatal(tried.fault.value));
    }
  }
}
