/**
 * What whole runs of `HttpWorker::run` over a finite script of acquisitions
 * do.  The facts are first proved for a `Loop` over any body that keeps the
 * per-iteration facts, then for the worker's own iteration.
 */
module RunProperties {
  import opened Wrappers
  import opened Trace
  import opened HttpWorker
  import opened WorkerProperties
  import opened RoundProperties

  /** What a run after `t` that made `k` acquisitions of `script` and ended in `o` has done. */
  ghost predicate RunAccounts(w: Worker, o: Outcome, t: History, script: seq<Acquire>)
  {
    var k := |o.trace.acquisitions| - |t.acquisitions|;
    0 <= k <= |script|
    && o.trace.acquisitions == t.acquisitions + script[..k]
    && (o.exit == Exhausted ==> k == |script| && |o.trace.delivered| == |t.delivered| + k)
    && (o.exit != Exhausted ==>
          0 < k && |o.trace.delivered| == |t.delivered| + k - 1 && ExitFits(o.exit, script[k - 1]))
    && (o.exit.Escaped? ==> EscapedFromLog(w, o.trace, o.exit.fault))
  }

  lemma {:induction false} LoopAccounts(w: Worker, body: (History, Acquire) -> Round, t: History, script: seq<Acquire>)
    requires forall h, a :: Accounts(w, body(h, a), h, a)
    ensures RunAccounts(w, Loop(body, t, script), t, script)
    decreases |script|
  {
    if script != [] {
      var r := body(t, script[0]);
      assert Accounts(w, r, t, script[0]);
      if r.next == Continue {
        LoopAccounts(w, body, r.trace, script[1..]);
        var o := Loop(body, r.trace, script[1..]);
        assert Loop(body, t, script) == o;
        var k := |o.trace.acquisitions| - |t.acquisitions|;
        assert script[..k] == [script[0]] + script[1..][..k - 1];
        if o.exit != Exhausted {
          assert script[k - 1] == script[1..][k - 2];
        }
      } else {
        assert script[..1] == [script[0]];
      }
    }
  }

  /**
   * A run over a finite script performs one acquisition per iteration, in
   * script order, and none after the iteration that stops it.  Each iteration
   * but a stopping one delivers exactly one response; the loop ends only when
   * the script runs out, through a `break` that fits the last acquisition, or
   * with a fault of the logger's last call.
   */
  lemma RunAccounting(w: Worker, t: History, script: seq<Acquire>)
    ensures var o := RunFrom(w, t, script);
      var k := |o.trace.acquisitions| - |t.acquisitions|;
      0 <= k <= |script|
      && o.trace.acquisitions == t.acquisitions + script[..k]
      && (o.exit == Exhausted ==> k == |script| && |o.trace.delivered| == |t.delivered| + k)
      && (o.exit != Exhausted ==>
            0 < k && |o.trace.delivered| == |t.delivered| + k - 1 && ExitFits(o.exit, script[k - 1]))
      && (o.exit.Escaped? ==> EscapedFromLog(w, o.trace, o.exit.fault))
  {
    var body := (h, a) => Iteration(w, h, a);
    forall h, a ensures Accounts(w, body(h, a), h, a) {
      IterationSpec(w, h, a);
    }
    LoopAccounts(w, body, t, script);
  }

  /** The requests of a script made only of requests. */
  function RequestsOf(script: seq<Acquire>): (reqs: seq<Request>)
    requires forall i :: 0 <= i < |script| ==> script[i].Req?
    ensures |reqs| == |script|
  {
    if script == [] then [] else [script[0].request] + RequestsOf(script[1..])
  }

  /** What a run after `t` over a script of requests only, served reliably, has done. */
  ghost predicate ServesAll(o: Outcome, t: History, script: seq<Acquire>, dispatched: bool)
    requires forall i :: 0 <= i < |script| ==> script[i].Req?
  {
    o.exit == Exhausted && ServedInOrder(o.trace, dispatched)
    && o.trace.requests == t.requests + RequestsOf(script)
    && |o.trace.delivered| == |t.delivered| + |script|
    && o.trace.raised == t.raised && o.trace.logEntries == t.logEntries
  }

  lemma {:induction false} LoopServes(body: (History, Acquire) -> Round, t: History, script: seq<Acquire>, dispatched: bool)
    requires forall h, req :: ServesReliably(body(h, Req(req)), h, req, dispatched)
    requires forall i :: 0 <= i < |script| ==> script[i].Req?
    requires ServedInOrder(t, dispatched)
    ensures ServesAll(Loop(body, t, script), t, script, dispatched)
    decreases |script|
  {
    if script != [] {
      var req := script[0].request;
      assert script[0] == Req(req);
      var r := body(t, Req(req));
      assert ServesReliably(r, t, req, dispatched);
      DispatchEventsSnoc(t.requests, t.returned, req, Last(r.trace.returned));
      assert Loop(body, t, script) == Loop(body, r.trace, script[1..]);
      LoopServes(body, r.trace, script[1..], dispatched);
      assert RequestsOf(script) == [req] + RequestsOf(script[1..]);
    }
  }

  /**
   * N requests with reliable collaborators: the script is used up, the handler
   * sees exactly those requests in order, the responses delivered are exactly
   * those it returned, nothing is logged or thrown, and `PreDispatch` and
   * `PostDispatch` fire once per request, in that order.
   */
  lemma ReliableRun(w: Worker, t: History, script: seq<Acquire>)
    requires Reliable(w)
    requires forall i :: 0 <= i < |script| ==> script[i].Req?
    requires ServedInOrder(t, w.dispatcher.Some?)
    ensures var o := RunFrom(w, t, script);
      o.exit == Exhausted
      && o.trace.requests == t.requests + RequestsOf(script)
      && o.trace.delivered == o.trace.returned && |o.trace.delivered| == |t.delivered| + |script|
      && o.trace.raised == t.raised && o.trace.logEntries == t.logEntries
      && o.trace.events == OnlyIf(w.dispatcher.Some?, DispatchEvents(o.trace.requests, o.trace.returned))
  {
    var body := (h, a) => Iteration(w, h, a);
    forall h, req
      ensures ServesReliably(body(h, Req(req)), h, req, w.dispatcher.Some?)
    {
      ReliableIteration(w, h, req);
    }
    LoopServes(body, t, script, w.dispatcher.Some?);
  }

  /** `Run` from the start: every request of an all-request script served in order. */
  lemma ReliableRunFromStart(w: Worker, script: seq<Acquire>)
    requires Reliable(w)
    requires forall i :: 0 <= i < |script| ==> script[i].Req?
    ensures var o := RunFrom(w, Empty, script);
      o.exit == Exhausted && o.trace.requests == RequestsOf(script)
      && o.trace.delivered == o.trace.returned && |o.trace.delivered| == |script|
      && o.trace.raised == [] && o.trace.logEntries == []
      && o.trace.events == OnlyIf(w.dispatcher.Some?, DispatchEvents(o.trace.requests, o.trace.returned))
  {
    assert ServedInOrder(Empty, w.dispatcher.Some?);
    ReliableRun(w, Empty, script);
  }
}
