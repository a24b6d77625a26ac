# HttpWorker dispatch loop — a Dafny model

This project models the core of a RoadRunner HTTP worker written in PHP: the
class `Sicet7\Server\HttpWorker` in `src/HttpWorker.php`. It covers three methods:

- `run` is a `do { … } while (true)` loop. Each pass asks the transport for a
  request with `waitRequest()`. A non-request means termination. A throw is
  handled as a malformed request and answered with 400. A request goes to the
  application handler between `PreDispatch` and `PostDispatch` events, and a
  fault anywhere in that region is answered with 500. A fault while delivering
  either fallback response is logged and ends the loop.
- `log` forwards a level, a message and an optional throwable to the optional
  PSR-3 logger.
- `throwableToArray` describes a throwable and, three levels deep by default,
  its chain of previous throwables.

Files:

- `wrappers.dfy`: `Option`, plus two small sequence helpers.
- `faults.dfy`: the `Fault` datatype, shaped like a PHP throwable with its
  `previous` cause. `ThrowableToArray` models `throwableToArray`
  (src/HttpWorker.php:118-131), and its depth lemmas follow it.
- `trace.dfy`: requests, responses, events, log entries and the three outcomes
  of `waitRequest()`.
  - Every collaborator call the loop makes is an `Obs`.
  - A `History` holds all calls in order. Next to them it keeps, per kind of
    call, the ones the loop made so far: acquisitions, log entries, events,
    handler requests and returns, respond attempts and deliveries, and faults
    raised.
  - `Record` appends one call.
- `http_worker.dfy`: the worker and the loop.
  - Collaborators are functions of the calls so far and of their argument, so
    each call may succeed or throw independently: handler, `respond`, optional
    logger, optional event dispatcher (the constructor, lines 20-26).
  - `Log` and `Context` model `log` (lines 101-111). `Emit` is a nullsafe
    `dispatch` call and `Send` a `respond` call.
  - One function per try block:
    - `TryTerminate`: lines 35-40.
    - `TryBadRequest`: lines 50-54.
    - `TryDispatch`: lines 66-70.
    - `TryRecover`: lines 72-81.
  - One function per catch:
    - `RejectMalformed`: lines 44-63.
    - `RecoverUnhandled`: lines 71-89.
    - `GiveUp`: lines 55-61 and 82-88.
  - One function per branch of an iteration:
    - `Terminate`: lines 33-64.
    - `Serve`: lines 66-90.
  - `Iteration` is one pass of the loop body (lines 32-91). `Loop` and
    `RunFrom` are the whole `do { … } while (true)` loop (lines 31-92).
  - `Run` is the imperative loop, with its `break`s and `continue`
    (lines 29-93). It is proved to produce exactly the history and exit of
    `RunFrom`.
- `worker_properties.dfy`: what each try block and each catch does.
- `round_properties.dfy`: what one iteration does for each outcome of
  `waitRequest()`, and the bookkeeping every iteration keeps.
- `run_properties.dfy`: whole runs over a finite script of acquisitions. It
  covers accounting of acquisitions and deliveries, and the fault-free run,
  where every request is served in order.
- `history_properties.dfy`: every history the loop builds is consistent. Each
  per-kind sequence equals that kind of call picked out of the call sequence.

How `run` ends (`Exit`):

- `Terminated`: the `break` of line 41.
- `BadRequestFatal`: the `break` of line 61.
- `HandlerFatal`: the `break` of line 88.
- `Escaped(f)`: a logger fault of line 45, 56 or 83 propagates out of `run`.
  None of those log calls is inside a `try`.
- `Exhausted`: the script of acquisitions ran out. This is the horizon of the
  model, where the real worker would block in `waitRequest()`.

Three behaviours of the code that are easy to miss:

- On termination, the INFO log (line 36) comes before the `TerminateWorker`
  dispatch (line 40). `WorkerProperties.TryTerminateSpec` states this order.
- `run` can throw. A logger fault from the NOTICE log of line 45, or from the
  ERROR logs of lines 56 and 83, leaves it. The model's exit for this is
  `Escaped`.
- The INFO log of line 36 and the `TerminateWorker` dispatch of line 40 are
  inside the outer `try`. A fault from either is handled like a malformed
  request: the loop logs NOTICE, dispatches `BadRequest`, sends a 400, and goes
  on to the next acquisition instead of ending. This is proved in
  `RoundProperties.TerminationFaultRound`.

## Model

| member | source | states |
|---|---|---|
| Faults.ThrowableToArrayChain | src/HttpWorker.php:118-131 | For any level counter, the nested records are the cause chain cut after `levels + 1` faults (after one if `levels <= 0`). So `previous` is present exactly when a cause exists and `levels > 0`. The record at each depth carries the message, code, file, line and trace of the fault at that depth. |
| Faults.DefaultDepth | src/HttpWorker.php:118 | With the default `levels = 3`, there are at most four nested records. There are exactly as many as the cause chain has faults, capped at four. |
| WorkerProperties.LogForwarding | src/HttpWorker.php:101-111 | Without a logger, `log` changes nothing. With one, it makes exactly one logger call with the given level and message. The context's only possible key is `throwable`, present exactly when a throwable is given, holding its three-level description. The fault of that call is the fault of `log`. |
| WorkerProperties.GiveUpSpec | src/HttpWorker.php:55-61 | An inner catch (lines 55-61, and identically lines 82-88) adds one ERROR entry about the second fault. It sends and dispatches nothing and always stops. The exit is the matching fatal `break` exactly when that log does not throw; otherwise the logger's fault escapes. |
| WorkerProperties.TryTerminateSpec | src/HttpWorker.php:35-40 | The first call is the INFO log, with an empty context. If it throws, no other call follows and nothing is dispatched. Otherwise the only further call is the `TerminateWorker` dispatch (when a dispatcher exists). Nothing is sent, no handler is called, and the block's fault is the fault of its last call. |
| WorkerProperties.TryBadRequestSpec | src/HttpWorker.php:50-54 | The first call is the `BadRequest` dispatch with the original fault (when a dispatcher exists). If it throws, no other call follows and no 400 is attempted. Otherwise the only further call is `respond` of the 400. The 400 is delivered exactly when neither the dispatch nor `respond` throws. |
| WorkerProperties.TryDispatchSpec | src/HttpWorker.php:66-70 | The handler is called at most once, with the acquired request. Nothing is logged. With no fault, exactly one response is delivered, and it is the one the handler returned. When the block throws, nothing is delivered. |
| WorkerProperties.TryDispatchHappy | src/HttpWorker.php:66-70 | With no fault, the calls are exactly `PreDispatch(request)`, the handler, `PostDispatch(response)` and `respond(response)`, in that order. The last three carry the same response the handler returned. |
| WorkerProperties.TryRecoverSpec | src/HttpWorker.php:72-81 | The calls are the ERROR log about the fault, then the `UnhandledException` dispatch with that same fault, then `respond` of the 500, up to and including the first call that throws. A throwing log means nothing is dispatched or sent, and a throwing dispatch means no 500 is attempted. Nothing is delivered when the block throws. |
| WorkerProperties.RejectMalformedSpec | src/HttpWorker.php:44-63 | The outer catch never calls the handler. Its first log entry is the NOTICE about the fault. It dispatches only `BadRequest` with that fault and sends only one 400. It continues (line 63) exactly when none of its calls throws; then it has logged, dispatched and delivered exactly those. |
| WorkerProperties.RejectMalformedStops | src/HttpWorker.php:55-61 | When the outer catch stops the loop, nothing was delivered, and one or two new faults were raised. On the `break`, the entries are the NOTICE then the ERROR about the second fault. On an escape, the last call is the logger call that threw. |
| WorkerProperties.RecoverUnhandledSpec | src/HttpWorker.php:71-89 | The handler-failure catch calls no handler. Its first entry is the ERROR about the fault. It dispatches only `UnhandledException` with that fault and sends only one 500. It continues exactly when none of its calls throws; then it has logged, dispatched and delivered exactly those. |
| WorkerProperties.RecoverUnhandledStops | src/HttpWorker.php:82-88 | When that catch stops the loop, nothing was delivered. The last entry is the ERROR about the second fault. The exit is the `break` of line 88 with that fault, or an escape of the logger fault raised by that last log. |
| RoundProperties.TerminationRound | src/HttpWorker.php:33-41 | A non-request ends the loop at the `break` of line 41 exactly when no call threw. It has then logged INFO, dispatched `TerminateWorker` once (when a dispatcher exists), sent nothing and called no handler. |
| RoundProperties.TerminationFaultRound | src/HttpWorker.php:35-64 | A fault of the INFO log or of the `TerminateWorker` dispatch takes the malformed-request path: the NOTICE about it follows the INFO entry, and at most a 400 is sent. The loop goes on exactly when that recovery raises nothing more. Then the 400 was delivered and the last event dispatched is `BadRequest` of that fault (when a dispatcher exists). |
| RoundProperties.ServeRound | src/HttpWorker.php:66-90 | A request makes at most one handler call and at most three faults. The loop goes on exactly when at most one fault happened. With no fault, the history grows by exactly the happy-path calls, and the handler's response is delivered. |
| RoundProperties.ServeRecoveryRound | src/HttpWorker.php:66-81 | Whether the first fault comes from `PreDispatch`, the handler, `PostDispatch` or `respond`, the next log entry is the ERROR about it. If nothing else throws, the loop goes on having dispatched `UnhandledException` with that fault last and delivered exactly one 500. |
| RoundProperties.ServeDoubleFaultRound | src/HttpWorker.php:72-88 | When recovery also throws, nothing is delivered for the request. The last entry is the ERROR about the second fault. The loop stops at the `break` of line 88 exactly when that log does not throw, and the logger's fault escapes exactly when it does. |
| RoundProperties.IterationSpec | src/HttpWorker.php:31-92 | Every iteration makes exactly one acquisition. It calls the handler at most once, and only for a request. It delivers exactly one response when the loop goes on and none when it stops. It stops only through a `break` that fits what was acquired, or through a logger fault escaping from the last call. |
| RoundProperties.ReliableIteration | src/HttpWorker.php:66-70 | If no collaborator throws, a request is served as follows. The loop goes on, the handler is called once with it and its response is delivered. `PreDispatch` and `PostDispatch` of that response are dispatched (when a dispatcher exists). Nothing is logged or raised. |
| RunProperties.RunAccounting | src/HttpWorker.php:29-93 | Over a finite script, the loop makes one acquisition per iteration, in script order, and none after the iteration that stops it. Every non-stopping iteration delivers exactly one response. The loop ends when the script runs out, at a `break` that fits the last acquisition, or with the logger's fault. |
| RunProperties.ReliableRun | src/HttpWorker.php:31-92 | If no collaborator throws, a script of requests is served completely. The handler sees exactly those requests, in order. The responses delivered are exactly those it returned. Nothing is logged or raised. `PreDispatch` and `PostDispatch` fire once per request, in order. |
| RunProperties.ReliableRunFromStart | src/HttpWorker.php:29-93 | The same for a run from the start: there is one delivered response per request, and it is the handler's response for that request. |
| HttpWorker.Run | src/HttpWorker.php:29-93 | The imperative loop, with its `break`s, `continue` and nested catches, produces exactly the history and the exit of the functional model `RunFrom`. |
| HistoryProperties.IterationConsistent | src/HttpWorker.php:31-92 | An iteration keeps the history consistent: each per-kind sequence is exactly that kind of call in the order the calls were made. |
| HistoryProperties.RunConsistent | src/HttpWorker.php:29-93 | Every history a run builds from the start is consistent. The log entries, events, handler calls, attempts, deliveries and faults used in the other properties are exactly the calls of those kinds, in call order. |

## Left out

- src/ServerPlugin.php, src/ContainerBuilder.php and src/WorkerParams.php are not part of this model. They only wire the container, the RoadRunner relay and the environment together, and have no effect on the loop.
- The event classes under src/Events are modelled only as constructors of `Event`. `TerminateWorker` has no payload. `PreDispatch` carries the request, even though its PHP field is named `$response`.
- The RoadRunner transport (`PSR7WorkerInterface`, Goridge framing) is a finite script of `waitRequest()` outcomes. Blocking after the script is used up is not modelled; the run exits with `Exhausted` there.
- The contents of PSR-7 messages are left out: a request or a response is only a value to compare.
- The response factory is a fixed function that never throws. A throw from `createResponse` is not modelled: it would reach the same catch as a throw from `respond`, but without any `respond` call, whereas the model's fault on that path always comes from a recorded `respond` call.
- `getTrace()` frames are opaque strings.
- The logger and dispatcher implementations are left out. Each call's outcome is a function of the calls made before it and of its argument.
- Process supervision, restarts and concurrency across worker processes are left out. The loop is strictly sequential.
- HttpWorker.Run: its contract ties it to `RunFrom`, and the facts about whole runs are lemmas about `RunFrom`. Stating them all on the method directly would be the same facts, through that equality.
