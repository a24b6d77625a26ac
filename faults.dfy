/**
 * Faults (PHP `\Throwable`s) and the bounded description of a fault that the
 * worker attaches to its log entries (`HttpWorker::throwableToArray`).
 */
module Faults {
  import opened Wrappers

  /**
   * A throwable as the worker reads it: `getMessage()`, `getCode()`, `getFile()`,
   * `getLine()`, `getTrace()` (kept as opaque frames) and `getPrevious()`, the
   * fault that caused this one.
   */
  datatype Fault = Fault(
    message: string,
    code: int,
    file: string,
    line: int,
    frames: seq<string>,
    previous: Option<Fault>)

  /**
   * The array `throwableToArray` builds: the keys 'message', 'code', 'file',
   * 'line', 'trace' always, and 'previous' only when it is set (`Some`).
   */
  datatype FaultRecord = FaultRecord(
    message: string,
    code: int,
    file: string,
    line: int,
    trace: seq<string>,
    previous: Option<FaultRecord>)

  /** The default of `throwableToArray`'s `$levels` parameter, the one `log` uses. */
  const DefaultLevels := 3

  /**
   * `throwableToArray($throwable, $levels)`: describes `f` and, while a cause
   * exists and the level counter is still positive, its cause with one level less.
   */
  function ThrowableToArray(f: Fault, levels: int): FaultRecord
  {
    FaultRecord(f.message, f.code, f.file, f.line, f.frames,
      if f.previous.Some? && levels > 0 then Some(ThrowableToArray(f.previous.value, levels - 1)) else None)
  }

  /** The cause chain of `f`: `f`, its previous fault, that one's previous, ... */
  function Chain(f: Fault): (c: seq<Fault>)
    ensures |c| >= 1 && c[0] == f
  {
    [f] + if f.previous.Some? then Chain(f.previous.value) else []
  }

  /** The nested records of `r`: `r`, `r['previous']`, `r['previous']['previous']`, ... */
  function Records(r: FaultRecord): (c: seq<FaultRecord>)
    ensures |c| >= 1 && c[0] == r
  {
    [r] + if r.previous.Some? then Records(r.previous.value) else []
  }

  /** `r` carries the scalar fields and the trace of `f`. */
  predicate Describes(r: FaultRecord, f: Fault)
  {
    r.message == f.message && r.code == f.code && r.file == f.file
    && r.line == f.line && r.trace == f.frames
  }

  /** How many records a level counter admits: itself plus one per remaining level. */
  function Admitted(levels: int): nat
  {
    if levels > 0 then levels + 1 else 1
  }

  function Min(a: nat, b: nat): nat
  {
    if a <= b then a else b
  }

  /**
   * The description is the cause chain cut off after `Admitted(levels)` faults,
   * each fault described by the record at the same depth.
   */
  lemma {:induction false} ThrowableToArrayChain(f: Fault, levels: int)
    ensures var rs := Records(ThrowableToArray(f, levels));
      |rs| == Min(|Chain(f)|, Admitted(levels))
      && forall i :: 0 <= i < |rs| ==> Describes(rs[i], Chain(f)[i])
  {
    var r := ThrowableToArray(f, levels);
    if f.previous.Some? && levels > 0 {
      var p := f.previous.value;
      ThrowableToArrayChain(p, levels - 1);
      var rs, ps := Records(ThrowableToArray(p, levels - 1)), Chain(p);
      assert Records(r) == [r] + rs;
      assert Chain(f) == [f] + ps;
      forall i | 0 <= i < |Records(r)|
        ensures Describes(Records(r)[i], Chain(f)[i])
      {
        if i > 0 {
          assert Records(r)[i] == rs[i - 1];
          assert Chain(f)[i] == ps[i - 1];
        }
      }
    } else {
      assert Records(r) == [r];
    }
  }

  /**
   * With the default of three levels, `previous` is nested at most three times:
   * at most four fault records, fewer only when the cause chain is shorter.
   */
  lemma DefaultDepth(f: Fault)
    ensures |Records(ThrowableToArray(f, DefaultLevels))| == Min(|Chain(f)|, 4)
    ensures |Records(ThrowableToArray(f, DefaultLevels))| <= 4
  {
    ThrowableToArrayChain(f, DefaultLevels);
  }
}
