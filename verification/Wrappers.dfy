/** Failure-compatible results shared by every module. */
module Wrappers {

  datatype Option<+T> = None | Some(value: T) {
    predicate IsFailure() { None? }

    function PropagateFailure<U>(): Option<U>
      requires None?
    {
      None
    }

    function Extract(): T
      requires Some?
    {
      value
    }
  }

  /** The error half of the program's results: the exit class and the stable code (src/error.rs:4-39). */
  datatype ErrorClass = Io | Usage | Policy | Budget | Contract

  datatype AppError = AppError(cls: ErrorClass, code: string)

  datatype Result<+T> = Ok(value: T) | Err(error: AppError) {
    predicate IsFailure() { Err? }

    function PropagateFailure<U>(): Result<U>
      requires Err?
    {
      Err(error)
    }

    function Extract(): T
      requires Ok?
    {
      value
    }
  }

  // ---------------------------------------------------------------- checks in order

  /** What one check finds. */
  function If(condition: bool, cls: ErrorClass, code: string): Option<AppError> {
    if condition then Some(AppError(cls, code)) else None
  }

  function ErrorOf<T>(r: Result<T>): Option<AppError> {
    if r.Err? then Some(r.error) else None
  }

  /** Check number `k` is the first one that finds something. */
  predicate FirstFound<T(==)>(found: seq<Option<T>>, k: nat) {
    k < |found| && found[k].Some? && forall j | 0 <= j < k :: found[j].None?
  }

  /** The first of the checks that find something finds this. */
  predicate Reports<T(==)>(found: seq<Option<T>>, x: T) {
    exists k | 0 <= k < |found| :: FirstFound(found, k) && found[k] == Some(x)
  }

  /** No check finds anything. */
  predicate Silent<T(==)>(found: seq<Option<T>>) {
    forall k | 0 <= k < |found| :: found[k].None?
  }

  /** What the checks from number `k` on report. */
  function Report<T>(found: seq<Option<T>>, k: nat): Option<T>
    decreases |found| - k
  {
    if k >= |found| then None else if found[k].Some? then found[k] else Report(found, k + 1)
  }

  lemma {:induction false} ReportFrom<T>(found: seq<Option<T>>, k: nat, x: T)
    requires k <= |found| && forall j | 0 <= j < k :: found[j].None?
    ensures Report(found, k) == Some(x) <==> Reports(found, x)
    ensures Report(found, k).None? <==> Silent(found)
    decreases |found| - k
  {
    if k < |found| {
      if found[k].None? {
        ReportFrom(found, k + 1, x);
      } else {
        assert FirstFound(found, k);
      }
    }
  }

  lemma {:induction false} ReportLater<T>(x: seq<Option<T>>, y: seq<Option<T>>, k: nat)
    requires k <= |y|
    ensures Report(x + y, |x| + k) == Report(y, k)
    decreases |y| - k
  {
    if k < |y| {
      ReportLater(x, y, k + 1);
      assert (x + y)[|x| + k] == y[k];
    }
  }

  lemma {:induction false} ReportEarlier<T>(x: seq<Option<T>>, y: seq<Option<T>>, k: nat)
    requires k <= |x|
    ensures Report(x + y, k) == if Report(x, k).Some? then Report(x, k) else Report(y, 0)
    decreases |x| - k
  {
    if k < |x| {
      ReportEarlier(x, y, k + 1);
      assert (x + y)[k] == x[k];
    } else {
      ReportLater(x, y, 0);
    }
  }

  /** More checks after the first ones. */
  lemma ReportAppend<T>(x: seq<Option<T>>, y: seq<Option<T>>)
    ensures Report(x + y, 0) == if Report(x, 0).Some? then Report(x, 0) else Report(y, 0)
  {
    ReportEarlier(x, y, 0);
  }

  lemma ReportIs<T>(found: seq<Option<T>>, x: T)
    ensures Report(found, 0) == Some(x) <==> Reports(found, x)
    ensures Report(found, 0).None? <==> Silent(found)
  {
    ReportFrom(found, 0, x);
  }
}
