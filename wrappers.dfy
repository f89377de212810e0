/** Outcomes of the modelled Python code: a value, or the reason the process stops. */
module Wrappers {

  datatype Option<+T> = None | Some(value: T)

  /** Why a run aborts: `sys.exit(status)`/`exit()`, or an uncaught Python exception. */
  datatype Failure =
    | Exit(status: int)
    | KeyError(key: string)
    | ValueError
    | TypeError
    | IndexError
    | AttributeError
    | NameError(name: string)
    | UnboundLocalError(name: string)

  /** No item occurs twice. */
  predicate NoDuplicates<T(==)>(l: seq<T>) {
    forall i, j :: 0 <= i < j < |l| ==> l[i] != l[j]
  }

  /** The code as written, or with the defects listed under the findings corrected. */
  datatype Variant = AsWritten | Corrected

  datatype Result<+T> = Ok(value: T) | Err(failure: Failure) {
    predicate IsFailure() { Err? }
    function PropagateFailure<U>(): Result<U>
      requires Err?
    {
      Err(failure)
    }
    function Extract(): T
      requires Ok?
    {
      value
    }
  }

  /**
   * `[f(x) for x in xs]` where `f` may raise: all results, or the failure of the
   * first element that fails.
   */
  function MapResult<T, U>(xs: seq<T>, f: T -> Result<U>): (r: Result<seq<U>>)
    ensures r.Ok? <==> forall i :: 0 <= i < |xs| ==> f(xs[i]).Ok?
    ensures r.Ok? ==> |r.value| == |xs| && forall i :: 0 <= i < |xs| ==> f(xs[i]) == Ok(r.value[i])
    ensures r.Err? ==> exists i :: 0 <= i < |xs| && f(xs[i]).Err? && r.failure == f(xs[i]).failure
                                   && forall j :: 0 <= j < i ==> f(xs[j]).Ok?
  {
    if xs == [] then Ok([])
    else match f(xs[0])
      case Err(e) => Err(e)
      case Ok(y) =>
        match MapResult(xs[1..], f)
        case Err(e) =>
          ghost var i :| 0 <= i < |xs[1..]| && f(xs[1..][i]).Err? && e == f(xs[1..][i]).failure
                         && forall j :: 0 <= j < i ==> f(xs[1..][j]).Ok?;
          assert f(xs[i + 1]).Err? && forall j :: 0 <= j < i + 1 ==> f(xs[j]).Ok? by {
            forall j | 0 <= j < i + 1
              ensures f(xs[j]).Ok?
            {
              if j > 0 {
                assert xs[j] == xs[1..][j - 1];
              }
            }
          }
          Err(e)
        case Ok(ys) => Ok([y] + ys)
  }

  /** When every element succeeds, the results are exactly the collected values. */
  lemma MapResultOk<T, U>(xs: seq<T>, f: T -> Result<U>, ys: seq<U>)
    requires |ys| == |xs| && forall i :: 0 <= i < |xs| ==> f(xs[i]) == Ok(ys[i])
    ensures MapResult(xs, f) == Ok(ys)
  {
    var r := MapResult(xs, f);
    assert r.Ok?;
    assert forall i :: 0 <= i < |xs| ==> r.value[i] == ys[i] by {
      forall i | 0 <= i < |xs|
        ensures r.value[i] == ys[i]
      {
        assert f(xs[i]) == Ok(r.value[i]);
      }
    }
    assert r.value == ys;
  }
}
