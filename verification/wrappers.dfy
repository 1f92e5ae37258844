/** Option and Result, with the `:-` protocol, and the first-failure map over a sequence. */
module Wrappers {

  datatype Option<+T> = None | Some(value: T)

  datatype Result<+T, +E> = Ok(value: T) | Err(error: E) {
    predicate IsFailure() { Err? }

    function PropagateFailure<U>(): Result<U, E>
      requires Err?
    {
      Err(error)
    }

    function Extract(): T
      requires Ok?
    {
      value
    }
  }

  /** Applies `f` to every element in order; the first failure is the result
      (a list comprehension whose element constructor may raise). */
  function MapResults<A, B, E>(xs: seq<A>, f: A -> Result<B, E>): (r: Result<seq<B>, E>)
    ensures r.Ok? ==> |r.value| == |xs| && forall i :: 0 <= i < |xs| ==> f(xs[i]) == Ok(r.value[i])
    ensures r.Err? ==> exists i :: 0 <= i < |xs| && f(xs[i]) == Err(r.error)
    ensures (forall i :: 0 <= i < |xs| ==> f(xs[i]).Ok?) ==> r.Ok?
    decreases |xs|
  {
    if xs == [] then Ok([])
    else
      match f(xs[0])
      case Err(e) => Err(e)
      case Ok(y) =>
        match MapResults(xs[1..], f)
        case Err(e) => Err(e)
        case Ok(ys) => Ok([y] + ys)
  }

  /** When every element maps to the matching element of `ys`, the whole map succeeds with `ys`. */
  lemma {:induction false} MapResultsOfOks<A, B, E>(xs: seq<A>, ys: seq<B>, f: A -> Result<B, E>)
    requires |xs| == |ys| && forall i :: 0 <= i < |xs| ==> f(xs[i]) == Ok(ys[i])
    ensures MapResults(xs, f) == Ok(ys)
    decreases |xs|
  {
    if xs != [] {
      MapResultsOfOks(xs[1..], ys[1..], f);
      assert [ys[0]] + ys[1..] == ys;
    }
  }
}
