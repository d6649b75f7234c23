/** Option and Result, the two failure-carrying shapes used across the model. */
module Wrappers {

  /** A value that may be absent: Python's `Optional[T]`, with `None` for absence. */
  datatype Option<+T> = None | Some(value: T) {
    function GetOr(default: T): T {
      match this
      case Some(v) => v
      case None => default
    }
  }

  /** The outcome of an operation that either returns a value or raises an exception. */
  datatype Result<+T, +E> = Success(value: T) | Failure(error: E) {
    predicate IsFailure() {
      Failure?
    }

    function PropagateFailure<U>(): Result<U, E>
      requires Failure?
    {
      Failure(error)
    }

    function Extract(): T
      requires Success?
    {
      value
    }
  }

  /** `xs[i]` is the first element on which `f` raises, and it raises `e`. */
  predicate FailsFirstAt<A, B, E(==)>(f: A -> Result<B, E>, xs: seq<A>, i: int, e: E) {
    0 <= i < |xs| && f(xs[i]).Failure? && f(xs[i]).error == e && forall j :: 0 <= j < i ==> f(xs[j]).Success?
  }

  /**
   * `[f(x) for x in xs]` written as a loop that appends, where `f` may
   * raise: the first exception ends the loop and propagates.
   */
  method TryMap<A, B(==), E(==)>(f: A -> Result<B, E>, xs: seq<A>) returns (r: Result<seq<B>, E>)
    ensures r.Success? <==> forall i :: 0 <= i < |xs| ==> f(xs[i]).Success?
    ensures r.Success? ==> |r.value| == |xs| && forall i :: 0 <= i < |xs| ==> f(xs[i]) == Success(r.value[i])
    ensures r.Failure? ==> exists i :: FailsFirstAt(f, xs, i, r.error)
  {
    var out: seq<B> := [];
    var i := 0;
    while i < |xs|
      invariant 0 <= i <= |xs| && |out| == i
      invariant forall j :: 0 <= j < i ==> f(xs[j]) == Success(out[j])
    {
      var y := f(xs[i]);
      if y.Failure? {
        assert FailsFirstAt(f, xs, i, y.error);
        return Failure(y.error);
      }
      out := out + [y.value];
      i := i + 1;
    }
    return Success(out);
  }

  /** `[f(xs[j], ys[j], j) for j in range(len(xs))]`: pairs mapped with their position. */
  function MapPairs<A, C, D>(xs: seq<A>, ys: seq<C>, f: (A, C, nat) -> D): (r: seq<D>)
    requires |ys| == |xs|
    ensures |r| == |xs|
    decreases |xs|
  {
    if xs == [] then []
    else
      var n := |xs| - 1;
      MapPairs(xs[..n], ys[..n], f) + [f(xs[n], ys[n], n)]
  }

  /** Position `j` of `MapPairs` holds `f` applied to the pair at `j`. */
  lemma {:induction false} MapPairsAt<A, C, D>(xs: seq<A>, ys: seq<C>, f: (A, C, nat) -> D, j: int)
    requires |ys| == |xs| && 0 <= j < |xs|
    ensures MapPairs(xs, ys, f)[j] == f(xs[j], ys[j], j)
    decreases |xs|
  {
    var n := |xs| - 1;
    if j < n {
      MapPairsAt(xs[..n], ys[..n], f, j);
    }
  }
}
