/** Option and Result, as the gateway uses Rust's Option<T> and Result<T, E>,
    and the one combinator the adapter leans on everywhere:
    `iter().map(f).collect::<Result<Vec<_>, _>>()`. */
module Wrappers {

  datatype Option<+T> = None | Some(value: T) {
    function GetOr(default: T): T {
      match this
      case Some(v) => v
      case None => default
    }
  }

  datatype Result<+T, +E> = Success(value: T) | Failure(error: E) {
    /** Rust's `Result::ok()`: forget the error. */
    function ToOption(): Option<T> {
      match this
      case Success(v) => Some(v)
      case Failure(_) => None
    }
  }

  /** Rust's `xs.iter().map(f).collect::<Result<Vec<_>, _>>()`: the mapped
      sequence when every element converts, otherwise the error of the FIRST
      element that fails (collect stops at the first Err). */
  function CollectResults<A, B, E>(xs: seq<A>, f: A -> Result<B, E>): (r: Result<seq<B>, E>)
    ensures r.Success? <==> forall i | 0 <= i < |xs| :: f(xs[i]).Success?
    ensures r.Success? ==> |r.value| == |xs| && forall i | 0 <= i < |xs| :: r.value[i] == f(xs[i]).value
    ensures r.Failure? ==>
      exists i | 0 <= i < |xs| :: f(xs[i]).Failure? && r.error == f(xs[i]).error &&
        forall j | 0 <= j < i :: f(xs[j]).Success?
  {
    if xs == [] then Success([])
    else
      match f(xs[0])
      case Failure(e) => Failure(e)
      case Success(y) =>
        match CollectResults(xs[1..], f)
        case Failure(e) =>
          assert forall j | 1 <= j < |xs| :: xs[j] == xs[1..][j - 1];
          Failure(e)
        case Success(ys) =>
          assert forall j | 1 <= j < |xs| :: xs[j] == xs[1..][j - 1];
          Success([y] + ys)
  }
}
