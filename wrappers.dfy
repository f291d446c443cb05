/** Option and Result, the two wrappers the model uses for PHP's null and for exceptions. */
module Wrappers {

  /** A value that may be missing: PHP's `null` next to a string. */
  datatype Option<+T> = None | Some(value: T) {
    function GetOr(default: T): T {
      match this
      case Some(v) => v
      case None => default
    }
  }

  /** The outcome of an operation that may throw. */
  datatype Result<+R, +E> = Success(value: R) | Failure(error: E)

  /** Each element decoded in turn, as a foreach that throws on the first failure. */
  function DecodeAll<A, B, E>(f: A -> Result<B, E>, xs: seq<A>): (r: Result<seq<B>, E>)
    ensures r.Success? ==> |r.value| == |xs| && forall i :: 0 <= i < |xs| ==> f(xs[i]) == Success(r.value[i])
    ensures r.Failure? ==> exists i :: 0 <= i < |xs| && f(xs[i]) == Failure(r.error)
  {
    if |xs| == 0 then Success([])
    else
      var n := |xs| - 1;
      assert forall i :: 0 <= i < n ==> xs[..n][i] == xs[i];
      match DecodeAll(f, xs[..n])
      case Failure(e) => Failure(e)
      case Success(done) =>
        match f(xs[n])
        case Failure(e) => Failure(e)
        case Success(x) => Success(done + [x])
  }

  /** One more element that decodes adds its value at the end. */
  lemma DecodeAllStep<A, B, E>(f: A -> Result<B, E>, xs: seq<A>, i: nat)
    requires i < |xs| && DecodeAll(f, xs[..i]).Success? && f(xs[i]).Success?
    ensures DecodeAll(f, xs[..i + 1]) == Success(DecodeAll(f, xs[..i]).value + [f(xs[i]).value])
  {
    assert xs[..i + 1][..i] == xs[..i];
  }

  /** The first element that fails decides the error, whatever follows it. */
  lemma {:induction false} DecodeAllFailsAt<A, B, E>(f: A -> Result<B, E>, xs: seq<A>, i: nat)
    requires i < |xs| && DecodeAll(f, xs[..i]).Success? && f(xs[i]).Failure?
    ensures DecodeAll(f, xs) == Failure(f(xs[i]).error)
    decreases |xs|
  {
    var n := |xs| - 1;
    if i < n {
      assert xs[..n][..i] == xs[..i];
      assert xs[..n][i] == xs[i];
      DecodeAllFailsAt(f, xs[..n], i);
    } else {
      assert xs[..n] == xs[..i];
    }
  }
}
