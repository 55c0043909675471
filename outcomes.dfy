/** Wrappers for values that may be missing and for computations that may raise. */
module Outcomes {

  /** A value that may be absent (an empty search, a side with no points). */
  datatype Option<+T> = None | Some(value: T)

  /** The outcome of a call that either returns a value or raises an exception. */
  datatype Result<+T, +E> = Ok(value: T) | Err(error: E)

  /**
   * A loop that appends f(x) for each x in order and lets the first
   * exception escape: all the results, or the error of the first x that
   * raises.
   */
  function Collect<A, B, E>(xs: seq<A>, f: A -> Result<B, E>): Result<seq<B>, E>
  {
    if |xs| == 0 then Ok([])
    else match Collect(xs[..|xs| - 1], f)
      case Err(e) => Err(e)
      case Ok(done) =>
        match f(xs[|xs| - 1])
        case Err(e) => Err(e)
        case Ok(y) => Ok(done + [y])
  }

  /** One more element: the loop so far, then that element. */
  lemma CollectSnoc<A, B, E>(xs: seq<A>, x: A, f: A -> Result<B, E>)
    ensures Collect(xs + [x], f) ==
      match Collect(xs, f)
      case Err(e) => Err(e)
      case Ok(done) => (match f(x) case Err(e) => Err(e) case Ok(y) => Ok(done + [y]))
  {
    assert (xs + [x])[..|xs|] == xs;
  }

  /**
   * Isolation of the elements: the loop completes exactly when every element
   * on its own succeeds, and result k is then what element k alone gives.
   */
  lemma {:induction false} CollectOk<A, B, E>(xs: seq<A>, f: A -> Result<B, E>)
    ensures Collect(xs, f).Ok? <==> forall k :: 0 <= k < |xs| ==> f(xs[k]).Ok?
    ensures Collect(xs, f).Ok? ==>
      |Collect(xs, f).value| == |xs| &&
      forall k :: 0 <= k < |xs| ==> f(xs[k]) == Ok(Collect(xs, f).value[k])
  {
    if |xs| > 0 {
      var init := xs[..|xs| - 1];
      CollectOk(init, f);
      assert forall k :: 0 <= k < |init| ==> init[k] == xs[k];
    }
  }

  /** A loop that raises reports the exception of the first element that raises. */
  lemma {:induction false} CollectErr<A, B, E>(xs: seq<A>, f: A -> Result<B, E>)
    requires Collect(xs, f).Err?
    ensures exists k :: (0 <= k < |xs| && f(xs[k]) == Err(Collect(xs, f).error) &&
      forall j :: 0 <= j < k ==> f(xs[j]).Ok?)
  {
    var init := xs[..|xs| - 1];
    var last := |xs| - 1;
    assert forall k :: 0 <= k < |init| ==> init[k] == xs[k];
    if Collect(init, f).Err? {
      CollectErr(init, f);
      var k :| 0 <= k < |init| && f(init[k]) == Err(Collect(init, f).error) &&
        forall j :: 0 <= j < k ==> f(init[j]).Ok?;
      assert f(xs[k]) == Err(Collect(xs, f).error);
    } else {
      CollectOk(init, f);
      assert forall j :: 0 <= j < last ==> f(xs[j]).Ok?;
    }
  }

  /** Once a prefix raises, the whole loop raises the same exception. */
  lemma {:induction false} CollectAbort<A, B, E>(xs: seq<A>, n: nat, f: A -> Result<B, E>)
    requires n <= |xs| && Collect(xs[..n], f).Err?
    ensures Collect(xs, f) == Collect(xs[..n], f)
    decreases |xs| - n
  {
    if n < |xs| {
      assert xs[..n + 1][..n] == xs[..n];
      CollectAbort(xs, n + 1, f);
    } else {
      assert xs[..n] == xs;
    }
  }
}
