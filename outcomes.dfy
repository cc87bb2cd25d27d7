/** Success/failure values standing for the Python exceptions the modelled code raises. */
module Outcomes {

  datatype Option<T> = None | Some(value: T)

  /** The Python exception kinds that the modelled code can raise. */
  datatype Error =
    | ValueError(message: string)
    | IndexError
    | KeyError(key: string)
    | ZeroDivisionError
    | TypeError

  datatype Result<T> = Ok(value: T) | Err(error: Error) {
    predicate IsFailure() { Err? }

    function PropagateFailure<U>(): Result<U>
      requires Err?
    {
      Err(error)
    }

    function Extract(): T
      requires Ok?
    {
      value
    }
  }

  /**
   * [f(x) for x in xs] where f may raise: the results in order, or the exception
   * of the first element that raises.
   */
  function MapResult<X, Y>(xs: seq<X>, f: X -> Result<Y>): Result<seq<Y>> {
    if xs == [] then Ok([])
    else
      var first :- f(xs[0]);
      var rest :- MapResult(xs[1..], f);
      Ok([first] + rest)
  }

  /** One step of MapResult: a successful head followed by a successful tail. */
  lemma {:induction false} MapResultCons<X, Y>(x: X, xs: seq<X>, f: X -> Result<Y>, y: Y, ys: seq<Y>)
    requires f(x) == Ok(y) && MapResult(xs, f) == Ok(ys)
    ensures MapResult([x] + xs, f) == Ok([y] + ys)
  {
    assert ([x] + xs)[0] == x && ([x] + xs)[1..] == xs;
  }

  /** MapResult succeeds exactly when f succeeds everywhere, and keeps the order. */
  lemma {:induction false} MapResultSpec<X, Y>(xs: seq<X>, f: X -> Result<Y>)
    ensures MapResult(xs, f).Ok? <==> forall k :: 0 <= k < |xs| ==> f(xs[k]).Ok?
    ensures MapResult(xs, f).Ok? ==> |MapResult(xs, f).value| == |xs|
    ensures MapResult(xs, f).Ok? ==> forall k :: 0 <= k < |xs| ==> MapResult(xs, f).value[k] == f(xs[k]).value
  {
    if xs != [] {
      var tail := xs[1..];
      MapResultSpec(tail, f);
      assert forall k :: 1 <= k < |xs| ==> xs[k] == tail[k - 1];
      if MapResult(xs, f).Ok? {
        var first, rest := f(xs[0]).value, MapResult(tail, f).value;
        assert MapResult(xs, f).value == [first] + rest;
        forall k | 0 <= k < |xs|
          ensures MapResult(xs, f).value[k] == f(xs[k]).value
        {
          if k > 0 {
            assert MapResult(xs, f).value[k] == rest[k - 1];
          }
        }
      }
    }
  }

  /** On failure the error is that of the first element that fails. */
  lemma {:induction false} MapResultError<X, Y>(xs: seq<X>, f: X -> Result<Y>)
    requires MapResult(xs, f).Err?
    ensures exists k ::
      && 0 <= k < |xs|
      && f(xs[k]) == Err(MapResult(xs, f).error)
      && (forall p :: 0 <= p < k ==> f(xs[p]).Ok?)
  {
    var tail := xs[1..];
    if f(xs[0]).Ok? {
      MapResultError(tail, f);
      var k :| 0 <= k < |tail| && f(tail[k]) == Err(MapResult(tail, f).error) && (forall p :: 0 <= p < k ==> f(tail[p]).Ok?);
      assert f(xs[k + 1]) == Err(MapResult(xs, f).error);
      assert forall p :: 1 <= p < k + 1 ==> xs[p] == tail[p - 1];
    } else {
      assert f(xs[0]) == Err(MapResult(xs, f).error);
    }
  }

  /** Extending the input by one element whose f succeeds extends the results by its value. */
  lemma {:induction false} MapResultSnoc<X, Y>(xs: seq<X>, x: X, f: X -> Result<Y>)
    requires MapResult(xs, f).Ok? && f(x).Ok?
    ensures MapResult(xs + [x], f) == Ok(MapResult(xs, f).value + [f(x).value])
  {
    if xs == [] {
      assert xs + [x] == [x] && [x][0] == x && [x][1..] == [];
      assert MapResult([x][1..], f) == Ok([]);
      assert [f(x).value] + [] == [] + [f(x).value];
    } else {
      assert (xs + [x])[0] == xs[0];
      assert (xs + [x])[1..] == xs[1..] + [x];
      MapResultSnoc(xs[1..], x, f);
      var head, rest := f(xs[0]).value, MapResult(xs[1..], f).value;
      assert MapResult(xs, f).value == [head] + rest;
      assert [head] + (rest + [f(x).value]) == [head] + rest + [f(x).value];
    }
  }

  /** The first element on which f fails decides the exception, whatever follows it. */
  lemma {:induction false} MapResultStops<X, Y>(xs: seq<X>, f: X -> Result<Y>, i: nat)
    requires i < |xs| && MapResult(xs[..i], f).Ok? && f(xs[i]).Err?
    ensures MapResult(xs, f) == Err(f(xs[i]).error)
  {
    if i > 0 {
      assert xs[..i][0] == xs[0];
      assert xs[..i][1..] == xs[1..][..i - 1];
      MapResultStops(xs[1..], f, i - 1);
    }
  }
}
