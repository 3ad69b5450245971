/** Failure-compatible wrappers used throughout the model: `Option` for Python's
    `None`-or-value and `Result` for a value-or-raised-exception. Both support
    Dafny's `:-` operator, which plays the role of exception propagation. */
module Wrappers {

  datatype Option<+T> = None | Some(value: T) {
    predicate IsFailure() { None? }

    function PropagateFailure<U>(): Option<U>
      requires None?
    {
      None
    }

    function Extract(): T
      requires Some?
    {
      value
    }
  }

  datatype Result<+T, +E> = Success(value: T) | Failure(error: E) {
    predicate IsFailure() { Failure? }

    function PropagateFailure<U>(): Result<U, E>
      requires Failure?
    {
      Failure(error)
    }

    function Extract(): T
      requires Success?
    {
      value
    }
  }

  /** `[f(x) for x in xs]` where `f` may raise: the first exception propagates. */
  function TryMap<X, Y, E>(f: X -> Result<Y, E>, xs: seq<X>): (r: Result<seq<Y>, E>)
    ensures r.Success? <==> forall i :: 0 <= i < |xs| ==> f(xs[i]).Success?
    ensures r.Success? ==> |r.value| == |xs| && forall i :: 0 <= i < |xs| ==> f(xs[i]) == Success(r.value[i])
    ensures r.Failure? ==> exists i :: 0 <= i < |xs| && f(xs[i]) == Failure(r.error)
  {
    if xs == [] then Success([])
    else
      var y :- f(xs[0]);
      var ys :- TryMap(f, xs[1..]);
      assert forall i :: 1 <= i < |xs| ==> xs[i] == xs[1..][i - 1];
      Success([y] + ys)
  }

  /** Mapping over two stretches one after the other. */
  lemma TryMapAppend<X, Y, E>(f: X -> Result<Y, E>, a: seq<X>, b: seq<X>)
    ensures TryMap(f, a + b).Success? <==> TryMap(f, a).Success? && TryMap(f, b).Success?
    ensures TryMap(f, a + b).Success? ==> TryMap(f, a + b).value == TryMap(f, a).value + TryMap(f, b).value
  {
    var ab := a + b;
    assert forall i :: 0 <= i < |a| ==> ab[i] == a[i];
    assert forall i :: 0 <= i < |b| ==> ab[|a| + i] == b[i];
    if TryMap(f, ab).Success? {
      assert TryMap(f, a).Success? by {
        forall i | 0 <= i < |a| ensures f(a[i]).Success? {
          assert ab[i] == a[i];
        }
      }
      assert TryMap(f, b).Success? by {
        forall i | 0 <= i < |b| ensures f(b[i]).Success? {
          assert ab[|a| + i] == b[i];
        }
      }
      var r, ra, rb := TryMap(f, ab).value, TryMap(f, a).value, TryMap(f, b).value;
      forall i | 0 <= i < |ab| ensures r[i] == (ra + rb)[i] {
        if i < |a| {
          assert f(ab[i]) == Success(r[i]) && f(a[i]) == Success(ra[i]);
        } else {
          assert f(ab[i]) == Success(r[i]) && f(b[i - |a|]) == Success(rb[i - |a|]);
        }
      }
    } else if TryMap(f, a).Success? && TryMap(f, b).Success? {
      forall i | 0 <= i < |ab| ensures f(ab[i]).Success? {
        if i >= |a| {
          assert ab[i] == b[i - |a|];
        }
      }
    }
  }
}

/** The Python exceptions the modelled code can raise, with the messages the
    source uses where it chooses them. */
module Errors {

  datatype Error =
    | ValueError(message: string)
    | TypeError(message: string)
    | IndexError(message: string)
    | KeyError(key: string)
    | AttributeError(message: string)
}
