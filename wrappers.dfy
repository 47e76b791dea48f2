/** Failure-compatible Option and Result datatypes used throughout the model. */
module Wrappers {

  datatype Option<+T> = None | Some(value: T) {
    function GetOr(default: T): T {
      match this
      case Some(v) => v
      case None => default
    }
  }

  /** A Python call either returns a value or raises an exception. */
  datatype Result<+T, +E> = Ok(value: T) | Err(error: E) {
    predicate IsFailure() {
      Err?
    }

    function PropagateFailure<U>(): Result<U, E>
      requires Err?
    {
      Err(error)
    }

    function Extract(): T
      requires Ok?
    {
      value
    }
  }

  /** `acc` followed by the value of `r`, or the error of `r`. */
  function Then<T, E>(acc: seq<T>, r: Result<seq<T>, E>): Result<seq<T>, E> {
    match r
    case Ok(v) => Ok(acc + v)
    case Err(e) => Err(e)
  }

  /** Run `first` and then `rest`: both values one after the other, or the first error. */
  function Chain<T, E>(first: Result<seq<T>, E>, rest: Result<seq<T>, E>): Result<seq<T>, E> {
    match first
    case Err(e) => Err(e)
    case Ok(a) => Then(a, rest)
  }

  lemma ThenThen<T, E>(a: seq<T>, b: seq<T>, r: Result<seq<T>, E>)
    ensures Then(a, Then(b, r)) == Then(a + b, r)
  {
    if r.Ok? {
      assert a + (b + r.value) == (a + b) + r.value;
    }
  }

  /** Extending records by a result, then chaining another, is extending by the chain of the two. */
  lemma ChainThen<T, E>(a: seq<T>, r1: Result<seq<T>, E>, r2: Result<seq<T>, E>)
    ensures Chain(Then(a, r1), r2) == Then(a, Chain(r1, r2))
  {
    if r1.Ok? {
      ThenThen(a, r1.value, r2);
    }
  }

  lemma ThenEmpty<T, E>(r: Result<seq<T>, E>)
    ensures Then([], r) == r
  {
    if r.Ok? {
      assert [] + r.value == r.value;
    }
  }

  lemma ChainAssoc<T, E>(x: Result<seq<T>, E>, y: Result<seq<T>, E>, z: Result<seq<T>, E>)
    ensures Chain(Chain(x, y), z) == Chain(x, Chain(y, z))
  {
    if x.Ok? && y.Ok? {
      ThenThen(x.value, y.value, z);
    }
  }

  /** A chain succeeds exactly when both parts do, with their values one after the other. */
  lemma ChainOk<T, E>(x: Result<seq<T>, E>, y: Result<seq<T>, E>)
    ensures Chain(x, y).Ok? <==> x.Ok? && y.Ok?
    ensures Chain(x, y).Ok? ==> Chain(x, y).value == x.value + y.value
  {
  }

  lemma ChainUnit<T, E>(x: Result<seq<T>, E>)
    ensures Chain(Ok([]), x) == x
    ensures Chain(x, Ok([])) == x
  {
    ThenEmpty(x);
    if x.Ok? {
      assert x.value + [] == x.value;
    }
  }
}
