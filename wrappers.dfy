/** Option and Result values shared by every module of the model. */
module Wrappers {
  datatype Option<T> = None | Some(value: T)

  /** The outcome of an operation that may throw; `Err` carries the exception message. */
  datatype Result<T> = Ok(value: T) | Err(error: string)
  {
    predicate IsFailure()
    {
      Err?
    }

    function PropagateFailure<U>(): Result<U>
      requires Err?
    {
      Err(error)
    }

    function Extract(): T
      requires Ok?
    {
      value
    }
  }

  /** `r` with `xs` put in front of its list, when it holds one. */
  function Prepend<T>(xs: seq<T>, r: Result<seq<T>>): Result<seq<T>>
  {
    if r.Err? then r else Ok(xs + r.value)
  }

  lemma PrependPrepend<T>(xs: seq<T>, ys: seq<T>, r: Result<seq<T>>)
    ensures Prepend(xs, Prepend(ys, r)) == Prepend(xs + ys, r)
    ensures Prepend([], r) == r
  {
    if r.Ok? {
      assert xs + (ys + r.value) == (xs + ys) + r.value;
      assert [] + r.value == r.value;
    }
  }

  /** `f` applied to every element and its position, in order, or the first failure. */
  function MapResult<T, U>(xs: seq<T>, f: (nat, T) -> Result<U>): Result<seq<U>>
  {
    if xs == [] then Ok([])
    else
      var init :- MapResult(xs[..|xs| - 1], f);
      var last :- f(|xs| - 1, xs[|xs| - 1]);
      Ok(init + [last])
  }

  /** It succeeds exactly when every element does, with one result per element, in order. */
  lemma {:induction false} MapResultMeaning<T, U>(xs: seq<T>, f: (nat, T) -> Result<U>)
    ensures MapResult(xs, f).Ok? <==> forall k :: 0 <= k < |xs| ==> f(k, xs[k]).Ok?
    ensures MapResult(xs, f).Ok? ==>
      |MapResult(xs, f).value| == |xs| && forall k :: 0 <= k < |xs| ==> MapResult(xs, f).value[k] == f(k, xs[k]).value
    decreases |xs|
  {
    if xs != [] {
      var init := xs[..|xs| - 1];
      MapResultMeaning(init, f);
      assert forall k :: 0 <= k < |init| ==> init[k] == xs[k];
    }
  }

  /** A prefix one longer is the prefix and the next element. */
  lemma PrefixSnoc<T>(xs: seq<T>, i: nat)
    requires i < |xs|
    ensures xs[..i + 1] == xs[..i] + [xs[i]]
  {
  }

  /** One more element: its result is appended, or its failure is the result. */
  lemma MapResultSnoc<T, U>(xs: seq<T>, x: T, f: (nat, T) -> Result<U>, init: seq<U>)
    requires MapResult(xs, f) == Ok(init)
    ensures f(|xs|, x).Ok? ==> MapResult(xs + [x], f) == Ok(init + [f(|xs|, x).value])
    ensures f(|xs|, x).Err? ==> MapResult(xs + [x], f) == Err(f(|xs|, x).error)
  {
    assert (xs + [x])[..|xs|] == xs;
  }

  /** One step of a loop computing `MapResult`: the next element either extends the results or ends the loop with its error. */
  lemma MapResultStep<T, U>(xs: seq<T>, f: (nat, T) -> Result<U>, i: nat, init: seq<U>)
    requires i < |xs| && MapResult(xs[..i], f) == Ok(init)
    ensures f(i, xs[i]).Ok? ==> MapResult(xs[..i + 1], f) == Ok(init + [f(i, xs[i]).value])
    ensures f(i, xs[i]).Err? ==> MapResult(xs, f) == Err(f(i, xs[i]).error)
  {
    PrefixSnoc(xs, i);
    MapResultSnoc(xs[..i], xs[i], f, init);
    if f(i, xs[i]).Err? {
      MapResultErrSticks(xs, f, i + 1);
    }
  }

  /** Once a prefix fails, so does the whole sequence, with the same error. */
  lemma {:induction false} MapResultErrSticks<T, U>(xs: seq<T>, f: (nat, T) -> Result<U>, n: nat)
    requires n <= |xs| && MapResult(xs[..n], f).Err?
    ensures MapResult(xs, f) == Err(MapResult(xs[..n], f).error)
    decreases |xs| - n
  {
    if n < |xs| {
      assert xs[..n + 1][..n] == xs[..n];
      MapResultErrSticks(xs, f, n + 1);
    } else {
      assert xs[..n] == xs;
    }
  }
}
