/**
 * Building a list by going through items in order and appending what each
 * item gives, skipping the items that give nothing: the shape of the job
 * table reader's row loop.
 */
module Seqs {
  import opened Wrappers

  /** The values f gives for the items, in item order; items for which f gives none are skipped. */
  function FilterMap<T, U>(xs: seq<T>, f: T -> Option<U>): (ys: seq<U>)
    ensures |ys| <= |xs|
  {
    if xs == [] then []
    else
      var earlier := FilterMap(xs[..|xs| - 1], f);
      match f(xs[|xs| - 1])
      case None => earlier
      case Some(y) => earlier + [y]
  }

  /** One more item appends its own value, if it gives one, and nothing else. */
  lemma FilterMapSnoc<T, U>(xs: seq<T>, f: T -> Option<U>, x: T)
    ensures FilterMap(xs + [x], f) ==
      match f(x)
      case None => FilterMap(xs, f)
      case Some(y) => FilterMap(xs, f) + [y]
  {
    assert (xs + [x])[..|xs|] == xs;
  }

  /** Going one item further into xs appends that item's value, if it gives one. */
  lemma FilterMapPrefix<T, U>(xs: seq<T>, f: T -> Option<U>, n: nat)
    requires n < |xs|
    ensures FilterMap(xs[..n + 1], f) ==
      match f(xs[n])
      case None => FilterMap(xs[..n], f)
      case Some(y) => FilterMap(xs[..n], f) + [y]
  {
    assert xs[..n + 1] == xs[..n] + [xs[n]];
    FilterMapSnoc(xs[..n], f, xs[n]);
  }

  /** Order is kept: the values of a concatenation are those of the first part, then those of the second. */
  lemma {:induction false} FilterMapAppend<T, U>(xs: seq<T>, ys: seq<T>, f: T -> Option<U>)
    ensures FilterMap(xs + ys, f) == FilterMap(xs, f) + FilterMap(ys, f)
  {
    if ys == [] {
      assert xs + ys == xs;
    } else {
      var n := |ys| - 1;
      assert xs + ys == (xs + ys[..n]) + [ys[n]];
      assert ys == ys[..n] + [ys[n]];
      FilterMapAppend(xs, ys[..n], f);
      FilterMapSnoc(xs + ys[..n], f, ys[n]);
      FilterMapSnoc(ys[..n], f, ys[n]);
    }
  }

  /** A value is in the result exactly when some item gives it. */
  lemma {:induction false} FilterMapMembers<T, U>(xs: seq<T>, f: T -> Option<U>, y: U)
    ensures y in FilterMap(xs, f) <==> exists i :: 0 <= i < |xs| && f(xs[i]) == Some(y)
  {
    if xs != [] {
      var n := |xs| - 1;
      var init := xs[..n];
      FilterMapMembers(init, f, y);
      assert forall i :: 0 <= i < n ==> init[i] == xs[i];
    }
  }

  /** A property every given value has is had by every value of the result. */
  lemma {:induction false} FilterMapAll<T, U>(xs: seq<T>, f: T -> Option<U>, p: U -> bool)
    requires forall x :: f(x).Some? ==> p(f(x).value)
    ensures forall y :: y in FilterMap(xs, f) ==> p(y)
  {
    if xs != [] {
      FilterMapAll(xs[..|xs| - 1], f, p);
    }
  }
}
