/** Failure-compatible wrappers used for the source's optional values and thrown errors. */
module Wrappers {

  /** An optional value: `undefined`/`null` in the source is `None`. */
  datatype Option<+T> = None | Some(value: T) {
    function GetOr(default: T): T {
      match this
      case Some(v) => v
      case None => default
    }
  }

  /** The outcome of an operation that may throw: `Err` carries the error message. */
  datatype Result<+T> = Ok(value: T) | Err(error: string)
}

/** Sequence helpers that mirror `Array.prototype.slice(0, n)` and friends. */
module Seqs {
  import opened Wrappers

  function Min(a: int, b: int): int { if a <= b then a else b }

  /** `xs.slice(0, n)`: the first `n` elements, or all of them when there are fewer. */
  function Take<T>(xs: seq<T>, n: nat): (r: seq<T>)
    ensures |r| == Min(n, |xs|)
    ensures forall i :: 0 <= i < |r| ==> r[i] == xs[i]
  {
    if n <= |xs| then xs[..n] else xs
  }

  /** `a` is obtained from `b` by deleting elements, keeping the order of the rest. */
  predicate IsSubsequence<T(==)>(a: seq<T>, b: seq<T>)
    decreases |b|
  {
    if a == [] then true
    else if b == [] then false
    else if a[0] == b[0] then IsSubsequence(a[1..], b[1..])
    else IsSubsequence(a, b[1..])
  }

  lemma {:induction false} SubsequenceOfTake<T>(xs: seq<T>, n: nat)
    ensures IsSubsequence(Take(xs, n), xs)
  {
    if n > 0 && xs != [] {
      SubsequenceOfTake(xs[1..], n - 1);
      assert Take(xs, n)[1..] == Take(xs[1..], n - 1);
    }
  }

  /** A subsequence of `b` stays one when an element is put in front of `b`. */
  lemma {:induction false} SubsequenceCons<T>(a: seq<T>, b: seq<T>, x: T)
    requires IsSubsequence(a, b)
    ensures IsSubsequence(a, [x] + b)
    decreases |b|
  {
    assert ([x] + b)[1..] == b;
    if a != [] && a[0] == x {
      if a[0] == b[0] {
        SubsequenceCons(a[1..], b[1..], b[0]);
        assert [b[0]] + b[1..] == b;
      } else {
        SubsequenceCons(a, b[1..], x);
        assert ([x] + b[1..])[1..] == b[1..];
        SubsequenceCons(a[1..], b[1..], b[0]);
        assert [b[0]] + b[1..] == b;
      }
    }
  }

  /** Appending the same element to both sides, or to the longer side only, keeps a subsequence. */
  lemma {:induction false} SubsequenceSnoc<T>(a: seq<T>, b: seq<T>, x: T)
    requires IsSubsequence(a, b)
    ensures IsSubsequence(a, b + [x])
    ensures IsSubsequence(a + [x], b + [x])
    decreases |b|
  {
    if b == [] {
      assert a == [];
      assert ([x] + [])[1..] == [];
    } else {
      assert (b + [x])[1..] == b[1..] + [x];
      if a == [] {
        SubsequenceSnoc(a, b[1..], x);
        assert a + [x] == [x];
      } else {
        assert (a + [x])[1..] == a[1..] + [x];
        if a[0] == b[0] {
          SubsequenceSnoc(a[1..], b[1..], x);
        } else {
          SubsequenceSnoc(a, b[1..], x);
        }
      }
    }
  }

  lemma {:induction false} SubsequenceIsSubset<T>(a: seq<T>, b: seq<T>)
    requires IsSubsequence(a, b)
    ensures forall x :: x in a ==> x in b
    ensures |a| <= |b|
    decreases |b|
  {
    if a != [] {
      if a[0] == b[0] {
        SubsequenceIsSubset(a[1..], b[1..]);
        assert forall x :: x in a ==> x == a[0] || x in a[1..];
      } else {
        SubsequenceIsSubset(a, b[1..]);
      }
    }
  }

  /** `f` applied to every element, in order: a `map`, or a `forEach` that pushes every
      transformed element. */
  function Map<T, U>(xs: seq<T>, f: T -> U): (r: seq<U>)
    ensures |r| == |xs| && forall i :: 0 <= i < |xs| ==> r[i] == f(xs[i])
  {
    seq(|xs|, i requires 0 <= i < |xs| => f(xs[i]))
  }

  /** Pushing the image of one more element onto a list that ends in a `Map`. */
  lemma MapPush<T, U>(ys: seq<U>, before: seq<U>, xs: seq<T>, x: T, f: T -> U)
    requires ys == before + Map(xs, f)
    ensures ys + [f(x)] == before + Map(xs + [x], f)
  {
    assert Map(xs + [x], f) == Map(xs, f) + [f(x)];
  }

  /** The values `f` produces for the elements of `xs`, in order, skipping those it rejects:
      a `forEach` that pushes some transformed elements. */
  function Collect<T, U>(xs: seq<T>, f: T -> Option<U>): (r: seq<U>)
    ensures |r| <= |xs|
  {
    if xs == [] then []
    else
      Collect(xs[..|xs| - 1], f) + (match f(xs[|xs| - 1]) case Some(y) => [y] case None => [])
  }

  /** What `Collect` keeps: exactly the values `f` produces for some element. */
  lemma {:induction false} CollectMeaning<T, U>(xs: seq<T>, f: T -> Option<U>)
    ensures forall y :: y in Collect(xs, f) <==> exists x :: x in xs && f(x) == Some(y)
  {
    if xs != [] {
      var init := xs[..|xs| - 1];
      CollectMeaning(init, f);
      assert xs == init + [xs[|xs| - 1]];
      forall x | x in xs ensures x in init || x == xs[|xs| - 1] { }
    }
  }

  /** `Collect` of two pieces is the `Collect` of each, one after the other. */
  lemma {:induction false} CollectAppend<T, U>(xs: seq<T>, ys: seq<T>, f: T -> Option<U>)
    ensures Collect(xs + ys, f) == Collect(xs, f) + Collect(ys, f)
    decreases |ys|
  {
    if ys == [] {
      assert xs + ys == xs;
    } else {
      var init := ys[..|ys| - 1];
      assert (xs + ys)[..|xs + ys| - 1] == xs + init;
      CollectAppend(xs, init, f);
    }
  }

  /** The value kept for the element at index `j` sits at an index no larger than `j`, after
      the values kept for the elements before it. */
  lemma CollectPosition<T, U>(xs: seq<T>, f: T -> Option<U>, j: nat)
    requires j < |xs| && f(xs[j]).Some?
    ensures var i := |Collect(xs[..j], f)|;
      i <= j && i < |Collect(xs, f)| && Collect(xs, f)[i] == f(xs[j]).value
  {
    assert xs == xs[..j + 1] + xs[j + 1..];
    CollectAppend(xs[..j + 1], xs[j + 1..], f);
    CollectStep(xs, j, f);
  }

  /** `Collect` of a one-element extension, as a loop step uses it. */
  lemma CollectStep<T, U>(xs: seq<T>, i: nat, f: T -> Option<U>)
    requires i < |xs|
    ensures Collect(xs[..i + 1], f)
         == Collect(xs[..i], f) + (match f(xs[i]) case Some(y) => [y] case None => [])
  {
    assert xs[..i + 1][..i] == xs[..i];
  }
}
