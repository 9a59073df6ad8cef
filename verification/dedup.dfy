/** Removing duplicates by a key, keeping the first element with each key: the pattern of a
    `filter` that consults and fills a `Set` of keys seen so far. It removes failure modes
    with the same lower-cased name (`src/lib/pipeline/synthesize.ts`) and citations with the
    same url or title (`src/lib/pipeline/index.ts`). */
module Dedup {
  import opened Seqs

  /** The keys of the elements of `xs`. */
  function KeysOf<T(==), K(==)>(xs: seq<T>, key: T -> K): set<K> {
    set x | x in xs :: key(x)
  }

  /** The first element of `xs` with each key, in order. */
  function DedupBy<T(==), K(==)>(xs: seq<T>, key: T -> K): seq<T> {
    if xs == [] then []
    else
      var kept := DedupBy(xs[..|xs| - 1], key);
      if key(xs[|xs| - 1]) in KeysOf(kept, key) then kept else kept + [xs[|xs| - 1]]
  }

  /** The filter with its set of keys seen so far. */
  method DedupByKey<T(==), K(==)>(xs: seq<T>, key: T -> K) returns (r: seq<T>)
    ensures r == DedupBy(xs, key)
  {
    var seen: set<K> := {};
    r := [];
    for i := 0 to |xs|
      invariant r == DedupBy(xs[..i], key)
      invariant seen == KeysOf(r, key)
    {
      assert xs[..i + 1][..i] == xs[..i];
      var k := key(xs[i]);
      if k !in seen {
        seen := seen + {k};
        r := r + [xs[i]];
      }
    }
    assert xs[..|xs|] == xs;
  }

  predicate DistinctKeys<T(==), K(==)>(xs: seq<T>, key: T -> K) {
    forall i, j :: 0 <= i < j < |xs| ==> key(xs[i]) != key(xs[j])
  }

  /** The result is a subsequence of the input with pairwise different keys, and it has an
      element for every key of the input. */
  lemma {:induction false} DedupByMeaning<T, K>(xs: seq<T>, key: T -> K)
    ensures IsSubsequence(DedupBy(xs, key), xs)
    ensures DistinctKeys(DedupBy(xs, key), key)
    ensures KeysOf(DedupBy(xs, key), key) == KeysOf(xs, key)
  {
    if xs != [] {
      var init, last := xs[..|xs| - 1], xs[|xs| - 1];
      var kept := DedupBy(init, key);
      DedupByMeaning(init, key);
      assert xs == init + [last];
      SubsequenceSnoc(kept, init, last);
      if key(last) !in KeysOf(kept, key) {
        var r := kept + [last];
        forall i, j | 0 <= i < j < |r| ensures key(r[i]) != key(r[j]) {
          if j == |r| - 1 {
            assert r[i] in kept;
          }
        }
        assert KeysOf(r, key) == KeysOf(kept, key) + {key(last)};
      }
      assert KeysOf(xs, key) == KeysOf(init, key) + {key(last)};
    }
  }

  /** The first element with a key is the one kept. */
  lemma {:induction false} DedupByKeepsFirst<T, K>(xs: seq<T>, key: T -> K, i: nat)
    requires i < |xs|
    requires forall j :: 0 <= j < i ==> key(xs[j]) != key(xs[i])
    ensures xs[i] in DedupBy(xs, key)
  {
    var init := xs[..|xs| - 1];
    if i == |xs| - 1 {
      DedupByMeaning(init, key);
    } else {
      DedupByKeepsFirst(init, key, i);
    }
  }

  /** A list whose keys are already distinct is left as it is, so deduplicating twice gives the
      same list as once. */
  lemma {:induction false} DedupByDistinct<T, K>(xs: seq<T>, key: T -> K)
    requires DistinctKeys(xs, key)
    ensures DedupBy(xs, key) == xs
  {
    if xs != [] {
      var init := xs[..|xs| - 1];
      DedupByDistinct(init, key);
      assert init + [xs[|xs| - 1]] == xs;
    }
  }

  lemma DedupByIdempotent<T, K>(xs: seq<T>, key: T -> K)
    ensures DedupBy(DedupBy(xs, key), key) == DedupBy(xs, key)
  {
    DedupByMeaning(xs, key);
    DedupByDistinct(DedupBy(xs, key), key);
  }

  /** Deduplicating a longer list keeps the deduplicated shorter list in front. */
  lemma {:induction false} DedupByPrefix<T, K>(a: seq<T>, b: seq<T>, key: T -> K)
    ensures DedupBy(a, key) <= DedupBy(a + b, key)
    decreases |b|
  {
    if b == [] {
      assert a + b == a;
    } else {
      var b' := b[..|b| - 1];
      DedupByPrefix(a, b', key);
      assert (a + b)[..|a + b| - 1] == a + b';
    }
  }

  /** Elements whose keys have all been seen already change nothing: when every key of `b` is a
      key of `a`, deduplicating `a + b + c` gives what deduplicating `a + c` gives. */
  lemma {:induction false} DedupBySeenKeys<T, K>(a: seq<T>, b: seq<T>, c: seq<T>, key: T -> K)
    requires KeysOf(b, key) <= KeysOf(a, key)
    ensures DedupBy(a + b + c, key) == DedupBy(a + c, key)
    decreases |b| + |c|
  {
    if c != [] {
      var c' := c[..|c| - 1];
      DedupBySeenKeys(a, b, c', key);
      assert (a + b + c)[..|a + b + c| - 1] == a + b + c';
      assert (a + c)[..|a + c| - 1] == a + c';
    } else if b != [] {
      var b' := b[..|b| - 1];
      assert KeysOf(b', key) <= KeysOf(b, key) by {
        forall x | x in b' ensures x in b { }
      }
      DedupBySeenKeys(a, b', [], key);
      assert a + b' + [] == a + b' && a + [] == a;
      assert (a + b + c)[..|a + b + c| - 1] == a + b';
      DedupByMeaning(a, key);
      assert key(b[|b| - 1]) in KeysOf(b, key);
    } else {
      assert a + b + c == a + c;
    }
  }
}
