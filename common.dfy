/** Shared building blocks: optional values, backend replies, and the list
    transforms that both item stores and the views apply to their lists -
    filtering by key (`Array.prototype.filter`), updating where the key
    matches (`Array.prototype.map`) and summing costs (`Array.prototype.reduce`
    with initial value 0). */
module Common {

  datatype Option<T> = None | Some(value: T)

  /** The outcome of one backend call: the row it returned, or a failure. */
  datatype Reply<T> = Ok(value: T) | Err

  // ---------------------------------------------------------------------
  // Subsequences

  /** `a` is obtained from `b` by deleting some elements, keeping order. */
  predicate IsSubsequence<T(==)>(a: seq<T>, b: seq<T>)
  {
    if a == [] then true
    else if b == [] then false
    else if a[0] == b[0] then IsSubsequence(a[1..], b[1..])
    else IsSubsequence(a, b[1..])
  }

  // ---------------------------------------------------------------------
  // Filtering by key: `xs.filter(x => key(x) !== k)`

  /** The number of elements whose key is `k`. */
  function CountKey<T, K(==)>(xs: seq<T>, key: T -> K, k: K): nat
  {
    if xs == [] then 0
    else (if key(xs[0]) == k then 1 else 0) + CountKey(xs[1..], key, k)
  }

  function RemoveKey<T, K(==)>(xs: seq<T>, key: T -> K, k: K): (r: seq<T>)
    ensures |r| + CountKey(xs, key, k) == |xs|
  {
    if xs == [] then []
    else (if key(xs[0]) == k then [] else [xs[0]]) + RemoveKey(xs[1..], key, k)
  }

  /** An element survives the filter exactly when it was there and its key
      differs from `k`. */
  lemma {:induction false} RemoveKeyMembers<T, K>(xs: seq<T>, key: T -> K, k: K, x: T)
    ensures x in RemoveKey(xs, key, k) <==> x in xs && key(x) != k
  {
    if xs != [] {
      RemoveKeyMembers(xs[1..], key, k, x);
      assert xs == [xs[0]] + xs[1..];
    }
  }

  /** The survivors keep their relative order. */
  lemma {:induction false} RemoveKeySubsequence<T, K>(xs: seq<T>, key: T -> K, k: K)
    ensures IsSubsequence(RemoveKey(xs, key, k), xs)
  {
    if xs != [] {
      RemoveKeySubsequence(xs[1..], key, k);
      if key(xs[0]) == k {
        assert RemoveKey(xs, key, k) == RemoveKey(xs[1..], key, k);
        SubsequenceOfTail(RemoveKey(xs[1..], key, k), xs);
      } else {
        assert RemoveKey(xs, key, k) == [xs[0]] + RemoveKey(xs[1..], key, k);
      }
    }
  }

  lemma {:induction false} SubsequenceOfTail<T>(a: seq<T>, b: seq<T>)
    requires b != [] && IsSubsequence(a, b[1..])
    ensures IsSubsequence(a, b)
  {
    if a != [] && a[0] == b[0] {
      SubsequenceDropHead(a, b[1..]);
    }
  }

  lemma {:induction false} SubsequenceDropHead<T>(a: seq<T>, b: seq<T>)
    requires a != [] && IsSubsequence(a, b)
    ensures IsSubsequence(a[1..], b)
  {
    if b != [] {
      if a[0] == b[0] {
        SubsequenceOfTail(a[1..], b);
      } else {
        SubsequenceDropHead(a, b[1..]);
        SubsequenceOfTail(a[1..], b);
      }
    }
  }

  /** Filtering out a key nobody has changes nothing. */
  lemma {:induction false} RemoveKeyAbsent<T, K>(xs: seq<T>, key: T -> K, k: K)
    requires forall i :: 0 <= i < |xs| ==> key(xs[i]) != k
    ensures RemoveKey(xs, key, k) == xs
  {
    if xs != [] {
      RemoveKeyAbsent(xs[1..], key, k);
    }
  }

  // ---------------------------------------------------------------------
  // Updating where the key matches:
  // `xs.map(x => key(x) === k ? apply(x, e) : x)`

  function UpdateKey<T, K(==), E>(xs: seq<T>, key: T -> K, k: K, e: E, apply: (T, E) -> T): (r: seq<T>)
    ensures |r| == |xs|
  {
    if xs == [] then []
    else [if key(xs[0]) == k then apply(xs[0], e) else xs[0]] + UpdateKey(xs[1..], key, k, e, apply)
  }

  /** Position by position: matching elements are rewritten, all others are
      left exactly as they were. */
  lemma {:induction false} UpdateKeyAt<T, K, E>(xs: seq<T>, key: T -> K, k: K, e: E, apply: (T, E) -> T, i: nat)
    requires i < |xs|
    ensures UpdateKey(xs, key, k, e, apply)[i] == if key(xs[i]) == k then apply(xs[i], e) else xs[i]
  {
    if i > 0 {
      UpdateKeyAt(xs[1..], key, k, e, apply, i - 1);
    }
  }

  /** A matching element shows up, rewritten, in the result. */
  lemma {:induction false} UpdateKeyMember<T, K, E>(xs: seq<T>, key: T -> K, k: K, e: E, apply: (T, E) -> T, x: T)
    requires x in xs && key(x) == k
    ensures apply(x, e) in UpdateKey(xs, key, k, e, apply)
  {
    var i :| 0 <= i < |xs| && xs[i] == x;
    UpdateKeyAt(xs, key, k, e, apply, i);
  }

  // ---------------------------------------------------------------------
  // Summing: `xs.reduce((acc, x) => acc + cost(x), 0)`, a left fold

  function SumOf<T>(xs: seq<T>, cost: T -> real): real
  {
    if xs == [] then 0.0 else SumOf(xs[..|xs| - 1], cost) + cost(xs[|xs| - 1])
  }

  lemma {:induction false} SumOfAppend<T>(a: seq<T>, b: seq<T>, cost: T -> real)
    ensures SumOf(a + b, cost) == SumOf(a, cost) + SumOf(b, cost)
  {
    if b == [] {
      assert a + b == a;
    } else {
      SumOfAppend(a, b[..|b| - 1], cost);
      assert (a + b)[..|a + b| - 1] == a + b[..|b| - 1];
    }
  }

  /** The sum does not depend on the order of the elements. */
  lemma {:induction false} SumOfPermutation<T>(a: seq<T>, b: seq<T>, cost: T -> real)
    requires multiset(a) == multiset(b)
    ensures SumOf(a, cost) == SumOf(b, cost)
    decreases |a|
  {
    if a == [] {
      assert |b| == |multiset(b)| == 0;
    } else {
      var x := a[|a| - 1];
      var a' := a[..|a| - 1];
      assert a == a' + [x];
      assert x in multiset(b);
      var i :| 0 <= i < |b| && b[i] == x;
      var b' := b[..i] + b[i + 1..];
      assert b == b[..i] + [x] + b[i + 1..];
      assert multiset(a) == multiset(a') + multiset{x};
      assert multiset(b) == multiset(b[..i]) + multiset{x} + multiset(b[i + 1..]);
      assert multiset(b') == multiset(b[..i]) + multiset(b[i + 1..]);
      assert multiset(a') == multiset(a) - multiset{x};
      assert multiset(b') == multiset(b) - multiset{x};
      SumOfPermutation(a', b', cost);
      SumOfAppend(b[..i] + [x], b[i + 1..], cost);
      SumOfAppend(b[..i], [x], cost);
      SumOfAppend(b[..i], b[i + 1..], cost);
      assert SumOf([x], cost) == cost(x);
    }
  }

  /** A termwise lower bound gives a lower bound on the sum. */
  lemma {:induction false} SumOfAtLeast<T>(xs: seq<T>, cost: T -> real, lo: real)
    requires forall i :: 0 <= i < |xs| ==> lo <= cost(xs[i])
    ensures (|xs| as real) * lo <= SumOf(xs, cost)
  {
    if xs != [] {
      SumOfAtLeast(xs[..|xs| - 1], cost, lo);
    }
  }

  /** A termwise upper bound gives an upper bound on the sum. */
  lemma {:induction false} SumOfAtMost<T>(xs: seq<T>, cost: T -> real, hi: real)
    requires forall i :: 0 <= i < |xs| ==> cost(xs[i]) <= hi
    ensures SumOf(xs, cost) <= (|xs| as real) * hi
  {
    if xs != [] {
      SumOfAtMost(xs[..|xs| - 1], cost, hi);
    }
  }
}
