/**
  Python's `random.shuffle`, a Fisher-Yates shuffle: for `i` from `n - 1` down
  to `1` it swaps position `i` with a drawn position `j` in `[0, i]`. The draws
  are the sequence `swaps`, one per position (`swaps[0]` is never used).

  Counting, distinctness and per-element properties survive the shuffle.
 */
module Shuffling {

  predicate ValidSwaps(swaps: seq<nat>, n: nat)
  {
    |swaps| == n && forall i :: 0 <= i < n ==> swaps[i] <= i
  }

  function Swap<T>(s: seq<T>, i: nat, j: nat): (r: seq<T>)
    requires i < |s| && j < |s|
    ensures |r| == |s|
    ensures r[i] == s[j] && r[j] == s[i]
    ensures forall k :: 0 <= k < |s| && k != i && k != j ==> r[k] == s[k]
  {
    s[i := s[j]][j := s[i]]
  }

  /** Processes positions `k - 1` down to `1`. */
  function ShuffleBelow<T>(s: seq<T>, swaps: seq<nat>, k: nat): (r: seq<T>)
    requires ValidSwaps(swaps, |s|)
    requires k <= |s|
    ensures |r| == |s|
    ensures multiset(r) == multiset(s)
    decreases k
  {
    if k <= 1 then s
    else
      var x := Swap(s, k - 1, swaps[k - 1]);
      assert multiset(x) == multiset(s);
      ShuffleBelow(x, swaps, k - 1)
  }

  /** `random.shuffle(s)` with the given swap draws. */
  function Shuffle<T>(s: seq<T>, swaps: seq<nat>): (r: seq<T>)
    requires ValidSwaps(swaps, |s|)
    ensures |r| == |s|
    ensures multiset(r) == multiset(s)
  {
    ShuffleBelow(s, swaps, |s|)
  }

  /** Number of elements satisfying `p`. */
  function Count<T>(s: seq<T>, p: T -> bool): (c: nat)
    ensures c <= |s|
  {
    if s == [] then 0 else (if p(s[0]) then 1 else 0) + Count(s[1..], p)
  }

  lemma {:induction false} CountAppend<T>(a: seq<T>, b: seq<T>, p: T -> bool)
    ensures Count(a + b, p) == Count(a, p) + Count(b, p)
  {
    if a == [] {
      assert a + b == b;
    } else {
      assert (a + b)[1..] == a[1..] + b;
      CountAppend(a[1..], b, p);
    }
  }

  /** Overwriting one element changes the count only by that element. */
  lemma {:induction false} CountUpdate<T>(s: seq<T>, i: nat, v: T, p: T -> bool)
    requires i < |s|
    ensures Count(s[i := v], p) == Count(s, p) - (if p(s[i]) then 1 else 0) + (if p(v) then 1 else 0)
  {
    if i > 0 {
      assert s[i := v][1..] == s[1..][i - 1 := v];
      CountUpdate(s[1..], i - 1, v, p);
    } else {
      assert s[i := v][1..] == s[1..];
    }
  }

  lemma CountSwap<T>(s: seq<T>, i: nat, j: nat, p: T -> bool)
    requires i < |s| && j < |s|
    ensures Count(Swap(s, i, j), p) == Count(s, p)
  {
    CountUpdate(s, i, s[j], p);
    CountUpdate(s[i := s[j]], j, s[i], p);
  }

  /** Shuffling does not change how many elements satisfy `p`. */
  lemma {:induction false} ShuffleBelowCount<T>(s: seq<T>, swaps: seq<nat>, k: nat, p: T -> bool)
    requires ValidSwaps(swaps, |s|)
    requires k <= |s|
    ensures Count(ShuffleBelow(s, swaps, k), p) == Count(s, p)
    decreases k
  {
    if k > 1 {
      var x := Swap(s, k - 1, swaps[k - 1]);
      CountSwap(s, k - 1, swaps[k - 1], p);
      ShuffleBelowCount(x, swaps, k - 1, p);
    }
  }

  lemma ShuffleCount<T>(s: seq<T>, swaps: seq<nat>, p: T -> bool)
    requires ValidSwaps(swaps, |s|)
    ensures Count(Shuffle(s, swaps), p) == Count(s, p)
  {
    ShuffleBelowCount(s, swaps, |s|, p);
  }

  /** A sequence none of whose elements satisfy `p` counts zero; one all of whose elements do counts its length. */
  lemma {:induction false} CountUniform<T>(s: seq<T>, p: T -> bool, b: bool)
    requires forall i :: 0 <= i < |s| ==> p(s[i]) == b
    ensures Count(s, p) == (if b then |s| else 0)
  {
    if s != [] {
      CountUniform(s[1..], p, b);
    }
  }

  /** If `p` implies `q` on every element, fewer elements satisfy `p` than `q`. */
  lemma {:induction false} CountImplies<T>(s: seq<T>, p: T -> bool, q: T -> bool)
    requires forall i :: 0 <= i < |s| ==> p(s[i]) ==> q(s[i])
    ensures Count(s, p) <= Count(s, q)
  {
    if s != [] {
      CountImplies(s[1..], p, q);
    }
  }

  /** No two elements share a key. */
  ghost predicate DistinctBy<T, K>(s: seq<T>, key: T -> K)
  {
    forall i, j :: 0 <= i < j < |s| ==> key(s[i]) != key(s[j])
  }

  lemma {:induction false} ShuffleBelowDistinct<T, K>(s: seq<T>, swaps: seq<nat>, k: nat, key: T -> K)
    requires ValidSwaps(swaps, |s|)
    requires k <= |s|
    requires DistinctBy(s, key)
    ensures DistinctBy(ShuffleBelow(s, swaps, k), key)
    decreases k
  {
    if k > 1 {
      var x := Swap(s, k - 1, swaps[k - 1]);
      assert DistinctBy(x, key) by {
        forall a, b | 0 <= a < b < |x|
          ensures key(x[a]) != key(x[b])
        {
          var a' := if a == k - 1 then swaps[k - 1] else if a == swaps[k - 1] then k - 1 else a;
          var b' := if b == k - 1 then swaps[k - 1] else if b == swaps[k - 1] then k - 1 else b;
          assert x[a] == s[a'] && x[b] == s[b'] && a' != b';
          if a' > b' {
            assert key(s[b']) != key(s[a']);
          }
        }
      }
      ShuffleBelowDistinct(x, swaps, k - 1, key);
    }
  }

  /** Shuffling keeps keys distinct. */
  lemma ShuffleDistinct<T, K>(s: seq<T>, swaps: seq<nat>, key: T -> K)
    requires ValidSwaps(swaps, |s|)
    requires DistinctBy(s, key)
    ensures DistinctBy(Shuffle(s, swaps), key)
  {
    ShuffleBelowDistinct(s, swaps, |s|, key);
  }

  /** Every element of a permutation comes from the original sequence. */
  lemma PermutationMembers<T>(r: seq<T>, s: seq<T>, i: nat)
    requires multiset(r) == multiset(s)
    requires i < |r|
    ensures exists j :: 0 <= j < |s| && s[j] == r[i]
  {
    assert r[i] in multiset(r);
    assert r[i] in multiset(s);
    assert r[i] in s;
  }

  /** A property of every element survives any permutation, in particular a shuffle. */
  lemma PermutationAll<T>(r: seq<T>, s: seq<T>, p: T -> bool)
    requires multiset(r) == multiset(s)
    requires forall j :: 0 <= j < |s| ==> p(s[j])
    ensures forall i :: 0 <= i < |r| ==> p(r[i])
  {
    forall i | 0 <= i < |r|
      ensures p(r[i])
    {
      PermutationMembers(r, s, i);
    }
  }
}
