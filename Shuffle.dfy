/** The screens shuffle with `[...xs].sort(() => Math.random() - 0.5)`.
    Whatever order such a sort produces, it is a rearrangement of its input;
    the model takes that rearrangement as an index permutation chosen by the
    caller and proves that applying it keeps the multiset of elements. */
module Shuffle {

  /** `p` lists every index below `n` exactly once. */
  predicate IsPermutation(p: seq<nat>, n: nat)
  {
    && |p| == n
    && (forall i :: 0 <= i < n ==> p[i] < n)
    && (forall i, j :: 0 <= i < j < n ==> p[i] != p[j])
    && (forall v :: 0 <= v < n ==> v in p)
  }

  /** The sequence rearranged in the order `p` gives. */
  function Permute<T>(s: seq<T>, p: seq<nat>): seq<T>
    requires IsPermutation(p, |s|)
  {
    seq(|s|, i requires 0 <= i < |s| => s[p[i]])
  }

  /** Removing the position that holds the largest index leaves a
      permutation of the smaller range. */
  lemma {:induction false} RemoveLargest(p: seq<nat>, n: nat, k: nat)
    requires IsPermutation(p, n + 1)
    requires k < |p| && p[k] == n
    ensures IsPermutation(p[..k] + p[k + 1..], n)
  {
    var q := p[..k] + p[k + 1..];
    assert forall i :: 0 <= i < n ==> q[i] == if i < k then p[i] else p[i + 1];
    forall i | 0 <= i < n
      ensures q[i] < n
    {
      var j := if i < k then i else i + 1;
      assert q[i] == p[j] && j != k;
    }
    forall v | 0 <= v < n
      ensures v in q
    {
      assert v in p;
      var j :| 0 <= j < |p| && p[j] == v;
      assert j != k;
      if j < k {
        assert q[j] == v;
      } else {
        assert q[j - 1] == v;
      }
    }
  }

  /** Dropping the last element of `s` and the position `k` that points at
      it from `p` drops position `k` from the shuffle. */
  lemma PermuteWithout<T>(s: seq<T>, p: seq<nat>, k: nat)
    requires |s| > 0 && IsPermutation(p, |s|)
    requires k < |p| && p[k] == |s| - 1
    ensures IsPermutation(p[..k] + p[k + 1..], |s| - 1)
    ensures Permute(s[..|s| - 1], p[..k] + p[k + 1..])
         == Permute(s, p)[..k] + Permute(s, p)[k + 1..]
  {
    var n := |s| - 1;
    var q := p[..k] + p[k + 1..];
    RemoveLargest(p, n, k);
    var r := Permute(s, p);
    var lhs := Permute(s[..n], q);
    var rhs := r[..k] + r[k + 1..];
    assert |lhs| == |rhs|;
    forall i | 0 <= i < n
      ensures lhs[i] == rhs[i]
    {
      if i < k {
        assert q[i] == p[i];
      } else {
        assert q[i] == p[i + 1];
      }
    }
  }

  /** Taking out one position splits the multiset of a sequence. */
  lemma MultisetWithout<T>(r: seq<T>, k: nat)
    requires k < |r|
    ensures multiset(r) == multiset(r[..k] + r[k + 1..]) + multiset{r[k]}
  {
    assert r == r[..k] + [r[k]] + r[k + 1..];
  }

  /** A permutation of `0..n` holds `n` somewhere. */
  lemma PositionOfLargest(p: seq<nat>, n: nat) returns (k: nat)
    requires IsPermutation(p, n + 1)
    ensures k < |p| && p[k] == n
  {
    assert n in p;
    k :| 0 <= k < |p| && p[k] == n;
  }

  /** A shuffle is a permutation: it keeps every element with its multiplicity. */
  lemma {:induction false} PermuteMultiset<T>(s: seq<T>, p: seq<nat>)
    requires IsPermutation(p, |s|)
    ensures |Permute(s, p)| == |s|
    ensures multiset(Permute(s, p)) == multiset(s)
    decreases |s|
  {
    if |s| > 0 {
      var n := |s| - 1;
      var k := PositionOfLargest(p, n);
      var q := p[..k] + p[k + 1..];
      var r := Permute(s, p);
      PermuteWithout(s, p, k);
      PermuteMultiset(s[..n], q);
      MultisetWithout(r, k);
      MultisetWithout(s, n);
      assert s[..n] + s[n + 1..] == s[..n];
    }
  }

  /** In particular the first element of a non-empty shuffle is one of the input's. */
  lemma FirstIsMember<T>(s: seq<T>, p: seq<nat>)
    requires IsPermutation(p, |s|) && |s| > 0
    ensures Permute(s, p)[0] in s
  {
  }
}
