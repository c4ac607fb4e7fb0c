/** Facts about sequences, stated once for any element type. */
module Seqs {

  lemma SnocPrefix<T>(s: seq<T>, x: T)
    ensures (s + [x])[..|s|] == s
  {
  }

  /** Two adjacent slices make up the slice that spans both. */
  lemma AdjacentSlices<T>(s: seq<T>, i: nat, j: nat, k: nat)
    requires i <= j <= k <= |s|
    ensures s[i..j] + s[j..k] == s[i..k]
  {
  }

  /** Concatenating permutations gives a permutation. */
  lemma ConcatPermutations<T>(a: seq<T>, b: seq<T>, c: seq<T>, d: seq<T>)
    requires multiset(a) == multiset(c) && multiset(b) == multiset(d)
    ensures multiset(a + b) == multiset(c + d)
  {
  }

  /** The second and fourth pieces of a four-piece concatenation, cut back out. */
  lemma FourPieces<T>(a: seq<T>, b: seq<T>, c: seq<T>, d: seq<T>)
    ensures (a + b + c + d)[|a|..|a| + |b|] == b
    ensures (a + b + c + d)[|a| + |b| + |c|..] == d
  {
  }

  /** Two concatenations that are equal and cut at the same length have equal pieces. */
  lemma SameSplit<T>(a: seq<T>, b: seq<T>, c: seq<T>, d: seq<T>)
    requires a + b == c + d && |a| == |c|
    ensures a == c && b == d
  {
    assert a == (a + b)[..|a|] && c == (c + d)[..|c|];
    assert b == (a + b)[|a|..] && d == (c + d)[|c|..];
  }

  /** Putting one element in front of the whole and of one of two parts keeps the whole the sum of the parts. */
  lemma ConsToPart<T>(x: T, whole: seq<T>, part: seq<T>, rest: seq<T>)
    requires multiset(whole) == multiset(part) + multiset(rest)
    ensures multiset([x] + whole) == multiset([x] + part) + multiset(rest)
  {
  }

  /** A sequence without repeated elements holds each value at most once. */
  lemma {:induction false} NoRepeatsCount<T>(s: seq<T>, x: T)
    requires forall i, j :: 0 <= i < j < |s| ==> s[i] != s[j]
    ensures multiset(s)[x] <= 1
  {
    if s != [] {
      assert s == [s[0]] + s[1..];
      NoRepeatsCount(s[1..], x);
      if x == s[0] {
        assert x !in s[1..];
      }
    }
  }

  /** A value at two positions of a sequence is held at least twice. */
  lemma RepeatCount<T>(s: seq<T>, i: nat, j: nat)
    requires i < j < |s| && s[i] == s[j]
    ensures multiset(s)[s[i]] >= 2
  {
    assert s == s[..i] + [s[i]] + s[i + 1..j] + [s[j]] + s[j + 1..];
  }

  /** A rearrangement of a sequence whose elements have distinct keys has distinct keys too. */
  lemma RearrangedKeysDistinct<T, K>(src: seq<T>, out: seq<T>, key: T -> K)
    requires multiset(out) == multiset(src)
    requires forall a, b :: 0 <= a < b < |src| ==> key(src[a]) != key(src[b])
    ensures forall i, j :: 0 <= i < j < |out| ==> key(out[i]) != key(out[j])
  {
    forall i, j | 0 <= i < j < |out|
      ensures key(out[i]) != key(out[j])
    {
      assert out[i] in multiset(src) && out[j] in multiset(src);
      var p :| 0 <= p < |src| && src[p] == out[i];
      var q :| 0 <= q < |src| && src[q] == out[j];
      if p == q {
        NoRepeatsCount(src, out[i]);
        RepeatCount(out, i, j);
      } else if p > q {
        assert key(src[q]) != key(src[p]);
      }
    }
  }
}
