/**
 * `Array.prototype.filter` over a sequence, with its properties proved once:
 * the result keeps exactly the elements that pass, in their original order,
 * with their multiplicities, and filtering twice changes nothing.
 */
module Seqs {

  /** The elements of `s` for which `p` holds, in the order of `s`. */
  function Keep<T>(s: seq<T>, p: T -> bool): (r: seq<T>)
    ensures |r| <= |s|
    ensures forall x :: x in r ==> x in s && p(x)
    ensures forall i :: 0 <= i < |s| && p(s[i]) ==> s[i] in r
  {
    if s == [] then []
    else if p(s[0]) then [s[0]] + Keep(s[1..], p)
    else Keep(s[1..], p)
  }

  /** `idx` lists, in increasing order, positions of `s` that spell out `r`. */
  ghost predicate IsEmbedding<T>(r: seq<T>, s: seq<T>, idx: seq<nat>) {
    && |idx| == |r|
    && (forall k :: 0 <= k < |idx| ==> idx[k] < |s| && s[idx[k]] == r[k])
    && (forall k, l :: 0 <= k < l < |idx| ==> idx[k] < idx[l])
  }

  /** `r` is obtained from `s` by deleting elements, without reordering. */
  ghost predicate IsSubsequence<T>(r: seq<T>, s: seq<T>) {
    exists idx :: IsEmbedding(r, s, idx)
  }

  /** Filtering keeps the original order: its result is a subsequence of the input. */
  lemma {:induction false} KeepIsSubsequence<T>(s: seq<T>, p: T -> bool)
    ensures IsSubsequence(Keep(s, p), s)
  {
    if s == [] {
      assert IsEmbedding<T>([], s, []);
    } else {
      KeepIsSubsequence(s[1..], p);
      var idx :| IsEmbedding(Keep(s[1..], p), s[1..], idx);
      var shifted := seq(|idx|, k requires 0 <= k < |idx| => idx[k] + 1);
      ShiftedEmbedding(Keep(s[1..], p), s, idx, shifted);
      if p(s[0]) {
        var r := Keep(s, p);
        assert r == [s[0]] + Keep(s[1..], p);
        PrependEmbedding(Keep(s[1..], p), s, shifted);
      }
    }
  }

  /** An embedding into `s[1..]`, shifted by one, is an embedding into `s`. */
  lemma ShiftedEmbedding<T>(r: seq<T>, s: seq<T>, idx: seq<nat>, shifted: seq<nat>)
    requires s != [] && IsEmbedding(r, s[1..], idx)
    requires |shifted| == |idx| && forall k :: 0 <= k < |idx| ==> shifted[k] == idx[k] + 1
    ensures IsEmbedding(r, s, shifted)
  {
  }

  /** An embedding that avoids position 0 extends to one of `[s[0]] + r`. */
  lemma PrependEmbedding<T>(r: seq<T>, s: seq<T>, shifted: seq<nat>)
    requires s != [] && IsEmbedding(r, s, shifted)
    requires forall k :: 0 <= k < |shifted| ==> 0 < shifted[k]
    ensures IsEmbedding([s[0]] + r, s, [0] + shifted)
  {
    var r', idx' := [s[0]] + r, [0] + shifted;
    forall k | 0 <= k < |idx'|
      ensures idx'[k] < |s| && s[idx'[k]] == r'[k]
    {
      if k > 0 {
        assert idx'[k] == shifted[k - 1] && r'[k] == r[k - 1];
      }
    }
  }

  /**
   * Filtering keeps every passing element as often as it occurs in the input
   * and drops every failing one entirely.
   */
  lemma {:induction false} KeepCount<T>(s: seq<T>, p: T -> bool, x: T)
    ensures multiset(Keep(s, p))[x] == if p(x) then multiset(s)[x] else 0
  {
    if s != [] {
      KeepCount(s[1..], p, x);
      assert s == [s[0]] + s[1..];
      if p(s[0]) {
        assert Keep(s, p) == [s[0]] + Keep(s[1..], p);
      }
    }
  }

  /** A sequence whose every element passes is returned unchanged. */
  lemma {:induction false} KeepAllPass<T>(s: seq<T>, p: T -> bool)
    requires forall x :: x in s ==> p(x)
    ensures Keep(s, p) == s
  {
    if s != [] {
      KeepAllPass(s[1..], p);
    }
  }

  /** Filtering twice with the same predicate is filtering once. */
  lemma KeepIdempotent<T>(s: seq<T>, p: T -> bool)
    ensures Keep(Keep(s, p), p) == Keep(s, p)
  {
    KeepAllPass(Keep(s, p), p);
  }

  /** Filtering a concatenation filters each part. */
  lemma {:induction false} KeepAppend<T>(a: seq<T>, b: seq<T>, p: T -> bool)
    ensures Keep(a + b, p) == Keep(a, p) + Keep(b, p)
  {
    if a != [] {
      KeepAppend(a[1..], b, p);
      assert (a + b)[0] == a[0];
      assert (a + b)[1..] == a[1..] + b;
      if p(a[0]) {
        calc {
          Keep(a + b, p);
          [a[0]] + Keep(a[1..] + b, p);
          [a[0]] + (Keep(a[1..], p) + Keep(b, p));
          ([a[0]] + Keep(a[1..], p)) + Keep(b, p);
        }
      }
    } else {
      assert a + b == b;
    }
  }

  /** A sequence none of whose elements passes filters to nothing. */
  lemma {:induction false} KeepNonePass<T>(s: seq<T>, p: T -> bool)
    requires forall x :: x in s ==> !p(x)
    ensures Keep(s, p) == []
  {
    if s != [] {
      KeepNonePass(s[1..], p);
    }
  }
}
