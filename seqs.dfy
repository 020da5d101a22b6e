/** The two array operations the program leans on, `Array.prototype.find` and
    `Array.prototype.filter`, over sequences. */
module Seqs {
  import opened Wrappers

  /** The first element satisfying `p`, in sequence order (`s.find(p)`). */
  function Find<T>(s: seq<T>, p: T -> bool): (r: Option<T>)
    ensures r.None? <==> forall i :: 0 <= i < |s| ==> !p(s[i])
    ensures r.Some? ==> exists i :: 0 <= i < |s| && s[i] == r.value && p(s[i]) && FirstAt(s, p, i)
  {
    if |s| == 0 then None
    else if p(s[0]) then (assert FirstAt(s, p, 0); Some(s[0]))
    else
      var r := Find(s[1..], p);
      assert forall i :: 1 <= i < |s| ==> s[i] == s[1..][i - 1];
      assert r.Some? ==> exists i :: 0 <= i < |s| && s[i] == r.value && p(s[i]) && FirstAt(s, p, i) by {
        if r.Some? {
          var i :| 0 <= i < |s[1..]| && s[1..][i] == r.value && p(s[1..][i]) && FirstAt(s[1..], p, i);
          assert FirstAt(s, p, i + 1);
        }
      }
      r
  }

  /** Searching with two tests that agree everywhere finds the same element. */
  lemma {:induction false} FindAgrees<T>(s: seq<T>, p: T -> bool, q: T -> bool)
    requires forall x :: p(x) == q(x)
    ensures Find(s, p) == Find(s, q)
  {
    if |s| > 0 && !p(s[0]) {
      FindAgrees(s[1..], p, q);
    }
  }

  /** No element before index `i` satisfies `p`. */
  predicate FirstAt<T>(s: seq<T>, p: T -> bool, i: int)
    requires 0 <= i <= |s|
  {
    forall j :: 0 <= j < i ==> !p(s[j])
  }

  /** The elements satisfying `p`, in their original order (`s.filter(p)`). */
  function Filter<T>(s: seq<T>, p: T -> bool): (r: seq<T>)
    ensures |r| <= |s|
    ensures forall i :: 0 <= i < |r| ==> r[i] in s && p(r[i])
    ensures forall i :: 0 <= i < |s| && p(s[i]) ==> s[i] in r
  {
    if |s| == 0 then []
    else (if p(s[0]) then [s[0]] else []) + Filter(s[1..], p)
  }

  /** What `filter` keeps keeps its order. */
  lemma {:induction false} FilterSubsequence<T>(s: seq<T>, p: T -> bool)
    ensures Subsequence(Filter(s, p), s)
  {
    if |s| > 0 {
      var rest := Filter(s[1..], p);
      FilterSubsequence(s[1..], p);
      var r := Filter(s, p);
      if p(s[0]) {
        assert r == [s[0]] + rest;
        assert r[0] == s[0] && r[1..] == rest;
      } else {
        assert r == rest;
      }
    }
  }

  /** `r` is `s` with some elements left out: what is kept keeps its order. */
  ghost predicate Subsequence<T>(r: seq<T>, s: seq<T>)
    decreases |s|
  {
    |r| == 0 || (|s| > 0 && ((r[0] == s[0] && Subsequence(r[1..], s[1..])) || Subsequence(r, s[1..])))
  }

  /** Filtering keeps any ranking that strictly increases along `s`
      strictly increasing. */
  lemma FilterRanked<T>(s: seq<T>, p: T -> bool, rank: T -> int)
    requires forall i, j :: 0 <= i < j < |s| ==> rank(s[i]) < rank(s[j])
    ensures var r := Filter(s, p);
      forall i, j :: 0 <= i < j < |r| ==> rank(r[i]) < rank(r[j])
  {
    FilterSubsequence(s, p);
    SubsequenceRanked(Filter(s, p), s, rank);
  }

  /** A ranking that strictly increases along `s` strictly increases along
      every subsequence of `s`: the kept elements are in `s`'s order and
      no one of them is kept twice. */
  lemma {:induction false} SubsequenceRanked<T>(r: seq<T>, s: seq<T>, rank: T -> int)
    requires Subsequence(r, s)
    requires forall i, j :: 0 <= i < j < |s| ==> rank(s[i]) < rank(s[j])
    ensures forall i :: 0 <= i < |r| ==> r[i] in s
    ensures forall i, j :: 0 <= i < j < |r| ==> rank(r[i]) < rank(r[j])
    decreases |s|
  {
    if |r| > 0 {
      if r[0] == s[0] && Subsequence(r[1..], s[1..]) {
        SubsequenceRanked(r[1..], s[1..], rank);
        forall j | 1 <= j < |r| ensures rank(r[0]) < rank(r[j]) {
          assert r[j] == r[1..][j - 1];
          var k :| 0 <= k < |s[1..]| && s[1..][k] == r[j];
          assert s[k + 1] == r[j];
        }
        forall i | 0 <= i < |r| ensures r[i] in s {
          if i > 0 {
            assert r[i] == r[1..][i - 1];
          }
        }
      } else {
        SubsequenceRanked(r, s[1..], rank);
      }
    }
  }

  /** Filtering with a test every element passes keeps the whole sequence. */
  lemma {:induction false} FilterAll<T>(s: seq<T>, p: T -> bool)
    requires forall i :: 0 <= i < |s| ==> p(s[i])
    ensures Filter(s, p) == s
  {
    if |s| > 0 {
      FilterAll(s[1..], p);
    }
  }

  /** Filtering a concatenation filters each part and keeps them in order:
      the relative order of the kept elements is that of the input. */
  lemma {:induction false} FilterConcat<T>(s: seq<T>, t: seq<T>, p: T -> bool)
    ensures Filter(s + t, p) == Filter(s, p) + Filter(t, p)
  {
    if |s| == 0 {
      assert s + t == t;
    } else {
      assert (s + t)[1..] == s[1..] + t;
      FilterConcat(s[1..], t, p);
    }
  }

  /** Filtering with a test no element passes keeps nothing. */
  lemma {:induction false} FilterNone<T>(s: seq<T>, p: T -> bool)
    requires forall i :: 0 <= i < |s| ==> !p(s[i])
    ensures Filter(s, p) == []
  {
    if |s| > 0 {
      FilterNone(s[1..], p);
    }
  }
}
