/** Sequence operations of JavaScript arrays as the dashboard uses them: `slice` with its
    relative (negative) indices, `filter`, and the order-preserving subsequence relation. */
module Seqs {

  function Min(a: int, b: int): int { if a <= b then a else b }
  function Max(a: int, b: int): int { if a >= b then a else b }

  /** How `slice` resolves an index against a length: a negative index counts from the end,
      and the result is clamped to [0, len]. */
  function Resolve(i: int, len: nat): (r: nat)
    ensures r <= len
  {
    if i < 0 then (if len + i < 0 then 0 else len + i)
    else if i > len then len
    else i
  }

  /** `s.slice(start, end)`. */
  function Slice<T>(s: seq<T>, start: int, end: int): (r: seq<T>)
    ensures |r| <= |s|
  {
    var a, b := Resolve(start, |s|), Resolve(end, |s|);
    if a < b then s[a..b] else []
  }

  /** `s.slice(0, end)`: a prefix; a negative `end` drops that many elements from the back. */
  function SliceTo<T>(s: seq<T>, end: int): (r: seq<T>)
    ensures end >= 0 ==> r == s[..Min(end, |s|)]
    ensures end < 0 ==> r == s[..Max(|s| + end, 0)]
  {
    Slice(s, 0, end)
  }

  /** `s.slice(-n)`: the last `n` elements for `n >= 1`. JavaScript reads `-0` as `0`, so
      `n == 0` keeps the whole sequence, and a negative `n` drops the first `-n` elements. */
  function Last<T>(s: seq<T>, n: int): (r: seq<T>)
    ensures |r| <= |s|
    ensures n >= 1 ==> |r| == Min(n, |s|) && r == s[|s| - |r|..]
    ensures n == 0 ==> r == s
    ensures n < 0 ==> r == s[Min(-n, |s|)..]
  {
    Slice(s, -n, |s|)
  }

  /** `s.filter(p)`: the elements satisfying `p`, in their original order. */
  function Filter<T(!new)>(s: seq<T>, p: T -> bool): (r: seq<T>)
    ensures |r| <= |s|
    ensures forall i :: 0 <= i < |r| ==> p(r[i])
    ensures forall i :: 0 <= i < |r| ==> r[i] in s
    ensures forall i :: 0 <= i < |s| && p(s[i]) ==> s[i] in r
    ensures forall x :: multiset(r)[x] == if p(x) then multiset(s)[x] else 0
  {
    if s == [] then []
    else
      var rest := Filter(s[1..], p);
      FilterStep(s, rest, p);
      (if p(s[0]) then [s[0]] else []) + rest
  }

  /** Filtering `s` is filtering its tail, with the head in front when it passes. */
  lemma FilterStep<T(!new)>(s: seq<T>, rest: seq<T>, p: T -> bool)
    requires s != []
    requires |rest| <= |s| - 1
    requires forall i :: 0 <= i < |rest| ==> p(rest[i])
    requires forall x :: multiset(rest)[x] == if p(x) then multiset(s[1..])[x] else 0
    ensures var r := (if p(s[0]) then [s[0]] else []) + rest;
      && |r| <= |s|
      && (forall i :: 0 <= i < |r| ==> p(r[i]))
      && (forall i :: 0 <= i < |r| ==> r[i] in s)
      && (forall i :: 0 <= i < |s| && p(s[i]) ==> s[i] in r)
      && (forall x :: multiset(r)[x] == if p(x) then multiset(s)[x] else 0)
  {
    var head := if p(s[0]) then [s[0]] else [];
    var r := head + rest;
    assert s == [s[0]] + s[1..];
    assert multiset(r) == multiset(head) + multiset(rest);
    assert multiset(s) == multiset{s[0]} + multiset(s[1..]);
    forall i | 0 <= i < |r|
      ensures r[i] in s
    {
      assert multiset(r)[r[i]] > 0;
    }
    forall i | 0 <= i < |s| && p(s[i])
      ensures s[i] in r
    {
      assert multiset(s)[s[i]] > 0;
    }
  }

  /** A filter every element passes keeps the whole sequence. */
  lemma {:induction false} FilterKeepsAll<T(!new)>(s: seq<T>, p: T -> bool)
    requires forall i :: 0 <= i < |s| ==> p(s[i])
    ensures Filter(s, p) == s
    decreases |s|
  {
    if s != [] {
      FilterKeepsAll(s[1..], p);
      assert [s[0]] + s[1..] == s;
    }
  }

  /** `a` is obtained from `b` by deleting elements: `a` is an order-preserving subsequence. */
  ghost predicate IsSubsequence<T>(a: seq<T>, b: seq<T>)
    decreases |b|
  {
    a == [] ||
    (b != [] && ((a[0] == b[0] && IsSubsequence(a[1..], b[1..])) || IsSubsequence(a, b[1..])))
  }

  lemma {:induction false} SubsequenceReflexive<T>(s: seq<T>)
    ensures IsSubsequence(s, s)
    decreases |s|
  {
    if s != [] {
      SubsequenceReflexive(s[1..]);
    }
  }

  lemma {:induction false} SubsequenceTransitive<T>(a: seq<T>, b: seq<T>, c: seq<T>)
    requires IsSubsequence(a, b) && IsSubsequence(b, c)
    ensures IsSubsequence(a, c)
    decreases |c|
  {
    if a != [] {
      assert b != [] && c != [];
      if IsSubsequence(b, c[1..]) {
        SubsequenceTransitive(a, b, c[1..]);
      } else {
        assert b[0] == c[0] && IsSubsequence(b[1..], c[1..]);
        if a[0] == b[0] && IsSubsequence(a[1..], b[1..]) {
          SubsequenceTransitive(a[1..], b[1..], c[1..]);
        } else {
          SubsequenceTransitive(a, b[1..], c[1..]);
        }
      }
    }
  }

  /** Filtering keeps order: the result of `filter` is a subsequence of its input. */
  lemma {:induction false} FilterIsSubsequence<T(!new)>(s: seq<T>, p: T -> bool)
    ensures IsSubsequence(Filter(s, p), s)
    decreases |s|
  {
    if s != [] {
      FilterIsSubsequence(s[1..], p);
      if p(s[0]) {
        assert Filter(s, p)[1..] == Filter(s[1..], p);
      } else {
        assert Filter(s, p) == Filter(s[1..], p);
        if Filter(s, p) != [] {
          assert IsSubsequence(Filter(s, p), s[1..]);
        }
      }
    }
  }

  /** Every suffix `s[k..]` is a subsequence of `s`. */
  lemma {:induction false} SuffixIsSubsequence<T>(s: seq<T>, k: nat)
    requires k <= |s|
    ensures IsSubsequence(s[k..], s)
    decreases k
  {
    if k == 0 {
      SubsequenceReflexive(s);
    } else {
      SuffixIsSubsequence(s[1..], k - 1);
      assert s[1..][k - 1..] == s[k..];
      if s[k..] != [] {
        assert IsSubsequence(s[k..], s[1..]);
      }
    }
  }

  /** `slice(-n)` keeps order. */
  lemma LastIsSubsequence<T>(s: seq<T>, n: int)
    ensures IsSubsequence(Last(s, n), s)
  {
    var r := Last(s, n);
    assert r == s[|s| - |r|..] by {
      if n == 0 { assert s[0..] == s; }
    }
    SuffixIsSubsequence(s, |s| - |r|);
  }
}
