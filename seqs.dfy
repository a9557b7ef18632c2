/**
 * `Array.prototype.filter` and the facts about it that the views rely on.
 * `Filter` is defined from the back of the sequence so that a loop that
 * appends one element at a time can be related to it step by step.
 */
module Seqs {

  function Filter<T>(s: seq<T>, p: T -> bool): (r: seq<T>)
    ensures |r| <= |s|
    ensures forall x :: x in r ==> x in s && p(x)
    ensures forall x :: x in s && p(x) ==> x in r
  {
    if s == [] then []
    else Filter(s[..|s| - 1], p) + (if p(s[|s| - 1]) then [s[|s| - 1]] else [])
  }

  /** The multiset of a filter grows by the last element exactly when it passes. */
  lemma FilterSnoc<T>(s: seq<T>, x: T, p: T -> bool)
    ensures multiset(Filter(s + [x], p)) == multiset(Filter(s, p)) + (if p(x) then multiset{x} else multiset{})
  {
    assert (s + [x])[..|s|] == s;
  }

  /**
   * Two filters whose tests never both hold, and one of which holds exactly
   * when `r` does, together keep what `r` keeps.
   */
  lemma {:induction false} FilterSplit<T>(s: seq<T>, p: T -> bool, q: T -> bool, r: T -> bool)
    requires forall x :: x in s ==> !(p(x) && q(x)) && (r(x) <==> p(x) || q(x))
    ensures multiset(Filter(s, p)) + multiset(Filter(s, q)) == multiset(Filter(s, r))
  {
    if s != [] {
      var init, x := s[..|s| - 1], s[|s| - 1];
      assert s == init + [x];
      FilterSplit(init, p, q, r);
      FilterSnoc(init, x, p);
      FilterSnoc(init, x, q);
      FilterSnoc(init, x, r);
    }
  }

  /**
   * `idx` picks, in increasing order, the positions of `b` that make up `a`:
   * `a` is `b` with some elements left out and the rest kept in their order.
   */
  ghost predicate Embeds<T>(idx: seq<int>, a: seq<T>, b: seq<T>)
  {
    && |idx| == |a|
    && (forall k :: 0 <= k < |idx| ==> 0 <= idx[k] < |b| && a[k] == b[idx[k]])
    && (forall k, l :: 0 <= k < l < |idx| ==> idx[k] < idx[l])
  }

  ghost predicate IsSubsequence<T>(a: seq<T>, b: seq<T>)
  {
    exists idx :: Embeds(idx, a, b)
  }

  /** The positions of `s` that pass `p`, in order. */
  ghost function FilterIndices<T>(s: seq<T>, p: T -> bool): seq<int>
  {
    if s == [] then []
    else FilterIndices(s[..|s| - 1], p) + (if p(s[|s| - 1]) then [|s| - 1] else [])
  }

  lemma {:induction false} FilterIndicesEmbed<T>(s: seq<T>, p: T -> bool)
    ensures Embeds(FilterIndices(s, p), Filter(s, p), s)
  {
    if s != [] {
      var init, x := s[..|s| - 1], s[|s| - 1];
      var rest, fi := FilterIndices(init, p), Filter(init, p);
      FilterIndicesEmbed(init, p);
      assert forall k :: 0 <= k < |rest| ==> rest[k] < |init| && s[rest[k]] == init[rest[k]];
      if p(x) {
        var idx, f := rest + [|s| - 1], fi + [x];
        assert FilterIndices(s, p) == idx && Filter(s, p) == f;
        forall k | 0 <= k < |idx|
          ensures 0 <= idx[k] < |s| && f[k] == s[idx[k]]
        {
          if k < |rest| { assert idx[k] == rest[k] && f[k] == fi[k]; }
        }
      } else {
        assert FilterIndices(s, p) == rest && Filter(s, p) == fi;
      }
    }
  }

  lemma FilterIsSubsequence<T>(s: seq<T>, p: T -> bool)
    ensures IsSubsequence(Filter(s, p), s)
  {
    FilterIndicesEmbed(s, p);
  }

  /** Filtering distributes over concatenation. */
  lemma {:induction false} FilterConcat<T>(a: seq<T>, b: seq<T>, p: T -> bool)
    ensures Filter(a + b, p) == Filter(a, p) + Filter(b, p)
    decreases |b|
  {
    if b == [] {
      assert a + b == a;
    } else {
      var ab, init, x := a + b, b[..|b| - 1], b[|b| - 1];
      var tail := if p(x) then [x] else [];
      assert ab[..|ab| - 1] == a + init && ab[|ab| - 1] == x;
      assert Filter(ab, p) == Filter(a + init, p) + tail;
      assert Filter(b, p) == Filter(init, p) + tail;
      FilterConcat(a, init, p);
    }
  }

  /** A filter that every element passes changes nothing. */
  lemma {:induction false} FilterKeepsAll<T>(s: seq<T>, p: T -> bool)
    requires forall x :: x in s ==> p(x)
    ensures Filter(s, p) == s
  {
    if s != [] {
      var init, x := s[..|s| - 1], s[|s| - 1];
      assert p(x);
      FilterKeepsAll(init, p);
      assert Filter(s, p) == Filter(init, p) + [x];
      assert init + [x] == s;
    }
  }

  /** Removing the element at `i` removes it from the filter, if it passed. */
  lemma FilterLengthRemoveAt<T>(t: seq<T>, i: int, p: T -> bool)
    requires 0 <= i < |t|
    ensures |Filter(t, p)| == |Filter(t[..i] + t[i + 1..], p)| + (if p(t[i]) then 1 else 0)
  {
    assert t == t[..i] + [t[i]] + t[i + 1..];
    FilterConcat(t[..i] + [t[i]], t[i + 1..], p);
    FilterConcat(t[..i], [t[i]], p);
    FilterConcat(t[..i], t[i + 1..], p);
    assert Filter([t[i]], p) == Filter([], p) + (if p(t[i]) then [t[i]] else []);
  }

  lemma MultisetRemoveAt<T>(t: seq<T>, i: int)
    requires 0 <= i < |t|
    ensures multiset(t) == multiset(t[..i] + t[i + 1..]) + multiset{t[i]}
  {
    assert t == t[..i] + [t[i]] + t[i + 1..];
  }

  /** The length of a filter depends only on the multiset of elements, not their order. */
  lemma {:induction false} FilterLengthPermutation<T>(s: seq<T>, t: seq<T>, p: T -> bool)
    requires multiset(s) == multiset(t)
    ensures |Filter(s, p)| == |Filter(t, p)|
    decreases |s|
  {
    if s == [] {
      assert |t| == |multiset(t)|;
    } else {
      var init, x := s[..|s| - 1], s[|s| - 1];
      MultisetRemoveAt(s, |s| - 1);
      assert s[..|s| - 1] + s[|s|..] == init;
      assert x in multiset(t);
      var i :| 0 <= i < |t| && t[i] == x;
      var rest := t[..i] + t[i + 1..];
      MultisetRemoveAt(t, i);
      assert multiset(init) == multiset(rest) by {
        forall y ensures multiset(init)[y] == multiset(rest)[y] {
          assert (multiset(init) + multiset{x})[y] == (multiset(rest) + multiset{x})[y];
        }
      }
      FilterLengthPermutation(init, rest, p);
      FilterLengthRemoveAt(s, |s| - 1, p);
      FilterLengthRemoveAt(t, i, p);
    }
  }

  lemma SubsequenceTransitive<T>(a: seq<T>, b: seq<T>, c: seq<T>)
    requires IsSubsequence(a, b) && IsSubsequence(b, c)
    ensures IsSubsequence(a, c)
  {
    var ab :| Embeds(ab, a, b);
    var bc :| Embeds(bc, b, c);
    var ac := seq(|ab|, k requires 0 <= k < |ab| => bc[ab[k]]);
    assert Embeds(ac, a, c);
  }

  /** A filter that no element passes leaves nothing. */
  lemma {:induction false} FilterKeepsNone<T>(s: seq<T>, p: T -> bool)
    requires forall x :: x in s ==> !p(x)
    ensures Filter(s, p) == []
  {
    if s != [] {
      FilterKeepsNone(s[..|s| - 1], p);
    }
  }

  /** Filters whose tests agree on every element keep the same elements. */
  lemma {:induction false} FilterSamePredicate<T>(s: seq<T>, p: T -> bool, q: T -> bool)
    requires forall x :: x in s ==> p(x) == q(x)
    ensures Filter(s, p) == Filter(s, q)
  {
    if s != [] {
      FilterSamePredicate(s[..|s| - 1], p, q);
    }
  }
}
