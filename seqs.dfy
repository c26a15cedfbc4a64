/**
 * Sequence helpers shared by the modules: list comprehensions with an `if`
 * (Filter), first-match loops (IndexWhere / Find), order-preserving
 * de-duplication (Dedup) and flattening (Concat).
 */
module Seqs {
  import opened Wrappers

  /** `r` is obtained from `s` by deleting elements, keeping the order. */
  predicate IsSubseq<T(==)>(r: seq<T>, s: seq<T>)
    decreases |s|
  {
    r == [] || (s != [] && ((r[0] == s[0] && IsSubseq(r[1..], s[1..])) || IsSubseq(r, s[1..])))
  }

  /** `[x for x in s if p(x)]`. */
  function Filter<T>(s: seq<T>, p: T -> bool): seq<T>
  {
    if s == [] then [] else (if p(s[0]) then [s[0]] else []) + Filter(s[1..], p)
  }

  /** A filter keeps every element that passes, as often as it occurs, and nothing else. */
  lemma {:induction false} FilterMultiset<T(!new)>(s: seq<T>, p: T -> bool)
    ensures forall x :: multiset(Filter(s, p))[x] == if p(x) then multiset(s)[x] else 0
    ensures forall x :: x in Filter(s, p) <==> x in s && p(x)
    ensures |Filter(s, p)| <= |s|
    decreases |s|
  {
    if s != [] {
      FilterMultiset(s[1..], p);
      assert s == [s[0]] + s[1..];
    }
  }

  /** A filter keeps the input order. */
  lemma {:induction false} FilterSubseq<T>(s: seq<T>, p: T -> bool)
    ensures IsSubseq(Filter(s, p), s)
    decreases |s|
  {
    if s != [] {
      FilterSubseq(s[1..], p);
      var r := Filter(s, p);
      if p(s[0]) {
        assert r == [s[0]] + Filter(s[1..], p);
        assert r[0] == s[0] && r[1..] == Filter(s[1..], p);
      } else {
        assert r == Filter(s[1..], p);
      }
    }
  }

  lemma {:induction false} FilterAppend<T>(a: seq<T>, b: seq<T>, p: T -> bool)
    ensures Filter(a + b, p) == Filter(a, p) + Filter(b, p)
    decreases |a|
  {
    if a == [] {
      assert a + b == b;
    } else {
      var h := if p(a[0]) then [a[0]] else [];
      assert (a + b)[0] == a[0];
      assert (a + b)[1..] == a[1..] + b;
      assert Filter(a + b, p) == h + Filter(a[1..] + b, p);
      FilterAppend(a[1..], b, p);
      assert Filter(a, p) == h + Filter(a[1..], p);
      assert h + (Filter(a[1..], p) + Filter(b, p)) == (h + Filter(a[1..], p)) + Filter(b, p);
    }
  }

  /** Whatever a suffix holds, the whole sequence holds. */
  /** The first element of `s` followed by a prefix of the rest is a prefix of `s`. */
  lemma ConsPrefix<T>(s: seq<T>, i: nat, r: seq<T>)
    requires 0 < i <= |s|
    ensures [s[0]] + (s[1..][..i - 1] + r) == s[..i] + r
  {
    assert [s[0]] + s[1..][..i - 1] == s[..i];
  }

  lemma InSuffix<T>(s: seq<T>, k: nat, t: seq<T>)
    requires k <= |s| && t == s[k..]
    ensures forall x :: x in t ==> x in s
  {
    forall x | x in t ensures x in s {
      var i :| 0 <= i < |t| && t[i] == x;
      assert s[k + i] == x;
    }
  }

  /** A relation that holds position by position still does after appending a related pair. */
  lemma AllPairsAppend<A, B>(xs: seq<A>, ys: seq<B>, x: A, y: B, rel: (A, B) -> bool)
    requires |xs| == |ys|
    requires forall i :: 0 <= i < |xs| ==> rel(xs[i], ys[i])
    requires rel(x, y)
    ensures forall i :: 0 <= i < |xs| + 1 ==> rel((xs + [x])[i], (ys + [y])[i])
  {
    forall i | 0 <= i < |xs| + 1 ensures rel((xs + [x])[i], (ys + [y])[i]) {
      if i < |xs| {
        assert (xs + [x])[i] == xs[i] && (ys + [y])[i] == ys[i];
      }
    }
  }

  /** A filter whose test holds everywhere keeps the whole input. */
  lemma {:induction false} FilterAll<T>(s: seq<T>, p: T -> bool)
    requires forall i :: 0 <= i < |s| ==> p(s[i])
    ensures Filter(s, p) == s
    decreases |s|
  {
    if s != [] {
      FilterAll(s[1..], p);
    }
  }

  /** Filtering twice is filtering once by the conjunction. */
  lemma {:induction false} FilterFilter<T>(s: seq<T>, p: T -> bool, q: T -> bool)
    ensures Filter(Filter(s, p), q) == Filter(s, x => p(x) && q(x))
    decreases |s|
  {
    if s != [] {
      FilterFilter(s[1..], p, q);
      if p(s[0]) {
        var fp := Filter(s, p);
        assert fp == [s[0]] + Filter(s[1..], p);
        assert fp[0] == s[0] && fp[1..] == Filter(s[1..], p);
      } else {
        assert Filter(s, p) == Filter(s[1..], p);
      }
    }
  }

  /** Filters whose tests agree on the input keep the same elements. */
  lemma {:induction false} FilterCong<T>(s: seq<T>, p: T -> bool, q: T -> bool)
    requires forall i :: 0 <= i < |s| ==> p(s[i]) == q(s[i])
    ensures Filter(s, p) == Filter(s, q)
    decreases |s|
  {
    if s != [] {
      assert forall i :: 0 <= i < |s[1..]| ==> s[1..][i] == s[i + 1];
      FilterCong(s[1..], p, q);
    }
  }

  /** Two filters in a row are one filter by any test equal to their conjunction on the input. */
  lemma FilterFilterCong<T>(s: seq<T>, p: T -> bool, q: T -> bool, r: T -> bool)
    requires forall i :: 0 <= i < |s| ==> r(s[i]) == (p(s[i]) && q(s[i]))
    ensures Filter(Filter(s, p), q) == Filter(s, r)
  {
    FilterFilter(s, p, q);
    FilterCong(s, x => p(x) && q(x), r);
  }

  /** Index of the first element satisfying `p`, or `|s|` when there is none. */
  function IndexWhere<T>(s: seq<T>, p: T -> bool): (i: nat)
    ensures i <= |s|
    ensures forall j :: 0 <= j < i ==> !p(s[j])
    ensures i < |s| ==> p(s[i])
  {
    if s == [] then 0 else if p(s[0]) then 0 else 1 + IndexWhere(s[1..], p)
  }

  /** The first element satisfying `p`. */
  function Find<T>(s: seq<T>, p: T -> bool): (r: Option<T>)
    ensures r.None? <==> forall j :: 0 <= j < |s| ==> !p(s[j])
    ensures r.Some? ==> exists i :: 0 <= i < |s| && s[i] == r.value && p(s[i]) && forall j :: 0 <= j < i ==> !p(s[j])
  {
    var i := IndexWhere(s, p);
    if i < |s| then Some(s[i]) else None
  }

  /** The first match in a concatenation is the first match of its left part, if any, else of its right part. */
  lemma {:induction false} IndexWhereAppend<T>(a: seq<T>, b: seq<T>, p: T -> bool)
    ensures IndexWhere(a + b, p) == if IndexWhere(a, p) < |a| then IndexWhere(a, p) else |a| + IndexWhere(b, p)
    decreases |a|
  {
    if a != [] {
      assert (a + b)[1..] == a[1..] + b;
      IndexWhereAppend(a[1..], b, p);
    } else {
      assert a + b == b;
    }
  }

  lemma FindAppend<T>(a: seq<T>, b: seq<T>, p: T -> bool)
    ensures Find(a + b, p) == if Find(a, p).Some? then Find(a, p) else Find(b, p)
  {
    IndexWhereAppend(a, b, p);
    var i := IndexWhere(a, p);
    if i < |a| {
      assert (a + b)[i] == a[i];
    } else {
      var j := IndexWhere(b, p);
      if j < |b| {
        assert (a + b)[|a| + j] == b[j];
      }
    }
  }

  /** Index of the first occurrence of `x` in `s`. */
  function IndexOf<T(==)>(s: seq<T>, x: T): (i: nat)
    requires x in s
    ensures i < |s| && s[i] == x && x !in s[..i]
  {
    if s[0] == x then 0 else 1 + IndexOf(s[1..], x)
  }

  lemma {:induction false} IndexOfPrefix<T>(s: seq<T>, x: T, y: T)
    requires y in s
    ensures IndexOf(s + [x], y) == IndexOf(s, y)
    decreases |s|
  {
    if s[0] != y {
      assert (s + [x])[1..] == s[1..] + [x];
      IndexOfPrefix(s[1..], x, y);
    }
  }

  /** Keeps the first occurrence of every value, in order of first occurrence. */
  function Dedup<T(==,!new)>(s: seq<T>): (r: seq<T>)
    ensures forall i, j :: 0 <= i < j < |r| ==> r[i] != r[j]
    ensures forall x :: x in r <==> x in s
    decreases |s|
  {
    if s == [] then []
    else
      var d := Dedup(s[..|s| - 1]);
      assert s == s[..|s| - 1] + [s[|s| - 1]];
      if s[|s| - 1] in d then d else d + [s[|s| - 1]]
  }

  /** Appending a value adds it to the de-duplicated list only when it is new. */
  lemma DedupUltimo<T(!new)>(s: seq<T>, x: T)
    ensures Dedup(s + [x]) == if x in Dedup(s) then Dedup(s) else Dedup(s) + [x]
  {
    assert (s + [x])[..|s|] == s;
  }

  /** Dedup lists values in the order in which they first occur in the input. */
  lemma {:induction false} DedupFirstOccurrenceOrder<T(!new)>(s: seq<T>)
    ensures forall i, j :: 0 <= i < j < |Dedup(s)| ==> IndexOf(s, Dedup(s)[i]) < IndexOf(s, Dedup(s)[j])
    decreases |s|
  {
    if s != [] {
      var s', x := s[..|s| - 1], s[|s| - 1];
      assert s == s' + [x];
      DedupFirstOccurrenceOrder(s');
      var d := Dedup(s');
      forall y | y in s' ensures IndexOf(s, y) == IndexOf(s', y) {
        IndexOfPrefix(s', x, y);
      }
      if x !in d {
        assert x !in s';
        assert IndexOf(s, x) == |s'| by {
          assert s[|s'|] == x && x !in s[..|s'|];
        }
      }
    }
  }

  /** Flattening: `for l in ss: out.extend(l)`. */
  function Concat<T>(ss: seq<seq<T>>): (r: seq<T>)
  {
    if ss == [] then [] else Concat(ss[..|ss| - 1]) + ss[|ss| - 1]
  }

  /** Total length of a list of lists. */
  function SumLengths<T>(ss: seq<seq<T>>): nat
  {
    if ss == [] then 0 else SumLengths(ss[..|ss| - 1]) + |ss[|ss| - 1]|
  }

  lemma {:induction false} ConcatLength<T>(ss: seq<seq<T>>)
    ensures |Concat(ss)| == SumLengths(ss)
    decreases |ss|
  {
    if ss != [] { ConcatLength(ss[..|ss| - 1]); }
  }

  /** How many elements satisfy `p`. */
  function CountWhere<T>(s: seq<T>, p: T -> bool): nat
  {
    if s == [] then 0 else (if p(s[0]) then 1 else 0) + CountWhere(s[1..], p)
  }

  /** Counting is the length of the filter, so never more than the length. */
  lemma {:induction false} CountWhereFilter<T>(s: seq<T>, p: T -> bool)
    ensures CountWhere(s, p) == |Filter(s, p)| <= |s|
    decreases |s|
  {
    if s != [] {
      CountWhereFilter(s[1..], p);
    }
  }

  /** Counting over a list grown at the end. */
  lemma {:induction false} CountWhereAppend<T>(s: seq<T>, x: T, p: T -> bool)
    ensures CountWhere(s + [x], p) == CountWhere(s, p) + (if p(x) then 1 else 0)
    decreases |s|
  {
    if s != [] {
      assert (s + [x])[1..] == s[1..] + [x];
      CountWhereAppend(s[1..], x, p);
    } else {
      assert s + [x] == [x];
    }
  }
}
