/**
  Sequence operations the components apply to their record lists:
  `Array.prototype.filter`, `Array.prototype.map`, and the insertion-ordered
  de-duplication of `Array.from(new Set(xs))`, `Array.prototype.find`, with
  the lemmas the components' properties are built from.
 */
module Seqs {
  import opened Wrappers

  /** The elements of `s` that satisfy `p`, in their original order. */
  function Filter<T(==)>(s: seq<T>, p: T -> bool): (r: seq<T>)
    ensures |r| <= |s|
    ensures forall i :: 0 <= i < |r| ==> r[i] in s && p(r[i])
    ensures forall i :: 0 <= i < |s| && p(s[i]) ==> s[i] in r
    decreases |s|
  {
    if s == [] then []
    else (if p(s[0]) then [s[0]] else []) + Filter(s[1..], p)
  }

  /** `f` applied to every element of `s`, position by position. */
  function Map<T, U>(s: seq<T>, f: T -> U): (r: seq<U>)
  {
    seq(|s|, i requires 0 <= i < |s| => f(s[i]))
  }

  /** `a` is `b` with some elements left out and the rest kept in order. */
  predicate IsSubsequence<T(==)>(a: seq<T>, b: seq<T>)
    decreases |b|
  {
    a == [] ||
    (b != [] && ((a[0] == b[0] && IsSubsequence(a[1..], b[1..])) || IsSubsequence(a, b[1..])))
  }

  /** No value occurs twice in `s`. */
  predicate NoDuplicates<T(==)>(s: seq<T>)
  {
    forall i, j :: 0 <= i < j < |s| ==> s[i] != s[j]
  }

  /** The position of the first occurrence of `x` in `s`. */
  function IndexOf<T(==)>(s: seq<T>, x: T): (k: nat)
    requires x in s
    ensures k < |s| && s[k] == x && x !in s[..k]
    decreases |s|
  {
    if x in s[..|s| - 1] then IndexOf(s[..|s| - 1], x)
    else
      assert s == s[..|s| - 1] + [s[|s| - 1]];
      |s| - 1
  }

  /**
    The distinct values of `s`, each where it first occurs: the elements are
    added to an insertion-ordered set from left to right, as a JavaScript
    `Set` does.
   */
  function Dedup<T(==)>(s: seq<T>): (r: seq<T>)
    ensures forall i :: 0 <= i < |r| ==> r[i] in s
    ensures forall i :: 0 <= i < |s| ==> s[i] in r
    ensures NoDuplicates(r)
    decreases |s|
  {
    if s == [] then []
    else
      var d := Dedup(s[..|s| - 1]);
      assert s == s[..|s| - 1] + [s[|s| - 1]];
      if s[|s| - 1] in d then d else d + [s[|s| - 1]]
  }

  /** Filtering keeps the order of what it keeps. */
  lemma {:induction false} FilterIsSubsequence<T>(s: seq<T>, p: T -> bool)
    ensures IsSubsequence(Filter(s, p), s)
    decreases |s|
  {
    if s != [] {
      FilterIsSubsequence(s[1..], p);
      if !p(s[0]) && Filter(s[1..], p) != [] {
        assert Filter(s, p) == Filter(s[1..], p);
      }
    }
  }

  /** A filter that every element passes changes nothing. */
  lemma {:induction false} FilterAllPass<T>(s: seq<T>, p: T -> bool)
    requires forall i :: 0 <= i < |s| ==> p(s[i])
    ensures Filter(s, p) == s
    decreases |s|
  {
    if s != [] {
      FilterAllPass(s[1..], p);
      assert [s[0]] + s[1..] == s;
    }
  }

  /** A filter that no element passes leaves nothing. */
  lemma FilterNonePass<T>(s: seq<T>, p: T -> bool)
    requires forall i :: 0 <= i < |s| ==> !p(s[i])
    ensures Filter(s, p) == []
  {
  }

  /**
    Splitting the survivors of `p` by a condition `c` into `p && c` and
    `p && !c` loses and duplicates nothing: the two counts add up.
   */
  lemma {:induction false} FilterSplit<T>(s: seq<T>, p: T -> bool, c: T -> bool, yes: T -> bool, no: T -> bool)
    requires forall x :: yes(x) == (p(x) && c(x))
    requires forall x :: no(x) == (p(x) && !c(x))
    ensures |Filter(s, yes)| + |Filter(s, no)| == |Filter(s, p)|
    decreases |s|
  {
    if s != [] {
      FilterSplit(s[1..], p, c, yes, no);
    }
  }

  /** A condition and its negation split a sequence between them: the two counts add up to its length. */
  lemma {:induction false} FilterComplementCount<T>(s: seq<T>, c: T -> bool, no: T -> bool)
    requires forall x :: no(x) == !c(x)
    ensures |Filter(s, c)| + |Filter(s, no)| == |s|
    decreases |s|
  {
    if s != [] {
      FilterComplementCount(s[1..], c, no);
    }
  }

  /** `Map` commutes with dropping the first element. */
  lemma MapTail<T, U>(s: seq<T>, f: T -> U)
    requires s != []
    ensures Map(s, f) == [f(s[0])] + Map(s[1..], f)
  {
  }

  /**
    When `f` never makes an element start satisfying `p` (`p(f(x))` implies
    `q(x)`), mapping cannot increase the number of elements that pass; when
    moreover some element passed `q` and fails `p` after `f`, the number
    strictly decreases.
   */
  lemma {:induction false} FilterOfMapCount<T, U>(s: seq<T>, f: T -> U, p: U -> bool, q: T -> bool)
    requires forall x :: p(f(x)) ==> q(x)
    ensures |Filter(Map(s, f), p)| <= |Filter(s, q)|
    ensures (exists i :: 0 <= i < |s| && q(s[i]) && !p(f(s[i]))) ==> |Filter(Map(s, f), p)| < |Filter(s, q)|
    decreases |s|
  {
    if s != [] {
      MapTail(s, f);
      FilterOfMapCount(s[1..], f, p, q);
      var m := Map(s, f);
      assert m[0] == f(s[0]) && m[1..] == Map(s[1..], f);
      assert Filter(m, p) == (if p(m[0]) then [m[0]] else []) + Filter(Map(s[1..], f), p);
      if exists i :: 0 <= i < |s| && q(s[i]) && !p(f(s[i])) {
        var i :| 0 <= i < |s| && q(s[i]) && !p(f(s[i]));
        if i > 0 {
          assert q(s[1..][i - 1]) && !p(f(s[1..][i - 1]));
        }
      }
    }
  }

  /**
    The distinct values come in the order of their first occurrences: of two
    entries of `Dedup(s)`, the earlier one first occurs earlier in `s`.
   */
  lemma {:induction false} DedupFirstOccurrenceOrder<T>(s: seq<T>, i: int, j: int)
    requires 0 <= i < j < |Dedup(s)|
    ensures Dedup(s)[i] in s && Dedup(s)[j] in s
    ensures IndexOf(s, Dedup(s)[i]) < IndexOf(s, Dedup(s)[j])
    decreases |s|
  {
    var p := s[..|s| - 1];
    var d := Dedup(p);
    var last := s[|s| - 1];
    assert Dedup(s) == if last in d then d else d + [last];
    assert Dedup(s)[i] in Dedup(s) && Dedup(s)[j] in Dedup(s);
    if j < |d| {
      DedupFirstOccurrenceOrder(p, i, j);
      assert d[i] in p && d[j] in p;
    } else {
      assert d[i] in d;
      assert d[i] in p;
      assert last !in p;
    }
  }

  /** `s.find(p)`: the first element that satisfies `p`, or `None` (the source's `undefined`). */
  function FindFirst<T>(s: seq<T>, p: T -> bool): (r: Option<T>)
    ensures r.None? <==> forall i :: 0 <= i < |s| ==> !p(s[i])
    ensures r.Some? ==> p(r.value) && r.value in s
    decreases |s|
  {
    if s == [] then None
    else if p(s[0]) then Some(s[0])
    else
      var r := FindFirst(s[1..], p);
      assert forall i :: 1 <= i < |s| ==> s[i] == s[1..][i - 1];
      r
  }

  /** `find` returns the element at the first position that satisfies `p`. */
  lemma {:induction false} FindFirstAt<T>(s: seq<T>, p: T -> bool, k: int)
    requires 0 <= k < |s| && p(s[k])
    requires forall j :: 0 <= j < k ==> !p(s[j])
    ensures FindFirst(s, p) == Some(s[k])
    decreases |s|
  {
    if k > 0 {
      FindFirstAt(s[1..], p, k - 1);
    }
  }
}
