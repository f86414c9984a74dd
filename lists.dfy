/** Order-preserving filtering, counting and summing over sequences: the
    `Array.prototype.filter`, `.length` and `.reduce` calls of the admin pages
    and of the string helpers. */
module Lists {

  /** `s.filter(p)`: the elements of `s` that satisfy `p`, in their original order. */
  function Filter<T>(s: seq<T>, p: T -> bool): (r: seq<T>)
    ensures |r| <= |s|
    ensures forall i :: 0 <= i < |r| ==> r[i] in s && p(r[i])
    ensures forall i :: 0 <= i < |s| && p(s[i]) ==> s[i] in r
    decreases |s|
  {
    if s == [] then []
    else (if p(s[0]) then [s[0]] else []) + Filter(s[1..], p)
  }

  /** Filtering keeps every copy of an element that passes and none of one
      that fails. */
  lemma {:induction false} FilterMultiplicity<T>(s: seq<T>, p: T -> bool)
    ensures forall x :: multiset(Filter(s, p))[x] == if p(x) then multiset(s)[x] else 0
    decreases |s|
  {
    if s != [] {
      FilterMultiplicity(s[1..], p);
      assert s == [s[0]] + s[1..];
      assert Filter(s, p) == (if p(s[0]) then [s[0]] else []) + Filter(s[1..], p);
    }
  }

  /** `a` can be obtained from `b` by deleting elements, keeping the order of the rest. */
  ghost predicate IsSubsequence<T>(a: seq<T>, b: seq<T>)
    decreases |b|
  {
    a == [] ||
    (b != [] && ((a[0] == b[0] && IsSubsequence(a[1..], b[1..])) || IsSubsequence(a, b[1..])))
  }

  lemma {:induction false} FilterIsSubsequence<T>(s: seq<T>, p: T -> bool)
    ensures IsSubsequence(Filter(s, p), s)
    decreases |s|
  {
    if s != [] {
      FilterIsSubsequence(s[1..], p);
      assert Filter(s, p) == (if p(s[0]) then [s[0]] else []) + Filter(s[1..], p);
      var r := Filter(s, p);
      if p(s[0]) {
        assert r[0] == s[0] && r[1..] == Filter(s[1..], p);
        assert IsSubsequence(r[1..], s[1..]);
      } else {
        assert r == Filter(s[1..], p);
        assert IsSubsequence(r, s[1..]);
      }
    }
  }

  lemma {:induction false} FilterConcat<T>(a: seq<T>, b: seq<T>, p: T -> bool)
    ensures Filter(a + b, p) == Filter(a, p) + Filter(b, p)
    decreases |a|
  {
    if a == [] {
      assert a + b == b;
    } else {
      assert (a + b)[0] == a[0];
      assert (a + b)[1..] == a[1..] + b;
      FilterConcat(a[1..], b, p);
    }
  }

  /** Filtering a sequence whose elements all pass gives it back unchanged. */
  lemma {:induction false} FilterAllPass<T>(s: seq<T>, p: T -> bool)
    requires forall i :: 0 <= i < |s| ==> p(s[i])
    ensures Filter(s, p) == s
    decreases |s|
  {
    if s != [] {
      FilterAllPass(s[1..], p);
    }
  }

  /** Two predicates that agree on every element filter alike. */
  lemma {:induction false} FilterCongruent<T>(s: seq<T>, p: T -> bool, q: T -> bool)
    requires forall i :: 0 <= i < |s| ==> p(s[i]) == q(s[i])
    ensures Filter(s, p) == Filter(s, q)
    decreases |s|
  {
    if s != [] {
      FilterCongruent(s[1..], p, q);
    }
  }

  /** Filtering twice is filtering once by the conjunction. */
  lemma {:induction false} FilterFilter<T>(s: seq<T>, p: T -> bool, q: T -> bool)
    ensures Filter(Filter(s, p), q) == Filter(s, x => p(x) && q(x))
    decreases |s|
  {
    if s != [] {
      FilterFilter(s[1..], p, q);
      FilterConcat(if p(s[0]) then [s[0]] else [], Filter(s[1..], p), q);
    }
  }

  /** `s.some(p)`. */
  function Any<T>(s: seq<T>, p: T -> bool): (r: bool)
    ensures r <==> exists i :: 0 <= i < |s| && p(s[i])
    decreases |s|
  {
    if s == [] then false
    else p(s[0]) || (assert forall i :: 0 < i < |s| ==> s[i] == s[1..][i - 1]; Any(s[1..], p))
  }

  /** `s.reduce((sum, x) => sum + f(x), 0)`. */
  function Sum<T>(s: seq<T>, f: T -> int): int
    decreases |s|
  {
    if s == [] then 0 else f(s[0]) + Sum(s[1..], f)
  }

  /** Splitting a sequence by a predicate: what passes and what fails account for every element. */
  lemma {:induction false} FilterComplement<T>(s: seq<T>, p: T -> bool)
    ensures |Filter(s, p)| + |Filter(s, x => !p(x))| == |s|
    decreases |s|
  {
    if s != [] {
      FilterComplement(s[1..], p);
    }
  }

  /** A sum over one element put in front of a sequence. */
  lemma SumCons<T>(x: T, s: seq<T>, f: T -> int)
    ensures Sum([x] + s, f) == f(x) + Sum(s, f)
  {
    assert ([x] + s)[1..] == s;
  }

  lemma {:induction false} SumConcat<T>(a: seq<T>, b: seq<T>, f: T -> int)
    ensures Sum(a + b, f) == Sum(a, f) + Sum(b, f)
    decreases |a|
  {
    if a == [] {
      assert a + b == b;
    } else {
      assert (a + b)[1..] == a[1..] + b;
      SumConcat(a[1..], b, f);
    }
  }

  /** When the elements passing `r` are exactly those passing one of `p`
      and `q`, and none passes both, the `r`-filter splits into the `p`- and
      `q`-filters: in number and in any sum over them. */
  lemma {:induction false} FilterSplit<T>(s: seq<T>, p: T -> bool, q: T -> bool, r: T -> bool, f: T -> int)
    requires forall i :: 0 <= i < |s| ==> (r(s[i]) <==> p(s[i]) || q(s[i])) && !(p(s[i]) && q(s[i]))
    ensures |Filter(s, p)| + |Filter(s, q)| == |Filter(s, r)|
    ensures Sum(Filter(s, p), f) + Sum(Filter(s, q), f) == Sum(Filter(s, r), f)
    decreases |s|
  {
    if s != [] {
      FilterSplit(s[1..], p, q, r, f);
      var x := s[0];
      if p(x) {
        assert Filter(s, p) == [x] + Filter(s[1..], p) && Filter(s, q) == Filter(s[1..], q);
        assert Filter(s, r) == [x] + Filter(s[1..], r);
        SumCons(x, Filter(s[1..], p), f);
        SumCons(x, Filter(s[1..], r), f);
      } else if q(x) {
        assert Filter(s, q) == [x] + Filter(s[1..], q) && Filter(s, p) == Filter(s[1..], p);
        assert Filter(s, r) == [x] + Filter(s[1..], r);
        SumCons(x, Filter(s[1..], q), f);
        SumCons(x, Filter(s[1..], r), f);
      } else {
        assert Filter(s, p) == Filter(s[1..], p) && Filter(s, q) == Filter(s[1..], q);
        assert Filter(s, r) == Filter(s[1..], r);
      }
    }
  }

  /** `Math.ceil(n / size)` for a non-negative count: the least number of pages of
      `size` rows that hold `n` rows. */
  function PageCount(n: nat, size: nat): (pages: nat)
    requires size > 0
    ensures pages * size >= n
    ensures pages == 0 || (pages - 1) * size < n
  {
    (n + size - 1) / size
  }

  /** `Math.ceil(rows.length / 10)`, the page count the admin tables are
      given: every row falls on one of the pages, the last page holds at
      least one row, and there are none exactly when there are no rows. */
  function TablePages<T>(rows: seq<T>): (pages: nat)
    ensures forall i :: 0 <= i < |rows| ==> i / 10 < pages
    ensures pages == 0 <==> rows == []
    ensures pages == 0 || (pages - 1) * 10 < |rows|
  {
    PageCount(|rows|, 10)
  }
}
