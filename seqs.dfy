/**
 * The array operations the pages build their views from:
 * `Array.prototype.filter`, `map`, `slice`, and the distinct-values idiom
 * `[...new Set(xs)]`, together with the laws the views rely on.
 */
module Seqs {

  import opened Wrappers

  // ---------------------------------------------------------------- subsequence

  /** `a` is `b` with some elements removed, the rest in their original order. */
  predicate IsSubsequence<T(==)>(a: seq<T>, b: seq<T>)
    decreases |b|
  {
    if a == [] then true
    else if b == [] then false
    else if a[0] == b[0] then IsSubsequence(a[1..], b[1..])
    else IsSubsequence(a, b[1..])
  }

  lemma {:induction false} SubsequenceOfSelf<T>(s: seq<T>)
    ensures IsSubsequence(s, s)
    decreases |s|
  {
    if s != [] { SubsequenceOfSelf(s[1..]); }
  }

  /** A subsequence is never longer and all its elements come from the original. */
  lemma {:induction false} SubsequenceElements<T>(a: seq<T>, b: seq<T>)
    requires IsSubsequence(a, b)
    ensures |a| <= |b|
    ensures forall x :: x in a ==> x in b
    decreases |b|
  {
    if a != [] {
      if a[0] == b[0] {
        SubsequenceElements(a[1..], b[1..]);
        forall x | x in a ensures x in b {
          if x != a[0] { assert x in a[1..]; }
        }
      } else {
        SubsequenceElements(a, b[1..]);
      }
    }
  }

  // ---------------------------------------------------------------- filter

  /**
   * `s.filter(p)`: the elements meeting `p`, in their order, each kept as
   * many times as it occurs.
   */
  function Filter<T(==)>(s: seq<T>, p: T -> bool): (r: seq<T>)
    ensures IsSubsequence(r, s)
    ensures forall x :: x in r ==> p(x)
    ensures forall x :: x in s && p(x) ==> x in r
    ensures forall x :: x in r ==> x in s
    decreases |s|
  {
    if s == [] then []
    else if p(s[0]) then [s[0]] + Filter(s[1..], p)
    else Filter(s[1..], p)
  }

  /** Each element that meets `p` is kept as many times as it occurs, every other one not at all. */
  lemma {:induction false} FilterMultiplicity<T>(s: seq<T>, p: T -> bool)
    ensures forall x :: x in s ==> multiset(Filter(s, p))[x] == if p(x) then multiset(s)[x] else 0
    decreases |s|
  {
    if s != [] {
      assert s == [s[0]] + s[1..];
      FilterMultiplicity(s[1..], p);
    }
  }

  /** Filtering is idempotent: the result already satisfies the predicate. */
  lemma {:induction false} FilterIdempotent<T>(s: seq<T>, p: T -> bool)
    ensures Filter(Filter(s, p), p) == Filter(s, p)
  {
    FilterAll(Filter(s, p), p);
  }

  /** A predicate that every element meets keeps the list unchanged. */
  lemma {:induction false} FilterAll<T>(s: seq<T>, p: T -> bool)
    requires forall x :: x in s ==> p(x)
    ensures Filter(s, p) == s
    decreases |s|
  {
    if s != [] {
      assert s[0] in s;
      assert forall x :: x in s[1..] ==> x in s;
      FilterAll(s[1..], p);
    }
  }

  /** Filtering with no qualifying element empties the list. */
  lemma {:induction false} FilterNone<T>(s: seq<T>, p: T -> bool)
    requires forall x :: x in s ==> !p(x)
    ensures Filter(s, p) == []
    decreases |s|
  {
    if s != [] {
      assert s[0] in s;
      assert forall x :: x in s[1..] ==> x in s;
      FilterNone(s[1..], p);
    }
  }

  /**
   * Filtering by a stronger predicate is filtering the weaker result again,
   * so the stronger result is a subsequence of the weaker one.
   */
  lemma {:induction false} FilterStronger<T>(s: seq<T>, p: T -> bool, q: T -> bool)
    requires forall x :: q(x) ==> p(x)
    ensures Filter(s, q) == Filter(Filter(s, p), q)
    ensures IsSubsequence(Filter(s, q), Filter(s, p))
    decreases |s|
  {
    if s != [] {
      FilterStronger(s[1..], p, q);
    }
  }

  /** Two predicates that agree on the list give the same result. */
  lemma {:induction false} FilterExtensional<T>(s: seq<T>, p: T -> bool, q: T -> bool)
    requires forall x :: x in s ==> (p(x) <==> q(x))
    ensures Filter(s, p) == Filter(s, q)
    decreases |s|
  {
    if s != [] {
      assert s[0] in s;
      assert forall x :: x in s[1..] ==> x in s;
      FilterExtensional(s[1..], p, q);
    }
  }

  /** The number of elements meeting `p`: the `length` of the filtered list. */
  function Count<T(==)>(s: seq<T>, p: T -> bool): (n: nat)
    ensures n <= |s|
  {
    SubsequenceElements(Filter(s, p), s);
    |Filter(s, p)|
  }

  /**
   * When no element meets both `p` and `q`, the elements meeting either
   * (`either`) are counted by adding the two counts, which then cannot
   * exceed the length.
   */
  lemma {:induction false} CountDisjoint<T>(s: seq<T>, p: T -> bool, q: T -> bool, either: T -> bool)
    requires forall x :: x in s ==> !(p(x) && q(x))
    requires forall x :: x in s ==> (either(x) <==> p(x) || q(x))
    ensures Count(s, p) + Count(s, q) == Count(s, either)
    ensures Count(s, p) + Count(s, q) <= |s|
    decreases |s|
  {
    if s != [] {
      CountDisjoint(s[1..], p, q, either);
    }
  }

  // ---------------------------------------------------------------- find

  /** `i` is the position of the first element of `s` meeting `p`. */
  ghost predicate IsFirstMatch<T>(s: seq<T>, p: T -> bool, i: int)
  {
    0 <= i < |s| && p(s[i]) && forall j :: 0 <= j < i ==> !p(s[j])
  }

  /** `s.find(p)`: the first element meeting `p`, or nothing. */
  function FindFirst<T>(s: seq<T>, p: T -> bool): (r: Option<T>)
    ensures r.None? <==> forall i :: 0 <= i < |s| ==> !p(s[i])
    ensures r.Some? ==> exists i :: IsFirstMatch(s, p, i) && s[i] == r.value
    decreases |s|
  {
    if s == [] then None
    else if p(s[0]) then
      assert IsFirstMatch(s, p, 0);
      Some(s[0])
    else
      var r := FindFirst(s[1..], p);
      assert r.Some? ==> exists i :: IsFirstMatch(s, p, i) && s[i] == r.value by {
        if r.Some? {
          var i :| IsFirstMatch(s[1..], p, i) && s[1..][i] == r.value;
          assert IsFirstMatch(s, p, i + 1);
        }
      }
      r
  }

  // ---------------------------------------------------------------- map

  /** `s.map(f)`. */
  function Map<T, U>(s: seq<T>, f: T -> U): (r: seq<U>)
    ensures |r| == |s|
    ensures forall i :: 0 <= i < |s| ==> r[i] == f(s[i])
  {
    seq(|s|, i requires 0 <= i < |s| => f(s[i]))
  }

  // ---------------------------------------------------------------- slice

  /** How `slice` reads one bound: negative counts from the end, then clamp to `[0, n]`. */
  function SliceBound(k: int, n: nat): (b: nat)
    ensures b <= n
    ensures 0 <= k <= n ==> b == k
    ensures k > n ==> b == n
    ensures -(n as int) <= k < 0 ==> b == n + k
    ensures k < -(n as int) ==> b == 0
  {
    if k < 0 then (if n + k < 0 then 0 else n + k) else if k > n then n else k
  }

  /**
   * `s.slice(start, end)`: the elements from the first bound up to the
   * second, each bound read by `SliceBound`, and nothing when they cross.
   */
  function JsSlice<T>(s: seq<T>, start: int, end: int): (r: seq<T>)
    ensures |r| == if SliceBound(start, |s|) <= SliceBound(end, |s|)
      then SliceBound(end, |s|) - SliceBound(start, |s|) else 0
    ensures forall i :: 0 <= i < |r| ==> SliceBound(start, |s|) + i < |s| && r[i] == s[SliceBound(start, |s|) + i]
    ensures 0 <= start <= end <= |s| ==> r == s[start..end]
    ensures 0 <= end <= start ==> r == []
  {
    var from, to := SliceBound(start, |s|), SliceBound(end, |s|);
    if from <= to then s[from..to] else []
  }

  /** `s.slice(0, k)` for a limit `k >= 0` keeps the first `min(k, |s|)` elements. */
  lemma TakeFirst<T>(s: seq<T>, k: nat)
    ensures |JsSlice(s, 0, k)| == if k <= |s| then k else |s|
    ensures JsSlice(s, 0, k) == s[..|JsSlice(s, 0, k)|]
  {
  }

  /**
   * A card's short list: `s.slice(0, limit)` followed, when the list is
   * longer, by a "+n more" line counting the elements left out.
   */
  function Preview<T>(s: seq<T>, limit: nat): (r: (seq<T>, Option<nat>))
    ensures |r.0| == if |s| < limit then |s| else limit
    ensures r.0 == s[..|r.0|]
    ensures r.1.Some? <==> |s| > limit
    ensures r.1.Some? ==> r.1.value > 0 && |r.0| + r.1.value == |s|
    ensures r.1.None? ==> r.0 == s
  {
    TakeFirst(s, limit);
    (JsSlice(s, 0, limit), if |s| > limit then Some(|s| - limit) else None)
  }

  // ---------------------------------------------------------------- distinct values

  /**
   * The values of `r` appear in `values`, and in the order of their first
   * occurrence there.
   */
  ghost predicate InFirstOccurrenceOrder<T>(r: seq<T>, values: seq<T>)
  {
    forall i, j :: 0 <= i < j < |r| ==>
      r[i] in values && r[j] in values && FirstIndex(values, r[i]) < FirstIndex(values, r[j])
  }

  /** No value occurs twice. */
  predicate NoDuplicates<T(==)>(s: seq<T>)
  {
    forall i, j :: 0 <= i < j < |s| ==> s[i] != s[j]
  }

  /** Position of the first occurrence of `x` in `s`. */
  function FirstIndex<T(==)>(s: seq<T>, x: T): (k: nat)
    requires x in s
    ensures k < |s| && s[k] == x && x !in s[..k]
  {
    if s[0] == x then 0 else 1 + FirstIndex(s[1..], x)
  }

  /**
   * `[...new Set(s)]`: inserting the values of `s` left to right into a set
   * and reading the set back in insertion order.
   */
  function Distinct<T(==)>(s: seq<T>): (r: seq<T>)
    decreases |s|
  {
    if s == [] then []
    else
      var prefix := Distinct(s[..|s| - 1]);
      if s[|s| - 1] in prefix then prefix else prefix + [s[|s| - 1]]
  }

  /**
   * The distinct values are duplicate-free, are exactly the values of `s`,
   * and appear in the order in which they first occur in `s`.
   */
  lemma {:induction false} DistinctSpec<T>(s: seq<T>)
    ensures NoDuplicates(Distinct(s))
    ensures forall x :: x in Distinct(s) <==> x in s
    ensures forall i, j :: 0 <= i < j < |Distinct(s)| ==>
      FirstIndex(s, Distinct(s)[i]) < FirstIndex(s, Distinct(s)[j])
    decreases |s|
  {
    if s != [] {
      var init, last := s[..|s| - 1], s[|s| - 1];
      var prefix := Distinct(init);
      DistinctSpec(init);
      assert s == init + [last];
      forall x | x in init ensures FirstIndex(s, x) == FirstIndex(init, x) {
        FirstIndexOfExtension(init, [last], x);
      }
      if last !in prefix {
        var r := prefix + [last];
        assert last !in init;
        assert FirstIndex(s, last) == |s| - 1 by {
          assert forall k :: 0 <= k < |s| - 1 ==> s[k] == init[k] && init[k] in init;
        }
        forall i, j | 0 <= i < j < |r| ensures FirstIndex(s, r[i]) < FirstIndex(s, r[j]) {
          if j < |prefix| {
            assert r[i] == prefix[i] && r[j] == prefix[j];
          } else {
            assert r[i] == prefix[i] && prefix[i] in prefix;
          }
        }
      }
    }
  }

  /** The first occurrence in a prefix is the first occurrence in the whole list. */
  lemma {:induction false} FirstIndexOfExtension<T>(a: seq<T>, b: seq<T>, x: T)
    requires x in a
    ensures FirstIndex(a + b, x) == FirstIndex(a, x)
    decreases |a|
  {
    if a[0] != x {
      assert (a + b)[1..] == a[1..] + b;
      FirstIndexOfExtension(a[1..], b, x);
    }
  }

  /**
   * `[...new Set(s.map(f))]`: the option list of a filter select, built
   * from one field of every record.
   */
  function DistinctValues<T, U(==)>(s: seq<T>, f: T -> U): (r: seq<U>)
    ensures NoDuplicates(r)
    ensures forall y :: y in r ==> y in Map(s, f)
    ensures forall y :: y in r ==> exists i :: 0 <= i < |s| && f(s[i]) == y
    ensures forall i :: 0 <= i < |s| ==> f(s[i]) in r
    ensures InFirstOccurrenceOrder(r, Map(s, f))
  {
    var values := Map(s, f);
    DistinctSpec(values);
    assert forall i :: 0 <= i < |s| ==> values[i] in values;
    Distinct(values)
  }

  /** Over an empty collection there are no options; a repeated value is listed once. */
  lemma DistinctExamples()
    ensures Distinct<int>([]) == []
    ensures Distinct([1, 2, 1, 3, 2]) == [1, 2, 3]
  {
    assert [1, 2, 1, 3, 2][..4] == [1, 2, 1, 3];
    assert [1, 2, 1, 3][..3] == [1, 2, 1];
    assert [1, 2, 1][..2] == [1, 2];
    assert [1, 2][..1] == [1];
    assert [1][..0] == [];
  }
}
