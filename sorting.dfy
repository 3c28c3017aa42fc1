/**
 * The library sorts the telemetry code calls (`sorted()`, `sortBy { key }`): a stable sort
 * under a total preorder, written here as insertion sort.
 */
module Sorting {

  /** `leq` compares two elements by key: it is total and transitive. */
  ghost predicate TotalPreorder<T(!new)>(leq: (T, T) -> bool) {
    && (forall a, b :: leq(a, b) || leq(b, a))
    && (forall a, b, c :: leq(a, b) && leq(b, c) ==> leq(a, c))
  }

  predicate Sorted<T>(s: seq<T>, leq: (T, T) -> bool) {
    forall i, j :: 0 <= i < j < |s| ==> leq(s[i], s[j])
  }

  /**
   * Puts `x` in front of the first element it does not exceed; elements equal to `x` stay
   * behind it, which keeps the sort stable.
   */
  function Insert<T>(x: T, s: seq<T>, leq: (T, T) -> bool): (r: seq<T>)
    ensures |r| == |s| + 1
    ensures multiset(r) == multiset(s) + multiset{x}
  {
    if s == [] then [x]
    else if leq(x, s[0]) then [x] + s
    else
      assert s == [s[0]] + s[1..];
      [s[0]] + Insert(x, s[1..], leq)
  }

  /** Stable sort of `s` under `leq`. */
  function SortBy<T>(s: seq<T>, leq: (T, T) -> bool): (r: seq<T>)
    ensures |r| == |s|
    ensures multiset(r) == multiset(s)
  {
    if s == [] then []
    else
      assert s == [s[0]] + s[1..];
      Insert(s[0], SortBy(s[1..], leq), leq)
  }

  lemma {:induction false} InsertSorted<T(!new)>(x: T, s: seq<T>, leq: (T, T) -> bool)
    requires TotalPreorder(leq)
    requires Sorted(s, leq)
    ensures Sorted(Insert(x, s, leq), leq)
  {
    if s != [] && !leq(x, s[0]) {
      var tail := Insert(x, s[1..], leq);
      InsertSorted(x, s[1..], leq);
      forall k | 0 <= k < |tail| ensures leq(s[0], tail[k]) {
        assert tail[k] in multiset(s[1..]) + multiset{x};
        if tail[k] != x {
          assert tail[k] in s[1..];
          var j :| 0 <= j < |s[1..]| && s[1..][j] == tail[k];
          assert s[j + 1] == tail[k];
        }
      }
    }
  }

  /** The result of `SortBy` is sorted. */
  lemma {:induction false} SortBySorted<T(!new)>(s: seq<T>, leq: (T, T) -> bool)
    requires TotalPreorder(leq)
    ensures Sorted(SortBy(s, leq), leq)
  {
    if s != [] {
      SortBySorted(s[1..], leq);
      InsertSorted(s[0], SortBy(s[1..], leq), leq);
    }
  }

  /** `a` and `b` have equal keys. */
  predicate Equivalent<T>(a: T, b: T, leq: (T, T) -> bool) {
    leq(a, b) && leq(b, a)
  }

  /** The elements of `s` whose key equals that of `x`, in their order in `s`. */
  function EquivalentsOf<T>(s: seq<T>, x: T, leq: (T, T) -> bool): seq<T> {
    if s == [] then []
    else (if Equivalent(s[0], x, leq) then [s[0]] else []) + EquivalentsOf(s[1..], x, leq)
  }

  /** Inserting `y` puts it in front of every element already there with the same key. */
  lemma {:induction false} InsertEquivalents<T(!new)>(y: T, t: seq<T>, x: T, leq: (T, T) -> bool)
    requires forall e :: leq(y, x) && leq(x, e) ==> leq(y, e)
    ensures EquivalentsOf(Insert(y, t, leq), x, leq)
      == (if Equivalent(y, x, leq) then [y] else []) + EquivalentsOf(t, x, leq)
  {
    if t == [] || leq(y, t[0]) {
      assert Insert(y, t, leq) == [y] + t;
      EquivalentsCons(y, t, x, leq);
    } else {
      var t0 := t[0];
      var rest := Insert(y, t[1..], leq);
      assert Insert(y, t, leq) == [t0] + rest;
      assert t == [t0] + t[1..];
      EquivalentsCons(t0, rest, x, leq);
      EquivalentsCons(t0, t[1..], x, leq);
      InsertEquivalents(y, t[1..], x, leq);
      assert leq(y, x) && leq(x, t0) ==> leq(y, t0);
      SwapEmpty(if Equivalent(t0, x, leq) then [t0] else [], if Equivalent(y, x, leq) then [y] else [],
        EquivalentsOf(t[1..], x, leq));
    }
  }

  /** The first element joins the equivalents when its key equals that of `x`. */
  lemma EquivalentsCons<T>(h: T, s: seq<T>, x: T, leq: (T, T) -> bool)
    ensures EquivalentsOf([h] + s, x, leq) == (if Equivalent(h, x, leq) then [h] else []) + EquivalentsOf(s, x, leq)
  {
    assert ([h] + s)[1..] == s;
  }

  /** Two prefixes, one of them empty, can be swapped. */
  lemma SwapEmpty<T>(a: seq<T>, b: seq<T>, e: seq<T>)
    requires a == [] || b == []
    ensures a + (b + e) == b + (a + e)
  {
    if a == [] {
      assert a + (b + e) == b + e == b + (a + e);
    } else {
      assert a + (b + e) == a + e == b + (a + e);
    }
  }

  /**
   * The sort is stable: the elements sharing a key keep their relative order, so for every key
   * they appear in the result exactly as in the input.
   */
  lemma {:induction false} SortByStable<T(!new)>(s: seq<T>, x: T, leq: (T, T) -> bool)
    requires TotalPreorder(leq)
    ensures EquivalentsOf(SortBy(s, leq), x, leq) == EquivalentsOf(s, x, leq)
  {
    if s != [] {
      SortByStable(s[1..], x, leq);
      InsertEquivalents(s[0], SortBy(s[1..], leq), x, leq);
    }
  }
}
