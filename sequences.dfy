/**
 * Generic operations on sequences that stand in for the pandas calls of the
 * pipelines: boolean-mask filtering, `drop_duplicates` (keep the first row per
 * key) and `sorted(set(...))` (strictly ascending listing of the elements).
 */
module Sequences {
  import opened Wrappers

  /** The elements of a sequence, as a set. */
  function Elems<T(==)>(s: seq<T>): set<T>
  {
    set x | x in s
  }

  /** The keys of the elements of a sequence. */
  function KeysOf<T(==), K(==)>(s: seq<T>, key: T -> K): set<K>
  {
    set x | x in s :: key(x)
  }

  /** The elements of `s` that satisfy `p`, in order (a boolean row mask). */
  function Filter<T(!new)>(s: seq<T>, p: T -> bool): (r: seq<T>)
    ensures |r| <= |s|
    ensures forall x :: x in r <==> x in s && p(x)
  {
    if s == [] then [] else (if p(s[0]) then [s[0]] else []) + Filter(s[1..], p)
  }

  lemma {:induction false} FilterAppend<T(!new)>(a: seq<T>, b: seq<T>, p: T -> bool)
    ensures Filter(a + b, p) == Filter(a, p) + Filter(b, p)
  {
    if a == [] {
      assert a + b == b;
    } else {
      assert (a + b)[1..] == a[1..] + b;
      FilterAppend(a[1..], b, p);
    }
  }

  /**
   * Keeps, for every key, the first element of `s` that has it (pandas
   * `drop_duplicates(subset)` with the default `keep='first'`).
   */
  function DropDuplicates<T(==, !new), K(==, !new)>(s: seq<T>, key: T -> K): (r: seq<T>)
    ensures forall i, j :: 0 <= i < j < |r| ==> key(r[i]) != key(r[j])
    ensures KeysOf(r, key) == KeysOf(s, key)
  {
    if s == [] then []
    else
      var init, last := s[..|s| - 1], s[|s| - 1];
      var p := DropDuplicates(init, key);
      assert KeysOf(s, key) == KeysOf(init, key) + {key(last)} by {
        assert s == init + [last];
      }
      if key(last) in KeysOf(p, key) then p else p + [last]
  }

  /** `less` is irreflexive, transitive and total: a strict total order. */
  ghost predicate StrictTotalOrder<T(!new)>(less: (T, T) -> bool)
  {
    && (forall x :: !less(x, x))
    && (forall x, y, z :: less(x, y) && less(y, z) ==> less(x, z))
    && (forall x, y :: x == y || less(x, y) || less(y, x))
  }

  /** Every element precedes every later one: sorted with no duplicates. */
  predicate Ascending<T>(s: seq<T>, less: (T, T) -> bool)
  {
    forall i, j :: 0 <= i < j < |s| ==> less(s[i], s[j])
  }

  lemma ElemsCons<T>(h: T, s: seq<T>)
    ensures Elems([h] + s) == {h} + Elems(s)
  {
    assert forall y :: y in [h] + s <==> y == h || y in s;
  }

  /** A head below every element of an ascending tail keeps it ascending. */
  lemma AscendingCons<T>(h: T, s: seq<T>, less: (T, T) -> bool)
    requires Ascending(s, less)
    requires forall y :: y in s ==> less(h, y)
    ensures Ascending([h] + s, less)
  {
    var r := [h] + s;
    forall i, j | 0 <= i < j < |r| ensures less(r[i], r[j]) {
      assert r[j] == s[j - 1];
      if i > 0 {
        assert r[i] == s[i - 1];
      }
    }
  }

  /** Inserts `x` into a strictly ascending sequence, unless it is already there. */
  function Insert<T(==, !new)>(x: T, s: seq<T>, less: (T, T) -> bool): (r: seq<T>)
    requires StrictTotalOrder(less) && Ascending(s, less)
    ensures Ascending(r, less)
    ensures Elems(r) == Elems(s) + {x}
  {
    if s == [] then [x]
    else if x == s[0] then s
    else if less(x, s[0]) then
      assert forall y :: y in s ==> less(x, y) by {
        forall y | y in s ensures less(x, y) {
          var k :| 0 <= k < |s| && s[k] == y;
          if k > 0 {
            assert less(s[0], s[k]);
          }
        }
      }
      AscendingCons(x, s, less);
      ElemsCons(x, s);
      [x] + s
    else
      var tail := s[1..];
      var rest := Insert(x, tail, less);
      assert forall y :: y in rest ==> less(s[0], y) by {
        forall y | y in rest ensures less(s[0], y) {
          assert y in Elems(rest);
          if y != x {
            var k :| 0 <= k < |tail| && tail[k] == y;
            assert s[k + 1] == y;
          }
        }
      }
      AscendingCons(s[0], rest, less);
      ElemsCons(s[0], rest);
      ElemsCons(s[0], tail);
      assert s == [s[0]] + tail;
      [s[0]] + rest
  }

  /**
   * The distinct elements of `xs` in ascending order (Python's
   * `sorted(set(xs))`).
   */
  function SortUnique<T(==, !new)>(xs: seq<T>, less: (T, T) -> bool): (r: seq<T>)
    requires StrictTotalOrder(less)
    ensures Ascending(r, less)
    ensures Elems(r) == Elems(xs)
  {
    if xs == [] then []
    else
      assert xs == xs[..|xs| - 1] + [xs[|xs| - 1]];
      Insert(xs[|xs| - 1], SortUnique(xs[..|xs| - 1], less), less)
  }

  /** Two ascending listings of the same set are the same sequence. */
  lemma {:induction false} AscendingUnique<T(!new)>(a: seq<T>, b: seq<T>, less: (T, T) -> bool)
    requires StrictTotalOrder(less) && Ascending(a, less) && Ascending(b, less)
    requires Elems(a) == Elems(b)
    ensures a == b
  {
    if a == [] {
      assert forall i :: 0 <= i < |b| ==> b[i] in Elems(b);
      assert b == [];
    } else {
      assert a[0] in Elems(a);
      assert b != [];
      assert b[0] in Elems(b);
      var i :| 0 <= i < |b| && b[i] == a[0];
      var j :| 0 <= j < |a| && a[j] == b[0];
      assert i == 0 || j == 0;
      assert Elems(a[1..]) == Elems(a) - {a[0]} by {
        assert a == [a[0]] + a[1..];
      }
      assert Elems(b[1..]) == Elems(b) - {b[0]} by {
        assert b == [b[0]] + b[1..];
      }
      AscendingUnique(a[1..], b[1..], less);
      assert a == [a[0]] + a[1..] && b == [b[0]] + b[1..];
    }
  }

  /** `s[i]` is the first element that fails `p`. */
  ghost predicate FirstFailure<T>(s: seq<T>, i: int, p: T -> bool)
  {
    0 <= i < |s| && !p(s[i]) && forall j :: 0 <= j < i ==> p(s[j])
  }

  /**
   * The index of the first element failing `p`: where a loop that raises on
   * the first bad element stops.
   */
  function FirstFailing<T>(s: seq<T>, p: T -> bool): (r: Option<nat>)
    ensures r.None? <==> forall x :: x in s ==> p(x)
    ensures r.Some? ==> FirstFailure(s, r.value, p)
  {
    if s == [] then None
    else if !p(s[0]) then Some(0)
    else match FirstFailing(s[1..], p)
      case None =>
        assert forall x :: x in s ==> x == s[0] || x in s[1..];
        None
      case Some(i) => Some(i + 1)
  }
}
