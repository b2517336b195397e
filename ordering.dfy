/**
 * The list operations the database queries perform: ORDER BY a key
 * descending, and OFFSET/LIMIT with SQLite's treatment of negative values.
 * Rows with equal keys keep their table order, one of the orders the
 * database may return.
 */
module Ordering {

  predicate SortedDesc<T>(s: seq<T>, key: T -> int)
  {
    forall i, j :: 0 <= i < j < |s| ==> key(s[i]) >= key(s[j])
  }

  /** Put `x` before the first element whose key is smaller than its own. */
  function InsertDesc<T>(x: T, s: seq<T>, key: T -> int): (r: seq<T>)
    requires SortedDesc(s, key)
    ensures |r| == |s| + 1
    ensures r[0] == x || (s != [] && r[0] == s[0])
    ensures SortedDesc(r, key)
  {
    if s == [] || key(x) >= key(s[0]) then [x] + s
    else
      var rest := InsertDesc(x, s[1..], key);
      var r := [s[0]] + rest;
      forall i, j | 0 <= i < j < |r| ensures key(r[i]) >= key(r[j]) {
        if i == 0 && j > 1 {
          assert key(rest[0]) >= key(rest[j - 1]);
        }
      }
      r
  }

  /** Inserting adds `x` and loses nothing. */
  lemma {:induction false} InsertDescPermutes<T>(x: T, s: seq<T>, key: T -> int)
    requires SortedDesc(s, key)
    ensures multiset(InsertDesc(x, s, key)) == multiset(s) + multiset{x}
  {
    if s != [] && key(x) < key(s[0]) {
      InsertDescPermutes(x, s[1..], key);
      assert s == [s[0]] + s[1..];
    }
  }

  /** ORDER BY key DESC. */
  function SortDesc<T>(s: seq<T>, key: T -> int): (r: seq<T>)
    ensures |r| == |s|
    ensures SortedDesc(r, key)
  {
    if s == [] then [] else InsertDesc(s[0], SortDesc(s[1..], key), key)
  }

  /** Sorting keeps every element, as often as it occurs. */
  lemma {:induction false} SortDescPermutes<T>(s: seq<T>, key: T -> int)
    ensures multiset(SortDesc(s, key)) == multiset(s)
    ensures forall x :: x in SortDesc(s, key) <==> x in s
  {
    SortDescMultiset(s, key);
    var r := SortDesc(s, key);
    forall x ensures x in r <==> x in s {
      assert x in r <==> x in multiset(r);
    }
  }

  lemma {:induction false} SortDescMultiset<T>(s: seq<T>, key: T -> int)
    ensures multiset(SortDesc(s, key)) == multiset(s)
  {
    if s != [] {
      SortDescMultiset(s[1..], key);
      InsertDescPermutes(s[0], SortDesc(s[1..], key), key);
      assert s == [s[0]] + s[1..];
    }
  }

  function Max(a: int, b: int): int { if a >= b then a else b }

  function Min(a: int, b: int): int { if a <= b then a else b }

  /**
   * OFFSET offset LIMIT limit as SQLite runs it: a negative offset counts as
   * zero and a negative limit means no limit.
   */
  function Window<T>(s: seq<T>, offset: int, limit: int): (r: seq<T>)
    ensures var start := Min(Max(offset, 0), |s|);
      && |r| == (if limit < 0 then |s| - start else Min(limit, |s| - start))
      && forall i :: 0 <= i < |r| ==> r[i] == s[start + i]
  {
    var start := Min(Max(offset, 0), |s|);
    var stop := if limit < 0 then |s| else Min(start + limit, |s|);
    s[start..stop]
  }

  /** Two windows side by side make the window that spans both: consecutive pages neither overlap nor leave a gap. */
  lemma ConsecutiveWindows<T>(s: seq<T>, offset: nat, a: nat, b: nat)
    ensures Window(s, offset, a) + Window(s, offset + a, b) == Window(s, offset, a + b)
  {
  }

  function Reverse<T>(s: seq<T>): (r: seq<T>)
    ensures |r| == |s|
    ensures forall i :: 0 <= i < |s| ==> r[i] == s[|s| - 1 - i]
  {
    if s == [] then [] else Reverse(s[1..]) + [s[0]]
  }

  lemma ReverseReverse<T>(s: seq<T>)
    ensures Reverse(Reverse(s)) == s
  {
    assert forall i :: 0 <= i < |s| ==> Reverse(Reverse(s))[i] == s[i];
  }

  /** Two reversed windows side by side, each turned back, make the window that spans both. */
  lemma ReversedWindowsAdjoin<T>(s: seq<T>, offset: nat, n: nat)
    ensures Reverse(Reverse(Window(s, offset, n))) + Reverse(Reverse(Window(s, offset + n, n))) == Window(s, offset, 2 * n)
  {
    ReverseReverse(Window(s, offset, n));
    ReverseReverse(Window(s, offset + n, n));
    ConsecutiveWindows(s, offset, n, n);
  }

  /** A window holds only elements of the whole. */
  lemma WindowWithin<T>(s: seq<T>, offset: int, limit: int)
    ensures forall x :: x in Reverse(Window(s, offset, limit)) ==> x in s
  {
    var w := Window(s, offset, limit);
    var r := Reverse(w);
    forall x | x in r ensures x in s {
      var k :| 0 <= k < |r| && r[k] == x;
      assert r[k] == w[|w| - 1 - k];
    }
  }

  /** A window of a descending order is descending. */
  lemma WindowSorted<T>(s: seq<T>, offset: int, limit: int, key: T -> int)
    requires SortedDesc(s, key)
    ensures SortedDesc(Window(s, offset, limit), key)
  {
    var w := Window(s, offset, limit);
    var start := Min(Max(offset, 0), |s|);
    forall i, j | 0 <= i < j < |w| ensures key(w[i]) >= key(w[j]) {
      assert w[i] == s[start + i] && w[j] == s[start + j];
    }
  }

  /** A descending order, reversed, is ascending. */
  lemma ReverseAscending<T>(s: seq<T>, key: T -> int)
    requires SortedDesc(s, key)
    ensures forall i, j :: 0 <= i < j < |Reverse(s)| ==> key(Reverse(s)[i]) <= key(Reverse(s)[j])
  {
    var r := Reverse(s);
    forall i, j | 0 <= i < j < |r| ensures key(r[i]) <= key(r[j]) {
      assert r[i] == s[|s| - 1 - i] && r[j] == s[|s| - 1 - j];
    }
  }
}
