/** The newest-first order of the two tabs (src/App.jsx, the two `sort`
    calls of `fetchOrders`). JavaScript's `Array.prototype.sort` is stable,
    so orders with the same instant keep their input order; the model is a
    stable insertion sort. */
module Sorting {
  import opened Wrappers
  import opened Lists
  import opened Orders

  /** The date a tab is sorted by: the kitchen tab uses
      `createdAt || timestamp`, the bar tab `createdAt` alone. */
  datatype Stamp = CreatedAtOrTimestamp | CreatedAtOnly

  function TimeOf(o: Order, key: Stamp): (r: Option<int>)
    ensures key == CreatedAtOnly ==> r == o.createdAt
    ensures key == CreatedAtOrTimestamp ==> (o.createdAt.Some? ==> r == o.createdAt) && (o.createdAt.None? ==> r == o.timestamp)
    ensures r.None? <==> o.createdAt.None? && (key == CreatedAtOnly || o.timestamp.None?)
  {
    match key
    case CreatedAtOrTimestamp => if o.createdAt.Some? then o.createdAt else o.timestamp
    case CreatedAtOnly => o.createdAt
  }

  /** `a` may stand before `b` in a newest-first list. An order without a
      date stands after every order that has one. */
  predicate NewerOrSame(a: Option<int>, b: Option<int>) {
    b.None? || (a.Some? && a.value >= b.value)
  }

  /** Newest first: every order is at least as new as every later one. */
  predicate Sorted(s: seq<Order>, key: Stamp) {
    forall i, j :: 0 <= i < j < |s| ==> NewerOrSame(TimeOf(s[i], key), TimeOf(s[j], key))
  }

  /** Puts `x` before the first order that is not strictly newer than it. */
  function Insert(x: Order, s: seq<Order>, key: Stamp): (r: seq<Order>)
    ensures multiset(r) == multiset(s) + multiset{x}
  {
    if s == [] || NewerOrSame(TimeOf(x, key), TimeOf(s[0], key)) then [x] + s
    else
      assert s == [s[0]] + s[1..];
      [s[0]] + Insert(x, s[1..], key)
  }

  /** Prepending an order at least as new as every order of a newest-first
      list keeps it newest first. */
  lemma SortedCons(y: Order, t: seq<Order>, key: Stamp)
    requires Sorted(t, key)
    requires forall z :: z in t ==> NewerOrSame(TimeOf(y, key), TimeOf(z, key))
    ensures Sorted([y] + t, key)
  {
    var r := [y] + t;
    forall i, j | 0 <= i < j < |r| ensures NewerOrSame(TimeOf(r[i], key), TimeOf(r[j], key)) {
      assert r[j] == t[j - 1];
      if i > 0 {
        assert r[i] == t[i - 1];
      } else {
        assert t[j - 1] in t;
      }
    }
  }

  /** The first order of a newest-first list is at least as new as the
      rest, and the rest is newest first. */
  lemma SortedHead(s: seq<Order>, key: Stamp)
    requires Sorted(s, key) && s != []
    ensures forall z :: z in s ==> NewerOrSame(TimeOf(s[0], key), TimeOf(z, key))
    ensures Sorted(s[1..], key)
  {
    forall z | z in s ensures NewerOrSame(TimeOf(s[0], key), TimeOf(z, key)) {
      var k :| 0 <= k < |s| && s[k] == z;
      if k > 0 {
        assert NewerOrSame(TimeOf(s[0], key), TimeOf(s[k], key));
      }
    }
    forall i, j | 0 <= i < j < |s[1..]|
      ensures NewerOrSame(TimeOf(s[1..][i], key), TimeOf(s[1..][j], key))
    {
      assert s[1..][i] == s[i + 1] && s[1..][j] == s[j + 1];
    }
  }

  lemma {:induction false} InsertSorted(x: Order, s: seq<Order>, key: Stamp)
    requires Sorted(s, key)
    ensures Sorted(Insert(x, s, key), key)
  {
    if s == [] {
      SortedCons(x, s, key);
    } else {
      SortedHead(s, key);
      if NewerOrSame(TimeOf(x, key), TimeOf(s[0], key)) {
        SortedCons(x, s, key);
      } else {
        var t := Insert(x, s[1..], key);
        InsertSorted(x, s[1..], key);
        forall z | z in t ensures NewerOrSame(TimeOf(s[0], key), TimeOf(z, key)) {
          assert z in multiset(t);
          if z != x {
            assert z in multiset(s[1..]);
            assert z in s;
          }
        }
        SortedCons(s[0], t, key);
      }
    }
  }

  /** The orders of `s`, newest first. */
  function SortNewestFirst(s: seq<Order>, key: Stamp): (r: seq<Order>)
    ensures multiset(r) == multiset(s)
    ensures Sorted(r, key)
  {
    if s == [] then []
    else
      var rest := SortNewestFirst(s[1..], key);
      InsertSorted(s[0], rest, key);
      assert s == [s[0]] + s[1..];
      Insert(s[0], rest, key)
  }

  /** The orders that carry the instant `t`. */
  function HasStamp(key: Stamp, t: Option<int>): Order -> bool {
    o => TimeOf(o, key) == t
  }

  lemma {:induction false} InsertStable(x: Order, s: seq<Order>, key: Stamp, t: Option<int>)
    ensures Filter(Insert(x, s, key), HasStamp(key, t))
         == (if TimeOf(x, key) == t then [x] else []) + Filter(s, HasStamp(key, t))
  {
    var p := HasStamp(key, t);
    if s == [] || NewerOrSame(TimeOf(x, key), TimeOf(s[0], key)) {
      FilterCons(x, s, p);
    } else {
      var rest := Insert(x, s[1..], key);
      InsertStable(x, s[1..], key, t);
      FilterCons(s[0], rest, p);
      assert s == [s[0]] + s[1..];
      FilterCons(s[0], s[1..], p);
      assert NewerOrSame(TimeOf(x, key), TimeOf(x, key));
      FilterSwapFront(s[0], x, Filter(s[1..], p), p);
    }
  }

  /** Sorting is stable: the orders that share an instant appear in the
      sorted list in the order they had in the input. */
  lemma {:induction false} SortStable(s: seq<Order>, key: Stamp, t: Option<int>)
    ensures Filter(SortNewestFirst(s, key), HasStamp(key, t)) == Filter(s, HasStamp(key, t))
  {
    if s != [] {
      SortStable(s[1..], key, t);
      InsertStable(s[0], SortNewestFirst(s[1..], key), key, t);
      FilterCons(s[0], s[1..], HasStamp(key, t));
      assert s == [s[0]] + s[1..];
    }
  }

  /** Removing orders from a newest-first list leaves it newest first. */
  lemma {:induction false} FilterKeepsSorted(s: seq<Order>, p: Order -> bool, key: Stamp)
    requires Sorted(s, key)
    ensures Sorted(Filter(s, p), key)
  {
    if s != [] {
      SortedHead(s, key);
      FilterKeepsSorted(s[1..], p, key);
      var rest := Filter(s[1..], p);
      assert s == [s[0]] + s[1..];
      FilterCons(s[0], s[1..], p);
      if p(s[0]) {
        forall z | z in rest ensures NewerOrSame(TimeOf(s[0], key), TimeOf(z, key)) {
          assert z in s;
        }
        SortedCons(s[0], rest, key);
      }
    }
  }
}
