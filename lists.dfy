/** The two list shapes the order pipeline is built from: JavaScript's
    `Array.prototype.filter`, and the collection of the optional parts that a
    `forEach` loop pushes one by one into a result array. */
module Lists {
  import opened Wrappers

  /** The elements of `s` that satisfy `p`, in their original order. */
  function Filter<T(!new)>(s: seq<T>, p: T -> bool): (r: seq<T>)
    ensures |r| <= |s|
    ensures forall x :: x in r <==> x in s && p(x)
  {
    if s == [] then [] else (if p(s[0]) then [s[0]] else []) + Filter(s[1..], p)
  }

  /** Filtering a concatenation filters each half: the relative order of
      the kept elements is the order they had in the input. */
  lemma {:induction false} FilterConcat<T(!new)>(a: seq<T>, b: seq<T>, p: T -> bool)
    ensures Filter(a + b, p) == Filter(a, p) + Filter(b, p)
  {
    if a == [] {
      assert a + b == b;
    } else {
      assert (a + b)[0] == a[0];
      assert (a + b)[1..] == a[1..] + b;
      FilterConcat(a[1..], b, p);
    }
  }

  /** Filtering a list that starts with `x`. */
  lemma FilterCons<T(!new)>(x: T, s: seq<T>, p: T -> bool)
    ensures Filter([x] + s, p) == (if p(x) then [x] else []) + Filter(s, p)
  {
    assert ([x] + s)[0] == x;
    assert ([x] + s)[1..] == s;
  }

  lemma FilterSingleton<T(!new)>(x: T, p: T -> bool)
    ensures Filter([x], p) == if p(x) then [x] else []
  {
    assert [x][1..] == [];
  }

  /** Two elements that are never both kept can be filtered in either
      order. */
  lemma FilterSwapFront<T(!new)>(y: T, x: T, f: seq<T>, p: T -> bool)
    requires !(p(x) && p(y))
    ensures (if p(y) then [y] else []) + ((if p(x) then [x] else []) + f)
         == (if p(x) then [x] else []) + ((if p(y) then [y] else []) + f)
  {
    if p(x) {
      assert (if p(y) then [y] else []) == [];
    } else {
      assert (if p(x) then [x] else []) == [];
    }
  }

  /** Each element is kept as many times as it occurs, or dropped entirely. */
  lemma {:induction false} FilterCount<T(!new)>(s: seq<T>, p: T -> bool, x: T)
    ensures multiset(Filter(s, p))[x] == if p(x) then multiset(s)[x] else 0
  {
    if s != [] {
      assert s == [s[0]] + s[1..];
      FilterCount(s[1..], p, x);
    }
  }

  lemma FilterCountAll<T(!new)>(s: seq<T>, p: T -> bool)
    ensures forall x :: multiset(Filter(s, p))[x] == if p(x) then multiset(s)[x] else 0
  {
    forall x ensures multiset(Filter(s, p))[x] == if p(x) then multiset(s)[x] else 0 {
      FilterCount(s, p, x);
    }
  }

  /** When every element satisfies `p`, filtering changes nothing. */
  lemma {:induction false} FilterKeepsAll<T(!new)>(s: seq<T>, p: T -> bool)
    requires forall i :: 0 <= i < |s| ==> p(s[i])
    ensures Filter(s, p) == s
  {
    if s != [] {
      FilterKeepsAll(s[1..], p);
    }
  }

  /** Filtering twice by the same predicate is filtering once. */
  lemma FilterIdempotent<T(!new)>(s: seq<T>, p: T -> bool)
    ensures Filter(Filter(s, p), p) == Filter(s, p)
  {
    var r := Filter(s, p);
    forall i | 0 <= i < |r| ensures p(r[i]) {
      assert r[i] in r;
    }
    FilterKeepsAll(r, p);
  }

  /** Filtering by `p` and by its complement `q` splits `s` in two: every
      element lands in exactly one of the two results. */
  lemma {:induction false} FilterPartition<T(!new)>(s: seq<T>, p: T -> bool, q: T -> bool)
    requires forall x :: q(x) <==> !p(x)
    ensures multiset(Filter(s, p)) + multiset(Filter(s, q)) == multiset(s)
    ensures |Filter(s, p)| + |Filter(s, q)| == |s|
  {
    if s != [] {
      assert s == [s[0]] + s[1..];
      FilterPartition(s[1..], p, q);
    }
  }

  /** The present values of `f` over `s`, in the order of `s`: the result of
      a loop that pushes `f(x).value` for each `x` where `f(x)` is present. */
  function FilterMap<T(!new), U(!new)>(s: seq<T>, f: T -> Option<U>): (r: seq<U>)
    ensures |r| <= |s|
  {
    if s == [] then [] else OptionToSeq(f(s[0])) + FilterMap(s[1..], f)
  }

  /** A value is collected exactly when some input yields it. */
  lemma {:induction false} FilterMapMembers<T(!new), U(!new)>(s: seq<T>, f: T -> Option<U>)
    ensures forall y :: y in FilterMap(s, f) <==> exists x :: x in s && f(x) == Some(y)
  {
    if s != [] {
      FilterMapMembers(s[1..], f);
      assert forall x :: x in s <==> x == s[0] || x in s[1..];
    }
  }

  lemma FilterMapSingleton<T(!new), U(!new)>(x: T, f: T -> Option<U>)
    ensures FilterMap([x], f) == OptionToSeq(f(x))
  {
    assert [x][1..] == [];
  }

  /** Appending one input appends at most one output: the shape of one
      iteration of the pushing loop. */
  lemma {:induction false} FilterMapSnoc<T(!new), U(!new)>(s: seq<T>, x: T, f: T -> Option<U>)
    ensures FilterMap(s + [x], f) == FilterMap(s, f) + OptionToSeq(f(x))
  {
    if s == [] {
      assert s + [x] == [x];
    } else {
      assert (s + [x])[0] == s[0];
      assert (s + [x])[1..] == s[1..] + [x];
      FilterMapSnoc(s[1..], x, f);
    }
  }
}
