/** Sorting under a strict total order: what Go's sort functions give, and why it is the
    only thing they can give. */
module Ordering {

  /** `less` is a strict total order on the members of `s`. */
  ghost predicate Orders<T(!new)>(s: set<T>, less: (T, T) -> bool) {
    && (forall x :: x in s ==> !less(x, x))
    && (forall x, y :: x in s && y in s && x != y ==> less(x, y) || less(y, x))
    && (forall x, y, z :: x in s && y in s && z in s && less(x, y) && less(y, z) ==> less(x, z))
  }

  ghost predicate Ascending<T(!new)>(xs: seq<T>, less: (T, T) -> bool) {
    forall i, j :: 0 <= i < j < |xs| ==> less(xs[i], xs[j])
  }

  ghost predicate Lists<T(!new)>(xs: seq<T>, s: set<T>) {
    forall x :: x in xs <==> x in s
  }

  ghost predicate IsLeast<T(!new)>(x: T, s: set<T>, less: (T, T) -> bool) {
    x in s && forall y :: y in s && y != x ==> less(x, y)
  }

  lemma {:induction false} LeastExists<T(!new)>(s: set<T>, less: (T, T) -> bool)
    requires s != {} && Orders(s, less)
    ensures exists x :: IsLeast(x, s, less)
    decreases |s|
  {
    var some :| some in s;
    var rest := s - {some};
    if rest == {} {
      assert s == {some};
      assert IsLeast(some, s, less);
    } else {
      LeastExists(rest, less);
      var other :| IsLeast(other, rest, less);
      assert IsLeast(if less(other, some) then other else some, s, less);
    }
  }

  ghost function Least<T(!new)>(s: set<T>, less: (T, T) -> bool): (least: T)
    requires s != {} && Orders(s, less)
    ensures IsLeast(least, s, less)
  {
    LeastExists(s, less);
    var least :| IsLeast(least, s, less);
    least
  }

  /** The members of `s` in order. */
  ghost function Sorted<T(!new)>(s: set<T>, less: (T, T) -> bool): (r: seq<T>)
    requires Orders(s, less)
    ensures Ascending(r, less) && Lists(r, s) && |r| == |s|
    decreases |s|
  {
    if s == {} then []
    else
      var least := Least(s, less);
      var rest := Sorted(s - {least}, less);
      assert forall k :: 0 <= k < |rest| ==> rest[k] in s - {least};
      [least] + rest
  }

  /** However the members of a set come to be listed in order, the list is the same. */
  lemma {:induction false} OnlyOneOrder<T(!new)>(xs: seq<T>, s: set<T>, less: (T, T) -> bool)
    requires Orders(s, less) && Ascending(xs, less) && Lists(xs, s)
    ensures xs == Sorted(s, less)
    decreases |xs|
  {
    if xs == [] {
      assert s == {};
    } else {
      FirstIsLeast(xs, s, less);
      RestListed(xs, s, less);
      OnlyOneOrder(xs[1..], s - {xs[0]}, less);
      LeastThenRest(s, less);
      assert xs == [xs[0]] + xs[1..];
    }
  }

  lemma LeastThenRest<T(!new)>(s: set<T>, less: (T, T) -> bool)
    requires s != {} && Orders(s, less)
    ensures Sorted(s, less) == [Least(s, less)] + Sorted(s - {Least(s, less)}, less)
  {
  }

  lemma FirstIsLeast<T(!new)>(xs: seq<T>, s: set<T>, less: (T, T) -> bool)
    requires xs != [] && Orders(s, less) && Ascending(xs, less) && Lists(xs, s)
    ensures s != {} && Least(s, less) == xs[0]
  {
    assert xs[0] in s;
    assert forall y :: y in s ==> y in xs;
  }

  lemma RestListed<T(!new)>(xs: seq<T>, s: set<T>, less: (T, T) -> bool)
    requires xs != [] && Orders(s, less) && Ascending(xs, less) && Lists(xs, s)
    ensures Ascending(xs[1..], less) && Lists(xs[1..], s - {xs[0]})
  {
    forall y
      ensures y in xs[1..] <==> y in s - {xs[0]}
    {
      assert y in xs <==> y == xs[0] || y in xs[1..];
      assert y in xs[1..] ==> less(xs[0], y);
    }
  }

  /** sort.Strings and sort.SliceStable, on distinct members. */
  method Sort<T(!new)>(xs: seq<T>, ghost s: set<T>, less: (T, T) -> bool) returns (ys: seq<T>)
    requires Orders(s, less) && Lists(xs, s)
    requires forall i, j :: 0 <= i < j < |xs| ==> xs[i] != xs[j]
    ensures ys == Sorted(s, less)
  {
    ys := [];
    for i := 0 to |xs|
      invariant Ascending(ys, less)
      invariant forall x :: x in ys <==> x in xs[..i]
    {
      var x := xs[i];
      assert x in s && x !in xs[..i] && xs[..i + 1] == xs[..i] + [x];
      var p := 0;
      while p < |ys| && less(ys[p], x)
        invariant p <= |ys|
        invariant forall k :: 0 <= k < p ==> less(ys[k], x)
      {
        p := p + 1;
      }
      InsertKeepsOrder(ys, p, x, s, less);
      assert ys == ys[..p] + ys[p..];
      ys := ys[..p] + [x] + ys[p..];
    }
    assert xs[..|xs|] == xs;
    OnlyOneOrder(ys, s, less);
  }

  lemma InsertKeepsOrder<T(!new)>(ys: seq<T>, p: nat, x: T, s: set<T>, less: (T, T) -> bool)
    requires Orders(s, less) && Ascending(ys, less) && p <= |ys|
    requires x in s && x !in ys && forall y :: y in ys ==> y in s
    requires forall k :: 0 <= k < p ==> less(ys[k], x)
    requires p < |ys| ==> !less(ys[p], x)
    ensures Ascending(ys[..p] + [x] + ys[p..], less)
  {
    forall k | p <= k < |ys|
      ensures less(x, ys[k])
    {
      assert ys[p] in ys && ys[k] in ys;
      assert less(x, ys[p]);
    }
  }

  /** Go's order on strings. */
  predicate StringLess(a: string, b: string) {
    b != "" && (a == "" || a[0] < b[0] || (a[0] == b[0] && StringLess(a[1..], b[1..])))
  }

  /** After `n` characters in common the one ends, or has the smaller character. */
  predicate SmallerAt(a: string, b: string, n: nat) {
    n <= |a| && n < |b| && a[..n] == b[..n] && (n < |a| ==> a[n] < b[n])
  }

  lemma {:induction false} StringLessIff(a: string, b: string)
    ensures StringLess(a, b) <==> exists n: nat :: SmallerAt(a, b, n)
    decreases |a|
  {
    if a == "" || b == "" {
      assert b != "" ==> SmallerAt(a, b, 0);
    } else {
      StringLessIff(a[1..], b[1..]);
      if a[0] < b[0] {
        assert SmallerAt(a, b, 0);
      }
      if n: nat :| a[0] == b[0] && SmallerAt(a[1..], b[1..], n) {
        assert a[..n + 1] == [a[0]] + a[1..][..n] && b[..n + 1] == [b[0]] + b[1..][..n];
        assert SmallerAt(a, b, n + 1);
      }
      if n: nat :| n > 0 && SmallerAt(a, b, n) {
        assert a[..n][0] == b[..n][0];
        assert a[1..][..n - 1] == a[..n][1..] && b[1..][..n - 1] == b[..n][1..];
        assert SmallerAt(a[1..], b[1..], n - 1);
      }
    }
  }

  lemma {:induction false} StringsCompare(a: string, b: string)
    ensures !StringLess(a, a)
    ensures a != b ==> StringLess(a, b) || StringLess(b, a)
    decreases |a|
  {
    if a != "" {
      if b != "" {
        assert a == [a[0]] + a[1..] && b == [b[0]] + b[1..];
        StringsCompare(a[1..], b[1..]);
      } else {
        StringsCompare(a[1..], "");
      }
    }
  }

  lemma {:induction false} StringsChain(a: string, b: string, c: string)
    requires StringLess(a, b) && StringLess(b, c)
    ensures StringLess(a, c)
    decreases |a|
  {
    if a != "" && a[0] == b[0] == c[0] {
      StringsChain(a[1..], b[1..], c[1..]);
    }
  }

  lemma StringOrder(s: set<string>)
    ensures Orders(s, StringLess)
  {
    forall a, b | a in s && b in s
      ensures !StringLess(a, a) && (a != b ==> StringLess(a, b) || StringLess(b, a))
    {
      StringsCompare(a, b);
    }
    forall a, b, c | a in s && b in s && c in s && StringLess(a, b) && StringLess(b, c)
      ensures StringLess(a, c)
    {
      StringsChain(a, b, c);
    }
  }
}
