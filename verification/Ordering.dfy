// Go's string order and the two library routines the control plane sorts with.

module Ordering {

  // Strict lexicographic order, as Go compares strings.
  predicate Less(a: string, b: string) {
    b != "" && (a == "" || a[0] < b[0] || (a[0] == b[0] && Less(a[1..], b[1..])))
  }

  lemma {:induction false} LessTotal(a: string, b: string)
    ensures Less(a, b) || Less(b, a) || a == b
    ensures !(Less(a, b) && Less(b, a))
    ensures !Less(a, a)
  {
    if a != "" {
      LessTotal(a[1..], a[1..]);
      if b != "" {
        LessTotal(a[1..], b[1..]);
        if a[0] == b[0] && a[1..] == b[1..] {
          assert a == [a[0]] + a[1..] == b;
        }
      }
    }
  }

  lemma {:induction false} LessTransitive(a: string, b: string, c: string)
    requires Less(a, b) && Less(b, c)
    ensures Less(a, c)
  {
    if a != "" && a[0] == b[0] == c[0] {
      LessTransitive(a[1..], b[1..], c[1..]);
    }
  }

  lemma LessIsStrictTotalOrder()
    ensures forall a, b :: Less(a, b) || Less(b, a) || a == b
    ensures forall a, b :: Less(a, b) ==> !Less(b, a)
    ensures forall a, b, c :: Less(a, b) && Less(b, c) ==> Less(a, c)
  {
    forall a, b ensures (Less(a, b) || Less(b, a) || a == b) && (Less(a, b) ==> !Less(b, a)) {
      LessTotal(a, b);
    }
    forall a, b, c | Less(a, b) && Less(b, c) ensures Less(a, c) {
      LessTransitive(a, b, c);
    }
  }

  // A string comes before another if it is a proper beginning of it, or smaller where they first differ.
  lemma {:induction false} LessIsLexicographic(a: string, b: string)
    ensures Less(a, b) <==>
      exists k :: 0 <= k <= |a| && k < |b| && a[..k] == b[..k] && (k == |a| || a[k] < b[k])
  {
    if b != "" {
      if a == "" || a[0] < b[0] {
        assert a[..0] == b[..0];
      } else if a[0] == b[0] {
        LessIsLexicographic(a[1..], b[1..]);
        if k :| 0 <= k <= |a[1..]| && k < |b[1..]| && a[1..][..k] == b[1..][..k]
                && (k == |a[1..]| || a[1..][k] < b[1..][k]) {
          assert a[..k + 1] == [a[0]] + a[1..][..k] == b[..k + 1];
        }
        if k :| 0 <= k <= |a| && k < |b| && a[..k] == b[..k] && (k == |a| || a[k] < b[k]) {
          assert k > 0;
          assert a[1..][..k - 1] == a[..k][1..] == b[..k][1..] == b[1..][..k - 1];
        }
      } else if k :| 0 <= k <= |a| && k < |b| && a[..k] == b[..k] && (k == |a| || a[k] < b[k]) {
        assert k > 0 ==> a[..k][0] == b[..k][0];
      }
    }
  }

  // The least string of a non-empty set.
  ghost function Min(names: set<string>): (least: string)
    requires names != {}
    ensures least in names
    ensures forall n :: n in names && n != least ==> Less(least, n)
  {
    var n :| n in names;
    var rest := names - {n};
    if rest == {} then assert names == {n}; n else
    var m := Min(rest);
    LessIsStrictTotalOrder();
    assert names == rest + {n};
    if Less(n, m) then n else m
  }

  ghost predicate Distinct<T>(xs: seq<T>) {
    forall i, j :: 0 <= i < j < |xs| ==> xs[i] != xs[j]
  }

  lemma DistinctConcat<T>(xs: seq<T>, ys: seq<T>)
    requires Distinct(xs) && Distinct(ys) && forall x :: x in ys ==> x !in xs
    ensures Distinct(xs + ys)
  {
    forall i, j | 0 <= i < j < |xs + ys| ensures (xs + ys)[i] != (xs + ys)[j] {
      if i < |xs| && j >= |xs| {
        assert ys[j - |xs|] in ys && xs[i] in xs;
      }
    }
  }

  // xs lists every element of a set exactly once: one order a Go map may be ranged over in.
  ghost predicate Enumerates<T(!new)>(xs: seq<T>, of: set<T>) {
    Distinct(xs) && (forall x :: x in xs <==> x in of)
  }

  lemma {:induction false} EnumerationSize<T(!new)>(xs: seq<T>, of: set<T>)
    requires Enumerates(xs, of)
    ensures |xs| == |of|
  {
    if xs != [] {
      var last := |xs| - 1;
      assert forall x :: x in xs[..last] <==> x in of - {xs[last]};
      EnumerationSize(xs[..last], of - {xs[last]});
    } else {
      assert forall x :: x !in of;
    }
  }

  ghost function IndexOf<T>(xs: seq<T>, x: T): (k: nat)
    requires x in xs
    ensures k < |xs| && xs[k] == x
  {
    var k :| 0 <= k < |xs| && xs[k] == x; k
  }

  ghost predicate SortedBy<T(!new)>(xs: seq<T>, less: (T, T) -> bool) {
    forall i, j :: 0 <= i < j < |xs| ==> !less(xs[j], xs[i])
  }

  ghost predicate WeakOrder<T(!new)>(less: (T, T) -> bool) {
    && (forall a, b :: less(a, b) ==> !less(b, a))
    && (forall a, b, c :: !less(b, a) && !less(c, b) ==> !less(c, a))
  }

  lemma InsertedIsSorted<T(!new)>(ys: seq<T>, x: T, k: nat, less: (T, T) -> bool)
    requires SortedBy(ys, less) && k <= |ys|
    requires forall p :: 0 <= p < k ==> !less(x, ys[p])
    requires forall p :: k <= p < |ys| ==> !less(ys[p], x)
    ensures SortedBy(ys[..k] + [x] + ys[k..], less)
  {
    var zs := ys[..k] + [x] + ys[k..];
    forall i, j | 0 <= i < j < |zs| ensures !less(zs[j], zs[i]) {
      assert zs[i] == if i < k then ys[i] else if i == k then x else ys[i - 1];
      assert zs[j] == if j < k then ys[j] else if j == k then x else ys[j - 1];
    }
  }

  // Puts x behind the last element it does not compare less than.
  method Insert<T(==, !new)>(ys: seq<T>, x: T, less: (T, T) -> bool) returns (zs: seq<T>)
    requires WeakOrder(less) && SortedBy(ys, less)
    ensures SortedBy(zs, less) && multiset(zs) == multiset(ys) + multiset{x}
  {
    var k := |ys|;
    while k > 0 && less(x, ys[k - 1])
      invariant 0 <= k <= |ys|
      invariant forall p :: k <= p < |ys| ==> less(x, ys[p])
    {
      k := k - 1;
    }
    zs := ys[..k] + [x] + ys[k..];
    forall p | 0 <= p < k ensures !less(x, ys[p]) {
      assert p < k - 1 ==> !less(ys[k - 1], ys[p]);
    }
    InsertedIsSorted(ys, x, k, less);
    assert ys == ys[..k] + ys[k..];
  }

  // sort.Slice: any order is accepted between elements that do not compare less.
  method SortBy<T(==, !new)>(xs: seq<T>, less: (T, T) -> bool) returns (ys: seq<T>)
    requires WeakOrder(less)
    ensures multiset(ys) == multiset(xs)
    ensures SortedBy(ys, less)
  {
    ys := [];
    for i := 0 to |xs|
      invariant multiset(ys) == multiset(xs[..i])
      invariant SortedBy(ys, less)
    {
      ys := Insert(ys, xs[i], less);
      assert xs[..i + 1] == xs[..i] + [xs[i]];
    }
    assert xs[..|xs|] == xs;
  }

  // sort.Strings on a slice without repetitions.
  method SortStrings(xs: seq<string>) returns (ys: seq<string>)
    requires Distinct(xs)
    ensures Distinct(ys) && |ys| == |xs|
    ensures forall x :: x in ys <==> x in xs
    ensures forall i, j :: 0 <= i < j < |ys| ==> Less(ys[i], ys[j])
  {
    LessIsStrictTotalOrder();
    ys := SortBy(xs, Less);
    SameElements(xs, ys);
  }

  lemma DistinctMultiplicity<T>(xs: seq<T>)
    requires Distinct(xs)
    ensures forall x :: multiset(xs)[x] == if x in xs then 1 else 0
  {
    if xs != [] {
      var last := |xs| - 1;
      assert xs == xs[..last] + [xs[last]];
      DistinctMultiplicity(xs[..last]);
    }
  }

  lemma SameElements<T>(xs: seq<T>, ys: seq<T>)
    requires Distinct(xs) && multiset(xs) == multiset(ys)
    ensures Distinct(ys) && |ys| == |xs| && forall x :: x in ys <==> x in xs
  {
    DistinctMultiplicity(xs);
    assert |multiset(xs)| == |xs| && |multiset(ys)| == |ys|;
    forall x ensures x in ys <==> x in xs {
      assert x in ys <==> x in multiset(ys);
      assert x in xs <==> x in multiset(xs);
    }
    forall i, j | 0 <= i < j < |ys| ensures ys[i] != ys[j] {
      Repeated(ys, i, j);
    }
  }

  lemma Repeated<T>(ys: seq<T>, i: nat, j: nat)
    requires i < j < |ys|
    ensures ys[i] == ys[j] ==> multiset(ys)[ys[i]] >= 2
  {
    assert ys == ys[..j] + ys[j..];
    assert ys[i] in ys[..j] && ys[j] in ys[j..];
  }

  // sort.SearchStrings: the first index whose element is not less than key.
  method SearchStrings(xs: seq<string>, key: string) returns (k: nat)
    requires forall i, j :: 0 <= i < j < |xs| ==> Less(xs[i], xs[j])
    ensures k <= |xs|
    ensures forall i :: 0 <= i < k ==> Less(xs[i], key)
    ensures forall i :: k <= i < |xs| ==> !Less(xs[i], key)
  {
    LessIsStrictTotalOrder();
    hide Less;
    var low, high := 0, |xs|;
    while low < high
      invariant 0 <= low <= high <= |xs|
      invariant forall i :: 0 <= i < low ==> Less(xs[i], key)
      invariant forall i :: high <= i < |xs| ==> !Less(xs[i], key)
    {
      var mid := (low + high) / 2;
      if Less(xs[mid], key) {
        low := mid + 1;
      } else {
        high := mid;
      }
    }
    k := low;
  }
}
