/** What the stores take from Go's `sort` package and from SQL's ORDER BY. */
module Sorting {

  ghost predicate Asymmetric<T(!new)>(less: (T, T) -> bool) {
    forall a, b :: less(a, b) ==> !less(b, a)
  }

  /** "Not after" carries over from neighbour to neighbour. */
  ghost predicate Carries<T>(less: (T, T) -> bool, a: T, b: T, c: T) {
    !less(b, a) && !less(c, b) ==> !less(c, a)
  }

  ghost predicate StrictWeak<T(!new)>(less: (T, T) -> bool) {
    Asymmetric(less) && forall a, b, c {:trigger Carries(less, a, b, c)} :: Carries(less, a, b, c)
  }

  ghost predicate Sorted<T>(xs: seq<T>, less: (T, T) -> bool) {
    forall i :: 0 < i < |xs| ==> !less(xs[i], xs[i - 1])
  }

  lemma {:induction false} SortedApart<T(!new)>(xs: seq<T>, less: (T, T) -> bool, i: nat, j: nat)
    requires StrictWeak(less) && Sorted(xs, less) && i < j < |xs|
    ensures !less(xs[j], xs[i])
    decreases j
  {
    if i < j - 1 {
      SortedApart(xs, less, i, j - 1);
      assert Carries(less, xs[i], xs[j - 1], xs[j]);
    }
  }

  ghost predicate NoRepeats<T>(xs: seq<T>) {
    forall i, j :: 0 <= i < j < |xs| ==> xs[i] != xs[j]
  }

  lemma StillNoRepeats<T>(x: T, ys: seq<T>, k: nat)
    requires NoRepeats(ys) && x !in ys && k <= |ys|
    ensures NoRepeats(ys[..k] + [x] + ys[k..])
  {
  }

  lemma StaysSorted<T>(x: T, ys: seq<T>, k: nat, less: (T, T) -> bool)
    requires Sorted(ys, less) && k <= |ys|
    requires (k > 0 ==> !less(x, ys[k - 1])) && (k < |ys| ==> !less(ys[k], x))
    ensures Sorted(ys[..k] + [x] + ys[k..], less)
  {
    var zs := ys[..k] + [x] + ys[k..];
    forall i | 0 < i < |zs|
      ensures !less(zs[i], zs[i - 1])
    {
      assert zs[i] == if i < k then ys[i] else if i == k then x else ys[i - 1];
      assert zs[i - 1] == if i <= k then ys[i - 1] else if i == k + 1 then x else ys[i - 2];
    }
  }

  method Insert<T(!new)>(x: T, ys: seq<T>, less: (T, T) -> bool) returns (zs: seq<T>)
    requires Asymmetric(less) && Sorted(ys, less)
    ensures Sorted(zs, less) && multiset(zs) == multiset(ys) + multiset{x}
    ensures NoRepeats(ys) && x !in ys ==> NoRepeats(zs)
  {
    var k := |ys|;
    while k > 0 && less(x, ys[k - 1])
      invariant 0 <= k <= |ys|
      invariant k < |ys| ==> less(x, ys[k])
    {
      k := k - 1;
    }
    zs := ys[..k] + [x] + ys[k..];
    StaysSorted(x, ys, k, less);
    assert ys == ys[..k] + ys[k..];
    if NoRepeats(ys) && x !in ys {
      StillNoRepeats(x, ys, k);
    }
  }

  lemma SameMembers<T>(xs: seq<T>, ys: seq<T>)
    requires multiset(xs) == multiset(ys)
    ensures |xs| == |ys| && forall x :: x in xs <==> x in ys
  {
    assert |multiset(xs)| == |multiset(ys)|;
    forall x
      ensures x in xs <==> x in ys
    {
      assert x in multiset(xs) <==> x in multiset(ys);
    }
  }

  method SortBy<T(!new)>(xs: seq<T>, less: (T, T) -> bool) returns (ys: seq<T>)
    requires Asymmetric(less)
    ensures Sorted(ys, less) && multiset(ys) == multiset(xs)
    ensures |ys| == |xs| && forall x :: x in ys <==> x in xs
    ensures NoRepeats(xs) ==> NoRepeats(ys)
  {
    ys := [];
    for n := 0 to |xs|
      invariant Sorted(ys, less) && multiset(ys) == multiset(xs[..n])
      invariant NoRepeats(xs) ==> NoRepeats(ys)
    {
      assert xs[..n + 1] == xs[..n] + [xs[n]];
      SameMembers(ys, xs[..n]);
      ys := Insert(xs[n], ys, less);
    }
    assert xs[..|xs|] == xs;
    SameMembers(ys, xs);
  }

  /** Byte-wise comparison of strings. */
  predicate Before(a: string, b: string) {
    b != [] && (a == [] || a[0] < b[0] || (a[0] == b[0] && Before(a[1..], b[1..])))
  }

  lemma {:induction false} BeforeOrder(a: string, b: string, c: string)
    ensures Before(a, b) ==> !Before(b, a)
    ensures a == b || Before(a, b) || Before(b, a)
    ensures !Before(b, a) && !Before(c, b) ==> !Before(c, a)
  {
    if a != [] && b != [] && c != [] {
      BeforeOrder(a[1..], b[1..], c[1..]);
      assert a == [a[0]] + a[1..] && b == [b[0]] + b[1..];
    } else if a != [] && b != [] {
      BeforeOrder(a[1..], b[1..], []);
      assert a == [a[0]] + a[1..] && b == [b[0]] + b[1..];
    }
  }

  /** Before means: at the first place where they differ, a smaller character, or none at all. */
  lemma {:induction false} BeforeMeans(a: string, b: string)
    ensures Before(a, b) <==> exists k: nat :: DiffersAt(a, b, k)
  {
    if DiffersAt(a, b, 0) {
    } else if a != [] && b != [] && a[0] == b[0] {
      BeforeMeans(a[1..], b[1..]);
      if k: nat :| DiffersAt(a[1..], b[1..], k) {
        assert a[..k + 1] == [a[0]] + a[1..][..k] && b[..k + 1] == [b[0]] + b[1..][..k];
        assert DiffersAt(a, b, k + 1);
      }
      if k: nat :| DiffersAt(a, b, k) {
        assert k > 0;
        assert a[1..][..k - 1] == a[..k][1..] && b[1..][..k - 1] == b[..k][1..];
        assert DiffersAt(a[1..], b[1..], k - 1);
      }
    }
  }

  /** They agree on the first `k` characters, and then `a` ends or has the smaller one. */
  predicate DiffersAt(a: string, b: string, k: nat) {
    k < |b| && k <= |a| && a[..k] == b[..k] && (k == |a| || a[k] < b[k])
  }

  /** The ids of a set in some order. */
  method Listed(ids: set<string>) returns (xs: seq<string>)
    ensures |xs| == |ids| && forall x :: x in xs <==> x in ids
    ensures NoRepeats(xs)
  {
    xs := [];
    var todo := ids;
    while todo != {}
      invariant todo <= ids && |xs| + |todo| == |ids|
      invariant forall x :: x in xs <==> x in ids - todo
      invariant NoRepeats(xs)
      decreases todo
    {
      var id :| id in todo;
      assert id !in xs;
      xs, todo := xs + [id], todo - {id};
    }
  }
}
