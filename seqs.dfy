/** Sequence helpers for column lists: distinctness, positions and order-keeping removal. */
module Seqs {

  /** No element occurs twice (a list of column names). */
  predicate Distinct<T(==)>(s: seq<T>) {
    forall i, j :: 0 <= i < j < |s| ==> s[i] != s[j]
  }

  /** Position of the first occurrence of `x` in `s`. */
  function IndexOf<T(==)>(s: seq<T>, x: T): (i: nat)
    requires x in s
    ensures i < |s| && s[i] == x
    ensures forall j :: 0 <= j < i ==> s[j] != x
  {
    if s[0] == x then 0 else 1 + IndexOf(s[1..], x)
  }

  /** In a list without repetitions, the position of the element at `i` is `i`. */
  lemma IndexOfDistinct<T>(s: seq<T>, i: nat)
    requires Distinct(s) && i < |s|
    ensures IndexOf(s, s[i]) == i
  {
  }

  /** `s` with every element of `drop` removed and the order of the rest kept. */
  function Without<T(==,!new)>(s: seq<T>, drop: set<T>): (r: seq<T>)
    ensures forall x :: x in r <==> x in s && x !in drop
    ensures |r| <= |s|
    ensures Distinct(s) ==> Distinct(r)
  {
    if s == [] then []
    else if s[0] in drop then Without(s[1..], drop)
    else
      var rest := Without(s[1..], drop);
      assert Distinct(s) ==> s[0] !in s[1..];
      [s[0]] + rest
  }

  /** Every position one place further on. */
  function Shifted(p: seq<nat>): (r: seq<nat>)
    ensures |r| == |p| && forall k :: 0 <= k < |p| ==> r[k] == p[k] + 1
  {
    if p == [] then [] else [p[0] + 1] + Shifted(p[1..])
  }

  /** Where each kept element of `Without(s, drop)` stands in `s`. */
  function KeptPositions<T(!new)>(s: seq<T>, drop: set<T>): seq<nat>
  {
    if s == [] then []
    else if s[0] in drop then Shifted(KeptPositions(s[1..], drop))
    else [0] + Shifted(KeptPositions(s[1..], drop))
  }

  /** There is one position per kept element. */
  lemma {:induction false} KeptPositionsLength<T(!new)>(s: seq<T>, drop: set<T>)
    ensures |KeptPositions(s, drop)| == |Without(s, drop)|
  {
    if s != [] {
      KeptPositionsLength(s[1..], drop);
    }
  }

  /** The positions lie inside `s` and strictly increase. */
  lemma {:induction false} KeptPositionsIncrease<T(!new)>(s: seq<T>, drop: set<T>)
    ensures forall k :: 0 <= k < |KeptPositions(s, drop)| ==> KeptPositions(s, drop)[k] < |s|
    ensures forall k, l :: 0 <= k < l < |KeptPositions(s, drop)| ==>
      KeptPositions(s, drop)[k] < KeptPositions(s, drop)[l]
  {
    if s != [] {
      KeptPositionsIncrease(s[1..], drop);
      var shifted := Shifted(KeptPositions(s[1..], drop));
      if s[0] !in drop {
        var p := [0] + shifted;
        assert forall k :: 0 < k < |p| ==> p[k] == shifted[k - 1];
      }
    }
  }

  /** The element at each position is the kept element it stands for. */
  lemma {:induction false} KeptPositionsName<T(!new)>(s: seq<T>, drop: set<T>)
    ensures |KeptPositions(s, drop)| == |Without(s, drop)|
    ensures forall k :: 0 <= k < |KeptPositions(s, drop)| ==>
      KeptPositions(s, drop)[k] < |s| && s[KeptPositions(s, drop)[k]] == Without(s, drop)[k]
  {
    KeptPositionsLength(s, drop);
    KeptPositionsIncrease(s, drop);
    if s != [] {
      KeptPositionsName(s[1..], drop);
      var kept, rest := Without(s[1..], drop), KeptPositions(s[1..], drop);
      var shifted := Shifted(rest);
      forall k | 0 <= k < |rest|
        ensures s[shifted[k]] == kept[k]
      {
        assert s[rest[k] + 1] == s[1..][rest[k]];
      }
      if s[0] !in drop {
        var p := [0] + shifted;
        assert forall k :: 0 < k < |p| ==> p[k] == shifted[k - 1];
      }
    }
  }

  /** Removal keeps the order: in a list without repetitions, kept names stand in their original order. */
  lemma WithoutKeepsOrder<T(!new)>(s: seq<T>, drop: set<T>)
    requires Distinct(s)
    ensures forall i, j :: 0 <= i < j < |Without(s, drop)| ==>
      IndexOf(s, Without(s, drop)[i]) < IndexOf(s, Without(s, drop)[j])
  {
    var r, p := Without(s, drop), KeptPositions(s, drop);
    KeptPositionsName(s, drop);
    KeptPositionsIncrease(s, drop);
    forall i, j | 0 <= i < j < |r|
      ensures IndexOf(s, r[i]) < IndexOf(s, r[j])
    {
      IndexOfDistinct(s, p[i]);
      IndexOfDistinct(s, p[j]);
    }
  }

  /** Removing nothing that occurs keeps the list as it is. */
  lemma {:induction false} WithoutNothing<T(!new)>(s: seq<T>, drop: set<T>)
    requires forall x :: x in s ==> x !in drop
    ensures Without(s, drop) == s
  {
    if s != [] {
      WithoutNothing(s[1..], drop);
    }
  }

  /** Removing two sets one after the other is removing their union. */
  lemma {:induction false} WithoutTwice<T(!new)>(s: seq<T>, a: set<T>, b: set<T>)
    ensures Without(Without(s, a), b) == Without(s, a + b)
  {
    if s != [] {
      WithoutTwice(s[1..], a, b);
    }
  }

  /** `s` followed by `x` unless `x` already occurs: the column list after `df[x] = ...`. */
  function WithColumn<T(==,!new)>(s: seq<T>, x: T): (r: seq<T>)
    ensures forall y :: y in r <==> y in s || y == x
    ensures Distinct(s) ==> Distinct(r)
    ensures |s| <= |r| && r[..|s|] == s
  {
    if x in s then s else s + [x]
  }
}
