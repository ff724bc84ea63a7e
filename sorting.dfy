/** `Array.prototype.toSorted` with a two-level numeric comparator
    (`a.k1 - b.k1 || a.k2 - b.k2`), as the pre-solve and the face-rotation
    pipeline use it. The sort is stable, so it orders positions by the key
    and, among equal keys, by their original position. The model returns
    that order as the list of original positions. */
module Sorting {

  /** A sort key, compared lexicographically. */
  type Key = (real, real)

  predicate KeyLess(a: Key, b: Key)
  {
    a.0 < b.0 || (a.0 == b.0 && a.1 < b.1)
  }

  /** Position `i` of `s` comes before position `j` in the stable order. */
  predicate Precedes<T>(s: seq<T>, key: T -> Key, i: nat, j: nat)
    requires i < |s| && j < |s|
  {
    KeyLess(key(s[i]), key(s[j])) || (key(s[i]) == key(s[j]) && i < j)
  }

  predicate InRange(order: seq<int>, n: nat)
  {
    forall k :: 0 <= k < |order| ==> 0 <= order[k] < n
  }

  /** Every pair of listed positions appears in stable order. */
  predicate InStableOrder<T>(s: seq<T>, key: T -> Key, order: seq<nat>)
    requires InRange(order, |s|)
  {
    forall a, b :: 0 <= a < b < |order| ==> Precedes(s, key, order[a], order[b])
  }

  /** `order` lists each of 0..n-1 exactly once. */
  predicate IsPermutation(order: seq<int>, n: nat)
  {
    && |order| == n
    && InRange(order, n)
    && (forall i :: 0 <= i < n ==> i in order)
    && (forall a, b :: 0 <= a < b < |order| ==> order[a] != order[b])
  }

  lemma PrecedesIsStrictTotalOrder<T>(s: seq<T>, key: T -> Key, i: nat, j: nat, k: nat)
    requires i < |s| && j < |s| && k < |s|
    ensures !Precedes(s, key, i, i)
    ensures i != j ==> Precedes(s, key, i, j) || Precedes(s, key, j, i)
    ensures Precedes(s, key, i, j) && Precedes(s, key, j, k) ==> Precedes(s, key, i, k)
  {
  }

  /** Inserts position `x` into a stably ordered list of other positions. */
  function Insert<T>(s: seq<T>, key: T -> Key, x: nat, order: seq<nat>): (r: seq<nat>)
    requires x < |s| && x !in order
    requires InRange(order, |s|) && InStableOrder(s, key, order)
    ensures |r| == |order| + 1
    ensures forall y :: y in r <==> y == x || y in order
    ensures InRange(r, |s|) && InStableOrder(s, key, r)
  {
    if order == [] then [x]
    else if Precedes(s, key, x, order[0]) then
      PrecedesAll(s, key, x, order);
      [x] + order
    else
      var rest := Insert(s, key, x, order[1..]);
      HeadPrecedesRest(s, key, x, order, rest);
      [order[0]] + rest
  }

  /** A position that precedes the head of a stably ordered list precedes
      every element of it. */
  lemma PrecedesAll<T>(s: seq<T>, key: T -> Key, x: nat, order: seq<nat>)
    requires x < |s| && InRange(order, |s|) && InStableOrder(s, key, order)
    requires order != [] && Precedes(s, key, x, order[0])
    ensures forall b :: 0 <= b < |order| ==> Precedes(s, key, x, order[b])
  {
    forall b | 0 <= b < |order|
      ensures Precedes(s, key, x, order[b])
    {
      if b > 0 {
        PrecedesIsStrictTotalOrder(s, key, x, order[0], order[b]);
      }
    }
  }

  /** When `x` does not precede the head, the head precedes `x` and hence
      everything the recursive insertion produced. */
  lemma HeadPrecedesRest<T>(s: seq<T>, key: T -> Key, x: nat, order: seq<nat>, rest: seq<nat>)
    requires x < |s| && x !in order
    requires InRange(order, |s|) && InStableOrder(s, key, order)
    requires order != [] && !Precedes(s, key, x, order[0])
    requires InRange(rest, |s|) && forall y :: y in rest <==> y == x || y in order[1..]
    ensures forall b :: 0 <= b < |rest| ==> Precedes(s, key, order[0], rest[b])
  {
    PrecedesIsStrictTotalOrder(s, key, x, order[0], x);
    forall b | 0 <= b < |rest|
      ensures Precedes(s, key, order[0], rest[b])
    {
      if rest[b] != x {
        assert rest[b] in order[1..];
        var c :| 0 <= c < |order[1..]| && order[1..][c] == rest[b];
        assert order[c + 1] == rest[b];
      }
    }
  }

  /** The stable order of positions 0..n-1. */
  function SortPrefix<T>(s: seq<T>, key: T -> Key, n: nat): (r: seq<nat>)
    requires n <= |s|
    ensures |r| == n && InRange(r, n)
    ensures forall i :: 0 <= i < n ==> i in r
    ensures InRange(r, |s|) && InStableOrder(s, key, r)
  {
    if n == 0 then []
    else
      var prev := SortPrefix(s, key, n - 1);
      var r := Insert(s, key, n - 1, prev);
      assert forall k :: 0 <= k < |r| ==> r[k] in r;
      r
  }

  /** The positions of `s` in the order `s.toSorted(cmp)` lists them. */
  function StableOrder<T>(s: seq<T>, key: T -> Key): (order: seq<nat>)
    ensures IsPermutation(order, |s|)
    ensures InStableOrder(s, key, order)
  {
    var order := SortPrefix(s, key, |s|);
    forall a, b | 0 <= a < b < |order| ensures order[a] != order[b] {
      PrecedesIsStrictTotalOrder(s, key, order[a], order[a], order[a]);
    }
    order
  }

  /** A strictly increasing list of n integers drawn from 0..n-1 is 0, 1, ..., n-1. */
  lemma {:induction false} StrictlyIncreasingIsIdentity(v: seq<int>)
    requires forall a, b :: 0 <= a < b < |v| ==> v[a] < v[b]
    requires forall a :: 0 <= a < |v| ==> 0 <= v[a] < |v|
    ensures forall a :: 0 <= a < |v| ==> v[a] == a
  {
    if |v| > 0 {
      var n := |v|;
      assert v[n - 1] == n - 1 by {
        AtLeastIndex(v, n - 1);
      }
      var w := v[..n - 1];
      forall a | 0 <= a < |w| ensures 0 <= w[a] < |w| {
        assert v[a] < v[n - 1];
      }
      StrictlyIncreasingIsIdentity(w);
      forall a | 0 <= a < n ensures v[a] == a {
        if a < n - 1 { assert w[a] == v[a]; }
      }
    }
  }

  lemma {:induction false} AtLeastIndex(v: seq<int>, a: nat)
    requires a < |v|
    requires forall i, j :: 0 <= i < j < |v| ==> v[i] < v[j]
    requires forall i :: 0 <= i < |v| ==> 0 <= v[i]
    ensures v[a] >= a
  {
    if a > 0 {
      AtLeastIndex(v, a - 1);
    }
  }
}
