/** Ranges of natural numbers and their sorted listings. */
module Ranges {
  lemma {:induction false} LeastOf(s: set<nat>)
    requires s != {}
    ensures exists m :: m in s && forall k :: k in s ==> m <= k
  {
    var x :| x in s;
    if s == {x} {
    } else {
      var rest := s - {x};
      LeastOf(rest);
      var m :| m in rest && forall k :: k in rest ==> m <= k;
      var least := if m < x then m else x;
      assert least in s && forall k :: k in s ==> least <= k by {
        assert forall k :: k in s ==> k == x || k in rest;
      }
    }
  }

  ghost predicate Increasing(listing: seq<nat>) {
    forall i, j :: 0 <= i < j < |listing| ==> listing[i] < listing[j]
  }

  /** The listing holds the keys that are not left, in order, all below the ones left. */
  ghost predicate Listed(keys: set<nat>, rest: set<nat>, listing: seq<nat>) {
    && rest <= keys && Increasing(listing)
    && (forall k :: k in keys <==> k in rest || k in listing)
    && (forall i, k :: 0 <= i < |listing| && k in rest ==> listing[i] < k)
  }

  lemma ListNext(keys: set<nat>, rest: set<nat>, listing: seq<nat>, m: nat)
    requires Listed(keys, rest, listing) && m in rest && (forall k :: k in rest ==> m <= k)
    ensures Listed(keys, rest - {m}, listing + [m])
  {
    assert forall k :: k in listing + [m] <==> k in listing || k == m;
  }

  /** `sorted(keys)`. */
  method Sorted(keys: set<nat>) returns (sorted: seq<nat>)
    ensures forall i, j :: 0 <= i < j < |sorted| ==> sorted[i] < sorted[j]
    ensures forall k :: k in keys <==> k in sorted
  {
    sorted := [];
    var rest := keys;
    while rest != {}
      invariant Listed(keys, rest, sorted)
      decreases rest
    {
      LeastOf(rest);
      var m :| m in rest && forall k :: k in rest ==> m <= k;
      ListNext(keys, rest, sorted, m);
      sorted := sorted + [m];
      rest := rest - {m};
    }
  }

  lemma {:induction false} RangeCardinality(keys: set<nat>, n: nat)
    requires forall q :: q in keys <==> 1 <= q <= n
    ensures |keys| == n
  {
    if n == 0 {
      assert keys == {};
    } else {
      RangeCardinality(keys - {n}, n - 1);
    }
  }

  /** A strictly increasing listing of 1..n is 1, 2, ..., n. */
  lemma {:induction false} SortedRange(sorted: seq<nat>, n: nat, i: nat)
    requires forall j, k :: 0 <= j < k < |sorted| ==> sorted[j] < sorted[k]
    requires forall q :: q in sorted <==> 1 <= q <= n
    requires i <= |sorted|
    ensures forall j :: 0 <= j < i ==> sorted[j] == j + 1
  {
    if i > 0 {
      SortedRange(sorted, n, i - 1);
      assert sorted[i - 1] in sorted;
      if i > 1 { assert sorted[i - 2] < sorted[i - 1]; }
      assert i <= sorted[i - 1] <= n;
      assert i in sorted;
      var k :| 0 <= k < |sorted| && sorted[k] == i;
      assert k == i - 1;
    }
  }
}
