/**
 * Ordering rated tasks from the highest rating to the lowest.
 *
 * The classifier orders its records with a bubble sort that swaps two
 * neighbours only when the left one is rated strictly lower.  This module
 * gives the order it produces an independent definition, `Ranked` (a
 * stable insertion sort), proves what that order is (non-increasing, a
 * permutation, stable, and the only order with those properties), and
 * proves the in-place bubble sort equal to it.
 */
module Ranking {
  import opened TaskRecords

  /** The records of `s` rated `v`, in the order they appear in `s`. */
  function RatedAs(s: seq<Classification>, v: int): (r: seq<Classification>)
    ensures |r| <= |s|
  {
    if s == [] then [] else (if s[0].rating == v then [s[0]] else []) + RatedAs(s[1..], v)
  }

  /** Ratings never increase from left to right. */
  predicate NonIncreasing(s: seq<Classification>)
  {
    forall k, l :: 0 <= k < l < |s| ==> s[k].rating >= s[l].rating
  }

  /**
   * `a` and `b` list, for every rating, the same records in the same
   * order: `a` is a rearrangement of `b` that keeps equally rated records
   * in their relative order.
   */
  ghost predicate SameRatedOrder(a: seq<Classification>, b: seq<Classification>)
  {
    forall v :: RatedAs(a, v) == RatedAs(b, v)
  }

  /** `x` placed just before the first record of `s` rated no higher than `x`. */
  function Insert(x: Classification, s: seq<Classification>): (r: seq<Classification>)
    ensures multiset(r) == multiset(s) + multiset{x}
  {
    if s == [] || s[0].rating <= x.rating then [x] + s
    else
      assert s == [s[0]] + s[1..];
      [s[0]] + Insert(x, s[1..])
  }

  /** The stable ranking of `s`, highest rating first. */
  function Ranked(s: seq<Classification>): (r: seq<Classification>)
    ensures multiset(r) == multiset(s)
  {
    if s == [] then []
    else
      assert s == [s[0]] + s[1..];
      Insert(s[0], Ranked(s[1..]))
  }

  lemma {:induction false} RatedAsMember(s: seq<Classification>, v: int, x: Classification)
    requires x in RatedAs(s, v)
    ensures x in s && x.rating == v
  {
    if s != [] && !(s[0].rating == v && x == s[0]) {
      RatedAsMember(s[1..], v, x);
    }
  }

  lemma {:induction false} RatedAsConcat(a: seq<Classification>, b: seq<Classification>, v: int)
    ensures RatedAs(a + b, v) == RatedAs(a, v) + RatedAs(b, v)
  {
    if a != [] {
      assert (a + b)[1..] == a[1..] + b;
      RatedAsConcat(a[1..], b, v);
    } else {
      assert a + b == b;
    }
  }

  lemma RatedAsCons(x: Classification, s: seq<Classification>, v: int)
    ensures RatedAs([x] + s, v) == (if x.rating == v then [x] else []) + RatedAs(s, v)
  {
    assert ([x] + s)[1..] == s;
  }

  lemma {:induction false} InsertRatedAs(x: Classification, s: seq<Classification>, v: int)
    ensures RatedAs(Insert(x, s), v) == RatedAs([x] + s, v)
  {
    if s != [] && s[0].rating > x.rating {
      var rest := s[1..];
      var px := if x.rating == v then [x] else [];
      var p0 := if s[0].rating == v then [s[0]] else [];
      assert s == [s[0]] + rest;
      assert Insert(x, s) == [s[0]] + Insert(x, rest);
      InsertRatedAs(x, rest, v);
      RatedAsCons(s[0], Insert(x, rest), v);
      RatedAsCons(x, rest, v);
      assert RatedAs(Insert(x, s), v) == p0 + (px + RatedAs(rest, v));
      RatedAsCons(s[0], rest, v);
      RatedAsCons(x, s, v);
      assert RatedAs([x] + s, v) == px + (p0 + RatedAs(rest, v));
      assert p0 == [] || px == [];
    }
  }

  lemma {:induction false} InsertNonIncreasing(x: Classification, s: seq<Classification>)
    requires NonIncreasing(s)
    ensures NonIncreasing(Insert(x, s))
  {
    if s == [] || s[0].rating <= x.rating {
    } else {
      var rest := Insert(x, s[1..]);
      InsertNonIncreasing(x, s[1..]);
      forall y | y in rest
        ensures s[0].rating >= y.rating
      {
        assert y in multiset(rest);
        if y != x {
          assert y in s[1..];
        }
      }
    }
  }

  /** The ranking is ordered from the highest rating to the lowest. */
  lemma {:induction false} RankedNonIncreasing(s: seq<Classification>)
    ensures NonIncreasing(Ranked(s))
  {
    if s != [] {
      RankedNonIncreasing(s[1..]);
      InsertNonIncreasing(s[0], Ranked(s[1..]));
    }
  }

  /** The ranking keeps equally rated records in their input order. */
  lemma {:induction false} RankedIsStable(s: seq<Classification>)
    ensures SameRatedOrder(Ranked(s), s)
  {
    if s != [] {
      RankedIsStable(s[1..]);
      assert [s[0]] + s[1..] == s;
      forall v
        ensures RatedAs(Ranked(s), v) == RatedAs(s, v)
      {
        InsertRatedAs(s[0], Ranked(s[1..]), v);
        RatedAsCons(s[0], Ranked(s[1..]), v);
        RatedAsCons(s[0], s[1..], v);
      }
    }
  }

  lemma {:induction false} RatedAsMultiplicity(s: seq<Classification>, v: int, x: Classification)
    ensures multiset(RatedAs(s, v))[x] == if x.rating == v then multiset(s)[x] else 0
  {
    if s != [] {
      RatedAsMultiplicity(s[1..], v, x);
      assert s == [s[0]] + s[1..];
    }
  }

  /** Keeping every rating's records in the same order makes a permutation. */
  lemma SameRatedOrderPermutes(a: seq<Classification>, b: seq<Classification>)
    requires SameRatedOrder(a, b)
    ensures multiset(a) == multiset(b)
  {
    forall x
      ensures multiset(a)[x] == multiset(b)[x]
    {
      RatedAsMultiplicity(a, x.rating, x);
      RatedAsMultiplicity(b, x.rating, x);
    }
  }

  lemma {:induction false} FirstIsHighest(s: seq<Classification>, x: Classification)
    requires NonIncreasing(s) && x in s
    ensures s[0].rating >= x.rating
  {
    var k :| 0 <= k < |s| && s[k] == x;
    if k > 0 {
      assert s[0].rating >= s[k].rating;
    }
  }

  /**
   * A non-increasing arrangement that keeps every rating's records in
   * order is unique: any stable descending sort yields the same sequence.
   */
  lemma {:induction false} StableOrderIsUnique(a: seq<Classification>, b: seq<Classification>)
    requires NonIncreasing(a) && NonIncreasing(b) && SameRatedOrder(a, b)
    ensures a == b
  {
    SameRatedOrderPermutes(a, b);
    assert |a| == |multiset(a)| == |multiset(b)| == |b|;
    if a != [] {
      var m, m' := a[0].rating, b[0].rating;
      assert RatedAs(a, m) == [a[0]] + RatedAs(a[1..], m);
      assert RatedAs(b, m') == [b[0]] + RatedAs(b[1..], m');
      RatedAsMember(a, m', RatedAs(b, m')[0]);
      FirstIsHighest(a, RatedAs(b, m')[0]);
      RatedAsMember(b, m, RatedAs(a, m)[0]);
      FirstIsHighest(b, RatedAs(a, m)[0]);
      assert m == m';
      assert a[0] == b[0];
      forall v
        ensures RatedAs(a[1..], v) == RatedAs(b[1..], v)
      {
        DropFirstRatedAs(a, v);
        DropFirstRatedAs(b, v);
      }
      StableOrderIsUnique(a[1..], b[1..]);
      assert a == [a[0]] + a[1..] && b == [b[0]] + b[1..];
    }
  }

  lemma DropFirstRatedAs(s: seq<Classification>, v: int)
    requires s != []
    ensures RatedAs(s[1..], v) == if s[0].rating == v then RatedAs(s, v)[1..] else RatedAs(s, v)
  {
  }

  lemma RatedAsSwapPair(x: Classification, y: Classification, v: int)
    requires x.rating != y.rating
    ensures RatedAs([x, y], v) == RatedAs([y, x], v)
  {
    assert [x, y][1..] == [y] && [y, x][1..] == [x];
    assert RatedAs([x], v) == (if x.rating == v then [x] else []) + RatedAs([], v);
    assert RatedAs([y], v) == (if y.rating == v then [y] else []) + RatedAs([], v);
  }

  /** Swapping two neighbours rated differently keeps every rating's order. */
  lemma SwapKeepsRatedOrder(s: seq<Classification>, j: nat)
    requires j + 1 < |s| && s[j].rating != s[j + 1].rating
    ensures SameRatedOrder(s[j + 1 := s[j]][j := s[j + 1]], s)
  {
    var t := s[j + 1 := s[j]][j := s[j + 1]];
    var front, back := s[..j], s[j + 2..];
    assert s == front + ([s[j], s[j + 1]] + back);
    assert t == front + ([s[j + 1], s[j]] + back);
    forall v
      ensures RatedAs(t, v) == RatedAs(s, v)
    {
      RatedAsConcat(front, [s[j], s[j + 1]] + back, v);
      RatedAsConcat(front, [s[j + 1], s[j]] + back, v);
      RatedAsConcat([s[j], s[j + 1]], back, v);
      RatedAsConcat([s[j + 1], s[j]], back, v);
      RatedAsSwapPair(s[j], s[j + 1], v);
    }
  }

  lemma SameRatedOrderTransitive(a: seq<Classification>, b: seq<Classification>, c: seq<Classification>)
    requires SameRatedOrder(a, b) && SameRatedOrder(b, c)
    ensures SameRatedOrder(a, c)
  {
    forall v
      ensures RatedAs(a, v) == RatedAs(c, v)
    {
      assert RatedAs(a, v) == RatedAs(b, v);
    }
  }

  /** The swap through a temporary: the higher-rated `a[j+1]` moves down to `j`. */
  method SwapDown(a: array<Classification>, j: nat)
    requires j + 1 < a.Length && a[j].rating < a[j + 1].rating
    modifies a
    ensures a[j] == old(a[j + 1]) && a[j + 1] == old(a[j])
    ensures forall k :: 0 <= k < a.Length && k != j && k != j + 1 ==> a[k] == old(a[k])
    ensures SameRatedOrder(a[..], old(a[..]))
  {
    SwapKeepsRatedOrder(a[..], j);
    var higherScored := a[j + 1];
    a[j + 1] := a[j];
    a[j] := higherScored;
    assert a[..] == old(a[..])[j + 1 := old(a[j])][j := old(a[j + 1])];
  }

  /**
   * One pass of the classifier's bubble sort: `j` runs over `0 .. last-1`
   * and `a[j]`, `a[j+1]` are swapped when `a[j]` is rated strictly lower.
   * The pass carries the lowest rating of `a[0 .. last]` to position `last`
   * and leaves everything after `last` alone.
   */
  method BubblePass(a: array<Classification>, last: nat)
    requires last < a.Length
    requires forall k, l :: 0 <= k <= last < l < a.Length ==> a[k].rating >= a[l].rating
    modifies a
    ensures SameRatedOrder(a[..], old(a[..]))
    ensures forall k :: 0 <= k <= last ==> a[k].rating >= a[last].rating
    ensures forall k, l :: 0 <= k <= last < l < a.Length ==> a[k].rating >= a[l].rating
    ensures forall l :: last < l < a.Length ==> a[l] == old(a[l])
  {
    for j := 0 to last
      invariant SameRatedOrder(a[..], old(a[..]))
      invariant forall k :: 0 <= k <= j ==> a[k].rating >= a[j].rating
      invariant forall k, l :: 0 <= k <= last < l < a.Length ==> a[k].rating >= a[l].rating
      invariant forall l :: last < l < a.Length ==> a[l] == old(a[l])
    {
      if a[j].rating < a[j + 1].rating {
        ghost var before := a[..];
        SwapDown(a, j);
        SameRatedOrderTransitive(a[..], before, old(a[..]));
      }
    }
  }

  /**
   * The classifier's bubble sort: pass `i` runs over `0 .. n-2-i`, so after
   * it the last `i+1` cells hold the lowest ratings, in order.
   */
  method BubbleSort(a: array<Classification>)
    modifies a
    ensures a[..] == Ranked(old(a[..]))
  {
    ghost var input := a[..];
    var n := a.Length;
    for i := 0 to n
      invariant SameRatedOrder(a[..], input)
      invariant forall k, l :: n - i <= k < l < n ==> a[k].rating >= a[l].rating
      invariant forall k, l :: 0 <= k < n - i <= l < n ==> a[k].rating >= a[l].rating
    {
      ghost var before := a[..];
      BubblePass(a, n - 1 - i);
      forall v
        ensures RatedAs(a[..], v) == RatedAs(input, v)
      {
        assert RatedAs(a[..], v) == RatedAs(before, v);
      }
    }
    RankedNonIncreasing(input);
    RankedIsStable(input);
    StableOrderIsUnique(a[..], Ranked(input));
  }
}
