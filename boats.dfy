/**
 * Boats as the leaderboard sees them, the `ascRaceTime` comparator and
 * the stable ascending-time order that `Arrays.sort` produces with it.
 */
module Boats {

  /** A boat's name and its recorded `GetFastestTime()` (a Java `long`). */
  datatype Boat = Boat(name: string, fastestTime: int)

  /**
   * `ascRaceTime`: `Long.compare` of the two boats' fastest times, which
   * answers -1, 0 or 1 and never overflows.
   */
  function CompareByTime(a: Boat, b: Boat): (r: int)
    ensures -1 <= r <= 1
    ensures r < 0 <==> a.fastestTime < b.fastestTime
    ensures r == 0 <==> a.fastestTime == b.fastestTime
    ensures r > 0 <==> a.fastestTime > b.fastestTime
  {
    if a.fastestTime < b.fastestTime then -1
    else if a.fastestTime == b.fastestTime then 0
    else 1
  }

  /** The comparator is antisymmetric: swapping the arguments negates it. */
  lemma CompareByTimeAntisymmetric(a: Boat, b: Boat)
    ensures CompareByTime(a, b) == -CompareByTime(b, a)
  {
  }

  /** ... and transitive, so together it is a total preorder on boats. */
  lemma CompareByTimeTransitive(a: Boat, b: Boat, c: Boat)
    requires CompareByTime(a, b) <= 0 && CompareByTime(b, c) <= 0
    ensures CompareByTime(a, c) <= 0
  {
  }

  /** Ascending by fastest time. */
  ghost predicate Sorted(s: seq<Boat>) {
    forall i, j :: 0 <= i < j < |s| ==> s[i].fastestTime <= s[j].fastestTime
  }

  /** The boats of `s` whose time is `t`, in their order in `s`. */
  function WithTime(s: seq<Boat>, t: int): seq<Boat> {
    if s == [] then []
    else WithTime(s[..|s| - 1], t) + (if s[|s| - 1].fastestTime == t then [s[|s| - 1]] else [])
  }

  /**
   * Inserts `x` behind every boat at its end of `s` that does not compare
   * greater than it: a boat equal in time to `x` stays in front of it.
   */
  function Insert(s: seq<Boat>, x: Boat): (r: seq<Boat>)
  {
    if s == [] then [x]
    else if CompareByTime(s[|s| - 1], x) <= 0 then s + [x]
    else Insert(s[..|s| - 1], x) + [s[|s| - 1]]
  }

  /** Stable sort by `CompareByTime`: insertion of each boat in turn. */
  function Sort(s: seq<Boat>): (r: seq<Boat>)
  {
    if s == [] then [] else Insert(Sort(s[..|s| - 1]), s[|s| - 1])
  }

  lemma {:induction false} InsertSorted(s: seq<Boat>, x: Boat)
    requires Sorted(s)
    ensures Sorted(Insert(s, x))
    decreases |s|
  {
    if s != [] && CompareByTime(s[|s| - 1], x) > 0 {
      var init := s[..|s| - 1];
      InsertSorted(init, x);
      InsertBounds(init, x, s[|s| - 1].fastestTime);
    }
  }

  /** Every boat of `Insert(s, x)` is no later than a bound both `s` and `x` respect. */
  lemma {:induction false} InsertBounds(s: seq<Boat>, x: Boat, bound: int)
    requires forall i :: 0 <= i < |s| ==> s[i].fastestTime <= bound
    requires x.fastestTime <= bound
    ensures forall i :: 0 <= i < |Insert(s, x)| ==> Insert(s, x)[i].fastestTime <= bound
    decreases |s|
  {
    if s != [] && CompareByTime(s[|s| - 1], x) > 0 {
      InsertBounds(s[..|s| - 1], x, bound);
    }
  }

  lemma {:induction false} InsertPermutes(s: seq<Boat>, x: Boat)
    ensures multiset(Insert(s, x)) == multiset(s) + multiset{x}
    decreases |s|
  {
    if s != [] && CompareByTime(s[|s| - 1], x) > 0 {
      var init := s[..|s| - 1];
      InsertPermutes(init, x);
      assert s == init + [s[|s| - 1]];
    }
  }

  /** Only boats later than `x` end up behind it, so `x` follows every boat of its own time. */
  lemma {:induction false} InsertKeepsTies(s: seq<Boat>, x: Boat, t: int)
    ensures WithTime(Insert(s, x), t) == WithTime(s, t) + (if x.fastestTime == t then [x] else [])
    decreases |s|
  {
    if s == [] {
      assert WithTime([x], t) == WithTime([], t) + (if x.fastestTime == t then [x] else []) by {
        assert [x][..0] == [];
      }
    } else if CompareByTime(s[|s| - 1], x) <= 0 {
      assert (s + [x])[..|s|] == s;
    } else {
      var init, last := s[..|s| - 1], s[|s| - 1];
      var ins := Insert(init, x);
      InsertKeepsTies(init, x, t);
      assert (ins + [last])[..|ins|] == ins;
      if x.fastestTime == t {
        assert last.fastestTime != t;
      }
    }
  }

  /** `UpdateOrder` leaves the boats ascending by time. */
  lemma {:induction false} SortIsSorted(s: seq<Boat>)
    ensures Sorted(Sort(s))
    decreases |s|
  {
    if s != [] {
      SortIsSorted(s[..|s| - 1]);
      InsertSorted(Sort(s[..|s| - 1]), s[|s| - 1]);
    }
  }

  /** `UpdateOrder` only rearranges: no boat added, none dropped. */
  lemma {:induction false} SortPermutes(s: seq<Boat>)
    ensures multiset(Sort(s)) == multiset(s)
    decreases |s|
  {
    if s != [] {
      var init := s[..|s| - 1];
      SortPermutes(init);
      InsertPermutes(Sort(init), s[|s| - 1]);
      assert s == init + [s[|s| - 1]];
    }
  }

  /** `UpdateOrder` is stable: the boats of each time keep their relative order. */
  lemma {:induction false} SortIsStable(s: seq<Boat>, t: int)
    ensures WithTime(Sort(s), t) == WithTime(s, t)
    decreases |s|
  {
    if s != [] {
      var init := s[..|s| - 1];
      SortIsStable(init, t);
      InsertKeepsTies(Sort(init), s[|s| - 1], t);
    }
  }

  /** Sorting boats that are already in order changes nothing. */
  lemma {:induction false} SortOfSorted(s: seq<Boat>)
    requires Sorted(s)
    ensures Sort(s) == s
    decreases |s|
  {
    if s != [] {
      var init := s[..|s| - 1];
      SortOfSorted(init);
      assert s == init + [s[|s| - 1]];
    }
  }

  /** Calling `UpdateOrder` twice without new times gives the order of one call. */
  lemma SortIdempotent(s: seq<Boat>)
    ensures Sort(Sort(s)) == Sort(s)
  {
    SortIsSorted(s);
    SortOfSorted(Sort(s));
  }

  /** Ordering keeps the number of boats. */
  lemma SortKeepsLength(s: seq<Boat>)
    ensures |Sort(s)| == |s|
  {
    SortPermutes(s);
    assert |Sort(s)| == |multiset(Sort(s))| == |multiset(s)| == |s|;
  }

  /** In an ascending list, no boat in front of index `k` is later than one from `k` on. */
  lemma SortedSplit(r: seq<Boat>, k: nat)
    requires Sorted(r) && k <= |r|
    ensures forall a, b :: a in r[..k] && b in r[k..] ==> a.fastestTime <= b.fastestTime
  {
  }

  /**
   * The first `k` boats of the ranking are drawn from the race's boats and
   * none of them is later than any boat left out.
   */
  lemma TopBoatsAreFastest(s: seq<Boat>, k: nat)
    requires k <= |s|
    ensures |Sort(s)| == |s|
    ensures multiset(Sort(s)[..k]) + multiset(Sort(s)[k..]) == multiset(s)
    ensures forall a, b :: a in Sort(s)[..k] && b in Sort(s)[k..] ==> a.fastestTime <= b.fastestTime
  {
    var r := Sort(s);
    SortKeepsLength(s);
    SortPermutes(s);
    SortIsSorted(s);
    assert r == r[..k] + r[k..];
    SortedSplit(r, k);
  }
}
