/**
 * The race leaderboard: a view over the caller's own boat array, sorted
 * in place by ascending fastest time and read from the front.
 */
module Ranking {
  import opened Boats
  import opened Decimal

  /** One line of `GetTimes`: the boat's name followed by its time. */
  function TimesEntry(b: Boat): string {
    b.name + LongString(b.fastestTime)
  }

  /** A `GetTimes` line starts with the boat's name and its rest reads back as the time. */
  lemma TimesEntryReadsBack(b: Boat)
    ensures |TimesEntry(b)| > |b.name|
    ensures TimesEntry(b)[..|b.name|] == b.name
    ensures ParseLong(TimesEntry(b)[|b.name|..]) == b.fastestTime
  {
    var e := TimesEntry(b);
    assert e[|b.name|..] == LongString(b.fastestTime);
    LongStringRoundTrip(b.fastestTime);
  }

  /**
   * Where `Insert` puts `x`: behind the first `j` boats, the last of which
   * is not later than `x`, and in front of the rest, all of which are.
   */
  lemma {:induction false} InsertSplits(prefix: seq<Boat>, j: nat, x: Boat)
    requires j <= |prefix|
    requires j == 0 || CompareByTime(prefix[j - 1], x) <= 0
    requires forall k :: j <= k < |prefix| ==> CompareByTime(prefix[k], x) > 0
    ensures Insert(prefix, x) == prefix[..j] + [x] + prefix[j..]
    decreases |prefix|
  {
    if |prefix| == j {
      assert prefix[..j] == prefix && prefix[j..] == [];
    } else {
      var init := prefix[..|prefix| - 1];
      InsertSplits(init, j, x);
      assert init[..j] == prefix[..j];
      assert init[j..] + [prefix[|prefix| - 1]] == prefix[j..];
    }
  }

  /**
   * The array after one pass, read cell by cell: the boats in front of `j`
   * as they were, `x` at `j`, the later boats shifted up one cell.
   */
  lemma ShiftedIsInsert(prefix: seq<Boat>, r: seq<Boat>, j: nat, x: Boat)
    requires j <= |prefix| && |r| == |prefix| + 1
    requires j == 0 || CompareByTime(prefix[j - 1], x) <= 0
    requires forall k :: j <= k < |prefix| ==> CompareByTime(prefix[k], x) > 0
    requires forall k :: 0 <= k < j ==> r[k] == prefix[k]
    requires r[j] == x
    requires forall k :: j < k < |r| ==> r[k] == prefix[k - 1]
    ensures r == Insert(prefix, x)
  {
    InsertSplits(prefix, j, x);
    var spliced := prefix[..j] + [x] + prefix[j..];
    forall k | 0 <= k < |r| ensures r[k] == spliced[k] {
      if k > j {
        assert spliced[k] == prefix[j..][k - j - 1];
      }
    }
  }

  /**
   * One pass of the insertion sort: moves `a[i]` left past every boat of
   * `a[..i]` that is strictly later, so that boats of equal time keep
   * their order.
   */
  method InsertLast(a: array<Boat>, i: nat)
    requires i < a.Length
    modifies a
    ensures a[..i + 1] == Insert(old(a[..i]), old(a[i]))
    ensures a[i + 1..] == old(a[i + 1..])
  {
    ghost var prefix := a[..i];
    var x := a[i];
    var j := i;
    while j > 0 && CompareByTime(a[j - 1], x) > 0
      invariant 0 <= j <= i
      invariant forall k :: 0 <= k < j ==> a[k] == prefix[k]
      invariant forall k :: j < k <= i ==> a[k] == prefix[k - 1]
      invariant forall k :: i < k < a.Length ==> a[k] == old(a[k])
      invariant forall k :: j <= k < i ==> CompareByTime(prefix[k], x) > 0
    {
      a[j] := a[j - 1];
      j := j - 1;
    }
    a[j] := x;
    ShiftedIsInsert(prefix, a[..i + 1], j, x);
  }

  class Leaderboard {
    /** The caller's array itself: the leaderboard never copies it. */
    const sortedBoats: array<Boat>

    constructor (boats: array<Boat>)
      ensures sortedBoats == boats
    {
      sortedBoats := boats;
    }

    /**
     * `Arrays.sort(sortedBoats, ascRaceTime)`, written as a stable
     * in-place insertion sort; the caller's array is reordered.
     */
    method UpdateOrder()
      modifies sortedBoats
      ensures sortedBoats[..] == Sort(old(sortedBoats[..]))
      ensures Sorted(sortedBoats[..])
      ensures multiset(sortedBoats[..]) == multiset(old(sortedBoats[..]))
      ensures forall t :: WithTime(sortedBoats[..], t) == WithTime(old(sortedBoats[..]), t)
    {
      var a := sortedBoats;
      ghost var input := a[..];
      var i := 0;
      while i < a.Length
        invariant 0 <= i <= a.Length
        invariant a[..i] == Sort(input[..i])
        invariant a[i..] == input[i..]
      {
        assert input[..i + 1][..i] == input[..i];
        InsertLast(a, i);
        i := i + 1;
      }
      assert a[..] == a[..a.Length] && input == input[..a.Length];
      SortIsSorted(input);
      SortPermutes(input);
      forall t ensures WithTime(a[..], t) == WithTime(input, t) {
        SortIsStable(input, t);
      }
    }

    /** The first `places` boats of the current order, in a new array. */
    method GetTopBoats(places: int) returns (finalists: array<Boat>)
      requires 0 <= places <= sortedBoats.Length
      ensures fresh(finalists)
      ensures finalists[..] == sortedBoats[..places]
    {
      finalists := new Boat[places];
      for i := 0 to places
        invariant finalists[..i] == sortedBoats[..i]
      {
        finalists[i] := sortedBoats[i];
      }
      assert finalists[..] == finalists[..places];
    }

    /** The three fastest boats. */
    method GetPodium() returns (podium: array<Boat>)
      requires 3 <= sortedBoats.Length
      ensures fresh(podium)
      ensures podium[..] == sortedBoats[..3]
    {
      podium := GetTopBoats(3);
    }

    /** Name and time of each of the first `places` boats, in rank order. */
    method GetTimes(places: int) returns (out: array<string>)
      requires 0 <= places <= sortedBoats.Length
      ensures fresh(out)
      ensures out.Length == places
      ensures forall i :: 0 <= i < places ==> out[i] == TimesEntry(sortedBoats[i])
    {
      out := new string[places];
      for i := 0 to places
        invariant forall k :: 0 <= k < i ==> out[k] == TimesEntry(sortedBoats[k])
      {
        out[i] := sortedBoats[i].name + LongString(sortedBoats[i].fastestTime);
      }
    }
  }

  /**
   * A caller that builds the leaderboard over its boats and orders it sees
   * its own array ranked, and the podium is the three fastest of them.
   */
  method RankOwnBoats(boats: array<Boat>) returns (board: Leaderboard, podium: array<Boat>)
    requires 3 <= boats.Length
    modifies boats
    ensures board.sortedBoats == boats
    ensures boats[..] == Sort(old(boats[..]))
    ensures podium[..] == boats[..3]
    ensures forall a, b :: a in podium[..] && b in boats[3..] ==> a.fastestTime <= b.fastestTime
  {
    board := new Leaderboard(boats);
    board.UpdateOrder();
    podium := board.GetPodium();
    TopBoatsAreFastest(old(boats[..]), 3);
  }
}
