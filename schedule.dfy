/**
 * The obstacle spawn schedule: each lane has a row of spawn times; a
 * time that the race clock has reached fires once and is then
 * overwritten with a far-future sentinel so that it cannot fire again.
 */
module Schedule {

  /** Tolerance of the "time reached" test (0.0001f in the game). */
  const Epsilon: real := 0.0001

  /** The value a fired slot is overwritten with (9999999f in the game). */
  const Sentinel: real := 9999999.0

  /** A slot holding time `t` is due once `t - clock < Epsilon`. */
  predicate Due(t: real, clock: real) {
    t - clock < Epsilon
  }

  /** What a slot holds after a spawn pass at `clock`. */
  function SlotAfter(t: real, clock: real): real {
    if Due(t, clock) then Sentinel else t
  }

  /** A spent slot stays spent while the clock stays at or below Sentinel - Epsilon. */
  lemma SpentSlotStaysQuiet(clock: real)
    requires clock <= Sentinel - Epsilon
    ensures !Due(Sentinel, clock)
    ensures SlotAfter(Sentinel, clock) == Sentinel
  {
  }

  /**
   * The slots of `row` that fire at `clock`, in ascending order: every due
   * slot exactly once, several in one pass if several are due.
   */
  function DueSlots(row: seq<real>, clock: real): (slots: seq<nat>)
    ensures forall j :: j in slots <==> 0 <= j < |row| && Due(row[j], clock)
    ensures forall a, b :: 0 <= a < b < |slots| ==> slots[a] < slots[b]
  {
    if row == [] then []
    else
      var init := row[..|row| - 1];
      assert forall j :: 0 <= j < |init| ==> init[j] == row[j];
      var earlier := DueSlots(init, clock);
      assert forall a :: 0 <= a < |earlier| ==> earlier[a] < |init| by {
        forall a | 0 <= a < |earlier| ensures earlier[a] < |init| {
          assert earlier[a] in earlier;
        }
      }
      earlier + (if Due(row[|row| - 1], clock) then [|row| - 1] else [])
  }

  /**
   * Two slots scheduled at the same time both fire in the frame that
   * reaches it, the earlier slot first.
   */
  lemma DuplicateTimesBothFire(row: seq<real>, clock: real, j: nat, k: nat)
    requires j < k < |row| && row[j] == row[k] && Due(row[j], clock)
    ensures exists p, q :: 0 <= p < q < |DueSlots(row, clock)|
              && DueSlots(row, clock)[p] == j && DueSlots(row, clock)[q] == k
  {
    var slots := DueSlots(row, clock);
    assert j in slots && k in slots;
    var p :| 0 <= p < |slots| && slots[p] == j;
    var q :| 0 <= q < |slots| && slots[q] == k;
  }

  /**
   * How many times a slot that starts at `t` fires over successive frames
   * whose race clocks are `clocks`.
   */
  function FireCount(t: real, clocks: seq<real>): nat
    decreases |clocks|
  {
    if clocks == [] then 0
    else (if Due(t, clocks[0]) then 1 else 0) + FireCount(SlotAfter(t, clocks[0]), clocks[1..])
  }

  /**
   * Over any run of frames whose clock stays at or below Sentinel - Epsilon, a slot
   * fires exactly once if some frame reaches its time, and never otherwise.
   */
  lemma {:induction false} FiresExactlyOnce(t: real, clocks: seq<real>)
    requires forall k :: 0 <= k < |clocks| ==> clocks[k] <= Sentinel - Epsilon
    ensures FireCount(t, clocks) == if exists k :: 0 <= k < |clocks| && Due(t, clocks[k]) then 1 else 0
    decreases |clocks|
  {
    if clocks != [] {
      var rest := clocks[1..];
      FiresExactlyOnce(SlotAfter(t, clocks[0]), rest);
      if Due(t, clocks[0]) {
        assert !exists k :: 0 <= k < |rest| && Due(Sentinel, rest[k]);
      } else {
        if exists k :: 0 <= k < |clocks| && Due(t, clocks[k]) {
          var k :| 0 <= k < |clocks| && Due(t, clocks[k]);
          assert Due(t, rest[k - 1]);
        }
        if exists k :: 0 <= k < |rest| && Due(t, rest[k]) {
          var k :| 0 <= k < |rest| && Due(t, rest[k]);
          assert Due(t, clocks[k + 1]);
        }
      }
    }
  }

  /** The at-most-once guarantee on its own, under the same bound on the clock. */
  lemma FiresAtMostOnce(t: real, clocks: seq<real>)
    requires forall k :: 0 <= k < |clocks| ==> clocks[k] <= Sentinel - Epsilon
    ensures FireCount(t, clocks) <= 1
  {
    FiresExactlyOnce(t, clocks);
  }
}
