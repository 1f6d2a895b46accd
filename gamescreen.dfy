/**
 * The simulation part of one frame of the race screen: the gated race
 * clock, the spawn pass over the schedule, the start latch, the
 * background scroll offset and the obstacle drift pass.
 */
module Screen {
  import opened Schedule
  import opened Obstacles

  /** Size of the game window. */
  const Width: int := 1080
  const Height: int := 720

  /** New obstacles appear 100 above the top of the window. */
  const SpawnY: int := Height + 100

  /**
   * The two random draws of one spawn: an offset into the lane, below its
   * width (`nextInt(right - left)`), and the obstacle kind.
   */
  datatype SpawnChoice = SpawnChoice(xOffset: int, kind: ObstacleKind)

  /** What the frame reads from the player after it has moved. */
  datatype PlayerState = PlayerState(speed: real, y: int, height: int)

  /** Java's `/` on `int`: the quotient truncated toward zero. */
  function JavaDiv(a: int, b: int): (q: int)
    requires b > 0
    ensures a >= 0 ==> 0 <= a - q * b < b
    ensures a < 0 ==> -b < a - q * b <= 0
  {
    if a >= 0 then a / b else -((-a) / b)
  }

  /**
   * How far the background has scrolled: none until the player's centre
   * passes the middle of the window, after that exactly as far as keeps
   * the player's centre in the middle.
   */
  function BackgroundOffset(playerY: int, playerHeight: int): (offset: int)
    ensures offset >= 0
    ensures offset > 0 ==> playerY + JavaDiv(playerHeight, 2) - offset == Height / 2
    ensures offset == 0 ==> playerY + JavaDiv(playerHeight, 2) <= Height / 2
  {
    var centre := playerY + JavaDiv(playerHeight, 2);
    if centre > Height / 2 then centre - Height / 2 else 0
  }

  /** How far each obstacle drifts in a frame: faster once the course scrolls. */
  function DriftDistance(offset: int, playerSpeed: real): real {
    BaseDrift + (if offset > 0 then playerSpeed else 0.0)
  }

  /** The obstacle spawned in a lane from boundary `left` with the draws of `choice`. */
  function NewObstacle(left: int, choice: SpawnChoice, heights: ObstacleKind -> nat): Obstacle {
    Obstacle(left + choice.xOffset, SpawnY as real, heights(choice.kind), choice.kind)
  }

  /**
   * The obstacles a spawn pass adds to lane `i`, whose schedule row is
   * `row`: one per due slot, in slot order.
   */
  function LaneSpawns(row: seq<real>, clock: real, i: int, left: int, right: int,
                      roll: (int, int) -> SpawnChoice, heights: ObstacleKind -> nat): (spawned: seq<Obstacle>)
    requires forall j :: 0 <= j < |row| ==> 0 <= roll(i, j).xOffset < right - left
    ensures |spawned| == |DueSlots(row, clock)|
    ensures forall k :: 0 <= k < |spawned| ==>
              left <= spawned[k].x < right && spawned[k].y == SpawnY as real
  {
    var slots := DueSlots(row, clock);
    assert forall k :: 0 <= k < |slots| ==> slots[k] < |row| by {
      forall k | 0 <= k < |slots| ensures slots[k] < |row| {
        assert slots[k] in slots;
      }
    }
    var made := seq(|slots|, k requires 0 <= k < |slots| => NewObstacle(left, roll(i, slots[k]), heights));
    forall k | 0 <= k < |made| ensures left <= made[k].x < right && made[k].y == SpawnY as real {
      var j := slots[k];
      assert 0 <= roll(i, j).xOffset < right - left;
      assert made[k] == NewObstacle(left, roll(i, j), heights);
    }
    made
  }

  /** Examining slot `j` adds its obstacle exactly when it is due. */
  lemma LaneSpawnsStep(row: seq<real>, j: nat, clock: real, i: int, left: int, right: int,
                       roll: (int, int) -> SpawnChoice, heights: ObstacleKind -> nat)
    requires j < |row|
    requires forall k :: 0 <= k < |row| ==> 0 <= roll(i, k).xOffset < right - left
    ensures LaneSpawns(row[..j + 1], clock, i, left, right, roll, heights)
         == LaneSpawns(row[..j], clock, i, left, right, roll, heights)
            + (if Due(row[j], clock) then [NewObstacle(left, roll(i, j), heights)] else [])
  {
    assert row[..j + 1][..j] == row[..j];
  }

  /** The k-th obstacle a spawn pass adds is built from the k-th due slot's draws. */
  lemma LaneSpawnsFromSlots(row: seq<real>, clock: real, i: int, left: int, right: int,
                            roll: (int, int) -> SpawnChoice, heights: ObstacleKind -> nat)
    requires forall j :: 0 <= j < |row| ==> 0 <= roll(i, j).xOffset < right - left
    ensures forall k :: 0 <= k < |LaneSpawns(row, clock, i, left, right, roll, heights)| ==>
              LaneSpawns(row, clock, i, left, right, roll, heights)[k]
                == NewObstacle(left, roll(i, DueSlots(row, clock)[k]), heights)
  {
  }

  /**
   * Two slots of a lane scheduled at the same time both spawn in the frame
   * that reaches it, each with its own draws, the earlier slot's first.
   */
  lemma DuplicateTimesBothSpawn(row: seq<real>, clock: real, i: int, left: int, right: int,
                                roll: (int, int) -> SpawnChoice, heights: ObstacleKind -> nat, j: nat, k: nat)
    requires forall c :: 0 <= c < |row| ==> 0 <= roll(i, c).xOffset < right - left
    requires j < k < |row| && row[j] == row[k] && Due(row[j], clock)
    ensures exists p, q :: 0 <= p < q < |LaneSpawns(row, clock, i, left, right, roll, heights)|
              && LaneSpawns(row, clock, i, left, right, roll, heights)[p] == NewObstacle(left, roll(i, j), heights)
              && LaneSpawns(row, clock, i, left, right, roll, heights)[q] == NewObstacle(left, roll(i, k), heights)
  {
    var slots := DueSlots(row, clock);
    var spawned := LaneSpawns(row, clock, i, left, right, roll, heights);
    DuplicateTimesBothFire(row, clock, j, k);
    LaneSpawnsFromSlots(row, clock, i, left, right, roll, heights);
    var p, q :| 0 <= p < q < |slots| && slots[p] == j && slots[q] == k;
    assert spawned[p] == NewObstacle(left, roll(i, j), heights);
    assert spawned[q] == NewObstacle(left, roll(i, k), heights);
  }

  /** Freshly spawned obstacles start above the window, on the course. */
  lemma LaneSpawnsOnCourse(row: seq<real>, clock: real, i: int, left: int, right: int,
                           roll: (int, int) -> SpawnChoice, heights: ObstacleKind -> nat)
    requires forall j :: 0 <= j < |row| ==> 0 <= roll(i, j).xOffset < right - left
    ensures OnCourse(LaneSpawns(row, clock, i, left, right, roll, heights))
  {
  }

  /**
   * A lane after a frame: the spawns appended if the race was running,
   * then the drift pass if it is running now.
   */
  function AfterFrame(obs: seq<Obstacle>, spawning: bool, spawned: seq<Obstacle>, moving: bool, distance: real): seq<Obstacle> {
    var grown := if spawning then obs + spawned else obs;
    if moving then Drift(grown, 0, distance) else grown
  }

  /**
   * A frame never leaves an obstacle off the course, and adds no more
   * obstacles than it spawns.
   */
  lemma AfterFrameKeepsOnCourse(obs: seq<Obstacle>, spawning: bool, spawned: seq<Obstacle>, moving: bool, distance: real)
    requires OnCourse(obs) && OnCourse(spawned)
    ensures OnCourse(AfterFrame(obs, spawning, spawned, moving, distance))
  {
    var all := if spawning then obs + spawned else obs;
    assert OnCourse(all) by {
      forall k | 0 <= k < |all| ensures !Expired(all[k]) {
        if k >= |obs| {
          assert all[k] == spawned[k - |obs|];
        }
      }
    }
    if moving {
      DriftKeepsOnCourse(all, 0, distance);
    }
  }

  /** A frame adds no more obstacles than it spawns, and none before the race runs. */
  lemma AfterFrameGrowth(obs: seq<Obstacle>, spawning: bool, spawned: seq<Obstacle>, moving: bool, distance: real)
    ensures |AfterFrame(obs, spawning, spawned, moving, distance)| <= |obs| + (if spawning then |spawned| else 0)
  {
    var all := if spawning then obs + spawned else obs;
    if moving {
      DriftNeverGrows(all, 0, distance);
    }
  }

  class GameScreen {
    var started: bool
    /** The race clock (`totalDeltaTime`). */
    var totalTime: real
    var backgroundOffset: int
    /** Spawn times, one row per lane; shared with the game. */
    const obstacleTimes: array2<real>
    const lanes: array<Lane>
    /** Texture height of each obstacle kind. */
    const obstacleHeight: ObstacleKind -> nat

    /** One schedule row per lane, distinct lanes, each of positive width. */
    ghost predicate Valid()
      reads lanes
    {
      && obstacleTimes.Length0 == lanes.Length
      && (forall i, k :: 0 <= i < k < lanes.Length ==> lanes[i] != lanes[k])
      && (forall i :: 0 <= i < lanes.Length ==> lanes[i].left < lanes[i].right)
    }

    /** Every random x offset lies within its lane's width. */
    ghost predicate RollFits(roll: (int, int) -> SpawnChoice)
      reads lanes
    {
      forall i, j :: 0 <= i < lanes.Length && 0 <= j < obstacleTimes.Length1 ==>
        0 <= roll(i, j).xOffset < lanes[i].right - lanes[i].left
    }

    /** Schedule row `i` as a sequence. */
    ghost function Row(i: int): (row: seq<real>)
      reads obstacleTimes
      requires 0 <= i < obstacleTimes.Length0
      ensures |row| == obstacleTimes.Length1
      ensures forall j :: 0 <= j < |row| ==> row[j] == obstacleTimes[i, j]
    {
      seq(obstacleTimes.Length1, j reads obstacleTimes requires 0 <= j < obstacleTimes.Length1 => obstacleTimes[i, j])
    }

    constructor (lanes: array<Lane>, obstacleTimes: array2<real>, obstacleHeight: ObstacleKind -> nat)
      requires obstacleTimes.Length0 == lanes.Length
      requires forall i, k :: 0 <= i < k < lanes.Length ==> lanes[i] != lanes[k]
      requires forall i :: 0 <= i < lanes.Length ==> lanes[i].left < lanes[i].right
      ensures Valid()
      ensures this.lanes == lanes && this.obstacleTimes == obstacleTimes
      ensures this.obstacleHeight == obstacleHeight
      ensures !started && totalTime == 0.0 && backgroundOffset == 0
    {
      this.lanes := lanes;
      this.obstacleTimes := obstacleTimes;
      this.obstacleHeight := obstacleHeight;
      started := false;
      totalTime := 0.0;
      backgroundOffset := 0;
    }

    /**
     * The spawn pass over lane `i`: each due slot of its row spawns one
     * obstacle in the lane and is overwritten with the sentinel.
     */
    method SpawnInLane(i: int, roll: (int, int) -> SpawnChoice)
      requires obstacleTimes.Length0 == lanes.Length && RollFits(roll) && 0 <= i < lanes.Length
      modifies obstacleTimes, lanes[i]
      ensures forall k, j :: 0 <= k < obstacleTimes.Length0 && 0 <= j < obstacleTimes.Length1 ==>
                obstacleTimes[k, j] == if k == i then SlotAfter(old(obstacleTimes[k, j]), totalTime)
                                       else old(obstacleTimes[k, j])
      ensures lanes[i].obstacles == old(lanes[i].obstacles)
                + LaneSpawns(old(Row(i)), totalTime, i, lanes[i].left, lanes[i].right, roll, obstacleHeight)
    {
      var lane, clock := lanes[i], totalTime;
      ghost var row := Row(i);
      assert forall k :: 0 <= k < |row| ==> 0 <= roll(i, k).xOffset < lane.right - lane.left;
      for j := 0 to obstacleTimes.Length1
        invariant forall k, c :: 0 <= k < obstacleTimes.Length0 && 0 <= c < obstacleTimes.Length1 ==>
                    obstacleTimes[k, c] == if k == i && c < j then SlotAfter(old(obstacleTimes[k, c]), clock)
                                           else old(obstacleTimes[k, c])
        invariant lane.obstacles == old(lane.obstacles)
                    + LaneSpawns(row[..j], clock, i, lane.left, lane.right, roll, obstacleHeight)
      {
        LaneSpawnsStep(row, j, clock, i, lane.left, lane.right, roll, obstacleHeight);
        if obstacleTimes[i, j] - clock < Epsilon {
          var choice := roll(i, j);
          lane.SpawnObstacle(lane.left + choice.xOffset, SpawnY, choice.kind, obstacleHeight(choice.kind));
          obstacleTimes[i, j] := Sentinel;
        }
      }
      assert row[..obstacleTimes.Length1] == row;
    }

    /**
     * The spawn pass: every due slot of every lane spawns one obstacle in
     * its lane and is overwritten with the sentinel; the other slots stay.
     */
    method SpawnDueObstacles(roll: (int, int) -> SpawnChoice)
      requires Valid() && RollFits(roll)
      modifies obstacleTimes, lanes[..]
      ensures forall i, j :: 0 <= i < obstacleTimes.Length0 && 0 <= j < obstacleTimes.Length1 ==>
                obstacleTimes[i, j] == SlotAfter(old(obstacleTimes[i, j]), totalTime)
      ensures forall i :: 0 <= i < lanes.Length ==>
                lanes[i].obstacles == old(lanes[i].obstacles)
                  + LaneSpawns(old(Row(i)), totalTime, i, lanes[i].left, lanes[i].right, roll, obstacleHeight)
    {
      for i := 0 to lanes.Length
        invariant forall k, j :: 0 <= k < i && 0 <= j < obstacleTimes.Length1 ==>
                    obstacleTimes[k, j] == SlotAfter(old(obstacleTimes[k, j]), totalTime)
        invariant forall k, j :: i <= k < lanes.Length && 0 <= j < obstacleTimes.Length1 ==>
                    obstacleTimes[k, j] == old(obstacleTimes[k, j])
        invariant forall k :: 0 <= k < i ==>
                    lanes[k].obstacles == old(lanes[k].obstacles)
                      + LaneSpawns(old(Row(k)), totalTime, k, lanes[k].left, lanes[k].right, roll, obstacleHeight)
        invariant forall k :: i <= k < lanes.Length ==> lanes[k].obstacles == old(lanes[k].obstacles)
      {
        assert Row(i) == old(Row(i));
        SpawnInLane(i, roll);
      }
    }

    /**
     * The drift pass over every lane: move each obstacle, remove it if it
     * has left the course, step to the next index.
     */
    method MoveObstacles(distance: real)
      requires Valid()
      modifies lanes[..]
      ensures Valid()
      ensures forall i :: 0 <= i < lanes.Length ==>
                lanes[i].obstacles == Drift(old(lanes[i].obstacles), 0, distance)
    {
      for i := 0 to lanes.Length
        invariant forall k :: 0 <= k < i ==> lanes[k].obstacles == Drift(old(lanes[k].obstacles), 0, distance)
        invariant forall k :: i <= k < lanes.Length ==> lanes[k].obstacles == old(lanes[k].obstacles)
      {
        var lane := lanes[i];
        var j := 0;
        while j < |lane.obstacles|
          invariant Drift(lane.obstacles, j, distance) == Drift(old(lane.obstacles), 0, distance)
          invariant forall k :: 0 <= k < i ==> lanes[k].obstacles == Drift(old(lanes[k].obstacles), 0, distance)
          invariant forall k :: i < k < lanes.Length ==> lanes[k].obstacles == old(lanes[k].obstacles)
          decreases |lane.obstacles| - j
        {
          ghost var before := lane.obstacles;
          lane.MoveObstacle(j, distance);
          if lane.obstacles[j].y < -(lane.obstacles[j].height as real) {
            lane.RemoveObstacle(j);
            assert lane.obstacles == before[..j] + before[j + 1..];
          }
          j := j + 1;
        }
      }
    }

    /**
     * The first half of a frame: the clock runs, and the spawn pass fires,
     * only once the race has started.
     */
    method AdvanceClock(deltaTime: real, roll: (int, int) -> SpawnChoice)
      requires Valid() && RollFits(roll)
      modifies this, obstacleTimes, lanes[..]
      ensures Valid() && RollFits(roll)
      ensures started == old(started) && backgroundOffset == old(backgroundOffset)
      ensures totalTime == old(totalTime) + (if started then deltaTime else 0.0)
      ensures forall i, j :: 0 <= i < obstacleTimes.Length0 && 0 <= j < obstacleTimes.Length1 ==>
                obstacleTimes[i, j] == if started then SlotAfter(old(obstacleTimes[i, j]), totalTime)
                                       else old(obstacleTimes[i, j])
      ensures forall i :: 0 <= i < lanes.Length ==>
                lanes[i].obstacles == if started
                  then old(lanes[i].obstacles)
                    + LaneSpawns(old(Row(i)), totalTime, i, lanes[i].left, lanes[i].right, roll, obstacleHeight)
                  else old(lanes[i].obstacles)
    {
      totalTime := totalTime + (if started then deltaTime else 0.0);
      if started {
        SpawnDueObstacles(roll);
      }
    }

    /**
     * One frame of the race, without the drawing: advance the clock if the
     * race has started, run the spawn pass if it has, latch the start once
     * the player moves, set the scroll offset, and run the drift pass if
     * the race has now started.
     */
    method Render(deltaTime: real, player: PlayerState, roll: (int, int) -> SpawnChoice)
      requires Valid() && RollFits(roll)
      modifies this, obstacleTimes, lanes[..]
      ensures Valid() && RollFits(roll)
      ensures totalTime == old(totalTime) + (if old(started) then deltaTime else 0.0)
      ensures started == (old(started) || player.speed > 0.0)
      ensures backgroundOffset == BackgroundOffset(player.y, player.height)
      ensures forall i, j :: 0 <= i < obstacleTimes.Length0 && 0 <= j < obstacleTimes.Length1 ==>
                obstacleTimes[i, j] == if old(started) then SlotAfter(old(obstacleTimes[i, j]), totalTime)
                                       else old(obstacleTimes[i, j])
      ensures forall i :: 0 <= i < lanes.Length ==>
                lanes[i].obstacles == AfterFrame(
                  old(lanes[i].obstacles),
                  old(started),
                  LaneSpawns(old(Row(i)), totalTime, i, lanes[i].left, lanes[i].right, roll, obstacleHeight),
                  started,
                  DriftDistance(backgroundOffset, player.speed))
    {
      AdvanceClock(deltaTime, roll);
      if player.speed > 0.0 {
        started := true;
      }
      backgroundOffset := BackgroundOffset(player.y, player.height);
      if started {
        MoveObstacles(DriftDistance(backgroundOffset, player.speed));
      }
    }
  }
}
