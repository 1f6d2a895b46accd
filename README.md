# Dragon boat race: leaderboard and per-frame race step

This project models the two stateful parts of the dragon boat racing game's
core in Dafny and proves properties about them.

- **The leaderboard** (`Leaderboard.java`). It holds a reference to the
  caller's boat array, not a copy. `UpdateOrder` sorts that array in place by
  ascending fastest time, using the `ascRaceTime` comparator (`Long.compare`).
  `GetTopBoats`, `GetPodium` and `GetTimes` copy the front of the ranking
  into fresh arrays.
- **The simulation half of one rendered frame** (`GameScreen.render`, without
  the drawing). It covers:
  - the race clock, which only runs once the race has started;
  - the spawn pass over the lanes × obstacles table of spawn times. A due
    slot spawns one obstacle in its lane and is overwritten with the
    sentinel 9999999;
  - the one-way start latch, set by the player's speed;
  - the clamped background scroll offset;
  - the drift pass, which moves each lane's obstacles and removes those that
    have left the course.

Files and modules:

| file | module | contents |
|---|---|---|
| `boats.dfy` | `Boats` | `Boat`, the comparator, the stable sort `Sort` as a function, its lemmas |
| `decimal.dfy` | `Decimal` | how Java prints a `long` inside a string concatenation, and its parser |
| `leaderboard.dfy` | `Ranking` | class `Leaderboard` over the shared `array<Boat>`, in-place insertion sort |
| `schedule.dfy` | `Schedule` | due test, sentinel, the slots one pass fires, firing over many frames |
| `obstacles.dfy` | `Obstacles` | `Obstacle`, class `Lane`, the drift pass `Drift` and its lemmas |
| `gamescreen.dfy` | `Screen` | class `GameScreen`: `Render` and its spawn and drift passes |

Modelling choices:

- Times and speeds are `real`. Java's `float` rounding is not modelled. The
  0.0001 tolerance, the 9999999 sentinel and the 0.4 base drift are kept as
  exact constants.
- `java.util.Random` is replaced by a caller-supplied `roll(i, j)` for each
  schedule slot. It gives an x offset in `[0, right - left)` and a kind.
  Any sequence of random draws in one frame is covered by some `roll`,
  because each slot fires at most once per frame.
- The player moves before the latch and the scroll offset are computed.
  `Render` therefore takes the player's state after moving: speed, y and
  height.
- Obstacles are values held in their lane's `seq`. `o.Move(d)` replaces the
  element at index j. `RemoveObstacle(o)` removes the element at index j. In
  the game the obstacles are distinct objects, so removing `o` by identity
  removes exactly that index.
- `player.getHeight() / 2` is Java's truncating `int` division (`JavaDiv`).
- Behaviour of the code worth noting:
  - The comparator compares raw `long` times. A boat that has not finished
    gets no special "infinite" time.
  - `GetTopBoats(n)` and `GetTimes(n)` neither clamp nor report. They throw
    when n is negative or larger than the number of boats. The model turns
    this into a precondition.
  - The drift loop skips an obstacle after a removal (see
    `Obstacles.ShiftedObstacleWaits` and `Obstacles.DriftMatchesReference`).

## Model

| member | source | states |
|---|---|---|
| `Boats.CompareByTime` | core/src/com/dragonboat/game/Leaderboard.java:38-43 | the comparator answers -1, 0 or 1, negative exactly when the first boat's time is smaller, zero exactly when equal, positive exactly when larger |
| `Boats.CompareByTimeAntisymmetric` | core/src/com/dragonboat/game/Leaderboard.java:38-43 | swapping the two boats negates the comparison |
| `Boats.CompareByTimeTransitive` | core/src/com/dragonboat/game/Leaderboard.java:38-43 | if a is no later than b and b no later than c, then a is no later than c, so the comparator is a total preorder |
| `Boats.InsertSorted` | core/src/com/dragonboat/game/Leaderboard.java:17 | inserting a boat into an ascending list keeps it ascending |
| `Boats.InsertBounds` | core/src/com/dragonboat/game/Leaderboard.java:17 | insertion adds no boat later than a bound that the list and the new boat both respect |
| `Boats.InsertPermutes` | core/src/com/dragonboat/game/Leaderboard.java:17 | insertion adds exactly the one boat to the multiset |
| `Boats.InsertKeepsTies` | core/src/com/dragonboat/game/Leaderboard.java:17 | the inserted boat lands after every boat of equal time |
| `Boats.SortIsSorted` | core/src/com/dragonboat/game/Leaderboard.java:16-18 | the ranking is ascending by fastest time |
| `Boats.SortPermutes` | core/src/com/dragonboat/game/Leaderboard.java:17 | the ranking holds exactly the input's boats, none added and none dropped |
| `Boats.SortKeepsLength` | core/src/com/dragonboat/game/Leaderboard.java:17 | ordering keeps the number of boats |
| `Boats.SortIsStable` | core/src/com/dragonboat/game/Leaderboard.java:17 | for every time t, the boats with time t appear in the same relative order as before |
| `Boats.SortOfSorted` | core/src/com/dragonboat/game/Leaderboard.java:17 | an array already in order is left exactly as it is |
| `Boats.SortIdempotent` | core/src/com/dragonboat/game/Leaderboard.java:16-18 | ordering twice without new times gives the order of ordering once |
| `Boats.SortedSplit` | core/src/com/dragonboat/game/Leaderboard.java:21-28 | in an ascending ranking, every boat in front of position k is no later than every boat from k on |
| `Boats.TopBoatsAreFastest` | core/src/com/dragonboat/game/Leaderboard.java:21-28 | the first k boats of the ranking and the rest split the race's boats, and no top-k boat is later than any boat left out |
| `Decimal.NatDigits` | core/src/com/dragonboat/game/Leaderboard.java:50 | the printed digits are non-empty decimal digits, with no leading zero unless the value is 0 |
| `Decimal.LongString` | core/src/com/dragonboat/game/Leaderboard.java:50 | a time prints with a leading '-' exactly when it is negative, followed by decimal digits, in canonical form: no leading zero and no "-0" |
| `Decimal.NatDigitsRoundTrip` | core/src/com/dragonboat/game/Leaderboard.java:50 | parsing the printed digits gives back the value |
| `Decimal.LongStringRoundTrip` | core/src/com/dragonboat/game/Leaderboard.java:50 | parsing a printed time gives back the time, including negative times |
| `Ranking.TimesEntryReadsBack` | core/src/com/dragonboat/game/Leaderboard.java:50 | a `GetTimes` line is the boat's name followed by text that parses back to its exact time |
| `Ranking.InsertSplits` | core/src/com/dragonboat/game/Leaderboard.java:17 | insertion puts the boat behind the last boat that is not later than it, and in front of the later boats that follow |
| `Ranking.ShiftedIsInsert` | core/src/com/dragonboat/game/Leaderboard.java:17 | the array read cell by cell after a pass (the boats in front of j unchanged, the new boat at j, the later boats one cell up) is exactly `Insert` of the new boat |
| `Ranking.InsertLast` | core/src/com/dragonboat/game/Leaderboard.java:17 | one pass of the in-place sort turns the array's first i+1 cells into the insertion of cell i into the sorted first i cells, and leaves the rest alone |
| `Ranking.Leaderboard.constructor` | core/src/com/dragonboat/game/Leaderboard.java:11-13 | the leaderboard keeps the caller's own array, not a copy |
| `Ranking.Leaderboard.UpdateOrder` | core/src/com/dragonboat/game/Leaderboard.java:16-18 | the shared array becomes `Sort` of its old contents: ascending, a permutation, and stable for every time |
| `Ranking.Leaderboard.GetTopBoats` | core/src/com/dragonboat/game/Leaderboard.java:21-28 | returns a new array of length `places` whose element i is `sortedBoats[i]`, for 0 ≤ places ≤ the number of boats |
| `Ranking.Leaderboard.GetPodium` | core/src/com/dragonboat/game/Leaderboard.java:31-33 | returns a new array holding the first three boats; needs at least three boats |
| `Ranking.Leaderboard.GetTimes` | core/src/com/dragonboat/game/Leaderboard.java:47-54 | returns `places` strings in rank order, string i being boat i's name followed by its printed time |
| `Ranking.RankOwnBoats` | core/src/com/dragonboat/game/Leaderboard.java:11-33 | a caller that orders its leaderboard sees its own array sorted, and the podium is no later than any other boat |
| `Schedule.SpentSlotStaysQuiet` | core/src/com/dragonboat/game/GameScreen.java:85 | a slot holding the sentinel is not due while the clock stays at or below sentinel − ε |
| `Schedule.DueSlots` | core/src/com/dragonboat/game/GameScreen.java:77-87 | a spawn pass fires exactly the slots with time − clock < ε, each once, in ascending slot order |
| `Schedule.DuplicateTimesBothFire` | core/src/com/dragonboat/game/GameScreen.java:77-87 | for any row, two slots j < k holding the same due time both fire in the same pass, j before k |
| `Schedule.FiresExactlyOnce` | core/src/com/dragonboat/game/GameScreen.java:78-85 | over any run of frames whose clock stays at or below sentinel − ε (9999999 − 0.0001), a slot fires once if some frame reaches its time, and never otherwise |
| `Schedule.FiresAtMostOnce` | core/src/com/dragonboat/game/GameScreen.java:78-85 | over any run of frames whose clock stays at or below sentinel − ε (9999999 − 0.0001), no slot fires more than once |
| `Obstacles.DriftMatchesReference` | core/src/com/dragonboat/game/GameScreen.java:112-119 | the index loop from j equals the untouched prefix followed by `DriftRef`, a head-first reading. In it every obstacle moves and stays unless the move takes it off the course, and the obstacle right behind a dropped one is kept unmoved |
| `Obstacles.DriftNeverGrows` | core/src/com/dragonboat/game/GameScreen.java:110-122 | the drift pass never adds an obstacle to a lane |
| `Obstacles.DriftKeepsPrefix` | core/src/com/dragonboat/game/GameScreen.java:112-119 | obstacles before the loop index are left untouched |
| `Obstacles.DriftKeepsOnCourse` | core/src/com/dragonboat/game/GameScreen.java:116-118 | if no obstacle of a lane had left the course, none has after the pass (what happens to each obstacle is stated by `DriftMatchesReference`) |
| `Obstacles.DriftMovesAll` | core/src/com/dragonboat/game/GameScreen.java:112-119 | when no obstacle expires, every obstacle moves exactly once by the frame's drift distance and the count is unchanged |
| `Obstacles.ShiftedObstacleWaits` | core/src/com/dragonboat/game/GameScreen.java:112-119 | when the obstacle at j is removed, the one behind it slides into slot j and is not moved in that frame |
| `Obstacles.Lane.constructor` | core/src/com/dragonboat/game/GameScreen.java:81 | a lane has fixed left and right boundaries and starts with no obstacles |
| `Obstacles.Lane.SpawnObstacle` | core/src/com/dragonboat/game/GameScreen.java:82 | appends one obstacle at the given position, with the given kind and height |
| `Obstacles.Lane.RemoveObstacle` | core/src/com/dragonboat/game/GameScreen.java:118 | removes the obstacle at the index and shifts the later ones up one slot |
| `Obstacles.Lane.MoveObstacle` | core/src/com/dragonboat/game/GameScreen.java:116 | moves only the obstacle at the index, down by the distance |
| `Screen.JavaDiv` | core/src/com/dragonboat/game/GameScreen.java:102 | `int` division truncates toward zero: the remainder has the sign of the dividend and is smaller than the divisor |
| `Screen.BackgroundOffset` | core/src/com/dragonboat/game/GameScreen.java:102 | the offset is never negative. While it is positive, the player's centre sits at the middle of the window (HEIGHT/2 = 360); while it is zero, the centre is at or below the middle |
| `Screen.LaneSpawns` | core/src/com/dragonboat/game/GameScreen.java:77-86 | a lane gains one obstacle per due slot. Each has x in [left, right) and y = HEIGHT + 100 = 820 |
| `Screen.LaneSpawnsFromSlots` | core/src/com/dragonboat/game/GameScreen.java:78-82 | the k-th obstacle a lane gains is built from the draws of the k-th due slot, at x = left + offset, with the drawn kind and its height |
| `Screen.LaneSpawnsStep` | core/src/com/dragonboat/game/GameScreen.java:78-86 | examining slot j adds its obstacle exactly when the slot is due |
| `Screen.DuplicateTimesBothSpawn` | core/src/com/dragonboat/game/GameScreen.java:77-86 | two slots of a lane holding the same due time both spawn an obstacle in the same pass, each from its own draws, the earlier slot's first |
| `Screen.LaneSpawnsOnCourse` | core/src/com/dragonboat/game/GameScreen.java:82 | freshly spawned obstacles are on the course |
| `Screen.AfterFrameKeepsOnCourse` | core/src/com/dragonboat/game/GameScreen.java:75-122 | a frame leaves every lane's obstacles on the course if they were before |
| `Screen.AfterFrameGrowth` | core/src/com/dragonboat/game/GameScreen.java:75-76 | a frame adds at most the spawned obstacles to a lane, and none at all before the race has started |
| `Screen.GameScreen.Row` | core/src/com/dragonboat/game/GameScreen.java:77-78 | row i of the schedule read as a sequence of its slot times |
| `Screen.GameScreen.constructor` | core/src/com/dragonboat/game/GameScreen.java:25-63 | a new screen shares the game's lanes and schedule, is not started, and has clock 0 and offset 0 |
| `Screen.GameScreen.SpawnInLane` | core/src/com/dragonboat/game/GameScreen.java:77-87 | in lane i, every due slot is overwritten with the sentinel and the other slots keep their times. The lane gains `LaneSpawns` of its old row. Other rows are unchanged |
| `Screen.GameScreen.SpawnDueObstacles` | core/src/com/dragonboat/game/GameScreen.java:75-88 | every slot becomes `SlotAfter` of its old time at the current clock, and every lane gains one obstacle per due slot of its old row |
| `Screen.GameScreen.MoveObstacles` | core/src/com/dragonboat/game/GameScreen.java:110-122 | every lane's obstacles become `Drift` of their old list. It keeps `Valid()`. |
| `Screen.GameScreen.AdvanceClock` | core/src/com/dragonboat/game/GameScreen.java:74-88 | once started, the clock advances by deltaTime and the spawn pass runs. Before the start neither the clock, the schedule nor the lanes change. It keeps `Valid()` and `RollFits(roll)`. |
| `Screen.GameScreen.Render` | core/src/com/dragonboat/game/GameScreen.java:74-122 | the clock advances by deltaTime only if already started. Spawning happens only if already started. `started` becomes old(started) ∨ speed > 0 and is never cleared. The offset is `BackgroundOffset`. Drift happens if started now, by 0.4 plus the player's speed once the offset is positive. It keeps `Valid()` and `RollFits(roll)`, so frames can follow one another. |

## Left out

- Drawing, the camera and viewport, `resize`, `dispose` and the other screen
  lifecycle methods. The progress-bar icon placement is left out as well.
  All of this is presentation only.
- `player.GetInput()`, `player.MoveForward()` and the `Player`, `Opponent`,
  `Course` and `ProgressBar` classes are not part of this model. `Render`
  receives the player's speed, y and height after the move.
  `progressBar.StartTimer()` is not modelled.
- `MenuScreen` (mouse hit-testing that switches screens) and the
  `Maneuverability` power-up (a constructor only) are not modelled.
- The floating-point rounding of `totalDeltaTime`, the spawn times, the
  0.0001 tolerance and the 0.4 drift. Exact reals are used instead.
- `java.util.Random`: the x offset and the kind are caller-supplied values,
  constrained to the ranges `nextInt` produces.
- Texture heights of the two obstacle kinds are not known. They are a
  per-kind configuration value (`obstacleHeight`).
- Aliasing of `Obstacle` objects: obstacles are values owned by their lane's
  list. Nothing else in the core holds them.
- The `Lane` and `Obstacle` classes are not part of this model, so their
  behaviour is assumed:
  - `Obstacle.Move(d)` lowers a real-valued y by exactly d (`Obstacles.Moved`);
  - a new lane starts with no obstacles;
  - `Lane.SpawnObstacle` appends the new obstacle at the end of the list.
    This order decides which obstacle the drift loop skips after a removal;
  - `Lane.RemoveObstacle(o)` removes `o` by identity, which for distinct
    obstacles is removal at its index.
- `Boat` is a value (name, fastest time). In Java, `GetTopBoats` and
  `GetPodium` return references to the same `Boat` objects, whose times can
  change later. The model captures the ranking at the moment of the call.
- Loop bounds: `course.getNoLanes()` (GameScreen.java:75) is taken to equal
  `lanes.length`, which the drift loop at GameScreen.java:110 uses.
  `game.noOfObstacles` (GameScreen.java:77) is taken to equal the length of a
  schedule row. If they differed in the game, some lanes or trailing slots
  would never spawn, or the Java code would throw. The model does not cover
  that case.
- `Screen.GameScreen.Render`: the model asks that every lane has positive
  width (`left < right`) in `Valid()`. In the game, `nextInt` throws only
  when a spawn actually happens in a lane of zero or negative width. The
  model also asks that lanes are distinct objects and that the schedule has
  one row per lane.
- `Ranking.Leaderboard.GetTopBoats` and `Ranking.Leaderboard.GetTimes`
  require 0 ≤ places ≤ number of boats. `GetPodium` requires at least three
  boats. The Java code throws outside these bounds.
- `Arrays.sort` is implemented in the JDK as a merge sort. The model uses an
  insertion sort instead. Both are stable, so they produce the same
  order, `Sort`.
