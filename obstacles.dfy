/**
 * Obstacles and the lanes that own them, and the per-frame loop that
 * drifts each lane's obstacles down the course and drops the ones that
 * have left it.
 */
module Obstacles {

  /** The two obstacle kinds the game spawns ("Goose" and "Log"). */
  datatype ObstacleKind = Goose | Log

  /** An obstacle's position, the height of its texture and its kind. */
  datatype Obstacle = Obstacle(x: int, y: real, height: nat, kind: ObstacleKind)

  /** The drift every obstacle makes in a frame before the course scrolls (0.4f). */
  const BaseDrift: real := 0.4

  /** `Obstacle.Move(distance)`: the obstacle drifts down by `distance`. */
  function Moved(o: Obstacle, distance: real): Obstacle {
    o.(y := o.y - distance)
  }

  /** Below the bottom of the course by more than its own height. */
  predicate Expired(o: Obstacle) {
    o.y < -(o.height as real)
  }

  /** No obstacle of `obs` has left the course. */
  ghost predicate OnCourse(obs: seq<Obstacle>) {
    forall k :: 0 <= k < |obs| ==> !Expired(obs[k])
  }

  /**
   * The obstacle loop of one lane from index `j` on: obstacle `j` moves;
   * if it has then left the course it is removed, and the index still
   * advances, so the obstacle that slid into slot `j` waits for the next
   * frame.
   */
  function Drift(obs: seq<Obstacle>, j: nat, distance: real): seq<Obstacle>
    decreases |obs| - j
  {
    if j >= |obs| then obs
    else if Expired(Moved(obs[j], distance)) then Drift(obs[..j] + obs[j + 1..], j + 1, distance)
    else Drift(obs[j := Moved(obs[j], distance)], j + 1, distance)
  }

  /**
   * The same pass read from the head of the list, one obstacle at a time:
   * an obstacle moves and stays unless the move takes it off the course;
   * the obstacle right behind one that was dropped is kept as it was
   * (`skip`).
   */
  function DriftRef(obs: seq<Obstacle>, skip: bool, distance: real): seq<Obstacle>
    decreases |obs|
  {
    if obs == [] then []
    else if skip then [obs[0]] + DriftRef(obs[1..], false, distance)
    else if Expired(Moved(obs[0], distance)) then DriftRef(obs[1..], true, distance)
    else [Moved(obs[0], distance)] + DriftRef(obs[1..], false, distance)
  }

  /** The index loop from `j` on agrees with the head-first reading of `obs[j..]`. */
  lemma {:induction false} DriftMatchesReference(obs: seq<Obstacle>, j: nat, distance: real)
    requires j <= |obs|
    ensures Drift(obs, j, distance) == obs[..j] + DriftRef(obs[j..], false, distance)
    decreases |obs| - j
  {
    if j == |obs| {
      assert obs[..j] == obs && obs[j..] == [];
    } else if Expired(Moved(obs[j], distance)) {
      var rest := obs[..j] + obs[j + 1..];
      assert obs[j..][1..] == obs[j + 1..];
      if j + 1 == |obs| {
        assert rest == obs[..j];
        assert obs[j + 1..] == [];
      } else {
        DriftMatchesReference(rest, j + 1, distance);
        assert rest[..j + 1] == obs[..j] + [obs[j + 1]];
        assert rest[j + 1..] == obs[j + 2..];
        assert obs[j + 1..][1..] == obs[j + 2..];
      }
    } else {
      var moved := obs[j := Moved(obs[j], distance)];
      DriftMatchesReference(moved, j + 1, distance);
      assert moved[..j + 1] == obs[..j] + [Moved(obs[j], distance)];
      assert moved[j + 1..] == obs[j + 1..];
      assert obs[j..][1..] == obs[j + 1..];
    }
  }

  /** The loop never adds an obstacle. */
  lemma {:induction false} DriftNeverGrows(obs: seq<Obstacle>, j: nat, distance: real)
    ensures |Drift(obs, j, distance)| <= |obs|
    decreases |obs| - j
  {
    if j < |obs| {
      if Expired(Moved(obs[j], distance)) {
        DriftNeverGrows(obs[..j] + obs[j + 1..], j + 1, distance);
      } else {
        DriftNeverGrows(obs[j := Moved(obs[j], distance)], j + 1, distance);
      }
    }
  }

  /** Obstacles in front of index `j` are left as they are. */
  lemma {:induction false} DriftKeepsPrefix(obs: seq<Obstacle>, j: nat, p: nat, distance: real)
    requires p <= j && p <= |obs|
    ensures p <= |Drift(obs, j, distance)|
    ensures Drift(obs, j, distance)[..p] == obs[..p]
    decreases |obs| - j
  {
    if j < |obs| {
      if Expired(Moved(obs[j], distance)) {
        var rest := obs[..j] + obs[j + 1..];
        DriftKeepsPrefix(rest, j + 1, p, distance);
        assert rest[..p] == obs[..p];
      } else {
        var rest := obs[j := Moved(obs[j], distance)];
        DriftKeepsPrefix(rest, j + 1, p, distance);
        assert rest[..p] == obs[..p];
      }
    }
  }

  /**
   * A frame leaves no obstacle off the course: every obstacle it moves and
   * keeps is still on the course, and the ones it skips were already.
   */
  lemma {:induction false} DriftKeepsOnCourse(obs: seq<Obstacle>, j: nat, distance: real)
    requires OnCourse(obs)
    ensures OnCourse(Drift(obs, j, distance))
    decreases |obs| - j
  {
    if j < |obs| {
      if Expired(Moved(obs[j], distance)) {
        var rest := obs[..j] + obs[j + 1..];
        assert forall k :: 0 <= k < |rest| ==> rest[k] == obs[if k < j then k else k + 1];
        DriftKeepsOnCourse(rest, j + 1, distance);
      } else {
        DriftKeepsOnCourse(obs[j := Moved(obs[j], distance)], j + 1, distance);
      }
    }
  }

  /** When no obstacle leaves the course, every obstacle from `j` on moves once. */
  lemma {:induction false} DriftMovesAll(obs: seq<Obstacle>, j: nat, distance: real)
    requires j <= |obs|
    requires forall k :: j <= k < |obs| ==> !Expired(Moved(obs[k], distance))
    ensures |Drift(obs, j, distance)| == |obs|
    ensures forall k :: 0 <= k < j ==> Drift(obs, j, distance)[k] == obs[k]
    ensures forall k :: j <= k < |obs| ==> Drift(obs, j, distance)[k] == Moved(obs[k], distance)
    decreases |obs| - j
  {
    if j < |obs| {
      DriftMovesAll(obs[j := Moved(obs[j], distance)], j + 1, distance);
    }
  }

  /**
   * The obstacle behind one that is removed slides into its slot and is
   * not moved in that frame.
   */
  lemma ShiftedObstacleWaits(obs: seq<Obstacle>, j: nat, distance: real)
    requires j + 1 < |obs|
    requires Expired(Moved(obs[j], distance))
    ensures j < |Drift(obs, j, distance)|
    ensures Drift(obs, j, distance)[j] == obs[j + 1]
  {
    var rest := obs[..j] + obs[j + 1..];
    DriftKeepsPrefix(rest, j + 1, j + 1, distance);
    assert rest[j] == obs[j + 1];
  }

  /** A lane: fixed boundaries and its live obstacles in spawn order. */
  class Lane {
    const left: int
    const right: int
    var obstacles: seq<Obstacle>

    constructor (left: int, right: int)
      ensures this.left == left && this.right == right
      ensures obstacles == []
    {
      this.left := left;
      this.right := right;
      obstacles := [];
    }

    /** Adds a new obstacle at the end of the lane's list. */
    method SpawnObstacle(x: int, y: int, kind: ObstacleKind, height: nat)
      modifies this
      ensures obstacles == old(obstacles) + [Obstacle(x, y as real, height, kind)]
    {
      obstacles := obstacles + [Obstacle(x, y as real, height, kind)];
    }

    /** Removes the obstacle at index `j`; the ones behind it move up a slot. */
    method RemoveObstacle(j: nat)
      requires j < |obstacles|
      modifies this
      ensures obstacles == old(obstacles)[..j] + old(obstacles)[j + 1..]
    {
      obstacles := obstacles[..j] + obstacles[j + 1..];
    }

    /** `obstacles.get(j).Move(distance)`. */
    method MoveObstacle(j: nat, distance: real)
      requires j < |obstacles|
      modifies this
      ensures obstacles == old(obstacles)[j := Moved(old(obstacles)[j], distance)]
    {
      obstacles := obstacles[j := Moved(obstacles[j], distance)];
    }
  }
}
