/**
 * The obstacle spawn planner: once the attempt draw comes up 1, a new
 * obstacle goes into the drawn lane unless one of three rules aborts it:
 *   - crowding: both neighbouring lanes hold a long chain of close obstacles;
 *   - wall: every other lane already has an obstacle near the top;
 *   - headroom: the drawn lane still has an obstacle above the top edge.
 */
module SpawnRules {
  import opened Settings
  import opened Sprites

  /** Two consecutive obstacles closer than this (bottom to top) belong to one chain. */
  const CLUSTER_GAP := 160
  /** A neighbouring lane whose chain is at least this long counts as crowded. */
  const CROWDED_LENGTH := 250
  /** An obstacle whose top is above this line is still near the spawn point. */
  const NEAR_TOP := 3 * OBSTACLE_HEIGHT

  predicate Sorted(s: seq<int>) {
    forall i, j :: 0 <= i < j < |s| ==> s[i] <= s[j]
  }

  /** Puts `x` in front of the first element of `s` that is not below it. */
  function Insert(x: int, s: seq<int>): (r: seq<int>)
    ensures |r| == |s| + 1
  {
    if s == [] || x <= s[0] then [x] + s else [s[0]] + Insert(x, s[1..])
  }

  /** Python's `sorted` on the obstacles' y values (ties are equal values, so stability is moot). */
  function SortAscending(s: seq<int>): (r: seq<int>)
    ensures |r| == |s|
  {
    if s == [] then [] else Insert(s[0], SortAscending(s[1..]))
  }

  /** Inserting adds exactly `x` to the values. */
  lemma {:induction false} InsertPermutes(x: int, s: seq<int>)
    ensures multiset(Insert(x, s)) == multiset(s) + multiset{x}
  {
    if s != [] && x > s[0] {
      InsertPermutes(x, s[1..]);
      assert s == [s[0]] + s[1..];
    }
  }

  /** Inserting into a sorted list keeps it sorted; the new head is `x` or the old head. */
  lemma {:induction false} InsertSorts(x: int, s: seq<int>)
    requires Sorted(s)
    ensures Sorted(Insert(x, s))
    ensures Insert(x, s)[0] == x || Insert(x, s)[0] == s[0]
  {
    if s != [] && x > s[0] {
      var rest := Insert(x, s[1..]);
      InsertSorts(x, s[1..]);
      var r := [s[0]] + rest;
      forall i, j | 0 <= i < j < |r| ensures r[i] <= r[j] {
        if i == 0 {
          assert s[0] <= rest[0] <= rest[j - 1];
        } else {
          assert r[i] == rest[i - 1] && r[j] == rest[j - 1];
        }
      }
    }
  }

  /** The sort returns its input's values in ascending order. */
  lemma {:induction false} SortAscendingSorts(s: seq<int>)
    ensures Sorted(SortAscending(s)) && multiset(SortAscending(s)) == multiset(s)
  {
    if s != [] {
      SortAscendingSorts(s[1..]);
      InsertSorts(s[0], SortAscending(s[1..]));
      InsertPermutes(s[0], SortAscending(s[1..]));
      assert s == [s[0]] + s[1..];
    }
  }

  /** Space between the bottom of obstacle `i` and the top of obstacle `i + 1`. */
  function Gap(s: seq<int>, i: int): int
    requires 0 <= i < |s| - 1
  {
    s[i + 1] - (s[i] + OBSTACLE_HEIGHT)
  }

  /**
   * The running total of `calculate_lane_length` after the last pair of `s`:
   * each close pair adds OBSTACLE_HEIGHT + gap, a wide gap resets it to 0.
   */
  function ChainLength(s: seq<int>): (n: int)
    ensures n != 0 ==> |s| >= 2 && Gap(s, |s| - 2) < CLUSTER_GAP
  {
    if |s| < 2 then 0
    else
      var before := ChainLength(s[..|s| - 1]);
      if Gap(s, |s| - 2) < CLUSTER_GAP then before + OBSTACLE_HEIGHT + Gap(s, |s| - 2) else 0
  }

  /**
   * The nested `calculate_lane_length`: sorts the lane's obstacles by y and
   * folds over consecutive pairs.
   */
  method CalculateLaneLength(ys: seq<int>) returns (total: int)
    ensures total == ChainLength(SortAscending(ys))
    ensures total >= 0
    ensures |ys| < 2 ==> total == 0
  {
    total := 0;
    var sorted := SortAscending(ys);
    var i := 0;
    while i + 1 < |sorted|
      invariant 0 <= i && (|sorted| == 0 || i < |sorted|)
      invariant |sorted| > 0 ==> total == ChainLength(sorted[..i + 1])
      invariant |sorted| == 0 ==> total == 0
    {
      var gap := sorted[i + 1] - (sorted[i] + OBSTACLE_HEIGHT);
      ghost var next := sorted[..i + 2];
      assert next[..|next| - 1] == sorted[..i + 1];
      assert Gap(next, |next| - 2) == gap;
      if gap < CLUSTER_GAP {
        total := total + OBSTACLE_HEIGHT + gap;
      } else {
        total := 0;
      }
      i := i + 1;
    }
    if |sorted| > 0 {
      assert sorted[..i + 1] == sorted;
    }
    SortAscendingSorts(ys);
    ChainLengthNonNegative(sorted);
  }

  /**
   * The chain length is the vertical span of the trailing run of close pairs:
   * from the top of the run's first obstacle to the top of the last one.
   */
  lemma {:induction false} ChainLengthIsTrailingSpan(s: seq<int>, k: int)
    requires 0 <= k < |s|
    requires forall j :: k <= j < |s| - 1 ==> Gap(s, j) < CLUSTER_GAP
    requires k > 0 ==> Gap(s, k - 1) >= CLUSTER_GAP
    ensures ChainLength(s) == s[|s| - 1] - s[k]
  {
    if k < |s| - 1 {
      var init := s[..|s| - 1];
      assert forall j :: 0 <= j < |init| - 1 ==> Gap(init, j) == Gap(s, j);
      ChainLengthIsTrailingSpan(init, k);
    }
  }

  /** Over sorted y values the chain length is never negative and never exceeds the lane's span. */
  lemma {:induction false} ChainLengthBounds(s: seq<int>)
    requires Sorted(s) && |s| > 0
    ensures 0 <= ChainLength(s) <= s[|s| - 1] - s[0]
  {
    var k := |s| - 1;
    while k > 0 && Gap(s, k - 1) < CLUSTER_GAP
      invariant 0 <= k < |s|
      invariant forall j :: k <= j < |s| - 1 ==> Gap(s, j) < CLUSTER_GAP
    {
      k := k - 1;
    }
    ChainLengthIsTrailingSpan(s, k);
  }

  /** Over sorted y values every added term is a difference of tops, so the total stays non-negative. */
  lemma ChainLengthNonNegative(s: seq<int>)
    requires Sorted(s)
    ensures ChainLength(s) >= 0
  {
    if |s| > 0 {
      ChainLengthBounds(s);
    }
  }

  /** A single close pair is shorter than the crowding threshold, so a crowded lane holds at least three obstacles. */
  lemma CrowdedNeedsThree(s: seq<int>)
    requires ChainLength(s) >= CROWDED_LENGTH
    ensures |s| >= 3
  {
  }

  /** The y values of the obstacles in `lane`, in list order. */
  function LaneYs(ps: seq<Pos>, lane: int): (ys: seq<int>)
    ensures |ys| <= |ps|
  {
    if ps == [] then []
    else LaneYs(ps[..|ps| - 1], lane) + (if ps[|ps| - 1].lane == lane then [ps[|ps| - 1].y] else [])
  }

  /** A height is listed for `lane` exactly when an obstacle of that lane is at that height. */
  lemma {:induction false} LaneYsMembers(ps: seq<Pos>, lane: int, y: int)
    ensures y in LaneYs(ps, lane) <==> Pos(lane, y) in ps
  {
    if ps != [] {
      var init := ps[..|ps| - 1];
      LaneYsMembers(init, lane, y);
      assert ps == init + [ps[|ps| - 1]];
    }
  }

  /** `calculate_lane_length` of the obstacles in `lane`. */
  function LaneLength(ps: seq<Pos>, lane: int): (n: int)
    ensures n >= 0
  {
    var sorted := SortAscending(LaneYs(ps, lane));
    SortAscendingSorts(LaneYs(ps, lane));
    ChainLengthNonNegative(sorted);
    ChainLength(sorted)
  }

  /** Chain length of the lane left of `candidate`; a missing lane contributes 0. */
  function LeftLength(ps: seq<Pos>, candidate: int): (n: int)
    ensures n >= 0
    ensures candidate <= 1 ==> n == 0
  {
    if candidate > 1 then LaneLength(ps, candidate - 1) else 0
  }

  /** Chain length of the lane right of `candidate`; a missing lane contributes 0. */
  function RightLength(ps: seq<Pos>, candidate: int): (n: int)
    ensures n >= 0
    ensures candidate >= LANE_COUNT ==> n == 0
  {
    if candidate < LANE_COUNT then LaneLength(ps, candidate + 1) else 0
  }

  /** Rule 1: both neighbouring lanes are crowded. */
  predicate Crowded(ps: seq<Pos>, candidate: int)
    ensures Crowded(ps, candidate) ==> 1 < candidate < LANE_COUNT
  {
    LeftLength(ps, candidate) >= CROWDED_LENGTH && RightLength(ps, candidate) >= CROWDED_LENGTH
  }

  /** `lane` holds an obstacle still near the spawn point. */
  predicate HasNearTop(ps: seq<Pos>, lane: int)
    ensures HasAboveTop(ps, lane) ==> HasNearTop(ps, lane)
  {
    exists i :: 0 <= i < |ps| && ps[i].lane == lane && ps[i].y < NEAR_TOP
  }

  /** Rule 2: every lane other than `candidate` holds an obstacle near the top. */
  predicate WallAhead(ps: seq<Pos>, candidate: int) {
    forall lane :: 1 <= lane <= LANE_COUNT && lane != candidate ==> HasNearTop(ps, lane)
  }

  /** The obstacle `spawn_obstacles` creates in `lane`. */
  function Spawned(lane: int): (p: Pos)
    ensures p.lane == lane && p.y + OBSTACLE_HEIGHT == 0
  {
    Pos(lane, -OBSTACLE_HEIGHT)
  }

  /**
   * The effect of `spawn_obstacles` on the obstacle list, given the attempt
   * draw and the drawn lane.
   */
  function Spawn(ps: seq<Pos>, attempt: int, candidate: int): (r: seq<Pos>)
    ensures r == ps || r == ps + [Spawned(candidate)]
    ensures attempt != 1 ==> r == ps
  {
    if attempt == 1 && !Crowded(ps, candidate) && !WallAhead(ps, candidate) && !HasAboveTop(ps, candidate)
    then ps + [Spawned(candidate)]
    else ps
  }

  /**
   * The three abort rules of `spawn_obstacles` for the drawn lane, checked in
   * the source's order: crowded neighbours, a wall near the top of every other
   * lane, an obstacle of the drawn lane still above the top edge.
   */
  method SpawnBlocked(ps: seq<Pos>, candidate: int) returns (blocked: bool)
    ensures blocked <==> Crowded(ps, candidate) || WallAhead(ps, candidate) || HasAboveTop(ps, candidate)
  {
    var leftLength := 0;
    if candidate > 1 {
      leftLength := CalculateLaneLength(LaneYs(ps, candidate - 1));
    }
    var rightLength := 0;
    if candidate < LANE_COUNT {
      rightLength := CalculateLaneLength(LaneYs(ps, candidate + 1));
    }
    if leftLength >= CROWDED_LENGTH && rightLength >= CROWDED_LENGTH {
      return true;
    }
    if WallAhead(ps, candidate) {
      return true;
    }
    var i := 0;
    while i < |ps|
      invariant 0 <= i <= |ps|
      invariant forall j :: 0 <= j < i ==> !(ps[j].lane == candidate && ps[j].y < 0)
    {
      if ps[i].lane == candidate && ps[i].y < 0 {
        return true;
      }
      i := i + 1;
    }
    return false;
  }

  /**
   * A spawn happens exactly when the draw is 1, neither the crowding nor the
   * wall rule fires, and the drawn lane has no car above the top edge; after
   * it, the drawn lane has exactly one car above the top edge.
   */
  lemma SpawnAbortsIff(ps: seq<Pos>, attempt: int, candidate: int)
    ensures Spawn(ps, attempt, candidate) != ps <==>
      attempt == 1 && !Crowded(ps, candidate) && !WallAhead(ps, candidate) && CountAbove(ps, candidate) == 0
    ensures Spawn(ps, attempt, candidate) != ps ==> CountAbove(Spawn(ps, attempt, candidate), candidate) == 1
  {
    CountAboveIff(ps, candidate);
    CountAboveAppend(ps, Spawned(candidate), candidate);
  }

  /** A wall needs a car near the top of each of the two other lanes, hence at least two cars. */
  lemma WallNeedsTwoCars(ps: seq<Pos>, candidate: int)
    requires IsLane(candidate) && WallAhead(ps, candidate)
    ensures |ps| >= LANE_COUNT - 1
  {
    var a, b := if candidate == 1 then 2 else 1, if candidate == 3 then 2 else 3;
    assert HasNearTop(ps, a) && HasNearTop(ps, b);
    var i :| 0 <= i < |ps| && ps[i].lane == a && ps[i].y < NEAR_TOP;
    var j :| 0 <= j < |ps| && ps[j].lane == b && ps[j].y < NEAR_TOP;
    assert i != j;
  }

  /** At the outer lanes only one neighbour exists and the other contributes 0, so crowding never aborts there. */
  lemma BoundaryLaneNeverCrowded(ps: seq<Pos>, candidate: int)
    requires candidate == 1 || candidate == LANE_COUNT
    ensures !Crowded(ps, candidate)
  {
  }

  /**
   * Crowding can only abort a spawn into the middle lane, and only when both
   * outer lanes hold at least three obstacles.
   */
  lemma CrowdedNeedsBusyNeighbours(ps: seq<Pos>, candidate: int)
    requires IsLane(candidate) && Crowded(ps, candidate)
    ensures candidate == 2
    ensures |LaneYs(ps, 1)| >= 3 && |LaneYs(ps, 3)| >= 3
  {
    var left, right := SortAscending(LaneYs(ps, 1)), SortAscending(LaneYs(ps, 3));
    CrowdedNeedsThree(left);
    CrowdedNeedsThree(right);
  }

  /** A spawned obstacle keeps the headroom invariant when its lane had none above the top edge. */
  lemma AppendAboveTop(ps: seq<Pos>, lane: int)
    requires AtMostOneAboveTop(ps) && !HasAboveTop(ps, lane)
    ensures AtMostOneAboveTop(ps + [Spawned(lane)])
  {
    CountAboveIff(ps, lane);
    forall l ensures CountAbove(ps + [Spawned(lane)], l) <= 1 {
      CountAboveAppend(ps, Spawned(lane), l);
    }
  }

  /** Spawning only adds an obstacle above the top edge to a lane that had none. */
  lemma SpawnKeepsOneAboveTop(ps: seq<Pos>, attempt: int, candidate: int)
    requires AtMostOneAboveTop(ps)
    ensures AtMostOneAboveTop(Spawn(ps, attempt, candidate))
  {
    if Spawn(ps, attempt, candidate) != ps {
      AppendAboveTop(ps, candidate);
    }
  }

  /** A spawned obstacle is in a lane and at its spawn height. */
  lemma SpawnWellPlaced(ps: seq<Pos>, attempt: int, candidate: int)
    requires WellPlaced(ps) && IsLane(candidate)
    ensures WellPlaced(Spawn(ps, attempt, candidate))
  {
  }

  /**
   * Rule 2 at work: right after a spawn some other lane is still free near the
   * top, so a spawn never closes a wall across all lanes.
   */
  lemma SpawnLeavesOpenLane(ps: seq<Pos>, attempt: int, candidate: int)
    requires Spawn(ps, attempt, candidate) != ps
    ensures exists lane :: IsLane(lane) && lane != candidate && !HasNearTop(Spawn(ps, attempt, candidate), lane)
  {
    var r := Spawn(ps, attempt, candidate);
    var lane :| 1 <= lane <= LANE_COUNT && lane != candidate && !HasNearTop(ps, lane);
    assert !HasNearTop(r, lane);
  }
}
