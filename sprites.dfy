/**
 * The two kinds of sprite: the player, whose lane changes on key presses, and
 * the obstacles, which fall down their lane every update and leave the sprite
 * groups once their top edge is below the screen.  The value view `Pos` of an
 * obstacle and the pure effect of one group update on a list of them are
 * defined here too.
 */
module Sprites {
  import opened Settings

  /** The part of an obstacle that changes or that the spawn rules read. */
  datatype Pos = Pos(lane: int, y: int)

  class Player {
    var lane: int
    var x: int
    const y: int

    constructor ()
      ensures lane == START_LANE && IsLane(lane)
      ensures x == LaneX(lane, PLAYER_WIDTH)
      ensures y == PLAYER_Y && y + PLAYER_HEIGHT < SCREEN_HEIGHT
    {
      lane := START_LANE;
      x := LaneX(START_LANE, PLAYER_WIDTH);
      y := PLAYER_Y;
    }
  }

  class Obstacle {
    const lane: int
    /** An obstacle never changes lane, so its x is fixed by the lane. */
    const x: int := LaneX(lane, OBSTACLE_WIDTH)
    var y: int

    /** A new obstacle sits in `lane`, just above the visible top edge. */
    constructor (lane: int)
      ensures this.lane == lane && x == LaneX(lane, OBSTACLE_WIDTH)
      ensures y == -OBSTACLE_HEIGHT && y + OBSTACLE_HEIGHT == 0
    {
      this.lane := lane;
      y := -OBSTACLE_HEIGHT;
    }

    /**
     * Moves the obstacle down by OBSTACLE_SPEED; `killed` reports that its top
     * is now below the screen, and the group being updated drops it.
     */
    method Update() returns (killed: bool)
      modifies this`y
      ensures y == old(y) + OBSTACLE_SPEED && y > old(y)
      ensures killed <==> y > SCREEN_HEIGHT
    {
      y := y + OBSTACLE_SPEED;
      killed := y > SCREEN_HEIGHT;
    }
  }

  /** The value view of a list of obstacle objects, in the same order. */
  function Layout(obs: seq<Obstacle>): (ps: seq<Pos>)
    reads obs`y
    ensures |ps| == |obs|
  {
    if obs == [] then [] else Layout(obs[..|obs| - 1]) + [Pos(obs[|obs| - 1].lane, obs[|obs| - 1].y)]
  }

  /** Entry `i` of the value view is obstacle `i`'s lane and height. */
  lemma {:induction false} LayoutEntries(obs: seq<Obstacle>)
    ensures forall i :: 0 <= i < |obs| ==> Layout(obs)[i] == Pos(obs[i].lane, obs[i].y)
  {
    if obs != [] {
      LayoutEntries(obs[..|obs| - 1]);
    }
  }

  /** Appending an obstacle appends its lane and height to the value view. */
  lemma LayoutAppend(obs: seq<Obstacle>, o: Obstacle)
    ensures Layout(obs + [o]) == Layout(obs) + [Pos(o.lane, o.y)]
  {
    assert (obs + [o])[..|obs|] == obs;
  }

  /** The objects of `group` are pairwise distinct, as in a sprite group. */
  predicate Distinct(group: seq<Obstacle>) {
    forall j, k :: 0 <= j < k < |group| ==> group[j] != group[k]
  }

  /**
   * The members among the first `n` of `obs` that one update keeps, given
   * their heights `ps` before it: those whose top stays on screen after one move.
   */
  ghost function Kept(obs: seq<Obstacle>, ps: seq<Pos>, n: int): (r: seq<Obstacle>)
    requires |obs| == |ps| && 0 <= n <= |obs|
    ensures |r| <= n
  {
    if n == 0 then []
    else Kept(obs, ps, n - 1) + (if ps[n - 1].y + OBSTACLE_SPEED > SCREEN_HEIGHT then [] else [obs[n - 1]])
  }

  /** The kept obstacles come from the first `n` members of `obs`, each once. */
  lemma {:induction false} KeptFromGroup(obs: seq<Obstacle>, ps: seq<Pos>, n: int)
    requires |obs| == |ps| && 0 <= n <= |obs| && Distinct(obs)
    ensures forall o :: o in Kept(obs, ps, n) ==> o in obs[..n]
    ensures Distinct(Kept(obs, ps, n))
  {
    if n > 0 {
      KeptFromGroup(obs, ps, n - 1);
      assert obs[..n] == obs[..n - 1] + [obs[n - 1]];
      assert obs[n - 1] !in obs[..n - 1];
    }
  }

  /**
   * Once every member has moved one step, the first `n` kept members, viewed
   * as values, are what `Advance` makes of the first `n` heights before the move.
   */
  lemma {:induction false} KeptLayout(obs: seq<Obstacle>, ps: seq<Pos>, n: int)
    requires |obs| == |ps| && 0 <= n <= |obs|
    requires forall j :: 0 <= j < |obs| ==> obs[j].lane == ps[j].lane && obs[j].y == ps[j].y + OBSTACLE_SPEED
    ensures Layout(Kept(obs, ps, n)) == Advance(ps[..n])
  {
    if n > 0 {
      var kept := Kept(obs, ps, n - 1);
      KeptLayout(obs, ps, n - 1);
      assert ps[..n][..n - 1] == ps[..n - 1];
      assert Advance(ps[..n]) == Advance(ps[..n - 1]) + Step(ps[n - 1]);
      if ps[n - 1].y + OBSTACLE_SPEED <= SCREEN_HEIGHT {
        assert Kept(obs, ps, n) == kept + [obs[n - 1]];
        LayoutAppend(kept, obs[n - 1]);
        assert Step(ps[n - 1]) == [Pos(obs[n - 1].lane, obs[n - 1].y)];
      } else {
        assert Kept(obs, ps, n) == kept + [];
        assert kept + [] == kept;
      }
    }
  }

  /** What `KeptFromGroup` and `KeptLayout` say about a whole group. */
  lemma KeptSurvivors(obs: seq<Obstacle>, ps: seq<Pos>)
    requires |obs| == |ps| && Distinct(obs)
    requires forall j :: 0 <= j < |obs| ==> obs[j].lane == ps[j].lane && obs[j].y == ps[j].y + OBSTACLE_SPEED
    ensures Distinct(Kept(obs, ps, |obs|))
    ensures forall o :: o in Kept(obs, ps, |obs|) ==> o in obs
    ensures Layout(Kept(obs, ps, |obs|)) == Advance(ps)
  {
    KeptFromGroup(obs, ps, |obs|);
    KeptLayout(obs, ps, |obs|);
    assert obs[..|obs|] == obs && ps[..|obs|] == ps;
  }

  /**
   * A sprite group's `update()` over obstacles: every member moves down once,
   * and the members it kills are dropped, the others keep their order.
   */
  method UpdateAll(group: seq<Obstacle>) returns (survivors: seq<Obstacle>)
    requires Distinct(group)
    modifies group`y
    ensures Distinct(survivors)
    ensures forall o :: o in survivors ==> o in group
    ensures Layout(survivors) == Advance(old(Layout(group)))
  {
    ghost var before := Layout(group);
    LayoutEntries(group);
    survivors := [];
    for i := 0 to |group|
      invariant forall j :: 0 <= j < i ==> group[j].y == before[j].y + OBSTACLE_SPEED
      invariant forall j :: i <= j < |group| ==> group[j].y == before[j].y
      invariant survivors == Kept(group, before, i)
    {
      var o := group[i];
      var killed := o.Update();
      if !killed {
        survivors := survivors + [o];
      }
    }
    KeptSurvivors(group, before);
  }

  /** What one obstacle update leaves of `p`: nothing once it is off screen. */
  function Step(p: Pos): (r: seq<Pos>)
    ensures |r| <= 1
  {
    var q := Pos(p.lane, p.y + OBSTACLE_SPEED);
    if q.y > SCREEN_HEIGHT then [] else [q]
  }

  /** On values, an update drops a car exactly when its top is below the screen after the move. */
  lemma StepDrops(p: Pos)
    ensures Step(p) == [] <==> p.y + OBSTACLE_SPEED > SCREEN_HEIGHT
    ensures Step(p) != [] ==> Step(p) == [Pos(p.lane, p.y + OBSTACLE_SPEED)]
  {
  }

  /** One pass of a sprite group's update over the obstacles, survivors in order. */
  function Advance(ps: seq<Pos>): (r: seq<Pos>)
    ensures |r| <= |ps|
  {
    if ps == [] then [] else Advance(ps[..|ps| - 1]) + Step(ps[|ps| - 1])
  }

  /** Moving every obstacle by `dy` at once and keeping those still on screen. */
  function AdvanceBy(ps: seq<Pos>, dy: int): seq<Pos> {
    if ps == [] then []
    else
      var p := ps[|ps| - 1];
      AdvanceBy(ps[..|ps| - 1], dy) + (if p.y + dy > SCREEN_HEIGHT then [] else [Pos(p.lane, p.y + dy)])
  }

  /**
   * When nobody leaves the screen, a group update moves every obstacle down by
   * exactly OBSTACLE_SPEED and touches nothing else.
   */
  lemma {:induction false} AdvanceMovesEach(ps: seq<Pos>)
    requires forall i :: 0 <= i < |ps| ==> ps[i].y + OBSTACLE_SPEED <= SCREEN_HEIGHT
    ensures |Advance(ps)| == |ps|
    ensures forall i :: 0 <= i < |ps| ==> Advance(ps)[i] == Pos(ps[i].lane, ps[i].y + OBSTACLE_SPEED)
  {
    if ps != [] {
      AdvanceMovesEach(ps[..|ps| - 1]);
    }
  }

  /**
   * Both sprite groups hold every obstacle, so a frame updates each of them
   * twice; that is the same as one move by 2 * OBSTACLE_SPEED that drops the
   * obstacles whose top then lies below the screen.
   */
  lemma {:induction false} AdvanceTwice(ps: seq<Pos>)
    ensures Advance(Advance(ps)) == AdvanceBy(ps, 2 * OBSTACLE_SPEED)
  {
    if ps != [] {
      var init, p := ps[..|ps| - 1], ps[|ps| - 1];
      AdvanceTwice(init);
      AdvanceAppend(Advance(init), Step(p));
      assert ps[..|ps| - 1] == init;
      if p.y + OBSTACLE_SPEED <= SCREEN_HEIGHT {
        var q := Pos(p.lane, p.y + OBSTACLE_SPEED);
        assert [q][..0] == [];
      }
    }
  }

  /** A group update treats the obstacles one by one. */
  lemma {:induction false} AdvanceAppend(ps: seq<Pos>, qs: seq<Pos>)
    ensures Advance(ps + qs) == Advance(ps) + Advance(qs)
    decreases |qs|
  {
    if qs == [] {
      assert ps + qs == ps;
    } else {
      var init := qs[..|qs| - 1];
      assert (ps + qs)[..|ps + qs| - 1] == ps + init;
      AdvanceAppend(ps, init);
    }
  }

  /** Number of obstacles in `lane` whose top is still above the visible area. */
  function CountAbove(ps: seq<Pos>, lane: int): (n: nat)
    ensures n <= |ps|
  {
    if ps == [] then 0
    else CountAbove(ps[..|ps| - 1], lane) + (if ps[|ps| - 1].lane == lane && ps[|ps| - 1].y < 0 then 1 else 0)
  }

  /** Some obstacle in `lane` has its top above the visible area (y < 0). */
  predicate HasAboveTop(ps: seq<Pos>, lane: int) {
    exists i :: 0 <= i < |ps| && ps[i].lane == lane && ps[i].y < 0
  }

  /** The invariant the headroom rule keeps: no lane holds two obstacles above the top edge. */
  ghost predicate AtMostOneAboveTop(ps: seq<Pos>) {
    forall lane :: CountAbove(ps, lane) <= 1
  }

  /** The counting view and the `any` view of the headroom rule agree. */
  lemma {:induction false} CountAboveIff(ps: seq<Pos>, lane: int)
    ensures CountAbove(ps, lane) > 0 <==> HasAboveTop(ps, lane)
  {
    if ps != [] {
      var init := ps[..|ps| - 1];
      CountAboveIff(init, lane);
      if HasAboveTop(init, lane) {
        var i :| 0 <= i < |init| && init[i].lane == lane && init[i].y < 0;
        assert ps[i] == init[i];
      }
      if HasAboveTop(ps, lane) && !(ps[|ps| - 1].lane == lane && ps[|ps| - 1].y < 0) {
        var i :| 0 <= i < |ps| && ps[i].lane == lane && ps[i].y < 0;
        assert i < |init| && init[i] == ps[i];
      }
    }
  }

  /** Appending one obstacle adds it to its own lane's count only. */
  lemma {:induction false} CountAboveAppend(ps: seq<Pos>, p: Pos, lane: int)
    ensures CountAbove(ps + [p], lane) == CountAbove(ps, lane) + (if p.lane == lane && p.y < 0 then 1 else 0)
  {
    assert (ps + [p])[..|ps|] == ps;
  }

  /** Obstacles only move down or leave, so no lane gains an obstacle above the top edge. */
  lemma {:induction false} AdvanceCountAbove(ps: seq<Pos>, lane: int)
    ensures CountAbove(Advance(ps), lane) <= CountAbove(ps, lane)
  {
    if ps != [] {
      var init, p := ps[..|ps| - 1], ps[|ps| - 1];
      AdvanceCountAbove(init, lane);
      if p.y + OBSTACLE_SPEED <= SCREEN_HEIGHT {
        CountAboveAppend(Advance(init), Pos(p.lane, p.y + OBSTACLE_SPEED), lane);
      } else {
        assert Step(p) == [];
        assert Advance(ps) == Advance(init) + [] == Advance(init);
      }
    }
  }

  /** The headroom invariant survives a group update. */
  lemma AdvanceKeepsOneAboveTop(ps: seq<Pos>)
    requires AtMostOneAboveTop(ps)
    ensures AtMostOneAboveTop(Advance(ps))
  {
    forall lane ensures CountAbove(Advance(ps), lane) <= 1 {
      AdvanceCountAbove(ps, lane);
    }
  }

  /** Every obstacle is in a lane and between its spawn height and the bottom of the screen. */
  predicate WellPlaced(ps: seq<Pos>) {
    forall i :: 0 <= i < |ps| ==> IsLane(ps[i].lane) && -OBSTACLE_HEIGHT <= ps[i].y <= SCREEN_HEIGHT
  }

  /** A group update keeps every obstacle well placed, and keeps their lanes. */
  lemma {:induction false} AdvanceWellPlaced(ps: seq<Pos>)
    requires WellPlaced(ps)
    ensures WellPlaced(Advance(ps))
  {
    if ps != [] {
      AdvanceWellPlaced(ps[..|ps| - 1]);
    }
  }
}
