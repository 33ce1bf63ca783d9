/**
 * Keyboard input as the game sees it: each key-down event may move the
 * player one lane left or right, never past the outer lanes.
 */
module Controls {
  import opened Settings

  datatype Key = Left | Right | OtherKey

  /** The events the lane logic reacts to; quitting ends the process and is not modelled. */
  datatype Event = KeyDown(key: Key) | OtherEvent

  /** The lane after one key press. */
  function MoveLane(lane: int, key: Key): (r: int)
    ensures IsLane(lane) ==> IsLane(r)
    ensures -1 <= r - lane <= 1
    ensures key == Left ==> r <= lane
    ensures key == Right ==> r >= lane
    ensures IsLane(lane) ==> (r == lane <==> key.OtherKey? || (key.Left? && lane == 1) || (key.Right? && lane == LANE_COUNT))
  {
    if key == Left && lane > 1 then lane - 1
    else if key == Right && lane < LANE_COUNT then lane + 1
    else lane
  }

  /** Only a key press can move the player, and by at most one lane. */
  function ApplyEvent(lane: int, e: Event): (r: int)
    ensures IsLane(lane) ==> IsLane(r)
    ensures e.OtherEvent? ==> r == lane
  {
    match e
    case KeyDown(key) => MoveLane(lane, key)
    case OtherEvent => lane
  }

  /** The lane after handling a queue of events in order. */
  function LaneAfter(lane: int, events: seq<Event>): (r: int)
    ensures -|events| <= r - lane <= |events|
  {
    if events == [] then lane else ApplyEvent(LaneAfter(lane, events[..|events| - 1]), events[|events| - 1])
  }

  /** However many presses arrive, the player stays in one of the lanes. */
  lemma {:induction false} LaneAfterStaysInLanes(lane: int, events: seq<Event>)
    requires IsLane(lane)
    ensures IsLane(LaneAfter(lane, events))
  {
    if events != [] {
      LaneAfterStaysInLanes(lane, events[..|events| - 1]);
    }
  }

  function Presses(key: Key, n: nat): (es: seq<Event>)
    ensures |es| == n
  {
    seq(n, _ => KeyDown(key))
  }

  /** `n` right presses move the player `n` lanes right, stopping at the last lane. */
  lemma {:induction false} RightPresses(lane: int, n: nat)
    requires IsLane(lane)
    ensures LaneAfter(lane, Presses(Right, n)) == if lane + n < LANE_COUNT then lane + n else LANE_COUNT
  {
    if n > 0 {
      assert Presses(Right, n)[..n - 1] == Presses(Right, n - 1);
      RightPresses(lane, n - 1);
    }
  }

  /** `n` left presses move the player `n` lanes left, stopping at lane 1. */
  lemma {:induction false} LeftPresses(lane: int, n: nat)
    requires IsLane(lane)
    ensures LaneAfter(lane, Presses(Left, n)) == if lane - n > 1 then lane - n else 1
  {
    if n > 0 {
      assert Presses(Left, n)[..n - 1] == Presses(Left, n - 1);
      LeftPresses(lane, n - 1);
    }
  }
}
