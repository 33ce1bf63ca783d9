/**
 * Layout constants of the play field and the pure formulas derived from them:
 * the lane-to-pixel mapping shared by the player and the obstacles, and the
 * difficulty ramp.
 */
module Settings {

  const SCALE := 25
  const SCREEN_HEIGHT := 500
  const SCREEN_WIDTH := 225
  const LANE_COUNT := 3
  const LANE_WIDTH := 56
  const LEFT_MARGIN := 28
  const PLAYER_WIDTH := 40
  const PLAYER_HEIGHT := 60
  const OBSTACLE_WIDTH := 40
  const OBSTACLE_HEIGHT := 80
  const OBSTACLE_SPEED := 5

  /** The lane a fresh player starts in (the middle one). */
  const START_LANE := 2
  /** Top edge of the player's rectangle, placed so that its bottom edge is 20 pixels above the bottom of the screen. */
  const PLAYER_Y := SCREEN_HEIGHT - PLAYER_HEIGHT - 20

  /** Difficulty is capped here, so the spawn draw range [1, 60 - difficulty] is never empty. */
  const MAX_DIFFICULTY := 59
  const SPAWN_DRAW_LIMIT := 60

  /**
   * The layout constants are derived from SCALE: a 20:9 screen, a lane width
   * of the screen width divided by 4 and rounded down (56), and a left margin
   * of half the 57 spare pixels, rounded down (28), which leaves a right
   * margin of 29. Python's `//` agrees with Dafny's `/` on these
   * non-negative operands.
   */
  lemma DerivedLayout()
    ensures SCREEN_HEIGHT == 20 * SCALE && SCREEN_WIDTH == 9 * SCALE
    ensures LANE_WIDTH == SCREEN_WIDTH / (LANE_COUNT + 1)
    ensures LEFT_MARGIN == (SCREEN_WIDTH - LANE_COUNT * LANE_WIDTH) / 2
    ensures 4 * LANE_WIDTH < SCREEN_WIDTH && SCREEN_WIDTH - LANE_COUNT * LANE_WIDTH == 57
    ensures SCREEN_WIDTH - LEFT_MARGIN - LANE_COUNT * LANE_WIDTH == LEFT_MARGIN + 1
  {
  }

  predicate IsLane(lane: int) {
    1 <= lane <= LANE_COUNT
  }

  /**
   * Left edge of a sprite of the given width centred in `lane`:
   * LEFT_MARGIN + lane * LANE_WIDTH - LANE_WIDTH // 2 - width // 2.
   */
  function LaneX(lane: int, width: nat): (x: int)
    ensures x + width / 2 == LaneCentre(lane)
    ensures width <= LANE_WIDTH ==> LEFT_MARGIN + (lane - 1) * LANE_WIDTH <= x && x + width <= LEFT_MARGIN + lane * LANE_WIDTH
  {
    LEFT_MARGIN + lane * LANE_WIDTH - LANE_WIDTH / 2 - width / 2
  }

  /** The lane's centre line, which every sprite in that lane is centred on. */
  function LaneCentre(lane: int): int {
    LEFT_MARGIN + lane * LANE_WIDTH - LANE_WIDTH / 2
  }

  /** Neighbouring lanes are exactly one lane width apart, whatever the sprite width. */
  lemma AdjacentLanesOneWidthApart(lane: int, width: nat)
    ensures LaneX(lane + 1, width) - LaneX(lane, width) == LANE_WIDTH
  {
  }

  /**
   * A sprite of even width is centred on its lane; since the player and the
   * obstacles are equally wide they share the x of a lane.
   */
  lemma SpritesShareLaneX(lane: int)
    ensures LaneX(lane, PLAYER_WIDTH) == LaneX(lane, OBSTACLE_WIDTH)
    ensures LaneX(lane, PLAYER_WIDTH) + PLAYER_WIDTH / 2 == LaneCentre(lane)
  {
  }

  /**
   * Every lane keeps a sprite of the player's or an obstacle's width inside
   * the screen, and sprites in different lanes never overlap horizontally.
   */
  lemma LanesFitAndSeparate(a: int, b: int)
    requires IsLane(a) && IsLane(b)
    ensures 0 <= LaneX(a, OBSTACLE_WIDTH) && LaneX(a, OBSTACLE_WIDTH) + OBSTACLE_WIDTH <= SCREEN_WIDTH
    ensures a < b ==> LaneX(a, OBSTACLE_WIDTH) + OBSTACLE_WIDTH < LaneX(b, OBSTACLE_WIDTH)
  {
    if a < b {
      assert LaneX(b, OBSTACLE_WIDTH) - LaneX(a, OBSTACLE_WIDTH) == (b - a) * LANE_WIDTH;
    }
  }

  /** min(59, score // 10 + 1): the spawn-pressure parameter derived from the score. */
  function Difficulty(score: nat): (d: int)
    ensures 1 <= d <= MAX_DIFFICULTY
    ensures SPAWN_DRAW_LIMIT - d >= 1
    ensures d == MAX_DIFFICULTY <==> score >= 10 * (MAX_DIFFICULTY - 1)
  {
    if score / 10 + 1 < MAX_DIFFICULTY then score / 10 + 1 else MAX_DIFFICULTY
  }

  /** A higher score never lowers the difficulty. */
  lemma DifficultyMonotone(s: nat, t: nat)
    requires s <= t
    ensures Difficulty(s) <= Difficulty(t)
  {
  }

  /** Below the cap, the difficulty rises by one exactly every ten points. */
  lemma DifficultySteps(score: nat)
    requires score < 10 * (MAX_DIFFICULTY - 1)
    ensures Difficulty(score) == score / 10 + 1
    ensures Difficulty(score + 10) == Difficulty(score) + 1
  {
  }
}
