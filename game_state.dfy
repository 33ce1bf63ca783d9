/**
 * The game session: the player, the obstacle group, score, difficulty and
 * highscore, and the per-frame update that advances the obstacles, runs the
 * spawn planner and ramps the difficulty.
 */
module GameState {
  import opened Settings
  import opened Sprites
  import opened SpawnRules
  import opened Controls

  const BG_SPEED := 5
  /** Each background copy's offset wraps back to -BG_WRAP once it reaches BG_WRAP. */
  const BG_WRAP := 750

  /**
   * The obstacle list one frame later: the obstacles are updated once through
   * each of the two sprite groups they belong to, then the spawn planner runs
   * on the moved obstacles.
   */
  function Frame(ps: seq<Pos>, attempt: int, candidate: int): (r: seq<Pos>)
    ensures r == Spawn(AdvanceBy(ps, 2 * OBSTACLE_SPEED), attempt, candidate)
  {
    AdvanceTwice(ps);
    Spawn(Advance(Advance(ps)), attempt, candidate)
  }

  /**
   * Every frame keeps each obstacle in a lane and on or just above the
   * screen, and leaves at most one obstacle above the top edge per lane.
   */
  lemma FrameKeepsLayoutInvariant(ps: seq<Pos>, attempt: int, candidate: int)
    requires WellPlaced(ps) && AtMostOneAboveTop(ps) && IsLane(candidate)
    ensures WellPlaced(Frame(ps, attempt, candidate)) && AtMostOneAboveTop(Frame(ps, attempt, candidate))
  {
    AdvanceWellPlaced(ps);
    AdvanceWellPlaced(Advance(ps));
    AdvanceKeepsOneAboveTop(ps);
    AdvanceKeepsOneAboveTop(Advance(ps));
    SpawnWellPlaced(Advance(Advance(ps)), attempt, candidate);
    SpawnKeepsOneAboveTop(Advance(Advance(ps)), attempt, candidate);
  }

  /** One step of a background copy's scroll offset. */
  function ScrollBackground(y: int): (r: int)
    requires -BG_WRAP <= y < BG_WRAP
    ensures -BG_WRAP <= r < BG_WRAP
    ensures r == y + BG_SPEED || r == -BG_WRAP
    ensures r == -BG_WRAP <==> y + BG_SPEED >= BG_WRAP
  {
    if y + BG_SPEED >= BG_WRAP then -BG_WRAP else y + BG_SPEED
  }

  class Game {
    var obstacles: seq<Obstacle>
    var player: Player
    var difficulty: int
    var score: nat
    var highscore: nat
    var bgY1: int
    var bgY2: int

    /** Lane and height of every obstacle, in group order. */
    function Positions(): seq<Pos>
      reads this`obstacles, obstacles`y
    {
      Layout(obstacles)
    }

    ghost predicate Valid()
      reads this, player`lane, player`x, obstacles`y
    {
      && PlayerValid()
      && difficulty == Difficulty(score)
      && -BG_WRAP <= bgY1 < BG_WRAP && -BG_WRAP <= bgY2 < BG_WRAP
      && ObstaclesValid()
    }

    /** The player is in a lane and drawn at that lane's x. */
    ghost predicate PlayerValid()
      reads this`player, player`lane, player`x
    {
      IsLane(player.lane) && player.x == LaneX(player.lane, PLAYER_WIDTH)
    }

    /**
     * The group holds distinct obstacles, each in a lane, between spawn height
     * and the bottom of the screen, and no lane holds two obstacles above the
     * top edge.
     */
    ghost predicate ObstaclesValid()
      reads this`obstacles, obstacles`y
    {
      && Distinct(obstacles)
      && WellPlaced(Positions())
      && AtMostOneAboveTop(Positions())
    }

    constructor ()
      ensures Valid() && fresh(player)
      ensures obstacles == [] && player.lane == START_LANE && player.y == PLAYER_Y
      ensures score == 0 && difficulty == 1 && highscore == 0
      ensures bgY1 == 0 && bgY2 == -BG_WRAP
    {
      obstacles := [];
      player := new Player();
      difficulty := 1;
      score := 0;
      highscore := 0;
      bgY1 := 0;
      bgY2 := -BG_WRAP;
    }

    /** The lane logic of `handle_events`: every key-down re-derives the player's x from its lane. */
    method HandleEvents(events: seq<Event>)
      requires Valid()
      modifies player`lane, player`x
      ensures Valid()
      ensures player.lane == LaneAfter(old(player.lane), events)
      ensures player.x == LaneX(player.lane, PLAYER_WIDTH)
    {
      for i := 0 to |events|
        invariant Valid()
        invariant player.lane == LaneAfter(old(player.lane), events[..i])
      {
        assert events[..i + 1][..i] == events[..i];
        match events[i]
        case KeyDown(key) =>
          if key == Left && player.lane > 1 {
            player.lane := player.lane - 1;
          } else if key == Right && player.lane < LANE_COUNT {
            player.lane := player.lane + 1;
          }
          player.x := LaneX(player.lane, PLAYER_WIDTH);
        case OtherEvent =>
      }
      assert events[..|events|] == events;
    }

    /**
     * One `update()` pass of a sprite group over the obstacles: each moves
     * down, and those whose top passed the bottom of the screen are killed.
     */
    method UpdateGroup()
      requires Valid()
      modifies this`obstacles, obstacles`y
      ensures Valid()
      ensures Positions() == Advance(old(Positions()))
      ensures forall o :: o in obstacles ==> o in old(obstacles)
    {
      ghost var before := Positions();
      obstacles := UpdateAll(obstacles);
      assert Positions() == Advance(before);
      AdvanceWellPlaced(before);
      AdvanceKeepsOneAboveTop(before);
    }

    /**
     * The sprite part of a frame: the obstacles are members of both sprite
     * groups, so `all_sprites.update()` and `obstacles.update()` each move them once.
     */
    method MoveObstacles()
      requires Valid()
      modifies this`obstacles, (set o | o in obstacles)`y
      ensures Valid()
      ensures Positions() == Advance(Advance(old(Positions())))
      ensures forall o :: o in obstacles ==> o in old(obstacles)
    {
      UpdateGroup();
      UpdateGroup();
    }

    /**
     * The spawning step of `spawn_obstacles`: a new obstacle in `lane`, at the
     * spawn height, joins the end of the group.
     */
    method AddObstacle(lane: int)
      requires ObstaclesValid()
      requires IsLane(lane) && !HasAboveTop(Positions(), lane)
      modifies this`obstacles
      ensures ObstaclesValid()
      ensures Positions() == old(Positions()) + [Spawned(lane)]
      ensures |obstacles| == |old(obstacles)| + 1 && obstacles[..|old(obstacles)|] == old(obstacles)
    {
      ghost var ps := Positions();
      AppendAboveTop(ps, lane);
      var o := new Obstacle(lane);
      LayoutAppend(obstacles, o);
      obstacles := obstacles + [o];
      assert obstacles[..|obstacles| - 1] == old(obstacles);
    }

    /**
     * `spawn_obstacles`, with the attempt draw and the drawn lane passed in:
     * adds at most one obstacle, in the drawn lane at the spawn height, and
     * changes no existing one.
     */
    method SpawnObstacles(attempt: int, candidate: int)
      requires Valid()
      requires IsLane(candidate)
      modifies this`obstacles
      ensures Valid()
      ensures Positions() == Spawn(old(Positions()), attempt, candidate)
      ensures obstacles == old(obstacles) || obstacles[..|old(obstacles)|] == old(obstacles)
    {
      if attempt == 1 {
        var blocked := SpawnBlocked(Positions(), candidate);
        if !blocked {
          AddObstacle(candidate);
        }
      }
    }

    /**
     * The sprite part of `Game.update`: both group updates, then the spawn
     * planner with the attempt draw and the drawn lane passed in.
     */
    method UpdateSprites(attempt: int, candidate: int)
      requires Valid() && IsLane(candidate)
      modifies this`obstacles, obstacles`y
      ensures Valid()
      ensures Positions() == Frame(old(Positions()), attempt, candidate)
    {
      MoveObstacles();
      SpawnObstacles(attempt, candidate);
    }

    /**
     * The counter part of `Game.update`: the score advances on a score tick,
     * the difficulty follows it, and both background copies scroll.
     */
    method Tick(scoreTick: bool)
      requires Valid()
      modifies this`score, this`difficulty, this`bgY1, this`bgY2
      ensures Valid()
      ensures score == old(score) + (if scoreTick then 1 else 0)
      ensures difficulty == Difficulty(score) && difficulty >= old(difficulty)
      ensures bgY1 == ScrollBackground(old(bgY1)) && bgY2 == ScrollBackground(old(bgY2))
      ensures Positions() == old(Positions())
    {
      var newScore := score + if scoreTick then 1 else 0;
      DifficultyMonotone(score, newScore);
      var y1, y2 := bgY1 + BG_SPEED, bgY2 + BG_SPEED;
      if y1 >= BG_WRAP {
        y1 := -BG_WRAP;
      }
      if y2 >= BG_WRAP {
        y2 := -BG_WRAP;
      }
      score, difficulty, bgY1, bgY2 := newScore, Difficulty(newScore), y1, y2;
    }

    /** One frame of `Game.update`, with the spawn draws and the score-tick condition passed in. */
    method Update(attempt: int, candidate: int, scoreTick: bool)
      requires Valid()
      requires 1 <= attempt <= SPAWN_DRAW_LIMIT - difficulty
      requires IsLane(candidate)
      modifies this`obstacles, this`score, this`difficulty, this`bgY1, this`bgY2, obstacles`y
      ensures Valid()
      ensures Positions() == Frame(old(Positions()), attempt, candidate)
      ensures score == old(score) + (if scoreTick then 1 else 0) && difficulty >= old(difficulty)
      ensures bgY1 == ScrollBackground(old(bgY1)) && bgY2 == ScrollBackground(old(bgY2))
    {
      ghost var before := Positions();
      UpdateSprites(attempt, candidate);
      ghost var moved := Positions();
      assert moved == Frame(before, attempt, candidate);
      Tick(scoreTick);
    }

    /** The bookkeeping of `show_game_over`: the highscore becomes the larger of itself and the score. */
    method RecordHighscore()
      requires Valid()
      modifies this`highscore
      ensures Valid()
      ensures highscore >= old(highscore) && highscore >= score
      ensures highscore == old(highscore) || highscore == score
    {
      if score > highscore {
        highscore := score;
      }
    }

    /** `reset_game`: a fresh player in the start lane, no obstacles, score and difficulty back to their start. */
    method ResetGame()
      requires Valid()
      modifies this
      ensures Valid() && fresh(player)
      ensures obstacles == [] && player.lane == START_LANE && player.y == PLAYER_Y
      ensures score == 0 && difficulty == 1
      ensures highscore == old(highscore) && bgY1 == old(bgY1) && bgY2 == old(bgY2)
    {
      obstacles := [];
      player := new Player();
      difficulty := 1;
      score := 0;
    }
  }
}
