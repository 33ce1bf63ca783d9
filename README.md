# Endless Cyclist — game-state model

Endless Cyclist is a three-lane dodging game. The player rides in one of the
lanes near the bottom of a 225 × 500 screen and moves one lane left or right
on key presses. Cars fall down the lanes at a fixed speed and leave the game
once their top passes the bottom edge. Every frame, a spawn planner may add a
car at the top of a randomly drawn lane. It does so only when none of three
rules objects: both neighbouring lanes crowded with long chains of close
cars, a "wall" of cars near the top of every other lane, or a car of the
drawn lane still above the top edge. The score grows over time, and the
difficulty follows it: it widens the chance that the planner runs at all.

This project models that per-frame logic and proves its properties:

- `settings.dfy` (module `Settings`) holds the layout constants, the
  lane-to-x mapping shared by the player and the cars, and the difficulty
  ramp.
- `controls.dfy` (module `Controls`) covers key presses and the lane change
  with clamping at the outer lanes.
- `sprites.dfy` (module `Sprites`) has the `Player` and `Obstacle` classes.
  - `Obstacle.Update` moves a car down and reports that it is off screen.
  - The group pass `UpdateAll` drops the cars it kills.
  - `Pos` is a value view of a car (its lane and height). `Advance` is one
    group pass over such values.
  - The headroom invariant: no lane holds two cars above the top edge.
- `spawn_rules.dfy` (module `SpawnRules`) is the spawn planner.
  - `CalculateLaneLength` is the chain-length fold over a lane's sorted
    heights. `sorted` is modelled as an insertion sort, proved sorted and a
    permutation.
  - The three abort rules are checked by `SpawnBlocked`.
  - The pure effect of a spawn attempt on the car list is `Spawn`.
- `game_state.dfy` (module `GameState`) has the `Game` class with its
  invariant `Valid`, the frame update, key handling, game-over highscore
  bookkeeping and reset.

The random draws and the clock become parameters:
- `attempt` stands for the draw in `[1, 60 - difficulty]`.
- `candidate` is the drawn lane in `[1, LANE_COUNT]`.
- `scoreTick` replaces the condition on the millisecond clock that lets the
  score advance.

Both sprite groups of the game (`all_sprites` and `obstacles`) hold every car
in the same order. Cars are added to both, killed from both and emptied from
both. The model therefore keeps a single `seq<Obstacle>` and runs the group
pass over it twice per frame, so a car can move by twice the speed in one
frame and can be dropped after either pass.

Two details of the crowding rule shape what the model proves:
- `calculate_lane_length` returns the running total after the last pair, not
  the largest total reached (main.py:181), so a wide gap late in the lane
  resets it to 0. `ChainLength` is that final total.
- A missing neighbour counts 0 (main.py:183-184), so a draw of lane 1 or
  lane 3 is never aborted for crowding. `BoundaryLaneNeverCrowded` proves
  this.

## Model

| member | source | states |
|---|---|---|
| Settings.DerivedLayout | main.py:5-10 | The screen is 20:9 at scale 25. A lane is the screen width divided by 4, rounded down (56). The left margin is half the 57 spare pixels, rounded down (28), so the right margin is one pixel wider (29). |
| Settings.AdjacentLanesOneWidthApart | main.py:60 | For any sprite width, moving one lane right moves the sprite's x by exactly one lane width. |
| Settings.SpritesShareLaneX | main.py:11-13 | A player and a car in the same lane get the same x, and both are centred on the lane's centre line. |
| Settings.LanesFitAndSeparate | main.py:9-13 | A car in any lane lies inside the screen, and cars in different lanes never overlap horizontally. |
| Settings.LaneX | main.py:60 | The lane-to-x formula shared by the player (main.py:60, 125) and the cars (main.py:78). A sprite's centre lies on its lane's centre line, and a sprite no wider than a lane lies inside that lane's strip. |
| Settings.Difficulty | main.py:132 | The difficulty is in [1, 59], so the spawn draw range [1, 60 - difficulty] is never empty. It reaches the cap exactly when the score is at least 580. |
| Settings.DifficultyMonotone | main.py:132 | A higher score never gives a lower difficulty. |
| Settings.DifficultySteps | main.py:132 | Below the cap, the difficulty is score // 10 + 1, and ten more points raise it by exactly one. |
| Controls.MoveLane | main.py:121-124 | A press keeps a valid lane valid and changes it by at most one. Left never moves right and right never moves left. The lane stays put exactly for other keys, left in lane 1 and right in lane 3. |
| Controls.ApplyEvent | main.py:120-125 | One event keeps a valid lane valid, and an event other than a key press leaves the lane alone. |
| Controls.LaneAfter | main.py:116-125 | The lane after a queue of events, handled in order. After n events the player is at most n lanes from where it started. |
| Controls.LaneAfterStaysInLanes | main.py:116-124 | Whatever sequence of events arrives, the player stays in one of the lanes. |
| Controls.RightPresses | main.py:123-124 | n right presses move the player to min(lane + n, 3). |
| Controls.LeftPresses | main.py:121-122 | n left presses move the player to max(lane - n, 1). |
| Sprites.Player.constructor | main.py:58-61 | A new player is in the middle lane at that lane's x, with its bottom edge 20 pixels above the bottom of the screen. |
| Sprites.Obstacle.constructor | main.py:73-79 | A new car is in the given lane at that lane's x, with its bottom edge on the top of the screen. |
| Sprites.Obstacle.Update | main.py:81-84 | The car moves down by exactly 5, no other state changes, and it is killed exactly when its top is then below the screen. |
| Sprites.LayoutEntries | main.py:76-82 | Entry i of the value view is car i's lane and current height. |
| Sprites.LayoutAppend | main.py:202 | Adding a car to the end of the group adds its lane and height to the end of the value view. |
| Sprites.KeptFromGroup | main.py:83-84 | The cars a group pass keeps all come from the group, and none appears twice. |
| Sprites.KeptLayout | main.py:81-84 | Once every car has moved, the kept cars viewed as values are exactly what `Advance` makes of the heights before the pass. |
| Sprites.KeptSurvivors | main.py:81-84 | The same two facts for a whole group. |
| Sprites.UpdateAll | main.py:81-84 | One `update()` pass over a group moves every member once. The survivors are distinct members of the group, and as values they are `Advance` of the group before the pass: the cars still on screen, moved by 5, in their old order. |
| Sprites.Step | main.py:81-84 | What one update leaves of a car: nothing once its top is below the screen after the move, otherwise the car 5 lower in its lane. The contract bounds this to at most one car. |
| Sprites.StepDrops | main.py:82-84 | On values, one update drops a car exactly when its top is below the screen after the move; otherwise it keeps the car, 5 lower in the same lane. |
| Sprites.Advance | main.py:128 | One group pass over the cars' values, survivors in order, never longer than before. `UpdateAll` is proved to match it, and `AdvanceMovesEach` and `AdvanceTwice` characterise it. |
| Sprites.AdvanceMovesEach | main.py:81-83 | When no car leaves the screen, a pass keeps every car and moves each exactly 5 down in its own lane. |
| Sprites.AdvanceTwice | main.py:128-129 | The two passes of a frame equal one move by 10 that drops the cars whose top is then below the screen. |
| Sprites.AdvanceAppend | main.py:81-84 | A pass treats the cars independently: a pass over a concatenation is the concatenation of the passes. |
| Sprites.HasAboveTop | main.py:196-197 | The headroom test: some car of the lane has its top above the visible area (y < 0). `CountAboveIff` ties it to the counting view. |
| Sprites.CountAboveIff | main.py:196-197 | A lane has a positive count of cars above the top edge exactly when some car of that lane has y < 0. |
| Sprites.CountAboveAppend | main.py:201-202 | Appending a car raises only its own lane's count, and only when it is above the top edge. |
| Sprites.AdvanceCountAbove | main.py:81-84 | A pass never raises any lane's count of cars above the top edge. |
| Sprites.AdvanceKeepsOneAboveTop | main.py:81-84 | A pass keeps "at most one car above the top edge per lane". |
| Sprites.AdvanceWellPlaced | main.py:81-84 | A pass keeps every car in a lane and between its spawn height and the bottom of the screen. |
| SpawnRules.InsertPermutes | main.py:174 | Insertion adds exactly the new value to the multiset of heights. |
| SpawnRules.InsertSorts | main.py:174 | Inserting into an ascending list keeps it ascending. |
| SpawnRules.SortAscendingSorts | main.py:174 | The model of `sorted` returns the same heights in ascending order. |
| SpawnRules.CalculateLaneLength | main.py:172-181 | The fold returns the chain length of the sorted heights: never negative, and 0 for fewer than two cars. |
| SpawnRules.ChainLength | main.py:173-181 | The running total after the last pair of the sorted heights. A non-zero length means the last pair is close, i.e. its gap is below 160. |
| SpawnRules.ChainLengthIsTrailingSpan | main.py:175-180 | When the last run of close pairs starts at car k, the chain length is the distance from car k's top to the last car's top. Every earlier run is forgotten. |
| SpawnRules.ChainLengthBounds | main.py:174-180 | On sorted heights the chain length is between 0 and the lane's total span. |
| SpawnRules.ChainLengthNonNegative | main.py:174-180 | On sorted heights the chain length is never negative. |
| SpawnRules.CrowdedNeedsThree | main.py:177-187 | A chain of 250 or more needs at least three cars, since one close pair spans less than 240. |
| SpawnRules.LaneYsMembers | main.py:183-184 | A height is listed for a lane exactly when a car of that lane is at that height. |
| SpawnRules.LaneLength | main.py:183-184 | The chain length of a lane's cars is never negative. |
| SpawnRules.LeftLength | main.py:169-183 | The chain length of the lane to the left of the drawn lane, never negative, and 0 for lane 1, which has no left neighbour. |
| SpawnRules.RightLength | main.py:170-184 | The chain length of the lane to the right of the drawn lane, never negative, and 0 for lane 3, which has no right neighbour. |
| SpawnRules.Crowded | main.py:186-188 | The crowding rule: both neighbour lengths are at least 250. It can only hold for the middle lane. |
| SpawnRules.HasNearTop | main.py:192 | A lane has a car whose top is above 240 (three car heights). Every lane with a car above the top edge qualifies. |
| SpawnRules.WallAhead | main.py:190-193 | The wall rule: every lane other than the drawn one has a car near the top. `WallNeedsTwoCars` and `SpawnLeavesOpenLane` are its partners. |
| SpawnRules.WallNeedsTwoCars | main.py:190-193 | The wall rule can only fire when at least two cars are on the road, one near the top of each other lane. |
| SpawnRules.Spawn | main.py:158-203 | A spawn attempt leaves the list unchanged or appends exactly the spawned car. A draw other than 1 never spawns. |
| SpawnRules.SpawnBlocked | main.py:169-198 | The early returns fire exactly when both neighbours are crowded, every other lane has a car near the top, or the drawn lane has a car above the top edge. |
| SpawnRules.SpawnAbortsIff | main.py:159-203 | A spawn happens exactly when the draw is 1, neither the crowding nor the wall rule fires, and the drawn lane has no car above the top edge, counted rather than searched for. Afterwards the drawn lane has exactly one car above the top edge. |
| SpawnRules.BoundaryLaneNeverCrowded | main.py:169-187 | For a draw of lane 1 or lane 3 the missing neighbour counts 0, so the crowding rule never aborts. |
| SpawnRules.CrowdedNeedsBusyNeighbours | main.py:169-187 | Crowding aborts only a spawn into the middle lane, and only when both outer lanes hold at least three cars. |
| SpawnRules.AppendAboveTop | main.py:196-202 | Adding a car to a lane with no car above the top edge keeps at most one car above the top edge per lane. |
| SpawnRules.SpawnKeepsOneAboveTop | main.py:196-202 | Because of the headroom rule, a spawn keeps at most one car above the top edge per lane. |
| SpawnRules.SpawnWellPlaced | main.py:201-202 | A spawn keeps every car in a lane and within its height range. |
| SpawnRules.SpawnLeavesOpenLane | main.py:191-193 | Right after a spawn, some other lane still has no car near the top, so a spawn never completes a wall. |
| GameState.Frame | main.py:127-130 | One frame's effect on the cars is the double pass, as one move by 10, followed by the spawn attempt. |
| GameState.FrameKeepsLayoutInvariant | main.py:127-130 | Every frame keeps every car well placed and at most one car above the top edge per lane. |
| GameState.ScrollBackground | main.py:135-142 | A background offset stays in [-750, 750). Each frame it either advances by 5 or wraps to -750. |
| GameState.Game.constructor | main.py:88-101 | A new game satisfies the invariant: no cars, a fresh player in the middle lane at the player height, score 0, difficulty 1, highscore 0, offsets 0 and -750. |
| GameState.Game.HandleEvents | main.py:115-125 | After the event queue, the player's lane is the clamped result of the presses in order, its x matches the lane, and the invariant holds. |
| GameState.Game.UpdateGroup | main.py:128 | One group pass keeps the invariant. The cars become `Advance` of the old ones, and no car joins the group. |
| GameState.Game.MoveObstacles | main.py:128-129 | Both group passes keep the invariant, and the cars become `Advance` applied twice. |
| GameState.Game.AddObstacle | main.py:201-203 | A new car joins the end of the group at the spawn height of its lane. Older cars are unchanged and the invariant holds. |
| GameState.Game.SpawnObstacles | main.py:158-203 | The cars become `Spawn` of the old ones for the given draw and lane. No existing car changes and the invariant holds. |
| GameState.Game.UpdateSprites | main.py:128-130 | The sprite part of a frame turns the cars into `Frame` of the old ones and keeps the invariant. |
| GameState.Game.Tick | main.py:131-142 | The score grows by one exactly on a score tick and the difficulty follows it without falling. Both offsets scroll, the cars are untouched and the invariant holds. |
| GameState.Game.Update | main.py:127-142 | A full frame keeps the invariant. It turns the cars into `Frame` of the old ones, advances the score on a tick without lowering the difficulty, and scrolls the background. |
| GameState.Game.RecordHighscore | main.py:209-210 | After game over the highscore is the larger of the old highscore and the score. |
| GameState.Game.ResetGame | main.py:240-247 | A reset empties the cars and gives a fresh player in the middle lane at the player height, score 0 and difficulty 1. The highscore and the background offsets are kept. |

## Left out

- Collision detection (`spritecollideany`, main.py:110) is a library call on rectangle sizes that come from image files, and the crash that ends a run goes with it.
- The animation toggle in `Player.update` (main.py:63-69) reads the wall clock and only changes the picture. The player's `update()` pass through `all_sprites` is therefore not modelled.
- Drawing, fonts, images, audio, window setup, the frame-rate clock, the `run` loop, the game-over screen loop, quitting and the restart by a recursive `run()` (main.py:27-40, 103-113, 116-119, 144-156, 205-238 apart from 209-210) are presentation and I/O.
- `random.randint` (main.py:159-160) and the clock condition for the score (main.py:131) become the parameters `attempt`, `candidate` and `scoreTick`.
- The "Rule 0" lane-balancing code (main.py:161-166) is inside a string literal and never runs.
- GameState.Game.Update: the two pygame groups are one sequence run through the group pass twice. Only the obstacle members are modelled; the player member of `all_sprites` is left out with its animation.
- Sprites.UpdateAll: `kill()` is modelled as the pass leaving the car out of the list it returns, rather than as removal from every group while iterating.
- SpawnRules.SpawnBlocked: its headroom loop runs over the cars' lane and height values rather than over the car objects. This is the same data, taken at the same moment.
- GameState.Game.Tick computes the new score, difficulty and offsets first and stores them together. The source writes them one after another, and nothing reads them in between.
