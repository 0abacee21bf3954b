# Clawbyrinth grid movement, in Dafny

Clawbyrinth is a small maze game. The player presses a direction and the cat-shaped
sprite slides cell by cell until it hits a wall, where it turns its feet to the wall.
This project models the core of the WinForms build, in three modules:

- `Levels` (`level.dfy`) models `src/src/Level.cs`. It covers the collision grid
  (`int[,] levelData`) sized in 24-pixel cells, and its generation by a border pass, three
  horizontal segments, three vertical segments and twenty scattered walls that spare the
  5x5 square around the start cell. It also covers the start cell and the traversability
  query, which answers "blocked" outside the grid.
  - The class `Level` keeps the two-dimensional array and fills it with nested loops.
  - A ghost `Grid` value mirrors the array. `Generated` says what the array holds after
    generation.
- `Players` (`player.dfy`) models `src/src/Player.cs`, the player's state machine:
  - starting a move, arrival, the slide to the wall and the against-wall state;
  - the sprite clips (Idle, LongJump, Flight, Arrive), with their frame-count and
    frame-rate tables;
  - the rotation tables;
  - the direction helpers.
  The class `Player` has the source's fields and methods. Each method is proved equal to
  a function on a `Snapshot` value of those fields (`StartMoved`, `Arrived`, `Animated`,
  `Rotated`, `Updated`). The lemmas about slides and clip runs are stated on those
  functions.
- `Engine` (`game_engine.dfy`) models `src/src/GameEngine.cs`:
  - the key-to-direction mapping;
  - the reset key;
  - the FIFO input buffer that `Update` drains completely before updating the player.

The inputs the source takes from its surroundings are parameters of the model:

- each `Random.Next` draw of level generation, collected in `LevelDraws`;
- whether the sprite sheets loaded;
- each tick's `deltaTime`;
- whether the player reaches its target during a tick.

Two behaviours of the code are worth knowing:

- The start-area guard protects the start cell only from scattered walls. A horizontal or
  vertical segment can still cross it (`StartCellCanBeWalled`).
- `StartMoving(None)` on an open cell would leave the player moving in place forever
  (`NoneNeverStops`). Only the engine's check that a key mapped to a direction keeps this
  from happening.

The player invariant `Inv` does not include "a moving player has a real direction",
because the player alone does not keep it (`NoneNeverStops`). The engine-level predicate
`Placed` does include it, and every engine operation keeps it.

## Model

| member | source | states |
|---|---|---|
| Levels.Generated | src/src/Level.cs:28-89 | the generated grid has the requested width and height and every column the full height |
| Levels.QueryOutsideIsBlocked | src/src/Level.cs:97-105 | a position outside the grid is never traversable; inside, it is traversable exactly when the cell is EMPTY |
| Levels.RowsInside | src/src/Level.cs:52-62 | with draws inside their `Random.Next` ranges, every cell of a horizontal wall lies in columns 1..w-2 and rows 2..h-2 |
| Levels.ColumnsInside | src/src/Level.cs:65-75 | with draws inside their ranges, every cell of a vertical wall lies in columns 2..w-2 and rows 1..h-2 |
| Levels.ScatterInside | src/src/Level.cs:78-88 | with draws inside their ranges, every scattered wall lies in columns 2..w-2 and rows 2..h-2 |
| Levels.RandomWallsStayInside | src/src/Level.cs:48-88 | every wall written after the border pass lies strictly inside the border, so the random passes never touch the border ring |
| Levels.GeneratedBorderIsClosed | src/src/Level.cs:33-46 | after generation every border cell is blocked and every open cell lies strictly inside the border |
| Levels.ScatterSparesStartArea | src/src/Level.cs:83-87 | no scattered wall lands within distance 2 of the start cell in both coordinates |
| Levels.StartCellOpenUnlessCrossed | src/src/Level.cs:51-94 | the start cell is open after generation if and only if no horizontal or vertical segment crosses it |
| Levels.StartCellCanBeWalled | src/src/Level.cs:52-62 | there are in-range draws (a 40 x 30 grid) for which the start cell is a wall |
| Levels.Level.constructor | src/src/Level.cs:18-26 | the grid is windowWidth / 24 by windowHeight / 24 cells and holds the generated grid |
| Levels.Level.GenerateLevel | src/src/Level.cs:28-89 | a fresh array that holds exactly `Generated` for the draws |
| Levels.Level.FillBorder | src/src/Level.cs:32-46 | after the border pass a cell is WALL exactly on the outer ring and EMPTY elsewhere |
| Levels.Level.AddHorizontalWalls | src/src/Level.cs:51-62 | the cells on some segment's row span become WALL; every other cell keeps its value |
| Levels.Level.AddVerticalWalls | src/src/Level.cs:64-75 | the cells on some segment's column span become WALL; every other cell keeps its value |
| Levels.Level.AddScatteredWalls | src/src/Level.cs:77-88 | each drawn cell outside the start area becomes WALL; every other cell keeps its value |
| Levels.Level.GetStartPosition | src/src/Level.cs:91-95 | the start cell is the centre (twice it is the dimension or one less) and lies inside a non-empty grid |
| Levels.Level.IsValidPosition | src/src/Level.cs:97-105 | the array query agrees with the grid value and is false for every out-of-bounds position |
| Players.Neighbour | src/src/Player.cs:374-397 | None stays put; a real direction moves to a cell at distance 1, by the direction's unit vector |
| Players.GetOppositeDirection | src/src/Player.cs:351-361 | the opposite is the negated unit vector, and None exactly for None |
| Players.OppositeIsInvolution | src/src/Player.cs:351-361 | taking the opposite twice gives the direction back |
| Players.IsMovingAwayFromWall | src/src/Player.cs:326-330 | true exactly when a wall was touched and the direction is the reverse of it, so never when no wall was touched |
| Players.IsMovingAlongsideWall | src/src/Player.cs:332-349 | true exactly when a wall was touched and the direction is perpendicular to it; then the player is not moving away from the wall |
| Players.MovementRotation | src/src/Player.cs:423-440 | a real direction gives a quarter-turn angle in [0, 360); None keeps the current rotation |
| Players.AgainstWallRotation | src/src/Player.cs:442-459 | the against-wall angle is the movement angle plus 180 modulo 360, i.e. the movement angle of the opposite direction |
| Players.Spawned | src/src/Player.cs:71-126 | a new player rests in state Idle on its cell with no direction and no wall, Idle clip at frame 0; the frame tables are filled exactly when the sprites loaded; the invariant holds |
| Players.Played | src/src/Player.cs:220-229 | only the clip state changes; a new clip restarts at frame 0 with a zero timer, and the running clip changes nothing |
| Players.StartMoved | src/src/Player.cs:283-309 | ignored while moving; a blocked neighbour turns the player to the wall in place (AgainstWall, both directions d, Idle clip); an open one starts a move to the neighbour (Moving, LongJump); a clip change restarts frame and timer at 0, and an unchanged clip keeps them; the invariant and the placement are kept |
| Players.Arrived | src/src/Player.cs:241-262 | the player enters the target cell; it retargets one cell further in the same direction if that cell is open, and otherwise stops AgainstWall with the wall direction set and the Idle clip, restarting frame and timer at 0 when the clip changes |
| Players.AdvancedFrame | src/src/Player.cs:155-216 | Idle loops modulo its count; the other clips advance to their last frame; then LongJump hands over to Flight while moving and to Idle otherwise, Flight holds while moving and falls back to Idle otherwise, and Arrive ends in Idle; a clip without a count never changes |
| Players.Animated | src/src/Player.cs:144-218 | the timer accumulates until a frame is due, then restarts and one frame advances; nothing outside the clip state changes and the frame stays within its clip |
| Players.Rotated | src/src/Player.cs:274-281 | the rotation becomes the target rotation brought into [0, 360), equal to it modulo 360 |
| Players.Updated | src/src/Player.cs:128-142 | animation, then movement, then rotation: the movement state changes only on an arrival of a moving player, and then as `Arrived` says; the invariant and the placement are kept |
| Players.SlideStopsBeforeWall | src/src/Player.cs:249-262 | the slide length counts exactly the open cells ahead: each is open and the next one is blocked |
| Players.Ticks | src/src/Player.cs:128-142 | any run of updates keeps the player invariant and the placement on the grid |
| Players.RestIsStable | src/src/Player.cs:135-138 | a player at rest keeps its cell, target, direction, wall direction and state through any run of updates |
| Players.RestKeepsIdle | src/src/Player.cs:160-164 | a player at rest with the Idle clip keeps the Idle clip through any run of updates |
| Players.SlideEndsAgainstWall | src/src/Player.cs:231-262 | in any run of updates, with ticks that arrive and ticks that do not, a player moving towards an open cell is still moving exactly while fewer arrivals than open cells ahead have happened; once enough have, it rests AgainstWall on the last open cell, facing that wall, with the Idle clip |
| Players.SlideWaits | src/src/Player.cs:264-271 | a first tick without arrival leaves the slide's outcome as it was |
| Players.SlideContinues | src/src/Player.cs:249-253 | a first tick arriving with the next cell open continues the slide with one open cell fewer ahead |
| Players.SlideStops | src/src/Player.cs:254-262 | a first tick arriving with the next cell blocked ends the slide on that cell, and no later tick moves the player |
| Players.PressSlides | src/src/Player.cs:283-309 | StartMoving at rest towards an open cell, followed by any run with at least as many arrivals as open cells ahead, ends on the last open cell ahead, AgainstWall, with the next cell blocked |
| Players.ArrivingTick | src/src/Player.cs:241-262 | one arriving update puts the player on its target and either retargets the next cell or stops it against the wall |
| Players.NoneNeverStops | src/src/Player.cs:283-309 | StartMoving(None) at rest on an open cell leaves the player moving on its own cell through any run of updates |
| Players.FrameTicks | src/src/Player.cs:144-218 | repeated animation updates change only the clip state and keep the invariant |
| Players.LongJumpHandsOver | src/src/Player.cs:165-183 | a LongJump from frame 0 with five frame periods of 1/48 s ends on Flight at frame 0 while moving, and on Idle otherwise |
| Players.Player.constructor | src/src/Player.cs:71-93 | the new player is `Spawned` for its start cell and the sprite-load outcome |
| Players.Player.Update | src/src/Player.cs:128-142 | the new state is `Updated` of the old one; the invariant is kept |
| Players.Player.UpdateSpriteAnimation | src/src/Player.cs:144-218 | the new state is `Animated` of the old one; the invariant is kept |
| Players.Player.PlayAnimation | src/src/Player.cs:220-229 | the new state is `Played` of the old one |
| Players.Player.UpdateMovement | src/src/Player.cs:231-272 | on arrival the new state is `Arrived` of the old one, and otherwise nothing changes; the invariant is kept |
| Players.Player.UpdateRotation | src/src/Player.cs:274-281 | the two normalising loops leave `Rotated` of the old state |
| Players.Player.StartMoving | src/src/Player.cs:283-309 | the new state is `StartMoved` of the old one; the invariant is kept |
| Players.Player.PlayMovementAnimation | src/src/Player.cs:311-324 | both branches play LongJump |
| Players.Player.ContinueMoving | src/src/Player.cs:363-366 | only the target changes, to the neighbour in the current direction |
| Players.Player.StopMoving | src/src/Player.cs:368-372 | only isMoving (to false) and the state (to AgainstWall) change |
| Players.Player.SetTargetPosition | src/src/Player.cs:374-397 | only the target changes, to the neighbour in the given direction |
| Players.Player.CanMoveInDirection | src/src/Player.cs:399-421 | true exactly when the neighbouring cell in that direction is open |
| Players.Player.SetMovementRotation | src/src/Player.cs:423-440 | only the target rotation changes, to the movement angle |
| Players.Player.SetAgainstWallRotation | src/src/Player.cs:442-459 | only the target rotation changes, to the against-wall angle |
| Engine.KeyDirection | src/src/GameEngine.cs:86-105 | Up/W map to Up, Down/S to Down, Left/A to Left and Right/D to Right, each if and only if; every other key maps to None |
| Engine.Initialized | src/src/GameEngine.cs:32-44 | a freshly generated grid and a player at rest in state Idle on its centre cell, with no direction |
| Engine.Processed | src/src/GameEngine.cs:84-131 | R rebuilds the game; a direction key then calls StartMoving with its direction (never None); other keys change nothing; the world stays sound |
| Engine.Drained | src/src/GameEngine.cs:63-73 | draining the buffer keeps the world sound |
| Engine.DrainedConcat | src/src/GameEngine.cs:63-82 | draining two batches in turn equals draining their concatenation, so keys are handled in enqueue order, each once |
| Engine.KeysDroppedWhileMoving | src/src/GameEngine.cs:63-73 | while the player is moving, a buffer without R leaves the world unchanged |
| Engine.PressSlidesToWall | src/src/GameEngine.cs:127-130 | a direction key at rest towards an open cell, then any run with at least as many arrivals as open cells ahead, ends on the last open cell ahead, AgainstWall with that wall direction |
| Engine.ResetDiscardsSlide | src/src/GameEngine.cs:106-109 | R leaves the player at rest in state Idle on the new grid's start cell, whatever it was doing |
| Engine.GameEngine.constructor | src/src/GameEngine.cs:23-30 | an empty buffer and the initialised world |
| Engine.GameEngine.InitializeGame | src/src/GameEngine.cs:32-44 | a fresh level and player whose values are `Initialized` |
| Engine.GameEngine.Update | src/src/GameEngine.cs:46-61 | the buffer is drained first and the player is then updated on the drained world; the buffer ends empty |
| Engine.GameEngine.ProcessInputBuffer | src/src/GameEngine.cs:63-73 | the loop leaves the buffer empty and the world equal to `Drained` of the old world and buffer |
| Engine.GameEngine.HandleInput | src/src/GameEngine.cs:75-82 | the key is appended at the back of the buffer; the level and player are untouched |
| Engine.GameEngine.ProcessInput | src/src/GameEngine.cs:84-131 | the world becomes `Processed` of the old one; the buffer is untouched; only R replaces the level and player |

## Left out

- Floating-point movement is not modelled: the `Math.Sqrt` distance, `MOVE_SPEED * deltaTime` stepping and the interpolated pixel position. A tick takes a boolean "arrived" instead, and ticks that do not arrive leave the movement state alone.
- Targets are kept as cells rather than pixels. Every pixel target the source stores is a cell number times 24, so its `(int)(target / 24)` gives back that cell exactly.
- Players.FrameDue: compares the frame timer with `1 / rate` in exact real arithmetic; single-precision rounding of the timer is not modelled.
- `animationTimer` and `animationFinished` in the player are written but never read, so they are not fields of the model. `scale` and `lastUpdateTime` are read only by `Render`, which is left out with the rest of rendering.
- The camera (`src/src/Camera.cs`) and the zoom keys are not part of this model; Z, X and C change nothing here. Escape's `Application.Exit` is a call into the host and also changes nothing here.
- Rendering (`Render`, `DrawSprite`, `RenderUI`), `Dispose`, image loading and debug logging are I/O. Loading becomes the `spritesLoaded` input, which decides whether the frame tables are filled.
- The stopwatch in `GameEngine.Update` is replaced by a `deltaTime` parameter.
- The `lock` around the input buffer is concurrency; the buffer is a plain sequence.
- `System.Random` is replaced by `LevelDraws` inputs: each draw lies in its `Random.Next` range, and each buffered key carries the draws its reset would use.
- Levels.Level.constructor: requires both grid dimensions to be at least 4. Below that one of the `Random.Next` calls receives a lower bound above its upper bound (`random.Next(2, gridWidth - 2)` when gridWidth < 4) and throws, which the model does not represent.
- That `levelData` is written only during generation is not a lemma. It shows in the frames instead: only `GenerateLevel` and its passes have `modifies` clauses, and the queries only read the array.
- The two `GameForm.cs` files, the Godot `Player.cs` and `SRC/src/GameEngine.cs` are not part of this model.
