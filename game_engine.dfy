/** The engine's input layer: the key-to-direction mapping, the FIFO input buffer that
    each update drains completely before the player moves, and the reset key that
    rebuilds the level and the player. The lock around the buffer, the camera, the
    stopwatch and rendering are not part of this model. */
module Engine {
  import opened Levels
  import opened Players

  /** The keys the engine distinguishes; every other key is `Other`. */
  datatype Key = Up | Down | Left | Right | W | A | S | D | R | Escape | Z | X | C | Other(code: int)

  predicate IsDirectionKey(k: Key) {
    k in {Key.Up, Key.Down, Key.Left, Key.Right, Key.W, Key.A, Key.S, Key.D}
  }

  /** The direction part of ProcessInput's switch: arrows and WASD, nothing else. */
  function KeyDirection(k: Key): (d: Direction)
    ensures d == Direction.Up <==> k == Key.Up || k == Key.W
    ensures d == Direction.Down <==> k == Key.Down || k == Key.S
    ensures d == Direction.Left <==> k == Key.Left || k == Key.A
    ensures d == Direction.Right <==> k == Key.Right || k == Key.D
    ensures d == Direction.None <==> !IsDirectionKey(k)
  {
    match k
    case Up => Direction.Up
    case W => Direction.Up
    case Down => Direction.Down
    case S => Direction.Down
    case Left => Direction.Left
    case A => Direction.Left
    case Right => Direction.Right
    case D => Direction.Right
    case _ => Direction.None
  }

  /** What a reset draws from outside the model: the random numbers of GenerateLevel and
      whether the new player's sprite sheets load. */
  datatype Reload = Reload(draws: LevelDraws, spritesLoaded: bool)

  /** The engine's level and player, as values. */
  datatype World = World(grid: Grid, player: Snapshot)

  /** What the engine keeps: a grid of the window's size, a player satisfying its own
      invariant that stands on the grid and, when moving, heads for an open cell in a
      real direction. */
  predicate Sound(w: int, h: int, world: World) {
    world.grid.WellFormed() && world.grid.width == w && world.grid.height == h &&
    Inv(world.player) && Placed(world.grid, world.player)
  }

  /** One reload per buffered key; the draws of the keys that reset are in range. */
  predicate ReloadsFit(w: int, h: int, keys: seq<Key>, reloads: seq<Reload>) {
    |reloads| == |keys| &&
    forall i | 0 <= i < |keys| :: keys[i] == Key.R ==> DrawsInRange(w, h, reloads[i].draws)
  }

  /** InitializeGame: a freshly generated level and a fresh player at rest on its start cell. */
  function Initialized(w: nat, h: nat, reload: Reload): (r: World)
    requires Generatable(w, h)
    ensures Sound(w, h, r)
    ensures r.grid == Generated(w, h, reload.draws)
    ensures r.player.gridX == w / 2 && r.player.gridY == h / 2
    ensures !r.player.isMoving && r.player.currentState == PlayerState.Idle
    ensures r.player.currentDirection == Direction.None && r.player.lastWallDirection == Direction.None
  {
    World(Generated(w, h, reload.draws), Spawned(w / 2, h / 2, reload.spritesLoaded))
  }

  /** ProcessInput: R rebuilds everything; a direction key then calls StartMoving, and
      StartMoving is never called with None. */
  function Processed(w: nat, h: nat, world: World, key: Key, reload: Reload): (r: World)
    requires Generatable(w, h) && Sound(w, h, world)
    requires key == Key.R ==> DrawsInRange(w, h, reload.draws)
    ensures Sound(w, h, r)
    ensures key == Key.R ==> r == Initialized(w, h, reload)
    ensures !IsDirectionKey(key) && key != Key.R ==> r == world
    ensures IsDirectionKey(key) ==>
      r.grid == world.grid && r.player == StartMoved(world.grid, world.player, KeyDirection(key))
  {
    var next := if key == Key.R then Initialized(w, h, reload) else world;
    var direction := KeyDirection(key);
    if direction != Direction.None then next.(player := StartMoved(next.grid, next.player, direction))
    else next
  }

  /** ProcessInputBuffer: every buffered key, front to back, exactly once. */
  function Drained(w: nat, h: nat, world: World, keys: seq<Key>, reloads: seq<Reload>): (r: World)
    requires Generatable(w, h) && Sound(w, h, world) && ReloadsFit(w, h, keys, reloads)
    ensures Sound(w, h, r)
    decreases |keys|
  {
    if keys == [] then world
    else Drained(w, h, Processed(w, h, world, keys[0], reloads[0]), keys[1..], reloads[1..])
  }

  /** The buffer is first in, first out: draining two batches one after the other is
      draining their concatenation, so a key enqueued later is handled after every
      key enqueued before it. */
  lemma {:induction false} DrainedConcat(w: nat, h: nat, world: World,
                                         keys1: seq<Key>, reloads1: seq<Reload>,
                                         keys2: seq<Key>, reloads2: seq<Reload>)
    requires Generatable(w, h) && Sound(w, h, world)
    requires ReloadsFit(w, h, keys1, reloads1) && ReloadsFit(w, h, keys2, reloads2)
    ensures ReloadsFit(w, h, keys1 + keys2, reloads1 + reloads2)
    ensures Drained(w, h, world, keys1 + keys2, reloads1 + reloads2) ==
            Drained(w, h, Drained(w, h, world, keys1, reloads1), keys2, reloads2)
    decreases |keys1|
  {
    var keys, reloads := keys1 + keys2, reloads1 + reloads2;
    assert ReloadsFit(w, h, keys, reloads) by {
      forall i | 0 <= i < |keys| && keys[i] == Key.R
        ensures DrawsInRange(w, h, reloads[i].draws)
      {
        if i < |keys1| {
          assert keys[i] == keys1[i] && reloads[i] == reloads1[i];
        } else {
          assert keys[i] == keys2[i - |keys1|] && reloads[i] == reloads2[i - |keys1|];
        }
      }
    }
    if keys1 == [] {
      assert keys == keys2 && reloads == reloads2;
    } else {
      var next := Processed(w, h, world, keys1[0], reloads1[0]);
      assert keys[1..] == keys1[1..] + keys2 && reloads[1..] == reloads1[1..] + reloads2;
      assert ReloadsFit(w, h, keys1[1..], reloads1[1..]) by {
        forall i | 0 <= i < |keys1[1..]| && keys1[1..][i] == Key.R
          ensures DrawsInRange(w, h, reloads1[1..][i].draws)
        {
          assert keys1[1..][i] == keys1[i + 1];
        }
      }
      DrainedConcat(w, h, next, keys1[1..], reloads1[1..], keys2, reloads2);
    }
  }

  /** Only one direction per slide: while the player is moving, every buffered key
      other than R is dropped, and the world does not change. */
  lemma {:induction false} KeysDroppedWhileMoving(w: nat, h: nat, world: World, keys: seq<Key>, reloads: seq<Reload>)
    requires Generatable(w, h) && Sound(w, h, world) && ReloadsFit(w, h, keys, reloads)
    requires world.player.isMoving && Key.R !in keys
    ensures Drained(w, h, world, keys, reloads) == world
    decreases |keys|
  {
    if keys != [] {
      assert keys[0] in keys;
      var next := Processed(w, h, world, keys[0], reloads[0]);
      assert next == world;
      assert Key.R !in keys[1..] by {
        forall k | k in keys[1..] ensures k != Key.R {
          var j :| 0 <= j < |keys[1..]| && keys[1..][j] == k;
          assert keys[j + 1] == k;
        }
      }
      KeysDroppedWhileMoving(w, h, world, keys[1..], reloads[1..]);
    }
  }

  /** A single direction key pressed at rest towards an open cell slides the player to
      the last open cell in that direction, where it comes to rest against the wall after
      exactly as many arrivals as there are open cells ahead, with no further input. */
  lemma PressSlidesToWall(w: nat, h: nat, world: World, key: Key, reload: Reload, steps: seq<(real, bool)>)
    requires Generatable(w, h) && Sound(w, h, world) && IsDirectionKey(key)
    requires !world.player.isMoving
    requires CanMove(world.grid, world.player.gridX, world.player.gridY, KeyDirection(key))
    requires ArrivalCount(steps) >= SlideLength(world.grid, world.player.gridX, world.player.gridY, KeyDirection(key))
    ensures var p := Ticks(world.grid, Processed(w, h, world, key, reload).player, steps);
      !p.isMoving && p.currentState == PlayerState.AgainstWall &&
      p.lastWallDirection == KeyDirection(key) &&
      (p.gridX, p.gridY) == Advance(world.player.gridX, world.player.gridY, KeyDirection(key),
                                    SlideLength(world.grid, world.player.gridX, world.player.gridY, KeyDirection(key))) &&
      !CanMove(world.grid, p.gridX, p.gridY, KeyDirection(key))
  {
    var moved := Processed(w, h, world, key, reload).player;
    assert moved == StartMoved(world.grid, world.player, KeyDirection(key));
    PressSlides(world.grid, world.player, KeyDirection(key), steps);
  }

  /** A reset discards a slide in progress: whatever the player was doing, R leaves it
      at rest in state Idle on the new level's start cell. */
  lemma ResetDiscardsSlide(w: nat, h: nat, world: World, reload: Reload)
    requires Generatable(w, h) && Sound(w, h, world) && DrawsInRange(w, h, reload.draws)
    ensures var r := Processed(w, h, world, Key.R, reload);
      !r.player.isMoving && r.player.currentState == PlayerState.Idle &&
      (r.player.gridX, r.player.gridY) == (w / 2, h / 2) &&
      r.grid == Generated(w, h, reload.draws)
  {
  }

  class GameEngine {
    const windowWidth: int
    const windowHeight: int
    var level: Level
    var player: Player
    var inputBuffer: seq<Key>

    function GridWidth(): int
      reads this
    {
      windowWidth / GRID_SIZE
    }

    function GridHeight(): int
      reads this
    {
      windowHeight / GRID_SIZE
    }

    ghost function WorldOf(): World
      reads this, level, player
    {
      World(level.Cells, player.View())
    }

    ghost predicate Valid()
      reads this, level, level.levelData, player
    {
      Generatable(GridWidth(), GridHeight()) &&
      level.Valid() && player.Valid() &&
      level.gridWidth == GridWidth() && level.gridHeight == GridHeight() &&
      Sound(GridWidth(), GridHeight(), WorldOf())
    }

    /** GameEngine(width, height): an empty buffer and a freshly initialised game. */
    constructor (width: int, height: int, reload: Reload)
      requires Generatable(width / GRID_SIZE, height / GRID_SIZE)
      requires DrawsInRange(width / GRID_SIZE, height / GRID_SIZE, reload.draws)
      ensures Valid() && windowWidth == width && windowHeight == height && inputBuffer == []
      ensures WorldOf() == Initialized(width / GRID_SIZE, height / GRID_SIZE, reload)
    {
      windowWidth := width;
      windowHeight := height;
      inputBuffer := [];
      var newLevel, newPlayer := InitializeGame(width, height, reload);
      level := newLevel;
      player := newPlayer;
    }

    /** InitializeGame: a new level for the window and a new player on its start cell. */
    static method InitializeGame(width: int, height: int, reload: Reload) returns (level: Level, player: Player)
      requires Generatable(width / GRID_SIZE, height / GRID_SIZE)
      requires DrawsInRange(width / GRID_SIZE, height / GRID_SIZE, reload.draws)
      ensures fresh(level) && fresh(level.levelData) && fresh(player)
      ensures level.Valid() && player.Valid()
      ensures level.gridWidth == width / GRID_SIZE && level.gridHeight == height / GRID_SIZE
      ensures World(level.Cells, player.View()) == Initialized(width / GRID_SIZE, height / GRID_SIZE, reload)
    {
      level := new Level(width, height, reload.draws);
      var startPos := level.GetStartPosition();
      player := new Player(startPos.0, startPos.1, reload.spritesLoaded);
    }

    /** Update: the whole input buffer is handled before the player is updated, so keys
        buffered before a tick take effect in that tick. */
    method Update(deltaTime: real, arrived: bool, reloads: seq<Reload>)
      requires Valid() && ReloadsFit(GridWidth(), GridHeight(), inputBuffer, reloads)
      modifies this, player
      ensures Valid() && inputBuffer == []
      ensures var drained := Drained(GridWidth(), GridHeight(), old(WorldOf()), old(inputBuffer), reloads);
        level.Cells == drained.grid &&
        player.View() == Updated(drained.grid, drained.player, deltaTime, arrived)
    {
      ProcessInputBuffer(reloads);
      player.Update(level, deltaTime, arrived);
    }

    /** ProcessInputBuffer: dequeues and handles keys until the buffer is empty. */
    method ProcessInputBuffer(reloads: seq<Reload>)
      requires Valid() && ReloadsFit(GridWidth(), GridHeight(), inputBuffer, reloads)
      modifies this, player
      ensures Valid() && inputBuffer == []
      ensures WorldOf() == Drained(GridWidth(), GridHeight(), old(WorldOf()), old(inputBuffer), reloads)
      ensures player == old(player) || fresh(player)
    {
      var i := 0;
      while |inputBuffer| > 0
        invariant Valid()
        invariant 0 <= i <= |reloads| && inputBuffer == old(inputBuffer)[i..]
        invariant ReloadsFit(GridWidth(), GridHeight(), inputBuffer, reloads[i..])
        invariant Drained(GridWidth(), GridHeight(), WorldOf(), inputBuffer, reloads[i..]) ==
                  Drained(GridWidth(), GridHeight(), old(WorldOf()), old(inputBuffer), reloads)
        invariant player == old(player) || fresh(player)
        decreases |inputBuffer|
      {
        var key := inputBuffer[0];
        inputBuffer := inputBuffer[1..];
        ProcessInput(key, reloads[i]);
        i := i + 1;
        assert reloads[i..] == reloads[i - 1..][1..];
      }
    }

    /** HandleInput: the key joins the back of the buffer; nothing else changes. */
    method HandleInput(key: Key)
      modifies this`inputBuffer
      ensures inputBuffer == old(inputBuffer) + [key]
      ensures level == old(level) && player == old(player)
    {
      inputBuffer := inputBuffer + [key];
    }

    /** ProcessInput: one key. R rebuilds the level and the player; a direction key moves
        the player. Escape and the zoom keys act outside the model. */
    method ProcessInput(key: Key, reload: Reload)
      requires Valid()
      requires key == Key.R ==> DrawsInRange(GridWidth(), GridHeight(), reload.draws)
      modifies this, player
      ensures Valid() && inputBuffer == old(inputBuffer)
      ensures WorldOf() == Processed(GridWidth(), GridHeight(), old(WorldOf()), key, reload)
      ensures key != Key.R ==> level == old(level) && player == old(player)
      ensures key == Key.R ==> fresh(level) && fresh(player)
    {
      var direction := KeyDirection(key);
      if key == Key.R {
        level, player := InitializeGame(windowWidth, windowHeight, reload);
      }
      if direction != Direction.None {
        player.StartMoving(direction, level);
      }
    }
  }
}
