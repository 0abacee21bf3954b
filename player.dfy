/** The grid-movement and sprite-animation state machine of the WinForms player.

    Positions are grid cells: the source keeps pixel floats that are always
    `cell * GRID_SIZE` at rest and converts back at arrival, so the target is kept
    here as the target cell. Reaching the target ("arrived") and the frame timer are
    inputs of the update: the floating-point interpolation is not modelled. */
module Players {
  import opened Levels

  datatype Direction = None | Up | Down | Left | Right

  datatype AnimationType = Idle | LongJump | Flight | Arrive

  datatype PlayerState = Idle | Moving | AgainstWall

  /* ---------------------------------------------------------------------------
     Directions.
     ------------------------------------------------------------------------- */

  function DeltaX(d: Direction): int {
    match d
    case Left => -1
    case Right => 1
    case _ => 0
  }

  function DeltaY(d: Direction): int {
    match d
    case Up => -1
    case Down => 1
    case _ => 0
  }

  /** The cell one step from (x, y) towards d (y grows downwards); None stays put. */
  function Neighbour(x: int, y: int, d: Direction): (c: (int, int))
    ensures d == Direction.None ==> c == (x, y)
    ensures d != Direction.None ==> Abs(c.0 - x) + Abs(c.1 - y) == 1
    ensures c == (x + DeltaX(d), y + DeltaY(d))
  {
    match d
    case Up => (x, y - 1)
    case Down => (x, y + 1)
    case Left => (x - 1, y)
    case Right => (x + 1, y)
    case None => (x, y)
  }

  /** GetOppositeDirection: the reversed unit vector; None has no opposite. */
  function GetOppositeDirection(d: Direction): (r: Direction)
    ensures (r == Direction.None) == (d == Direction.None)
    ensures DeltaX(r) == -DeltaX(d) && DeltaY(r) == -DeltaY(d)
  {
    match d
    case Up => Direction.Down
    case Down => Direction.Up
    case Left => Direction.Right
    case Right => Direction.Left
    case None => Direction.None
  }

  lemma OppositeIsInvolution(d: Direction)
    ensures GetOppositeDirection(GetOppositeDirection(d)) == d
  {
  }

  /** IsMovingAwayFromWall: d points straight back from the last wall touched. */
  function IsMovingAwayFromWall(lastWall: Direction, d: Direction): (r: bool)
    ensures lastWall == Direction.None ==> !r
    ensures r <==> lastWall != Direction.None && d != Direction.None &&
                   DeltaX(d) == -DeltaX(lastWall) && DeltaY(d) == -DeltaY(lastWall)
  {
    lastWall != Direction.None && d == GetOppositeDirection(lastWall)
  }

  /** IsMovingAlongsideWall: d is perpendicular to the last wall touched, and then
      the player is never also moving away from it. */
  function IsMovingAlongsideWall(lastWall: Direction, d: Direction): (r: bool)
    ensures lastWall == Direction.None ==> !r
    ensures r <==> lastWall != Direction.None && d != Direction.None &&
                   DeltaX(lastWall) * DeltaX(d) + DeltaY(lastWall) * DeltaY(d) == 0
    ensures r ==> !IsMovingAwayFromWall(lastWall, d)
  {
    if lastWall == Direction.None then false
    else if lastWall == Direction.Left || lastWall == Direction.Right then d == Direction.Up || d == Direction.Down
    else if lastWall == Direction.Up || lastWall == Direction.Down then d == Direction.Left || d == Direction.Right
    else false
  }

  /* ---------------------------------------------------------------------------
     Rotation tables.
     ------------------------------------------------------------------------- */

  /** SetMovementRotation: the sprite faces the direction of travel; None keeps `current`. */
  function MovementRotation(d: Direction, current: int): (r: int)
    ensures d == Direction.None ==> r == current
    ensures d != Direction.None ==> 0 <= r < 360 && r % 90 == 0
  {
    match d
    case Up => 0
    case Right => 90
    case Down => 180
    case Left => 270
    case None => current
  }

  /** SetAgainstWallRotation: feet against the wall, i.e. a half turn from the movement
      rotation, which is the movement rotation of the opposite direction. */
  function AgainstWallRotation(d: Direction, current: int): (r: int)
    ensures d == Direction.None ==> r == current
    ensures d != Direction.None ==> r == (MovementRotation(d, current) + 180) % 360
    ensures r == MovementRotation(GetOppositeDirection(d), current)
  {
    match d
    case Up => 180
    case Right => 270
    case Down => 0
    case Left => 90
    case None => current
  }

  /* ---------------------------------------------------------------------------
     Sprite tables.
     ------------------------------------------------------------------------- */

  const FrameCounts: map<AnimationType, int> :=
    map[AnimationType.Idle := 6, AnimationType.LongJump := 5, AnimationType.Flight := 3, AnimationType.Arrive := 2]

  const FrameRates: map<AnimationType, real> :=
    map[AnimationType.Idle := 12.0, AnimationType.LongJump := 48.0, AnimationType.Flight := 48.0, AnimationType.Arrive := 48.0]

  /** The frame rate used when a clip has no entry. */
  const DefaultFrameRate: real := 10.0

  /** `frameTimer >= 1.0f / rate` in single precision, without rounding: a rate of
      zero gives an infinite threshold, which a finite timer never reaches. */
  predicate FrameDue(timer: real, rate: real) {
    rate != 0.0 && timer >= 1.0 / rate
  }

  /* ---------------------------------------------------------------------------
     The player's state as a value.
     ------------------------------------------------------------------------- */

  datatype Snapshot = Snapshot(
    gridX: int, gridY: int,
    targetX: int, targetY: int,
    isMoving: bool,
    currentDirection: Direction,
    lastWallDirection: Direction,
    currentState: PlayerState,
    currentAnimation: AnimationType,
    currentFrame: int,
    frameTimer: real,
    framecounts: map<AnimationType, int>,
    frameRates: map<AnimationType, real>,
    targetRotation: int,
    rotation: int)

  /** The movement part of a snapshot. */
  datatype Motion = Motion(
    gridX: int, gridY: int, targetX: int, targetY: int,
    isMoving: bool, currentState: PlayerState,
    currentDirection: Direction, lastWallDirection: Direction)

  function MotionOf(s: Snapshot): Motion {
    Motion(s.gridX, s.gridY, s.targetX, s.targetY, s.isMoving, s.currentState,
           s.currentDirection, s.lastWallDirection)
  }

  /** Only the clip, the frame and the frame timer differ between s and r. */
  predicate OnlyClipChanged(s: Snapshot, r: Snapshot) {
    r == s.(currentAnimation := r.currentAnimation, currentFrame := r.currentFrame, frameTimer := r.frameTimer)
  }

  predicate FrameInRange(s: Snapshot) {
    if s.currentAnimation in s.framecounts then 0 <= s.currentFrame < s.framecounts[s.currentAnimation]
    else s.currentFrame == 0
  }

  /** The player's invariant: isMoving holds exactly in state Moving, a moving player
      targets the neighbouring cell in its direction and a resting one its own cell,
      the frame index is within its clip and the rotation within [0, 360). */
  predicate Inv(s: Snapshot) {
    (s.isMoving <==> s.currentState == PlayerState.Moving) &&
    (s.isMoving ==> (s.targetX, s.targetY) == Neighbour(s.gridX, s.gridY, s.currentDirection)) &&
    (!s.isMoving ==> s.targetX == s.gridX && s.targetY == s.gridY) &&
    (forall a | a in s.framecounts :: s.framecounts[a] > 0) &&
    FrameInRange(s) &&
    0 <= s.rotation < 360
  }

  predicate OpenCell(g: Grid, c: (int, int))
    requires g.WellFormed()
  {
    g.IsValidPosition(c.0, c.1)
  }

  /** CanMoveInDirection, on the grid value. */
  predicate CanMove(g: Grid, x: int, y: int, d: Direction)
    requires g.WellFormed()
  {
    OpenCell(g, Neighbour(x, y, d))
  }

  /** The player lies on the grid and a moving player heads, in a real direction, for an
      open cell. This is what the engine keeps. */
  predicate Placed(g: Grid, s: Snapshot)
    requires g.WellFormed()
  {
    0 <= s.gridX < g.width && 0 <= s.gridY < g.height &&
    (s.isMoving ==> s.currentDirection != Direction.None && OpenCell(g, (s.targetX, s.targetY)))
  }

  /* ---------------------------------------------------------------------------
     The operations as functions on snapshots.
     ------------------------------------------------------------------------- */

  /** The Player constructor: at rest on (x, y), no direction, no wall, Idle clip at
      frame 0. The frame tables are filled only when the sprite sheets loaded. */
  function Spawned(x: int, y: int, spritesLoaded: bool): (s: Snapshot)
    ensures Inv(s)
    ensures s.gridX == x && s.gridY == y && s.targetX == x && s.targetY == y
    ensures !s.isMoving && s.currentState == PlayerState.Idle
    ensures s.currentDirection == Direction.None && s.lastWallDirection == Direction.None
    ensures s.currentAnimation == AnimationType.Idle && s.currentFrame == 0 && s.frameTimer == 0.0
    ensures spritesLoaded ==> s.framecounts == FrameCounts && s.frameRates == FrameRates
    ensures !spritesLoaded ==> s.framecounts == map[] && s.frameRates == map[]
  {
    Snapshot(x, y, x, y, false, Direction.None, Direction.None, PlayerState.Idle,
             AnimationType.Idle, 0, 0.0,
             if spritesLoaded then FrameCounts else map[],
             if spritesLoaded then FrameRates else map[],
             0, 0)
  }

  /** PlayAnimation: switching to another clip restarts it at frame 0 with a zero timer;
      asking for the running clip changes nothing. */
  function Played(s: Snapshot, a: AnimationType): (r: Snapshot)
    ensures r.currentAnimation == a && OnlyClipChanged(s, r)
    ensures s.currentAnimation != a ==> r.currentFrame == 0 && r.frameTimer == 0.0
    ensures s.currentAnimation == a ==> r == s
    ensures Inv(s) ==> Inv(r)
  {
    if s.currentAnimation != a then s.(currentAnimation := a, currentFrame := 0, frameTimer := 0.0) else s
  }

  /** r runs clip a as PlayAnimation(a) leaves it: a different clip restarts at frame 0
      with a zero timer, the running clip keeps its frame and timer. */
  predicate ClipSwitched(s: Snapshot, r: Snapshot, a: AnimationType) {
    r.currentAnimation == a &&
    if s.currentAnimation != a then r.currentFrame == 0 && r.frameTimer == 0.0
    else r.currentFrame == s.currentFrame && r.frameTimer == s.frameTimer
  }

  /** StartMoving: ignored while moving; against a blocked cell the player only turns to
      the wall; towards an open cell it starts moving one cell in that direction. */
  function StartMoved(g: Grid, s: Snapshot, d: Direction): (r: Snapshot)
    requires g.WellFormed()
    ensures s.isMoving ==> r == s
    ensures !s.isMoving && !CanMove(g, s.gridX, s.gridY, d) ==>
      r.gridX == s.gridX && r.gridY == s.gridY && r.targetX == s.targetX && r.targetY == s.targetY &&
      !r.isMoving && r.currentState == PlayerState.AgainstWall &&
      r.currentDirection == d && r.lastWallDirection == d &&
      ClipSwitched(s, r, AnimationType.Idle) &&
      r.targetRotation == AgainstWallRotation(d, s.targetRotation)
    ensures !s.isMoving && CanMove(g, s.gridX, s.gridY, d) ==>
      r.gridX == s.gridX && r.gridY == s.gridY &&
      (r.targetX, r.targetY) == Neighbour(s.gridX, s.gridY, d) &&
      r.isMoving && r.currentState == PlayerState.Moving &&
      r.currentDirection == d && r.lastWallDirection == s.lastWallDirection &&
      ClipSwitched(s, r, AnimationType.LongJump) &&
      r.targetRotation == MovementRotation(d, s.targetRotation)
    ensures r.rotation == s.rotation && r.framecounts == s.framecounts && r.frameRates == s.frameRates
    ensures Inv(s) ==> Inv(r)
    ensures Inv(s) && Placed(g, s) && d != Direction.None ==> Placed(g, r)
  {
    if s.isMoving then s
    else if !CanMove(g, s.gridX, s.gridY, d) then
      Played(s.(currentDirection := d, lastWallDirection := d,
                targetRotation := AgainstWallRotation(d, s.targetRotation),
                currentState := PlayerState.AgainstWall),
             AnimationType.Idle)
    else
      var t := Neighbour(s.gridX, s.gridY, d);
      Played(s.(isMoving := true, currentDirection := d, currentState := PlayerState.Moving,
                targetX := t.0, targetY := t.1,
                targetRotation := MovementRotation(d, s.targetRotation)),
             AnimationType.LongJump)
  }

  /** The arrival branch of UpdateMovement: the player enters the target cell and looks
      one cell further in the same direction; it keeps sliding if that cell is open and
      otherwise stops against the wall. */
  function Arrived(g: Grid, s: Snapshot): (r: Snapshot)
    requires g.WellFormed()
    ensures r.gridX == s.targetX && r.gridY == s.targetY && r.currentDirection == s.currentDirection
    ensures CanMove(g, s.targetX, s.targetY, s.currentDirection) ==>
      r == s.(gridX := s.targetX, gridY := s.targetY,
              targetX := r.targetX, targetY := r.targetY) &&
      (r.targetX, r.targetY) == Neighbour(s.targetX, s.targetY, s.currentDirection)
    ensures !CanMove(g, s.targetX, s.targetY, s.currentDirection) ==>
      r.targetX == r.gridX && r.targetY == r.gridY &&
      !r.isMoving && r.currentState == PlayerState.AgainstWall &&
      r.lastWallDirection == s.currentDirection &&
      ClipSwitched(s, r, AnimationType.Idle) &&
      r.targetRotation == AgainstWallRotation(s.currentDirection, s.targetRotation)
    ensures r.rotation == s.rotation && r.framecounts == s.framecounts && r.frameRates == s.frameRates
    ensures Inv(s) && s.isMoving ==> Inv(r)
    ensures Inv(s) && s.isMoving && Placed(g, s) ==> Placed(g, r)
  {
    var at := s.(gridX := s.targetX, gridY := s.targetY);
    if CanMove(g, at.gridX, at.gridY, at.currentDirection) then
      var t := Neighbour(at.gridX, at.gridY, at.currentDirection);
      at.(targetX := t.0, targetY := t.1)
    else
      Played(at.(isMoving := false, currentState := PlayerState.AgainstWall,
                 lastWallDirection := at.currentDirection,
                 targetRotation := AgainstWallRotation(at.currentDirection, at.targetRotation)),
             AnimationType.Idle)
  }

  function FrameRate(s: Snapshot): real {
    if s.currentAnimation in s.frameRates then s.frameRates[s.currentAnimation] else DefaultFrameRate
  }

  /** One due frame of UpdateSpriteAnimation. Idle loops; LongJump runs to its last frame
      and then hands over to Flight while moving, to Idle otherwise; Flight holds its last
      frame while moving and falls back to Idle when movement stops; Arrive ends in Idle.
      A clip without a frame count never changes. */
  function AdvancedFrame(s: Snapshot): (r: Snapshot)
    requires Inv(s)
    ensures OnlyClipChanged(s, r) && Inv(r)
    ensures s.currentAnimation !in s.framecounts ==> r == s
    ensures s.currentAnimation in s.framecounts ==>
      var last := s.framecounts[s.currentAnimation] - 1;
      (s.currentAnimation == AnimationType.Idle ==>
         r.currentAnimation == AnimationType.Idle &&
         r.currentFrame == (if s.currentFrame < last then s.currentFrame + 1 else 0)) &&
      (s.currentAnimation != AnimationType.Idle && s.currentFrame < last ==>
         r.currentAnimation == s.currentAnimation && r.currentFrame == s.currentFrame + 1) &&
      (s.currentAnimation == AnimationType.LongJump && s.currentFrame == last ==>
         r.currentAnimation == (if s.isMoving then AnimationType.Flight else AnimationType.Idle) &&
         r.currentFrame == 0) &&
      (s.currentAnimation == AnimationType.Flight && s.currentFrame == last ==>
         if s.isMoving then r == s
         else r.currentAnimation == AnimationType.Idle && r.currentFrame == 0) &&
      (s.currentAnimation == AnimationType.Arrive && s.currentFrame == last ==>
         r.currentAnimation == AnimationType.Idle && r.currentFrame == 0)
  {
    if s.currentAnimation !in s.framecounts then s
    else
      var maxFrames := s.framecounts[s.currentAnimation];
      match s.currentAnimation
      case Idle => s.(currentFrame := (s.currentFrame + 1) % maxFrames)
      case LongJump =>
        if s.currentFrame < maxFrames - 1 then s.(currentFrame := s.currentFrame + 1)
        else if s.isMoving then Played(s, AnimationType.Flight)
        else Played(s, AnimationType.Idle)
      case Flight =>
        if s.currentFrame < maxFrames - 1 then s.(currentFrame := s.currentFrame + 1)
        else if s.isMoving then s.(currentFrame := maxFrames - 1)
        else Played(s, AnimationType.Idle)
      case Arrive =>
        if s.currentFrame < maxFrames - 1 then s.(currentFrame := s.currentFrame + 1)
        else Played(s, AnimationType.Idle)
  }

  /** UpdateSpriteAnimation: the timer accumulates; once a frame is due it restarts
      and the frame advances. Nothing but the clip state changes. */
  function Animated(s: Snapshot, deltaTime: real): (r: Snapshot)
    requires Inv(s)
    ensures OnlyClipChanged(s, r) && Inv(r)
    ensures !FrameDue(s.frameTimer + deltaTime, FrameRate(s)) ==> r == s.(frameTimer := s.frameTimer + deltaTime)
    ensures FrameDue(s.frameTimer + deltaTime, FrameRate(s)) ==> r == AdvancedFrame(s.(frameTimer := 0.0))
  {
    var t := s.frameTimer + deltaTime;
    if FrameDue(t, FrameRate(s)) then AdvancedFrame(s.(frameTimer := 0.0)) else s.(frameTimer := t)
  }

  /** UpdateRotation: the rotation becomes the target rotation brought into [0, 360). */
  function Rotated(s: Snapshot): (r: Snapshot)
    ensures r == s.(rotation := r.rotation)
    ensures 0 <= r.rotation < 360 && (r.rotation - s.targetRotation) % 360 == 0
  {
    s.(rotation := s.targetRotation % 360)
  }

  /** Player.Update: animation first, then (only while moving) movement, then rotation.
      At rest, or before arrival, the movement state does not change. */
  function Updated(g: Grid, s: Snapshot, deltaTime: real, arrived: bool): (r: Snapshot)
    requires g.WellFormed() && Inv(s)
    ensures Inv(r)
    ensures !(s.isMoving && arrived) ==> MotionOf(r) == MotionOf(s)
    ensures s.isMoving && arrived ==> MotionOf(r) == MotionOf(Arrived(g, s))
    ensures s.isMoving && arrived && !CanMove(g, s.targetX, s.targetY, s.currentDirection) ==>
      r.currentAnimation == AnimationType.Idle
    ensures Placed(g, s) ==> Placed(g, r)
  {
    var a := Animated(s, deltaTime);
    var m := if a.isMoving && arrived then Arrived(g, a) else a;
    Rotated(m)
  }

  /* ---------------------------------------------------------------------------
     Slides.
     ------------------------------------------------------------------------- */

  /** The cell n steps from (x, y) towards d. */
  function Advance(x: int, y: int, d: Direction, n: int): (int, int) {
    match d
    case Up => (x, y - n)
    case Down => (x, y + n)
    case Left => (x - n, y)
    case Right => (x + n, y)
    case None => (x, y)
  }

  /** Cells left between (x, y) and the edge of the grid in direction d. */
  function Room(g: Grid, x: int, y: int, d: Direction): int {
    match d
    case Up => y
    case Down => g.height - 1 - y
    case Left => x
    case Right => g.width - 1 - x
    case None => 0
  }

  /** The number of open cells in a row from (x, y) towards d. Finite because a query
      outside the grid answers "blocked". */
  function SlideLength(g: Grid, x: int, y: int, d: Direction): nat
    requires g.WellFormed() && d != Direction.None
    decreases Room(g, x, y, d)
  {
    var c := Neighbour(x, y, d);
    if OpenCell(g, c) then 1 + SlideLength(g, c.0, c.1, d) else 0
  }

  /** A slide covers exactly the open cells ahead: all SlideLength cells are open and
      the next one is blocked. */
  lemma {:induction false} SlideStopsBeforeWall(g: Grid, x: int, y: int, d: Direction)
    requires g.WellFormed() && d != Direction.None
    ensures forall k | 1 <= k <= SlideLength(g, x, y, d) :: OpenCell(g, Advance(x, y, d, k))
    ensures !OpenCell(g, Advance(x, y, d, SlideLength(g, x, y, d) + 1))
    decreases Room(g, x, y, d)
  {
    var c := Neighbour(x, y, d);
    if OpenCell(g, c) {
      SlideStopsBeforeWall(g, c.0, c.1, d);
      forall k | 1 <= k <= SlideLength(g, x, y, d)
        ensures OpenCell(g, Advance(x, y, d, k))
      {
        if k > 1 {
          assert Advance(x, y, d, k) == Advance(c.0, c.1, d, k - 1);
        }
      }
      assert Advance(x, y, d, SlideLength(g, x, y, d) + 1) == Advance(c.0, c.1, d, SlideLength(g, c.0, c.1, d) + 1);
    }
  }

  /** A run of Player.Update calls: each step is the tick's deltaTime and whether the
      player reaches its target during it. */
  function Ticks(g: Grid, s: Snapshot, steps: seq<(real, bool)>): (r: Snapshot)
    requires g.WellFormed() && Inv(s)
    ensures Inv(r)
    ensures Placed(g, s) ==> Placed(g, r)
    decreases |steps|
  {
    if steps == [] then s else Ticks(g, Updated(g, s, steps[0].0, steps[0].1), steps[1..])
  }

  /** The number of ticks in the run during which the player reaches its target. */
  function ArrivalCount(steps: seq<(real, bool)>): (n: nat)
    ensures n <= |steps|
    decreases |steps|
  {
    if steps == [] then 0 else (if steps[0].1 then 1 else 0) + ArrivalCount(steps[1..])
  }

  /** Once at rest, the player stays put: no run of ticks without input changes its cell,
      target, direction, wall direction or state. */
  lemma {:induction false} RestIsStable(g: Grid, s: Snapshot, steps: seq<(real, bool)>)
    requires g.WellFormed() && Inv(s) && !s.isMoving
    ensures MotionOf(Ticks(g, s, steps)) == MotionOf(s)
    decreases |steps|
  {
    if steps != [] {
      var s1 := Updated(g, s, steps[0].0, steps[0].1);
      assert MotionOf(s1) == MotionOf(s);
      RestIsStable(g, s1, steps[1..]);
    }
  }

  /** A player resting with the Idle clip keeps the Idle clip: Idle only loops. */
  lemma {:induction false} RestKeepsIdle(g: Grid, s: Snapshot, steps: seq<(real, bool)>)
    requires g.WellFormed() && Inv(s) && !s.isMoving && s.currentAnimation == AnimationType.Idle
    ensures Ticks(g, s, steps).currentAnimation == AnimationType.Idle
    decreases |steps|
  {
    if steps != [] {
      var s1 := Updated(g, s, steps[0].0, steps[0].1);
      assert MotionOf(s1) == MotionOf(s);
      assert s1.currentAnimation == Animated(s, steps[0].0).currentAnimation;
      RestKeepsIdle(g, s1, steps[1..]);
    }
  }

  /** The outcome of a slide from s: the player is still moving after exactly those
      prefixes of the run that hold fewer than SlideLength arrivals, and at the end it
      rests against the wall on the last open cell ahead, facing that wall, with the Idle
      clip. */
  ghost predicate SlidesToWall(g: Grid, s: Snapshot, steps: seq<(real, bool)>)
    requires g.WellFormed() && Inv(s) && s.currentDirection != Direction.None
  {
    var d := s.currentDirection;
    var n := SlideLength(g, s.gridX, s.gridY, d);
    n >= 1 &&
    (forall k | 0 <= k <= |steps| :: Ticks(g, s, steps[..k]).isMoving <==> ArrivalCount(steps[..k]) < n) &&
    var r := Ticks(g, s, steps);
    !r.isMoving && r.currentState == PlayerState.AgainstWall &&
    (r.gridX, r.gridY) == Advance(s.gridX, s.gridY, d, n) &&
    r.currentDirection == d && r.lastWallDirection == d &&
    r.currentAnimation == AnimationType.Idle
  }

  /** One key press slides until the wall: a player moving towards an open cell keeps
      moving until the run has brought it SlideLength arrivals, whatever ticks without
      arrival come in between, and then rests against the wall for good. */
  lemma {:induction false} SlideEndsAgainstWall(g: Grid, s: Snapshot, steps: seq<(real, bool)>)
    requires g.WellFormed() && Inv(s) && s.isMoving && s.currentDirection != Direction.None
    requires OpenCell(g, (s.targetX, s.targetY))
    requires ArrivalCount(steps) >= SlideLength(g, s.gridX, s.gridY, s.currentDirection)
    ensures SlidesToWall(g, s, steps)
    decreases |steps|, 1
  {
    var d := s.currentDirection;
    assert (s.targetX, s.targetY) == Neighbour(s.gridX, s.gridY, d);
    assert SlideLength(g, s.gridX, s.gridY, d) == 1 + SlideLength(g, s.targetX, s.targetY, d);
    if !steps[0].1 {
      SlideWaits(g, s, steps);
    } else if CanMove(g, s.targetX, s.targetY, d) {
      SlideContinues(g, s, steps);
    } else {
      SlideStops(g, s, steps);
    }
  }

  /** A first tick without arrival changes nothing that matters to the slide. */
  lemma {:induction false} SlideWaits(g: Grid, s: Snapshot, steps: seq<(real, bool)>)
    requires g.WellFormed() && Inv(s) && s.isMoving && s.currentDirection != Direction.None
    requires OpenCell(g, (s.targetX, s.targetY))
    requires ArrivalCount(steps) >= SlideLength(g, s.gridX, s.gridY, s.currentDirection)
    requires steps != [] && !steps[0].1
    ensures SlidesToWall(g, s, steps)
    decreases |steps|, 0
  {
    var n := SlideLength(g, s.gridX, s.gridY, s.currentDirection);
    var s1 := Updated(g, s, steps[0].0, false);
    assert MotionOf(s1) == MotionOf(s);
    assert Ticks(g, s, steps) == Ticks(g, s1, steps[1..]);
    assert ArrivalCount(steps) == ArrivalCount(steps[1..]);
    SlideEndsAgainstWall(g, s1, steps[1..]);
    forall k | 0 <= k <= |steps|
      ensures Ticks(g, s, steps[..k]).isMoving <==> ArrivalCount(steps[..k]) < n
    {
      if k > 0 {
        TicksPrefix(g, s, steps, k);
        CountPrefix(steps, k);
      }
    }
  }

  /** A first tick that arrives with the next cell open leaves one arrival fewer to go. */
  lemma {:induction false} SlideContinues(g: Grid, s: Snapshot, steps: seq<(real, bool)>)
    requires g.WellFormed() && Inv(s) && s.isMoving && s.currentDirection != Direction.None
    requires OpenCell(g, (s.targetX, s.targetY))
    requires ArrivalCount(steps) >= SlideLength(g, s.gridX, s.gridY, s.currentDirection)
    requires steps != [] && steps[0].1 && CanMove(g, s.targetX, s.targetY, s.currentDirection)
    ensures SlidesToWall(g, s, steps)
    decreases |steps|, 0
  {
    var d := s.currentDirection;
    var n := SlideLength(g, s.gridX, s.gridY, d);
    assert (s.targetX, s.targetY) == Neighbour(s.gridX, s.gridY, d);
    assert n == 1 + SlideLength(g, s.targetX, s.targetY, d);
    var s1 := Updated(g, s, steps[0].0, true);
    ArrivingTick(g, s, steps[0].0);
    assert Ticks(g, s, steps) == Ticks(g, s1, steps[1..]);
    assert ArrivalCount(steps) == 1 + ArrivalCount(steps[1..]);
    SlideEndsAgainstWall(g, s1, steps[1..]);
    forall k | 0 <= k <= |steps|
      ensures Ticks(g, s, steps[..k]).isMoving <==> ArrivalCount(steps[..k]) < n
    {
      if k > 0 {
        TicksPrefix(g, s, steps, k);
        CountPrefix(steps, k);
      }
    }
    AdvanceStep(s.gridX, s.gridY, d, n);
  }

  /** A first tick that arrives with the next cell blocked ends the slide for good. */
  lemma {:induction false} SlideStops(g: Grid, s: Snapshot, steps: seq<(real, bool)>)
    requires g.WellFormed() && Inv(s) && s.isMoving && s.currentDirection != Direction.None
    requires OpenCell(g, (s.targetX, s.targetY))
    requires steps != [] && steps[0].1 && !CanMove(g, s.targetX, s.targetY, s.currentDirection)
    ensures SlidesToWall(g, s, steps)
  {
    var d := s.currentDirection;
    var n := SlideLength(g, s.gridX, s.gridY, d);
    assert (s.targetX, s.targetY) == Neighbour(s.gridX, s.gridY, d);
    assert SlideLength(g, s.targetX, s.targetY, d) == 0;
    assert n == 1;
    var s1 := Updated(g, s, steps[0].0, true);
    ArrivingTick(g, s, steps[0].0);
    assert Ticks(g, s, steps) == Ticks(g, s1, steps[1..]);
    RestIsStable(g, s1, steps[1..]);
    RestKeepsIdle(g, s1, steps[1..]);
    forall k | 0 <= k <= |steps|
      ensures Ticks(g, s, steps[..k]).isMoving <==> ArrivalCount(steps[..k]) < n
    {
      if k > 0 {
        TicksPrefix(g, s, steps, k);
        CountPrefix(steps, k);
        RestIsStable(g, s1, steps[1..][..k - 1]);
      }
    }
  }

  /** StartMoving at rest towards an open cell, then a run of ticks with at least as many
      arrivals as there are open cells ahead: the player ends on the last open cell ahead,
      against the wall, with the next cell blocked. */
  lemma PressSlides(g: Grid, s: Snapshot, d: Direction, steps: seq<(real, bool)>)
    requires g.WellFormed() && Inv(s) && !s.isMoving && d != Direction.None
    requires CanMove(g, s.gridX, s.gridY, d)
    requires ArrivalCount(steps) >= SlideLength(g, s.gridX, s.gridY, d)
    ensures var p := Ticks(g, StartMoved(g, s, d), steps);
      !p.isMoving && p.currentState == PlayerState.AgainstWall && p.lastWallDirection == d &&
      (p.gridX, p.gridY) == Advance(s.gridX, s.gridY, d, SlideLength(g, s.gridX, s.gridY, d)) &&
      !CanMove(g, p.gridX, p.gridY, d)
  {
    var moved := StartMoved(g, s, d);
    assert moved.isMoving && moved.currentDirection == d && moved.gridX == s.gridX && moved.gridY == s.gridY;
    SlideEndsAgainstWall(g, moved, steps);
    SlideStopsBeforeWall(g, s.gridX, s.gridY, d);
    AdvanceNext(s.gridX, s.gridY, d, SlideLength(g, s.gridX, s.gridY, d));
  }

  /** One arriving tick moves the player onto its target and either retargets the next
      cell or stops it against the wall. */
  lemma ArrivingTick(g: Grid, s: Snapshot, dt: real)
    requires g.WellFormed() && Inv(s) && s.isMoving
    ensures var r := Updated(g, s, dt, true);
      r.gridX == s.targetX && r.gridY == s.targetY && r.currentDirection == s.currentDirection &&
      (CanMove(g, s.targetX, s.targetY, s.currentDirection) ==>
        r.isMoving && (r.targetX, r.targetY) == Neighbour(s.targetX, s.targetY, s.currentDirection)) &&
      (!CanMove(g, s.targetX, s.targetY, s.currentDirection) ==>
        !r.isMoving && r.currentState == PlayerState.AgainstWall &&
        r.lastWallDirection == s.currentDirection && r.currentAnimation == AnimationType.Idle)
  {
  }

  /** n steps are one step followed by n - 1 more. */
  lemma AdvanceStep(x: int, y: int, d: Direction, n: int)
    ensures var c := Neighbour(x, y, d); Advance(x, y, d, n) == Advance(c.0, c.1, d, n - 1)
  {
  }

  /** The neighbour of the cell n steps ahead is the cell n + 1 steps ahead. */
  lemma AdvanceNext(x: int, y: int, d: Direction, n: int)
    ensures var c := Advance(x, y, d, n); Neighbour(c.0, c.1, d) == Advance(x, y, d, n + 1)
  {
  }

  /** The arrivals among the first k ticks are the first tick's plus those of the k - 1 after it. */
  lemma CountPrefix(steps: seq<(real, bool)>, k: nat)
    requires 0 < k <= |steps|
    ensures ArrivalCount(steps[..k]) == (if steps[0].1 then 1 else 0) + ArrivalCount(steps[1..][..k - 1])
  {
    assert steps[..k][1..] == steps[1..][..k - 1];
  }

  /** The first k ticks are the first tick followed by k - 1 more. */
  lemma TicksPrefix(g: Grid, s: Snapshot, steps: seq<(real, bool)>, k: nat)
    requires g.WellFormed() && Inv(s) && 0 < k <= |steps|
    ensures Ticks(g, s, steps[..k]) == Ticks(g, Updated(g, s, steps[0].0, steps[0].1), steps[1..][..k - 1])
  {
    assert steps[..k][0] == steps[0] && steps[..k][1..] == steps[1..][..k - 1];
  }

  /** Without the engine's guard, StartMoving(None) on an open cell would target the
      cell the player stands on, and every arrival would continue from there: the slide
      never ends, whatever the ticks. */
  lemma {:induction false} NoneNeverStops(g: Grid, s: Snapshot, steps: seq<(real, bool)>)
    requires g.WellFormed() && Inv(s) && !s.isMoving && OpenCell(g, (s.gridX, s.gridY))
    ensures var r := Ticks(g, StartMoved(g, s, Direction.None), steps);
      r.isMoving && r.gridX == s.gridX && r.gridY == s.gridY
  {
    var m := StartMoved(g, s, Direction.None);
    assert m.isMoving && m.currentDirection == Direction.None && m.gridX == s.gridX && m.gridY == s.gridY;
    StaysInPlace(g, m, steps);
  }

  lemma {:induction false} StaysInPlace(g: Grid, m: Snapshot, steps: seq<(real, bool)>)
    requires g.WellFormed() && Inv(m) && m.isMoving && m.currentDirection == Direction.None
    requires OpenCell(g, (m.gridX, m.gridY))
    ensures var r := Ticks(g, m, steps); r.isMoving && r.gridX == m.gridX && r.gridY == m.gridY
    decreases |steps|
  {
    if steps != [] {
      var m1 := Updated(g, m, steps[0].0, steps[0].1);
      if steps[0].1 {
        assert MotionOf(m1) == MotionOf(Arrived(g, m));
      } else {
        assert MotionOf(m1) == MotionOf(m);
      }
      assert m1.gridX == m.gridX && m1.gridY == m.gridY && m1.isMoving;
      StaysInPlace(g, m1, steps[1..]);
    }
  }

  /* ---------------------------------------------------------------------------
     Animation runs.
     ------------------------------------------------------------------------- */

  /** n animation updates of deltaTime each. */
  function FrameTicks(s: Snapshot, deltaTime: real, n: nat): (r: Snapshot)
    requires Inv(s)
    ensures Inv(r) && OnlyClipChanged(s, r)
    decreases n
  {
    if n == 0 then s else FrameTicks(Animated(s, deltaTime), deltaTime, n - 1)
  }

  /** A LongJump (5 frames at 48 fps) given five frame periods ends on Flight when the
      player is still moving, and on Idle when it is not. */
  lemma LongJumpHandsOver(s: Snapshot)
    requires Inv(s) && s.framecounts == FrameCounts && s.frameRates == FrameRates
    requires s.currentAnimation == AnimationType.LongJump && s.currentFrame == 0 && s.frameTimer >= 0.0
    ensures var r := FrameTicks(s, 1.0 / 48.0, 5);
      r.currentAnimation == (if s.isMoving then AnimationType.Flight else AnimationType.Idle) &&
      r.currentFrame == 0 && r.isMoving == s.isMoving
  {
  }

  /* ---------------------------------------------------------------------------
     The Player object.
     ------------------------------------------------------------------------- */

  class Player {
    var gridX: int
    var gridY: int
    /** The target cell (the source keeps it in pixels, as cell * GRID_SIZE). */
    var targetX: int
    var targetY: int
    var isMoving: bool
    var currentDirection: Direction
    var lastWallDirection: Direction
    var rotation: int
    var targetRotation: int
    var currentState: PlayerState
    var currentAnimation: AnimationType
    var currentFrame: int
    var frameTimer: real
    var framecounts: map<AnimationType, int>
    var frameRates: map<AnimationType, real>

    function View(): Snapshot
      reads this
    {
      Snapshot(gridX, gridY, targetX, targetY, isMoving, currentDirection, lastWallDirection,
               currentState, currentAnimation, currentFrame, frameTimer, framecounts, frameRates,
               targetRotation, rotation)
    }

    ghost predicate Valid()
      reads this
    {
      Inv(View())
    }

    /** Player(startX, startY); `spritesLoaded` is the outcome of loading the sprite
        sheets, which decides whether the frame tables are filled. */
    constructor (startX: int, startY: int, spritesLoaded: bool)
      ensures View() == Spawned(startX, startY, spritesLoaded) && Valid()
    {
      gridX := startX;
      gridY := startY;
      targetX := startX;
      targetY := startY;
      isMoving := false;
      currentDirection := Direction.None;
      lastWallDirection := Direction.None;
      currentState := PlayerState.Idle;
      framecounts := if spritesLoaded then FrameCounts else map[];
      frameRates := if spritesLoaded then FrameRates else map[];
      currentAnimation := AnimationType.Idle;
      currentFrame := 0;
      frameTimer := 0.0;
      rotation := 0;
      targetRotation := 0;
    }

    method Update(level: Level, deltaTime: real, arrived: bool)
      requires Valid() && level.Valid()
      modifies this
      ensures View() == Updated(level.Cells, old(View()), deltaTime, arrived) && Valid()
    {
      UpdateSpriteAnimation(deltaTime);
      if isMoving {
        UpdateMovement(arrived, level);
      }
      UpdateRotation();
    }

    method UpdateSpriteAnimation(deltaTime: real)
      requires Valid()
      modifies this
      ensures View() == Animated(old(View()), deltaTime) && Valid()
    {
      frameTimer := frameTimer + deltaTime;
      var currentFrameRate := if currentAnimation in frameRates then frameRates[currentAnimation] else DefaultFrameRate;
      if FrameDue(frameTimer, currentFrameRate) {
        frameTimer := 0.0;
        if currentAnimation in framecounts {
          var maxFrames := framecounts[currentAnimation];
          if currentAnimation == AnimationType.Idle {
            currentFrame := (currentFrame + 1) % maxFrames;
          } else if currentAnimation == AnimationType.LongJump {
            if currentFrame < maxFrames - 1 {
              currentFrame := currentFrame + 1;
            } else if isMoving {
              PlayAnimation(AnimationType.Flight);
            } else {
              PlayAnimation(AnimationType.Idle);
            }
          } else if currentAnimation == AnimationType.Flight {
            if currentFrame < maxFrames - 1 {
              currentFrame := currentFrame + 1;
            } else if isMoving {
              currentFrame := maxFrames - 1;
            } else {
              PlayAnimation(AnimationType.Idle);
            }
          } else if currentAnimation == AnimationType.Arrive {
            if currentFrame < maxFrames - 1 {
              currentFrame := currentFrame + 1;
            } else {
              PlayAnimation(AnimationType.Idle);
            }
          }
        }
      }
    }

    method PlayAnimation(animation: AnimationType)
      modifies this
      ensures View() == Played(old(View()), animation)
    {
      if currentAnimation != animation {
        currentAnimation := animation;
        currentFrame := 0;
        frameTimer := 0.0;
      }
    }

    /** UpdateMovement; called only while moving. `arrived` stands for the distance to
        the target being within this tick's travel. */
    method UpdateMovement(arrived: bool, level: Level)
      requires Valid() && level.Valid() && isMoving
      modifies this
      ensures View() == (if arrived then Arrived(level.Cells, old(View())) else old(View())) && Valid()
    {
      ghost var s0 := View();
      if arrived {
        gridX := targetX;
        gridY := targetY;
        if CanMoveInDirection(currentDirection, level) {
          assert CanMove(level.Cells, s0.targetX, s0.targetY, s0.currentDirection);
          ContinueMoving();
        } else {
          assert !CanMove(level.Cells, s0.targetX, s0.targetY, s0.currentDirection);
          StopMoving();
          lastWallDirection := currentDirection;
          SetAgainstWallRotation(currentDirection);
          currentState := PlayerState.AgainstWall;
          PlayAnimation(AnimationType.Idle);
        }
      }
    }

    method UpdateRotation()
      modifies this
      ensures View() == Rotated(old(View()))
    {
      rotation := targetRotation;
      while rotation < 0
        invariant View() == old(View()).(rotation := rotation)
        invariant rotation % 360 == targetRotation % 360
        decreases -rotation
      {
        rotation := rotation + 360;
      }
      while rotation >= 360
        invariant View() == old(View()).(rotation := rotation)
        invariant 0 <= rotation && rotation % 360 == targetRotation % 360
        decreases rotation
      {
        rotation := rotation - 360;
      }
    }

    method StartMoving(direction: Direction, level: Level)
      requires Valid() && level.Valid()
      modifies this
      ensures View() == StartMoved(level.Cells, old(View()), direction) && Valid()
    {
      ghost var s0 := View();
      if isMoving {
        return;
      }
      if !CanMoveInDirection(direction, level) {
        assert !CanMove(level.Cells, s0.gridX, s0.gridY, direction);
        currentDirection := direction;
        lastWallDirection := direction;
        SetAgainstWallRotation(direction);
        currentState := PlayerState.AgainstWall;
        PlayAnimation(AnimationType.Idle);
        return;
      }
      assert CanMove(level.Cells, s0.gridX, s0.gridY, direction);
      isMoving := true;
      currentDirection := direction;
      currentState := PlayerState.Moving;
      SetTargetPosition(direction);
      SetMovementRotation(direction);
      PlayMovementAnimation(direction);
    }

    /** PlayMovementAnimation: both branches play LongJump, whatever the wall context. */
    method PlayMovementAnimation(direction: Direction)
      modifies this
      ensures View() == Played(old(View()), AnimationType.LongJump)
    {
      if IsMovingAwayFromWall(lastWallDirection, direction) || IsMovingAlongsideWall(lastWallDirection, direction) {
        PlayAnimation(AnimationType.LongJump);
      } else {
        PlayAnimation(AnimationType.LongJump);
      }
    }

    method ContinueMoving()
      modifies this
      ensures var t := Neighbour(old(gridX), old(gridY), old(currentDirection));
        View() == old(View()).(targetX := t.0, targetY := t.1)
    {
      SetTargetPosition(currentDirection);
    }

    method StopMoving()
      modifies this
      ensures View() == old(View()).(isMoving := false, currentState := PlayerState.AgainstWall)
    {
      isMoving := false;
      currentState := PlayerState.AgainstWall;
    }

    method SetTargetPosition(direction: Direction)
      modifies this
      ensures var t := Neighbour(old(gridX), old(gridY), direction);
        View() == old(View()).(targetX := t.0, targetY := t.1)
    {
      var newGridX := gridX;
      var newGridY := gridY;
      match direction {
        case Up => newGridY := newGridY - 1;
        case Down => newGridY := newGridY + 1;
        case Left => newGridX := newGridX - 1;
        case Right => newGridX := newGridX + 1;
        case None =>
      }
      targetX := newGridX;
      targetY := newGridY;
    }

    /** CanMoveInDirection: the level's answer for the neighbouring cell. */
    function CanMoveInDirection(direction: Direction, level: Level): (r: bool)
      reads this, level, level.levelData
      requires level.Valid()
      ensures r == CanMove(level.Cells, gridX, gridY, direction)
    {
      var c := Neighbour(gridX, gridY, direction);
      level.IsValidPosition(c.0, c.1)
    }

    method SetMovementRotation(direction: Direction)
      modifies this
      ensures View() == old(View()).(targetRotation := MovementRotation(direction, old(targetRotation)))
    {
      match direction {
        case Up => targetRotation := 0;
        case Right => targetRotation := 90;
        case Down => targetRotation := 180;
        case Left => targetRotation := 270;
        case None =>
      }
    }

    method SetAgainstWallRotation(wallDirection: Direction)
      modifies this
      ensures View() == old(View()).(targetRotation := AgainstWallRotation(wallDirection, old(targetRotation)))
    {
      match wallDirection {
        case Up => targetRotation := 180;
        case Right => targetRotation := 270;
        case Down => targetRotation := 0;
        case Left => targetRotation := 90;
        case None =>
      }
    }
  }
}
