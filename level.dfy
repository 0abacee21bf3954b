/** The collision grid of the WinForms build: a rectangle of WALL/EMPTY cells,
    generated once (a border pass and three passes driven by random draws) and
    afterwards only queried. */
module Levels {

  const GRID_SIZE := 24
  const WALL := 1
  const EMPTY := 0

  function Abs(n: int): nat {
    if n < 0 then -n else n
  }

  /** A value view of `int[,] levelData`: `cells[x][y]` is the cell in column x, row y. */
  datatype Grid = Grid(width: int, height: int, cells: seq<seq<int>>) {

    predicate WellFormed() {
      0 <= width && 0 <= height && |cells| == width &&
      forall x | 0 <= x < width :: |cells[x]| == height
    }

    /** Traversable: inside the grid and EMPTY. Anything outside the grid is blocked. */
    predicate IsValidPosition(x: int, y: int)
      requires WellFormed()
    {
      0 <= x < width && 0 <= y < height && cells[x][y] == EMPTY
    }
  }

  /* ---------------------------------------------------------------------------
     Random draws. Each `random.Next(lo, hi)` of GenerateLevel is an input here.
     ------------------------------------------------------------------------- */

  /** A wall segment: the row (or column) `line` and the half-open span [start, end). */
  datatype Segment = Segment(line: int, start: int, end: int)

  /** All draws of one GenerateLevel call: three horizontal segments, three vertical
      segments and twenty scattered cells, in the order they are drawn. */
  datatype LevelDraws = LevelDraws(horizontal: seq<Segment>, vertical: seq<Segment>, scattered: seq<(int, int)>)

  /** What `Random.Next(lo, hi)` may return when lo <= hi: lo itself when the range
      is empty, otherwise a value of [lo, hi). */
  predicate NextResult(r: int, lo: int, hi: int) {
    if lo == hi then r == lo else lo <= r < hi
  }

  /** Every `random.Next` range of GenerateLevel has lo <= hi exactly when both
      dimensions are at least 4; below that `Random.Next` throws. */
  predicate Generatable(w: int, h: int) {
    4 <= w && 4 <= h
  }

  predicate DrawsInRange(w: int, h: int, d: LevelDraws) {
    |d.horizontal| == 3 && |d.vertical| == 3 && |d.scattered| == 20 &&
    (forall i | 0 <= i < 3 ::
      NextResult(d.horizontal[i].line, 2, h - 2) &&
      NextResult(d.horizontal[i].start, 1, w / 2) &&
      NextResult(d.horizontal[i].end, w / 2, w - 1)) &&
    (forall i | 0 <= i < 3 ::
      NextResult(d.vertical[i].line, 2, w - 2) &&
      NextResult(d.vertical[i].start, 1, h / 2) &&
      NextResult(d.vertical[i].end, h / 2, h - 1)) &&
    (forall i | 0 <= i < 20 ::
      NextResult(d.scattered[i].0, 2, w - 2) &&
      NextResult(d.scattered[i].1, 2, h - 2))
  }

  /* ---------------------------------------------------------------------------
     The generated grid, as a specification.
     ------------------------------------------------------------------------- */

  predicate OnBorder(w: int, h: int, x: int, y: int) {
    x == 0 || x == w - 1 || y == 0 || y == h - 1
  }

  predicate OnRow(s: Segment, x: int, y: int) {
    y == s.line && s.start <= x < s.end
  }

  predicate OnColumn(s: Segment, x: int, y: int) {
    x == s.line && s.start <= y < s.end
  }

  /** The 5x5 square around the start cell that scattered walls avoid. */
  predicate NearStart(w: int, h: int, x: int, y: int) {
    Abs(x - w / 2) <= 2 && Abs(y - h / 2) <= 2
  }

  /** (x, y) is on one of the horizontal segments. */
  predicate AnyRow(segs: seq<Segment>, x: int, y: int)
    decreases |segs|
  {
    |segs| > 0 && (AnyRow(segs[..|segs| - 1], x, y) || OnRow(segs[|segs| - 1], x, y))
  }

  /** (x, y) is on one of the vertical segments. */
  predicate AnyColumn(segs: seq<Segment>, x: int, y: int)
    decreases |segs|
  {
    |segs| > 0 && (AnyColumn(segs[..|segs| - 1], x, y) || OnColumn(segs[|segs| - 1], x, y))
  }

  /** (x, y) is one of the scattered draws that the start-area guard lets through. */
  predicate AnyScatter(w: int, h: int, ps: seq<(int, int)>, x: int, y: int)
    decreases |ps|
  {
    |ps| > 0 && (AnyScatter(w, h, ps[..|ps| - 1], x, y) || (ps[|ps| - 1] == (x, y) && !NearStart(w, h, x, y)))
  }

  predicate GeneratedWall(w: int, h: int, d: LevelDraws, x: int, y: int) {
    OnBorder(w, h, x, y) || AnyRow(d.horizontal, x, y) || AnyColumn(d.vertical, x, y) ||
    AnyScatter(w, h, d.scattered, x, y)
  }

  /** The grid GenerateLevel builds from the draws `d`. */
  function Generated(w: nat, h: nat, d: LevelDraws): (g: Grid)
    ensures g.WellFormed() && g.width == w && g.height == h
  {
    Grid(w, h, seq(w, x => seq(h, y => if GeneratedWall(w, h, d, x, y) then WALL else EMPTY)))
  }

  /* ---------------------------------------------------------------------------
     Properties of generation.
     ------------------------------------------------------------------------- */

  /** Out-of-bounds queries answer "blocked"; inside, a cell is traversable exactly when EMPTY. */
  lemma QueryOutsideIsBlocked(g: Grid, x: int, y: int)
    requires g.WellFormed()
    ensures !(0 <= x < g.width && 0 <= y < g.height) ==> !g.IsValidPosition(x, y)
    ensures 0 <= x < g.width && 0 <= y < g.height ==> (g.IsValidPosition(x, y) <==> g.cells[x][y] == EMPTY)
  {
  }

  lemma {:induction false} RowsInside(w: int, h: int, segs: seq<Segment>, x: int, y: int)
    requires Generatable(w, h)
    requires forall i | 0 <= i < |segs| ::
      NextResult(segs[i].line, 2, h - 2) && NextResult(segs[i].start, 1, w / 2) && NextResult(segs[i].end, w / 2, w - 1)
    requires AnyRow(segs, x, y)
    ensures 1 <= x <= w - 2 && 2 <= y <= h - 2
    decreases |segs|
  {
    var n := |segs| - 1;
    if !OnRow(segs[n], x, y) {
      RowsInside(w, h, segs[..n], x, y);
    }
  }

  lemma {:induction false} ColumnsInside(w: int, h: int, segs: seq<Segment>, x: int, y: int)
    requires Generatable(w, h)
    requires forall i | 0 <= i < |segs| ::
      NextResult(segs[i].line, 2, w - 2) && NextResult(segs[i].start, 1, h / 2) && NextResult(segs[i].end, h / 2, h - 1)
    requires AnyColumn(segs, x, y)
    ensures 2 <= x <= w - 2 && 1 <= y <= h - 2
    decreases |segs|
  {
    var n := |segs| - 1;
    if !OnColumn(segs[n], x, y) {
      ColumnsInside(w, h, segs[..n], x, y);
    }
  }

  lemma {:induction false} ScatterInside(w: int, h: int, ps: seq<(int, int)>, x: int, y: int)
    requires Generatable(w, h)
    requires forall i | 0 <= i < |ps| :: NextResult(ps[i].0, 2, w - 2) && NextResult(ps[i].1, 2, h - 2)
    requires AnyScatter(w, h, ps, x, y)
    ensures 2 <= x <= w - 2 && 2 <= y <= h - 2
    decreases |ps|
  {
    var n := |ps| - 1;
    if ps[n] != (x, y) || NearStart(w, h, x, y) {
      ScatterInside(w, h, ps[..n], x, y);
    }
  }

  /** Every wall the three random passes add lies strictly inside the border, so the
      border stays a ring of walls and a cell that is a wall after generation is either
      on the border or was added by a random pass; no pass ever clears a cell. */
  lemma RandomWallsStayInside(w: int, h: int, d: LevelDraws, x: int, y: int)
    requires Generatable(w, h) && DrawsInRange(w, h, d)
    requires AnyRow(d.horizontal, x, y) || AnyColumn(d.vertical, x, y) || AnyScatter(w, h, d.scattered, x, y)
    ensures 1 <= x <= w - 2 && 1 <= y <= h - 2
  {
    if AnyRow(d.horizontal, x, y) {
      RowsInside(w, h, d.horizontal, x, y);
    } else if AnyColumn(d.vertical, x, y) {
      ColumnsInside(w, h, d.vertical, x, y);
    } else {
      ScatterInside(w, h, d.scattered, x, y);
    }
  }

  /** The border is a ring of walls and every open cell is strictly inside it. */
  lemma GeneratedBorderIsClosed(w: nat, h: nat, d: LevelDraws, x: int, y: int)
    requires Generatable(w, h) && DrawsInRange(w, h, d)
    requires 0 <= x < w && 0 <= y < h
    ensures OnBorder(w, h, x, y) ==> !Generated(w, h, d).IsValidPosition(x, y)
    ensures Generated(w, h, d).IsValidPosition(x, y) ==> 1 <= x <= w - 2 && 1 <= y <= h - 2
  {
  }

  /** The start-area guard: a scattered draw never lands in the 5x5 square around the centre. */
  lemma {:induction false} ScatterSparesStartArea(w: int, h: int, ps: seq<(int, int)>, x: int, y: int)
    requires NearStart(w, h, x, y)
    ensures !AnyScatter(w, h, ps, x, y)
    decreases |ps|
  {
    if |ps| > 0 {
      ScatterSparesStartArea(w, h, ps[..|ps| - 1], x, y);
    }
  }

  /** The start cell is open exactly when no horizontal or vertical segment crosses it:
      only the scattered pass is guarded. */
  lemma StartCellOpenUnlessCrossed(w: nat, h: nat, d: LevelDraws)
    requires Generatable(w, h) && DrawsInRange(w, h, d)
    ensures Generated(w, h, d).IsValidPosition(w / 2, h / 2) <==>
            !AnyRow(d.horizontal, w / 2, h / 2) && !AnyColumn(d.vertical, w / 2, h / 2)
  {
    ScatterSparesStartArea(w, h, d.scattered, w / 2, h / 2);
  }

  /** The horizontal pass can wall the start cell: on a 40 x 30 grid, a first segment on
      row 15 spanning columns [1, 30) covers (20, 15), and all draws are within range. */
  lemma StartCellCanBeWalled()
    ensures exists d :: DrawsInRange(40, 30, d) && !Generated(40, 30, d).IsValidPosition(20, 15)
  {
    var seg := Segment(15, 1, 30);
    var d := LevelDraws([seg, seg, seg], [Segment(2, 1, 15), Segment(2, 1, 15), Segment(2, 1, 15)],
                        seq(20, i => (2, 2)));
    assert AnyRow(d.horizontal[..1], 20, 15) by {
      assert d.horizontal[..1][..0] == [];
    }
    assert d.horizontal[..3][..2][..1] == d.horizontal[..1];
    assert d.horizontal == d.horizontal[..3];
    assert AnyRow(d.horizontal, 20, 15);
    assert DrawsInRange(40, 30, d);
  }

  /* ---------------------------------------------------------------------------
     The Level object.
     ------------------------------------------------------------------------- */

  class Level {
    const windowWidth: int
    const windowHeight: int
    const gridWidth: int
    const gridHeight: int
    var levelData: array2<int>
    /** The grid as a value; kept equal to levelData. */
    ghost var Cells: Grid

    ghost predicate Valid()
      reads this, levelData
    {
      0 <= gridWidth && 0 <= gridHeight &&
      levelData.Length0 == gridWidth && levelData.Length1 == gridHeight &&
      Cells.WellFormed() && Cells.width == gridWidth && Cells.height == gridHeight &&
      forall x, y | 0 <= x < gridWidth && 0 <= y < gridHeight :: levelData[x, y] == Cells.cells[x][y]
    }

    /** Level(windowWidth, windowHeight): sizes the grid in 24-pixel cells and generates it. */
    constructor (windowWidth: int, windowHeight: int, draws: LevelDraws)
      requires Generatable(windowWidth / GRID_SIZE, windowHeight / GRID_SIZE)
      requires DrawsInRange(windowWidth / GRID_SIZE, windowHeight / GRID_SIZE, draws)
      ensures Valid() && fresh(levelData)
      ensures this.windowWidth == windowWidth && this.windowHeight == windowHeight
      ensures gridWidth == windowWidth / GRID_SIZE && gridHeight == windowHeight / GRID_SIZE
      ensures Cells == Generated(gridWidth, gridHeight, draws)
    {
      this.windowWidth := windowWidth;
      this.windowHeight := windowHeight;
      this.gridWidth := windowWidth / GRID_SIZE;
      this.gridHeight := windowHeight / GRID_SIZE;
      levelData := new int[0, 0];
      new;
      GenerateLevel(draws);
    }

    /** GenerateLevel: a fresh array filled by the border pass and the three random passes. */
    method GenerateLevel(draws: LevelDraws)
      requires Generatable(gridWidth, gridHeight) && DrawsInRange(gridWidth, gridHeight, draws)
      modifies this
      ensures Valid() && fresh(levelData)
      ensures Cells == Generated(gridWidth, gridHeight, draws)
    {
      levelData := new int[gridWidth, gridHeight];
      FillBorder();
      AddHorizontalWalls(draws.horizontal);
      AddVerticalWalls(draws.vertical);
      AddScatteredWalls(draws.scattered);
      Cells := Generated(gridWidth, gridHeight, draws);
    }

    /** The border pass: after it a cell is a wall exactly when it is on the outer ring. */
    method FillBorder()
      requires levelData.Length0 == gridWidth && levelData.Length1 == gridHeight
      modifies levelData
      ensures forall x, y | 0 <= x < gridWidth && 0 <= y < gridHeight ::
        levelData[x, y] == if OnBorder(gridWidth, gridHeight, x, y) then WALL else EMPTY
    {
      for x := 0 to gridWidth
        invariant forall i, j | 0 <= i < x && 0 <= j < gridHeight ::
          levelData[i, j] == if OnBorder(gridWidth, gridHeight, i, j) then WALL else EMPTY
      {
        for y := 0 to gridHeight
          invariant forall i, j | 0 <= i < x && 0 <= j < gridHeight ::
            levelData[i, j] == if OnBorder(gridWidth, gridHeight, i, j) then WALL else EMPTY
          invariant forall j | 0 <= j < y ::
            levelData[x, j] == if OnBorder(gridWidth, gridHeight, x, j) then WALL else EMPTY
        {
          if x == 0 || x == gridWidth - 1 || y == 0 || y == gridHeight - 1 {
            levelData[x, y] := WALL;
          } else {
            levelData[x, y] := EMPTY;
          }
        }
      }
    }

    /** The horizontal pass: walls every cell of each segment's row span, and nothing else. */
    method AddHorizontalWalls(segs: seq<Segment>)
      requires levelData.Length0 == gridWidth && levelData.Length1 == gridHeight
      requires forall i | 0 <= i < |segs| ::
        0 <= segs[i].line < gridHeight && 0 <= segs[i].start <= segs[i].end <= gridWidth
      modifies levelData
      ensures forall x, y | 0 <= x < gridWidth && 0 <= y < gridHeight ::
        levelData[x, y] == if AnyRow(segs, x, y) then WALL else old(levelData[x, y])
    {
      for i := 0 to |segs|
        invariant forall x, y | 0 <= x < gridWidth && 0 <= y < gridHeight ::
          levelData[x, y] == if AnyRow(segs[..i], x, y) then WALL else old(levelData[x, y])
      {
        var s := segs[i];
        for x := s.start to s.end
          invariant forall x', y | 0 <= x' < gridWidth && 0 <= y < gridHeight ::
            levelData[x', y] == if AnyRow(segs[..i], x', y) || (y == s.line && s.start <= x' < x) then WALL else old(levelData[x', y])
        {
          levelData[x, s.line] := WALL;
        }
        assert segs[..i + 1][..i] == segs[..i];
      }
      assert segs[..|segs|] == segs;
    }

    /** The vertical pass: walls every cell of each segment's column span, and nothing else. */
    method AddVerticalWalls(segs: seq<Segment>)
      requires levelData.Length0 == gridWidth && levelData.Length1 == gridHeight
      requires forall i | 0 <= i < |segs| ::
        0 <= segs[i].line < gridWidth && 0 <= segs[i].start <= segs[i].end <= gridHeight
      modifies levelData
      ensures forall x, y | 0 <= x < gridWidth && 0 <= y < gridHeight ::
        levelData[x, y] == if AnyColumn(segs, x, y) then WALL else old(levelData[x, y])
    {
      for i := 0 to |segs|
        invariant forall x, y | 0 <= x < gridWidth && 0 <= y < gridHeight ::
          levelData[x, y] == if AnyColumn(segs[..i], x, y) then WALL else old(levelData[x, y])
      {
        var s := segs[i];
        for y := s.start to s.end
          invariant forall x, y' | 0 <= x < gridWidth && 0 <= y' < gridHeight ::
            levelData[x, y'] == if AnyColumn(segs[..i], x, y') || (x == s.line && s.start <= y' < y) then WALL else old(levelData[x, y'])
        {
          levelData[s.line, y] := WALL;
        }
        assert segs[..i + 1][..i] == segs[..i];
      }
      assert segs[..|segs|] == segs;
    }

    /** The scattered pass: walls each drawn cell outside the start area, and nothing else. */
    method AddScatteredWalls(ps: seq<(int, int)>)
      requires levelData.Length0 == gridWidth && levelData.Length1 == gridHeight
      requires forall i | 0 <= i < |ps| :: 0 <= ps[i].0 < gridWidth && 0 <= ps[i].1 < gridHeight
      modifies levelData
      ensures forall x, y | 0 <= x < gridWidth && 0 <= y < gridHeight ::
        levelData[x, y] == if AnyScatter(gridWidth, gridHeight, ps, x, y) then WALL else old(levelData[x, y])
    {
      for i := 0 to |ps|
        invariant forall x, y | 0 <= x < gridWidth && 0 <= y < gridHeight ::
          levelData[x, y] == if AnyScatter(gridWidth, gridHeight, ps[..i], x, y) then WALL else old(levelData[x, y])
      {
        var (x, y) := ps[i];
        if Abs(x - gridWidth / 2) > 2 || Abs(y - gridHeight / 2) > 2 {
          levelData[x, y] := WALL;
        }
        assert ps[..i + 1][..i] == ps[..i];
      }
      assert ps[..|ps|] == ps;
    }

    /** GetStartPosition: the centre cell, inside the grid whenever the grid is not empty. */
    function GetStartPosition(): (p: (int, int))
      reads this
      ensures 1 <= gridWidth && 1 <= gridHeight ==> 0 <= p.0 < gridWidth && 0 <= p.1 < gridHeight
      ensures 0 <= gridWidth && 0 <= gridHeight ==> 2 * p.0 <= gridWidth < 2 * p.0 + 2 && 2 * p.1 <= gridHeight < 2 * p.1 + 2
    {
      (gridWidth / 2, gridHeight / 2)
    }

    /** IsValidPosition: the array query agrees with the grid value, so it answers
        "blocked" outside the grid and "open" exactly on EMPTY cells inside it. */
    function IsValidPosition(x: int, y: int): (r: bool)
      reads this, levelData
      requires Valid()
      ensures r == Cells.IsValidPosition(x, y)
      ensures !(0 <= x < gridWidth && 0 <= y < gridHeight) ==> !r
    {
      if x < 0 || x >= gridWidth || y < 0 || y >= gridHeight then false
      else levelData[x, y] == EMPTY
    }
  }
}
