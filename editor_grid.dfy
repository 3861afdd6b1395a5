/**
 * EditorGridVisualizer.cs: the chart editor's grid of cells, the
 * conversion from a point in the grid container to a cell, cell
 * highlighting, and the table of displayed notes (one per cell). The
 * column and row counts and the container size are parameters; Unity's
 * screen-to-local conversion is left to the caller, and a displayed note
 * object is recorded by its kind.
 */
module EditorGrid {
  import opened Values
  import opened Chart

  /** Values.gridColumns, Values.gridRows and the container's rect size. */
  datatype Grid = Grid(columns: int, rows: int, width: real, height: real)
  {
    predicate WellFormed()
    {
      columns >= 1 && rows >= 1 && width > 0.0 && height > 0.0
    }

    function CellWidth(): real
      requires WellFormed()
    {
      width / columns as real
    }

    function CellHeight(): real
      requires WellFormed()
    {
      height / rows as real
    }
  }

  datatype Vec = Vec(x: real, y: real)

  predicate IsValidGridPosition(g: Grid, pos: Cell)
  {
    0 <= pos.x < g.columns && 0 <= pos.y < g.rows
  }

  /**
   * The cell under a point given in the container's local coordinates
   * (origin at its centre, y up): columns count from the left edge, rows
   * from the top edge, and points outside are clamped to the border cells.
   */
  function ScreenToGridPosition(g: Grid, local: Vec): (pos: Cell)
    requires g.WellFormed()
    ensures IsValidGridPosition(g, pos)
  {
    var x := FloorToInt((local.x + g.width * 0.5) / g.CellWidth());
    var y := FloorToInt((g.height * 0.5 - local.y) / g.CellHeight());
    Cell(Clamp(x, 0, g.columns - 1), Clamp(y, 0, g.rows - 1))
  }

  /** Where CreateGrid places the centre of cell (x, y). */
  function CellCentre(g: Grid, x: int, y: int): Vec
    requires g.WellFormed()
  {
    Vec((x as real - (g.columns - 1) as real * 0.5) * g.CellWidth(),
        ((g.rows - 1) as real * 0.5 - y as real) * g.CellHeight())
  }

  /** Cell i of `count` cells of width w spanning `size`: its centre lies (i + 1/2) w from the low edge. */
  lemma CentreOffset(i: int, count: int, size: real, w: real, a: real)
    requires count >= 1 && size > 0.0 && w == size / count as real
    requires a == i as real - (count - 1) as real * 0.5
    ensures a * w + size * 0.5 == w * (i as real + 0.5) && w > 0.0
  {
    var c := count as real;
    assert w * c == size;
    assert a + c * 0.5 == i as real + 0.5;
    assert size * 0.5 == w * (c * 0.5);
    assert a * w + w * (c * 0.5) == w * (a + c * 0.5);
  }

  /** A distance of (i + 1/2) cell widths from the low edge falls in cell i. */
  lemma FloorOfCentre(i: int, w: real, v: real)
    requires w > 0.0 && v == w * (i as real + 0.5)
    ensures FloorToInt(v / w) == i
  {
    var z := i as real + 0.5;
    var q := v / w;
    assert q * w == v;
    assert w * (q - z) == 0.0;
    assert q == z;
    var r := FloorToInt(q);
    assert r as real <= z < r as real + 1.0;
    assert r <= i && i <= r;
  }

  /** The conversion maps every cell's centre back to that cell. */
  lemma CentreMapsBack(g: Grid, x: int, y: int)
    requires g.WellFormed() && IsValidGridPosition(g, Cell(x, y))
    ensures ScreenToGridPosition(g, CellCentre(g, x, y)) == Cell(x, y)
  {
    var c := CellCentre(g, x, y);
    var w, h := g.CellWidth(), g.CellHeight();
    var ax := x as real - (g.columns - 1) as real * 0.5;
    var ay := y as real - (g.rows - 1) as real * 0.5;
    CentreOffset(x, g.columns, g.width, w, ax);
    CentreOffset(y, g.rows, g.height, h, ay);
    assert c.x + g.width * 0.5 == w * (x as real + 0.5);
    assert g.height * 0.5 - c.y == h * (y as real + 0.5) by {
      assert c.y == -(ay * h);
    }
    FloorOfCentre(x, w, c.x + g.width * 0.5);
    FloorOfCentre(y, h, g.height * 0.5 - c.y);
  }

  /** Rows grow downward and columns rightward: a lower or more leftward point never gets a smaller row or a larger column. */
  lemma ConversionMonotone(g: Grid, p: Vec, q: Vec)
    requires g.WellFormed()
    ensures p.y <= q.y ==> ScreenToGridPosition(g, p).y >= ScreenToGridPosition(g, q).y
    ensures p.x <= q.x ==> ScreenToGridPosition(g, p).x <= ScreenToGridPosition(g, q).x
  {
    if p.y <= q.y {
      DivideMonotone(g.height * 0.5 - q.y, g.height * 0.5 - p.y, g.CellHeight());
    }
    if p.x <= q.x {
      DivideMonotone(p.x + g.width * 0.5, q.x + g.width * 0.5, g.CellWidth());
    }
  }

  lemma DivideMonotone(a: real, b: real, d: real)
    requires a <= b && d > 0.0
    ensures FloorToInt(a / d) <= FloorToInt(b / d)
  {
    assert a / d <= b / d by {
      assert b / d - a / d == (b - a) / d;
    }
  }

  /** A cell object of CreateGrid: its position, its centre, and whether it shows the highlight colour. */
  datatype GridCell = GridCell(gridPosition: Cell, centre: Vec, highlighted: bool)

  /** CreateGrid: one cell object per position, placed at its centre, in the normal colour. */
  method CreateGrid(grid: Grid) returns (cells: array2<GridCell>)
    requires grid.WellFormed()
    ensures fresh(cells) && cells.Length0 == grid.columns && cells.Length1 == grid.rows
    ensures forall i, j :: 0 <= i < grid.columns && 0 <= j < grid.rows ==>
              cells[i, j] == GridCell(Cell(i, j), CellCentre(grid, i, j), false)
  {
    cells := new GridCell[grid.columns, grid.rows];
    var x := 0;
    while x < grid.columns
      invariant 0 <= x <= grid.columns
      invariant forall i, j :: 0 <= i < x && 0 <= j < grid.rows ==> cells[i, j] == GridCell(Cell(i, j), CellCentre(grid, i, j), false)
    {
      var y := 0;
      while y < grid.rows
        invariant 0 <= y <= grid.rows
        invariant forall i, j :: 0 <= i < x && 0 <= j < grid.rows ==> cells[i, j] == GridCell(Cell(i, j), CellCentre(grid, i, j), false)
        invariant forall j :: 0 <= j < y ==> cells[x, j] == GridCell(Cell(x, j), CellCentre(grid, x, j), false)
      {
        cells[x, y] := GridCell(Cell(x, y), CellCentre(grid, x, y), false);
        y := y + 1;
      }
      x := x + 1;
    }
  }

  class EditorGridVisualizer {
    const grid: Grid
    var gridCells: array2<GridCell>
    /** The note shown in each cell, by kind. */
    var displayedNotes: map<Cell, NoteType>

    /** Cells are laid out as CreateGrid places them, and notes are shown only in valid cells. */
    ghost predicate Valid()
      reads this, gridCells
    {
      && grid.WellFormed()
      && gridCells.Length0 == grid.columns && gridCells.Length1 == grid.rows
      && (forall x, y :: 0 <= x < grid.columns && 0 <= y < grid.rows ==>
            gridCells[x, y].gridPosition == Cell(x, y) && gridCells[x, y].centre == CellCentre(grid, x, y))
      && (forall pos :: pos in displayedNotes ==> IsValidGridPosition(grid, pos))
    }

    /** Start, with CreateGrid: one cell object per position at its centre, none highlighted, no notes shown. */
    constructor (grid: Grid)
      requires grid.WellFormed()
      ensures Valid() && this.grid == grid && displayedNotes == map[]
      ensures forall x, y :: 0 <= x < grid.columns && 0 <= y < grid.rows ==> !gridCells[x, y].highlighted
    {
      var cells := CreateGrid(grid);
      this.grid := grid;
      displayedNotes := map[];
      gridCells := cells;
    }

    /** HighlightCell (`on`) and ResetCellHighlight (not `on`): only a valid cell changes colour. */
    method SetHighlight(pos: Cell, on: bool)
      requires Valid()
      modifies gridCells
      ensures Valid()
      ensures forall x, y :: 0 <= x < grid.columns && 0 <= y < grid.rows ==>
                gridCells[x, y] == if IsValidGridPosition(grid, pos) && Cell(x, y) == pos
                                   then old(gridCells[x, y]).(highlighted := on) else old(gridCells[x, y])
    {
      if IsValidGridPosition(grid, pos) {
        gridCells[pos.x, pos.y] := gridCells[pos.x, pos.y].(highlighted := on);
      }
    }

    method HighlightCell(pos: Cell)
      requires Valid()
      modifies gridCells
      ensures Valid()
      ensures forall x, y :: 0 <= x < grid.columns && 0 <= y < grid.rows ==>
                gridCells[x, y] == if IsValidGridPosition(grid, pos) && Cell(x, y) == pos
                                   then old(gridCells[x, y]).(highlighted := true) else old(gridCells[x, y])
    {
      SetHighlight(pos, true);
    }

    method ResetCellHighlight(pos: Cell)
      requires Valid()
      modifies gridCells
      ensures Valid()
      ensures forall x, y :: 0 <= x < grid.columns && 0 <= y < grid.rows ==>
                gridCells[x, y] == if IsValidGridPosition(grid, pos) && Cell(x, y) == pos
                                   then old(gridCells[x, y]).(highlighted := false) else old(gridCells[x, y])
    {
      SetHighlight(pos, false);
    }

    /** Every cell back to the normal colour. */
    method ResetAllHighlights()
      requires Valid()
      modifies gridCells
      ensures Valid()
      ensures forall x, y :: 0 <= x < grid.columns && 0 <= y < grid.rows ==>
                gridCells[x, y] == old(gridCells[x, y]).(highlighted := false)
    {
      var x := 0;
      while x < grid.columns
        invariant 0 <= x <= grid.columns && Valid()
        invariant forall i, j :: 0 <= i < grid.columns && 0 <= j < grid.rows ==>
                    gridCells[i, j] == if i < x then old(gridCells[i, j]).(highlighted := false) else old(gridCells[i, j])
      {
        var y := 0;
        while y < grid.rows
          invariant 0 <= y <= grid.rows && Valid()
          invariant forall i, j :: 0 <= i < grid.columns && 0 <= j < grid.rows ==>
                      gridCells[i, j] == if i < x || (i == x && j < y) then old(gridCells[i, j]).(highlighted := false) else old(gridCells[i, j])
        {
          gridCells[x, y] := gridCells[x, y].(highlighted := false);
          y := y + 1;
        }
        x := x + 1;
      }
    }

    /** Whether a note is shown in the cell. */
    predicate HasNoteAt(pos: Cell)
      reads this
    {
      pos in displayedNotes
    }

    /** Removes the note shown in the cell, if any; no other cell changes. */
    method RemoveNote(pos: Cell)
      requires Valid()
      modifies this
      ensures Valid() && gridCells == old(gridCells)
      ensures displayedNotes == old(displayedNotes) - {pos} && !HasNoteAt(pos)
    {
      if pos in displayedNotes {
        displayedNotes := displayedNotes - {pos};
      }
    }

    /**
     * Shows a note of the given kind in a valid cell, replacing the note
     * shown there. When the kind's prefab is missing the old note is still
     * removed and nothing is shown. An invalid cell changes nothing.
     */
    method DisplayNote(pos: Cell, noteType: NoteType, hasPrefab: bool)
      requires Valid()
      modifies this
      ensures Valid() && gridCells == old(gridCells)
      ensures !IsValidGridPosition(grid, pos) ==> displayedNotes == old(displayedNotes)
      ensures IsValidGridPosition(grid, pos) && hasPrefab ==> displayedNotes == old(displayedNotes)[pos := noteType]
      ensures IsValidGridPosition(grid, pos) && !hasPrefab ==> displayedNotes == old(displayedNotes) - {pos}
    {
      if !IsValidGridPosition(grid, pos) {
        return;
      }
      RemoveNote(pos);
      if !hasPrefab {
        return;
      }
      displayedNotes := displayedNotes[pos := noteType];
    }

    method ClearAllNotes()
      requires Valid()
      modifies this
      ensures Valid() && gridCells == old(gridCells) && displayedNotes == map[]
    {
      displayedNotes := map[];
    }
  }
}
