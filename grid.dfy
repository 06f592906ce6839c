/**
 * `GridLayoutManager` (`grid_manager.py`): a `rows` by `cols` grid of cells,
 * each with its position and size as fractions of the window, and the chart
 * assigned to it. Geometry is exact `real` arithmetic.
 */
module Grid {
  import opened Wrappers

  /** A chart object placed in a cell, identified by reference. */
  datatype ChartRef = ChartRef(id: nat)

  /** The dictionary `get_cell_config` returns. */
  datatype CellConfig = CellConfig(width: real, height: real, xOffset: real, yOffset: real)

  datatype GridError =
    | DivisionByZero                        // `ZeroDivisionError` from `total / 0`
    | InvalidCellPosition(row: int, col: int) // the `ValueError` of `get_cell_config`

  /** `GridCell`: the geometry is fixed when the cell is built; only the chart changes. */
  class GridCell {
    const row: int
    const col: int
    const width: real
    const height: real
    const xOffset: real
    const yOffset: real
    var chart: Option<ChartRef>

    constructor (row: int, col: int, width: real, height: real, xOffset: real, yOffset: real)
      ensures this.row == row && this.col == col && this.width == width && this.height == height
      ensures this.xOffset == xOffset && this.yOffset == yOffset && chart == None
    {
      this.row, this.col, this.width, this.height := row, col, width, height;
      this.xOffset, this.yOffset, chart := xOffset, yOffset, None;
    }
  }

  class GridLayoutManager {
    const rows: int
    const cols: int
    const totalWidth: real
    const totalHeight: real
    var cells: map<(int, int), GridCell>

    predicate InGrid(row: int, col: int)
    {
      0 <= row < rows && 0 <= col < cols
    }

    /** `total_width / cols`, the width of every cell. */
    function CellWidth(): real
      requires cols != 0
    {
      totalWidth / cols as real
    }

    /** `total_height / rows`, the height of every cell. */
    function CellHeight(): real
      requires rows != 0
    {
      totalHeight / rows as real
    }

    /** `col * cell_width`. */
    function XOffset(col: int): real
      requires cols != 0
    {
      col as real * CellWidth()
    }

    /** `row * cell_height`. */
    function YOffset(row: int): real
      requires rows != 0
    {
      row as real * CellHeight()
    }

    /** The cell stored under `key` sits at that row and column with the
        grid's share of the width and height. */
    predicate Placed(key: (int, int), cell: GridCell)
      requires rows != 0 && cols != 0
    {
      cell.row == key.0 && cell.col == key.1 &&
      cell.width == CellWidth() && cell.height == CellHeight() &&
      cell.xOffset == XOffset(key.1) && cell.yOffset == YOffset(key.0)
    }

    /** Exactly the in-grid keys, each holding a cell placed at that key. */
    ghost predicate Valid()
      reads this
    {
      rows != 0 && cols != 0 &&
      (forall key :: key in cells <==> InGrid(key.0, key.1)) &&
      (forall key :: key in cells ==> Placed(key, cells[key]))
    }

    /** `__init__` with nonzero dimensions (zero ones are refused by `New`). */
    constructor (rows: int, cols: int, totalWidth: real, totalHeight: real)
      requires rows != 0 && cols != 0
      ensures this.rows == rows && this.cols == cols
      ensures this.totalWidth == totalWidth && this.totalHeight == totalHeight
      ensures Valid()
      ensures forall key :: key in cells ==> fresh(cells[key]) && cells[key].chart == None
    {
      this.rows, this.cols := rows, cols;
      this.totalWidth, this.totalHeight := totalWidth, totalHeight;
      cells := map[];
      new;
      CalculateCells();
    }

    /** `_calculate_cells`: one fresh, unassigned cell per in-grid key, row by row. */
    method CalculateCells()
      requires rows != 0 && cols != 0 && cells == map[]
      modifies this`cells
      ensures Valid()
      ensures forall key :: key in cells ==> fresh(cells[key]) && cells[key].chart == None
    {
      var cellWidth := CellWidth();
      var cellHeight := CellHeight();
      var row := 0;
      while row < rows
        invariant 0 <= row <= if rows < 0 then 0 else rows
        invariant forall key :: key in cells <==> FilledBefore(key, row, 0)
        invariant forall key :: key in cells ==> Placed(key, cells[key])
        invariant forall key :: key in cells ==> fresh(cells[key]) && cells[key].chart == None
      {
        var col := 0;
        while col < cols
          invariant 0 <= col <= if cols < 0 then 0 else cols
          invariant forall key :: key in cells <==> FilledBefore(key, row, col)
          invariant forall key :: key in cells ==> Placed(key, cells[key])
          invariant forall key :: key in cells ==> fresh(cells[key]) && cells[key].chart == None
        {
          var cell := new GridCell(row, col, cellWidth, cellHeight, XOffset(col), YOffset(row));
          cells := cells[(row, col) := cell];
          col := col + 1;
        }
        assert forall key :: FilledBefore(key, row, col) <==> FilledBefore(key, row + 1, 0);
        row := row + 1;
      }
      assert forall key :: FilledBefore(key, row, 0) <==> InGrid(key.0, key.1);
    }

    /** The keys `_calculate_cells` has filled once it reaches `(row, col)`. */
    predicate FilledBefore(key: (int, int), row: int, col: int)
    {
      0 <= key.0 && 0 <= key.1 < cols && (key.0 < row || (key.0 == row && key.1 < col))
    }

    /** `get_cell`: the cell at an in-grid position, `None` elsewhere. */
    method GetCell(row: int, col: int) returns (r: Option<GridCell>)
      requires Valid()
      ensures r.Some? <==> InGrid(row, col)
      ensures r.Some? ==> r.value == cells[(row, col)] && r.value.row == row && r.value.col == col
    {
      if (row, col) in cells {
        r := Some(cells[(row, col)]);
      } else {
        r := None;
      }
    }

    /** `get_cell_config`: the cell's geometry unchanged, or `ValueError` off the grid. */
    method GetCellConfig(row: int, col: int) returns (r: Result<CellConfig, GridError>)
      requires Valid()
      ensures !InGrid(row, col) ==> r == Failure(InvalidCellPosition(row, col))
      ensures InGrid(row, col) ==>
        r == Success(CellConfig(CellWidth(), CellHeight(), XOffset(col), YOffset(row)))
    {
      var cell := GetCell(row, col);
      if cell.None? {
        return Failure(InvalidCellPosition(row, col));
      }
      var c := cell.value;
      r := Success(CellConfig(c.width, c.height, c.xOffset, c.yOffset));
    }

    /** `assign_chart`: sets the chart of the named cell only; off the grid it does nothing. */
    method AssignChart(row: int, col: int, chart: ChartRef)
      requires Valid()
      modifies if (row, col) in cells then {cells[(row, col)]} else {}
      ensures Valid()
      ensures forall key :: key in cells ==>
        cells[key].chart == if key == (row, col) then Some(chart) else old(cells[key].chart)
    {
      var cell := GetCell(row, col);
      if cell.Some? {
        cell.value.chart := Some(chart);
      }
    }
  }

  /** `GridLayoutManager(rows, cols, ...)`, including the `ZeroDivisionError`
      a zero dimension raises before any cell is built. */
  method New(rows: int, cols: int, totalWidth: real, totalHeight: real) returns (r: Result<GridLayoutManager, GridError>)
    ensures r.Failure? <==> rows == 0 || cols == 0
    ensures r.Failure? ==> r.error == DivisionByZero
    ensures r.Success? ==>
      (fresh(r.value) && r.value.Valid() &&
       r.value.rows == rows && r.value.cols == cols &&
       r.value.totalWidth == totalWidth && r.value.totalHeight == totalHeight)
  {
    if rows == 0 || cols == 0 {
      return Failure(DivisionByZero);
    }
    var g := new GridLayoutManager(rows, cols, totalWidth, totalHeight);
    r := Success(g);
  }

  /** With positive dimensions the grid holds exactly `rows * cols` cells. */
  lemma {:induction false} CellCount(g: GridLayoutManager)
    requires g.Valid() && g.rows > 0 && g.cols > 0
    ensures |g.cells| == g.rows * g.cols
  {
    var keys := g.cells.Keys;
    assert keys == GridKeys(g.rows, g.cols) by {
      forall key | key in keys ensures key in GridKeys(g.rows, g.cols) {
        GridKeysMembers(g.rows, g.cols, key);
      }
      forall key | key in GridKeys(g.rows, g.cols) ensures key in keys {
        GridKeysMembers(g.rows, g.cols, key);
      }
    }
    GridKeysSize(g.rows, g.cols);
  }

  /** The keys `(r, c)` with `0 <= r < rows` and `0 <= c < cols`, built row by row. */
  ghost function GridKeys(rows: nat, cols: nat): set<(int, int)>
  {
    if rows == 0 then {} else GridKeys(rows - 1, cols) + RowKeys(rows - 1, cols)
  }

  ghost function RowKeys(row: int, cols: nat): set<(int, int)>
  {
    if cols == 0 then {} else RowKeys(row, cols - 1) + {(row, cols - 1)}
  }

  lemma {:induction false} RowKeysMembers(row: int, cols: nat, key: (int, int))
    ensures key in RowKeys(row, cols) <==> key.0 == row && 0 <= key.1 < cols
    ensures |RowKeys(row, cols)| == cols
  {
    if cols > 0 {
      RowKeysMembers(row, cols - 1, key);
      RowKeysMembers(row, cols - 1, (row, cols - 1));
    }
  }

  lemma {:induction false} GridKeysMembers(rows: nat, cols: nat, key: (int, int))
    ensures key in GridKeys(rows, cols) <==> 0 <= key.0 < rows && 0 <= key.1 < cols
  {
    if rows > 0 {
      GridKeysMembers(rows - 1, cols, key);
      RowKeysMembers(rows - 1, cols, key);
    }
  }

  lemma {:induction false} GridKeysSize(rows: nat, cols: nat)
    ensures |GridKeys(rows, cols)| == rows * cols
  {
    if rows > 0 {
      var last := rows - 1;
      var earlier, row := GridKeys(last, cols), RowKeys(last, cols);
      GridKeysSize(last, cols);
      RowKeysMembers(last, cols, (0, 0));
      forall key | key in row ensures key !in earlier {
        RowKeysMembers(last, cols, key);
        GridKeysMembers(last, cols, key);
      }
      assert earlier !! row;
    }
  }

  /** Neighbouring cells abut: each cell ends where the next one in its row
      (or column) starts, and the last ones end at the total width and height. */
  lemma CellsTile(g: GridLayoutManager, row: int, col: int)
    requires g.Valid() && g.InGrid(row, col)
    ensures col + 1 < g.cols ==>
      g.cells[(row, col)].xOffset + g.cells[(row, col)].width == g.cells[(row, col + 1)].xOffset
    ensures row + 1 < g.rows ==>
      g.cells[(row, col)].yOffset + g.cells[(row, col)].height == g.cells[(row + 1, col)].yOffset
    ensures col == g.cols - 1 ==> g.cells[(row, col)].xOffset + g.cells[(row, col)].width == g.totalWidth
    ensures row == g.rows - 1 ==> g.cells[(row, col)].yOffset + g.cells[(row, col)].height == g.totalHeight
  {
    var w, h := g.CellWidth(), g.CellHeight();
    assert (col + 1) as real * w == col as real * w + w;
    assert (row + 1) as real * h == row as real * h + h;
    assert g.cols as real * w == g.totalWidth;
    assert g.rows as real * h == g.totalHeight;
  }
}
