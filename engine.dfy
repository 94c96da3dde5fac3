/** The Game of Life engine: a grid object whose cells are written in place,
    with bounds-checked access, the neighbour scan and the generation step.
    Each operation is proved against the value-level rules of module Rules. */
module Engine {
  import opened Pos
  import opened Results
  import Rules

  class GoL {
    /** The cells, column-major: `cells[x, y]` is column `x`, row `y`. */
    const cells: array2<bool>
    /** The dimensions, fixed at construction. */
    const dims: Dimensions
    /** The grid this object currently holds, as a value. */
    ghost var model: Rules.Grid

    /** The array holds exactly one cell per grid coordinate, and `model` is its content. */
    ghost predicate Valid()
      reads this, cells
    {
      cells.Length0 == dims.width && cells.Length1 == dims.height &&
      Rules.WellFormed(model) && model.dims == dims &&
      forall x, y :: 0 <= x < dims.width && 0 <= y < dims.height ==> model.cells[x][y] == cells[x, y]
    }

    /** A grid of the given dimensions with every cell dead. */
    constructor (dims: Dimensions)
      ensures Valid() && fresh(cells) && this.dims == dims
      ensures model == Rules.NewGrid(dims)
    {
      this.dims := dims;
      cells := new bool[dims.width, dims.height]((x, y) => false);
      model := Rules.NewGrid(dims);
    }

    /** The state of the cell at `pos`, or an error when `pos` is off the grid. */
    function GetCellAt(pos: Position): (r: Result<bool>)
      requires Valid()
      reads this, cells
      ensures r == Rules.Get(model, pos)
    {
      match Rules.BoundCheck(dims, pos)
      case Err(msg) => Err(msg)
      case Ok(_) => Ok(cells[pos.x, pos.y])
    }

    /** Writes `val` at `pos` when `pos` is on the grid; fails and changes
        nothing otherwise. */
    method SetCellAt(pos: Position, val: bool) returns (r: Result<()>)
      requires Valid()
      modifies this, cells
      ensures Valid()
      ensures r == Rules.BoundCheck(dims, pos)
      ensures model == Rules.Set(old(model), pos, val)
    {
      match Rules.BoundCheck(dims, pos)
      case Err(msg) =>
        r := Err(msg);
      case Ok(_) =>
        cells[pos.x, pos.y] := val;
        model := Rules.Set(model, pos, val);
        r := Ok(());
    }

    /** Counts the live cells among the eight around `pos`, scanning the offsets
        column by column; fails only when `pos` itself is off the grid. */
    method GetNeighborsAliveCount(pos: Position) returns (r: Result<nat>)
      requires Valid()
      ensures r == Rules.NeighborCount(model, pos)
    {
      match Rules.BoundCheck(dims, pos)
      case Err(msg) =>
        r := Err(msg);
      case Ok(_) =>
        var count: nat := 0;
        var x, y := pos.x as int, pos.y as int;
        var h, v := -1, -1;
        while h < 2
          invariant -1 <= h <= 2 && v == -1
          invariant count == Rules.ScanCount(model, pos, h, v)
        {
          while v < 2
            invariant -1 <= h <= 1 && -1 <= v <= 2
            invariant count == Rules.ScanCount(model, pos, h, v)
          {
            if x + h < 0 || y + v < 0 {
              v := v + 1;
              continue;
            }
            var cell := GetCellAt(Position(x + h, y + v));
            Rules.CountedSpec(model, pos, h, v);
            if cell.Ok? {
              if cell.value && !(h == 0 && v == 0) {
                count := count + 1;
              }
            }
            v := v + 1;
          }
          h := h + 1;
          v := -1;
        }
        r := Ok(count);
    }

    /** Builds the next generation in a fresh grid, cell by cell; `gol` itself
        is only read. */
    static method SimulateNextStep(gol: GoL) returns (r: Result<GoL>)
      requires gol.Valid()
      ensures r.Ok? && fresh(r.value) && fresh(r.value.cells) && r.value.Valid()
      ensures r.value.model == Rules.Step(gol.model)
      ensures unchanged(gol, gol.cells)
    {
      ghost var g := gol.model;
      var result := new GoL(gol.dims);
      for x := 0 to gol.cells.Length0
        invariant result.Valid() && fresh(result) && fresh(result.cells) && result.dims == gol.dims
        invariant forall i, j :: 0 <= i < gol.dims.width && 0 <= j < gol.dims.height ==>
                    result.model.cells[i][j] == (i < x && Rules.NextCell(g, i, j))
      {
        for y := 0 to gol.cells.Length1
          invariant result.Valid() && fresh(result) && fresh(result.cells) && result.dims == gol.dims
          invariant forall i, j :: 0 <= i < gol.dims.width && 0 <= j < gol.dims.height ==>
                      result.model.cells[i][j] == ((i < x || (i == x && j < y)) && Rules.NextCell(g, i, j))
        {
          var p := Position(x, y);
          var neighbors := gol.GetNeighborsAliveCount(p);
          var workingCell := gol.GetCellAt(p);
          var n, alive := neighbors.value, workingCell.value;
          var written: Result<()>;
          if n < 2 {
            written := result.SetCellAt(p, false);
            assert written.Ok?;
          } else if (n == 2 || n == 3) && alive {
            written := result.SetCellAt(p, true);
            assert written.Ok?;
          } else if n > 3 {
            written := result.SetCellAt(p, false);
            assert written.Ok?;
          } else if n == 3 {
            written := result.SetCellAt(p, true);
            assert written.Ok?;
          }
        }
      }
      Rules.GridExtensionality(result.model, Rules.Step(g));
      r := Ok(result);
    }
  }
}
