/** Text rendering of a rectangular window of a grid: one string per window
    row, `'1'` for a live cell and `' '` for a dead one. A window that does not
    fit inside the grid is refused; no padding is produced. */
module Display {
  import opened Pos
  import opened Results
  import Rules
  import Engine

  /** The character that shows a cell. */
  function Glyph(alive: bool): char {
    if alive then '1' else ' '
  }

  /** Row `y` of the window at `origin` after its first `k` columns have been
      probed; a probe that fails adds nothing. */
  function ScanRow(g: Rules.Grid, origin: Position, y: nat, k: nat): string
    requires Rules.WellFormed(g)
  {
    if k == 0 then ""
    else
      ScanRow(g, origin, y, k - 1) +
      match Rules.Get(g, Position(origin.x + k - 1, origin.y + y))
      case Ok(val) => [Glyph(val)]
      case Err(_) => ""
  }

  /** The first `k` rows of the window at `origin` with extent `window`. */
  function ScanRows(g: Rules.Grid, origin: Position, window: Dimensions, k: nat): seq<string>
    requires Rules.WellFormed(g)
  {
    if k == 0 then []
    else ScanRows(g, origin, window, k - 1) + [ScanRow(g, origin, k - 1, window.width)]
  }

  /** The rendered window, or an error when it reaches past the grid in either axis. */
  function Viewport(g: Rules.Grid, origin: Position, window: Dimensions): Result<seq<string>>
    requires Rules.WellFormed(g)
  {
    var size := Dimensions(window.width + origin.x, window.height + origin.y);
    if size.width > g.dims.width || size.height > g.dims.height then Err(OutOfBounds)
    else Ok(ScanRows(g, origin, window, window.height))
  }

  /** Inside the grid no probe fails, so a row holds one glyph per column. */
  lemma {:induction false} ScanRowSpec(g: Rules.Grid, origin: Position, y: nat, k: nat)
    requires Rules.WellFormed(g)
    requires origin.x + k <= g.dims.width && origin.y + y < g.dims.height
    ensures |ScanRow(g, origin, y, k)| == k
    ensures forall j :: 0 <= j < k ==> ScanRow(g, origin, y, k)[j] == Glyph(g.cells[origin.x + j][origin.y + y])
  {
    if k > 0 {
      ScanRowSpec(g, origin, y, k - 1);
    }
  }

  lemma {:induction false} ScanRowsSpec(g: Rules.Grid, origin: Position, window: Dimensions, k: nat)
    requires Rules.WellFormed(g)
    ensures |ScanRows(g, origin, window, k)| == k
    ensures forall i :: 0 <= i < k ==> ScanRows(g, origin, window, k)[i] == ScanRow(g, origin, i, window.width)
  {
    if k > 0 {
      ScanRowsSpec(g, origin, window, k - 1);
    }
  }

  /** The viewport fails exactly when the window reaches past the grid; otherwise it
      has `window.height` rows of `window.width` characters, and character `j` of
      row `i` is `'1'` exactly when cell `(origin.x + j, origin.y + i)` is alive. */
  lemma ViewportSpec(g: Rules.Grid, origin: Position, window: Dimensions)
    requires Rules.WellFormed(g)
    ensures Viewport(g, origin, window).Err? <==>
              origin.x + window.width > g.dims.width || origin.y + window.height > g.dims.height
    ensures Viewport(g, origin, window).Ok? ==>
              var rows := Viewport(g, origin, window).value;
              |rows| == window.height &&
              forall i :: 0 <= i < |rows| ==>
                |rows[i]| == window.width &&
                forall j :: 0 <= j < |rows[i]| ==>
                  rows[i][j] in {'1', ' '} &&
                  (rows[i][j] == '1' <==> Rules.Get(g, Position(origin.x + j, origin.y + i)) == Ok(true))
  {
    if Viewport(g, origin, window).Ok? {
      ScanRowsSpec(g, origin, window, window.height);
      forall i | 0 <= i < window.height
        ensures |ScanRow(g, origin, i, window.width)| == window.width
        ensures forall j :: 0 <= j < window.width ==>
                  ScanRow(g, origin, i, window.width)[j] == Glyph(g.cells[origin.x + j][origin.y + i])
      {
        ScanRowSpec(g, origin, i, window.width);
      }
    }
  }

  /** Renders the window of `gol` at `origin` with extent `window`; `gol` is only read. */
  method GetViewportData(origin: Position, window: Dimensions, gol: Engine.GoL) returns (r: Result<seq<string>>)
    requires gol.Valid()
    ensures r == Viewport(gol.model, origin, window)
    ensures unchanged(gol, gol.cells)
  {
    var size := Dimensions(window.width + origin.x, window.height + origin.y);
    if size.width > gol.dims.width || size.height > gol.dims.height {
      return Err(OutOfBounds);
    }
    ghost var g := gol.model;
    var result: seq<string> := [];
    var x, y := 0, 0;
    while y < window.height
      invariant y <= window.height && x == 0
      invariant result == ScanRows(g, origin, window, y)
    {
      var row := "";
      while x < window.width
        invariant x <= window.width
        invariant row == ScanRow(g, origin, y, x)
      {
        var cell := gol.GetCellAt(Position(origin.x + x, origin.y + y));
        if cell.Ok? {
          if cell.value { row := row + "1"; }
          else { row := row + " "; }
        }
        x := x + 1;
      }
      result := result + [row];
      y := y + 1;
      x := 0;
    }
    r := Ok(result);
  }

  /** Extraction only reads the grid: two calls with the same arguments give the same rows. */
  method GetViewportDataTwice(origin: Position, window: Dimensions, gol: Engine.GoL)
    returns (first: Result<seq<string>>, second: Result<seq<string>>)
    requires gol.Valid()
    ensures first == second
  {
    first := GetViewportData(origin, window, gol);
    second := GetViewportData(origin, window, gol);
  }
}
