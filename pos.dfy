/** Grid coordinates and extents. Both components are unbounded naturals: the
    source's `usize` fields are treated as mathematical integers. */
module Pos {

  /** A cell or a window origin: `x` selects the column, `y` the row. */
  datatype Position = Position(x: nat, y: nat)

  /** The extent of a grid or of a viewport window. */
  datatype Dimensions = Dimensions(width: nat, height: nat)
}
