/**
 * The host-facing view of a worksheet and a range (the `IWorksheet` and `IRange`
 * interfaces), as plain input values, together with the machine integers and the
 * two-dimensional string grid they carry.
 */
module Excel {
  import opened Wrappers

  /** C#'s `int`. */
  type Int32 = x: int | -0x8000_0000 <= x < 0x8000_0000

  /** C#'s `long`. */
  type Int64 = x: int | -0x8000_0000_0000_0000 <= x < 0x8000_0000_0000_0000

  /**
   * A `string[,]`: `rows` is `GetLength(0)`, `columns` is `GetLength(1)` and
   * `cells[r][c]` is the element at `[r, c]`, which may be `null` (`None`), as the
   * elements of a freshly allocated `string[,]` are.
   */
  datatype Grid = Grid(rows: nat, columns: nat, cells: seq<seq<Option<string>>>)
  {
    predicate Rectangular()
    {
      |cells| == rows && forall r :: 0 <= r < |cells| ==> |cells[r]| == columns
    }
  }

  /** A C# two-dimensional array is always rectangular. */
  type CellGrid = g: Grid | g.Rectangular() witness Grid(0, 0, [])

  /**
   * What reading `IRange.RangeData` does: it yields a grid, or the host throws
   * (the reason stands for the exception).
   */
  datatype ReadOutcome = Read(grid: CellGrid) | Threw(reason: string)

  /** `IWorksheet`: the sheet's name and its used row and column counts. */
  datatype Worksheet = Worksheet(name: string, rowCount: Int32, columnCount: Int32)

  /** `IRange`: the address, the range's own dimensions and the outcome of reading its cell values. */
  datatype Range = Range(address: string, rowCount: Int32, columnCount: Int32, rangeData: ReadOutcome)
  {
    /** The host's promise: a successful read is exactly `rowCount` by `columnCount`. */
    predicate ReadFitsDimensions()
    {
      rangeData.Read? ==> rangeData.grid.rows == rowCount && rangeData.grid.columns == columnCount
    }
  }
}
