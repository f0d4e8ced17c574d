/**
 * The snapshot store and diff engine (`ChangeHandlerMemory`): it remembers at most
 * one observed region (sheet identity and size, range address and cell count, and
 * the cell values when they fit the configured budget) and classifies a new
 * observation against it.
 */
module Memory {
  import opened Wrappers
  import opened Excel
  import opened Properties

  /** The widest range of a whole-row edit: every column of the sheet. */
  const ExcelMaxColumnCount: Int32 := 16384
  /** The tallest range of a whole-column edit: every row of the sheet. */
  const ExcelMaxRowCount: Int32 := 1048576

  /** `a * b` for `0 <= a, b <= k` is at most `k * k`. */
  lemma ProductBound(a: nat, b: nat, k: nat)
    requires a <= k && b <= k
    ensures a * b <= k * k
  {
    assert a * b <= k * b by {
      assert (k - a) * b >= 0;
    }
    assert k * b <= k * k by {
      assert k * (k - b) >= 0;
    }
  }

  /**
   * `(long)rows * (long)columns` never overflows: the product of two 32-bit
   * integers lies within the 64-bit range, even at the 32-bit extremes.
   */
  lemma CellCountFits(rows: Int32, columns: Int32)
    ensures -0x8000_0000_0000_0000 <= rows * columns < 0x8000_0000_0000_0000
  {
    var k := 0x8000_0000;
    var a: int, b: int := rows, columns;
    if rows >= 0 && columns >= 0 {
      ProductBound(rows, columns, k);
    } else if rows < 0 && columns < 0 {
      ProductBound(-a, -b, k);
      assert a * b == (-a) * (-b);
    } else if rows < 0 {
      ProductBound(-a, b, k);
      assert a * b == -((-a) * b);
    } else {
      ProductBound(a, -b, k);
      assert a * b == -(a * (-b));
    }
  }

  /** The cell count of a range, computed as a 64-bit product: the exact product, never wrapped. */
  function CellCount(rows: Int32, columns: Int32): (count: Int64)
    ensures count == rows * columns
  {
    CellCountFits(rows, columns);
    rows * columns
  }

  /** The outcome of `string.Equals(a, b, StringComparison.Ordinal)` where `null` is `None`. */
  function OrdinalEquals(a: Option<string>, b: Option<string>): (equal: bool)
    ensures equal <==> a == b
  {
    match (a, b)
    case (None, None) => true
    case (Some(x), Some(y)) => x == y
    case _ => false
  }

  /** Two grids have the same dimensions and ordinally equal cells (`null` equal only to `null`). */
  predicate SameCells(data1: CellGrid, data2: CellGrid)
  {
    && data1.rows == data2.rows
    && data1.columns == data2.columns
    && forall r, c :: 0 <= r < data1.rows && 0 <= c < data1.columns ==> OrdinalEquals(data1.cells[r][c], data2.cells[r][c])
  }

  /** Comparing two grids cell by cell is the same as comparing them as values. */
  lemma SameCellsIsEquality(data1: CellGrid, data2: CellGrid)
    ensures SameCells(data1, data2) <==> data1 == data2
  {
    if SameCells(data1, data2) {
      forall r | 0 <= r < data1.rows
        ensures data1.cells[r] == data2.cells[r]
      {
        assert |data1.cells[r]| == |data2.cells[r]| == data1.columns;
        forall c | 0 <= c < data1.columns
          ensures data1.cells[r][c] == data2.cells[r][c]
        {
        }
      }
      assert data1.cells == data2.cells;
    }
  }

  /**
   * The data-match outcome once the live grid has (or has not) been read: both
   * grids present and equal cell by cell.
   */
  function DataMatches(stored: Option<CellGrid>, live: Option<CellGrid>): (matches: bool)
    ensures matches <==> stored != None && live == stored
  {
    match (stored, live)
    case (Some(data1), Some(data2)) =>
      SameCellsIsEquality(data1, data2);
      SameCells(data1, data2)
    case _ => false
  }

  /** The comparison result (`IMemoryComparison`). */
  datatype MemoryComparison = MemoryComparison(
    locationMatches: bool,
    dataMatches: bool,
    isNewRow: bool,
    isRowDelete: bool,
    isNewColumn: bool,
    isColumnDelete: bool,
    propertiesBeforeChange: Option<ChangeProperties>,
    propertiesAfterChange: ChangeProperties)
  {
    function LocationMatchesAndDataMatches(): (both: bool)
      ensures both <==> locationMatches && dataMatches
    {
      locationMatches && dataMatches
    }
  }

  /** The abstract content of the store: never captured (or cleared), or one captured region. */
  datatype MemoryState =
    | Unset
    | Captured(sheetName: string, sheetRows: Int32, sheetColumns: Int32,
               rangeAddress: string, rangeDataSize: Int64, rangeData: Option<CellGrid>)

  /** The live configuration: its threshold may be changed at any time. */
  class Configuration {
    var maxMemorySize: Int64

    constructor (maxMemorySize: Int64)
      ensures this.maxMemorySize == maxMemorySize
    {
      this.maxMemorySize := maxMemorySize;
    }
  }

  class ChangeHandlerMemory {
    const configuration: Configuration

    var memorySet: bool
    var sheetName: Option<string>
    var sheetRows: Option<Int32>
    var sheetColumns: Option<Int32>
    var rangeAddress: Option<string>
    var rangeDataSize: Option<Int64>
    var rangeData: Option<CellGrid>

    /** The nullable fields are all set or all cleared together, and a grid is only held by a set store. */
    ghost predicate Valid()
      reads this
    {
      && (memorySet <==> sheetName.Some?)
      && (memorySet <==> sheetRows.Some?)
      && (memorySet <==> sheetColumns.Some?)
      && (memorySet <==> rangeAddress.Some?)
      && (memorySet <==> rangeDataSize.Some?)
      && (rangeData.Some? ==> memorySet)
    }

    /** The fields read as one tagged value. */
    ghost function Snapshot(): MemoryState
      reads this
      requires Valid()
    {
      if !memorySet then Unset
      else Captured(sheetName.value, sheetRows.value, sheetColumns.value,
                    rangeAddress.value, rangeDataSize.value, rangeData)
    }

    constructor (configuration: Configuration)
      ensures Valid() && Snapshot() == Unset
      ensures this.configuration == configuration
    {
      this.configuration := configuration;
      memorySet := false;
      sheetName, sheetRows, sheetColumns := None, None, None;
      rangeAddress, rangeDataSize, rangeData := None, None, None;
    }

    /** Read from the configuration on every call, never cached. */
    function MaxRangeSizeForStoringData(): (limit: Int64)
      reads configuration
      ensures limit == configuration.maxMemorySize
    {
      configuration.maxMemorySize
    }

    method UnsetMemory()
      modifies this
      ensures Valid() && Snapshot() == Unset
      ensures !memorySet && sheetName == None && sheetRows == None && sheetColumns == None
      ensures rangeAddress == None && rangeDataSize == None && rangeData == None
    {
      memorySet := false;
      sheetName := None;
      sheetRows := None;
      sheetColumns := None;
      rangeAddress := None;
      rangeDataSize := None;
      rangeData := None;
    }

    method SetMemory(sheet: Worksheet, range: Range)
      modifies this
      ensures Valid()
      ensures Snapshot() == Captured(sheet.name, sheet.rowCount, sheet.columnCount, range.address,
                                     CellCount(range.rowCount, range.columnCount),
                                     if CellCount(range.rowCount, range.columnCount) <= MaxRangeSizeForStoringData()
                                     then TryReadRangeData(range) else None)
    {
      sheetName := Some(sheet.name);
      sheetRows := Some(sheet.rowCount);
      sheetColumns := Some(sheet.columnCount);
      rangeAddress := Some(range.address);

      var size := CellCount(range.rowCount, range.columnCount);
      rangeDataSize := Some(size);
      if size <= MaxRangeSizeForStoringData() {
        rangeData := TryReadRangeData(range);
      } else {
        rangeData := None;
      }
      memorySet := true;
    }

    /** The store's content as seen from outside, or nothing when it is unset. */
    function GetChangePropertiesBeforeChangeOrNull(): (properties: Option<ChangeProperties>)
      reads this
      ensures properties == None <==> !memorySet
      ensures properties != None ==>
        && properties.value.sheetName == sheetName
        && properties.value.sheetRows == sheetRows
        && properties.value.sheetColumns == sheetColumns
        && properties.value.rangeAddress == rangeAddress
        && properties.value.rangeCellCount == rangeDataSize
        && properties.value.rangeFormulas == rangeData
    {
      if !memorySet then None
      else Some(ChangePropertiesImpl(sheetName, sheetColumns, sheetRows, rangeAddress, rangeDataSize, rangeData))
    }

    /** A read that throws degrades to an absent grid; it never propagates. */
    static function TryReadRangeData(range: Range): (data: Option<CellGrid>)
      ensures data == None <==> range.rangeData.Threw?
      ensures data != None ==> range.rangeData == Read(data.value)
    {
      match range.rangeData
      case Read(grid) => Some(grid)
      case Threw(_) => None
    }

    /** The stored sheet name and range address both equal the live ones, ordinally. */
    function CheckLocationMatches(sheet: Worksheet, range: Range): (matches: bool)
      reads this
      ensures matches <==> sheetName == Some(sheet.name) && rangeAddress == Some(range.address)
    {
      OrdinalEquals(sheetName, Some(sheet.name)) && OrdinalEquals(rangeAddress, Some(range.address))
    }

    /**
     * The stored grid is as tall as the live range has rows and as wide as it has
     * columns; a live read that keeps the host's size promise then has the same shape.
     */
    static function CheckRangeSizeMatchesData(data: CellGrid, range: Range): (matches: bool)
      ensures matches <==> |data.cells| == range.rowCount && data.columns == range.columnCount
      ensures matches && range.ReadFitsDimensions() && range.rangeData.Read? ==>
        range.rangeData.grid.rows == data.rows && range.rangeData.grid.columns == data.columns
    {
      data.rows == range.rowCount && data.columns == range.columnCount
    }

    /** Cell-by-cell ordinal comparison, stopping at the first difference. */
    static method CompareDataArrays(data1: CellGrid, data2: CellGrid) returns (equal: bool)
      ensures equal <==> SameCells(data1, data2)
      ensures equal <==> data1 == data2
    {
      SameCellsIsEquality(data1, data2);
      if data1.rows != data2.rows || data1.columns != data2.columns {
        return false;
      }
      for row := 0 to data1.rows
        invariant forall r, c :: 0 <= r < row && 0 <= c < data1.columns ==> data1.cells[r][c] == data2.cells[r][c]
      {
        for col := 0 to data1.columns
          invariant forall r, c :: 0 <= r < row && 0 <= c < data1.columns ==> data1.cells[r][c] == data2.cells[r][c]
          invariant forall c :: 0 <= c < col ==> data1.cells[row][c] == data2.cells[row][c]
        {
          if !OrdinalEquals(data1.cells[row][col], data2.cells[row][col]) {
            return false;
          }
        }
      }
      return true;
    }

    /** The sheet gained rows and the live range spans every column. */
    function CheckForNewRow(sheet: Worksheet, range: Range): (newRow: bool)
      reads this
      ensures newRow <==> sheetRows != None && sheet.rowCount > sheetRows.value && range.columnCount == ExcelMaxColumnCount
    {
      if sheetRows == None || sheet.rowCount <= sheetRows.value then false
      else range.columnCount == ExcelMaxColumnCount
    }

    /** The sheet lost rows and the live range spans every column. */
    function CheckForRowDelete(sheet: Worksheet, range: Range): (rowDelete: bool)
      reads this
      ensures rowDelete <==> sheetRows != None && sheet.rowCount < sheetRows.value && range.columnCount == ExcelMaxColumnCount
    {
      if sheetRows == None || sheet.rowCount >= sheetRows.value then false
      else range.columnCount == ExcelMaxColumnCount
    }

    /** The sheet gained columns and the live range spans every row. */
    function CheckForNewColumn(sheet: Worksheet, range: Range): (newColumn: bool)
      reads this
      ensures newColumn <==> sheetColumns != None && sheet.columnCount > sheetColumns.value && range.rowCount == ExcelMaxRowCount
    {
      if sheetColumns == None || sheet.columnCount <= sheetColumns.value then false
      else range.rowCount == ExcelMaxRowCount
    }

    /** The sheet lost columns and the live range spans every row. */
    function CheckForColumnDelete(sheet: Worksheet, range: Range): (columnDelete: bool)
      reads this
      ensures columnDelete <==> sheetColumns != None && sheet.columnCount < sheetColumns.value && range.rowCount == ExcelMaxRowCount
    {
      if sheetColumns == None || sheet.columnCount >= sheetColumns.value then false
      else range.rowCount == ExcelMaxRowCount
    }

    /**
     * The live grid, read only when the location matches and a stored grid of the
     * live range's dimensions exists; otherwise it is not read at all.
     */
    function NewRangeData(sheet: Worksheet, range: Range): Option<CellGrid>
      reads this
    {
      if CheckLocationMatches(sheet, range) && rangeData != None && CheckRangeSizeMatchesData(rangeData.value, range)
      then TryReadRangeData(range)
      else None
    }

    /** What `Compare` returns for the live sheet and range against the current store. */
    function Comparison(sheet: Worksheet, range: Range): (c: MemoryComparison)
      reads this
      ensures c.dataMatches <==>
        && c.locationMatches
        && rangeData != None
        && rangeData.value.rows == range.rowCount && rangeData.value.columns == range.columnCount
        && range.rangeData == Read(rangeData.value)
      ensures c.propertiesAfterChange.rangeFormulas != None ==>
        c.locationMatches && rangeData != None && CheckRangeSizeMatchesData(rangeData.value, range)
      ensures c.propertiesAfterChange.rangeFormulas != None ==>
        range.rangeData == Read(c.propertiesAfterChange.rangeFormulas.value)
      ensures c.locationMatches && rangeData != None && CheckRangeSizeMatchesData(rangeData.value, range) ==>
        c.propertiesAfterChange.rangeFormulas == TryReadRangeData(range)
      ensures c.dataMatches ==> c.propertiesAfterChange.rangeFormulas == rangeData
      ensures c.dataMatches ==> c.locationMatches
      ensures c.LocationMatchesAndDataMatches() == c.dataMatches
      ensures !(c.isNewRow && c.isRowDelete) && !(c.isNewColumn && c.isColumnDelete)
      ensures c.propertiesAfterChange == ChangePropertiesImpl(
        Some(sheet.name), Some(sheet.columnCount), Some(sheet.rowCount), Some(range.address),
        Some(CellCount(range.rowCount, range.columnCount)), c.propertiesAfterChange.rangeFormulas)
      ensures c.propertiesAfterChange.sheetRows == Some(sheet.rowCount)
      ensures c.propertiesAfterChange.sheetColumns == Some(sheet.columnCount)
      ensures c.propertiesAfterChange.sheetName == Some(sheet.name)
      ensures c.propertiesAfterChange.rangeAddress == Some(range.address)
    {
      var newRangeData := NewRangeData(sheet, range);
      var dataMatches := DataMatches(rangeData, newRangeData);
      MemoryComparison(
        locationMatches := CheckLocationMatches(sheet, range),
        dataMatches := dataMatches,
        isNewRow := CheckForNewRow(sheet, range),
        isRowDelete := CheckForRowDelete(sheet, range),
        isNewColumn := CheckForNewColumn(sheet, range),
        isColumnDelete := CheckForColumnDelete(sheet, range),
        propertiesBeforeChange := GetChangePropertiesBeforeChangeOrNull(),
        propertiesAfterChange := ChangePropertiesImpl(
          Some(sheet.name), Some(sheet.columnCount), Some(sheet.rowCount), Some(range.address),
          Some(CellCount(range.rowCount, range.columnCount)), newRangeData))
    }

    /** Read-only: no `modifies` clause, so no stored field can change. */
    method Compare(sheet: Worksheet, range: Range) returns (c: MemoryComparison)
      ensures c == Comparison(sheet, range)
    {
      var dataMatches := false;
      var newRangeData: Option<CellGrid> := None;

      var locationMatches := CheckLocationMatches(sheet, range);
      if locationMatches && rangeData != None && CheckRangeSizeMatchesData(rangeData.value, range) {
        newRangeData := TryReadRangeData(range);
        if newRangeData != None {
          dataMatches := CompareDataArrays(rangeData.value, newRangeData.value);
        }
      }

      var propertiesBeforeChange := GetChangePropertiesBeforeChangeOrNull();
      var cellCountAfterChange := CellCount(range.rowCount, range.columnCount);
      var propertiesAfterChange := ChangePropertiesImpl(
        Some(sheet.name), Some(sheet.columnCount), Some(sheet.rowCount), Some(range.address),
        Some(cellCountAfterChange), newRangeData);

      c := MemoryComparison(
        locationMatches := locationMatches,
        dataMatches := dataMatches,
        isNewRow := CheckForNewRow(sheet, range),
        isRowDelete := CheckForRowDelete(sheet, range),
        isNewColumn := CheckForNewColumn(sheet, range),
        isColumnDelete := CheckForColumnDelete(sheet, range),
        propertiesBeforeChange := propertiesBeforeChange,
        propertiesAfterChange := propertiesAfterChange);
    }

    /**
     * Identity: right after a capture that kept the grid (the cell count was within
     * the threshold and the read succeeded with the range's own dimensions),
     * comparing the same sheet and range reports both a location and a data match.
     */
    lemma IdentityAfterCapture(sheet: Worksheet, range: Range)
      requires Valid()
      requires Snapshot() == Captured(sheet.name, sheet.rowCount, sheet.columnCount, range.address,
                                      CellCount(range.rowCount, range.columnCount), TryReadRangeData(range))
      requires range.rangeData.Read?
      requires range.rangeData.grid.rows == range.rowCount && range.rangeData.grid.columns == range.columnCount
      ensures Comparison(sheet, range).locationMatches
      ensures Comparison(sheet, range).dataMatches
      ensures Comparison(sheet, range).LocationMatchesAndDataMatches()
    {
    }

    /**
     * A store that was never set, or was unset, reports nothing: no location match,
     * no data match, no before-properties and none of the four structural flags.
     */
    lemma UnsetStoreReportsNothing(sheet: Worksheet, range: Range)
      requires Valid() && Snapshot() == Unset
      ensures var c := Comparison(sheet, range);
        && !c.locationMatches && !c.dataMatches && c.propertiesBeforeChange == None
        && !c.isNewRow && !c.isRowDelete && !c.isNewColumn && !c.isColumnDelete
        && c.propertiesAfterChange.rangeFormulas == None
    {
    }

    /**
     * Every positive outcome needs a captured store: a location match, a data match
     * and each structural flag all imply that the memory is set.
     */
    lemma PositiveOutcomesNeedCapture(sheet: Worksheet, range: Range)
      requires Valid()
      ensures var c := Comparison(sheet, range);
        (c.locationMatches || c.dataMatches || c.isNewRow || c.isRowDelete || c.isNewColumn || c.isColumnDelete)
        ==> memorySet
    {
    }

    /**
     * A capture whose grid was not kept (too large, or the read threw) never yields a
     * data match, and its before-properties carry an absent grid, not an empty one.
     */
    lemma NoStoredGridNeverMatchesData(sheet: Worksheet, range: Range)
      requires Valid() && memorySet && rangeData == None
      ensures !Comparison(sheet, range).dataMatches
      ensures Comparison(sheet, range).propertiesBeforeChange == Some(ChangePropertiesImpl(
        sheetName, sheetColumns, sheetRows, rangeAddress, rangeDataSize, None))
      ensures Comparison(sheet, range).propertiesAfterChange.rangeFormulas == None
    {
    }
  }
}
