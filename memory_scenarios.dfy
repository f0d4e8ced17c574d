/**
 * Whole-lifecycle properties of the store, each stated for every sheet and range
 * that fits its situation: a fresh configuration and store are built, the real
 * operations are called in the order the handlers call them, and the contract
 * states what the comparison must report.
 */
module MemoryScenarios {
  import opened Wrappers
  import opened Excel
  import opened Properties
  import opened Memory

  /** A store that was never set matches nothing and has no before-properties. */
  method NeverCapturedReportsNoMatch(threshold: Int64, sheet: Worksheet, range: Range) returns (c: MemoryComparison)
    ensures !c.locationMatches && !c.dataMatches && !c.LocationMatchesAndDataMatches()
    ensures c.propertiesBeforeChange == None
    ensures !c.isNewRow && !c.isRowDelete && !c.isNewColumn && !c.isColumnDelete
  {
    var configuration := new Configuration(threshold);
    var memory := new ChangeHandlerMemory(configuration);
    c := memory.Compare(sheet, range);
  }

  /**
   * Capturing a region whose cell count is within the threshold and whose read
   * succeeds with the range's own dimensions, then comparing the same region with
   * unchanged data, reports both matches.
   */
  method CaptureThenCompareSameRegion(threshold: Int64, sheet: Worksheet, range: Range) returns (c: MemoryComparison)
    requires CellCount(range.rowCount, range.columnCount) <= threshold
    requires range.rangeData.Read?
    requires range.rangeData.grid.rows == range.rowCount && range.rangeData.grid.columns == range.columnCount
    ensures c.locationMatches && c.dataMatches && c.LocationMatchesAndDataMatches()
    ensures c.propertiesBeforeChange != None && c.propertiesBeforeChange.value.rangeFormulas == Some(range.rangeData.grid)
  {
    var configuration := new Configuration(threshold);
    var memory := new ChangeHandlerMemory(configuration);
    memory.SetMemory(sheet, range);
    c := memory.Compare(sheet, range);
  }

  /**
   * The same, on a store in any prior state: a capture followed by a comparison of
   * the same unchanged region reports both matches.
   */
  method CaptureThenCompare(memory: ChangeHandlerMemory, sheet: Worksheet, range: Range) returns (c: MemoryComparison)
    requires CellCount(range.rowCount, range.columnCount) <= memory.MaxRangeSizeForStoringData()
    requires range.rangeData.Read?
    requires range.rangeData.grid.rows == range.rowCount && range.rangeData.grid.columns == range.columnCount
    modifies memory
    ensures c.locationMatches && c.dataMatches
  {
    memory.SetMemory(sheet, range);
    c := memory.Compare(sheet, range);
  }

  /**
   * Same address, same size, changed data: the location matches, the data does
   * not, the before-properties carry the captured grid and the after-properties
   * the newly read one.
   */
  method SameAddressDifferentData(threshold: Int64, sheet: Worksheet, range1: Range, range2: Range,
                                  before: CellGrid, after: CellGrid)
    returns (c: MemoryComparison)
    requires range1.address == range2.address
    requires range1.rowCount == range2.rowCount && range1.columnCount == range2.columnCount
    requires CellCount(range1.rowCount, range1.columnCount) <= threshold
    requires range1.rangeData == Read(before) && range2.rangeData == Read(after)
    requires before.rows == range1.rowCount && before.columns == range1.columnCount
    requires before != after
    ensures c.locationMatches && !c.dataMatches && !c.LocationMatchesAndDataMatches()
    ensures c.propertiesBeforeChange != None && c.propertiesBeforeChange.value.rangeFormulas == Some(before)
    ensures c.propertiesAfterChange.rangeFormulas == Some(after)
  {
    var configuration := new Configuration(threshold);
    var memory := new ChangeHandlerMemory(configuration);
    memory.SetMemory(sheet, range1);
    c := memory.Compare(sheet, range2);
  }

  /**
   * A region larger than the threshold keeps no grid, so even byte-identical data
   * never matches; the location still matches and the before-grid is absent.
   */
  method OversizedRangeNeverMatchesData(threshold: Int64, sheet: Worksheet, range: Range) returns (c: MemoryComparison)
    requires CellCount(range.rowCount, range.columnCount) > threshold
    ensures c.locationMatches && !c.dataMatches && !c.LocationMatchesAndDataMatches()
    ensures c.propertiesBeforeChange != None && c.propertiesBeforeChange.value.rangeFormulas == None
    ensures c.propertiesAfterChange.rangeFormulas == None
  {
    var configuration := new Configuration(threshold);
    var memory := new ChangeHandlerMemory(configuration);
    memory.SetMemory(sheet, range);
    c := memory.Compare(sheet, range);
  }

  /**
   * The threshold is read from the configuration at every capture: lowering it
   * between two captures on the same store changes what is kept.
   */
  method ThresholdIsReadLive(sheet: Worksheet, range: Range) returns (first: MemoryComparison, second: MemoryComparison)
    requires 1 < CellCount(range.rowCount, range.columnCount) <= 100
    requires range.rangeData.Read?
    requires range.rangeData.grid.rows == range.rowCount && range.rangeData.grid.columns == range.columnCount
    ensures first.LocationMatchesAndDataMatches()
    ensures !second.LocationMatchesAndDataMatches()
  {
    var configuration := new Configuration(100);
    var memory := new ChangeHandlerMemory(configuration);
    memory.SetMemory(sheet, range);
    first := memory.Compare(sheet, range);

    memory.UnsetMemory();
    configuration.maxMemorySize := 1;
    memory.SetMemory(sheet, range);
    second := memory.Compare(sheet, range);
  }

  /**
   * A different range address never matches, whatever the data; the before- and
   * after-properties carry the captured and the live sheet names and addresses.
   */
  method DifferentAddressNeverMatches(threshold: Int64, sheet1: Worksheet, range1: Range, sheet2: Worksheet, range2: Range)
    returns (c: MemoryComparison)
    requires range1.address != range2.address
    ensures !c.locationMatches && !c.dataMatches
    ensures c.propertiesBeforeChange != None
    ensures c.propertiesBeforeChange.value.sheetName == Some(sheet1.name)
    ensures c.propertiesBeforeChange.value.rangeAddress == Some(range1.address)
    ensures c.propertiesAfterChange.sheetName == Some(sheet2.name)
    ensures c.propertiesAfterChange.rangeAddress == Some(range2.address)
  {
    var configuration := new Configuration(threshold);
    var memory := new ChangeHandlerMemory(configuration);
    memory.SetMemory(sheet1, range1);
    c := memory.Compare(sheet2, range2);
  }

  /**
   * Growth and shrinkage of the sheet between a capture and a comparison, with or
   * without a kept grid: each flag holds exactly when its dimension moved in its
   * direction and the live range spans the whole opposite dimension.
   */
  method SheetResizeClassification(threshold: Int64, before: Worksheet, range1: Range, after: Worksheet, range2: Range)
    returns (c: MemoryComparison)
    ensures c.isNewRow <==> after.rowCount > before.rowCount && range2.columnCount == ExcelMaxColumnCount
    ensures c.isRowDelete <==> after.rowCount < before.rowCount && range2.columnCount == ExcelMaxColumnCount
    ensures c.isNewColumn <==> after.columnCount > before.columnCount && range2.rowCount == ExcelMaxRowCount
    ensures c.isColumnDelete <==> after.columnCount < before.columnCount && range2.rowCount == ExcelMaxRowCount
    ensures CellCount(range1.rowCount, range1.columnCount) > threshold ==>
      c.propertiesBeforeChange != None && c.propertiesBeforeChange.value.rangeFormulas == None
  {
    var configuration := new Configuration(threshold);
    var memory := new ChangeHandlerMemory(configuration);
    memory.SetMemory(before, range1);
    c := memory.Compare(after, range2);
  }

  /**
   * The before- and after-properties carry the 64-bit cell counts of the captured
   * and the live range; when the dimensions differ, the live grid is never read
   * (provided the captured read had the captured range's own dimensions).
   */
  method CellCountsReported(threshold: Int64, sheet: Worksheet, range1: Range, range2: Range) returns (c: MemoryComparison)
    requires range1.ReadFitsDimensions()
    ensures c.propertiesBeforeChange != None
    ensures c.propertiesBeforeChange.value.rangeCellCount == Some(CellCount(range1.rowCount, range1.columnCount))
    ensures c.propertiesAfterChange.rangeCellCount == Some(CellCount(range2.rowCount, range2.columnCount))
    ensures c.propertiesBeforeChange.value.sheetRows == Some(sheet.rowCount)
    ensures c.propertiesBeforeChange.value.sheetColumns == Some(sheet.columnCount)
    ensures (range1.rowCount, range1.columnCount) != (range2.rowCount, range2.columnCount) ==>
      c.propertiesAfterChange.rangeFormulas == None && !c.dataMatches
  {
    var configuration := new Configuration(threshold);
    var memory := new ChangeHandlerMemory(configuration);
    memory.SetMemory(sheet, range1);
    c := memory.Compare(sheet, range2);
  }

  /** After a capture and an unset, a comparison reports nothing, as on a fresh store. */
  method CaptureUnsetCompare(threshold: Int64, sheet1: Worksheet, range1: Range, sheet2: Worksheet, range2: Range)
    returns (c: MemoryComparison)
    ensures !c.locationMatches && !c.dataMatches && c.propertiesBeforeChange == None
    ensures !c.isNewRow && !c.isRowDelete && !c.isNewColumn && !c.isColumnDelete
    ensures c.propertiesAfterChange.rangeFormulas == None
  {
    var configuration := new Configuration(threshold);
    var memory := new ChangeHandlerMemory(configuration);
    memory.SetMemory(sheet1, range1);
    memory.UnsetMemory();
    c := memory.Compare(sheet2, range2);
  }
}
