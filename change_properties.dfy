/**
 * `ChangePropertiesImpl`: the immutable record that describes a region before or
 * after a change. Each nullable property of the source is an `Option`; a datatype
 * value cannot be changed once built, which is what the get-only properties give.
 */
module Properties {
  import opened Wrappers
  import opened Excel

  /** The constructor takes the columns before the rows, as the source's does. */
  datatype ChangeProperties = ChangePropertiesImpl(
    sheetName: Option<string>,
    sheetColumns: Option<Int32>,
    sheetRows: Option<Int32>,
    rangeAddress: Option<string>,
    rangeCellCount: Option<Int64>,
    rangeFormulas: Option<CellGrid>)

  /**
   * Every getter returns exactly the argument given to the constructor in that
   * position, and a record is rebuilt exactly from its getters.
   */
  lemma GettersReturnConstructorArguments(
    sheetName: Option<string>, sheetColumns: Option<Int32>, sheetRows: Option<Int32>,
    rangeAddress: Option<string>, rangeCellCount: Option<Int64>, rangeFormulas: Option<CellGrid>)
    ensures var p := ChangePropertiesImpl(sheetName, sheetColumns, sheetRows, rangeAddress, rangeCellCount, rangeFormulas);
      && p.sheetName == sheetName && p.sheetColumns == sheetColumns && p.sheetRows == sheetRows
      && p.rangeAddress == rangeAddress && p.rangeCellCount == rangeCellCount && p.rangeFormulas == rangeFormulas
      && ChangePropertiesImpl(p.sheetName, p.sheetColumns, p.sheetRows, p.rangeAddress, p.rangeCellCount, p.rangeFormulas) == p
  {
  }
}
