# Change-handler memory: a Dafny model

This project models the snapshot/diff engine of the Excel change handler: the
`ChangeHandlerMemory` store and the `ChangePropertiesImpl` record it produces.

The store remembers at most one observed region of a worksheet:

- the sheet's name and its row and column counts;
- the range's address and its cell count, a 64-bit product;
- the range's cell values, kept only when the cell count is within a threshold.

The threshold is read from the live configuration at every capture.

- `SetMemory` captures a region.
- `UnsetMemory` clears the store.
- `Compare` reads a new observation against the store and never changes it. It reports:
  - whether the location matches (ordinal equality of sheet name and range address);
  - whether the data matches (a stored grid of the live range's size, equal cell by cell);
  - four structural flags: new row, row delete, new column, column delete;
  - a before projection and an after projection of the region's properties.

Files:

- `wrappers.dfy`: `Option`, which stands for C#'s `null`.
- `excel.dfy`: the host-facing inputs, all plain values:
  - `Int32` and `Int64`;
  - the rectangular `CellGrid` (a `string[,]` whose cells may be null);
  - `ReadOutcome`, the result of reading `IRange.RangeData`: a grid, or the host threw;
  - `Worksheet` and `Range`.
- `change_properties.dfy`: the `ChangeProperties` datatype. Its constructor `ChangePropertiesImpl` takes the columns before the rows, as the source's does.
- `change_handler_memory.dfy`: the stateful parts and their specification:
  - the `Configuration` class, whose `maxMemorySize` may be reassigned at any time;
  - the `ChangeHandlerMemory` class, with the source's seven fields as mutable fields and a reference to the configuration;
  - the specification function `Comparison` and the lemmas about it.
- `memory_scenarios.dfy`: lifecycle properties of the store, each stated for every input that fits. Each calls the real methods in the order the handlers call them; all but `CaptureThenCompare` start from a fresh configuration and store.

Modelling choices:

- `MaxRangeSizeForStoringData` reads `configuration.maxMemorySize` on every call, so a changed threshold takes effect at the next capture.
- `CheckRangeSizeMatchesData` compares the stored grid's two lengths with the live range's counts.
- `NewRangeData` is the live grid as `Compare` obtains it. It is read only when the location matches and a stored grid of the live range's size exists. Otherwise it is absent.
- `Compare` is a method because it calls the loop method `CompareDataArrays`. It has no `modifies` clause, so Dafny guarantees it changes no field of the store.
- `LocationMatchesAndDataMatches` is `locationMatches && dataMatches`.

## Model

| member | source | states |
|---|---|---|
| `Properties.GettersReturnConstructorArguments` | ExcelChangeHandler/ChangeHandling/Memory/ChangePropertiesImpl.cs:19-27 | every getter returns exactly its constructor argument, in the constructor's column-before-row order; a record rebuilt from its getters is the same record |
| `Memory.CellCountFits` | ExcelChangeHandler/ChangeHandling/Memory/ChangeHandlerMemory.cs:47 | the product of two 32-bit counts always lies within the 64-bit range, even at the 32-bit extremes, so the cell count never overflows |
| `Memory.CellCount` | ExcelChangeHandler/ChangeHandling/Memory/ChangeHandlerMemory.cs:47 | the 64-bit cell count is the exact product of the range's rows and columns, never wrapped |
| `Memory.OrdinalEquals` | ExcelChangeHandler/ChangeHandling/Memory/ChangeHandlerMemory.cs:109-110 | ordinal string equality on nullable strings (location fields and grid cells) is exact equality: null equals only null, and a null never equals a string |
| `Memory.SameCellsIsEquality` | ExcelChangeHandler/ChangeHandling/Memory/ChangeHandlerMemory.cs:118-136 | two grids with equal dimensions and ordinally equal cells (null cells included) are the same grid, and conversely |
| `Memory.DataMatches` | ExcelChangeHandler/ChangeHandling/Memory/ChangeHandlerMemory.cs:68 | data matches exactly when a stored grid exists and the live read produced that same grid; a failed read never matches |
| `Memory.MemoryComparison.LocationMatchesAndDataMatches` | ExcelChangeHandlerTest/ChangeHandler/Memory/ChangeHandlerMemoryTest.cs:23-24 | true exactly when both the location and the data match |
| `Memory.Configuration.constructor` | ExcelChangeHandler/ChangeHandling/Memory/ChangeHandlerMemory.cs:13-15 | the configuration starts with the given threshold |
| `Memory.ChangeHandlerMemory.constructor` | ExcelChangeHandler/ChangeHandling/Memory/ChangeHandlerMemory.cs:24-27 | a new store is unset, every nullable field is null, and it keeps the given configuration |
| `Memory.ChangeHandlerMemory.MaxRangeSizeForStoringData` | ExcelChangeHandler/ChangeHandling/Memory/ChangeHandlerMemory.cs:15 | the threshold is the configuration's current value, read at each call and never cached |
| `Memory.ChangeHandlerMemory.UnsetMemory` | ExcelChangeHandler/ChangeHandling/Memory/ChangeHandlerMemory.cs:29-38 | every field is cleared and the store is unset, whatever its previous state, so a second call leaves the same state as the first |
| `Memory.ChangeHandlerMemory.SetMemory` | ExcelChangeHandler/ChangeHandling/Memory/ChangeHandlerMemory.cs:40-57 | records the sheet name and dimensions, the range address and its 64-bit cell count; keeps the read grid only when the cell count is at most the threshold as configured at this call (absent if the read threw), and an absent grid otherwise; marks the store set |
| `Memory.ChangeHandlerMemory.GetChangePropertiesBeforeChangeOrNull` | ExcelChangeHandler/ChangeHandling/Memory/ChangeHandlerMemory.cs:85-92 | null exactly when the store is unset; otherwise a verbatim copy of the stored fields, rows as rows and columns as columns, an absent grid included |
| `Memory.ChangeHandlerMemory.TryReadRangeData` | ExcelChangeHandler/ChangeHandling/Memory/ChangeHandlerMemory.cs:94-105 | a read that throws yields an absent grid and does not propagate; a successful read yields exactly the host's grid |
| `Memory.ChangeHandlerMemory.CheckLocationMatches` | ExcelChangeHandler/ChangeHandling/Memory/ChangeHandlerMemory.cs:107-111 | true exactly when the stored sheet name and the stored range address are both present and equal to the live ones |
| `Memory.ChangeHandlerMemory.CheckRangeSizeMatchesData` | ExcelChangeHandler/ChangeHandling/Memory/ChangeHandlerMemory.cs:113-116 | true exactly when the stored grid has as many rows as the live range and as many columns; a live read that keeps the host's size promise then has the stored grid's shape |
| `Memory.ChangeHandlerMemory.CompareDataArrays` | ExcelChangeHandler/ChangeHandling/Memory/ChangeHandlerMemory.cs:118-136 | the nested loop with early exit returns true exactly when the dimensions agree and every cell is ordinally equal (null only to null), which is exactly grid equality |
| `Memory.ChangeHandlerMemory.CheckForNewRow` | ExcelChangeHandler/ChangeHandling/Memory/ChangeHandlerMemory.cs:138-145 | true exactly when stored rows are known, the live sheet has more rows, and the live range spans all 16384 columns |
| `Memory.ChangeHandlerMemory.CheckForRowDelete` | ExcelChangeHandler/ChangeHandling/Memory/ChangeHandlerMemory.cs:147-154 | true exactly when stored rows are known, the live sheet has fewer rows, and the live range spans all 16384 columns |
| `Memory.ChangeHandlerMemory.CheckForNewColumn` | ExcelChangeHandler/ChangeHandling/Memory/ChangeHandlerMemory.cs:156-163 | true exactly when stored columns are known, the live sheet has more columns, and the live range spans all 1048576 rows |
| `Memory.ChangeHandlerMemory.CheckForColumnDelete` | ExcelChangeHandler/ChangeHandling/Memory/ChangeHandlerMemory.cs:165-172 | true exactly when stored columns are known, the live sheet has fewer columns, and the live range spans all 1048576 rows |
| `Memory.ChangeHandlerMemory.Comparison` | ExcelChangeHandler/ChangeHandling/Memory/ChangeHandlerMemory.cs:59-83 | data matches exactly when the location matches, a stored grid exists, its size equals the live range's, and the live read returns that grid; the after grid is the live read outcome exactly when that step ran (an absent grid if the read threw) and absent otherwise; a data match implies a location match, so `LocationMatchesAndDataMatches` equals the data match; new and delete are never both reported on one dimension; the after-properties carry the live name, rows as rows, columns as columns, address and 64-bit cell count |
| `Memory.ChangeHandlerMemory.Compare` | ExcelChangeHandler/ChangeHandling/Memory/ChangeHandlerMemory.cs:59-83 | returns exactly `Comparison` of the live sheet and range; with no `modifies` clause it cannot change any stored field |
| `Memory.ChangeHandlerMemory.IdentityAfterCapture` | ExcelChangeHandler/ChangeHandling/Memory/ChangeHandlerMemory.cs:40-69 | after a capture that kept a grid of the range's own size, comparing the same sheet and range reports location and data match |
| `Memory.ChangeHandlerMemory.UnsetStoreReportsNothing` | ExcelChangeHandler/ChangeHandling/Memory/ChangeHandlerMemory.cs:29-38 | an unset store reports no location match, no data match, null before-properties, no structural flag, and no after grid |
| `Memory.ChangeHandlerMemory.PositiveOutcomesNeedCapture` | ExcelChangeHandler/ChangeHandling/Memory/ChangeHandlerMemory.cs:107-172 | a location match, a data match or any structural flag implies the store is set |
| `Memory.ChangeHandlerMemory.NoStoredGridNeverMatchesData` | ExcelChangeHandler/ChangeHandling/Memory/ChangeHandlerMemory.cs:61-69 | with no stored grid the data never matches, the live grid is not read, and the before-properties carry an absent grid |
| `MemoryScenarios.NeverCapturedReportsNoMatch` | ExcelChangeHandlerTest/ChangeHandler/Memory/ChangeHandlerMemoryTest.cs:15-25 | a store that was never set reports no match, no before-properties and no structural flag |
| `MemoryScenarios.CaptureThenCompareSameRegion` | ExcelChangeHandlerTest/ChangeHandler/Memory/ChangeHandlerMemoryTest.cs:77-92 | on a fresh store, capturing a region within the threshold and comparing it unchanged reports both matches, and the before grid is the captured one |
| `MemoryScenarios.CaptureThenCompare` | ExcelChangeHandlerTest/ChangeHandler/Memory/ChangeHandlerMemoryTest.cs:28-40 | the same identity on a store in any prior state |
| `MemoryScenarios.SameAddressDifferentData` | ExcelChangeHandlerTest/ChangeHandler/Memory/ChangeHandlerMemoryTest.cs:59-74 | same address and size with changed data: the location matches, the data does not, the before grid is the captured one and the after grid the newly read one |
| `MemoryScenarios.OversizedRangeNeverMatchesData` | ExcelChangeHandlerTest/ChangeHandler/Memory/ChangeHandlerMemoryTest.cs:95-114 | a region above the threshold still matches in location but never in data; the before and after grids are absent |
| `MemoryScenarios.ThresholdIsReadLive` | ExcelChangeHandlerTest/ChangeHandler/Memory/ChangeHandlerMemoryTest.cs:117-150 | with threshold 100 a capture of 2 to 100 cells matches; after an unset and lowering the threshold to 1 on the same configuration object, the next capture no longer matches |
| `MemoryScenarios.DifferentAddressNeverMatches` | ExcelChangeHandlerTest/ChangeHandler/Memory/ChangeHandlerMemoryTest.cs:350-373 | a different range address never matches; before-properties carry the captured sheet name and address, after-properties the live ones |
| `MemoryScenarios.SheetResizeClassification` | ExcelChangeHandlerTest/ChangeHandler/Memory/ChangeHandlerMemoryTest.cs:153-347 | each structural flag holds exactly when its sheet dimension grew or shrank and the live range spans the full opposite dimension, whether or not a grid was kept |
| `MemoryScenarios.CellCountsReported` | ExcelChangeHandlerTest/ChangeHandler/Memory/ChangeHandlerMemoryTest.cs:394-438 | before- and after-properties carry the captured and live 64-bit cell counts and the captured rows and columns unswapped; with different range dimensions the live grid is not read and data does not match |
| `MemoryScenarios.CaptureUnsetCompare` | ExcelChangeHandler/ChangeHandling/Memory/ChangeHandlerMemory.cs:29-38 | after a capture followed by an unset, a comparison reports nothing, as on a fresh store |

## Left out

- Logging: `Log.Error` in `TryReadRangeData` and the `BaseClass`/`ILoggingManager` plumbing are left out. They are side effects only.
- Exceptions: the `try`/`catch` around reading `IRange.RangeData` is replaced by the `ReadOutcome` value of the range (`Threw` stands for the exception).
- Grid aliasing: `string[,]` is modelled as an immutable value. The core never writes to a grid. The model does not capture that the stored grid and the host's array may be one object, which the host could change behind the store's back.
- Re-reads: a range's read outcome is fixed per `Range` value. A host that returns different data on two reads of one range is modelled as two `Range` values.
- Unread live grid: that the live grid "is not read" when the data step short-circuits is modelled only by the after grid being absent. No read count is kept.
- `MemoryComparison` and `Configuration`: their sources are not available, so they are stood in by a datatype and a class. `LocationMatchesAndDataMatches` is taken as `locationMatches && dataMatches`. The configuration class has one mutable threshold field; its default threshold is unknown, so the constructor takes it.
- `IRange.FillRange`: host cell formatting, a foreign side effect.
- `IRange` and `IWorksheet` are plain input datatypes, not components.
- Negative counts: the model admits any 32-bit row and column counts, negative ones included, where the host only reports non-negative counts. The properties hold for all of them.
- The dispatch layer (`GenericChangeHandlerApi`), the change logger API, the factory and the test mocks are not part of this model. They carry no logic of the store.
- Storage invariant: a stored grid is expected to be the range's own `RowCount` × `ColumnCount`. `SetMemory` does not check this; it relies on the host's `IRange.RangeData`. The model follows the code. Where a property needs it, it is stated as a precondition (`Range.ReadFitsDimensions`, or explicit dimension requirements).
- Strings: Dafny strings are sequences of Unicode scalar values, so C# strings holding unpaired UTF-16 surrogates cannot be represented. Null strings, in the location fields and in grid cells, are represented as `None`.
