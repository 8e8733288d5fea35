# REVIVE2024 batch front end and per-case bookkeeping, in Dafny

REVIVE2024 computes resilience and cost metrics for a batch of residential building
cases. A run list holds one row per case, and a shared database folder holds
constructions, emission factors and weather files. This project models the
decision logic around the EnergyPlus simulations. The physics and the file I/O are
left out.

The model covers:

- **Input validation.** `validate_input` checks the front-end fields, paths,
  database items and run-list columns, in that order.
- **Database and run-list validators.** These are the checks in
  `validation.py`: every validator stops at its first failing `assert`.
- **Per-case bookkeeping in `simulate`:**
  - the base-file name and the BASE rule;
  - the foundation list and the outage windows;
  - the fenestration pass that collects window names, and `divide_chunks`;
  - the zone pass that renames zones and collects dwelling units, and the annual pass
    that looks for them again;
  - the classification of cost line items;
  - the `dirMR`/`emCO2` lists built by `add_item_to_adorb_inputs`;
  - the fixed-schema result row and the ERROR row.
- **The batch.** Cases run in order, each adds its rows to the results table, and the
  first case that raises stops the batch.

Exceptions are data. `Common.Fault` names the Python exception, and a validator
returns `Outcome` (`Pass` or `Fail(fault)`) or `Result<T>` instead of raising. The
filesystem is two sets of paths (`Paths.FileSystem`). A CSV file that pandas can read
is a `Tables.Table` of text cells, and a map from path to `Table` says which paths
can be read. Money, emission factors and metrics are `real`.

Modules, one file each:

| file | module | models |
|---|---|---|
| `common.dfy` | `Common` | The `Option`, `Outcome` and `Result` types, the faults, and `CheckAll` (the first-failure loop of asserts). |
| `text.dfy` | `Text` | Python's `in`, `index`, `split` and `join` on strings, and `strip`, `lower` and `isalnum` restricted to ASCII characters. |
| `paths.dfy` | `Paths` | `os.path.isfile`, `isdir` and POSIX `join`. |
| `tables.dfy` | `Tables` | Column and cell access by name, and `filter(like=...)`. |
| `validation.dfy` | `Validation` | `validation.py`. |
| `setup.dfy` | `Setup` | `validate_input` and `divide_chunks`. |
| `caseinputs.dfy` | `CaseInputs` | The base-file name, the foundation list and the outage windows. |
| `zones.dfy` | `Zones` | Window names, the zone pass and the annual ERV pass. |
| `costs.dfy` | `Costs` | Cost line-item categorisation. |
| `adorb.dfy` | `Adorb` | `add_item_to_adorb_inputs` and its two loops, on a class holding `dirMR` and `emCO2`. |
| `results.dfy` | `Results` | Result rows, the results table (a class), one case, and the batch. |

Where `simulate` updates state step by step, the model is a method with a loop:

- the zone pass, on an array of zone names;
- the fenestration pass;
- the cost pass;
- the ADORB item loops, on `Adorb.AdorbInputs`;
- the case and batch drivers, on `Results.ResultsTable`.

Each method is proved equal to a specification function of its inputs. Lemmas then
state what the source promises about that function.

## Model

| member | source | states |
|---|---|---|
| `Common.CheckAll` | REVIVE2024/validation.py:57-60 | A loop of asserts passes iff every element's check passes. On failure, it yields the first failing element's outcome, and every element before it passed. |
| `Common.CheckAllFirstFailure` | REVIVE2024/validation.py:57-60 | If element k fails and every earlier element passes, the loop raises exactly element k's fault. |
| `Common.CheckAllAppend` | REVIVE2024/validation.py:57-60 | Checking `xs + ys` is checking `xs`, then `ys` only if `xs` passed. |
| `Text.IndexOf` | REVIVE2024/validation.py:70 | `str.index` returns the first position where the pattern occurs. None means the pattern occurs nowhere, which is where Python raises. |
| `Text.JoinSplit` | REVIVE2024/simulate.py:388 | Joining the parts of `split(sep)` with `sep` gives back the original string. This is the property of `Text.Split`. |
| `Text.SplitPartsFree` | REVIVE2024/simulate.py:388 | No part of a split contains the separator. |
| `Text.SplitHeadIsPrefix` | REVIVE2024/simulate.py:388 | The first part of `split(sep)` is a prefix of the string. |
| `Text.StripIsSlice` | REVIVE2024/validation.py:147 | `strip()` keeps a contiguous slice. Everything removed before and after the slice is whitespace, and the result starts and ends with a non-space character. This is the property of `Text.Strip`. |
| `Text.StripBlank` | REVIVE2024/validation.py:161 | A cell strips to "" iff it is all whitespace. |
| `Text.StripIdempotent` | REVIVE2024/validation.py:161 | Stripping twice is stripping once. |
| `Text.LowerIdempotent` | REVIVE2024/simulate.py:1038 | `lower()` leaves no ASCII capital, turns each capital into its small letter, keeps every other character, and lower-casing twice is lower-casing once. |
| `Tables.ColumnIndex` | REVIVE2024/validation.py:82 | Returns the first position of the column name in the header. None iff the name is absent. |
| `Tables.CellAt` | REVIVE2024/validation.py:145 | On a full row, `row[name]` is found iff the column exists, and it is the cell under that column. |
| `Tables.Column` | REVIVE2024/validation.py:125 | `df[name]` is absent iff the column is missing. Otherwise it has one cell per row, equal to that row's cell. |
| `Tables.FilterLike` | REVIVE2024/validation.py:160 | `row.filter(like=sub)` holds exactly the cells whose column name contains `sub`. |
| `Tables.FilterLikeAppend` | REVIVE2024/validation.py:160 | Filtering a header split in two is filtering each part and concatenating, and one column contributes its cell exactly when its name contains `sub`. So the cells keep column order and multiplicity. |
| `Validation.ValidateDatabaseExists` | REVIVE2024/validation.py:48-50 | Passes iff the database path is a directory. The failure message names the path. |
| `Validation.ValidateDatabaseStructure` | REVIVE2024/validation.py:53-60 | Passes iff all 7 required files and both required folders exist under the database path. On failure it reports either the first missing file, or, when every file exists, the first missing folder, with the message naming the item. |
| `Validation.Key` | REVIVE2024/validation.py:70 | The key is a prefix of the file name that is followed by ".csv", and ".csv" occurs at no earlier position. It is absent (ValueError) iff the name has no ".csv". |
| `Validation.KeyOfCsvName` | REVIVE2024/validation.py:70 | A dot-free stem followed by ".csv" has that stem as its key, e.g. "Construction Database.csv" gives "Construction Database". |
| `Validation.RequiredFileKey` | REVIVE2024/validation.py:20-28 | Every required file's key is its name without ".csv". |
| `Validation.FileStructureCheck` | REVIVE2024/validation.py:69-82 | One file passes iff it has a key, the manifest lists that key, pandas can read the file, and the file has every column listed under the key. |
| `Validation.ColumnsCheck` | REVIVE2024/validation.py:81-82 | Passes iff every listed column is present. Otherwise it reports the first missing column together with the file. |
| `Validation.ValidateDatabaseFileStructures` | REVIVE2024/validation.py:63-82 | Passes iff every required file passes. On failure it reports the first failing file's fault, and every earlier file passed. |
| `Validation.MissingColumnReported` | REVIVE2024/validation.py:81-82 | When a readable file lacks the k-th listed column and has all earlier ones, the fault is the missing-column message for column k and that file. |
| `Validation.ValidateDatabaseContent` | REVIVE2024/validation.py:42-45 | Passes iff the folder exists, its structure is valid and every required file has its columns. |
| `Validation.ValidateRunlistExists` | REVIVE2024/validation.py:91-92 | Passes iff the run list is a file. |
| `Validation.ValidateRunlistStructure` | REVIVE2024/validation.py:95-109 | Passes iff the run list can be read, the manifest has "Runlist", and every column listed there is present. An unreadable run list gives the invalid-CSV message. Otherwise a failure reports the first missing column. |
| `Validation.CaseNameFaultAsWritten` | REVIVE2024/validation.py:124-127 | An empty name fails with an empty message. A non-empty name passes iff it has NO legal character. |
| `Validation.CaseNameFault` | REVIVE2024/validation.py:123-127 | A name passes iff it is non-empty and every character is alphanumeric, a space or an underscore. A non-empty bad name gets the case-name prompt for the run list. Legal characters are those of `Validation.IsLegalChar`. |
| `Validation.CaseNameCheckInverted` | REVIVE2024/validation.py:127 | Every non-empty name the intended check accepts is rejected as written. "BASE" is rejected and "#?!" is let through. |
| `Validation.MembershipFaultAsWritten` | REVIVE2024/validation.py:37 | A failed membership assert raises something other than an AssertionError, because the message lambda is called with two of its three arguments. |
| `Validation.MembershipFault` | REVIVE2024/validation.py:37 | The intended fault is an AssertionError whose message mentions the run list, the item and where the item was looked up. |
| `Validation.MembershipFaultDiffers` | REVIVE2024/validation.py:148 | For every membership check, the fault as written differs from the intended one. |
| `Validation.RlMiscPromptMentions` | REVIVE2024/validation.py:38 | The run-list prompt mentions the run-list path. |
| `Validation.NonBlankMembers` | REVIVE2024/validation.py:161 | The items are exactly the stripped cells that are not blank. |
| `Validation.NonBlankAppend` | REVIVE2024/validation.py:161 | Dropping blanks from a list split in two is dropping them from each part and concatenating, so the items keep cell order and multiplicity. |
| `Validation.NonBlankSingle` | REVIVE2024/validation.py:161 | One cell gives its stripped text iff that is not blank, and nothing otherwise. |
| `Validation.NameChecks` | REVIVE2024/validation.py:125-127 | Passes iff every case name is non-empty and made of legal characters only. |
| `Validation.GeometryChecks` | REVIVE2024/validation.py:130-131 | Passes iff every geometry file exists. |
| `Validation.WeatherChecks` | REVIVE2024/validation.py:134-137 | Passes iff both weather files of every pair exist in the weather folder. |
| `Validation.GeometryCheck` | REVIVE2024/validation.py:131 | One geometry assert passes iff the file exists. Its failure is an AssertionError whose message names the run list. |
| `Validation.WeatherCheck` | REVIVE2024/validation.py:136-137 | One weather pair passes iff both the EPW and the DDY file are in the weather folder. A missing EPW file is reported first, with the EPW message. |
| `Validation.CaseChecks` | REVIVE2024/validation.py:123-137 | Passes iff the four columns exist and every row has a legal name and existing geometry and weather files. Each column is read just before its loop: no CASE_NAME column is a KeyError, a bad name is reported before GEOMETRY_IDF is read, and with legal names a missing GEOMETRY_IDF column is a KeyError. |
| `Validation.NameFaultBeforeGeometryColumn` | REVIVE2024/validation.py:125-130 | A run list with one empty case name and no GEOMETRY_IDF column fails the name assert with an empty message, not with a KeyError. |
| `Validation.CaseColumnsPresentMeaning` | REVIVE2024/validation.py:125-137 | With all four columns present, the case checks pass iff every name is legal, every geometry file exists and every weather pair passes. With any of them absent they fail. |
| `Validation.CaseColumnsMeaning` | REVIVE2024/validation.py:125-137 | The column-wise checks are equivalent to the row-wise validity predicate. |
| `Validation.CaseRowMeaning` | REVIVE2024/validation.py:125-137 | Row i is valid iff its name is legal and its geometry, EPW and DDY files exist. |
| `Validation.ItemsCheck` | REVIVE2024/validation.py:161-162 | Passes iff every item is allowed. Otherwise it reports the first item that is not, quoted after its label. |
| `Validation.StrippedItemsCheck` | REVIVE2024/validation.py:161-171 | A group of cells passes iff none is NaN and every non-blank stripped item is allowed. A NaN cell makes `.strip()` raise AttributeError before any item is looked up. |
| `Validation.ApplianceCheck` | REVIVE2024/validation.py:145-148 | Passes iff the appliance list is not NaN and every comma-separated, stripped appliance is in the construction list. A NaN list makes `.split` raise AttributeError. |
| `Validation.EnvelopeCheck` | REVIVE2024/validation.py:159-171 | Passes iff no EXT_/INT_ or foundation cell is NaN, every non-blank EXT_/INT_ item and foundation insulation is a known construction, and every non-blank foundation interface is Slab, Crawlspace or Basement. |
| `Validation.NanFoundationRaises` | REVIVE2024/validation.py:165-166 | When the envelope items are fine and a FOUNDATION_INTERFACE cell is NaN (an empty CSV cell), the envelope check raises AttributeError instead of skipping the cell. |
| `Validation.FuelOnwardsCheck` | REVIVE2024/validation.py:150-171 | Passes iff the fuel and mechanical-system cells exist and are not NaN, "DHW_" + the stripped fuel and the stripped mechanical system are known, and the envelope items are known. |
| `Validation.RowCheck` | REVIVE2024/validation.py:143-171 | One row passes iff none of its appliance, fuel, mechanical-system, envelope or foundation cells is NaN and it names only known items. |
| `Validation.RowsCheck` | REVIVE2024/validation.py:143 | Passes iff every row passes its checks. |
| `Validation.RowsCheckMeaning` | REVIVE2024/validation.py:143-171 | The rows pass iff every row is valid. |
| `Validation.LoadCheck` | REVIVE2024/validation.py:114-121 | Passes iff every table can be read. Otherwise the fault names the first path, in read order, that cannot be read. |
| `Validation.Names` | REVIVE2024/validation.py:142 | The construction names exist iff the NAME column does, and they are exactly that column's values. |
| `Validation.ConstructionsCheck` | REVIVE2024/validation.py:140-171 | Passes iff the construction database can be read, has a NAME column, and every row is valid against its names. |
| `Validation.ValidateRunlistInputs` | REVIVE2024/validation.py:112-171 | Passes iff every table can be read, every case has a legal name and existing files, and every row names only known items. |
| `Validation.ValidateRunlistContent` | REVIVE2024/validation.py:85-88 | Passes iff the run list exists, has the manifest's columns and passes the input checks. |
| `Setup.RequiredColumnsMessage` | REVIVE2024/simulate.py:107-120 | Without the manifest the message is "Please run app from project directory.", and an empty manifest is an IndexError. Otherwise the stage gives "" iff every required column is in the run list. An unreadable run list escapes as an error iff some column is required. A non-empty message names the first missing column. |
| `Setup.FieldChecks` | REVIVE2024/simulate.py:79-87 | The empty-field stage passes iff all five fields are non-empty. |
| `Setup.LocationChecks` | REVIVE2024/simulate.py:89-96 | An existence stage passes iff every location in it exists. |
| `Setup.FirstMissing` | REVIVE2024/simulate.py:89-96 | An existence stage fails with the message of its first missing location. |
| `Setup.ValidateInput` | REVIVE2024/simulate.py:78-124 | Returns "" iff all fields are filled in, all four paths and all three database items exist, and every required column is present. |
| `Setup.FirstEmptyField` | REVIVE2024/simulate.py:79-87 | The first empty field is the one named in "Please specify ...". |
| `Setup.FirstMissingPath` | REVIVE2024/simulate.py:89-96 | With every field filled in, the first missing path, in the order IDD, run list, study folder, database, is the one named in "... does not exist.". |
| `Setup.FirstMissingDatabaseItem` | REVIVE2024/simulate.py:98-106 | With fields and paths fine, the first missing database item is named in "Cannot find ... in specified database directory.". |
| `Setup.ChunksFrom` | REVIVE2024/simulate.py:127-131 | Every slice is non-empty and at most n long, every slice but the last is exactly n long, and there are no slices iff the start is at or past the end. |
| `Setup.ChunksConcatenate` | REVIVE2024/simulate.py:127-131 | The chunks, concatenated, are the original list. |
| `Setup.ChunkCount` | REVIVE2024/simulate.py:127-131 | There are ceil(\|l\| / n) chunks. |
| `Setup.DivideChunks` | REVIVE2024/simulate.py:127-131 | A zero size raises (the `range` step), and a negative size gives no chunks. A positive size gives chunks that concatenate to `l`, number ceil(\|l\|/n) and are each 1 to n long, all but the last exactly n. |
| `CaseInputs.BaseCaseNamed` | REVIVE2024/simulate.py:172 | The base-file name contains "BASE" iff the batch name or the case name does. |
| `CaseInputs.DummyBaseCase` | REVIVE2024/simulate.py:155-172 | In dummy mode, only the case name can make a case a base case. |
| `CaseInputs.FoundationList` | REVIVE2024/simulate.py:286-296 | When all three interfaces are "nan" the list is unbound. Otherwise it is the prefix of the three foundations up to the last non-"nan" interface. Earlier "nan" entries are kept, and every later interface is "nan". |
| `CaseInputs.SelectOutages` | REVIVE2024/simulate.py:311-320 | The two windows are the two outages in some order. The first outage is the heating window iff its type is "HEATING", and otherwise it is the cooling window. |
| `Zones.Bedrooms` | REVIVE2024/simulate.py:393-396 | The count is the first character of the third '\|'-segment, read as a digit. It succeeds iff that character is 0 to 8, the keys of the heat-gain table. A missing or empty third segment is an IndexError, a non-digit a ValueError, and 9 a KeyError. |
| `Zones.BaseNameHasNoType` | REVIVE2024/simulate.py:388-390 | A renamed zone holds no '\|', has no type and is never a unit. This states what `Zones.BaseName` and `Zones.ZoneType` give. |
| `Zones.BaseNameOfPlainName` | REVIVE2024/simulate.py:388-390 | The base name is the start of the zone name. A name without '\|' is its own base name and has no type. |
| `Zones.UnitNames` | REVIVE2024/simulate.py:386-392 | The unit list is no longer than the zone list. |
| `Zones.UnitNamesMembers` | REVIVE2024/simulate.py:386-392 | The unit list holds the base name of every zone whose type contains "UNIT", and nothing else. |
| `Zones.ScanMeaning` | REVIVE2024/simulate.py:386-396 | The zone pass succeeds iff every unit zone has a usable bedroom count. It then lists the unit base names in zone order. `occ` is the default when there is no unit, and otherwise one more than the last unit's bedroom count. This is the meaning of the specification function `Zones.Scan`. |
| `Zones.ScanSucceeds` | REVIVE2024/simulate.py:391-396 | The zone pass succeeds iff every unit zone has a usable bedroom count. |
| `Zones.ScanUnits` | REVIVE2024/simulate.py:391-392 | A successful pass's unit list is `UnitNames` of the zones. |
| `Zones.ScanOccDefault` | REVIVE2024/simulate.py:199 | Without unit zones `occ` keeps the run list's bedrooms plus one. |
| `Zones.ScanOccLast` | REVIVE2024/simulate.py:393 | `occ` is one more than the bedroom count of the last unit zone. |
| `Zones.ScanStep` | REVIVE2024/simulate.py:387-396 | The pass over one more zone extends the pass over the previous zones by that zone's step. |
| `Zones.ScanErrStays` | REVIVE2024/simulate.py:393 | Once a zone raises, the whole pass raises the same fault. |
| `Zones.RenameZones` | REVIVE2024/simulate.py:386-396 | The in-place loop returns the zone pass's result. When it finishes, every zone is renamed to its base name. |
| `Zones.AnnualErvZonesAsWritten` | REVIVE2024/simulate.py:729-733 | The annual pass adds an ERV to the unit zones of the names it is given, which after renaming are the base names. |
| `Zones.NoUnitsAfterRename` | REVIVE2024/simulate.py:729-733 | Names without '\|' contain no unit zone. |
| `Zones.AnnualErvLost` | REVIVE2024/simulate.py:729-733 | Over the renamed zones the annual pass finds no unit at all, whatever the geometry holds, e.g. "Zone 1\|UNIT\|2" is a unit before renaming. |
| `Zones.UnitZoneExample` | REVIVE2024/simulate.py:388-392 | "Zone 1\|UNIT\|2" is a unit zone whose base name is "Zone 1". |
| `Zones.AnnualErvZones` | REVIVE2024/simulate.py:729-733 | The intended annual pass adds an ERV to exactly the unit zones of the geometry file, the same list the zone pass collects. |
| `Zones.WindowNamesMembers` | REVIVE2024/simulate.py:351-358 | The window names are exactly the names of fenestration surfaces of type "Window". |
| `Zones.WindowNamesAppend` | REVIVE2024/simulate.py:351-358 | Collecting the windows of a surface list split in two is collecting each part and concatenating, so the names keep file order and multiplicity. |
| `Zones.WindowNamesSingle` | REVIVE2024/simulate.py:351-358 | One surface contributes its name iff it is a window. |
| `Zones.CollectWindowNames` | REVIVE2024/simulate.py:351-358 | The fenestration loop yields `WindowNames` of the surfaces, and its counter ends at their number minus one. |
| `Zones.ShadingChunks` | REVIVE2024/simulate.py:486-490 | The window names split into chunks of at most ten that, concatenated, are all the windows. |
| `Costs.FirstMatchMeaning` | REVIVE2024/simulate.py:837-860 | An item goes to the category of the first keyword its name contains, and to none when it contains no keyword. This is the meaning of `Costs.FirstMatch`. |
| `Costs.CategoryChainIsFirstMatch` | REVIVE2024/simulate.py:837-860 | The if/elif chain is first match over the keyword list WALL, ROOF, FLOOR, WINDOW, DOOR, AIR SEALING, MECH, DHW, APPLIANCES, LIGHTS (appliances), PV COST, BATTERY COST. So `Costs.CategoryOf` is the chain. |
| `Costs.FirstKeywords` | REVIVE2024/simulate.py:837-844 | The first four links of the chain. |
| `Costs.MiddleKeywords` | REVIVE2024/simulate.py:845-852 | The middle four links of the chain. |
| `Costs.LastKeywords` | REVIVE2024/simulate.py:853-860 | The last four links of the chain, with LIGHTS charged to appliances. |
| `Costs.CostsOf` | REVIVE2024/simulate.py:837-856 | A category's list is no longer than the item list. |
| `Costs.CostsOfAppend` | REVIVE2024/simulate.py:837-856 | A category's list for items split in two is the lists of the two parts concatenated, so it keeps table order and multiplicity. |
| `Costs.CostsOfSingle` | REVIVE2024/simulate.py:837-856 | One charge goes into a category's list iff it is charged to that category. |
| `Costs.LastOf` | REVIVE2024/simulate.py:857-860 | There is no last charge iff no item is in the category. Otherwise it is the cost of the last item in it. |
| `Costs.CategorizeCosts` | REVIVE2024/simulate.py:803-872 | The cost pass returns the summary specification: zeros for a base case, otherwise the category sums and the last PV and battery items. The specification is `Costs.Summary`. |
| `Costs.CategoriesPartition` | REVIVE2024/simulate.py:837-860 | Every line item is charged to exactly one category, so the category lists together hold every item once. |
| `Costs.BaseCaseCostsNothing` | REVIVE2024/simulate.py:803-816 | A case whose batch or case name contains "BASE" has every cost zero, whatever its items. |
| `Costs.LastCharge` | REVIVE2024/simulate.py:857-860 | A category has a last charge iff some item is in it, and that charge is the last such item's cost. |
| `Costs.SummaryOfOrdinaryCase` | REVIVE2024/simulate.py:817-872 | Outside a base case, the pass succeeds iff some item is a PV cost and some item a battery cost. The first cost is kept, each of the nine category totals is the sum of that category's list, and the PV and battery costs are those of the last PV and the last battery item. |
| `Adorb.RangeElements` | REVIVE2024/simulate.py:1019 | The k-th year of `range(0, duration, lifetime)` is `k * lifetime`. This is the meaning of `Adorb.PyRange`. |
| `Adorb.RangeBounds` | REVIVE2024/simulate.py:1019 | With a positive step the years stay within [start, stop) and increase. |
| `Adorb.RangeCount` | REVIVE2024/simulate.py:1019 | With a positive step there are ceil((stop - start) / step) years. |
| `Adorb.PyInt` | REVIVE2024/simulate.py:1010 | `int()` on a NaN cell raises. Otherwise it truncates toward zero. |
| `Adorb.ReplacementSchedule` | REVIVE2024/simulate.py:1018-1021 | With a positive lifetime L, an item is paid for at years 0, L, 2L, ... below the duration: ceil(duration/L) times, in increasing order. |
| `Adorb.PairedConcat` | REVIVE2024/simulate.py:1020-1021 | Concatenating paired lists keeps them paired. |
| `Adorb.ItemEntriesOutcome` | REVIVE2024/simulate.py:1005-1024 | An item raises iff the country has no emissions factor (a KeyError naming it) or the item's lifetime is NaN. An unknown item adds nothing. Otherwise both lists gain entries for the same years, and the maintenance entries carry the given cost. This is the meaning of `Adorb.ItemEntries`. |
| `Adorb.KnownItemCharges` | REVIVE2024/simulate.py:1009-1021 | A known item with positive lifetime L is charged its cost at years 0, L, 2L, ..., ceil(duration/L) times. Its carbon cost is its cost without labour, times the emissions factor, times 0.25. |
| `Adorb.PermanentItemChargedOnce` | REVIVE2024/simulate.py:1022-1024 | A known item whose lifetime truncates to 0 is charged exactly once, at year 0, in both lists. |
| `Adorb.ItemNameMeaning` | REVIVE2024/simulate.py:1038-1046 | A line is skipped iff its lower-cased name, without a leading "mech_", is "appliances" or "lights". Any other line is looked up under its lower-cased name, without that label. This is the meaning of `Adorb.ItemName`. |
| `Adorb.MechLabelDropped` | REVIVE2024/simulate.py:1042 | A "MECH_" line is looked up under the lower-cased name after the label. |
| `Adorb.SummaryLinesSkipped` | REVIVE2024/simulate.py:1045-1046 | The appliances and lights lines are never priced, with or without a "MECH_" label. |
| `Adorb.PricedLines` | REVIVE2024/simulate.py:1030-1034 | The last row is dropped, and exactly the rows with positive quantity are kept, each as often as it occurs. |
| `Adorb.PositiveCounts` | REVIVE2024/simulate.py:1034 | Keeps exactly the rows with positive quantity, each as often as the table holds it. |
| `Adorb.PositiveAppend` | REVIVE2024/simulate.py:1034 | Filtering a table split in two is filtering each part and concatenating, so the kept rows are in table order. |
| `Adorb.NamedCalls` | REVIVE2024/simulate.py:1035-1050 | The line loop makes at most one call per line. |
| `Adorb.ThenAssociates` | REVIVE2024/simulate.py:1035-1054 | Sequencing calls is associative. |
| `Adorb.RunCallsAppend` | REVIVE2024/simulate.py:1035-1054 | Running two call lists one after the other is running their concatenation. |
| `Adorb.RunCallsNext` | REVIVE2024/simulate.py:1050 | After calls that did not raise, one more call either raises for the whole loop or appends its entries. |
| `Adorb.EntriesPairUp` | REVIVE2024/simulate.py:1018-1024 | `dirMR` and `emCO2` grow in step: the same length, and the same year at every position. |
| `Adorb.UnknownCountryRaises` | REVIVE2024/simulate.py:1006 | Without an emissions factor for the country, the first call raises a KeyError naming the country. |
| `Adorb.LineFailureStays` | REVIVE2024/simulate.py:1035-1050 | Once a prefix of the lines raises, the whole loop raises the same fault. |
| `Adorb.AdorbInputs.constructor` | REVIVE2024/simulate.py:964-991 | The lists start as the carbon-measure costs and carbon. |
| `Adorb.AdorbInputs.AddItem` | REVIVE2024/simulate.py:1005-1024 | On a raise nothing is appended. Otherwise `dirMR` and `emCO2` gain exactly the item's entries. |
| `Adorb.AdorbInputs.AddLineItems` | REVIVE2024/simulate.py:1035-1050 | The line loop raises what its calls raise. Otherwise it appends exactly their entries. |
| `Adorb.AdorbInputs.AddAppliances` | REVIVE2024/simulate.py:1053-1054 | The appliance loop raises what its calls raise. Otherwise it appends exactly their entries. |
| `Adorb.AdorbInputs.AddAllItems` | REVIVE2024/simulate.py:1028-1054 | Both loops together behave as the line calls followed by the appliance calls. |
| `Results.TableColumnsAreColumnSet` | REVIVE2024/simulate.py:68-74 | The table's declared columns are exactly the column set. |
| `Results.SuccessRowKeys` | REVIVE2024/simulate.py:1071-1106 | A finished case's row fills exactly the table's columns. The row is `Results.SuccessRow`. |
| `Results.SuccessRowValues` | REVIVE2024/simulate.py:1071-1106 | "Run Name" holds the case name and every other column a number. Wall and PV cost come from the cost summary. |
| `Results.ErrorRowKeys` | REVIVE2024/simulate.py:1126-1161 | The ERROR row fills exactly the table's columns. The row is `Results.ErrorRow`. |
| `Results.ErrorRowValues` | REVIVE2024/simulate.py:1126-1161 | "Run Name" keeps the case name, and every other column is "ERROR". |
| `Results.ErrorRowNamed` | REVIVE2024/simulate.py:1126-1161 | The ERROR row has the table's shape and the case name. |
| `Results.SuccessRowNamed` | REVIVE2024/simulate.py:1071-1106 | A result row has the table's shape and the case name. |
| `Results.ResultsTable.constructor` | REVIVE2024/simulate.py:67-74 | A new table has the declared columns and no rows. |
| `Results.ResultsTable.Append` | REVIVE2024/simulate.py:1110 | Append adds exactly one row at the end and keeps the table valid when the row has the table's shape. |
| `Results.CaseRowsMeaning` | REVIVE2024/simulate.py:186-1166 | A case passes iff both weather files exist, the body finishes, and the enabled report does not raise; it then adds its one result row. A missing weather file adds no row and raises an AssertionError. Any other failure ends with an ERROR row, after at most one result row. This is the meaning of `Results.CaseOutcome` and `Results.CaseRows`. |
| `Results.CaseRowsShaped` | REVIVE2024/simulate.py:1071-1165 | Every row a case adds has the table's shape and carries the case name. |
| `Results.RecordCase` | REVIVE2024/simulate.py:190-1166 | One case appends exactly its rows to the table, returns its outcome and keeps the table valid. |
| `Results.BatchOutcomeIsFirstFailure` | REVIVE2024/simulate.py:145 | The batch raises what the first raising case raises. This is the meaning of `Results.BatchOutcome`. |
| `Results.OneRowPerCase` | REVIVE2024/simulate.py:1110 | When no case raises, the batch adds exactly one row per case, in order: that case's result row. This is the meaning of `Results.BatchRows`. |
| `Results.BatchRowsShaped` | REVIVE2024/simulate.py:1110-1165 | Every row the batch adds has the table's shape. |
| `Results.FailureEndsBatch` | REVIVE2024/simulate.py:145 | Once a case raises, the later cases change neither the rows nor the outcome. |
| `Results.RunCases` | REVIVE2024/simulate.py:145 | The sequential batch appends the batch's rows, returns the batch outcome and keeps the table valid. |
| `Results.ParallelSimulate` | REVIVE2024/simulate.py:134-150 | The saved table exists iff every case passes, and it then holds one result row per case, in order. Otherwise the batch raises the first failing case's fault, and every earlier case passed. |

## Left out

- EnergyPlus and eppy are left out: building, copying and saving the models, and `idf.run` (simulate.py:338-549, 724-774). These are calls into an external program. The model takes their results (zone names, fenestration surfaces, cost line items, metrics) as inputs.
- CSV, JSON and HTML reading (`pd.read_csv`, `json.load`, `fasthtml.tablebyname`) is library I/O. A readable CSV file is a `Tables.Table`, an unreadable one is a path missing from the table map, and the manifest is a `map<string, seq<string>>`.
- Floating-point physics is left out: lighting, appliance, DHW and sizing formulas, Mora days, battery sizing, energy prices, the carbon-measure list and the `adorb.adorb` model (simulate.py:196-236, 397-419, 670-693, 910-1001, 1059). The metrics of a finished case are a `Results.Metrics` input, and the carbon-measure entries are the `Adorb.AdorbInputs` constructor's inputs. Reals are exact, so float rounding is not modelled.
- Graphs and the PDF report are rendering. The report is modelled only as the `Outcome` it produces when enabled, and graphs not at all.
- The per-case CSV written next to each result row (simulate.py:1108, 1163) and the final `to_csv` are file output, and are not modelled.
- Concurrency is only partly modelled. `Results.ParallelSimulate` is `Parallel(n_jobs=1)`: the cases run in order in one process, and the first case that raises ends the batch. With more jobs, each worker updates its own copy of the inputs, so the parent's table never receives the rows. That is not modelled.
- The real filesystem (`os.path.isfile`, `isdir`, `chdir`, `getcwd`, `sys._MEIPASS`) is two sets of paths. `os.path.join` is the POSIX rule for two parts.
- pandas membership is modelled loosely. `x in construction_list` on a Series tests index labels, not values (validation.py:148). The model tests set membership of the NAME values, as intended.
- `row.filter(like="EXT_") + row.filter(like="INT_")` (validation.py:160) is a label-aligned sum of two Series in pandas. The model takes the intended concatenation of the two.
- The `flowCoefficient` NameError (simulate.py:748) lies inside the EnergyPlus part. It is not modelled.
- The run list's CARBON_MEASURES cell (simulate.py:955-961) leaves `carbonMeasures` unbound when it is empty. It belongs to the carbon-measure list, which is outside the model.
- Validation.GeometryChecks: the geometry assert (validation.py:131) calls `rl_misc_prompt` with one of its two arguments, so a missing geometry file raises TypeError. Like the membership checks under Findings, the model raises the intended AssertionError naming the run list.
- `raise Exception(e)` (simulate.py:1166) wraps the fault in a plain Exception. The model re-raises the same `Fault`.
- The item cost reaches `add_item_to_adorb_inputs` as a `real`. The Python `cost==None` test on a pandas value is modelled as `Option`.
- A construction name that appears twice in the construction list makes `.loc` return a Series. The model keys constructions by name, so it cannot hold duplicates.
- `pd.concat` column alignment is not modelled. Rows are maps from the fixed `Results.Column` set, so alignment cannot go wrong.
- Zones.UnitNames: its own ensures gives only the length bound. Membership is stated by `Zones.UnitNamesMembers` and order by `Zones.ScanUnits`.
- Costs.CostsOf: its own ensures gives only the length bound. Its contents are stated through `Costs.CategorizeCosts`, `Costs.CategoriesPartition` and `Costs.SummaryOfOrdinaryCase`.
- Adorb.NamedCalls: its own ensures gives only the length bound. What the calls do is stated through `Adorb.AdorbInputs.AddLineItems` and `Adorb.ItemNameMeaning`.
- Results.SuccessRowValues: among the cost columns, it states only the wall and PV costs explicitly. The other columns are stated as numbers.
- Text.IsAlnum, Text.IsSpace and Text.Lower are ASCII-only, while Python's `isalnum()`, `strip()` and `lower()` follow Unicode. The intended case-name check accepts "Café" in Python (`'é'.isalnum()` is true) but `Validation.CaseNameFault` rejects it. As written, Python raises TypeError on "é", while `Validation.CaseNameFaultAsWritten("é")` is None. "Slab\u00a0" strips to "Slab" in Python but keeps its no-break space in the model. Non-ASCII letters are not lower-cased.
- The composite run-list validators (`Validation.NameChecks`, `CaseChecks`, `ItemsCheck`, `StrippedItemsCheck`, `ApplianceCheck`, `FuelOnwardsCheck`, `EnvelopeCheck`, `RowCheck`, `RowsCheck`, `ConstructionsCheck`, `ValidateRunlistInputs`, `ValidateRunlistContent`) follow the intended reading of the two validation.py rows under Findings: the corrected case-name check and the AssertionError membership message. As written, every ordinary case name fails at validation.py:127, and every failed membership assert raises TypeError.
- Empty CSV cells are pandas NaN, modelled as the cell text "nan" (`Tables.Nan`, the text `str()` gives for NaN). `.strip()` and `.split()` on NaN raise AttributeError, as modelled for the appliance, fuel, mechanical-system, envelope and foundation cells. A NaN CASE_NAME, GEOMETRY_IDF, EPW or DDY cell is a float in pandas, so the source then raises TypeError when it iterates over the name or passes the cell to `os.path`. The model takes those cells as the text "nan" instead. A non-empty cell that pandas parses as a number is likewise taken as its text.

## Findings

| source | as written | input that shows it | evidently intended | confidence | as-written member | corrected member |
|---|---|---|---|---|---|---|
| REVIVE2024/validation.py:127 | `assert not any(is_legal_char(c) ...)` rejects any case name with a legal character | the case name "BASE" is rejected, and "#?!" passes | accept names made only of letters, digits, spaces and underscores | high; not executed | `Validation.CaseNameFaultAsWritten` | `Validation.CaseNameFault` |
| REVIVE2024/validation.py:148 | `rl_missing_item_prompt(item, label)` passes two arguments to a three-argument lambda, and the same holds at lines 153-171 | any appliance missing from the construction list raises a TypeError instead of the AssertionError | the message names the run list, the item and the construction database | high; not executed | `Validation.MembershipFaultAsWritten` | `Validation.MembershipFault` |
| REVIVE2024/simulate.py:729-733 | the annual pass re-splits `zone.Name`, which the zone pass already set to the base name at simulate.py:390 | a zone "Zone 1\|UNIT\|2" becomes "Zone 1", which has no type, so no annual ERV is added | give an annual ERV to every unit zone of the geometry | high; not executed | `Zones.AnnualErvZonesAsWritten` | `Zones.AnnualErvZones` |
