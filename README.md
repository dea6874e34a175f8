# Marine wire sizing from ABYC E-11 (2008) tables

This project models the wire-sizing core of the `engmath` Python package in
Dafny and proves properties of that model. The core has three files.

- `wire.py` parses and canonicalises AWG gauge notation. The extra-zero
  gauges can be written "0000" or "4/0" (and so on), and they become the
  numbers -3 .. 0. It also holds ABYC Table VI-B: the allowable amperage when
  up to three current-carrying conductors are bundled. The selector
  `AmericanBoatAndYachtCouncilWireGaugeUpToThreeConductorBundle` reads one
  rating column of that table. It returns the canonical form of the first
  (thinnest) gauge whose capacity reaches the current.
- `abyc_data.py` holds a second copy of Table VI-B and the six Table IX
  voltage-drop tables (12, 24 and 32 V at 3 % and 10 % drop). It also holds
  `_ColumnSortedValues`, which derives the known ratings and lengths from the
  column headers: the first run of digits in each header, collected into a
  set and sorted.
- `abyc.py` holds the `_TABLE9` dispatch from (voltage, drop %) to a
  Table IX, and two unfinished accessors: one for a Table VI-B column and one
  for a 12 V length column.
- `abyc_test.py` calls a voltage-drop selector, `GetAWGForCircuit`, that no
  file defines. It is modelled from the `_TABLE9` dispatch (abyc.py:27-43) and
  those tests (abyc_test.py:71-97). It chooses the table, rounds the current
  and the run length up to the next tabulated bucket, and returns the gauge in
  that cell in canonical form, as the Table VI-B selector does.

The Dafny modules follow that layout:

- `Wrappers`: `Option` and `Result`.
- `Errors`: the exceptions the Python raises.
- `Decimal`: Python's `int()` and `%d` on ASCII decimals, and the first digit
  run that the header regex `\D*(\d+)\D*` captures.
- `Frames`: a pandas frame as a header plus rows in file order. A short row
  reads as `None` cells.
- `RatingHeaders`: the two-columns-per-rating header layout of Table VI-B.
- `Wire`, `AbycData` and `Abyc`: the three source files.

Gauge numbers are `int`s, and the extra-zero gauges are 0, -1, -2 and -3.
Capacities, currents and run lengths are exact decimals, modelled as `real`.
Temperatures, voltages and drop percentages are `int`s. Nothing here has a
fixed integer width.

`_ColumnSortedValues` is a loop that fills a set and sorts it, so it is a
method (`AbycData.ColumnSortedValues`) with loop invariants. It is proved
against the predicate `IsSortedHeaderValues`. Everything else in the core is
pure and is modelled with functions and lemmas.

## Model

| member | source | states |
|---|---|---|
| Wire.AwgSpecificationToNumber | wire.py:17-26 | only a string can fail, and its error names the string |
| Wire.ExtraZeroSpellingsParse | wire.py:18-25 | "0000"/"4/0" give -3, "000"/"3/0" give -2, "00"/"2/0" give -1, "0"/"1/0" give 0 |
| Wire.DecimalSpellingsParse | wire.py:26 | any integer, and its decimal spelling as a string, parse to that integer |
| Wire.PrintedIntegerIsNoExtraZeroSpelling | wire.py:18-26 | the only printed integer the zero/slash table intercepts is "0", so the table never shadows `int` |
| Wire.NonNumericSpellingFails | wire_test.py:71-73 | "xxx" and the empty string are refused with an invalid-gauge error |
| Wire.MalformedIntegerSpellingsFail | wire.py:26 | "-", "1x", "1-2" and "--1" are refused, as `int` refuses them |
| Wire.SignedSpellingsParse | wire.py:26 | "-05" parses to -5, "+7" to 7 and "0005" to 5, as `int` reads them |
| Wire.SynonymsAgree | wire.py:17-34 | the zero strings, the slash forms and the negative numbers of one gauge parse alike and have one canonical form ("2/0" for "00", "2/0" and -1; 0 for "0", "1/0" and 0) |
| Wire.RenderAwg | wire.py:31-34 | a gauge number stays a number exactly when it is not negative; a negative n becomes a decimal numerator of value 1 - n followed by "/0" |
| Wire.CanonicalizeAwg | wire.py:29-34 | fails exactly where parsing fails, with the same error; the result is a number exactly for gauges 0 and thinner; from 4/0 up, the result parses back to the same gauge |
| Wire.ThickGaugesRenderAsWritten | wire.py:31-32 | gauges -1, -2 and -3 render as "2/0", "3/0" and "4/0" |
| Wire.RenderRoundTrip | wire.py:17-34 | parsing the canonical form of any gauge number g >= -3 gives back g |
| Wire.RenderBeyondFourOughtFails | wire.py:17-34 | for g <= -4 the canonical form ("5/0" and beyond) does not parse |
| Wire.CanonicalizeIdempotent | wire.py:29-34 | canonicalising any accepted spelling of a gauge >= 4/0 succeeds, and canonicalising the result gives it back |
| Wire.SameCanonicalFormIffSameGauge | wire.py:29-34 | two accepted spellings have the same canonical form exactly when they parse to the same number |
| Wire.RenderAwgInjective | wire.py:31-34 | different gauge numbers render differently |
| Wire.TableVIBShape | wire.py:60-75 | 14 rating columns and 15 gauge rows, each row one field short, so the last column (200 C engine room) is empty |
| Wire.TableVIBLabelParses | wire.py:61-75 | row i's label parses to the i-th gauge of 18, 16, ..., 1, 0, 2/0, 3/0, 4/0 |
| Wire.TableVIBGaugesDescend | wire.py:61-75 | the row gauges strictly decrease in file order: each row is a thicker wire than the one above |
| Wire.TableVIBAdjacentRowsGrow | wire.py:61-75 | adjacent rows have equally many cells, and every capacity is at least the one in the row above it |
| Wire.AdjacentGrowthMakesColumnsNonDecreasing | wire.py:92-93 | in any frame whose adjacent rows grow, every column is non-decreasing from top to bottom |
| Wire.TableVIBColumnsNonDecreasing | wire.py:61-75 | every Table VI-B column is non-decreasing from 18 AWG down to 4/0 |
| Wire.EngineRoom60CIsZero | wire.py:61-75 | the 60 C engine-room column holds 0 in every row |
| Wire.FirstAdequate | wire.py:93-96 | the index found is the first row whose cell reaches the current; no index means no row does |
| Wire.AmpacityColumn | wire.py:87-92 | an unknown rating is refused exactly when it is not a known rating; otherwise the result is the column named `current_<T>C`, plus `_eng` in the engine room |
| Wire.WireGaugeUpToThreeConductorBundle | wire.py:82-96 | fails with the unknown-rating error exactly when the rating is not one of 60, 75, 80, 90, 105, 125 and 200 C |
| Wire.AmpacityColumnNameNumber | wire.py:91 | the first digit run of a generated column name is the rating it was built from |
| Wire.AmpacityColumnNameInjective | wire.py:91 | different (rating, engine-room) pairs give different column names |
| Wire.AmpacityNamesSeparate | wire.py:91 | a rating's two column names differ from each other and from every other rating's names |
| Wire.AmpacityColumnOfKnownRating | wire.py:91-92 | on a header laid out rating by rating, a known rating selects column 2k (or 2k+1 in the engine room), where k is the rating's position in the known list |
| Wire.TableVIBHeaderFollowsRatings | wire.py:60 | the Table VI-B header is that rating-by-rating layout with the `_eng` suffix |
| Wire.KnownRatingsHaveColumns | wire.py:79-92 | every known rating finds its column, so the only selector failures are an unknown rating or no adequate row |
| Wire.SelectorFailsIffNoRowAdequate | wire.py:93-95 | for a known rating the selector fails only with "no acceptable gauge", and it does so exactly when no row of the column reaches the current |
| Wire.SelectorReturnsFirstAdequateRow | wire.py:93-96 | when row i is the first adequate row, the result is the canonical form of row i's gauge |
| Wire.FirstAdequateUnique | wire.py:93-96 | there is only one first adequate row |
| Wire.SelectorPicksFirstAdequateRow | wire.py:93-96 | a successful selection is the canonical form of the first adequate row's gauge |
| Wire.SelectorChoosesThinnestAdequateGauge | wire.py:93-96 | a successful selection reaches the current, every thinner gauge does not, and every thicker gauge does |
| Wire.FirstAdequateRowIsThinnest | wire.py:93-96 | in any Table VI-B column, rows of thinner gauges than the first adequate row are inadequate, and rows from it down are adequate |
| Wire.FirstAdequateIsThinnest | wire.py:93-96 | with gauges strictly decreasing down the rows, no row of a thinner gauge than the first adequate row is adequate |
| Wire.AdequateAllTheWayDown | wire.py:93 | in a non-decreasing column with no blank cells below row i, an adequate row i means every row below is adequate |
| Wire.Scenario11A60C | abyc_test.py:18-24 | 11 A at 60 C selects 14 AWG |
| Wire.EngineRoom60CFails | wire.py:61-75 | at 60 C in the engine room any positive current fails, because the column is all zeros |
| Wire.Scenario11A60CEngineRoom | abyc_test.py:27-31 | 11 A at 60 C in the engine room fails |
| Wire.Scenario150A105C | abyc_test.py:34-40 | 150 A at 105 C selects 1 AWG |
| Wire.Scenario150A105CEngineRoom | abyc_test.py:43-49 | 150 A at 105 C in the engine room selects 0 AWG |
| Wire.Scenario357A200C | abyc_test.py:52-58 | 357 A at 200 C selects "4/0" |
| Wire.FourOughtRendersAsWritten | wire.py:31-32 | gauge -3 renders as the string "4/0" |
| Wire.Only4_0Carries357AAt200C | wire.py:61-75 | in the 200 C column the first row carrying 357 A is the last one, 4/0 |
| Wire.Scenario357A200CEngineRoom | abyc_test.py:61-65 | 357 A at 200 C in the engine room fails (the column is empty) |
| Wire.Scenario358A200C | wire.py:75 | 358 A at 200 C fails: it is above the largest capacity in the table |
| Decimal.NatToString | wire.py:91 | `%d` of a natural number is a non-empty digit string with no leading zero |
| Decimal.IntToString | wire.py:91 | `%d` of an integer is non-empty, and it starts with '-' exactly when the integer is negative |
| Decimal.ParseInt | wire.py:26 | a string is accepted exactly when it is an optional '-' or '+' followed by at least one digit; the digits give the value, negated after '-' |
| Decimal.NatToStringRoundTrip | wire.py:26 | the decimal value of `%d` of n is n |
| Decimal.ParseIntRoundTrip | wire.py:26 | `int` of `%d` of any integer, negative ones included, gives it back |
| Decimal.NatToStringInjective | wire.py:91 | different natural numbers print differently |
| Decimal.LeadingDigits | abyc_data.py:21 | the leading digit run is a prefix made of digits, followed by a non-digit or the end |
| Decimal.FirstDigitRunFailsIffNoDigit | abyc_data.py:21-22 | the header regex `\D*(\d+)\D*` fails to match exactly when the header has no digit |
| Decimal.FirstDigitRunIsFirstMaximalRun | abyc_data.py:21-22 | the captured number is the value of the first maximal run of digits |
| Decimal.LeadingDigitsIsMaximalRun | abyc_data.py:21 | a digit prefix followed by a non-digit or the end is the leading digit run |
| Decimal.NumberedHeader | abyc_data.py:21-22 | a header made of a digit-free prefix, digits and a suffix not starting with a digit yields those digits' value |
| Frames.Keys | wire.py:96 | the row labels of a frame, in file order |
| Frames.Column | wire.py:92 | a column pairs each row label, in file order, with that row's cell, or None past a short row's end |
| Frames.ColumnIndex | wire.py:92 | the position found holds the name and no earlier position does; no position means the name is not in the header |
| Frames.ColumnIndexAt | wire.py:92 | the first position holding a name is the one the lookup finds |
| Frames.SelectColumn | wire.py:92 | selecting a missing column fails with an error naming it; otherwise the result is the column under that header |
| RatingHeaders.RatingRank | abyc_data.py:30 | the rank is the first position of the rating in the known list |
| RatingHeaders.RatingHeader | abyc_data.py:30 | a header laid out rating by rating has two columns per rating |
| RatingHeaders.RatingHeaderAt | abyc_data.py:30 | columns 2k and 2k+1 are the plain and engine-room names of the k-th rating |
| RatingHeaders.RatingHeaderNoEarlierMatch | abyc_data.py:30 | when names do not collide, no column before a rating's own carries its name |
| RatingHeaders.RatingHeaderLocatesRating | abyc.py:20-21 | looking up a rating's name in such a header finds column 2k, or 2k+1 in the engine room |
| AbycData.SetHasMinimum | abyc_data.py:23 | a non-empty set of naturals has a least element |
| AbycData.HeadIsLeast | abyc_data.py:23 | the head of a strictly ascending list is its least element |
| AbycData.AscendingWithSameElementsAreEqual | abyc_data.py:23 | two strictly ascending lists with the same elements are equal, so the sorted result is unique |
| AbycData.SecondElementsOn | abyc_data.py:23 | the tail of a strictly ascending list holds exactly its elements other than the head |
| AbycData.SortedSet | abyc_data.py:23 | `sorted` of a set is strictly ascending and has exactly the set's elements |
| AbycData.ColumnSortedValues | abyc_data.py:18-23 | fails, naming the first header without a digit, exactly when some header has none; otherwise returns the strictly ascending list of exactly the headers' first digit runs |
| AbycData.CollectedHeaderValues | abyc_data.py:19-23 | a set that holds every header's number and only header numbers is exactly the set of header numbers |
| AbycData.TableVIBColumnsAsWritten | abyc_data.py:30 | the Table VI-B header spelled out, from current_60C to current_200C_engroom |
| AbycData.TableVIBHeaderNumber | abyc_data.py:30 | header k carries the rating at position k/2 of 60, 75, 80, 90, 105, 125, 200 |
| AbycData.TableVIBKnownTemps | abyc_data.py:49 | every header is numbered, and their sorted distinct numbers are [60, 75, 80, 90, 105, 125, 200] |
| AbycData.ComputeTableVIBKnownTemps | abyc_data.py:49 | `_ColumnSortedValues` on Table VI-B returns [60, 75, 80, 90, 105, 125, 200] |
| AbycData.TableIXColumnsAsWritten | abyc_data.py:59 | the Table IX header spelled out, ending in `awg_170` without "ft" |
| AbycData.TableIXHeaderNumber | abyc_data.py:59 | header k carries the k-th length of 10, 15, 20, 25, 30, 40, ..., 170 |
| AbycData.TableIXKnownLengthsAscend | abyc_data.py:78 | the known lengths ascend strictly |
| AbycData.TableIXHeadersGiveKnownLengths | abyc_data.py:59-78 | every header is numbered, and the set of header numbers is exactly the set of known lengths |
| AbycData.TableIXKnownLengths | abyc_data.py:78 | the sorted distinct header numbers are the 19 known lengths, 170 included |
| AbycData.ComputeKnownLengthsFt | abyc_data.py:78 | `_ColumnSortedValues` on any frame with the Table IX header returns the 19 known lengths |
| AbycData.TableIX12V3PcRowsThicken | abyc_data.py:60-72 | every 12 V/3 % row has at most 19 cells, none thicker than 4/0, and its gauge number never increases as length grows |
| AbycData.TableIX12V3PcColumnsThicken | abyc_data.py:60-72 | each 12 V/3 % row ends no later than the row above and is no thinner at any length where it has a cell |
| AbycData.TableIX12V3PcShape | abyc_data.py:58-75 | the 12 V/3 % table has the common shape, with rows for 5, 10, 15, 20, 25, 30, 40, ..., 100 A |
| AbycData.TableIX24V3PcRowsThicken | abyc_data.py:84-96 | the same row property for 24 V/3 % |
| AbycData.TableIX24V3PcColumnsThicken | abyc_data.py:84-96 | the same row-to-row property for 24 V/3 % |
| AbycData.TableIX24V3PcShape | abyc_data.py:82-99 | 24 V/3 % has the common shape |
| AbycData.TableIX32V3PcRowsThicken | abyc_data.py:109-121 | the same row property for 32 V/3 % |
| AbycData.TableIX32V3PcColumnsThicken | abyc_data.py:109-121 | the same row-to-row property for 32 V/3 % |
| AbycData.TableIX32V3PcShape | abyc_data.py:107-124 | 32 V/3 % has the common shape |
| AbycData.TableIX12V10PcRowsThicken | abyc_data.py:134-146 | the same row property for 12 V/10 % |
| AbycData.TableIX12V10PcColumnsThicken | abyc_data.py:134-146 | the same row-to-row property for 12 V/10 % |
| AbycData.TableIX12V10PcShape | abyc_data.py:132-149 | 12 V/10 % has the common shape |
| AbycData.TableIX24V10PcAsWrittenRowsThicken | abyc_data.py:159-171 | the same row property for 24 V/10 % as written |
| AbycData.TableIX24V10PcAsWrittenColumnsThicken | abyc_data.py:159-171 | the same row-to-row property for 24 V/10 % as written |
| AbycData.TableIX24V10PcAsWrittenShape | abyc_data.py:157-174 | 24 V/10 % as written has the common row labels except that the second is 0 |
| AbycData.TableIX24V10PcShape | abyc_data.py:160 | with the second label read as 10, 24 V/10 % has the common shape |
| AbycData.TableIX32V10PcRowsThicken | abyc_data.py:184-196 | the same row property for 32 V/10 % |
| AbycData.TableIX32V10PcColumnsThicken | abyc_data.py:184-196 | the same row-to-row property for 32 V/10 % |
| AbycData.TableIX32V10PcShape | abyc_data.py:182-199 | 32 V/10 % has the common shape |
| AbycData.ThickensEverywhere | abyc_data.py:60-72 | a row whose gauge never increases from one length to the next is no thinner at any longer length |
| AbycData.ThickerFurtherBelow | abyc_data.py:60-72 | in a table of the common shape, any lower row is no thinner than any higher row |
| AbycData.TableIXCurrentsAscend | abyc_data.py:60-72 | the common current labels ascend strictly |
| AbycData.TableIX24V10PcAsWrittenLabelsDescend | abyc_data.py:159-161 | the 24 V/10 % labels as written do not ascend |
| Abyc.AwgVsCurrentForInsulationTempRating | abyc.py:15-21 | refuses a rating exactly when it is not a known rating; otherwise returns the column named `current_<T>C`, plus `_engroom` in the engine room |
| Abyc.KnownRatingsSelectColumn | abyc.py:20-21 | a known rating selects the same column position that the wire.py selector reads |
| Abyc.KnownTempsAgree | abyc_data.py:49 | the known ratings of both Table VI-B copies are the same list |
| Abyc.TableVIBHeaderFollowsRatings | abyc_data.py:30 | the abyc_data.py header is the rating-by-rating layout with the `_engroom` suffix |
| Abyc.TableVIBCopiesHaveSameRows | abyc_data.py:31-45 | the two Table VI-B copies hold identical rows |
| Abyc.TableVIBCopiesHeadersDiffer | abyc_data.py:30 | the two headers agree except that each engine-room name ends in `_engroom` instead of `_eng` |
| Abyc.AccessorAgreesWithWire | abyc.py:15-21 | the accessor returns exactly what the wire.py column lookup returns for every rating |
| Abyc.Table9AsWritten | abyc.py:27-43 | an entry exists exactly for 12, 24 and 32 V with a 3 % or 10 % drop, and each comes with the 19 known lengths |
| Abyc.Table9 | abyc.py:27-43 | the same six keys and lengths, with the corrected 24 V/10 % table |
| Abyc.Table9Shaped | abyc.py:27-43 | every corrected entry has the common shape |
| Abyc.FirstAtLeast | abyc_test.py:71-97 | the bucket found is the first tabulated value at or above the request; none means every value is below it |
| Abyc.FirstAtLeastFindsFirst | abyc_test.py:71-97 | the first value at or above the request is the bucket found |
| Abyc.FirstAtLeastIsCeiling | abyc_test.py:71-97 | on ascending values the bucket found is exactly the ceiling of the request |
| Abyc.FirstAtLeastMonotonic | abyc_test.py:71-97 | a smaller request never lands in a later bucket |
| Abyc.FirstAtLeastFindsTabulated | abyc_test.py:84-85 | a tabulated value is its own bucket (70 ft reads the 70 ft column) |
| Abyc.NumberedColumn | abyc_data.py:21-22 | the column found is the first whose header carries the number; none means no header does |
| Abyc.NumberedColumnOfAscendingHeader | abyc_data.py:21-23 | in a header whose numbers ascend, the l-th number is found at column l |
| Abyc.TableIXLengthColumn | abyc_data.py:59 | the l-th known length is found at Table IX column l |
| Abyc.VoltageDropGauge | abyc_test.py:71-97 | fails with "length out of range" exactly when the run is longer than every known length; the only other failures are a blank cell, a current beyond the last row, or a length bucket that no header's number names |
| Abyc.ShapedTableReadsCeilingCell | abyc_test.py:71-97 | on a table of the common shape, the result is gauge g exactly when the cell at the ceiling current and ceiling length holds g, and the lookup never misses a column |
| Abyc.ShapedTableReadsCell | abyc_test.py:71-97 | on a table of the common shape, the result is the ceiling cell's gauge, or "no acceptable gauge" when that cell is blank |
| Abyc.BucketCell | abyc_test.py:71-97 | the positional bucket read fails with "length out of range" exactly when the run exceeds every known length, and otherwise only with "no acceptable gauge" |
| Abyc.LookupReadsByPosition | abyc_data.py:59-78 | on the Table IX header, looking columns up by their numbers is the same as reading them by position |
| Abyc.ShapedTableGaugeNoThickerThanFourOught | abyc_data.py:60-72 | on a table of the common shape every gauge read is 4/0 or thinner |
| Abyc.LongerRunNeverThinner | abyc_data.py:60-72 | on a shaped table, a longer run never gets a thinner gauge, and a shorter run succeeds whenever a longer one does |
| Abyc.LargerCurrentNeverThinner | abyc_data.py:60-72 | on a shaped table, a larger current never gets a thinner gauge, and a smaller current succeeds whenever a larger one does |
| Abyc.AwgForCircuit | abyc.py:27-43 | fails with "no table" exactly when (voltage, drop %) is not a key of the dispatch |
| Abyc.CircuitGaugeParses | wire.py:17-34 | the selector's canonical gauge is a spelling the gauge parser accepts, and it parses back to the number in the cell read |
| Abyc.CircuitReadsCeilingCell | abyc_test.py:71-97 | the selector's result is the canonical form of the ceiling cell of the dispatched table, or "no acceptable gauge" when that cell is blank |
| Abyc.CircuitErrors | abyc_test.py:79-81 | for a known table it fails with "length out of range" exactly beyond 170 ft; every other failure is "no acceptable gauge" |
| Abyc.LongestRunIs170Ft | abyc_data.py:59 | a run exceeds every known length exactly when it is longer than 170 ft |
| Abyc.CircuitLongerRunNeverThinner | abyc_test.py:71-97 | the selector never picks a thinner gauge for a longer run |
| Abyc.CircuitLargerCurrentNeverThinner | abyc_test.py:71-97 | the selector never picks a thinner gauge for a larger current |
| Abyc.Circuit12V4A9Ft | abyc_test.py:71-72 | 12 V, 4 A, 9 ft selects 18 AWG |
| Abyc.Circuit24V24A71Ft | abyc_test.py:75-76 | 24 V, 24 A, 71 ft selects 4 AWG |
| Abyc.Circuit12V80A100FtFails | abyc_test.py:79-81 | 12 V, 80 A, 100 ft fails: the 80 A row ends at 80 ft |
| Abyc.Circuit32V25A70Ft | abyc_test.py:84-85 | 32 V, 25 A, 70 ft with the default 3 % drop selects 6 AWG |
| Abyc.Circuit32V25A70Ft10Pc | abyc_test.py:88-91 | the same circuit at 10 % drop selects 10 AWG |
| Abyc.Circuit32V2A12Ft10Pc | abyc_test.py:94-97 | 32 V, 2 A, 12 ft at 10 % selects 18 AWG |
| Abyc.Circuit12V20A170FtIsTwoOught | abyc_data.py:63 | 12 V, 20 A, 170 ft selects the cell 2/0 and returns it spelled "2/0" |
| Abyc.TwoOughtRendersAsWritten | wire.py:31-32 | gauge -1 renders as the string "2/0" |
| Abyc.AwgForCircuitAsWritten | abyc.py:27-43 | over the dispatch as written, it fails with "no table" exactly off the six keys |
| Abyc.AsWrittenTenAmpRowUnreachable | abyc_data.py:160 | with the row labelled 0, no current ever lands in the 24 V/10 % table's second row |
| Abyc.CorrectedTenAmpRowServesUpToTenAmps | abyc_data.py:160 | with the label 10, every current above 5 A and up to 10 A lands in that row |
| Abyc.CircuitAsWrittenReadsCell | abyc_test.py:71-97 | over the dispatch as written, the selector returns the canonical form of the cell in the first row labelled at or above the current |
| Abyc.Circuit24V8A40Ft10PcAsWritten | abyc_data.py:159-161 | as written, 24 V, 8 A, 40 ft at 10 % skips the 10 A row and selects 14 AWG |
| Abyc.Circuit24V8A40Ft10Pc | abyc_data.py:159-161 | corrected, the same circuit reads the 10 A row and selects 16 AWG |
| Abyc.LengthColumn12VAsWritten | abyc.py:46-52 | GetAWGForLengthAnd12VCurrent up to its column lookup: refuses an untabulated length; otherwise looks up the column named `awg_<L>ft` and fails when it is missing |
| Abyc.LengthColumnName | abyc.py:51 | the first digit run of the name built for a length is that length, so only a header with that number can match it |
| Abyc.LengthColumn12VAsWrittenMisses170 | abyc.py:51 | 170 ft is a known length, yet its lookup fails because no header is `awg_170ft` |
| Abyc.NoTableIXHeaderReads170ft | abyc_data.py:59 | no Table IX header is spelled `awg_170ft` |
| Abyc.HeaderName170ftNumber | abyc.py:51 | the name built for 170 ft is `awg_170ft`, numbered 170 |
| Abyc.HeaderBefore170Number | abyc_data.py:59 | none of the first 18 Table IX headers is numbered 170 |
| Abyc.LengthColumn12V | abyc.py:46-52 | the corrected accessor refuses exactly the untabulated lengths and otherwise returns the column whose header carries that length |
| Abyc.LengthColumn12VFindsEveryLength | abyc_data.py:59-78 | the corrected accessor returns column l of the 12 V/3 % table for the l-th known length |
| Abyc.LengthColumn12VTotal | abyc.py:47-51 | the corrected accessor succeeds exactly on the known lengths |

## Left out

- `SolidWireDiameter`, `SolidWireCrossSectionalArea` and `SolidWireResistancePerUnitLength` (wire.py:37-53) are not modelled. They compute floating-point powers and π with unit-library quantities.
- wire_test.py:18-68 tests `SolidAWGDiameter`, which does not exist in wire.py. Only its "xxx" case, which concerns parsing, is modelled (`Wire.NonNumericSpellingFails`).
- The `quantities` library is left out: the `.rescale(...).magnitude` conversions become plain amperes, degrees Celsius, feet and volts.
- pandas is left out: `read_csv`, `set_index` and boolean masking. The tables are transcribed as constants, with blank cells and cells past a short row's end as `None`.
- `Wire.AmpacityColumn` models `df[name]` as a search of the header list. Duplicate headers, which pandas would return as a frame, do not occur in these tables.
- battery.py, wearable.py, heat_transfer.py, resistivity.py and test_utils.py are not part of this model. They hold floating-point physics formulas and a numpy helper.
- No selector combines ampacity with voltage drop, because the code has none.
- `Decimal.ParseInt` accepts an optional '-' or '+' followed by ASCII digits. Python's `int()` also accepts surrounding whitespace, underscores between digits and non-ASCII digits; none of these occurs in the tables or the tests.
- Decimal.FirstDigitRun: `Decimal.IsDigit` is ASCII '0'..'9' only. In the header regex of `_ColumnSortedValues` (abyc_data.py:21), Python's `\d` and `\D` also treat non-ASCII decimal digits as digits. Every header is ASCII, so no result changes.
- Wire.AwgSpecificationToNumber: a gauge is an integer or a string. wire.py:26 also applies `int()` to a float, truncating it (3.7 becomes 3); non-integer numeric gauges are not modelled.
- `AbycData.SortedSet` models Python's `sorted` on a set by repeatedly taking out the least element. Only its result is modelled, not the sorting algorithm Python uses.
- `Wire.WireGaugeUpToThreeConductorBundle`'s own contract states only when the rating is refused. What it returns otherwise is stated by `Wire.SelectorFailsIffNoRowAdequate`, `Wire.SelectorReturnsFirstAdequateRow` and `Wire.SelectorChoosesThinnestAdequateGauge`.
- abyc.py:15-21 uses `TABLE_VI_B_KNOWN_TEMPS_C`, `TABLE_VI_B` and `mag_temp_C` without defining or importing them, so as written it raises `NameError`. The model gives its evident intent: the abyc_data.py table and its known ratings, with `insulation_temp_rating_C` as the rating.
- abyc.py:47 also names an undefined `TABLE_IX_12V_3PC_KNOWN_LENGTHS`. The model uses `TABLE_IX_12V_3PC_KNOWN_LENGTHS_FT`.
- abyc.py:52 stops mid-statement, so `GetAWGForLengthAnd12VCurrent` is modelled only up to selecting the length column. What it was going to do with the current is unknown.
- abyc_test.py calls `abyc.GetWireGaugeUpToThreeConductorBundle` and `abyc.GetAWGForCircuit`, and neither exists.
  - The first set of tests is modelled against wire.py's `AmericanBoatAndYachtCouncilWireGaugeUpToThreeConductorBundle`.
  - The second set is modelled against `Abyc.AwgForCircuit`. It dispatches through `_TABLE9` and rounds the current and the length up to the next tabulated bucket.
- Abyc.AwgForCircuit: its own contract states only the dispatch failure. The cell it reads and its other failures are stated by `Abyc.CircuitReadsCeilingCell` and `Abyc.CircuitErrors`.

## Findings

| source | as written | input that shows it | evidently intended | confidence | as-written member | corrected member |
|---|---|---|---|---|---|---|
| abyc_data.py:59 and abyc.py:51 | The last Table IX header is `awg_170`, without "ft", and the length accessor builds the name `awg_%dft`. | length 170 ft: it is in the known lengths, but `awg_170ft` is not a header, so the lookup fails | every known length addresses its column (for example, by the header's number) | high; not executed | Abyc.LengthColumn12VAsWrittenMisses170 | Abyc.LengthColumn12VFindsEveryLength |
| abyc_data.py:160 | The second row of the 24 V/10 % table is labelled 0 instead of 10, between the 5 A and 15 A rows. | 24 V, 8 A, 40 ft at 10 %: the round-up skips the row and reads the 15 A row (14 AWG) instead of the 10 A row (16 AWG) | the row is the 10 A row, so currents above 5 A and up to 10 A read it | high; not executed | Abyc.AsWrittenTenAmpRowUnreachable | Abyc.CorrectedTenAmpRowServesUpToTenAmps |
