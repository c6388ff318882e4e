# swift-benchmark: the plain-text reporter

This project models `PlainTextReporter.report(results:)` from swift-benchmark.
The reporter turns finished benchmark results into one aligned text table and
writes it to a text sink, line by line. The table has a header, a rule of
dashes, and one row per result.

The reporter's own implementation is not part of this model. Its behaviour is
rebuilt from the four expected tables in
`Tests/BenchmarkTests/BenchmarkReporterTests.swift`: from the names, numbers,
widths and spacing those tables show.

## What is modelled

- `decimals.dfy` (`Decimals`) holds exact decimals m / 10^k.
  - `Format` is plain decimal notation, shortest, with at least one fractional digit (`1500.0`, `7.0`, `0.123456789`).
  - `FormatHundredths` is `%.2f`.
  - `Parse` and `Canonical` are the partners these are proved against.
- `statistics.dfy` (`Statistics`) holds the mean of the samples and their relative sample standard deviation in hundredths of a percent. Both are computed exactly from integer nanoseconds; the square root is an integer rounded square root.
- `layout.dfy` (`Layout`) holds a generic grid:
  - column widths are the maximum over label and cells;
  - labels are padded on the right;
  - cells are padded by their column's alignment;
  - one space separates columns;
  - the rule is as long as the header.
- `reporter.dfy` (`Reporter`) holds the reporter itself:
  - result records and time units;
  - the column schema: name, time, std and iterations, then one column per counter, then warmup;
  - the cell formatting;
  - the sink class `MockTextOutputStream`;
  - the class `PlainTextReporter`, whose `Report` method writes the table line by line in a loop.
- `test_comparison.dfy` (`TestComparison`) models `assertIsPrintedAs`. It trims each written line, drops empty lines, and compares the rest pairwise with the expected lines for as far as both go (`zip`).
- `table_facts.dfy` (`TableFacts`) holds small facts shared by the four concrete tables.
- Each expected table has its own file:
  - `plain_table.dfy`;
  - `counters_table.dfy`;
  - `warmup_table.dfy`;
  - `units_table.dfy`.

  Each file proves that the model's report of the test's results is seen by the comparison as exactly the expected lines, and that the test method passes.
- `report_properties.dfy` (`ReportProperties`) holds what holds for every input:
  - the column schema;
  - how each cell can be read back;
  - where each label and cell sits on its line.

The unit conversion is a parameter (`UnitExponents`):
- `Standard` divides by 10^0, 10^3, 10^6 and 10^9;
- `TestedExponents` divides milliseconds by 10^5, which is what the expected table implies.

See "## Findings".

## Model

| member | source | states |
|---|---|---|
| Reporter.MockTextOutputStream.Write | Tests/BenchmarkTests/BenchmarkReporterTests.swift:21 | writing a line appends it to the sink's lines and changes nothing else |
| Reporter.PlainTextReporter.Report | Tests/BenchmarkTests/BenchmarkReporterTests.swift:21-24 | one report appends exactly the table's lines to the sink, in order, after whatever it held |
| Reporter.PlainTextReporter.WriteTable | Tests/BenchmarkTests/BenchmarkReporterTests.swift:24 | the write loop leaves the sink holding its old lines followed by header, rule and every row in order |
| Reporter.HasWarmup | Tests/BenchmarkTests/BenchmarkReporterTests.swift:82-101 | true exactly when some result has warmup samples |
| Reporter.CounterNames | Tests/BenchmarkTests/BenchmarkReporterTests.swift:58-78 | a name is collected exactly when some result carries that counter |
| TestComparison.AssertIsPrintedAs | Tests/BenchmarkTests/BenchmarkReporterTests.swift:20-31 | a fresh sink and reporter, one report, then the comparison: passes exactly when the report's trimmed non-empty lines agree with the expected lines as far as both go |
| TestComparison.TrimStartDrops | Tests/BenchmarkTests/BenchmarkReporterTests.swift:27 | trimming the front leaves a suffix of the line; every character cut off is whitespace, and what is left starts with a visible character or is empty |
| TestComparison.TrimEndDrops | Tests/BenchmarkTests/BenchmarkReporterTests.swift:27 | trimming the end leaves a prefix of the line; every character cut off is whitespace, and what is left ends with a visible character or is empty |
| TestComparison.TrimSpec | Tests/BenchmarkTests/BenchmarkReporterTests.swift:27 | the trimmed line is a slice of the line, everything cut off on both sides is whitespace, and a non-empty result starts and ends with visible characters |
| TestComparison.TrimIdempotent | Tests/BenchmarkTests/BenchmarkReporterTests.swift:27 | trimming a trimmed line changes nothing |
| TestComparison.NormalizedSpec | Tests/BenchmarkTests/BenchmarkReporterTests.swift:27-28 | every compared line is non-empty and already trimmed, there are at most as many as written lines, and there are none exactly when every written line is blank |
| TestComparison.NormalizedIdempotent | Tests/BenchmarkTests/BenchmarkReporterTests.swift:27-28 | normalizing the compared lines again changes nothing |
| TestComparison.NormalizedAppend | Tests/BenchmarkTests/BenchmarkReporterTests.swift:27-28 | the compared lines of two blocks of written lines are those of the first block followed by those of the second: they keep the order written |
| TestComparison.NormalizedOne | Tests/BenchmarkTests/BenchmarkReporterTests.swift:27-28 | a single written line contributes its trimmed text exactly when that is non-empty |
| TestComparison.NormalizedTrimmed | Tests/BenchmarkTests/BenchmarkReporterTests.swift:26-30 | when every written line trims to its non-empty expected line, the comparison sees exactly the expected lines and accepts them |
| TestComparison.DisagreesAt | Tests/BenchmarkTests/BenchmarkReporterTests.swift:29-30 | one compared line that differs from its expected line makes the comparison fail |
| TestComparison.TrimPadded | Tests/BenchmarkTests/BenchmarkReporterTests.swift:27 | trailing padding is removed by the trimming |
| TestComparison.TrimJoinBlank | Tests/BenchmarkTests/BenchmarkReporterTests.swift:27 | a row whose last cell is blank trims to the row without that cell |
| TestComparison.TrimJoinPadded | Tests/BenchmarkTests/BenchmarkReporterTests.swift:27 | a header whose last label is padded trims to the header with the bare label |
| Decimals.FormatRoundTrip | Tests/BenchmarkTests/BenchmarkReporterTests.swift:52-53 | every formatted decimal parses back to the same number and is in shortest form (no leading zero, no trailing zero beyond one fractional digit) |
| Decimals.FormatHundredthsRoundTrip | Tests/BenchmarkTests/BenchmarkReporterTests.swift:52-53 | the two-decimal text of h hundredths parses back to exactly h / 100, with exactly two digits after the point and no leading zero before it (`47.14`, `0.00`) |
| Decimals.NatToStringValue | Tests/BenchmarkTests/BenchmarkReporterTests.swift:52-53 | the decimal numeral of n spells n |
| Statistics.Mean | Tests/BenchmarkTests/BenchmarkReporterTests.swift:52-53 | the mean times the count is the sum of the samples whenever the mean is a finite decimal, and an empty list has mean 0 |
| Statistics.RelativeStdHundredths | Tests/BenchmarkTests/BenchmarkReporterTests.swift:52-53 | 0 for fewer than two samples or a zero sum; otherwise the nearest integer to 10^4 * (sample standard deviation / mean) |
| Statistics.RoundedSqrtUnique | Tests/BenchmarkTests/BenchmarkReporterTests.swift:52-53 | the rounded square root is unique, so the std value is determined |
| Statistics.RelativeStdScaleInvariant | Tests/BenchmarkTests/BenchmarkReporterTests.swift:52-53 | scaling every sample by the same positive factor leaves the relative deviation unchanged (47.14 both for 1000/2000 and for 1000000/2000000) |
| Statistics.RelativeStdOfEqualSamples | Tests/BenchmarkTests/BenchmarkReporterTests.swift:136-139 | samples that are all equal have relative deviation 0 |
| Layout.ColumnWidthIsMaximum | Tests/BenchmarkTests/BenchmarkReporterTests.swift:50-53 | a column's width is at least its label and every cell, and equals one of them |
| Layout.WidthIsMaximum | Tests/BenchmarkTests/BenchmarkReporterTests.swift:50-53 | the same, for every column of a grid |
| Layout.PadRight | Tests/BenchmarkTests/BenchmarkReporterTests.swift:50 | the text followed by spaces up to the width; it is never truncated |
| Layout.PadLeft | Tests/BenchmarkTests/BenchmarkReporterTests.swift:52-53 | spaces up to the width followed by the text; it is never truncated |
| Layout.LinesHaveCommonWidth | Tests/BenchmarkTests/BenchmarkReporterTests.swift:50-53 | header, rule and every row have the same length, and the rule is all dashes |
| Layout.HeaderColumnAt | Tests/BenchmarkTests/BenchmarkReporterTests.swift:50 | label j occupies the slice of the header starting at column j's start, padded on the right to the column's width |
| Layout.RowColumnAt | Tests/BenchmarkTests/BenchmarkReporterTests.swift:52-53 | cell j of a row occupies the slice starting at column j's start, padded by the column's alignment |
| Layout.HeaderSeparatedAt | Tests/BenchmarkTests/BenchmarkReporterTests.swift:50 | a space follows every label but the last |
| Layout.RowSeparatedAt | Tests/BenchmarkTests/BenchmarkReporterTests.swift:52-53 | a space follows every cell but the last |
| Layout.LinesShape | Tests/BenchmarkTests/BenchmarkReporterTests.swift:50-53 | the lines are the header, the rule, then one row per entry in order |
| ReportProperties.MandatoryColumnsFirst | Tests/BenchmarkTests/BenchmarkReporterTests.swift:50 | name, time, std and iterations come first in this order; every later column is a counter or warmup |
| ReportProperties.CounterColumnIff | Tests/BenchmarkTests/BenchmarkReporterTests.swift:58-78 | a counter column appears if and only if some result carries that counter |
| ReportProperties.WarmupColumnIff | Tests/BenchmarkTests/BenchmarkReporterTests.swift:82-101 | the warmup column appears if and only if some result has warmup samples, and is then the last column |
| ReportProperties.ColumnsDistinct | Tests/BenchmarkTests/BenchmarkReporterTests.swift:74 | no column appears twice |
| ReportProperties.ColumnAlignment | Tests/BenchmarkTests/BenchmarkReporterTests.swift:52-53 | only the name column is left-aligned; time, std, iterations, counters and warmup are right-aligned |
| ReportProperties.TimeCellReadsBack | Tests/BenchmarkTests/BenchmarkReporterTests.swift:136-139 | the time cell is a canonical decimal that reads back as the time value, then a space, then the unit's suffix |
| ReportProperties.TimeValueIsMean | Tests/BenchmarkTests/BenchmarkReporterTests.swift:52-53 | the time value times 10^e, where e is the unit's exponent, is the mean of the samples |
| ReportProperties.StandardDividesByUnit | Tests/BenchmarkTests/BenchmarkReporterTests.swift:136-139 | the standard conversion divides by 1, 1000, 10^6 and 10^9 nanoseconds for ns, us, ms and s |
| ReportProperties.StandardTimeInUnit | Tests/BenchmarkTests/BenchmarkReporterTests.swift:138 | under the standard conversion, the time value times the nanoseconds per unit is the mean in nanoseconds |
| ReportProperties.StdCellReadsBack | Tests/BenchmarkTests/BenchmarkReporterTests.swift:52-53 | the std cell is "± ", the two-decimal value right-aligned in six characters, then " %"; the value reads back as the relative deviation in hundredths, with two fractional digits and no leading zero |
| ReportProperties.OneSampleStdCell | Tests/BenchmarkTests/BenchmarkReporterTests.swift:136-139 | fewer than two samples give "±   0.00 %" |
| ReportProperties.StdCellScaleInvariant | Tests/BenchmarkTests/BenchmarkReporterTests.swift:52-53 | scaling every sample by a positive factor leaves the std cell unchanged |
| ReportProperties.IterationsCellCounts | Tests/BenchmarkTests/BenchmarkReporterTests.swift:52-53 | the iterations cell is a numeral whose value is the number of samples, with no leading zero |
| ReportProperties.CounterCellReadsBack | Tests/BenchmarkTests/BenchmarkReporterTests.swift:76-77 | a counter cell is blank if and only if the result lacks the counter; otherwise it is a canonical decimal reading back as the counter's value |
| ReportProperties.WarmupCellReadsBack | Tests/BenchmarkTests/BenchmarkReporterTests.swift:100-101 | the warmup cell is blank if and only if there are no warmup samples; otherwise it ends in " ns" and reads back as a canonical decimal equal to their sum |
| ReportProperties.RowsInInputOrder | Tests/BenchmarkTests/BenchmarkReporterTests.swift:35-53 | the report is the header, the rule, then for each result in input order the row of its cells |
| ReportProperties.RuleMatchesHeader | Tests/BenchmarkTests/BenchmarkReporterTests.swift:51 | the rule is a run of dashes exactly as long as the header, and every line has the header's length |
| ReportProperties.ColumnWidthIsWidest | Tests/BenchmarkTests/BenchmarkReporterTests.swift:134-139 | each column is as wide as its widest entry, label or cell, and that width is attained |
| ReportProperties.LabelAt | Tests/BenchmarkTests/BenchmarkReporterTests.swift:50 | on the header, the column's label sits at the column's start, padded on the right to its width |
| ReportProperties.TableCell | Tests/BenchmarkTests/BenchmarkReporterTests.swift:52-53 | row i of the table holds result i's cell for column j, with that column's alignment |
| ReportProperties.HeaderColumnsSeparated | Tests/BenchmarkTests/BenchmarkReporterTests.swift:50 | on the header, a space follows each column but the last |
| ReportProperties.RowColumnsSeparated | Tests/BenchmarkTests/BenchmarkReporterTests.swift:52-53 | on every row, a space follows each column but the last |
| PlainTable.FastStd | Tests/BenchmarkTests/BenchmarkReporterTests.swift:52 | the relative sample deviation of [1000, 2000] is 47.14 % |
| PlainTable.PlainTextReporterTable | Tests/BenchmarkTests/BenchmarkReporterTests.swift:34-54 | the model's report of the two results is the expected four lines |
| PlainTable.PlainTextReporterPrinted | Tests/BenchmarkTests/BenchmarkReporterTests.swift:49-55 | the comparison sees exactly the expected lines and accepts them |
| PlainTable.TestPlainTextReporter | Tests/BenchmarkTests/BenchmarkReporterTests.swift:34-56 | testPlainTextReporter passes |
| CountersTable.FooCells | Tests/BenchmarkTests/BenchmarkReporterTests.swift:65-77 | counter 7 is shown as "7.0", and the result without it gets a blank cell |
| CountersTable.CountersAreReported | Tests/BenchmarkTests/BenchmarkReporterTests.swift:58-79 | with the counter "foo" the comparison sees exactly the expected lines (foo column, 51 dashes) and accepts them |
| CountersTable.TestCountersAreReported | Tests/BenchmarkTests/BenchmarkReporterTests.swift:58-80 | testCountersAreReported passes |
| WarmupTable.WarmupCells | Tests/BenchmarkTests/BenchmarkReporterTests.swift:88-101 | warmup [10, 20, 30] is shown as "60.0 ns", and the result without warmup gets a blank cell |
| WarmupTable.WarmupReported | Tests/BenchmarkTests/BenchmarkReporterTests.swift:82-103 | with warmup on one result the comparison sees exactly the expected lines (warmup column, 55 dashes) and accepts them |
| WarmupTable.TestWarmupReported | Tests/BenchmarkTests/BenchmarkReporterTests.swift:82-104 | testWarmupReported passes |
| UnitsTable.OneSampleCells | Tests/BenchmarkTests/BenchmarkReporterTests.swift:136-139 | one sample of 123456789 ns gives std "±   0.00 %" and iterations "1" |
| UnitsTable.NsTimeCell | Tests/BenchmarkTests/BenchmarkReporterTests.swift:136 | 123456789 ns in ns is "123456789.0 ns" |
| UnitsTable.UsTimeCell | Tests/BenchmarkTests/BenchmarkReporterTests.swift:137 | in us it is "123456.789 us" |
| UnitsTable.STimeCell | Tests/BenchmarkTests/BenchmarkReporterTests.swift:139 | in s it is "0.123456789 s" |
| UnitsTable.TestedMsTimeCell | Tests/BenchmarkTests/BenchmarkReporterTests.swift:138 | under the tested conversion, in ms it is "1234.56789 ms", as the test expects |
| UnitsTable.StandardMsTimeCell | Tests/BenchmarkTests/BenchmarkReporterTests.swift:138 | under the 10^6 conversion, in ms it is "123.456789 ms" |
| UnitsTable.TestedMsTenfold | Tests/BenchmarkTests/BenchmarkReporterTests.swift:138 | under the tested conversion, every millisecond time is ten times the mean in milliseconds |
| UnitsTable.TimeUnitReportedAsTested | Tests/BenchmarkTests/BenchmarkReporterTests.swift:106-141 | under the tested conversion the report is exactly the expected six lines, and the comparison accepts it |
| UnitsTable.MsRowsDiffer | Tests/BenchmarkTests/BenchmarkReporterTests.swift:138 | the corrected and the expected millisecond rows are different lines |
| UnitsTable.TimeUnitReportedCorrected | Tests/BenchmarkTests/BenchmarkReporterTests.swift:133-141 | under the 10^6 conversion the report is the corrected table, which the comparison accepts; the comparison with the test's table fails |
| UnitsTable.TestTimeUnitReported | Tests/BenchmarkTests/BenchmarkReporterTests.swift:106-142 | testTimeUnitReported passes against the tested conversion |
| UnitsTable.TestTimeUnitReportedStandard | Tests/BenchmarkTests/BenchmarkReporterTests.swift:106-142 | testTimeUnitReported fails against the 10^6 conversion |
| UnitsTable.TestTimeUnitReportedCorrected | Tests/BenchmarkTests/BenchmarkReporterTests.swift:133-141 | the test with the corrected millisecond row passes against the 10^6 conversion |

## Left out

- The reporter's source (`PlainTextReporter` and its statistics helpers) is not part of this model. Two rules are fixed by the tables rather than by the usual definitions:
  - the std column is the sample deviation (divide by n - 1), because 47.14 for [1000, 2000] is 707.1 / 1500; the population deviation would give 33.33;
  - the warmup cell is the sum of the warmup samples, because [10, 20, 30] is shown as 60.0 ns; the mean would be 20.0 ns.
- Floating point is left out. Samples are integer nanoseconds and every number is computed exactly. The std is the integer nearest to 10^4 * sd / mean, with halves rounded up. Swift's `Double` square root and `%6.2f` rounding can differ from this in the last digit on inputs at a rounding boundary.
- `Statistics.Mean`: when the mean is not a finite decimal (n does not divide S * 10^n), the model truncates to n fractional digits. Swift's shortest `Double` description is not modelled. Mean promises nothing for such means, and the time-value lemmas require `ExactMean`.
- The order of several counter columns is a parameter (`counterOrder`). It only has to list each counter name once. Swift keeps counters in a dictionary, and no test has two counters.
- Trailing padding and the exact number of lines are the model's own choice: blank last cells and padded last labels are kept as spaces. The tests trim every line and compare with `zip`, so they fix neither. The whole-table equalities in the per-table files are facts about this model. What the tests promise is the `Normalized`/`PrintedAs` part.
- The `TextOutputStream` protocol, XCTest, and the lookup of `BenchmarkSettings([TimeUnit(...)])` are left out. The sink is a class holding a sequence of lines, a setting is just its time unit, and the default setting is nanoseconds.
- Counter values are exact decimals, not `Double`.
- The split of the expected text, `expected.split(separator: "\n")`, is not modelled. `AssertIsPrintedAs` takes the expected lines already split. Swift's split also drops empty pieces, so blank lines in the expected text would not count; none of the four expected tables has one.
- Decimals.Format: Swift switches to exponent form for very small or very large values (50 ns shown in seconds is `5e-08 s`). The model always prints plain notation (`0.00000005 s`). No test reaches that range.
- Reporter.Cell: a counter cell uses the same shortest form as a time cell (7 is `7.0`, 7.25 is `7.25`), as a Swift `Double` description does. A fixed single fractional digit is not modelled. The tests show only `7.0`, which both rules give.
- Decimals.Decimal is non-negative, so a negative counter (which Swift would print as `-3.0`) cannot be represented. Times are never negative.
- Layout.Grid.Widths counts Unicode scalars. Swift's `String.count` counts grapheme clusters, so a name with a combining mark (`e` followed by U+0301) is one character shorter there. Every name in the tests is ASCII.
- AssertIsPrintedAs: the trim removes Foundation's `whitespacesAndNewlines` set (tab, U+000A to U+000D, U+0085 and the Unicode separators of category Z), scalar by scalar. Trimming of whole grapheme clusters, such as a space followed by a combining mark, is not modelled.

## Findings

| source | as written | input that shows it | evidently intended | confidence | as-written member | corrected member |
|---|---|---|---|---|---|---|
| Tests/BenchmarkTests/BenchmarkReporterTests.swift:138 | the expected millisecond row is `MySuite.ms  1234.56789 ms`, which is 123456789 ns divided by 10^5 | one sample of 123456789 ns with unit `.ms` (lines 120-125) | 123456789 ns is 123.456789 ms, as it is with the 10^3 and 10^9 divisors of the us and s rows | not executed | UnitsTable.TestedMsTenfold | ReportProperties.StandardTimeInUnit |

- As written: `UnitsTable.TestedMsTenfold` and `UnitsTable.TimeUnitReportedAsTested` show that the test's table is what a 10^5 millisecond divisor produces, and that every millisecond time is then ten times too large. `UnitsTable.TestTimeUnitReportedStandard` shows that the test fails against the 10^6 divisor.
- Corrected: `Reporter.Standard` uses 10^6. `ReportProperties.StandardTimeInUnit` proves that every time it shows is the mean in the result's unit. `UnitsTable.TimeUnitReportedCorrected` and `UnitsTable.TestTimeUnitReportedCorrected` give the corrected table and show that it passes.
