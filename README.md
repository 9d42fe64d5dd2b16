# Weekly MIS report generator — verified model

This project models the core of the WRLDC weekly MIS report generator, a Flask
service. A request names a start date and an end date. For each Monday-to-Sunday
week touching that range, the service reads the week's data from the warehouse
database, assembles a report context with one entry per report section, renders
it into a Word template and saves it as `Weekly_no_<week>_<dd-mm-yyyy>_to_<dd-mm-yyyy>.docx`.

Modules, following the program's own structure:

| module | models |
|---|---|
| `Calendar` (calendar.dfy) | the parts of Python's `datetime` that the code uses: proleptic Gregorian ordinal days (0001-01-01 is day 1), `%w` weekdays, `timedelta(days=…)`, year/month/day fields |
| `Decimal`, `Numbers`, `PyText` | `str(int)`, `int(str)`, floor, `round` (half to even), `"{:0.2f}"` as a symbolic value, `strip()`/`lower()`/`find` |
| `TimeUtils` (time_utils.dfy) | `src/utils/timeUtils.py`: Monday before, Sunday after, week number of the financial year, financial year of a date |
| `StringUtils` (string_utils.dfy) | `src/utils/stringUtils.py`: zero padding, `hh:mm` hour spans, removal of redundant outage remarks |
| `Db` (db.dfy) | the outcome of one database read: rows fetched, or the connection, the cursor or the query failing |
| `FreqProfileFetcher` (freq_profile_fetcher.dfy) | `src/fetchers/freqProfileFetcher.py`: conversion of the derived frequency table and the weekly FDI |
| `VdiFetcher` (vdi_fetcher.dfy) | `src/fetchers/vdiFetcher.py`: conversion of the weekly VDI table into 400 kV and 765 kV station lists |
| `ReportGenerator` (report_generator.dfy) | `src/app/weeklyReportGenerator.py`: the report context, the file name and the class `WeeklyReportGenerator` |
| `Server` (server.dfy) | `server.py:29-57`: the `/weekly_report` handler and its loop over the weeks |

How the outside world enters the model:

- Python exceptions are values. Every operation that can raise returns a
  `Result`, and the `PyError` datatype names the exception class.
- Each database read is a `DbOutcome` parameter. The two modelled fetchers
  turn it into their section exactly as their `try`/`except`/`finally` blocks
  do. A failed connection or cursor leaves `cur` unbound in `finally`, which
  raises UnboundLocalError.
- The fetchers whose files are not part of this model (outages, voltage
  statistics, IEGC violation messages, angle violations, constraints, node
  information) are function-valued fields of a `Sources` datatype. Each returns
  a `Result`.
- `strptime` is the parameter `parseDate`. It returns the ordinal of the day,
  or `None` for text it cannot read.
- Floats are exact reals.

The model follows the code where the code and its documentation disagree, with
one exception: the call at `src/app/weeklyReportGenerator.py:120` is modelled both as
written and corrected (see "## Findings"), and everything downstream of it uses the
corrected call.

- The context is assembled with no isolation of failures: the first fetch that
  raises ends the whole report.
- For January to March, the week number is 1 or less, and usually negative.
  This is because it counts from the April of the date's calendar year
  (`WeekNumJanuaryExample`).
- The handler reads the success flag of the last week only. When the start
  date is after the end date, the flag is unset and reading it raises.

## Model

| member | source | states |
|---|---|---|
| TimeUtils.MondayOnOrBefore | src/utils/timeUtils.py:53-66 | the Monday that the step-back loop reaches is a Monday at most six days before the input, on or before it |
| TimeUtils.SundayOnOrAfter | src/utils/timeUtils.py:69-81 | the Sunday that the step-forward loop reaches is a Sunday at most six days after the input |
| TimeUtils.MondayUnique | src/utils/timeUtils.py:63-66 | any Monday among the seven days ending at `d` is the one the loop finds |
| TimeUtils.SundayUnique | src/utils/timeUtils.py:78-81 | any Sunday among the seven days starting at `d` is the one the loop finds |
| TimeUtils.MondayIdempotent | src/utils/timeUtils.py:53-66 | a Monday is its own Monday; stepping back twice equals stepping back once |
| TimeUtils.MondayOfWeekDays | src/utils/timeUtils.py:53-66 | every day of a Monday-started week steps back to that Monday |
| TimeUtils.SundayAfterMonday | src/utils/timeUtils.py:69-81 | the Sunday after a Monday is six days later |
| TimeUtils.MondaysWeeksApart | src/utils/timeUtils.py:24 | two Mondays differ by a multiple of seven days, so the division by 7 is exact |
| TimeUtils.MondayIsLatest | src/utils/timeUtils.py:53-66 | the Monday found is the latest Monday not after the input |
| TimeUtils.MondayMonotone | src/utils/timeUtils.py:53-66 | a later date never has an earlier Monday |
| TimeUtils.MondayNextWeek | src/utils/timeUtils.py:53-66 | a date a week later has the Monday a week later |
| TimeUtils.WednesdayMondays | src/utils/timeUtils.py:63-66 | the Monday of a Wednesday, and of the Wednesday two weeks later, is two days before it |
| TimeUtils.GetMondayBeforeDt | src/utils/timeUtils.py:53-66 | the loop returns the Monday on or before the date, keeping its time of day |
| TimeUtils.GetSundayAfterDt | src/utils/timeUtils.py:69-81 | the loop returns the Sunday on or after the date, keeping its time of day |
| TimeUtils.FinStartMonday | src/utils/timeUtils.py:17-18 | the start of week 1 is a Monday at most six days before April 1 of the year, on or before it |
| TimeUtils.WeekNumOfFinYr | src/utils/timeUtils.py:4-25 | seven times (week number - 1) is the day distance from the financial-year start Monday to the input's Monday |
| TimeUtils.FinYearOfDay | src/utils/timeUtils.py:47-50 | the year-or-year-before rule applied to one day; it has no contract of its own, and `FinYearOfDayByMonth`, `FinYearOfDaySpan` and `FinYearOfDayUnique` state it |
| TimeUtils.FinYearOfDayByMonth | src/utils/timeUtils.py:42-50 | the financial year is the calendar year from April on and the year before for January to March |
| TimeUtils.FinYearOfDaySpan | src/utils/timeUtils.py:28-50 | a day lies between April 1 of its financial year and April 1 of the next |
| TimeUtils.FinYearOfDayUnique | src/utils/timeUtils.py:28-50 | the year whose April-to-March span holds a day is its financial year |
| TimeUtils.FinYearForDt | src/utils/timeUtils.py:28-50 | `getFinYearForDt`: the financial year of the Sunday six days after the input's Monday; it has no contract of its own, and `FinYearUnique`, `FinYearOfSameWeek` and `FinYearConstantOnWeek` state it |
| TimeUtils.FinYearUnique | src/utils/timeUtils.py:28-50 | the financial year of a date is the one whose span holds the Sunday of its week |
| TimeUtils.FinYearOfSameWeek | src/utils/timeUtils.py:28-50 | dates with the same Monday have the same financial year |
| TimeUtils.FinYearConstantOnWeek | src/utils/timeUtils.py:28-50 | every day of a Monday-to-Sunday week has the same financial year |
| TimeUtils.WeekNumDifference | src/utils/timeUtils.py:4-25 | within one calendar year, week numbers differ by the weeks between the two Mondays |
| TimeUtils.WeekNumNextWeek | src/utils/timeUtils.py:4-25 | a week later in the same calendar year has the next week number |
| TimeUtils.WeekNumFirstWeek | src/utils/timeUtils.py:17-25 | the week holding the Monday before April 1 is week 1 |
| TimeUtils.WeekNumAprilOnwards | src/utils/timeUtils.py:4-25 | from April to December the week number is at least 1 |
| TimeUtils.WeekNumBeforeApril | src/utils/timeUtils.py:4-25 | from January to March the week number is at most 1, and at most 0 before the start Monday |
| TimeUtils.FinStartMonday2020 | src/utils/timeUtils.py:18 | April 1, 2020 has ordinal 737516, and its Monday is two days earlier |
| TimeUtils.MondayBeforeExample | tests/utils/test_timeUtils.py:21-35 | 2020-10-01 has Monday 2020-09-28 and Sunday 2020-10-04, as the unit tests expect |
| TimeUtils.WeekNumExample | tests/utils/test_timeUtils.py:7-12 | 2020-08-10 is in week 20, as the unit test expects |
| TimeUtils.FinYearExample | tests/utils/test_timeUtils.py:14-19 | 2020-03-31 is in financial year 2020, as the unit test expects |
| TimeUtils.WeekNumJanuaryExample | src/utils/timeUtils.py:4-25 | 2021-02-01 is in financial year 2020 but has week number -7 |
| TimeUtils.WeekNumSplitsYearEndWeek | src/utils/timeUtils.py:17-25 | the week from 2019-12-30 to 2020-01-05 has week number 40 on its Monday and -12 on January 1 |
| StringUtils.AddTrailingZeroForTimeComp | src/utils/stringUtils.py:4-16 | 0 to 9 are written as `0` and the digit; other integers, negatives included, as `str` writes them |
| StringUtils.PaddedRoundTrip | src/utils/stringUtils.py:4-16 | the padded text reads back as the number, and is two characters wide from 0 to 99 |
| StringUtils.PaddedHasNoColon | src/utils/stringUtils.py:4-16 | padded text holds no colon |
| StringUtils.SpanMinutes | src/utils/stringUtils.py:29 | the rounded minutes lie between 0 and 60 |
| StringUtils.ConvertHrsToSpanStr | src/utils/stringUtils.py:19-31 | `convertHrsToSpanStr`: padded floor hours, a colon, padded rounded minutes; it has no contract of its own, and `SpanStrHasOneColon`, `SpanStrRoundTrip` and `SpanApproximatesHours` state it |
| StringUtils.SpanStrHasOneColon | src/utils/stringUtils.py:19-31 | a span string has exactly one colon, right after the hours |
| StringUtils.SpanStrRoundTrip | src/utils/stringUtils.py:19-31 | a span string reads back as the floor hours and the rounded minutes |
| StringUtils.SpanApproximatesHours | src/utils/stringUtils.py:19-31 | the span written is within half a minute of the hours given |
| StringUtils.SpanStrExample | src/utils/stringUtils.py:20 | 29.6 hours is written `29:36`, as the docstring says |
| StringUtils.SpanStrSixtyMinutes | src/utils/stringUtils.py:28-31 | 1.995 hours is written `01:60`: a rounded-up fraction is not carried into the hours |
| StringUtils.RemoveRedundantRemarks | src/utils/stringUtils.py:34-53 | an `Outage` tag is cleared; a `None` tag raises AttributeError; otherwise each text is dropped exactly when it is present and equals the tag after `strip().lower()`, and is kept unchanged otherwise |
| StringUtils.RemarksDecidedIndependently | src/utils/stringUtils.py:48-52 | whether the reason is dropped does not depend on the remarks, and the other way round |
| StringUtils.RemoveRedundantRemarksIdempotent | src/utils/stringUtils.py:34-53 | for a tag other than `Outage`, a second pass changes nothing |
| StringUtils.RemoveRedundantRemarksTestOutage | tests/utils/test_stringUtils.py:10-11 | the first unit test case |
| StringUtils.RemoveRedundantRemarksTestBoth | tests/utils/test_stringUtils.py:13-14 | the second unit test case |
| StringUtils.RemoveRedundantRemarksTestRemarks | tests/utils/test_stringUtils.py:16-18 | the third unit test case |
| StringUtils.RemoveRedundantRemarksTestReason | tests/utils/test_stringUtils.py:20-22 | the fourth unit test case |
| FreqProfileFetcher.RowsToProfiles | src/fetchers/freqProfileFetcher.py:42-57 | the loop yields one entry per row, in index order |
| FreqProfileFetcher.ContextDict | src/fetchers/freqProfileFetcher.py:22-61 | what `toContextDict` returns; it has no contract of its own, and `ContextDictRows`, `ContextDictWeeklyFdi` and `WeeklyFdiWithinUnit` state it |
| FreqProfileFetcher.ToContextDict | src/fetchers/freqProfileFetcher.py:22-61 | an empty table gives no rows and FDI -1 and is left alone; a missing ID or DATE_KEY raises KeyError; non-timestamps raise AttributeError; a missing measure column raises KeyError; otherwise the entries and the FDI; ID is deleted and DATE_KEY overwritten in the frame |
| FreqProfileFetcher.ContextDictConverted | src/fetchers/freqProfileFetcher.py:39-61 | the section of a valid table, stated on its converted rows |
| FreqProfileFetcher.DayProfilesAt | src/fetchers/freqProfileFetcher.py:44-57 | entry `k` is built from row `k` |
| FreqProfileFetcher.DayProfilesLength | src/fetchers/freqProfileFetcher.py:44-57 | there is one entry per row |
| FreqProfileFetcher.ContextDictRows | src/fetchers/freqProfileFetcher.py:40-58 | a valid table yields one entry per row; entry `k` holds the day of the month of row `k`'s DATE_KEY and all nine of its measures (MAXIMUM, MINIMUM, AVERAGE, the three bands, OUT_OF_BAND, OUT_OF_BAND_INHRS, FDI) with two decimals |
| FreqProfileFetcher.OutOfBandHoursWithDays | src/fetchers/freqProfileFetcher.py:40-43 | converting DATE_KEY does not change the out-of-band total |
| FreqProfileFetcher.ContextDictWeeklyFdi | src/fetchers/freqProfileFetcher.py:43 | the weekly FDI times 168 equals the table's total out-of-band hours |
| FreqProfileFetcher.OutOfBandHoursBounds | src/fetchers/freqProfileFetcher.py:43 | daily hours between 0 and 24 give a total between 0 and 24 hours per row |
| FreqProfileFetcher.WeeklyFdiWithinUnit | src/fetchers/freqProfileFetcher.py:43 | for at most seven daily rows the weekly FDI lies between 0 and 1 |
| FreqProfileFetcher.DerivedFrequency | src/fetchers/freqProfileFetcher.py:63-107 | every failed read (connection, cursor or query) ends in UnboundLocalError |
| FreqProfileFetcher.FetchDerivedFrequency | src/fetchers/freqProfileFetcher.py:63-107 | the fetch returns the conversion of the fetched table, or the error of the failed read |
| VdiFetcher.EntriesAppend | src/fetchers/vdiFetcher.py:45-58 | the entries keep the row order: the entries of joined tables are the joined entries |
| VdiFetcher.Entries | src/fetchers/vdiFetcher.py:42-73 | the station list of one level; it has no contract of its own, and `EntriesOfLevel`, `EntriesCount` and `EntriesPartition` state it |
| VdiFetcher.AtLevelRows | src/fetchers/vdiFetcher.py:42-45 | the rows of a level's group are rows of the table at that level |
| VdiFetcher.EntriesOfLevel | src/fetchers/vdiFetcher.py:45-58 | entry `k` of a level is built from the `k`-th row of that level |
| VdiFetcher.AtLevelRounded | src/fetchers/vdiFetcher.py:118-119 | rounding keeps every row's level, so a level's rounded rows are its rows with MAXIMUM and MINIMUM rounded |
| VdiFetcher.EntriesCount | src/fetchers/vdiFetcher.py:42-73 | a voltage level has as many entries as rows at that level |
| VdiFetcher.EntriesOfRow | src/fetchers/vdiFetcher.py:42-73 | each row's entry is among the entries of its level |
| VdiFetcher.EntriesEmpty | src/fetchers/vdiFetcher.py:42-73 | a level has no entries exactly when no row is at that level |
| VdiFetcher.EntriesPartition | src/fetchers/vdiFetcher.py:42-73 | the two lists hold at most one entry per row, and exactly one per row exactly when every row is at 400 or 765 kV |
| VdiFetcher.GroupKeys | src/fetchers/vdiFetcher.py:42-43 | the groups are the distinct voltage levels of the rows, each once |
| VdiFetcher.GroupsHaveEntries | src/fetchers/vdiFetcher.py:42-45 | a voltage level is one of the groups exactly when it has entries |
| VdiFetcher.DeleteIgnoredColumns | src/fetchers/vdiFetcher.py:34 | the delete succeeds exactly when ID, MAPPING_ID and WEEK_START_DATE are all present; it removes them left to right up to the first missing one |
| VdiFetcher.GroupByVoltage | src/fetchers/vdiFetcher.py:42-76 | the group loop yields the 400 kV and 765 kV entries, or KeyError for a missing column |
| VdiFetcher.EntriesInIndexOrder | src/fetchers/vdiFetcher.py:45-58 | the inner loop yields one entry per row of the level, in index order |
| VdiFetcher.ToDerivedVDIDict | src/fetchers/vdiFetcher.py:24-76 | the section of the table (KeyError for a missing column), with the three ignored columns deleted from the frame |
| VdiFetcher.DerivedVdi | src/fetchers/vdiFetcher.py:24-76 | what `toDerivedVDIDict` returns; it has no contract of its own, and `ToDerivedVDIDict` and `WeeklyVdiStations` state it |
| VdiFetcher.RoundToInt | src/fetchers/vdiFetcher.py:118-119 | the rounded voltage is an integer within half a volt of the value |
| VdiFetcher.FetchWeeklyVDI | src/fetchers/vdiFetcher.py:78-121 | a failed connection or cursor raises UnboundLocalError; a failed query gives both lists empty; otherwise the rounded table converted |
| VdiFetcher.WeeklyVdi | src/fetchers/vdiFetcher.py:78-121 | what `fetchWeeklyVDI` returns; it has no contract of its own, and `WeeklyVdiStations`, `WeeklyVdiVoltagesIntegral` and `WeeklyVdiQueryFailed` state it |
| VdiFetcher.WeeklyVdiStations | src/fetchers/vdiFetcher.py:42-120 | a fetched section has one station per row of each level, in row order, with the name, MAXIMUM and MINIMUM rounded to integers, the bands and VDI with two decimals, and the three hour columns as `hh:mm` spans; nothing else is rounded |
| VdiFetcher.EntriesKeepIntegralVoltages | src/fetchers/vdiFetcher.py:48-49 | entries built from integral voltages carry integral voltages |
| VdiFetcher.WeeklyVdiVoltagesIntegral | src/fetchers/vdiFetcher.py:118-120 | every station of a fetched section has integral voltages |
| VdiFetcher.WeeklyVdiQueryFailed | src/fetchers/vdiFetcher.py:106-110 | a raising query gives both lists empty |
| ReportGenerator.EndOfDay | src/app/weeklyReportGenerator.py:47 | the same day, not before the input and not before any other time of that day |
| ReportGenerator.TwoDigits | src/app/weeklyReportGenerator.py:171-172 | `%d`/`%m` write two digits that read back as the number |
| ReportGenerator.DayMonthNameYear | src/app/weeklyReportGenerator.py:48-49 | the `%d-%b-%Y` report dates; it has no contract of its own, and `DayMonthNameYearLayout` and `DayMonthNameYearInjective` state it |
| ReportGenerator.MonthAbbreviationRoundTrip | src/app/weeklyReportGenerator.py:48-49 | `%b` writes every month in three characters that read back as that month |
| ReportGenerator.DayMonthNameYearLayout | src/app/weeklyReportGenerator.py:48-49 | for a four-digit year, `%d-%b-%Y` is eleven characters, with dashes at 2 and 6, and its parts read back as day, month and year |
| ReportGenerator.DayMonthNameYearInjective | src/app/weeklyReportGenerator.py:48-49 | different days of four-digit years have different report dates |
| ReportGenerator.DayMonthYearRoundTrip | src/app/weeklyReportGenerator.py:171-172 | for a four-digit year, `%d-%m-%Y` is ten characters, with dashes at 2 and 5, and its parts read back as day, month and year |
| ReportGenerator.DayMonthYearInjective | src/app/weeklyReportGenerator.py:171-172 | different days of four-digit years have different `%d-%m-%Y` texts |
| ReportGenerator.FinYearLabelRoundTrip | src/app/weeklyReportGenerator.py:52 | the label reads back as the year and the next year's last two digits |
| ReportGenerator.FinYearLabel | src/app/weeklyReportGenerator.py:52 | the financial-year label; it has no contract of its own, and `FinYearLabelRoundTrip` and `FinYearLabelExamples` state it |
| ReportGenerator.FinYearLabelExamples | src/app/weeklyReportGenerator.py:52 | 2020 gives `2020-21` and 2008 gives `2008-9` (no zero padding) |
| ReportGenerator.EmptyVoltStatsTables | src/app/weeklyReportGenerator.py:56-80 | the initial voltage statistics are four empty tables, `table1` to `table4` |
| ReportGenerator.InitialContextKeys | src/app/weeklyReportGenerator.py:56-80 | the initial context holds every key except the VDI lists and the violation messages |
| ReportGenerator.InitialContextDefaults | src/app/weeklyReportGenerator.py:56-80 | every list starts empty, `weeklyFdi` starts at -1 and the voltage statistics start as the empty tables |
| ReportGenerator.AssembleKeys | src/app/weeklyReportGenerator.py:56-147 | a fully assembled context holds all 21 keys |
| ReportGenerator.AssembleDates | src/app/weeklyReportGenerator.py:56-60 | the date entries are the header's |
| ReportGenerator.AssembleWeek | src/app/weeklyReportGenerator.py:56-80 | the week number and the financial-year label are the header's |
| ReportGenerator.AssembleOutagesAndFrequency | src/app/weeklyReportGenerator.py:82-98 | the outage, frequency and FDI entries are their sections', with the FDI formatted to two decimals |
| ReportGenerator.AssembleVoltageAndViolations | src/app/weeklyReportGenerator.py:100-123 | the VDI, voltage, violation message and angle entries are their sections' |
| ReportGenerator.AssembleConstraintsAndNodes | src/app/weeklyReportGenerator.py:125-147 | the constraint and node entries are their sections' |
| ReportGenerator.ContextWith | src/app/weeklyReportGenerator.py:37-147 | a built context holds all 21 keys |
| ReportGenerator.ContextOf | src/app/weeklyReportGenerator.py:37-147 | a built context holds all 21 keys; it reads the angle section from a fetcher returning the angle summary (see "## Findings") |
| ReportGenerator.ContextAsWritten | src/app/weeklyReportGenerator.py:118-123 | the assembly as written, with the missing method's AttributeError in place of the angle section; it has no contract of its own, and `ContextAsWrittenAlwaysFails` states it |
| ReportGenerator.ContextAsWrittenAlwaysFails | src/app/weeklyReportGenerator.py:118-123 | as written, the context is never built |
| ReportGenerator.ContextSucceedsIffAllSourcesSucceed | src/app/weeklyReportGenerator.py:37-147 | the context is built exactly when every source succeeds, and is then the assembly of their results |
| ReportGenerator.ContextFailsWithFirstError | src/app/weeklyReportGenerator.py:82-88 | a raising first or second source ends the assembly with its exception |
| ReportGenerator.ContextDerivedFields | src/app/weeklyReportGenerator.py:47-80 | a built context has all keys, the start date, the end date at 23:59:59, their `%d-%b-%Y` texts, the week number and the financial-year label of the start date |
| ReportGenerator.WeekFieldsIgnoreEndDate | src/app/weeklyReportGenerator.py:50-52 | the week number and the label depend on the start date alone |
| ReportGenerator.ContextSections | src/app/weeklyReportGenerator.py:82-147 | each section is its source's result; every fetcher but VDI is asked with the end date at 23:59:59, and VDI with the start date alone |
| ReportGenerator.DumpFileName | src/app/weeklyReportGenerator.py:171-172 | the file name for the text of the week number and the two dates; it has no contract of its own, and `DumpFileNameParts` and `DumpFileNameInjective` state it |
| ReportGenerator.FileNameLayout | src/app/weeklyReportGenerator.py:171-172 | in a name laid out as `Weekly_no_{0}_{1}_to_{2}.docx` with ten-character dates, each field sits at a fixed place |
| ReportGenerator.DumpFileNameParts | src/app/weeklyReportGenerator.py:171-172 | the week number's text and the two dates sit at fixed places in the file name |
| ReportGenerator.DumpFileNameInjective | src/app/weeklyReportGenerator.py:171-172 | different week numbers or date ranges give different file names |
| ReportGenerator.JoinPath | src/app/weeklyReportGenerator.py:173 | the joined path ends with the file name |
| ReportGenerator.FormatArg | src/app/weeklyReportGenerator.py:171 | `{0}` writes a number as its digits and a text as itself |
| ReportGenerator.FileNameFields | src/app/weeklyReportGenerator.py:171-172 | the `.format` arguments evaluated left to right; it has no contract of its own, and `FileNameFieldsSucceed`, `FileNameFieldsStartFirst` and `FileNameFieldsOfContext` state it |
| ReportGenerator.FileNameFieldsSucceed | src/app/weeklyReportGenerator.py:171-172 | the name is built exactly when the three keys are present and both dates are dates, whatever the week number is; otherwise KeyError or TypeError |
| ReportGenerator.FileNameFieldsStartFirst | src/app/weeklyReportGenerator.py:171-172 | a start date that is not a date raises TypeError before the end date is looked up |
| ReportGenerator.FileNameFieldsOfContext | src/app/weeklyReportGenerator.py:171-172 | the name fields are the context's own dates and the text of its week number |
| ReportGenerator.WeeklyReportOutcome | src/app/weeklyReportGenerator.py:177-194 | True exactly when the context is built, else the exception of the context |
| ReportGenerator.WeeklyReportOutcomeAsWritten | src/app/weeklyReportGenerator.py:177-194 | as written, `generateWeeklyReport` always raises |
| ReportGenerator.WeeklyReportPath | src/app/weeklyReportGenerator.py:171-174 | the path of the week's report; it has no contract of its own, and `GenerateWeeklyReport`, `DumpFileNameParts` and `JoinPath` state it |
| ReportGenerator.WeeklyReportGenerator.constructor | src/app/weeklyReportGenerator.py:30-35 | keeps the connection string |
| ReportGenerator.WeeklyReportGenerator.GetReportContextObj | src/app/weeklyReportGenerator.py:37-147 | the method builds exactly the context that `ContextOf` describes |
| ReportGenerator.WeeklyReportGenerator.GenerateReportWithContext | src/app/weeklyReportGenerator.py:149-175 | it returns True exactly when the name fields can be read, in the order `.format` evaluates them, and otherwise raises the first KeyError or TypeError; the path saved is the dump folder joined with the name built from them |
| ReportGenerator.WeeklyReportGenerator.GenerateWeeklyReport | src/app/weeklyReportGenerator.py:177-194 | the outcome is `WeeklyReportOutcome`, and a success saves to the week's file path |
| Server.WindowsAreConsecutiveWeeks | server.py:47-53 | the `i`-th week visited starts `7 * i` days after the Monday of the start date |
| Server.Windows | server.py:47-53 | the weeks the loop visits; it has no contract of its own, and `WindowsAreConsecutiveWeeks`, `WindowCount` and `WindowsCoverRange` state it |
| Server.WeekAfterIsMondayToSunday | server.py:49-50 | every week visited starts on a Monday and ends on a Sunday |
| Server.WindowsAreMondayToSunday | server.py:47-53 | every week runs from a Monday to the Sunday six days later, at the start date's time of day |
| Server.WindowsAreContiguous | server.py:47-53 | each week starts the day after the previous one ends |
| Server.WindowCount | server.py:47-53 | the loop runs once per Monday-started week between the start and end dates |
| Server.FirstWindow | server.py:47-50 | the first week starts on the Monday of the start date |
| Server.LastWindow | server.py:47-53 | the last week ends on the Sunday of the end date's week |
| Server.WindowsCoverRange | server.py:47-53 | every day of the requested range lies in exactly one week visited |
| Server.FifteenDaysFromWednesday | server.py:47-53 | fifteen days from a Wednesday produce three reports |
| Server.OutcomesCons | server.py:47-53 | the outcomes of the weeks, one week at a time |
| Server.RunReports | server.py:47-57 | the loop's result for the reports' outcomes; it has no contract of its own, and `LastReportDecides` and `RunSucceedsIffNoReportRaises` state it |
| Server.LastReportDecides | server.py:47-57 | after a run without exceptions, the flag read is the last week's |
| Server.RunSucceedsIffNoReportRaises | server.py:47-53 | the loop completes exactly when no report raises; otherwise it ends with the exception of a report that raised |
| Server.OutcomesSayTrue | server.py:51-52 | every report that is built says True |
| Server.NeverNotSuccessful | server.py:54-57 | the "not success" 500 reply is never sent |
| Server.StartAfterEndCrashes | server.py:47-54 | a start date after the end date runs no week and reading the unset flag raises UnboundLocalError |
| Server.OkIffEveryReport | server.py:29-57 | for readable dates in order, the reply is 200 with the two dates exactly when every week's report is built |
| Server.ParsedDates | server.py:33-37 | the two request dates as `strptime` reads them, or none (the 400 reply) when a key is missing or its text is unreadable; it has no contract of its own, and `CreateWeeklyReport`, `OkIffEveryReport` and `StartAfterEndCrashes` state it |
| Server.ReplyFor | server.py:54-57 | the reply once the loop has ended: its exception, UnboundLocalError for the unset flag, 200 with the dates for True, 500 for False; it has no contract of its own, and `NeverNotSuccessful`, `OkIffEveryReport` and `StartAfterEndCrashes` state it |
| Server.OutcomesAsWritten | server.py:47-53 | the outcomes of the visited weeks with the angle call as written; it has no contract of its own, and `AsWrittenEveryRequestFails` states it |
| Server.ResponseAsWritten | server.py:29-57 | the reply for a request with the angle call as written; it has no contract of its own, and `AsWrittenEveryRequestFails` states it |
| Server.ResponseFor | server.py:29-57 | the reply for a request; it has no contract of its own, and `NeverNotSuccessful`, `StartAfterEndCrashes` and `OkIffEveryReport` state it |
| Server.AsWrittenEveryRequestFails | server.py:29-57 | as written, no request gets 200: unreadable dates get 400, dates in order get the first week's exception |
| Server.RunStep | server.py:47-53 | one iteration: a raising report ends the run, otherwise its flag is the latest |
| Server.RunWeeks | server.py:45-53 | the loop produces the result of running the reports of the visited weeks in order |
| Server.CreateWeeklyReport | server.py:29-57 | the handler's reply: 400 for unreadable dates, otherwise decided by the week loop as `ResponseFor` states |

## Findings

| source | as written | input that shows it | evidently intended | confidence | as-written member | corrected member |
|---|---|---|---|---|---|---|
| src/app/weeklyReportGenerator.py:120-121 | calls `fetchPairsAnglViolations`, but `AnglViolationsFetcher` defines only `fetchAnglViolations` (src/fetchers/angleViolFetcher.py:20) | any week whose first seven fetches succeed: the call raises AttributeError, so no report is ever produced | a fetcher returning an `IAngleViolSummary`, as the annotation and docstring at src/fetchers/angleViolFetcher.py:20-27 promise | not executed | ReportGenerator.ContextAsWritten, with ReportGenerator.ContextAsWrittenAlwaysFails | ReportGenerator.ContextOf (used by GetReportContextObj), with ReportGenerator.ContextSucceedsIffAllSourcesSucceed; Server.AsWrittenEveryRequestFails shows the reply as written |

## Left out

- Database access (cx_Oracle, SQL text, `pd.read_sql`, `commit`, `close`) is not modelled. Each read is a `DbOutcome` parameter.
- The fetchers for outages, voltage statistics, IEGC violation messages, angle violations, constraints and node information are not part of this model. Each is an abstract `Sources` function returning a `Result`.
- The body of the angle violations fetcher is not modelled. Its result is taken as an `AngleViolSummary`, as its annotation and docstring say. Its actual body (src/fetchers/angleViolFetcher.py:52-63) returns a list of IEGC-style message records. With only the method name corrected, `pairAnglViolations['wideAnglViols']` at line 122 would raise TypeError.
- Rendering and saving the docx template (`DocxTemplate`, `render`, `save`) are left out. Only the saved path is modelled.
- `tmplPath` is not modelled, because only the template library reads it.
- Flask, JSON parsing and the HTTP transport are left out. A body without the two keys is modelled as a 400 reply.
- The Flask 500 reply, which comes from an uncaught exception, is modelled as `Crashed` with its exception.
- The parsing and formatting of dates by `strptime` is left out: it is the `parseDate` parameter.
- The configuration reading in `server.py`, `index.py`, logging and `print` are left out. They do not change any result.
- Floats are exact reals: float rounding error, NaN and infinities are not modelled.
- `"{:0.2f}"` is the symbolic value `Fixed2`: its digit string is not computed.
- `lower()` covers ASCII case only. `strip()` removes exactly the characters for which Python's `str.isspace` is true.
- Years before 1000 and the `datetime` year range limit (OverflowError) are not modelled. Microseconds are not modelled.
- `os.path.join` follows its POSIX behaviour. The Windows form (`ntpath`) is not modelled.
- The order in which `groupby` visits the voltage groups is not modelled. The result does not depend on it, because each group fills its own list.
- Server.RunWeeks: states the outcome of the loop but not the files it saved along the way. Each saved path is stated per report by `ReportGenerator.WeeklyReportGenerator.GenerateWeeklyReport`.
- ReportGenerator.ContextFailsWithFirstError: states the first-error rule only for the first two sources. The general form follows from the definition of `ContextWith`, whose `:-` chain stops at the first failure.
- TimeUtils.WeekNumOfFinYr: `int(1 + days / 7)` passes through a float. The model uses exact integers, which agree because the day distance between two Mondays is a multiple of 7 (`MondaysWeeksApart`).
- TimeUtils.FinYearForDt: decides on the day of the Sunday's year instead of on its month. `FinYearOfDayByMonth` proves the two tests agree.
- ReportGenerator.WeeklyReportGenerator.GetReportContextObj, ReportGenerator.WeeklyReportOutcome, ReportGenerator.WeeklyReportGenerator.GenerateWeeklyReport, Server.OkIffEveryReport, Server.RunWeeks and Server.CreateWeeklyReport model the corrected angle call of "## Findings", through `ContextOf`. As written, every report raises (`WeeklyReportOutcomeAsWritten`, `AsWrittenEveryRequestFails`).
- Python's `str` of a datetime, a list or a dictionary is the parameter `strOf`. Only numbers and texts are spelled out by `FormatArg`.
