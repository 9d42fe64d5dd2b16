/** The frequency profile section of the report: one entry per day of the derived
    frequency table, and the weekly frequency deviation index (FDI). */
module FreqProfileFetcher {
  import opened Wrappers
  import opened Numbers
  import opened Calendar
  import opened Db

  /** A DATE_KEY cell: a timestamp as read from the database, or the day of the month
      that the conversion writes over it. */
  datatype DateCell = Timestamp(at: DateTime) | DayNumber(day: int)

  /** One row of the derived frequency table, without its ID column. */
  datatype FreqRow = FreqRow(
    dateKey: DateCell,
    maximum: real,
    minimum: real,
    average: real,
    lessThanBand: real,
    betweenBand: real,
    greaterThanBand: real,
    outOfBand: real,
    outOfBandInHrs: real,
    fdi: real)

  /** One day's entry in the report. */
  datatype DayFreqProfile = DayFreqProfile(
    dateDay: int,
    maxFreq: Fixed2,
    minFreq: Fixed2,
    avgFreq: Fixed2,
    lessThanBand: Fixed2,
    bwBand: Fixed2,
    greatThanBand: Fixed2,
    outOfBand: Fixed2,
    outHrs: Fixed2,
    fdi: Fixed2)

  /** The frequency section: both keys are always present. */
  datatype FreqProfile = FreqProfile(freqProfRows: seq<DayFreqProfile>, weeklyFdi: Num)

  /** The section before any row is converted, which is also what an empty table gives. */
  const EmptyProfile := FreqProfile([], IntNum(-1))

  /** The columns a day entry is built from. */
  const ProfileColumns: set<string> := {
    "DATE_KEY", "MAXIMUM", "MINIMUM", "AVERAGE", "LESS_THAN_BAND", "BETWEEN_BAND",
    "GREATER_THAN_BAND", "OUT_OF_BAND", "OUT_OF_BAND_INHRS", "FDI"}

  /** A data frame of frequency rows: its column names and its rows in index order.
      The conversion deletes a column and overwrites another in place. */
  class FreqFrame {
    var columns: set<string>
    var rows: seq<FreqRow>

    constructor (columns: set<string>, rows: seq<FreqRow>)
      ensures this.columns == columns && this.rows == rows
    {
      this.columns := columns;
      this.rows := rows;
    }
  }

  /** The `.dt` accessor works only on a column of timestamps. */
  predicate AllTimestamps(rows: seq<FreqRow>) {
    forall i :: 0 <= i < |rows| ==> rows[i].dateKey.Timestamp?
  }

  /** `df['DATE_KEY'] = df['DATE_KEY'].dt.day`: every timestamp replaced by its day of
      the month, every other column kept. */
  function WithDays(rows: seq<FreqRow>): (r: seq<FreqRow>)
    requires AllTimestamps(rows)
    ensures |r| == |rows|
  {
    seq(|rows|, i requires 0 <= i < |rows| => rows[i].(dateKey := DayNumber(DayOfMonth(rows[i].dateKey.at.ordinal))))
  }

  /** `df['OUT_OF_BAND_INHRS'].sum()`. */
  function OutOfBandHours(rows: seq<FreqRow>): real
    decreases |rows|
  {
    if rows == [] then 0.0 else OutOfBandHours(rows[..|rows| - 1]) + rows[|rows| - 1].outOfBandInHrs
  }

  /** A day entry: the day number copied, every measure formatted with two decimals. */
  function DayProfile(row: FreqRow): DayFreqProfile
    requires row.dateKey.DayNumber?
  {
    DayFreqProfile(
      row.dateKey.day, Fixed2(row.maximum), Fixed2(row.minimum), Fixed2(row.average),
      Fixed2(row.lessThanBand), Fixed2(row.betweenBand), Fixed2(row.greaterThanBand),
      Fixed2(row.outOfBand), Fixed2(row.outOfBandInHrs), Fixed2(row.fdi))
  }

  /** The entries of converted rows, one per row in index order. */
  function DayProfiles(rows: seq<FreqRow>): (r: seq<DayFreqProfile>)
    requires forall i :: 0 <= i < |rows| ==> rows[i].dateKey.DayNumber?
    decreases |rows|
  {
    if rows == [] then [] else DayProfiles(rows[..|rows| - 1]) + [DayProfile(rows[|rows| - 1])]
  }

  /** What `toContextDict` returns for a table with these columns and rows. */
  function ContextDict(columns: set<string>, rows: seq<FreqRow>): Result<FreqProfile> {
    if |rows| == 0 then Success(EmptyProfile)
    else if "ID" !in columns || "DATE_KEY" !in columns then Failure(KeyError)
    else if !AllTimestamps(rows) then Failure(AttributeError)
    else if !(ProfileColumns <= columns - {"ID"}) then Failure(KeyError)
    else
      var converted := WithDays(rows);
      Success(FreqProfile(DayProfiles(converted), FloatNum(OutOfBandHours(converted) / 168.0)))
  }

  /** The columns of the frame after `toContextDict`: ID is gone once the table is non-empty. */
  function ColumnsAfter(columns: set<string>, rows: seq<FreqRow>): set<string> {
    if |rows| == 0 || "ID" !in columns then columns else columns - {"ID"}
  }

  /** The rows of the frame after `toContextDict`: DATE_KEY holds days once the
      conversion has been reached. */
  function RowsAfter(columns: set<string>, rows: seq<FreqRow>): seq<FreqRow> {
    if |rows| > 0 && "ID" in columns && "DATE_KEY" in columns && AllTimestamps(rows) then WithDays(rows) else rows
  }

  /** The `for ind in df.index` loop: one entry per row, in index order. */
  method RowsToProfiles(rows: seq<FreqRow>) returns (derFreqRows: seq<DayFreqProfile>)
    requires forall i :: 0 <= i < |rows| ==> rows[i].dateKey.DayNumber?
    ensures derFreqRows == DayProfiles(rows)
  {
    derFreqRows := [];
    var ind := 0;
    while ind < |rows|
      invariant 0 <= ind <= |rows|
      invariant derFreqRows == DayProfiles(rows[..ind])
    {
      assert rows[..ind + 1][..ind] == rows[..ind];
      derFreqRows := derFreqRows + [DayProfile(rows[ind])];
      ind := ind + 1;
    }
    assert rows[..|rows|] == rows;
  }

  /** `toContextDict`. An empty table gives the default section and is left as it is;
      otherwise the ID column is deleted and DATE_KEY overwritten in place, and the
      rows are converted. Building an entry reads every profile column, so a missing
      one fails at the first row. */
  method ToContextDict(df: FreqFrame) returns (r: Result<FreqProfile>)
    modifies df
    ensures r == ContextDict(old(df.columns), old(df.rows))
    ensures df.columns == ColumnsAfter(old(df.columns), old(df.rows))
    ensures df.rows == RowsAfter(old(df.columns), old(df.rows))
  {
    var derFrequencyDict := EmptyProfile;
    if |df.rows| == 0 { return Success(derFrequencyDict); }
    if "ID" !in df.columns { return Failure(KeyError); }
    df.columns := df.columns - {"ID"};
    if "DATE_KEY" !in df.columns { return Failure(KeyError); }
    if !AllTimestamps(df.rows) { return Failure(AttributeError); }
    ghost var timestamps := df.rows;
    df.rows := WithDays(df.rows);
    assert df.rows == RowsAfter(old(df.columns), old(df.rows));
    if !(ProfileColumns <= df.columns) { return Failure(KeyError); }
    ContextDictConverted(old(df.columns), timestamps);
    var weeklyFdi := OutOfBandHours(df.rows) / 168.0;
    var derFreqRows := RowsToProfiles(df.rows);
    derFrequencyDict := derFrequencyDict.(freqProfRows := derFreqRows);
    derFrequencyDict := derFrequencyDict.(weeklyFdi := FloatNum(weeklyFdi));
    r := Success(derFrequencyDict);
  }

  /** The section of a table that passes every check, stated on the converted rows. */
  lemma ContextDictConverted(columns: set<string>, rows: seq<FreqRow>)
    requires |rows| > 0 && "ID" in columns && AllTimestamps(rows) && ProfileColumns <= columns - {"ID"}
    ensures ContextDict(columns, rows)
      == Success(FreqProfile(DayProfiles(WithDays(rows)), FloatNum(OutOfBandHours(WithDays(rows)) / 168.0)))
  {
  }

  /** The entries match the rows one to one, in order: entry `k` carries the day of the
      month of row `k`'s timestamp and row `k`'s measures. */
  lemma {:induction false} DayProfilesAt(rows: seq<FreqRow>, k: nat)
    requires forall i :: 0 <= i < |rows| ==> rows[i].dateKey.DayNumber?
    requires k < |rows|
    ensures |DayProfiles(rows)| == |rows|
    ensures DayProfiles(rows)[k] == DayProfile(rows[k])
    decreases |rows|
  {
    if k < |rows| - 1 {
      DayProfilesAt(rows[..|rows| - 1], k);
    } else {
      DayProfilesLength(rows[..|rows| - 1]);
    }
  }

  lemma {:induction false} DayProfilesLength(rows: seq<FreqRow>)
    requires forall i :: 0 <= i < |rows| ==> rows[i].dateKey.DayNumber?
    ensures |DayProfiles(rows)| == |rows|
    decreases |rows|
  {
    if rows != [] {
      DayProfilesLength(rows[..|rows| - 1]);
    }
  }

  /** A converted non-empty table yields one entry per row; entry `k` holds the day of
      the month of row `k` and its measures formatted with two decimals. */
  lemma ContextDictRows(columns: set<string>, rows: seq<FreqRow>, k: nat)
    requires ContextDict(columns, rows).Success? && k < |rows|
    ensures var p := ContextDict(columns, rows).value;
      |p.freqProfRows| == |rows|
      && p.freqProfRows[k].dateDay == DayOfMonth(rows[k].dateKey.at.ordinal)
      && p.freqProfRows[k].maxFreq == Fixed2(rows[k].maximum)
      && p.freqProfRows[k].minFreq == Fixed2(rows[k].minimum)
      && p.freqProfRows[k].avgFreq == Fixed2(rows[k].average)
      && p.freqProfRows[k].lessThanBand == Fixed2(rows[k].lessThanBand)
      && p.freqProfRows[k].bwBand == Fixed2(rows[k].betweenBand)
      && p.freqProfRows[k].greatThanBand == Fixed2(rows[k].greaterThanBand)
      && p.freqProfRows[k].outOfBand == Fixed2(rows[k].outOfBand)
      && p.freqProfRows[k].outHrs == Fixed2(rows[k].outOfBandInHrs)
      && p.freqProfRows[k].fdi == Fixed2(rows[k].fdi)
  {
    DayProfilesAt(WithDays(rows), k);
  }

  /** Converting DATE_KEY leaves the out-of-band hours alone. */
  lemma {:induction false} OutOfBandHoursWithDays(rows: seq<FreqRow>)
    requires AllTimestamps(rows)
    ensures OutOfBandHours(WithDays(rows)) == OutOfBandHours(rows)
    decreases |rows|
  {
    if rows != [] {
      var init := rows[..|rows| - 1];
      assert WithDays(rows)[..|rows| - 1] == WithDays(init);
      OutOfBandHoursWithDays(init);
    }
  }

  /** The weekly index is the week's total out-of-band hours over the 168 hours of a week. */
  lemma ContextDictWeeklyFdi(columns: set<string>, rows: seq<FreqRow>)
    requires ContextDict(columns, rows).Success? && |rows| > 0
    ensures ContextDict(columns, rows).value.weeklyFdi.FloatNum?
    ensures ContextDict(columns, rows).value.weeklyFdi.x * 168.0 == OutOfBandHours(rows)
  {
    OutOfBandHoursWithDays(rows);
  }

  /** With each day out of band for between 0 and 24 hours, the total lies between 0
      and 24 hours per row. */
  lemma {:induction false} OutOfBandHoursBounds(rows: seq<FreqRow>)
    requires forall i :: 0 <= i < |rows| ==> 0.0 <= rows[i].outOfBandInHrs <= 24.0
    ensures 0.0 <= OutOfBandHours(rows) <= 24.0 * |rows| as real
    decreases |rows|
  {
    if rows != [] {
      OutOfBandHoursBounds(rows[..|rows| - 1]);
    }
  }

  /** For a week of at most seven daily rows, each out of band for 0 to 24 hours, the
      weekly index lies between 0 and 1. */
  lemma WeeklyFdiWithinUnit(columns: set<string>, rows: seq<FreqRow>)
    requires ContextDict(columns, rows).Success? && 0 < |rows| <= 7
    requires forall i :: 0 <= i < |rows| ==> 0.0 <= rows[i].outOfBandInHrs <= 24.0
    ensures 0.0 <= AsReal(ContextDict(columns, rows).value.weeklyFdi) <= 1.0
  {
    ContextDictWeeklyFdi(columns, rows);
    OutOfBandHoursBounds(rows);
  }

  /** A fetched frequency table. */
  datatype FreqTable = FreqTable(columns: set<string>, rows: seq<FreqRow>)

  /** What `fetchDerivedFrequency` returns. A failed connection or cursor leaves `cur`
      unbound in the `finally` block, and a failed query leaves `df` unbound when it is
      converted: every failed read ends in UnboundLocalError. */
  function DerivedFrequency(outcome: DbOutcome<FreqTable>): (r: Result<FreqProfile>)
    ensures !outcome.Fetched? ==> r == Failure(UnboundLocalError)
  {
    match outcome
    case Fetched(t) => ContextDict(t.columns, t.rows)
    case _ => Failure(UnboundLocalError)
  }

  /** `fetchDerivedFrequency` for a database read with the given outcome. */
  method FetchDerivedFrequency(outcome: DbOutcome<FreqTable>) returns (r: Result<FreqProfile>)
    ensures r == DerivedFrequency(outcome)
  {
    if !outcome.Fetched? { return Failure(UnboundLocalError); }
    var df := new FreqFrame(outcome.table.columns, outcome.table.rows);
    r := ToContextDict(df);
  }
}
