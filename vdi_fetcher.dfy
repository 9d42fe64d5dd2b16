/** The station-wise voltage deviation index (VDI) section of the report: the rows
    of the weekly VDI table, split by voltage level into the 400 kV and 765 kV lists. */
module VdiFetcher {
  import opened Wrappers
  import opened Numbers
  import opened StringUtils
  import opened Db

  /** One row of the derived VDI table, after the columns that the report ignores. */
  datatype VdiRow = VdiRow(
    nodeName: string,
    nodeVoltage: int,
    maximum: Num,
    minimum: Num,
    lessThanBand: real,
    betweenBand: real,
    greaterThanBand: real,
    lessThanBandInHrs: real,
    greaterThanBandInHrs: real,
    outOfBandInHrs: real,
    vdiValue: real)

  /** One station's entry in the report. */
  datatype StationVdiProfile = StationVdiProfile(
    station: string,
    maxVol: Num,
    minVol: Num,
    lessThanBand: Fixed2,
    bwBand: Fixed2,
    greatThanBand: Fixed2,
    lessBandHrs: string,
    greatBandHrs: string,
    outOfBandHrs: string,
    vdi: Fixed2)

  /** The VDI section: both keys are always present. */
  datatype StationwiseVdi = StationwiseVdi(vdi400Rows: seq<StationVdiProfile>, vdi765Rows: seq<StationVdiProfile>)

  /** The columns a station entry is built from. */
  const ProfileColumns: set<string> := {
    "NODE_NAME", "MAXIMUM", "MINIMUM", "LESS_THAN_BAND", "BETWEEN_BAND", "GREATER_THAN_BAND",
    "LESS_THAN_BAND_INHRS", "GREATER_THAN_BAND_INHRS", "OUT_OF_BAND_INHRS", "VDI"}

  /** A data frame of VDI rows: the set of its column names and its rows in index
      order. The conversion deletes columns from it in place. */
  class VdiFrame {
    var columns: set<string>
    var rows: seq<VdiRow>

    constructor (columns: set<string>, rows: seq<VdiRow>)
      ensures this.columns == columns && this.rows == rows
    {
      this.columns := columns;
      this.rows := rows;
    }
  }

  /** The entry built from one row: names and voltages copied, bands formatted with
      two decimals, hours written as `hh:mm` spans. */
  function ToProfile(row: VdiRow): StationVdiProfile {
    StationVdiProfile(
      row.nodeName, row.maximum, row.minimum,
      Fixed2(row.lessThanBand), Fixed2(row.betweenBand), Fixed2(row.greaterThanBand),
      ConvertHrsToSpanStr(row.lessThanBandInHrs), ConvertHrsToSpanStr(row.greaterThanBandInHrs),
      ConvertHrsToSpanStr(row.outOfBandInHrs), Fixed2(row.vdiValue))
  }

  /** The entries of the rows at one voltage level, in row order. */
  function Entries(rows: seq<VdiRow>, voltage: int): seq<StationVdiProfile>
    decreases |rows|
  {
    if rows == [] then []
    else
      var last := rows[|rows| - 1];
      Entries(rows[..|rows| - 1], voltage) + (if last.nodeVoltage == voltage then [ToProfile(last)] else [])
  }

  /** The rows at one voltage level, in row order: the rows of that `groupby` group. */
  function AtLevel(rows: seq<VdiRow>, voltage: int): seq<VdiRow>
    decreases |rows|
  {
    if rows == [] then []
    else
      var last := rows[|rows| - 1];
      AtLevel(rows[..|rows| - 1], voltage) + (if last.nodeVoltage == voltage then [last] else [])
  }

  /** The rows of a level are rows of the table, each at that level. */
  lemma {:induction false} AtLevelRows(rows: seq<VdiRow>, voltage: int)
    ensures forall k :: 0 <= k < |AtLevel(rows, voltage)| ==>
      AtLevel(rows, voltage)[k] in rows && AtLevel(rows, voltage)[k].nodeVoltage == voltage
    decreases |rows|
  {
    if rows != [] {
      var init := rows[..|rows| - 1];
      AtLevelRows(init, voltage);
      assert forall x :: x in init ==> x in rows;
    }
  }

  /** The entries of a level are the entries of its rows, one for one and in order. */
  lemma {:induction false} EntriesOfLevel(rows: seq<VdiRow>, voltage: int)
    ensures |Entries(rows, voltage)| == |AtLevel(rows, voltage)|
    ensures forall k :: 0 <= k < |AtLevel(rows, voltage)| ==>
      Entries(rows, voltage)[k] == ToProfile(AtLevel(rows, voltage)[k])
    decreases |rows|
  {
    if rows != [] {
      EntriesOfLevel(rows[..|rows| - 1], voltage);
    }
  }

  /** The voltage level of every row, in row order. */
  function Voltages(rows: seq<VdiRow>): seq<int> {
    seq(|rows|, i requires 0 <= i < |rows| => rows[i].nodeVoltage)
  }

  /** Entries of concatenated tables are the concatenated entries: the conversion
      keeps the order of the rows. */
  lemma {:induction false} EntriesAppend(a: seq<VdiRow>, b: seq<VdiRow>, voltage: int)
    ensures Entries(a + b, voltage) == Entries(a, voltage) + Entries(b, voltage)
    decreases |b|
  {
    if b != [] {
      var b' := b[..|b| - 1];
      assert (a + b)[..|a + b| - 1] == a + b';
      EntriesAppend(a, b', voltage);
    } else {
      assert a + b == a;
    }
  }

  /** Every row at the level yields exactly one entry: there are as many entries as
      rows of that voltage. */
  lemma {:induction false} EntriesCount(rows: seq<VdiRow>, voltage: int)
    ensures |Entries(rows, voltage)| == multiset(Voltages(rows))[voltage]
    decreases |rows|
  {
    if rows != [] {
      var init := rows[..|rows| - 1];
      EntriesCount(init, voltage);
      assert Voltages(rows) == Voltages(init) + [rows[|rows| - 1].nodeVoltage];
    } else {
      assert Voltages(rows) == [];
    }
  }

  /** A row's own entry is among the entries of its voltage level. */
  lemma {:induction false} EntriesOfRow(rows: seq<VdiRow>, voltage: int, i: nat)
    requires i < |rows| && rows[i].nodeVoltage == voltage
    ensures ToProfile(rows[i]) in Entries(rows, voltage)
    decreases |rows|
  {
    if i < |rows| - 1 {
      EntriesOfRow(rows[..|rows| - 1], voltage, i);
    }
  }

  /** No entry is produced for a level that no row has. */
  lemma {:induction false} EntriesEmpty(rows: seq<VdiRow>, voltage: int)
    ensures Entries(rows, voltage) == [] <==> forall i :: 0 <= i < |rows| ==> rows[i].nodeVoltage != voltage
    decreases |rows|
  {
    if rows != [] {
      EntriesEmpty(rows[..|rows| - 1], voltage);
      if rows[|rows| - 1].nodeVoltage != voltage {
        forall i | 0 <= i < |rows| - 1 ensures rows[i].nodeVoltage == rows[..|rows| - 1][i].nodeVoltage { }
      }
    }
  }

  /** Every row is at 400 kV or at 765 kV. */
  predicate AllAtReportedLevels(rows: seq<VdiRow>) {
    forall i :: 0 <= i < |rows| ==> rows[i].nodeVoltage == 400 || rows[i].nodeVoltage == 765
  }

  /** A table is at the reported levels when its rows but the last are and the last is. */
  lemma AllAtReportedLevelsSnoc(rows: seq<VdiRow>)
    requires rows != []
    ensures AllAtReportedLevels(rows) <==>
      AllAtReportedLevels(rows[..|rows| - 1])
      && (rows[|rows| - 1].nodeVoltage == 400 || rows[|rows| - 1].nodeVoltage == 765)
  {
    var init := rows[..|rows| - 1];
    assert forall i :: 0 <= i < |init| ==> init[i] == rows[i];
  }

  /** The last row adds one entry to the list of its own level and none to others. */
  lemma EntriesSnoc(rows: seq<VdiRow>, voltage: int)
    requires rows != []
    ensures |Entries(rows, voltage)| == |Entries(rows[..|rows| - 1], voltage)| + (if rows[|rows| - 1].nodeVoltage == voltage then 1 else 0)
  {
  }

  /** The two lists together hold at most one entry per row, and exactly one per row
      when every row is at 400 kV or 765 kV; rows at other levels are dropped. */
  lemma {:induction false} EntriesPartition(rows: seq<VdiRow>)
    ensures |Entries(rows, 400)| + |Entries(rows, 765)| <= |rows|
    ensures |Entries(rows, 400)| + |Entries(rows, 765)| == |rows| <==> AllAtReportedLevels(rows)
    decreases |rows|
  {
    if rows != [] {
      EntriesPartition(rows[..|rows| - 1]);
      EntriesSnoc(rows, 400);
      EntriesSnoc(rows, 765);
      AllAtReportedLevelsSnoc(rows);
    }
  }

  /** The distinct voltage levels of the rows, each once, in order of first appearance:
      the groups that `groupby` forms. */
  function GroupKeys(rows: seq<VdiRow>): (keys: seq<int>)
    ensures forall v :: v in keys <==> exists i :: 0 <= i < |rows| && rows[i].nodeVoltage == v
    ensures forall j, k :: 0 <= j < k < |keys| ==> keys[j] != keys[k]
    decreases |rows|
  {
    if rows == [] then []
    else
      var keys := GroupKeys(rows[..|rows| - 1]);
      assert forall i :: 0 <= i < |rows| - 1 ==> rows[i] == rows[..|rows| - 1][i];
      if rows[|rows| - 1].nodeVoltage in keys then keys else keys + [rows[|rows| - 1].nodeVoltage]
  }

  /** The columns left after `del [df['ID'], df['MAPPING_ID'], df['WEEK_START_DATE']]`,
      which deletes left to right and stops at the first missing column. */
  function ColumnsAfterDelete(columns: set<string>): set<string> {
    if "ID" !in columns then columns
    else if "MAPPING_ID" !in columns then columns - {"ID"}
    else if "WEEK_START_DATE" !in columns then columns - {"ID", "MAPPING_ID"}
    else columns - {"ID", "MAPPING_ID", "WEEK_START_DATE"}
  }

  /** The section built from the grouped rows: a missing profile column fails as soon
      as either group has a row to convert. */
  function GroupedVdi(columns: set<string>, rows: seq<VdiRow>): Result<StationwiseVdi> {
    if "NODE_VOLTAGE" !in columns then Failure(KeyError)
    else if (Entries(rows, 400) != [] || Entries(rows, 765) != []) && !(ProfileColumns <= columns) then Failure(KeyError)
    else Success(StationwiseVdi(Entries(rows, 400), Entries(rows, 765)))
  }

  /** What `toDerivedVDIDict` returns for a table with these columns and rows. */
  function DerivedVdi(columns: set<string>, rows: seq<VdiRow>): Result<StationwiseVdi> {
    if !("ID" in columns && "MAPPING_ID" in columns && "WEEK_START_DATE" in columns) then Failure(KeyError)
    else GroupedVdi(ColumnsAfterDelete(columns), rows)
  }

  /** `del [df['ID'], df['MAPPING_ID'], df['WEEK_START_DATE']]` on the frame; `ok` tells
      whether all three columns were there. */
  method DeleteIgnoredColumns(df: VdiFrame) returns (ok: bool)
    modifies df
    ensures ok <==> "ID" in old(df.columns) && "MAPPING_ID" in old(df.columns) && "WEEK_START_DATE" in old(df.columns)
    ensures df.columns == ColumnsAfterDelete(old(df.columns)) && df.rows == old(df.rows)
  {
    ok := false;
    if "ID" !in df.columns { return; }
    df.columns := df.columns - {"ID"};
    if "MAPPING_ID" !in df.columns { return; }
    df.columns := df.columns - {"MAPPING_ID"};
    if "WEEK_START_DATE" !in df.columns { return; }
    df.columns := df.columns - {"WEEK_START_DATE"};
    ok := true;
  }

  /** A level is one of the groups exactly when it has entries. */
  lemma GroupsHaveEntries(rows: seq<VdiRow>, voltage: int)
    ensures voltage in GroupKeys(rows) <==> Entries(rows, voltage) != []
  {
    EntriesEmpty(rows, voltage);
    if voltage in GroupKeys(rows) {
      var i :| 0 <= i < |rows| && rows[i].nodeVoltage == voltage;
      EntriesOfRow(rows, voltage, i);
    }
  }

  /** The `groupby("NODE_VOLTAGE")` loop: visits the voltage groups and appends one
      entry per row of the 400 kV and 765 kV groups. Building an entry reads every
      profile column, so a missing one fails at the first row of either group, which
      is never empty. */
  method GroupByVoltage(columns: set<string>, rows: seq<VdiRow>) returns (r: Result<StationwiseVdi>)
    ensures r == GroupedVdi(columns, rows)
  {
    if "NODE_VOLTAGE" !in columns { return Failure(KeyError); }
    var vdiRows400Kv: seq<StationVdiProfile> := [];
    var vdiRows765Kv: seq<StationVdiProfile> := [];
    var group := GroupKeys(rows);
    var g := 0;
    while g < |group|
      invariant 0 <= g <= |group|
      invariant vdiRows400Kv == if 400 in group[..g] then Entries(rows, 400) else []
      invariant vdiRows765Kv == if 765 in group[..g] then Entries(rows, 765) else []
      invariant (400 in group[..g] || 765 in group[..g]) ==> ProfileColumns <= columns
    {
      var nameOfGroup := group[g];
      assert group[..g + 1] == group[..g] + [nameOfGroup];
      if nameOfGroup == 400 || nameOfGroup == 765 {
        GroupsHaveEntries(rows, nameOfGroup);
        if !(ProfileColumns <= columns) { return Failure(KeyError); }
        assert nameOfGroup !in group[..g];
        var groupRows := EntriesInIndexOrder(rows, nameOfGroup);
        if nameOfGroup == 400 {
          vdiRows400Kv := groupRows;
        } else {
          vdiRows765Kv := groupRows;
        }
      }
      g := g + 1;
    }
    assert group[..|group|] == group;
    GroupsHaveEntries(rows, 400);
    GroupsHaveEntries(rows, 765);
    r := Success(StationwiseVdi(vdiRows400Kv, vdiRows765Kv));
  }

  /** The inner `for ind in groupDf.index` loop: one entry per row of the group, in
      index order. */
  method EntriesInIndexOrder(rows: seq<VdiRow>, voltage: int) returns (groupRows: seq<StationVdiProfile>)
    ensures groupRows == Entries(rows, voltage)
  {
    var ind := 0;
    groupRows := [];
    while ind < |rows|
      invariant 0 <= ind <= |rows|
      invariant groupRows == Entries(rows[..ind], voltage)
    {
      assert rows[..ind + 1][..ind] == rows[..ind];
      if rows[ind].nodeVoltage == voltage {
        groupRows := groupRows + [ToProfile(rows[ind])];
      }
      ind := ind + 1;
    }
    assert rows[..|rows|] == rows;
  }

  /** `toDerivedVDIDict`: deletes three columns of the frame in place, then groups
      the rows by voltage. */
  method ToDerivedVDIDict(df: VdiFrame) returns (r: Result<StationwiseVdi>)
    modifies df
    ensures r == DerivedVdi(old(df.columns), old(df.rows))
    ensures df.columns == ColumnsAfterDelete(old(df.columns)) && df.rows == old(df.rows)
  {
    var ok := DeleteIgnoredColumns(df);
    if !ok { return Failure(KeyError); }
    r := GroupByVoltage(df.columns, df.rows);
  }

  /** A fetched VDI table. */
  datatype VdiTable = VdiTable(columns: set<string>, rows: seq<VdiRow>)

  /** `column.round().astype(int)`: a number rounded half to even and stored as an integer. */
  function RoundToInt(n: Num): (r: Num)
    ensures r.IntNum? && -0.5 <= r.i as real - AsReal(n) <= 0.5
  {
    IntNum(RoundHalfEven(AsReal(n)))
  }

  /** The rows with their MAXIMUM and MINIMUM columns rounded to integers. */
  function RoundVoltages(rows: seq<VdiRow>): seq<VdiRow> {
    seq(|rows|, i requires 0 <= i < |rows| => rows[i].(maximum := RoundToInt(rows[i].maximum), minimum := RoundToInt(rows[i].minimum)))
  }

  /** Rounding leaves the voltage level of every row alone, so the rows of a level of
      the rounded table are that level's rows with their voltages rounded. */
  lemma {:induction false} AtLevelRounded(rows: seq<VdiRow>, voltage: int)
    ensures |AtLevel(RoundVoltages(rows), voltage)| == |AtLevel(rows, voltage)|
    ensures forall k :: 0 <= k < |AtLevel(rows, voltage)| ==>
      AtLevel(RoundVoltages(rows), voltage)[k]
      == AtLevel(rows, voltage)[k].(maximum := RoundToInt(AtLevel(rows, voltage)[k].maximum),
                                    minimum := RoundToInt(AtLevel(rows, voltage)[k].minimum))
    decreases |rows|
  {
    if rows != [] {
      var init := rows[..|rows| - 1];
      assert RoundVoltages(rows)[..|rows| - 1] == RoundVoltages(init);
      AtLevelRounded(init, voltage);
    }
  }

  /** What `fetchWeeklyVDI` returns. A failed connection or cursor leaves `cur` unbound
      when the `finally` block closes it; a failed query returns both lists empty. */
  function WeeklyVdi(outcome: DbOutcome<VdiTable>): Result<StationwiseVdi> {
    match outcome
    case ConnectFailed => Failure(UnboundLocalError)
    case CursorFailed => Failure(UnboundLocalError)
    case QueryFailed => Success(StationwiseVdi([], []))
    case Fetched(t) =>
      if !("MAXIMUM" in t.columns && "MINIMUM" in t.columns) then Failure(KeyError)
      else DerivedVdi(t.columns, RoundVoltages(t.rows))
  }

  /** `fetchWeeklyVDI` for a database read with the given outcome. */
  method FetchWeeklyVDI(outcome: DbOutcome<VdiTable>) returns (r: Result<StationwiseVdi>)
    ensures r == WeeklyVdi(outcome)
  {
    match outcome {
      case ConnectFailed => return Failure(UnboundLocalError);
      case CursorFailed => return Failure(UnboundLocalError);
      case QueryFailed => return Success(StationwiseVdi([], []));
      case Fetched(t) =>
        var df := new VdiFrame(t.columns, t.rows);
        if "MAXIMUM" !in df.columns { return Failure(KeyError); }
        if "MINIMUM" !in df.columns { return Failure(KeyError); }
        df.rows := RoundVoltages(df.rows);
        r := ToDerivedVDIDict(df);
    }
  }

  /** Every entry of the fetched section carries integral voltages. */
  lemma {:induction false} EntriesKeepIntegralVoltages(rows: seq<VdiRow>, voltage: int)
    requires forall i :: 0 <= i < |rows| ==> rows[i].maximum.IntNum? && rows[i].minimum.IntNum?
    ensures forall k :: 0 <= k < |Entries(rows, voltage)| ==>
      Entries(rows, voltage)[k].maxVol.IntNum? && Entries(rows, voltage)[k].minVol.IntNum?
    decreases |rows|
  {
    if rows != [] {
      EntriesKeepIntegralVoltages(rows[..|rows| - 1], voltage);
    }
  }

  /** A fetched section lists the stations with their voltages rounded to integers. */
  lemma WeeklyVdiVoltagesIntegral(outcome: DbOutcome<VdiTable>)
    requires WeeklyVdi(outcome).Success?
    ensures var s := WeeklyVdi(outcome).value;
      (forall k :: 0 <= k < |s.vdi400Rows| ==> s.vdi400Rows[k].maxVol.IntNum? && s.vdi400Rows[k].minVol.IntNum?)
      && (forall k :: 0 <= k < |s.vdi765Rows| ==> s.vdi765Rows[k].maxVol.IntNum? && s.vdi765Rows[k].minVol.IntNum?)
  {
    if outcome.Fetched? {
      var rows := RoundVoltages(outcome.table.rows);
      EntriesKeepIntegralVoltages(rows, 400);
      EntriesKeepIntegralVoltages(rows, 765);
    }
  }

  /** When the query raises, the section is returned with both lists empty. */
  lemma WeeklyVdiQueryFailed()
    ensures WeeklyVdi(QueryFailed) == Success(StationwiseVdi([], []))
  {
  }

  /** A fetched section lists, for each of the two levels, one station per row of that
      level in row order: the station name, MAXIMUM and MINIMUM rounded to integers,
      the three bands and the VDI with two decimals, and the three hour columns as
      `hh:mm` spans; nothing but the two voltages is rounded. */
  lemma WeeklyVdiStations(t: VdiTable, voltage: int, k: nat)
    requires WeeklyVdi(Fetched(t)).Success? && (voltage == 400 || voltage == 765)
    ensures var s := WeeklyVdi(Fetched(t)).value;
      var es := if voltage == 400 then s.vdi400Rows else s.vdi765Rows;
      |es| == |AtLevel(t.rows, voltage)|
      && (k < |es| ==>
        var row := AtLevel(t.rows, voltage)[k];
        es[k].station == row.nodeName
        && es[k].maxVol == RoundToInt(row.maximum) && es[k].minVol == RoundToInt(row.minimum)
        && es[k].lessThanBand == Fixed2(row.lessThanBand)
        && es[k].bwBand == Fixed2(row.betweenBand)
        && es[k].greatThanBand == Fixed2(row.greaterThanBand)
        && es[k].lessBandHrs == ConvertHrsToSpanStr(row.lessThanBandInHrs)
        && es[k].greatBandHrs == ConvertHrsToSpanStr(row.greaterThanBandInHrs)
        && es[k].outOfBandHrs == ConvertHrsToSpanStr(row.outOfBandInHrs)
        && es[k].vdi == Fixed2(row.vdiValue))
  {
    EntriesOfLevel(RoundVoltages(t.rows), voltage);
    AtLevelRounded(t.rows, voltage);
  }
}
