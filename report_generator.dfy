/** The weekly report generator: it builds the report context for a week (the dates,
    the week number, the financial-year label and one section per data source) and
    names the `.docx` file the rendered report is saved to. */
module ReportGenerator {
  import opened Wrappers
  import opened Decimal
  import opened PyText
  import opened Calendar
  import opened TimeUtils
  import opened Numbers
  import opened Db
  import opened VdiFetcher
  import opened FreqProfileFetcher

  /** A record of a report table built by a fetcher whose code is not part of this model. */
  datatype Row = Row(fields: map<string, string>)

  /** The angle violations section: wide-area and adjacent-pair violations. */
  datatype AngleViolSummary = AngleViolSummary(wideAnglViols: seq<Row>, adjAnglViols: seq<Row>)

  /** The data sources of the report, as functions of the connection string and the
      dates they are called with. The frequency and VDI fetchers are modelled; of
      them only the database read is given here. */
  datatype Sources = Sources(
    majorGenUnitOutages: (string, DateTime, DateTime) -> Result<seq<Row>>,
    transElOutages: (string, DateTime, DateTime) -> Result<seq<Row>>,
    longTimeUnrevivedForcedOutages: (string, DateTime, DateTime) -> Result<seq<Row>>,
    derivedFrequencyRead: (string, DateTime, DateTime) -> DbOutcome<FreqTable>,
    weeklyVdiRead: (string, DateTime) -> DbOutcome<VdiTable>,
    derivedVoltage: (string, DateTime, DateTime) -> Result<map<string, seq<Row>>>,
    iegcViolMsgs: (string, DateTime, DateTime) -> Result<seq<Row>>,
    anglViolations: (string, DateTime, DateTime) -> Result<AngleViolSummary>,
    ictConstraints: (string, DateTime, DateTime) -> Result<seq<Row>>,
    transConstraints: (string, DateTime, DateTime) -> Result<seq<Row>>,
    hvNodesInfo: (string, DateTime, DateTime) -> Result<seq<Row>>,
    lvNodesInfo: (string, DateTime, DateTime) -> Result<seq<Row>>)

  /** The keys of the report context dictionary, named after its string keys. */
  datatype Key =
    | StartDtObj | EndDtObj | StartDt | EndDt | WkNum | FinYr
    | GenOtgs | TransOtgs | LongTimeOtgs | FreqProfRows | WeeklyFdi | WideViols | AdjViols
    | VoltStats | IctCons | TransCons | LvNodes | HvNodes
    | Vdi400Rows | Vdi765Rows | ViolMsgs

  /** The values the report context holds. */
  datatype CtxValue =
    | DateValue(at: DateTime)
    | Text(text: string)
    | Number(n: int)
    | Formatted(fixed: Fixed2)
    | Records(rows: seq<Row>)
    | FreqRecords(freqRows: seq<DayFreqProfile>)
    | VdiRecords(vdiRows: seq<StationVdiProfile>)
    | Tables(tables: map<string, seq<Row>>)

  type ReportContext = map<Key, CtxValue>

  /** The keys of a complete report context. */
  const AllKeys: set<Key> := {
    StartDtObj, EndDtObj, StartDt, EndDt, WkNum, FinYr,
    GenOtgs, TransOtgs, LongTimeOtgs, FreqProfRows, WeeklyFdi, WideViols, AdjViols,
    VoltStats, IctCons, TransCons, LvNodes, HvNodes, Vdi400Rows, Vdi765Rows, ViolMsgs}

  /** `endDate.replace(hour=23, minute=59, second=59)`. */
  function EndOfDay(d: DateTime): (e: DateTime)
    ensures e.ordinal == d.ordinal && LessEq(d, e)
    ensures forall t: SecondOfDay :: LessEq(DateTime(d.ordinal, t), e)
  {
    DateTime(d.ordinal, 23 * 3600 + 59 * 60 + 59)
  }

  /** Two decimal digits, as `%d` and `%m` write a day or a month. */
  function TwoDigits(n: int): (s: string)
    requires 0 <= n < 100
    ensures |s| == 2 && AllDigits(s) && DigitsValue(s) == n
  {
    var s := [DigitChar(n / 10), DigitChar(n % 10)];
    assert s[..1] == [DigitChar(n / 10)] && s[..1][..0] == [];
    assert DigitsValue(s[..1]) == n / 10;
    assert DigitsValue(s) == 10 * (n / 10) + n % 10;
    s
  }

  /** `%b`: the abbreviated English month name. */
  function MonthAbbreviation(m: int): string
    requires 1 <= m <= 12
  {
    if m == 1 then "Jan" else if m == 2 then "Feb" else if m == 3 then "Mar"
    else if m == 4 then "Apr" else if m == 5 then "May" else if m == 6 then "Jun"
    else if m == 7 then "Jul" else if m == 8 then "Aug" else if m == 9 then "Sep"
    else if m == 10 then "Oct" else if m == 11 then "Nov" else "Dec"
  }

  /** `strftime(d, '%d-%b-%Y')`, the dates shown in the report. */
  function DayMonthNameYear(d: DateTime): string {
    TwoDigits(DayOfMonth(d.ordinal)) + "-" + MonthAbbreviation(MonthOf(d.ordinal)) + "-" + IntToString(YearOf(d.ordinal))
  }

  /** Reads an abbreviated English month name back into the month's number. */
  function MonthOfAbbreviation(s: string): Option<int> {
    if s == "Jan" then Some(1) else if s == "Feb" then Some(2) else if s == "Mar" then Some(3)
    else if s == "Apr" then Some(4) else if s == "May" then Some(5) else if s == "Jun" then Some(6)
    else if s == "Jul" then Some(7) else if s == "Aug" then Some(8) else if s == "Sep" then Some(9)
    else if s == "Oct" then Some(10) else if s == "Nov" then Some(11) else if s == "Dec" then Some(12)
    else None
  }

  /** Every month's abbreviation is three characters long and names that month alone. */
  lemma MonthAbbreviationRoundTrip(m: int)
    requires 1 <= m <= 12
    ensures |MonthAbbreviation(m)| == 3 && MonthOfAbbreviation(MonthAbbreviation(m)) == Some(m)
  {
  }

  /** For a four-digit year, the report date is eleven characters wide, with dashes at
      2 and 6, and its parts read back as the day, the month and the year. */
  lemma DayMonthNameYearLayout(d: DateTime)
    requires 1000 <= YearOf(d.ordinal) <= 9999
    ensures var s := DayMonthNameYear(d);
      |s| == 11 && s[2] == '-' && s[6] == '-'
      && ParseInt(s[..2]) == Some(DayOfMonth(d.ordinal))
      && MonthOfAbbreviation(s[3..6]) == Some(MonthOf(d.ordinal))
      && ParseInt(s[7..]) == Some(YearOf(d.ordinal))
  {
    var dd := TwoDigits(DayOfMonth(d.ordinal));
    var mmm := MonthAbbreviation(MonthOf(d.ordinal));
    var yyyy := IntToString(YearOf(d.ordinal));
    NatToStringLength(YearOf(d.ordinal));
    ParseIntToString(YearOf(d.ordinal));
    MonthAbbreviationRoundTrip(MonthOf(d.ordinal));
    var s := DayMonthNameYear(d);
    assert s == dd + "-" + mmm + "-" + yyyy;
    assert s[..2] == dd;
    assert s[3..6] == mmm;
    assert s[7..] == yyyy;
    ParseDigits(dd);
  }

  /** Two days of four-digit years have the same report date only if they are the same day. */
  lemma DayMonthNameYearInjective(a: DateTime, b: DateTime)
    requires 1000 <= YearOf(a.ordinal) <= 9999 && 1000 <= YearOf(b.ordinal) <= 9999
    requires DayMonthNameYear(a) == DayMonthNameYear(b)
    ensures a.ordinal == b.ordinal
  {
    DayMonthNameYearLayout(a);
    DayMonthNameYearLayout(b);
    FieldsDetermineOrdinal(a.ordinal, b.ordinal);
  }

  /** `strftime(d, '%d-%m-%Y')`, the dates in the file name. */
  function DayMonthYear(d: DateTime): string {
    TwoDigits(DayOfMonth(d.ordinal)) + "-" + TwoDigits(MonthOf(d.ordinal)) + "-" + IntToString(YearOf(d.ordinal))
  }

  /** For a four-digit year, the file-name date is ten characters wide and each of its
      parts reads back as the day, the month and the year. */
  lemma DayMonthYearRoundTrip(d: DateTime)
    requires 1000 <= YearOf(d.ordinal) <= 9999
    ensures var s := DayMonthYear(d);
      |s| == 10 && s[2] == '-' && s[5] == '-'
      && ParseInt(s[..2]) == Some(DayOfMonth(d.ordinal))
      && ParseInt(s[3..5]) == Some(MonthOf(d.ordinal))
      && ParseInt(s[6..]) == Some(YearOf(d.ordinal))
  {
    var dd := TwoDigits(DayOfMonth(d.ordinal));
    var mm := TwoDigits(MonthOf(d.ordinal));
    var yyyy := IntToString(YearOf(d.ordinal));
    NatToStringLength(YearOf(d.ordinal));
    ParseIntToString(YearOf(d.ordinal));
    var s := DayMonthYear(d);
    assert s == dd + "-" + mm + "-" + yyyy;
    assert s[..2] == dd;
    assert s[3..5] == mm;
    assert s[6..] == yyyy;
    ParseDigits(dd);
    ParseDigits(mm);
  }

  /** Two days of four-digit years have the same file-name date only if they are the same day. */
  lemma DayMonthYearInjective(a: DateTime, b: DateTime)
    requires 1000 <= YearOf(a.ordinal) <= 9999 && 1000 <= YearOf(b.ordinal) <= 9999
    requires DayMonthYear(a) == DayMonthYear(b)
    ensures a.ordinal == b.ordinal
  {
    DayMonthYearRoundTrip(a);
    DayMonthYearRoundTrip(b);
    FieldsDetermineOrdinal(a.ordinal, b.ordinal);
  }

  /** The financial-year label `'{0}-{1}'.format(finYr, (finYr + 1) % 100)`: the year,
      a dash, and the following year's last two digits with no zero padding. */
  function FinYearLabel(finYr: int): string {
    IntToString(finYr) + "-" + IntToString((finYr + 1) % 100)
  }

  /** Reads a label back into the year and the short year, splitting at the first dash. */
  function ParseFinYearLabel(s: string): Option<(int, int)> {
    match Find(s, '-')
    case None => None
    case Some(k) =>
      match (ParseInt(s[..k]), ParseInt(s[k + 1..]))
      case (Some(y), Some(n)) => Some((y, n))
      case _ => None
  }

  /** For a year that is not negative, the label reads back as the year and the last two
      digits of the next year. */
  lemma FinYearLabelRoundTrip(finYr: int)
    requires finYr >= 0
    ensures ParseFinYearLabel(FinYearLabel(finYr)) == Some((finYr, (finYr + 1) % 100))
  {
    var year := IntToString(finYr);
    var short := IntToString((finYr + 1) % 100);
    var s := FinYearLabel(finYr);
    FindAfterPrefix(year, '-', short);
    assert s == year + ['-'] + short;
    assert s[..|year|] == year;
    assert s[|year| + 1..] == short;
    ParseIntToString(finYr);
    ParseIntToString((finYr + 1) % 100);
  }

  /** The labels shown in the report: 2020 gives `2020-21`; 2008 gives `2008-9`, with no
      zero padding. */
  lemma FinYearLabelExamples()
    ensures FinYearLabel(2020) == "2020-21"
    ensures FinYearLabel(2008) == "2008-9"
  {
    assert IntToString(2020) == "2020";
    assert IntToString(21) == "21";
    assert IntToString(2008) == "2008";
    assert IntToString(9) == "9";
  }

  /** The four empty voltage statistics tables of the initial context. */
  const EmptyVoltStats: map<string, seq<Row>> := map["table1" := [], "table2" := [], "table3" := [], "table4" := []]

  /** There are four tables, `table1` to `table4`, and each is empty. */
  lemma EmptyVoltStatsTables()
    ensures EmptyVoltStats.Keys == {"table1", "table2", "table3", "table4"}
    ensures |EmptyVoltStats| == 4
    ensures forall t :: t in EmptyVoltStats ==> EmptyVoltStats[t] == []
  {
    assert "table1" != "table2" && "table1" != "table3" && "table1" != "table4";
    assert "table2" != "table3" && "table2" != "table4" && "table3" != "table4";
  }

  /** The header of the report: the two dates, their display forms, the week number
      and the financial-year label. */
  datatype Header = Header(startDtObj: DateTime, endDtObj: DateTime, startDt: string, endDt: string, wkNum: int, finYr: string)

  /** The header `getReportContextObj` derives: the end date moved to 23:59:59, both
      dates written `%d-%b-%Y`, and the week number and financial year of the start date. */
  function HeaderOf(startDate: DateTime, endDate: DateTime): Header {
    var endDt := EndOfDay(endDate);
    Header(startDate, endDt, DayMonthNameYear(startDate), DayMonthNameYear(endDt),
      WeekNumOfFinYr(startDate), FinYearLabel(FinYearForDt(startDate)))
  }

  /** The context before any source is read: the header, every list empty, `weeklyFdi`
      -1 and the empty voltage tables. */
  function InitialContext(h: Header): ReportContext {
    map[
      StartDtObj := DateValue(h.startDtObj),
      EndDtObj := DateValue(h.endDtObj),
      StartDt := Text(h.startDt),
      EndDt := Text(h.endDt),
      WkNum := Number(h.wkNum),
      FinYr := Text(h.finYr),
      GenOtgs := Records([]),
      TransOtgs := Records([]),
      LongTimeOtgs := Records([]),
      FreqProfRows := Records([]),
      WeeklyFdi := Number(-1),
      WideViols := Records([]),
      AdjViols := Records([]),
      VoltStats := Tables(EmptyVoltStats),
      IctCons := Records([]),
      TransCons := Records([]),
      LvNodes := Records([]),
      HvNodes := Records([])]
  }

  /** Before any fetch, the VDI lists and the violation messages are not in the context;
      every other key is. */
  lemma InitialContextKeys(h: Header)
    ensures InitialContext(h).Keys == AllKeys - {Vdi400Rows, Vdi765Rows, ViolMsgs}
  {
  }

  /** Before any fetch, every list section is empty, `weeklyFdi` is -1 and the voltage
      statistics are the empty tables. */
  lemma InitialContextDefaults(h: Header)
    ensures var ctx := InitialContext(h);
      ctx[GenOtgs] == ctx[TransOtgs] == ctx[LongTimeOtgs] == ctx[FreqProfRows] == Records([])
      && ctx[WideViols] == ctx[AdjViols] == ctx[IctCons] == ctx[TransCons] == Records([])
      && ctx[LvNodes] == ctx[HvNodes] == Records([])
      && ctx[WeeklyFdi] == Number(-1)
      && ctx[VoltStats] == Tables(EmptyVoltStats)
  {
  }

  /** What the sources returned, one field per section. */
  datatype Sections = Sections(
    genOtgs: seq<Row>, transOtgs: seq<Row>, longTimeOtgs: seq<Row>,
    freqProfile: FreqProfile, vdiData: StationwiseVdi, voltStats: map<string, seq<Row>>,
    violMsgs: seq<Row>, pairAnglViolations: AngleViolSummary,
    ictConsList: seq<Row>, transConsList: seq<Row>, hvNodesInfoList: seq<Row>, lvNodesInfoList: seq<Row>)

  /** The initial context with each section overwritten, in the order of `getReportContextObj`. */
  function Assemble(h: Header, s: Sections): ReportContext {
    InitialContext(h)
      [GenOtgs := Records(s.genOtgs)]
      [TransOtgs := Records(s.transOtgs)]
      [LongTimeOtgs := Records(s.longTimeOtgs)]
      [FreqProfRows := FreqRecords(s.freqProfile.freqProfRows)]
      [WeeklyFdi := Formatted(Fixed2(AsReal(s.freqProfile.weeklyFdi)))]
      [Vdi400Rows := VdiRecords(s.vdiData.vdi400Rows)]
      [Vdi765Rows := VdiRecords(s.vdiData.vdi765Rows)]
      [VoltStats := Tables(s.voltStats)]
      [ViolMsgs := Records(s.violMsgs)]
      [WideViols := Records(s.pairAnglViolations.wideAnglViols)]
      [AdjViols := Records(s.pairAnglViolations.adjAnglViols)]
      [IctCons := Records(s.ictConsList)]
      [TransCons := Records(s.transConsList)]
      [HvNodes := Records(s.hvNodesInfoList)]
      [LvNodes := Records(s.lvNodesInfoList)]
  }

  /** An assembled context holds every key of a complete context. */
  lemma AssembleKeys(h: Header, s: Sections)
    ensures Assemble(h, s).Keys == AllKeys
  {
  }

  /** The date entries of an assembled context are the header's. */
  lemma AssembleDates(h: Header, s: Sections)
    ensures var ctx := Assemble(h, s);
      ctx[StartDtObj] == DateValue(h.startDtObj)
      && ctx[EndDtObj] == DateValue(h.endDtObj)
      && ctx[StartDt] == Text(h.startDt)
      && ctx[EndDt] == Text(h.endDt)
  {
  }

  /** The week number and the financial-year label of an assembled context are the header's. */
  lemma AssembleWeek(h: Header, s: Sections)
    ensures var ctx := Assemble(h, s);
      ctx[WkNum] == Number(h.wkNum) && ctx[FinYr] == Text(h.finYr)
  {
  }

  /** The outage sections and the frequency section of an assembled context hold what
      their sources returned; nothing of the initial lists survives. */
  lemma AssembleOutagesAndFrequency(h: Header, s: Sections)
    ensures var ctx := Assemble(h, s);
      ctx[GenOtgs] == Records(s.genOtgs)
      && ctx[TransOtgs] == Records(s.transOtgs)
      && ctx[LongTimeOtgs] == Records(s.longTimeOtgs)
      && ctx[FreqProfRows] == FreqRecords(s.freqProfile.freqProfRows)
      && ctx[WeeklyFdi] == Formatted(Fixed2(AsReal(s.freqProfile.weeklyFdi)))
  {
  }

  /** The voltage, violation and angle sections of an assembled context hold what their
      sources returned. */
  lemma AssembleVoltageAndViolations(h: Header, s: Sections)
    ensures var ctx := Assemble(h, s);
      ctx[Vdi400Rows] == VdiRecords(s.vdiData.vdi400Rows)
      && ctx[Vdi765Rows] == VdiRecords(s.vdiData.vdi765Rows)
      && ctx[VoltStats] == Tables(s.voltStats)
      && ctx[ViolMsgs] == Records(s.violMsgs)
      && ctx[WideViols] == Records(s.pairAnglViolations.wideAnglViols)
      && ctx[AdjViols] == Records(s.pairAnglViolations.adjAnglViols)
  {
  }

  /** The constraint and node sections of an assembled context hold what their sources
      returned. */
  lemma AssembleConstraintsAndNodes(h: Header, s: Sections)
    ensures var ctx := Assemble(h, s);
      ctx[IctCons] == Records(s.ictConsList)
      && ctx[TransCons] == Records(s.transConsList)
      && ctx[HvNodes] == Records(s.hvNodesInfoList)
      && ctx[LvNodes] == Records(s.lvNodesInfoList)
  {
  }

  /** The report context for the week, with the angle section given by `angle`; every
      other section is read from its source in the order of `getReportContextObj`. The
      first source that raises ends the assembly with its exception. */
  function ContextWith(con: string, startDate: DateTime, endDate: DateTime, src: Sources, angle: Result<AngleViolSummary>): (r: Result<ReportContext>)
    ensures r.Success? ==> r.value.Keys == AllKeys
  {
    var endDt := EndOfDay(endDate);
    var genOtgs :- src.majorGenUnitOutages(con, startDate, endDt);
    var transOtgs :- src.transElOutages(con, startDate, endDt);
    var longTimeOtgs :- src.longTimeUnrevivedForcedOutages(con, startDate, endDt);
    var freqProfile :- DerivedFrequency(src.derivedFrequencyRead(con, startDate, endDt));
    var vdiData :- WeeklyVdi(src.weeklyVdiRead(con, startDate));
    var voltStats :- src.derivedVoltage(con, startDate, endDt);
    var violMsgs :- src.iegcViolMsgs(con, startDate, endDt);
    var pairAnglViolations :- angle;
    var ictConsList :- src.ictConstraints(con, startDate, endDt);
    var transConsList :- src.transConstraints(con, startDate, endDt);
    var hvNodesInfoList :- src.hvNodesInfo(con, startDate, endDt);
    var lvNodesInfoList :- src.lvNodesInfo(con, startDate, endDt);
    var sections := Sections(genOtgs, transOtgs, longTimeOtgs, freqProfile, vdiData,
      voltStats, violMsgs, pairAnglViolations, ictConsList, transConsList, hvNodesInfoList, lvNodesInfoList);
    AssembleKeys(HeaderOf(startDate, endDate), sections);
    Success(Assemble(HeaderOf(startDate, endDate), sections))
  }

  /** The report context with the angle section read from a fetcher that returns the
      angle summary, as the call at weeklyReportGenerator.py:120 expects. */
  function ContextOf(con: string, startDate: DateTime, endDate: DateTime, src: Sources): (r: Result<ReportContext>)
    ensures r.Success? ==> r.value.Keys == AllKeys
  {
    ContextWith(con, startDate, endDate, src, src.anglViolations(con, startDate, EndOfDay(endDate)))
  }

  /** The report context as the code is written: the method it calls on the angle
      violations fetcher does not exist, so that call raises AttributeError. */
  function ContextAsWritten(con: string, startDate: DateTime, endDate: DateTime, src: Sources): Result<ReportContext> {
    ContextWith(con, startDate, endDate, src, Failure(AttributeError))
  }

  /** As written, the context is never built: some fetch raises, at the latest the call
      to the missing angle violations method. */
  lemma ContextAsWrittenAlwaysFails(con: string, startDate: DateTime, endDate: DateTime, src: Sources)
    ensures ContextAsWritten(con, startDate, endDate, src).Failure?
  {
  }

  /** Every source that the assembly reads returns a value. */
  predicate AllSourcesSucceed(con: string, startDate: DateTime, endDate: DateTime, src: Sources) {
    var endDt := EndOfDay(endDate);
    src.majorGenUnitOutages(con, startDate, endDt).Success?
    && src.transElOutages(con, startDate, endDt).Success?
    && src.longTimeUnrevivedForcedOutages(con, startDate, endDt).Success?
    && DerivedFrequency(src.derivedFrequencyRead(con, startDate, endDt)).Success?
    && WeeklyVdi(src.weeklyVdiRead(con, startDate)).Success?
    && src.derivedVoltage(con, startDate, endDt).Success?
    && src.iegcViolMsgs(con, startDate, endDt).Success?
    && src.anglViolations(con, startDate, endDt).Success?
    && src.ictConstraints(con, startDate, endDt).Success?
    && src.transConstraints(con, startDate, endDt).Success?
    && src.hvNodesInfo(con, startDate, endDt).Success?
    && src.lvNodesInfo(con, startDate, endDt).Success?
  }

  /** The results of all sources, when all succeed. */
  function SectionsOf(con: string, startDate: DateTime, endDate: DateTime, src: Sources): Sections
    requires AllSourcesSucceed(con, startDate, endDate, src)
  {
    var endDt := EndOfDay(endDate);
    Sections(
      src.majorGenUnitOutages(con, startDate, endDt).value,
      src.transElOutages(con, startDate, endDt).value,
      src.longTimeUnrevivedForcedOutages(con, startDate, endDt).value,
      DerivedFrequency(src.derivedFrequencyRead(con, startDate, endDt)).value,
      WeeklyVdi(src.weeklyVdiRead(con, startDate)).value,
      src.derivedVoltage(con, startDate, endDt).value,
      src.iegcViolMsgs(con, startDate, endDt).value,
      src.anglViolations(con, startDate, endDt).value,
      src.ictConstraints(con, startDate, endDt).value,
      src.transConstraints(con, startDate, endDt).value,
      src.hvNodesInfo(con, startDate, endDt).value,
      src.lvNodesInfo(con, startDate, endDt).value)
  }

  /** There is no isolation of failures: the context is built exactly when every source
      succeeds, and it is then the assembly of what they returned, with the end date
      moved to 23:59:59. */
  lemma ContextSucceedsIffAllSourcesSucceed(con: string, startDate: DateTime, endDate: DateTime, src: Sources)
    ensures ContextOf(con, startDate, endDate, src).Success? <==> AllSourcesSucceed(con, startDate, endDate, src)
    ensures ContextOf(con, startDate, endDate, src).Success? ==>
      ContextOf(con, startDate, endDate, src).value == Assemble(HeaderOf(startDate, endDate), SectionsOf(con, startDate, endDate, src))
  {
  }

  /** A failed assembly raises the exception of the first source, in the order of
      `getReportContextObj`, that fails. */
  lemma ContextFailsWithFirstError(con: string, startDate: DateTime, endDate: DateTime, src: Sources)
    ensures var endDt := EndOfDay(endDate); var r := ContextOf(con, startDate, endDate, src);
      (src.majorGenUnitOutages(con, startDate, endDt).Failure? ==> r == Failure(src.majorGenUnitOutages(con, startDate, endDt).error))
      && (src.majorGenUnitOutages(con, startDate, endDt).Success? && src.transElOutages(con, startDate, endDt).Failure?
          ==> r == Failure(src.transElOutages(con, startDate, endDt).error))
  {
  }

  /** A built context holds exactly the keys of a complete context, and its header is
      derived from the start date and the end date moved to 23:59:59. */
  lemma ContextDerivedFields(con: string, startDate: DateTime, endDate: DateTime, src: Sources)
    requires ContextOf(con, startDate, endDate, src).Success?
    ensures var ctx := ContextOf(con, startDate, endDate, src).value;
      ctx.Keys == AllKeys
      && ctx[StartDtObj] == DateValue(startDate)
      && ctx[EndDtObj] == DateValue(EndOfDay(endDate))
      && ctx[StartDt] == Text(DayMonthNameYear(startDate))
      && ctx[EndDt] == Text(DayMonthNameYear(EndOfDay(endDate)))
      && ctx[WkNum] == Number(WeekNumOfFinYr(startDate))
      && ctx[FinYr] == Text(FinYearLabel(FinYearForDt(startDate)))
  {
    ContextSucceedsIffAllSourcesSucceed(con, startDate, endDate, src);
    AssembleDates(HeaderOf(startDate, endDate), SectionsOf(con, startDate, endDate, src));
    AssembleWeek(HeaderOf(startDate, endDate), SectionsOf(con, startDate, endDate, src));
  }

  /** The week number and the financial-year label depend on the start date only. */
  lemma WeekFieldsIgnoreEndDate(con: string, startDate: DateTime, end1: DateTime, end2: DateTime, src: Sources)
    requires ContextOf(con, startDate, end1, src).Success? && ContextOf(con, startDate, end2, src).Success?
    ensures ContextOf(con, startDate, end1, src).value[WkNum] == ContextOf(con, startDate, end2, src).value[WkNum]
    ensures ContextOf(con, startDate, end1, src).value[FinYr] == ContextOf(con, startDate, end2, src).value[FinYr]
  {
    ContextDerivedFields(con, startDate, end1, src);
    ContextDerivedFields(con, startDate, end2, src);
  }

  /** Each section of a built context is its source's result: the list fetchers and the
      frequency fetcher are asked with the end date moved to 23:59:59, the VDI fetcher
      with the start date alone, and the two angle lists are the two fields of the angle summary. */
  lemma ContextSections(con: string, startDate: DateTime, endDate: DateTime, src: Sources)
    requires ContextOf(con, startDate, endDate, src).Success?
    ensures var ctx := ContextOf(con, startDate, endDate, src).value; var endDt := EndOfDay(endDate);
      ctx[GenOtgs] == Records(src.majorGenUnitOutages(con, startDate, endDt).value)
      && ctx[TransOtgs] == Records(src.transElOutages(con, startDate, endDt).value)
      && ctx[LongTimeOtgs] == Records(src.longTimeUnrevivedForcedOutages(con, startDate, endDt).value)
      && ctx[FreqProfRows] == FreqRecords(DerivedFrequency(src.derivedFrequencyRead(con, startDate, endDt)).value.freqProfRows)
      && ctx[WeeklyFdi] == Formatted(Fixed2(AsReal(DerivedFrequency(src.derivedFrequencyRead(con, startDate, endDt)).value.weeklyFdi)))
      && ctx[Vdi400Rows] == VdiRecords(WeeklyVdi(src.weeklyVdiRead(con, startDate)).value.vdi400Rows)
      && ctx[Vdi765Rows] == VdiRecords(WeeklyVdi(src.weeklyVdiRead(con, startDate)).value.vdi765Rows)
      && ctx[VoltStats] == Tables(src.derivedVoltage(con, startDate, endDt).value)
      && ctx[ViolMsgs] == Records(src.iegcViolMsgs(con, startDate, endDt).value)
      && ctx[WideViols] == Records(src.anglViolations(con, startDate, endDt).value.wideAnglViols)
      && ctx[AdjViols] == Records(src.anglViolations(con, startDate, endDt).value.adjAnglViols)
      && ctx[IctCons] == Records(src.ictConstraints(con, startDate, endDt).value)
      && ctx[TransCons] == Records(src.transConstraints(con, startDate, endDt).value)
      && ctx[HvNodes] == Records(src.hvNodesInfo(con, startDate, endDt).value)
      && ctx[LvNodes] == Records(src.lvNodesInfo(con, startDate, endDt).value)
  {
    ContextSucceedsIffAllSourcesSucceed(con, startDate, endDate, src);
    var h := HeaderOf(startDate, endDate);
    var sections := SectionsOf(con, startDate, endDate, src);
    AssembleOutagesAndFrequency(h, sections);
    AssembleVoltageAndViolations(h, sections);
    AssembleConstraintsAndNodes(h, sections);
  }

  /** The name of the saved report, `Weekly_no_{wkNum}_{start}_to_{end}.docx`, for the
      text that `{0}` writes for the week number. */
  function DumpFileName(wkNum: string, startDt: DateTime, endDt: DateTime): string {
    "Weekly_no_" + wkNum + "_" + DayMonthYear(startDt) + "_to_" + DayMonthYear(endDt) + ".docx"
  }

  /** The middle part of a concatenation is the slice between the lengths of its ends. */
  lemma SliceOfConcat(p: string, x: string, q: string)
    ensures (p + x + q)[|p|..|p| + |x|] == x
  {
    assert (p + x + q)[|p|..|p| + |x|] == (p + x)[|p|..];
  }

  /** In a name laid out as the report's file name, with ten-character dates, the
      number follows the ten-character prefix and the dates sit 29 and 15 characters
      before the end. */
  lemma FileNameLayout(w: string, d1: string, d2: string)
    requires |d1| == 10 && |d2| == 10
    ensures var n := "Weekly_no_" + w + "_" + d1 + "_to_" + d2 + ".docx";
      |n| == |w| + 40
      && n[10..|n| - 30] == w
      && n[|n| - 29..|n| - 19] == d1
      && n[|n| - 15..|n| - 5] == d2
  {
    var n := "Weekly_no_" + w + "_" + d1 + "_to_" + d2 + ".docx";
    assert n == "Weekly_no_" + w + ("_" + d1 + "_to_" + d2 + ".docx");
    SliceOfConcat("Weekly_no_", w, "_" + d1 + "_to_" + d2 + ".docx");
    assert n == ("Weekly_no_" + w + "_") + d1 + ("_to_" + d2 + ".docx");
    SliceOfConcat("Weekly_no_" + w + "_", d1, "_to_" + d2 + ".docx");
    assert n == ("Weekly_no_" + w + "_" + d1 + "_to_") + d2 + ".docx";
    SliceOfConcat("Weekly_no_" + w + "_" + d1 + "_to_", d2, ".docx");
  }

  /** The week number and the two dates sit at fixed places in the file name: the number
      after the ten-character prefix, the dates 29 and 15 characters before its end. */
  lemma DumpFileNameParts(wkNum: string, startDt: DateTime, endDt: DateTime)
    requires 1000 <= YearOf(startDt.ordinal) <= 9999 && 1000 <= YearOf(endDt.ordinal) <= 9999
    ensures var n := DumpFileName(wkNum, startDt, endDt);
      |n| == |wkNum| + 40
      && n[10..|n| - 30] == wkNum
      && n[|n| - 29..|n| - 19] == DayMonthYear(startDt)
      && n[|n| - 15..|n| - 5] == DayMonthYear(endDt)
  {
    DayMonthYearRoundTrip(startDt);
    DayMonthYearRoundTrip(endDt);
    FileNameLayout(wkNum, DayMonthYear(startDt), DayMonthYear(endDt));
  }

  /** Reports for different week numbers or different date ranges get different file
      names (for four-digit years), so none overwrites another. */
  lemma DumpFileNameInjective(w1: int, s1: DateTime, e1: DateTime, w2: int, s2: DateTime, e2: DateTime)
    requires 1000 <= YearOf(s1.ordinal) <= 9999 && 1000 <= YearOf(e1.ordinal) <= 9999
    requires 1000 <= YearOf(s2.ordinal) <= 9999 && 1000 <= YearOf(e2.ordinal) <= 9999
    requires DumpFileName(IntToString(w1), s1, e1) == DumpFileName(IntToString(w2), s2, e2)
    ensures w1 == w2 && s1.ordinal == s2.ordinal && e1.ordinal == e2.ordinal
  {
    var n := DumpFileName(IntToString(w1), s1, e1);
    DumpFileNameParts(IntToString(w1), s1, e1);
    DumpFileNameParts(IntToString(w2), s2, e2);
    assert IntToString(w1) == n[10..|n| - 30] == IntToString(w2);
    assert DayMonthYear(s1) == n[|n| - 29..|n| - 19] == DayMonthYear(s2);
    assert DayMonthYear(e1) == n[|n| - 15..|n| - 5] == DayMonthYear(e2);
    DayMonthYearInjective(s1, s2);
    DayMonthYearInjective(e1, e2);
    ParseIntToString(w1);
    ParseIntToString(w2);
  }

  /** `os.path.join(folder, name)` on a POSIX system. */
  function JoinPath(folder: string, name: string): (path: string)
    ensures |path| >= |name| && path[|path| - |name|..] == name
  {
    if name != [] && name[0] == '/' then name
    else if folder == [] || folder[|folder| - 1] == '/' then folder + name
    else folder + "/" + name
  }

  /** The text `'{0}'.format` writes for a context value, which is `str` of it: the
      digits of a number and a text itself; `strOf` gives `str` of the other kinds of
      value, whose spelling is not modelled. */
  function FormatArg(v: CtxValue, strOf: CtxValue -> string): (s: string)
    ensures v.Number? ==> s == IntToString(v.n)
    ensures v.Text? ==> s == v.text
  {
    match v
    case Number(n) => IntToString(n)
    case Text(t) => t
    case _ => strOf(v)
  }

  /** The fields the file name is made of, read from a context as the arguments of
      `.format` are evaluated, left to right: the week number, then the start date and
      its `strftime`, then the end date and its `strftime`. A missing key raises
      KeyError and a value that is not a date given to `strftime` raises TypeError;
      any kind of week number is written with `str`. */
  function FileNameFields(ctx: ReportContext, strOf: CtxValue -> string): Result<(string, DateTime, DateTime)> {
    if WkNum !in ctx then Failure(KeyError)
    else if StartDtObj !in ctx then Failure(KeyError)
    else if !ctx[StartDtObj].DateValue? then Failure(TypeError)
    else if EndDtObj !in ctx then Failure(KeyError)
    else if !ctx[EndDtObj].DateValue? then Failure(TypeError)
    else Success((FormatArg(ctx[WkNum], strOf), ctx[StartDtObj].at, ctx[EndDtObj].at))
  }

  /** The file name can be built exactly when the three keys are present and both dates
      are dates, whatever kind of value the week number is. */
  lemma FileNameFieldsSucceed(ctx: ReportContext, strOf: CtxValue -> string)
    ensures FileNameFields(ctx, strOf).Success? <==>
      WkNum in ctx && StartDtObj in ctx && EndDtObj in ctx
      && ctx[StartDtObj].DateValue? && ctx[EndDtObj].DateValue?
    ensures FileNameFields(ctx, strOf).Failure? ==> FileNameFields(ctx, strOf).error in {KeyError, TypeError}
  {
  }

  /** A start date that is not a date raises TypeError before the end date is looked up. */
  lemma FileNameFieldsStartFirst(ctx: ReportContext, strOf: CtxValue -> string)
    requires WkNum in ctx && StartDtObj in ctx && !ctx[StartDtObj].DateValue?
    ensures FileNameFields(ctx, strOf) == Failure(TypeError)
  {
  }

  /** A context's own fields give the name of the week: the week number's digits (or the
      text given for it) and the two dates. */
  lemma FileNameFieldsOfContext(ctx: ReportContext, strOf: CtxValue -> string)
    requires FileNameFields(ctx, strOf).Success?
    ensures var (w, s, e) := FileNameFields(ctx, strOf).value;
      ctx[StartDtObj] == DateValue(s) && ctx[EndDtObj] == DateValue(e)
      && (ctx[WkNum].Number? ==> w == IntToString(ctx[WkNum].n))
      && (ctx[WkNum].Text? ==> w == ctx[WkNum].text)
  {
  }

  /** What `generateWeeklyReport` returns for an assembly with result `ctx`: True once
      the context is built, the exception of the assembly otherwise. */
  function OutcomeOf(ctx: Result<ReportContext>): Result<bool> {
    match ctx
    case Success(_) => Success(true)
    case Failure(e) => Failure(e)
  }

  /** What `generateWeeklyReport` returns: True once the context is built, the
      exception of the first failing source otherwise. */
  function WeeklyReportOutcome(con: string, startDt: DateTime, endDt: DateTime, src: Sources): (r: Result<bool>)
    ensures r.Success? <==> ContextOf(con, startDt, endDt, src).Success?
    ensures r.Success? ==> r.value
    ensures r.Failure? ==> r.error == ContextOf(con, startDt, endDt, src).error
  {
    OutcomeOf(ContextOf(con, startDt, endDt, src))
  }

  /** What `generateWeeklyReport` returns as the code is written: it always raises. */
  function WeeklyReportOutcomeAsWritten(con: string, startDt: DateTime, endDt: DateTime, src: Sources): (r: Result<bool>)
    ensures r.Failure?
  {
    ContextAsWrittenAlwaysFails(con, startDt, endDt, src);
    OutcomeOf(ContextAsWritten(con, startDt, endDt, src))
  }

  /** The file a successful run writes: named after the week number of the start date,
      the start date and the end date, in the dump folder. */
  function WeeklyReportPath(startDt: DateTime, endDt: DateTime, dumpFolder: string): string {
    JoinPath(dumpFolder, DumpFileName(IntToString(WeekNumOfFinYr(startDt)), startDt, EndOfDay(endDt)))
  }

  /** The report generator: it keeps the application database connection string. */
  class WeeklyReportGenerator {
    var appDbConStr: string

    constructor (appDbConStr: string)
      ensures this.appDbConStr == appDbConStr
    {
      this.appDbConStr := appDbConStr;
    }

    /** `getReportContextObj`: derives the dates, week number and label, builds the
        initial context and overwrites each section with its source's result in turn. */
    method GetReportContextObj(startDate: DateTime, endDate: DateTime, src: Sources) returns (r: Result<ReportContext>)
      ensures r == ContextOf(appDbConStr, startDate, endDate, src)
    {
      var endDt := EndOfDay(endDate);
      var startDateReportString := DayMonthNameYear(startDate);
      var endDateReportString := DayMonthNameYear(endDt);
      var weekNum := WeekNumOfFinYr(startDate);
      var finYr := FinYearForDt(startDate);
      var finYrStr := FinYearLabel(finYr);
      var reportContext := InitialContext(Header(startDate, endDt, startDateReportString, endDateReportString, weekNum, finYrStr));
      var genOtgs :- src.majorGenUnitOutages(appDbConStr, startDate, endDt);
      reportContext := reportContext[GenOtgs := Records(genOtgs)];
      var transOtgs :- src.transElOutages(appDbConStr, startDate, endDt);
      reportContext := reportContext[TransOtgs := Records(transOtgs)];
      var longTimeOtgs :- src.longTimeUnrevivedForcedOutages(appDbConStr, startDate, endDt);
      reportContext := reportContext[LongTimeOtgs := Records(longTimeOtgs)];
      var freqProfile :- FetchDerivedFrequency(src.derivedFrequencyRead(appDbConStr, startDate, endDt));
      reportContext := reportContext[FreqProfRows := FreqRecords(freqProfile.freqProfRows)];
      reportContext := reportContext[WeeklyFdi := Formatted(Fixed2(AsReal(freqProfile.weeklyFdi)))];
      var vdiData :- FetchWeeklyVDI(src.weeklyVdiRead(appDbConStr, startDate));
      reportContext := reportContext[Vdi400Rows := VdiRecords(vdiData.vdi400Rows)];
      reportContext := reportContext[Vdi765Rows := VdiRecords(vdiData.vdi765Rows)];
      var voltStats :- src.derivedVoltage(appDbConStr, startDate, endDt);
      reportContext := reportContext[VoltStats := Tables(voltStats)];
      var violMsgs :- src.iegcViolMsgs(appDbConStr, startDate, endDt);
      reportContext := reportContext[ViolMsgs := Records(violMsgs)];
      var pairAnglViolations :- src.anglViolations(appDbConStr, startDate, endDt);
      reportContext := reportContext[WideViols := Records(pairAnglViolations.wideAnglViols)];
      reportContext := reportContext[AdjViols := Records(pairAnglViolations.adjAnglViols)];
      var ictConsList :- src.ictConstraints(appDbConStr, startDate, endDt);
      reportContext := reportContext[IctCons := Records(ictConsList)];
      var transConsList :- src.transConstraints(appDbConStr, startDate, endDt);
      reportContext := reportContext[TransCons := Records(transConsList)];
      var hvNodesInfoList :- src.hvNodesInfo(appDbConStr, startDate, endDt);
      reportContext := reportContext[HvNodes := Records(hvNodesInfoList)];
      var lvNodesInfoList :- src.lvNodesInfo(appDbConStr, startDate, endDt);
      reportContext := reportContext[LvNodes := Records(lvNodesInfoList)];
      r := Success(reportContext);
    }

    /** `generateReportWithContext`: renders the template (not modelled) and saves it
        under the dump file name in the dump folder; `savedPath` is where it is saved.
        Whenever it returns, it returns True. `strOf` is Python's `str` on the context
        values that are neither numbers nor texts. */
    method GenerateReportWithContext(reportContext: ReportContext, tmplPath: string, dumpFolder: string, strOf: CtxValue -> string)
      returns (r: Result<bool>, savedPath: string)
      ensures r.Success? <==> FileNameFields(reportContext, strOf).Success?
      ensures r.Failure? ==> r.error == FileNameFields(reportContext, strOf).error
      ensures r.Success? ==> r.value && savedPath == JoinPath(dumpFolder, DumpFileName(
        FileNameFields(reportContext, strOf).value.0, FileNameFields(reportContext, strOf).value.1,
        FileNameFields(reportContext, strOf).value.2))
    {
      savedPath := "";
      var fields := FileNameFields(reportContext, strOf);
      if fields.Failure? { return Failure(fields.error), savedPath; }
      var (wkNum, startDtObj, endDtObj) := fields.value;
      var dumpFileName := DumpFileName(wkNum, startDtObj, endDtObj);
      savedPath := JoinPath(dumpFolder, dumpFileName);
      r := Success(true);
    }

    /** `generateWeeklyReport`: builds the context and writes the report, returning
        exactly what `generateReportWithContext` returns. */
    method GenerateWeeklyReport(startDt: DateTime, endDt: DateTime, tmplPath: string, dumpFolder: string, src: Sources, strOf: CtxValue -> string)
      returns (r: Result<bool>, savedPath: string)
      ensures r == WeeklyReportOutcome(appDbConStr, startDt, endDt, src)
      ensures r.Success? ==> savedPath == WeeklyReportPath(startDt, endDt, dumpFolder)
    {
      savedPath := "";
      var reportCtxt := GetReportContextObj(startDt, endDt, src);
      if reportCtxt.Failure? { return Failure(reportCtxt.error), savedPath; }
      ContextDerivedFields(appDbConStr, startDt, endDt, src);
      var isSuccess;
      isSuccess, savedPath := GenerateReportWithContext(reportCtxt.value, tmplPath, dumpFolder, strOf);
      r := isSuccess;
    }
  }
}
