/** The `/weekly_report` endpoint: it reads the start and end dates of the request,
    cuts the range into Monday-to-Sunday weeks and generates one report per week. */
module Server {
  import opened Wrappers
  import opened Calendar
  import opened TimeUtils
  import opened ReportGenerator

  /** A reporting week: the Monday it starts on and the Sunday it ends on. */
  datatype Window = Window(start: DateTime, end: DateTime)

  /** The reply of the endpoint: 400 for dates that cannot be read, 200 with the dates,
      500 when the last report says it failed, or the exception that ends the handler. */
  datatype Response =
    | BadRequest
    | Ok(startDate: DateTime, endDate: DateTime)
    | NotSuccessful
    | Crashed(error: PyError)

  /** The weeks the loop visits from cursor `curr` on: the week of the Monday on or
      before the cursor, then the weeks from the day after its Sunday, while the cursor
      is not after `endDate`. */
  function Windows(curr: DateTime, endDate: DateTime): seq<Window>
    decreases endDate.ordinal - curr.ordinal + 1
  {
    if !LessEq(curr, endDate) then []
    else
      var currStartDt := DateTime(MondayOnOrBefore(curr.ordinal), curr.secs);
      SundayAfterMonday(currStartDt.ordinal);
      var currEndDt := DateTime(SundayOnOrAfter(currStartDt.ordinal), currStartDt.secs);
      [Window(currStartDt, currEndDt)] + Windows(AddDays(currEndDt, 1), endDate)
  }

  /** The `k`-th week after the week of `curr`, at the cursor's time of day. */
  function WeekAfter(curr: DateTime, k: int): Window {
    var m := MondayOnOrBefore(curr.ordinal) + 7 * k;
    Window(DateTime(m, curr.secs), DateTime(m + 6, curr.secs))
  }

  /** The weeks are consecutive: the `i`-th starts `7 * i` days after the Monday of the
      first cursor and ends six days later. */
  lemma {:induction false} WindowsAreConsecutiveWeeks(curr: DateTime, endDate: DateTime)
    ensures forall i :: 0 <= i < |Windows(curr, endDate)| ==> Windows(curr, endDate)[i] == WeekAfter(curr, i)
    decreases endDate.ordinal - curr.ordinal + 1
  {
    if LessEq(curr, endDate) {
      var m := MondayOnOrBefore(curr.ordinal);
      SundayAfterMonday(m);
      var next := DateTime(m + 7, curr.secs);
      assert Windows(curr, endDate) == [WeekAfter(curr, 0)] + Windows(next, endDate);
      WindowsAreConsecutiveWeeks(next, endDate);
      MondayIdempotent(m + 7);
      assert Weekday(m + 7) == 1;
      forall i | 1 <= i < |Windows(curr, endDate)|
        ensures Windows(curr, endDate)[i] == WeekAfter(curr, i)
      {
        assert Windows(curr, endDate)[i] == Windows(next, endDate)[i - 1];
        assert WeekAfter(next, i - 1) == WeekAfter(curr, i);
      }
    }
  }

  /** The `k`-th week after a cursor runs from a Monday to a Sunday. */
  lemma WeekAfterIsMondayToSunday(curr: DateTime, k: int)
    ensures Weekday(WeekAfter(curr, k).start.ordinal) == 1 && Weekday(WeekAfter(curr, k).end.ordinal) == 0
  {
    var m := MondayOnOrBefore(curr.ordinal);
    assert (m + 7 * k) % 7 == m % 7;
    assert (m + 7 * k + 6) % 7 == (m + 6) % 7;
  }

  /** Every window runs from a Monday to the Sunday six days later, at the time of day
      of the request's start date. */
  lemma WindowsAreMondayToSunday(startDate: DateTime, endDate: DateTime)
    ensures forall i :: 0 <= i < |Windows(startDate, endDate)| ==>
      Weekday(Windows(startDate, endDate)[i].start.ordinal) == 1
      && Weekday(Windows(startDate, endDate)[i].end.ordinal) == 0
      && Windows(startDate, endDate)[i].end.ordinal == Windows(startDate, endDate)[i].start.ordinal + 6
      && Windows(startDate, endDate)[i].start.secs == Windows(startDate, endDate)[i].end.secs == startDate.secs
  {
    WindowsAreConsecutiveWeeks(startDate, endDate);
    forall i | 0 <= i < |Windows(startDate, endDate)|
      ensures Weekday(WeekAfter(startDate, i).start.ordinal) == 1 && Weekday(WeekAfter(startDate, i).end.ordinal) == 0
    {
      WeekAfterIsMondayToSunday(startDate, i);
    }
  }

  /** Each window starts the day after the previous one ends: the weeks neither overlap
      nor leave a gap. */
  lemma WindowsAreContiguous(startDate: DateTime, endDate: DateTime)
    ensures forall i :: 0 < i < |Windows(startDate, endDate)| ==>
      Windows(startDate, endDate)[i].start == AddDays(Windows(startDate, endDate)[i - 1].end, 1)
  {
    WindowsAreConsecutiveWeeks(startDate, endDate);
  }

  /** A day lies in a window when it is between its Monday and its Sunday. */
  predicate InWindow(d: int, w: Window) {
    w.start.ordinal <= d <= w.end.ordinal
  }

  /** The number of windows is the number of Monday-started weeks touching the range:
      one more than the whole weeks between the Monday of the start and the Monday
      of the end. */
  lemma {:induction false} WindowCount(curr: DateTime, endDate: DateTime)
    requires LessEq(curr, endDate) && curr.secs <= endDate.secs
    ensures |Windows(curr, endDate)| == (MondayOnOrBefore(endDate.ordinal) - MondayOnOrBefore(curr.ordinal)) / 7 + 1
    decreases endDate.ordinal - curr.ordinal + 1
  {
    var m := MondayOnOrBefore(curr.ordinal);
    var me := MondayOnOrBefore(endDate.ordinal);
    SundayAfterMonday(m);
    var next := DateTime(m + 7, curr.secs);
    assert Windows(curr, endDate) == [WeekAfter(curr, 0)] + Windows(next, endDate);
    MondayIdempotent(m + 7);
    assert Weekday(m + 7) == 1;
    MondayMonotone(curr.ordinal, endDate.ordinal);
    MondaysWeeksApart(me, m);
    if LessEq(next, endDate) {
      WindowCount(next, endDate);
      assert (me - (m + 7)) / 7 == (me - m) / 7 - 1;
    } else {
      assert endDate.ordinal < m + 7;
      MondayOfWeekDays(m, endDate.ordinal - m);
    }
  }

  /** The first window starts on the Monday of the start date, 0 to 6 days before it. */
  lemma FirstWindow(startDate: DateTime, endDate: DateTime)
    requires LessEq(startDate, endDate)
    ensures |Windows(startDate, endDate)| >= 1
    ensures var w := Windows(startDate, endDate)[0];
      w.start.ordinal == MondayOnOrBefore(startDate.ordinal)
      && startDate.ordinal - 6 <= w.start.ordinal <= startDate.ordinal
  {
    WindowsAreConsecutiveWeeks(startDate, endDate);
  }

  /** The last window ends on the Sunday of the end date's week, on or after the end date. */
  lemma LastWindow(startDate: DateTime, endDate: DateTime)
    requires LessEq(startDate, endDate) && startDate.secs <= endDate.secs
    ensures |Windows(startDate, endDate)| >= 1
    ensures var ws := Windows(startDate, endDate); var w := ws[|ws| - 1];
      w.end.ordinal == MondayOnOrBefore(endDate.ordinal) + 6
      && endDate.ordinal <= w.end.ordinal
  {
    WindowCount(startDate, endDate);
    WindowsAreConsecutiveWeeks(startDate, endDate);
    MondayMonotone(startDate.ordinal, endDate.ordinal);
    MondaysWeeksApart(MondayOnOrBefore(endDate.ordinal), MondayOnOrBefore(startDate.ordinal));
  }

  /** Every day of the requested range lies in exactly one window. */
  lemma WindowsCoverRange(startDate: DateTime, endDate: DateTime, d: int)
    requires LessEq(startDate, endDate) && startDate.secs <= endDate.secs
    requires startDate.ordinal <= d <= endDate.ordinal
    ensures exists i :: 0 <= i < |Windows(startDate, endDate)| && InWindow(d, Windows(startDate, endDate)[i])
    ensures forall i, j ::
      (0 <= i < |Windows(startDate, endDate)| && 0 <= j < |Windows(startDate, endDate)|
       && InWindow(d, Windows(startDate, endDate)[i]) && InWindow(d, Windows(startDate, endDate)[j])) ==> i == j
  {
    var ws := Windows(startDate, endDate);
    var m := MondayOnOrBefore(startDate.ordinal);
    var md := MondayOnOrBefore(d);
    WindowCount(startDate, endDate);
    WindowsAreConsecutiveWeeks(startDate, endDate);
    MondayMonotone(startDate.ordinal, d);
    MondayMonotone(d, endDate.ordinal);
    MondaysWeeksApart(md, m);
    MondaysWeeksApart(MondayOnOrBefore(endDate.ordinal), m);
    var k := (md - m) / 7;
    assert m + 7 * k == md;
    assert ws[k] == WeekAfter(startDate, k);
    assert InWindow(d, ws[k]);
  }

  /** Fifteen days starting on a Wednesday touch three Monday-started weeks. */
  lemma FifteenDaysFromWednesday(startDate: DateTime)
    requires Weekday(startDate.ordinal) == 3
    ensures |Windows(startDate, AddDays(startDate, 14))| == 3
  {
    WednesdayMondays(startDate.ordinal);
    WindowCount(startDate, AddDays(startDate, 14));
  }

  /** What `generateWeeklyReport` returns for each window, in order. */
  function Outcomes(con: string, ws: seq<Window>, src: Sources): seq<Result<bool>> {
    seq(|ws|, i requires 0 <= i < |ws| => WeeklyReportOutcome(con, ws[i].start, ws[i].end, src))
  }

  /** The outcomes of one window followed by more windows. */
  lemma OutcomesCons(con: string, w: Window, ws: seq<Window>, src: Sources)
    ensures Outcomes(con, [w] + ws, src) == [WeeklyReportOutcome(con, w.start, w.end, src)] + Outcomes(con, ws, src)
  {
    assert forall i :: 1 <= i < |ws| + 1 ==> ([w] + ws)[i] == ws[i - 1];
  }

  /** The handler's result after reports with outcomes `rs`, given the flag of the week
      before: the exception of the first report that raises, or the flag of the last one. */
  function RunReports(rs: seq<Result<bool>>, last: Option<bool>): Result<Option<bool>>
    decreases |rs|
  {
    if rs == [] then Success(last)
    else match rs[0]
      case Failure(e) => Failure(e)
      case Success(b) => RunReports(rs[1..], Some(b))
  }

  /** The flag the response is chosen by is the last report's: earlier reports only
      matter when they raise. */
  lemma {:induction false} LastReportDecides(rs: seq<Result<bool>>, last: Option<bool>)
    requires rs != [] && RunReports(rs, last).Success?
    ensures rs[|rs| - 1].Success?
    ensures RunReports(rs, last).value == Some(rs[|rs| - 1].value)
    decreases |rs|
  {
    if |rs| > 1 {
      LastReportDecides(rs[1..], Some(rs[0].value));
    }
  }

  /** The run succeeds exactly when no report raises; the first that raises decides the
      exception. */
  lemma {:induction false} RunSucceedsIffNoReportRaises(rs: seq<Result<bool>>, last: Option<bool>)
    ensures RunReports(rs, last).Success? <==> forall i :: 0 <= i < |rs| ==> rs[i].Success?
    ensures RunReports(rs, last).Failure? ==> exists i :: 0 <= i < |rs| && rs[i] == Failure(RunReports(rs, last).error)
                                                      && forall j :: 0 <= j < i ==> rs[j].Success?
    decreases |rs|
  {
    if rs != [] && rs[0].Success? {
      RunSucceedsIffNoReportRaises(rs[1..], Some(rs[0].value));
      assert forall i :: 1 <= i < |rs| ==> rs[i] == rs[1..][i - 1];
      if RunReports(rs, last).Failure? {
        var i :| 0 <= i < |rs[1..]| && rs[1..][i] == Failure(RunReports(rs, last).error)
          && forall j :: 0 <= j < i ==> rs[1..][j].Success?;
        assert rs[i + 1] == Failure(RunReports(rs, last).error);
        assert forall j :: 0 <= j < i + 1 ==> rs[j].Success? by {
          assert forall j :: 1 <= j < i + 1 ==> rs[j] == rs[1..][j - 1];
        }
      }
    }
  }

  /** The outcomes of the reports: whenever one is built, it says True. */
  lemma OutcomesSayTrue(con: string, ws: seq<Window>, src: Sources)
    ensures forall i :: 0 <= i < |ws| && Outcomes(con, ws, src)[i].Success? ==> Outcomes(con, ws, src)[i].value
  {
  }

  /** The parsed request dates: `strptime(..., '%Y-%m-%d')` gives midnight of the day
      the text names; a missing key or text that is not a date answers 400. */
  function ParsedDates(reqData: map<string, string>, parseDate: string -> Option<int>): Option<(DateTime, DateTime)> {
    if "startDate" !in reqData || parseDate(reqData["startDate"]).None? then None
    else if "endDate" !in reqData || parseDate(reqData["endDate"]).None? then None
    else Some((DateTime(parseDate(reqData["startDate"]).value, 0), DateTime(parseDate(reqData["endDate"]).value, 0)))
  }

  /** The reply for readable dates, chosen by the result of the week loop: its
      exception, UnboundLocalError for the unset flag, or the last report's flag. */
  function ReplyFor(startDate: DateTime, endDate: DateTime, run: Result<Option<bool>>): Response {
    match run
    case Failure(e) => Crashed(e)
    case Success(None) => Crashed(UnboundLocalError)
    case Success(Some(true)) => Ok(startDate, endDate)
    case Success(Some(false)) => NotSuccessful
  }

  /** The reply of `create_weekly_report` for a request body. */
  function ResponseFor(con: string, reqData: map<string, string>, parseDate: string -> Option<int>, src: Sources): Response {
    match ParsedDates(reqData, parseDate)
    case None => BadRequest
    case Some((startDate, endDate)) => ReplyFor(startDate, endDate, RunReports(Outcomes(con, Windows(startDate, endDate), src), None))
  }

  /** What `generateWeeklyReport` returns for each window, in order, as the code is
      written. */
  function OutcomesAsWritten(con: string, ws: seq<Window>, src: Sources): seq<Result<bool>> {
    seq(|ws|, i requires 0 <= i < |ws| => WeeklyReportOutcomeAsWritten(con, ws[i].start, ws[i].end, src))
  }

  /** The reply of `create_weekly_report` as the code is written. */
  function ResponseAsWritten(con: string, reqData: map<string, string>, parseDate: string -> Option<int>, src: Sources): Response {
    match ParsedDates(reqData, parseDate)
    case None => BadRequest
    case Some((startDate, endDate)) => ReplyFor(startDate, endDate, RunReports(OutcomesAsWritten(con, Windows(startDate, endDate), src), None))
  }

  /** As written, no request is ever answered with 200: unreadable dates get 400, and
      readable dates in order end with the exception of the first week's report. */
  lemma AsWrittenEveryRequestFails(con: string, reqData: map<string, string>, parseDate: string -> Option<int>, src: Sources)
    ensures ResponseAsWritten(con, reqData, parseDate, src) == BadRequest || ResponseAsWritten(con, reqData, parseDate, src).Crashed?
    ensures ParsedDates(reqData, parseDate).Some? && LessEq(ParsedDates(reqData, parseDate).value.0, ParsedDates(reqData, parseDate).value.1)
      ==> var (startDate, endDate) := ParsedDates(reqData, parseDate).value; var w := Windows(startDate, endDate)[0];
        ResponseAsWritten(con, reqData, parseDate, src) == Crashed(WeeklyReportOutcomeAsWritten(con, w.start, w.end, src).error)
  {
    if ParsedDates(reqData, parseDate).Some? {
      var (startDate, endDate) := ParsedDates(reqData, parseDate).value;
      var ws := Windows(startDate, endDate);
      if LessEq(startDate, endDate) {
        FirstWindow(startDate, endDate);
        var rs := OutcomesAsWritten(con, ws, src);
        assert rs[0] == WeeklyReportOutcomeAsWritten(con, ws[0].start, ws[0].end, src);
      }
    }
  }

  /** The 500 reply is never sent: every report that is built says it succeeded. */
  lemma NeverNotSuccessful(con: string, reqData: map<string, string>, parseDate: string -> Option<int>, src: Sources)
    ensures ResponseFor(con, reqData, parseDate, src) != NotSuccessful
  {
    match ParsedDates(reqData, parseDate)
    case None =>
    case Some((startDate, endDate)) =>
      var rs := Outcomes(con, Windows(startDate, endDate), src);
      OutcomesSayTrue(con, Windows(startDate, endDate), src);
      if rs != [] && RunReports(rs, None).Success? {
        LastReportDecides(rs, None);
      }
  }

  /** A start date after the end date runs no week, and reading the unset flag raises
      UnboundLocalError. */
  lemma StartAfterEndCrashes(con: string, reqData: map<string, string>, parseDate: string -> Option<int>, src: Sources)
    requires ParsedDates(reqData, parseDate).Some?
    requires ParsedDates(reqData, parseDate).value.1.ordinal < ParsedDates(reqData, parseDate).value.0.ordinal
    ensures ResponseFor(con, reqData, parseDate, src) == Crashed(UnboundLocalError)
  {
  }

  /** For dates that parse, with the start not after the end, the reply is 200 with the
      two dates exactly when every week's report is built; otherwise it is the exception
      of the first week whose report raises. */
  lemma OkIffEveryReport(con: string, reqData: map<string, string>, parseDate: string -> Option<int>, src: Sources)
    requires ParsedDates(reqData, parseDate).Some?
    requires LessEq(ParsedDates(reqData, parseDate).value.0, ParsedDates(reqData, parseDate).value.1)
    ensures var (startDate, endDate) := ParsedDates(reqData, parseDate).value; var ws := Windows(startDate, endDate);
      ResponseFor(con, reqData, parseDate, src) == Ok(startDate, endDate)
      <==> forall i :: 0 <= i < |ws| ==> Outcomes(con, ws, src)[i].Success?
  {
    var (startDate, endDate) := ParsedDates(reqData, parseDate).value;
    var rs := Outcomes(con, Windows(startDate, endDate), src);
    FirstWindow(startDate, endDate);
    OutcomesSayTrue(con, Windows(startDate, endDate), src);
    RunSucceedsIffNoReportRaises(rs, None);
    if RunReports(rs, None).Success? {
      LastReportDecides(rs, None);
    }
  }

  /** One more report: a raising report ends the run with its exception, otherwise its
      flag becomes the current one. */
  lemma RunStep(o: Result<bool>, rs: seq<Result<bool>>, last: Option<bool>)
    ensures RunReports([o] + rs, last) == if o.Failure? then Failure(o.error) else RunReports(rs, Some(o.value))
  {
    assert ([o] + rs)[1..] == rs;
  }

  /** The loop of `create_weekly_report`: one report per window from `startDate` to
      `endDate`, each saved under its own file name (see `GenerateWeeklyReport`); the
      result is the exception of the first report that raises, or the
      flag of the last report, `None` when no week was visited. `strOf` is Python's
      `str`, passed on to the file naming. */
  method RunWeeks(gen: WeeklyReportGenerator, startDate: DateTime, endDate: DateTime, tmplPath: string, dumpFolder: string, src: Sources, strOf: CtxValue -> string)
    returns (r: Result<Option<bool>>)
    ensures r == RunReports(Outcomes(gen.appDbConStr, Windows(startDate, endDate), src), None)
  {
    var currDt := startDate;
    var isWeeklyReportGenerationSuccess: Option<bool> := None;
    while LessEq(currDt, endDate)
      invariant RunReports(Outcomes(gen.appDbConStr, Windows(startDate, endDate), src), None)
        == RunReports(Outcomes(gen.appDbConStr, Windows(currDt, endDate), src), isWeeklyReportGenerationSuccess)
      decreases endDate.ordinal - currDt.ordinal + 1
    {
      var currStartDt := GetMondayBeforeDt(currDt);
      var currEndDt := GetSundayAfterDt(currStartDt);
      SundayAfterMonday(currStartDt.ordinal);
      var w := Window(currStartDt, currEndDt);
      ghost var rest := Windows(AddDays(currEndDt, 1), endDate);
      assert Windows(currDt, endDate) == [w] + rest;
      var generated, savedPath := gen.GenerateWeeklyReport(currStartDt, currEndDt, tmplPath, dumpFolder, src, strOf);
      OutcomesCons(gen.appDbConStr, w, rest, src);
      RunStep(generated, Outcomes(gen.appDbConStr, rest, src), isWeeklyReportGenerationSuccess);
      if generated.Failure? { return Failure(generated.error); }
      isWeeklyReportGenerationSuccess := Some(generated.value);

      currDt := AddDays(currEndDt, 1);
    }
    assert Windows(currDt, endDate) == [];
    r := Success(isWeeklyReportGenerationSuccess);
  }

  /** `create_weekly_report`: reads the dates, walks the weeks of the range generating
      one report per week, and answers by the last report's flag. `strOf` is Python's
      `str`, passed on to the file naming. */
  method CreateWeeklyReport(reqData: map<string, string>, parseDate: string -> Option<int>, appDbConStr: string, dumpFolder: string, src: Sources, strOf: CtxValue -> string)
    returns (resp: Response)
    ensures resp == ResponseFor(appDbConStr, reqData, parseDate, src)
  {
    var dates := ParsedDates(reqData, parseDate);
    if dates.None? { return BadRequest; }
    var (startDate, endDate) := dates.value;
    var tmplPath := "assets/weekly_report_template.docx";
    var wklyRprtGntr := new WeeklyReportGenerator(appDbConStr);
    var run := RunWeeks(wklyRprtGntr, startDate, endDate, tmplPath, dumpFolder, src, strOf);
    if run.Failure? { return Crashed(run.error); }
    var isWeeklyReportGenerationSuccess := run.value;
    if isWeeklyReportGenerationSuccess.None? { return Crashed(UnboundLocalError); }
    if isWeeklyReportGenerationSuccess.value {
      resp := Ok(startDate, endDate);
    } else {
      resp := NotSuccessful;
    }
  }
}
