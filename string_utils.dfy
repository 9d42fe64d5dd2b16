/** The text helpers of the weekly report: zero-padded time components, hour spans
    written as `hh:mm`, and the dropping of outage remarks that only repeat the tag. */
module StringUtils {
  import opened Wrappers
  import opened Decimal
  import opened Numbers
  import opened PyText

  /** `addTrailingZeroForTimeComp`: a single digit gets a leading `0`; every other
      integer, negatives included, is written as `str` writes it. */
  function AddTrailingZeroForTimeComp(nVal: int): (s: string)
    ensures 0 <= nVal < 10 ==> |s| == 2 && s[0] == '0' && s[1] == DigitChar(nVal)
    ensures (nVal < 0 || nVal >= 10) ==> s == IntToString(nVal)
    ensures nVal < 0 ==> s[0] == '-'
  {
    if nVal < 10 && nVal >= 0 then "0" + IntToString(nVal) else IntToString(nVal)
  }

  /** The padded text reads back as the number, and is exactly two characters wide
      for every value from 0 to 99. */
  lemma PaddedRoundTrip(nVal: int)
    ensures ParseInt(AddTrailingZeroForTimeComp(nVal)) == Some(nVal)
    ensures 0 <= nVal < 100 ==> |AddTrailingZeroForTimeComp(nVal)| == 2
  {
    ParseIntToString(nVal);
    if 0 <= nVal < 10 {
      DigitsValueLeadingZero(NatToString(nVal));
      DigitsValueOfNatToString(nVal);
      ParseDigits("0" + NatToString(nVal));
    } else if 10 <= nVal < 100 {
      NatToStringLength(nVal);
    }
  }

  /** The padded text holds no colon, so a colon written after it can be found again. */
  lemma PaddedHasNoColon(nVal: int)
    ensures forall i :: 0 <= i < |AddTrailingZeroForTimeComp(nVal)| ==> AddTrailingZeroForTimeComp(nVal)[i] != ':'
  {
    var s := AddTrailingZeroForTimeComp(nVal);
    if nVal < 0 {
      assert s[1..] == NatToString(-nVal);
      forall i | 1 <= i < |s| ensures s[i] != ':' {
        assert s[i] == s[1..][i - 1];
      }
    }
  }

  /** The whole hours of a span: `int(nHrs // 1)`. */
  function SpanHours(nHrs: real): int {
    Floor(nHrs)
  }

  /** The minutes of a span: `int(round((nHrs % 1) * 60))`; 60 is possible when the
      fraction rounds up. */
  function SpanMinutes(nHrs: real): (mins: int)
    ensures 0 <= mins <= 60
  {
    RoundHalfEven(Frac(nHrs) * 60.0)
  }

  /** `convertHrsToSpanStr`: padded hours, a colon, padded minutes. */
  function ConvertHrsToSpanStr(nHrs: real): string {
    AddTrailingZeroForTimeComp(SpanHours(nHrs)) + ":" + AddTrailingZeroForTimeComp(SpanMinutes(nHrs))
  }

  /** Reads `hh:mm` text back into its two numbers, splitting at the first colon. */
  function ParseSpan(s: string): Option<(int, int)> {
    match Find(s, ':')
    case None => None
    case Some(k) =>
      match (ParseInt(s[..k]), ParseInt(s[k + 1..]))
      case (Some(h), Some(m)) => Some((h, m))
      case _ => None
  }

  /** A span string holds exactly one colon, right after the hours. */
  lemma SpanStrHasOneColon(nHrs: real)
    ensures var s := ConvertHrsToSpanStr(nHrs); var k := |AddTrailingZeroForTimeComp(SpanHours(nHrs))|;
      k < |s| && s[k] == ':' && forall i :: 0 <= i < |s| && s[i] == ':' ==> i == k
  {
    var hrs := AddTrailingZeroForTimeComp(SpanHours(nHrs));
    var mins := AddTrailingZeroForTimeComp(SpanMinutes(nHrs));
    var s := ConvertHrsToSpanStr(nHrs);
    PaddedHasNoColon(SpanHours(nHrs));
    PaddedHasNoColon(SpanMinutes(nHrs));
    forall i | 0 <= i < |s| && i != |hrs| ensures s[i] != ':' {
      if i < |hrs| {
        assert s[i] == hrs[i];
      } else {
        assert s[i] == mins[i - |hrs| - 1];
      }
    }
  }

  /** A span string reads back as the whole hours and the rounded minutes. */
  lemma SpanStrRoundTrip(nHrs: real)
    ensures ParseSpan(ConvertHrsToSpanStr(nHrs)) == Some((SpanHours(nHrs), SpanMinutes(nHrs)))
  {
    var hrs := AddTrailingZeroForTimeComp(SpanHours(nHrs));
    var mins := AddTrailingZeroForTimeComp(SpanMinutes(nHrs));
    var s := ConvertHrsToSpanStr(nHrs);
    PaddedHasNoColon(SpanHours(nHrs));
    FindAfterPrefix(hrs, ':', mins);
    assert s == hrs + [':'] + mins;
    assert s[..|hrs|] == hrs;
    assert s[|hrs| + 1..] == mins;
    PaddedRoundTrip(SpanHours(nHrs));
    PaddedRoundTrip(SpanMinutes(nHrs));
  }

  /** The span written is within half a minute of the hours given. */
  lemma SpanApproximatesHours(nHrs: real)
    ensures -1.0 / 120.0 <= SpanHours(nHrs) as real + SpanMinutes(nHrs) as real / 60.0 - nHrs <= 1.0 / 120.0
  {
    var f := Frac(nHrs);
    var m := SpanMinutes(nHrs);
    assert -0.5 <= m as real - f * 60.0 <= 0.5;
  }

  /** The example that documents the helper: 29.6 hours is written `29:36`. */
  lemma SpanStrExample()
    ensures ConvertHrsToSpanStr(29.6) == "29:36"
  {
    FloorUnique(29.6, 29);
    assert Frac(29.6) * 60.0 == 36.0;
    RoundOfInteger(36);
    assert IntToString(29) == "29";
    assert IntToString(36) == "36";
  }

  /** A fraction that rounds up to a full hour is written as 60 minutes, not carried
      into the hours: 1.995 hours is written `01:60`. */
  lemma SpanStrSixtyMinutes()
    ensures ConvertHrsToSpanStr(1.995) == "01:60"
  {
    FloorUnique(1.995, 1);
    assert Frac(1.995) * 60.0 == 59.7;
    RoundHalfEvenUnique(59.7, 60);
    assert IntToString(1) == "1";
    assert IntToString(60) == "60";
  }

  /** The tag, reason and remarks of an outage, each possibly `None`. */
  datatype OutageRemarks = OutageRemarks(outageTag: Option<string>, reason: Option<string>, remarks: Option<string>)

  /** The form in which texts are compared: `strip().lower()`. */
  function Normalized(s: string): string {
    Lower(Strip(s))
  }

  /** A reason or remark is dropped when it is present and reads the same as the tag. */
  function DropIfSameAsTag(normalizedTag: string, text: Option<string>): Option<string> {
    if text.Some? && normalizedTag == Normalized(text.value) then None else text
  }

  /** `removeRedundantRemarks`. A `None` tag fails at `strip()` with AttributeError. */
  function RemoveRedundantRemarks(outageTag: Option<string>, reason: Option<string>, remarks: Option<string>): (r: Result<OutageRemarks>)
    ensures outageTag == Some("Outage") ==> r == Success(OutageRemarks(None, reason, remarks))
    ensures outageTag == None ==> r == Failure(AttributeError)
    ensures outageTag.Some? && outageTag != Some("Outage") ==>
      r.Success? && r.value.outageTag == outageTag
      && (r.value.reason == reason || r.value.reason == None)
      && (r.value.remarks == remarks || r.value.remarks == None)
      && (r.value.reason == None <==> reason == None || Normalized(reason.value) == Normalized(outageTag.value))
      && (r.value.remarks == None <==> remarks == None || Normalized(remarks.value) == Normalized(outageTag.value))
  {
    if outageTag == Some("Outage") then Success(OutageRemarks(None, reason, remarks))
    else if outageTag.None? then Failure(AttributeError)
    else
      var strippedOutageTag := Normalized(outageTag.value);
      Success(OutageRemarks(outageTag, DropIfSameAsTag(strippedOutageTag, reason), DropIfSameAsTag(strippedOutageTag, remarks)))
  }

  /** The reason is decided by the tag and the reason alone: changing the remarks does
      not change it, and the other way round. */
  lemma RemarksDecidedIndependently(tag: Option<string>, reason: Option<string>, remarks1: Option<string>, remarks2: Option<string>)
    requires tag.Some?
    ensures RemoveRedundantRemarks(tag, reason, remarks1).value.reason == RemoveRedundantRemarks(tag, reason, remarks2).value.reason
    ensures RemoveRedundantRemarks(tag, remarks1, reason).value.remarks == RemoveRedundantRemarks(tag, remarks2, reason).value.remarks
  {
  }

  /** Removing redundant remarks a second time changes nothing, except for an
      `Outage` tag, which the first pass has already turned into `None`. */
  lemma RemoveRedundantRemarksIdempotent(tag: string, reason: Option<string>, remarks: Option<string>)
    requires tag != "Outage"
    ensures var once := RemoveRedundantRemarks(Some(tag), reason, remarks).value;
      RemoveRedundantRemarks(once.outageTag, once.reason, once.remarks) == Success(once)
  {
  }

  lemma LowerRsd()
    ensures Lower("RSD") == "rsd" && Lower("rsd") == "rsd"
  {
  }

  lemma NormalizedRsdTrailingSpace()
    ensures Normalized("RSD ") == "rsd"
  {
    StripOfTrimmed("RSD");
    assert "RSD " == "RSD" + [' '];
    StripTrailingSpace("RSD", ' ');
    LowerRsd();
  }

  lemma NormalizedRsdLeadingSpace()
    ensures Normalized(" rsd") == "rsd"
  {
    StripOfTrimmed("rsd");
    assert " rsd" == [' '] + "rsd";
    StripLeadingSpace(' ', "rsd");
    LowerRsd();
  }

  lemma NormalizedRsd()
    ensures Normalized("RSD") == "rsd" && Normalized("RSD ") == "rsd" && Normalized(" rsd") == "rsd"
  {
    StripOfTrimmed("RSD");
    LowerRsd();
    NormalizedRsdTrailingSpace();
    NormalizedRsdLeadingSpace();
  }

  lemma NormalizedOthers()
    ensures |Normalized("something")| == 9 && |Normalized("somthing")| == 8
  {
    StripOfTrimmed("something");
    StripOfTrimmed("somthing");
  }

  /** The first case of the unit test of `removeRedundantRemarks`: an `Outage` tag is cleared. */
  lemma RemoveRedundantRemarksTestOutage()
    ensures RemoveRedundantRemarks(Some("Outage"), Some("RSD"), Some("RSD")) == Success(OutageRemarks(None, Some("RSD"), Some("RSD")))
  {
  }

  /** The second case of the unit test: both texts repeat the tag up to spaces and case. */
  lemma RemoveRedundantRemarksTestBoth()
    ensures RemoveRedundantRemarks(Some("RSD"), Some("RSD "), Some(" rsd")) == Success(OutageRemarks(Some("RSD"), None, None))
  {
    NormalizedRsd();
  }

  /** The third case of the unit test: only the remarks repeat the tag. */
  lemma RemoveRedundantRemarksTestRemarks()
    ensures RemoveRedundantRemarks(Some("RSD"), Some("something"), Some(" rsd")) == Success(OutageRemarks(Some("RSD"), Some("something"), None))
  {
    NormalizedRsd();
    NormalizedOthers();
  }

  /** The fourth case of the unit test: only the reason repeats the tag. */
  lemma RemoveRedundantRemarksTestReason()
    ensures RemoveRedundantRemarks(Some("RSD"), Some(" rsd"), Some("somthing")) == Success(OutageRemarks(Some("RSD"), None, Some("somthing")))
  {
    NormalizedRsd();
    NormalizedOthers();
  }
}
