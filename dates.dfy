/**
 * The calendar dates a deprecation deadline can carry: Ruby's
 * Date.new(year, month, 1) and its rendering by strftime("%Y-%m-%d").
 */
module Dates {
  import opened Wrappers
  import opened Decimal

  datatype Date = Date(year: int, month: int, day: int)

  predicate Valid(d: Date) {
    1 <= d.month <= 12 && 1 <= d.day <= 31
  }

  /** Why Date.new raises: a year that is not a number, or a month outside -12..-1 and 1..12. */
  datatype DateError = YearNotNumeric | InvalidDate

  /**
   * Date.new(year, month, 1). Ruby accepts a negative month as counting back
   * from December (-1 is December, -12 is January) and rejects the rest.
   */
  function FirstOfMonth(year: int, month: int): (r: Result<Date, DateError>)
    ensures r.Ok? <==> 1 <= month <= 12 || -12 <= month <= -1
    ensures r.Ok? ==> Valid(r.value) && r.value.year == year && r.value.day == 1
    ensures r.Ok? && month > 0 ==> r.value.month == month
    ensures r.Ok? && month < 0 ==> r.value.month == 13 + month
    ensures r.Err? ==> r.error == InvalidDate
  {
    if 1 <= month <= 12 then Ok(Date(year, month, 1))
    else if -12 <= month <= -1 then Ok(Date(year, 13 + month, 1))
    else Err(InvalidDate)
  }

  /** strftime's %Y: the year's digits padded to at least four, after a sign if negative. */
  function YearText(y: int): (s: string)
    ensures |s| >= 4
    ensures 0 <= y <= 9999 ==> |s| == 4
  {
    if y < 0 then "-" + PadZeros(NatToDigits(-y), 4) else PadZeros(NatToDigits(y), 4)
  }

  /** strftime's %m and %d: two digits. */
  function TwoDigits(n: nat): (s: string)
    requires n < 100
    ensures |s| == 2 && AllDigits(s)
  {
    PadZeros(NatToDigits(n), 2)
  }

  /** strftime("%Y-%m-%d"). */
  function Format(d: Date): (s: string)
    requires Valid(d)
    ensures |s| >= 10
    ensures s[|s| - 6] == '-' && s[|s| - 3] == '-'
    ensures 0 <= d.year <= 9999 ==> |s| == 10 && s[4] == '-' && s[7] == '-'
  {
    YearText(d.year) + "-" + TwoDigits(d.month) + "-" + TwoDigits(d.day)
  }

  /** Reads "Y-MM-DD" back; None unless the text has that shape. */
  function Parse(s: string): (r: Option<Date>)
  {
    if |s| < 7 || s[|s| - 6] != '-' || s[|s| - 3] != '-' then None
    else if !AllDigits(s[|s| - 5..|s| - 3]) || !AllDigits(s[|s| - 2..]) then None
    else match ParseInt(s[..|s| - 6])
      case None => None
      case Some(y) => Some(Date(y, DigitsToNat(s[|s| - 5..|s| - 3]), DigitsToNat(s[|s| - 2..])))
  }

  lemma {:induction false} NegativeYearReadsBack(y: int)
    requires y < 0
    ensures ParseInt(YearText(y)) == Some(y)
  {
    var t := PadZeros(NatToDigits(-y), 4);
    PaddedDigitsValue(-y, 4);
    ParseNegative(t, y);
    assert YearText(y) == "-" + t;
  }

  lemma {:induction false} YearReadsBack(y: int)
    ensures ParseInt(YearText(y)) == Some(y)
  {
    if y < 0 {
      NegativeYearReadsBack(y);
    } else {
      var t := PadZeros(NatToDigits(y), 4);
      PaddedDigitsValue(y, 4);
      ParseNonNegative(t);
      assert YearText(y) == t;
    }
  }

  /** The rendered date determines the date: formatting is injective on valid dates. */
  lemma {:induction false} FormatRoundTrip(d: Date)
    requires Valid(d)
    ensures Parse(Format(d)) == Some(d)
  {
    YearReadsBack(d.year);
    PaddedDigitsValue(d.month, 2);
    PaddedDigitsValue(d.day, 2);
    ParseCuts(YearText(d.year), TwoDigits(d.month), TwoDigits(d.day));
  }

  /** Parse splits "Y-MM-DD" at the two dashes counted from the end. */
  lemma ParseCuts(y: string, m: string, dd: string)
    requires |y| >= 1 && |m| == 2 && |dd| == 2 && AllDigits(m) && AllDigits(dd)
    ensures ParseInt(y).Some? ==>
      Parse(y + "-" + m + "-" + dd) == Some(Date(ParseInt(y).value, DigitsToNat(m), DigitsToNat(dd)))
  {
    var s := y + "-" + m + "-" + dd;
    assert s[..|s| - 6] == y && s[|s| - 6] == '-';
    assert s[|s| - 5..|s| - 3] == m && s[|s| - 3] == '-';
    assert s[|s| - 2..] == dd;
  }
}
