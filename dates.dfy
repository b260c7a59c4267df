/**
 * Calendar dates as the client reads and writes them: the `2006-01-02`
 * layout of the Date wrapper (types.go) and the `Jan.2, 2006` layout of the
 * change feed's version timestamp, both following Go's time.Parse and
 * time.Format for those layouts.
 */
module Dates {
  import opened Wrappers
  import opened Text

  /** A proleptic Gregorian (year, month, day); time of day and zone are always zero. */
  datatype Date = Date(year: int, month: int, day: int)

  predicate IsLeap(year: int) { year % 4 == 0 && (year % 100 != 0 || year % 400 == 0) }

  function DaysIn(month: int, year: int): (n: int)
    requires 1 <= month <= 12
    ensures 28 <= n <= 31
    ensures n == 29 <==> month == 2 && IsLeap(year)
  {
    if month == 2 then (if IsLeap(year) then 29 else 28)
    else if month == 4 || month == 6 || month == 9 || month == 11 then 30
    else 31
  }

  predicate ValidDate(d: Date) { 1 <= d.month <= 12 && 1 <= d.day <= DaysIn(d.month, d.year) }

  /** The dates a Go time.Time can hold. */
  type CalendarDate = d: Date | ValidDate(d) witness Date(1, 1, 1)

  /** The zero time.Time falls on January 1 of year 1. */
  const ZeroDate: CalendarDate := Date(1, 1, 1)

  /** Go's appendInt: a minus sign for negative numbers, then the digits zero-padded to `width`. */
  function FormatField(x: int, width: nat): (s: string)
    ensures x >= 0 ==> s == PadDecimal(x, width)
  {
    if x < 0 then "-" + PadDecimal(-x, width) else PadDecimal(x, width)
  }

  /** Date.MarshalJSON's layout `2006-01-02` (the JSON quotes are added around it). */
  function FormatDate(d: CalendarDate): string
  {
    FormatField(d.year, 4) + "-" + FormatField(d.month, 2) + "-" + FormatField(d.day, 2)
  }

  /** Date.MarshalJSON: the formatted date as a JSON string. */
  function MarshalJSON(d: CalendarDate): (s: string)
    ensures |s| >= 2 && s[0] == '"' && s[|s| - 1] == '"' && s[1..|s| - 1] == FormatDate(d)
  {
    "\"" + FormatDate(d) + "\""
  }

  /** A calendar date built from parsed numbers, if the day exists in that month and year. */
  function CheckedDate(year: int, month: int, day: int): (r: Option<CalendarDate>)
    ensures r.Some? <==> 1 <= month <= 12 && 1 <= day && day <= DaysIn(month, year)
    ensures r.Some? ==> r.value == Date(year, month, day)
  {
    if 1 <= month <= 12 && 1 <= day <= DaysIn(month, year) then Some(Date(year, month, day)) else None
  }

  /**
   * time.Parse("2006-01-02", s): a four-character year whose first character
   * is a digit and which reads as a number, `-`, exactly two month digits,
   * `-`, exactly two day digits, nothing after, and a day that exists.
   */
  function ParseDate(s: string): (r: Option<CalendarDate>)
    ensures r.Some? ==> |s| == 10 && s[4] == '-' && s[7] == '-'
    ensures r.Some? ==> AllDigits(s[..4]) && r.value.year == DecimalValue(s[..4])
    ensures r.Some? ==> AllDigits(s[5..7]) && r.value.month == DecimalValue(s[5..7])
    ensures r.Some? ==> AllDigits(s[8..]) && r.value.day == DecimalValue(s[8..])
  {
    if |s| < 4 || !IsDigit(s[0]) || !AllDigits(s[..4]) then None
    else
      var year, v := DecimalValue(s[..4]), s[4..];
      if |v| < 1 || v[0] != '-' then None
      else
        var v := v[1..];
        if |v| < 2 || !IsDigit(v[0]) || !IsDigit(v[1]) then None
        else
          var month, v := DecimalValue(v[..2]), v[2..];
          if |v| < 1 || v[0] != '-' then None
          else
            var v := v[1..];
            if |v| < 2 || !IsDigit(v[0]) || !IsDigit(v[1]) then None
            else
              var day, v := DecimalValue(v[..2]), v[2..];
              if v != [] then None
              else
                assert s[4..][1..][..2] == s[5..7];
                assert s[4..][1..][2..][1..][..2] == s[8..];
                CheckedDate(year, month, day)
  }

  /**
   * Date.UnmarshalJSON. `decoded` is what json.Unmarshal made of the raw
   * bytes; on any failure the date keeps its previous value.
   */
  method UnmarshalJSON(d: CalendarDate, decoded: Result<string, string>) returns (d': CalendarDate, err: Option<string>)
    ensures decoded.Err? ==> err == Some(decoded.error) && d' == d
    ensures decoded.Ok? ==> (err.None? <==> ParseDate(decoded.value).Some?)
    ensures err.None? ==> decoded.Ok? && d' == ParseDate(decoded.value).value
    ensures err.Some? ==> d' == d
  {
    d', err := d, None;
    if decoded.Err? {
      err := Some(decoded.error);
      return;
    }
    var t := ParseDate(decoded.value);
    if t.None? {
      err := Some("parsing time " + decoded.value + " as 2006-01-02");
      return;
    }
    d' := t.value;
  }

  // ---- The layout round-trips for four-digit years ----

  lemma FieldDigits(x: nat, width: nat, t: string)
    requires 1 <= width && x < Pow10(width) && t == FormatField(x, width)
    ensures |t| == width && AllDigits(t) && DecimalValue(t) == x
  {
    DecimalStringLength(x, width);
    PadDecimalValue(x, width);
  }

  /** Formatting then parsing gives the same calendar date, for every year from 0 to 9999. */
  lemma {:induction false} DateRoundTrip(d: CalendarDate)
    requires 0 <= d.year <= 9999
    ensures ParseDate(FormatDate(d)) == Some(d)
  {
    var y, m, dd := FormatField(d.year, 4), FormatField(d.month, 2), FormatField(d.day, 2);
    FieldDigits(d.year, 4, y);
    FieldDigits(d.month, 2, m);
    FieldDigits(d.day, 2, dd);
    var s := FormatDate(d);
    assert s == y + "-" + m + "-" + dd;
    assert s[..4] == y;
    assert s[4..][1..][..2] == m;
    assert s[4..][1..][2..][1..][..2] == dd;
    assert s[4..][1..][2..][1..][2..] == [];
  }

  /** Parsing is strict: only the canonical spelling of a date is accepted. */
  lemma {:induction false} ParseDateCanonical(s: string)
    requires ParseDate(s).Some?
    ensures FormatDate(ParseDate(s).value) == s
    ensures 0 <= ParseDate(s).value.year <= 9999
  {
    var d := ParseDate(s).value;
    PadDecimalOfDigits(s[..4]);
    DecimalValueBound(s[..4]);
    PadDecimalOfDigits(s[5..7]);
    PadDecimalOfDigits(s[8..10]);
    assert s[4..][1..][..2] == s[5..7];
    assert s[4..][1..][2..][1..][..2] == s[8..10];
    assert s == s[..4] + "-" + s[5..7] + "-" + s[8..10];
  }

  /** A year past 9999 formats with five digits, which the layout rejects. */
  lemma FiveDigitYearDoesNotRoundTrip()
    ensures ParseDate(FormatDate(Date(10000, 1, 1))).None?
  {
    var s := FormatDate(Date(10000, 1, 1));
    var y := FormatField(10000, 4);
    DecimalStringLength(10000, 5);
    assert |DecimalString(10000)| == 5;
    assert y == DecimalString(10000);
    assert s[4] == y[4];
    assert IsDigit(s[4]);
  }

  // ---- The `Jan.2, 2006` layout of the change feed's version timestamp ----

  const MonthNames: seq<string> := ["Jan", "Feb", "Mar", "Apr", "May", "Jun", "Jul", "Aug", "Sep", "Oct", "Nov", "Dec"]

  function LowerASCII(c: char): char { if 'A' <= c <= 'Z' then (c as int + 32) as char else c }

  /** Go's case-insensitive comparison of month names: letters only, any case. */
  predicate SameLetters(a: string, b: string)
  {
    |a| == |b| &&
    (a == [] || (LowerASCII(a[0]) == LowerASCII(b[0]) && 'a' <= LowerASCII(a[0]) <= 'z' && SameLetters(a[1..], b[1..])))
  }

  /** The first month (from index k on) whose short name the three characters match, as 1..12. */
  function LookupMonth(w: string, k: nat): (m: Option<int>)
    requires k <= 12
    ensures m.Some? ==> k < m.value <= 12 && SameLetters(w, MonthNames[m.value - 1])
    ensures m.None? ==> forall j :: k <= j < 12 ==> !SameLetters(w, MonthNames[j])
    decreases 12 - k
  {
    if k == 12 then None
    else if SameLetters(w, MonthNames[k]) then Some(k + 1)
    else LookupMonth(w, k + 1)
  }

  /** Go's cutspace: drop leading blanks. */
  function CutSpace(s: string): (r: string)
    ensures |r| <= |s| && r == s[|s| - |r|..]
    ensures r == [] || r[0] != ' '
  {
    if s != [] && s[0] == ' ' then CutSpace(s[1..]) else s
  }

  /**
   * time.Parse("Jan.2, 2006", s): a month name in any case, `.`, a day of
   * one or two digits, `,`, one or more blanks, a four-character year, and
   * nothing after.
   */
  function ParseStamp(s: string): (r: Option<CalendarDate>)
    ensures r.Some? ==> |s| >= 3 && LookupMonth(s[..3], 0) == Some(r.value.month)
  {
    if |s| < 3 then None
    else match LookupMonth(s[..3], 0)
      case None => None
      case Some(month) => ParseStampDay(month, s[3..])
  }

  /** The rest of `Jan.2, 2006` after the month name: `.`, then the day. */
  function ParseStampDay(month: int, v: string): (r: Option<CalendarDate>)
    ensures r.Some? ==> r.value.month == month
  {
    if |v| < 1 || v[0] != '.' then None
    else
      var v := v[1..];
      if |v| < 1 || !IsDigit(v[0]) then None
      else
        var n := if |v| >= 2 && IsDigit(v[1]) then 2 else 1;
        ParseStampYear(month, DecimalValue(v[..n]), v[n..])
  }

  /** The rest of `Jan.2, 2006` after the day: `,`, blanks, then the year. */
  function ParseStampYear(month: int, day: int, v: string): (r: Option<CalendarDate>)
    ensures r.Some? ==> r.value.month == month && r.value.day == day
  {
    if |v| < 1 || v[0] != ',' then None
    else
      var v := v[1..];
      if |v| > 0 && v[0] != ' ' then None
      else ParseStampYearDigits(month, day, CutSpace(v))
  }

  /** The year after the blanks: four characters starting with a digit, and nothing after. */
  function ParseStampYearDigits(month: int, day: int, v: string): (r: Option<CalendarDate>)
    ensures r.Some? ==> |v| == 4 && AllDigits(v) && r.value == Date(DecimalValue(v), month, day)
  {
    if |v| < 4 || !IsDigit(v[0]) || !AllDigits(v[..4]) then None
    else
      var year, rest := DecimalValue(v[..4]), v[4..];
      if rest != [] then None
      else
        assert v[..4] == v;
        CheckedDate(year, month, day)
  }

  /** The way the feed writes a timestamp: `Jan.2, 2024`. */
  function FormatStamp(d: CalendarDate): string
  {
    MonthNames[d.month - 1] + StampTail(d)
  }

  /** What follows the month name: `.2, 2006`. */
  function StampTail(d: CalendarDate): string
  {
    "." + DecimalString(d.day) + ", " + FormatField(d.year, 4)
  }

  // One example per month: the lookup of that month's own short name,
  // unfolded one table entry at a time. MonthNamesFound gathers the twelve.

  lemma JanFound()
    ensures LookupMonth(MonthNames[0], 0) == Some(1)
  {
    assert MonthNames[0] == "Jan";
    assert LookupMonth("Jan", 0) == Some(1);
  }

  lemma FebFound()
    ensures LookupMonth(MonthNames[1], 0) == Some(2)
  {
    assert MonthNames[1] == "Feb";
    assert LookupMonth("Feb", 1) == Some(2);
    assert LookupMonth("Feb", 0) == Some(2);
  }

  lemma MarFound()
    ensures LookupMonth(MonthNames[2], 0) == Some(3)
  {
    assert MonthNames[2] == "Mar";
    assert LookupMonth("Mar", 2) == Some(3);
    assert LookupMonth("Mar", 1) == Some(3);
    assert LookupMonth("Mar", 0) == Some(3);
  }

  lemma AprFound()
    ensures LookupMonth(MonthNames[3], 0) == Some(4)
  {
    assert MonthNames[3] == "Apr";
    assert LookupMonth("Apr", 3) == Some(4);
    assert LookupMonth("Apr", 2) == Some(4);
    assert LookupMonth("Apr", 1) == Some(4);
    assert LookupMonth("Apr", 0) == Some(4);
  }

  lemma MayFound()
    ensures LookupMonth(MonthNames[4], 0) == Some(5)
  {
    assert MonthNames[4] == "May";
    assert LookupMonth("May", 4) == Some(5);
    assert LookupMonth("May", 3) == Some(5);
    assert LookupMonth("May", 2) == Some(5);
    assert LookupMonth("May", 1) == Some(5);
    assert LookupMonth("May", 0) == Some(5);
  }

  lemma JunFound()
    ensures LookupMonth(MonthNames[5], 0) == Some(6)
  {
    assert MonthNames[5] == "Jun";
    assert LookupMonth("Jun", 5) == Some(6);
    assert LookupMonth("Jun", 4) == Some(6);
    assert LookupMonth("Jun", 3) == Some(6);
    assert LookupMonth("Jun", 2) == Some(6);
    assert LookupMonth("Jun", 1) == Some(6);
    assert LookupMonth("Jun", 0) == Some(6);
  }

  lemma JulFound()
    ensures LookupMonth(MonthNames[6], 0) == Some(7)
  {
    assert MonthNames[6] == "Jul";
    assert LookupMonth("Jul", 6) == Some(7);
    assert LookupMonth("Jul", 5) == Some(7);
    assert LookupMonth("Jul", 4) == Some(7);
    assert LookupMonth("Jul", 3) == Some(7);
    assert LookupMonth("Jul", 2) == Some(7);
    assert LookupMonth("Jul", 1) == Some(7);
    assert LookupMonth("Jul", 0) == Some(7);
  }

  lemma AugFound()
    ensures LookupMonth(MonthNames[7], 0) == Some(8)
  {
    assert MonthNames[7] == "Aug";
    assert LookupMonth("Aug", 7) == Some(8);
    assert LookupMonth("Aug", 6) == Some(8);
    assert LookupMonth("Aug", 5) == Some(8);
    assert LookupMonth("Aug", 4) == Some(8);
    assert LookupMonth("Aug", 3) == Some(8);
    assert LookupMonth("Aug", 2) == Some(8);
    assert LookupMonth("Aug", 1) == Some(8);
    assert LookupMonth("Aug", 0) == Some(8);
  }

  lemma SepFound()
    ensures LookupMonth(MonthNames[8], 0) == Some(9)
  {
    assert MonthNames[8] == "Sep";
    assert LookupMonth("Sep", 8) == Some(9);
    assert LookupMonth("Sep", 7) == Some(9);
    assert LookupMonth("Sep", 6) == Some(9);
    assert LookupMonth("Sep", 5) == Some(9);
    assert LookupMonth("Sep", 4) == Some(9);
    assert LookupMonth("Sep", 3) == Some(9);
    assert LookupMonth("Sep", 2) == Some(9);
    assert LookupMonth("Sep", 1) == Some(9);
    assert LookupMonth("Sep", 0) == Some(9);
  }

  lemma OctFound()
    ensures LookupMonth(MonthNames[9], 0) == Some(10)
  {
    assert MonthNames[9] == "Oct";
    assert LookupMonth("Oct", 9) == Some(10);
    assert LookupMonth("Oct", 8) == Some(10);
    assert LookupMonth("Oct", 7) == Some(10);
    assert LookupMonth("Oct", 6) == Some(10);
    assert LookupMonth("Oct", 5) == Some(10);
    assert LookupMonth("Oct", 4) == Some(10);
    assert LookupMonth("Oct", 3) == Some(10);
    assert LookupMonth("Oct", 2) == Some(10);
    assert LookupMonth("Oct", 1) == Some(10);
    assert LookupMonth("Oct", 0) == Some(10);
  }

  lemma NovFound()
    ensures LookupMonth(MonthNames[10], 0) == Some(11)
  {
    assert MonthNames[10] == "Nov";
    assert LookupMonth("Nov", 10) == Some(11);
    assert LookupMonth("Nov", 9) == Some(11);
    assert LookupMonth("Nov", 8) == Some(11);
    assert LookupMonth("Nov", 7) == Some(11);
    assert LookupMonth("Nov", 6) == Some(11);
    assert LookupMonth("Nov", 5) == Some(11);
    assert LookupMonth("Nov", 4) == Some(11);
    assert LookupMonth("Nov", 3) == Some(11);
    assert LookupMonth("Nov", 2) == Some(11);
    assert LookupMonth("Nov", 1) == Some(11);
    assert LookupMonth("Nov", 0) == Some(11);
  }

  lemma DecFound()
    ensures LookupMonth(MonthNames[11], 0) == Some(12)
  {
    assert MonthNames[11] == "Dec";
    assert LookupMonth("Dec", 11) == Some(12);
    assert LookupMonth("Dec", 10) == Some(12);
    assert LookupMonth("Dec", 9) == Some(12);
    assert LookupMonth("Dec", 8) == Some(12);
    assert LookupMonth("Dec", 7) == Some(12);
    assert LookupMonth("Dec", 6) == Some(12);
    assert LookupMonth("Dec", 5) == Some(12);
    assert LookupMonth("Dec", 4) == Some(12);
    assert LookupMonth("Dec", 3) == Some(12);
    assert LookupMonth("Dec", 2) == Some(12);
    assert LookupMonth("Dec", 1) == Some(12);
    assert LookupMonth("Dec", 0) == Some(12);
  }

  /** Each month's own short name finds that month. */
  lemma MonthNamesFound(m: int)
    requires 1 <= m <= 12
    ensures |MonthNames[m - 1]| == 3
    ensures LookupMonth(MonthNames[m - 1], 0) == Some(m)
  {
    if m == 1 { assert MonthNames[m - 1] == MonthNames[0]; JanFound(); }
    else if m == 2 { assert MonthNames[m - 1] == MonthNames[1]; FebFound(); }
    else if m == 3 { assert MonthNames[m - 1] == MonthNames[2]; MarFound(); }
    else if m == 4 { assert MonthNames[m - 1] == MonthNames[3]; AprFound(); }
    else if m == 5 { assert MonthNames[m - 1] == MonthNames[4]; MayFound(); }
    else if m == 6 { assert MonthNames[m - 1] == MonthNames[5]; JunFound(); }
    else if m == 7 { assert MonthNames[m - 1] == MonthNames[6]; JulFound(); }
    else if m == 8 { assert MonthNames[m - 1] == MonthNames[7]; AugFound(); }
    else if m == 9 { assert MonthNames[m - 1] == MonthNames[8]; SepFound(); }
    else if m == 10 { assert MonthNames[m - 1] == MonthNames[9]; OctFound(); }
    else if m == 11 { assert MonthNames[m - 1] == MonthNames[10]; NovFound(); }
    else { assert MonthNames[m - 1] == MonthNames[11]; DecFound(); }
  }

  /** One blank before a year that starts with a digit is cut. */
  lemma CutOneSpace(y: string)
    requires |y| >= 1 && IsDigit(y[0])
    ensures CutSpace(" " + y) == y
  {
    assert (" " + y)[1..] == y;
  }

  /** Four digits that end the input are the year. */
  lemma YearDigitsAlone(month: int, day: int, y: string)
    requires |y| == 4 && AllDigits(y)
    ensures ParseStampYearDigits(month, day, y) == CheckedDate(DecimalValue(y), month, day)
  {
    assert y[..4] == y && y[4..] == [];
  }

  /** Reading `, ` and a four-digit year that ends the input. */
  lemma StampYearDigits(month: int, day: int, y: string)
    requires |y| == 4 && AllDigits(y)
    ensures ParseStampYear(month, day, ", " + y) == CheckedDate(DecimalValue(y), month, day)
  {
    var v := ", " + y;
    assert v[0] == ',' && v[1..] == " " + y;
    CutOneSpace(y);
    assert ParseStampYear(month, day, v) == ParseStampYearDigits(month, day, y);
    YearDigitsAlone(month, day, y);
  }

  lemma StampYearRoundTrip(d: CalendarDate)
    requires 0 <= d.year <= 9999
    ensures ParseStampYear(d.month, d.day, ", " + FormatField(d.year, 4)) == Some(d)
  {
    var y := FormatField(d.year, 4);
    FieldDigits(d.year, 4, y);
    StampYearDigits(d.month, d.day, y);
  }

  /** Reading a day of one or two digits that is followed by `,`. */
  lemma StampDayDigits(month: int, dd: string, rest: string)
    requires 1 <= |dd| <= 2 && AllDigits(dd) && rest != [] && rest[0] == ','
    ensures ParseStampDay(month, "." + dd + rest) == ParseStampYear(month, DecimalValue(dd), rest)
  {
    var v := "." + dd + rest;
    var w := v[1..];
    assert w == dd + rest;
    assert w[0] == dd[0];
    assert |dd| == 1 ==> w[1] == ',';
    assert |dd| == 2 ==> w[1] == dd[1];
    var n := if |w| >= 2 && IsDigit(w[1]) then 2 else 1;
    assert n == |dd|;
    assert w[..n] == dd;
    assert w[n..] == rest;
  }

  /** A day of the month is written with one or two digits that read back as that day. */
  lemma DayDigits(day: int)
    requires 1 <= day <= 31
    ensures 1 <= |DecimalString(day)| <= 2 && DecimalValue(DecimalString(day)) == day
  {
    DecimalRoundTrip(day);
    assert Pow10(2) == 100;
    DecimalStringLength(day, 2);
  }

  lemma StampDayRoundTrip(d: CalendarDate)
    requires 0 <= d.year <= 9999
    ensures ParseStampDay(d.month, StampTail(d)) == Some(d)
  {
    var dd, rest := DecimalString(d.day), ", " + FormatField(d.year, 4);
    assert StampTail(d) == "." + dd + rest;
    assert ParseStampYear(d.month, d.day, rest) == Some(d) by {
      StampYearRoundTrip(d);
    }
    assert ParseStampDay(d.month, "." + dd + rest) == ParseStampYear(d.month, d.day, rest) by {
      DayDigits(d.day);
      StampDayDigits(d.month, dd, rest);
    }
  }

  /** Reading a month name that the lookup finds. */
  lemma StampMonthName(name: string, month: int, rest: string)
    requires |name| == 3 && LookupMonth(name, 0) == Some(month)
    ensures ParseStamp(name + rest) == ParseStampDay(month, rest)
  {
    var s := name + rest;
    assert s[..3] == name;
    assert s[3..] == rest;
  }

  /** The feed's timestamp spelling parses back to the same date, for years 0 to 9999. */
  lemma StampRoundTrip(d: CalendarDate)
    requires 0 <= d.year <= 9999
    ensures ParseStamp(FormatStamp(d)) == Some(d)
  {
    MonthNamesFound(d.month);
    StampDayRoundTrip(d);
    StampMonthName(MonthNames[d.month - 1], d.month, StampTail(d));
  }
}
