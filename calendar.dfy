/** java.time as the services use it: proleptic ISO dates as day numbers,
    "yyyy-MM" month strings (parsed as LocalDate.parse(s + "-01") does and
    formatted with DateTimeFormatter.ofPattern("yyyy-MM")), and the
    Sunday-first weekday index the routine masks use. */
module Calendar {
  import opened Wrappers
  import opened Text

  datatype YearMonth = YearMonth(year: int, month: int)

  /** A calendar date; the clock's "today" is passed in as one of these. */
  datatype Date = Date(year: int, month: int, day: int)

  predicate ValidMonth(ym: YearMonth) {
    1 <= ym.month <= 12
  }

  predicate IsLeapYear(y: int) {
    y % 4 == 0 && (y % 100 != 0 || y % 400 == 0)
  }

  function DaysInMonth(y: int, m: int): (n: nat)
    requires 1 <= m <= 12
    ensures 28 <= n <= 31
  {
    if m == 2 then (if IsLeapYear(y) then 29 else 28)
    else if m == 4 || m == 6 || m == 9 || m == 11 then 30
    else 31
  }

  /** Days in the years before `y`, so that 0001-01-01 is day 1. */
  function DaysBeforeYear(y: int): int {
    365 * (y - 1) + (y - 1) / 4 - (y - 1) / 100 + (y - 1) / 400
  }

  function DaysBeforeMonth(y: int, m: int): nat
    requires 1 <= m <= 12
  {
    if m == 1 then 0 else DaysBeforeMonth(y, m - 1) + DaysInMonth(y, m - 1)
  }

  /** The day number of a date (LocalDate.toEpochDay up to a constant shift). */
  function DayNumber(y: int, m: int, d: int): int
    requires 1 <= m <= 12
  {
    DaysBeforeYear(y) + DaysBeforeMonth(y, m) + d
  }

  /** The repeat-mask index of a day: Sunday 0, Monday 1, ..., Saturday 6
      (DayOfWeek.getValue() with 7 mapped to 0). Day 1, 0001-01-01, is a
      Monday. */
  function WeekdayIndex(day: int): (i: nat)
    ensures i < 7
  {
    day % 7
  }

  function MonthStart(ym: YearMonth): int
    requires ValidMonth(ym)
  {
    DayNumber(ym.year, ym.month, 1)
  }

  /** startDate.plusMonths(1).minusDays(1) */
  function MonthEnd(ym: YearMonth): (e: int)
    requires ValidMonth(ym)
    ensures e - MonthStart(ym) + 1 == DaysInMonth(ym.year, ym.month)
  {
    MonthStart(ym) + DaysInMonth(ym.year, ym.month) - 1
  }

  /** The range of ChronoField.YEAR, outside which LocalDate refuses a date. */
  const MinYear: int := -999_999_999
  const MaxYear: int := 999_999_999

  /** The year field of ISO_LOCAL_DATE, appendValue(YEAR, 4, 10, EXCEEDS_PAD)
      parsed strictly: four unsigned digits; five to ten digits only after a
      '+'; four to ten digits after a '-', "minus zero" refused; and the value
      within the YEAR range. */
  function ParseYearField(s: string): (r: Option<int>)
    ensures r.Some? ==> |s| >= 4 && MinYear <= r.value <= MaxYear
    ensures r.Some? && s[0] != '+' && s[0] != '-' ==> |s| == 4 && 0 <= r.value <= 9999
    ensures r.Some? && s[0] == '+' ==> 6 <= |s| <= 11 && 0 <= r.value
    ensures r.Some? && s[0] == '-' ==> 5 <= |s| <= 11 && r.value < 0
  {
    if |s| == 4 && AllDigits(s) then
      assert ParseDigits(s) <= 9999 by { FourDigitsBound(s); }
      Some(ParseDigits(s))
    else if 6 <= |s| <= 11 && s[0] == '+' && AllDigits(s[1..]) && ParseDigits(s[1..]) <= MaxYear then
      Some(ParseDigits(s[1..]))
    else if 5 <= |s| <= 11 && s[0] == '-' && AllDigits(s[1..]) && 0 < ParseDigits(s[1..]) <= MaxYear then
      var digits: int := ParseDigits(s[1..]);
      Some(-digits)
    else None
  }

  /** LocalDate.parse(s + "-01") read as a month: the year field, '-', then
      exactly two digits from 01 to 12 (the fixed "-01" day always exists);
      anything else throws (None). */
  function ParseMonthYear(s: string): (r: Option<YearMonth>)
    ensures r.Some? ==> ValidMonth(r.value) && MinYear <= r.value.year <= MaxYear
  {
    if |s| >= 3 && s[|s| - 3] == '-' && AllDigits(s[|s| - 2..]) && 1 <= ParseDigits(s[|s| - 2..]) <= 12
       && ParseYearField(s[..|s| - 3]).Some?
    then Some(YearMonth(ParseYearField(s[..|s| - 3]).value, ParseDigits(s[|s| - 2..])))
    else None
  }

  lemma FourDigitsBound(s: string)
    requires |s| == 4 && AllDigits(s)
    ensures ParseDigits(s) <= 9999
  {
    DigitsBound(s);
  }

  function Pow10(k: nat): (p: nat)
    ensures p >= 1
  {
    if k == 0 then 1 else 10 * Pow10(k - 1)
  }

  /** A string of k digits denotes a number below 10^k. */
  lemma {:induction false} DigitsBound(s: string)
    requires AllDigits(s)
    ensures ParseDigits(s) < Pow10(|s|)
  {
    if s != [] {
      DigitsBound(s[..|s| - 1]);
    }
  }

  /** A number below 10^k prints with at most k digits. */
  lemma {:induction false} NatStrLength(n: nat, k: nat)
    requires k >= 1 && n < Pow10(k)
    ensures |NatStr(n)| <= k
  {
    if n >= 10 {
      assert k >= 2;
      assert n / 10 < Pow10(k - 1);
      NatStrLength(n / 10, k - 1);
    }
  }

  /** The value DateTimeFormatter pattern letter 'y' prints: year-of-era, so
      proleptic year 0 is 1 (BCE) and year -1 is 2. */
  function YearOfEra(y: int): (e: nat)
    ensures e >= 1
    ensures y >= 1 ==> e == y
  {
    if y >= 1 then y else 1 - y
  }

  /** Pattern "yyyy": at least four digits, and a '+' once the value needs
      more than four. */
  function FormatYearField(y: nat): (s: string)
    ensures y <= 9999 ==> |s| == 4 && AllDigits(s) && ParseDigits(s) == y
  {
    NatStrRoundTrip(y);
    assert y <= 9999 ==> |NatStr(y)| <= 4 by {
      if y <= 9999 {
        assert Pow10(4) == 10000;
        NatStrLength(y, 4);
      }
    }
    if y > 9999 then "+" + NatStr(y) else PadZeros(NatStr(y), 4)
  }

  /** DateTimeFormatter.ofPattern("yyyy-MM").format of a date in `ym`. */
  function FormatMonthYear(ym: YearMonth): string
    requires ValidMonth(ym)
  {
    FormatYearField(YearOfEra(ym.year)) + "-" + Pad2(ym.month)
  }

  /** date.minusMonths(1) as a month. */
  function PreviousMonthOf(ym: YearMonth): (p: YearMonth)
    requires ValidMonth(ym)
    ensures ValidMonth(p)
    ensures ym.month == 1 ==> p == YearMonth(ym.year - 1, 12)
    ensures ym.month > 1 ==> p == YearMonth(ym.year, ym.month - 1)
  {
    if ym.month == 1 then YearMonth(ym.year - 1, 12) else YearMonth(ym.year, ym.month - 1)
  }

  /** ReviewServiceImpl.getPreviousMonth: null (None) when the month does
      not parse, and also for January of the first representable year, whose
      minusMonths(1) leaves the YEAR range and throws. */
  function GetPreviousMonth(monthYear: string): (r: Option<string>)
    ensures r.None? <==> ParseMonthYear(monthYear).None? || ParseMonthYear(monthYear) == Some(YearMonth(MinYear, 1))
  {
    match ParseMonthYear(monthYear)
    case None => None
    case Some(ym) =>
      var p := PreviousMonthOf(ym);
      if p.year < MinYear then None else Some(FormatMonthYear(p))
  }

  /** A number of at least 10^(k-1) prints with at least k digits. */
  lemma {:induction false} NatStrLengthAtLeast(n: nat, k: nat)
    requires k >= 1 && n >= Pow10(k - 1)
    ensures |NatStr(n)| >= k
  {
    if k >= 2 {
      assert n / 10 >= Pow10(k - 2);
      NatStrLengthAtLeast(n / 10, k - 1);
    }
  }

  /** The year field printed for a year of 1..MaxYear reads back as that
      year: four digits up to 9999, '+' and five to nine digits beyond. */
  lemma YearFieldRoundTrip(y: int)
    requires 1 <= y <= MaxYear
    ensures ParseYearField(FormatYearField(y)) == Some(y)
  {
    if y > 9999 {
      var d := NatStr(y);
      NatStrRoundTrip(y);
      assert Pow10(4) == 10000;
      NatStrLengthAtLeast(y, 5);
      assert Pow10(9) == 1_000_000_000;
      NatStrLength(y, 9);
      assert ("+" + d)[1..] == d;
    }
  }

  /** Formatting a month of years 1..MaxYear and parsing it back is the
      identity. */
  lemma FormatParseRoundTrip(ym: YearMonth)
    requires ValidMonth(ym) && 1 <= ym.year <= MaxYear
    ensures ParseMonthYear(FormatMonthYear(ym)) == Some(ym)
  {
    YearFieldRoundTrip(ym.year);
    ParseJoined(FormatYearField(ym.year), Pad2(ym.month));
  }

  /** A year field, '-' and a two-digit month parse as that month. */
  lemma ParseJoined(y: string, m: string)
    requires ParseYearField(y).Some?
    requires |m| == 2 && AllDigits(m) && 1 <= ParseDigits(m) <= 12
    ensures ParseMonthYear(y + "-" + m) == Some(YearMonth(ParseYearField(y).value, ParseDigits(m)))
  {
    var s := y + "-" + m;
    assert s[..|s| - 3] == y && s[|s| - 3] == '-' && s[|s| - 2..] == m;
  }

  /** getPreviousMonth maps the string of a month to the string of the month
      before it, January going to December of the previous year, for every
      month from 0001-02 to the last month of year MaxYear. */
  lemma PreviousMonthRoundTrip(ym: YearMonth)
    requires ValidMonth(ym) && 1 <= ym.year <= MaxYear
    requires ym.year > 1 || ym.month > 1
    ensures GetPreviousMonth(FormatMonthYear(ym)) == Some(FormatMonthYear(PreviousMonthOf(ym)))
    ensures ParseMonthYear(GetPreviousMonth(FormatMonthYear(ym)).value) == Some(PreviousMonthOf(ym))
  {
    FormatParseRoundTrip(ym);
    FormatParseRoundTrip(PreviousMonthOf(ym));
  }

  /** With pattern letter 'y' the month before 0001-01 prints as "0001-12"
      (year 0 is year 1 of the era before), a later month than the input. */
  lemma PreviousMonthOfYearOne()
    ensures GetPreviousMonth("0001-01") == Some("0001-12")
  {
    var ym := YearMonth(1, 1);
    FormatYearOneJanuary();
    assert ParseMonthYear("0001-01") == Some(ym) by { FormatParseRoundTrip(ym); }
    assert PreviousMonthOf(ym) == YearMonth(0, 12);
    FormatYearZeroDecember();
  }

  lemma YearOneField()
    ensures FormatYearField(1) == "0001"
  {
    assert NatStr(1) == "1";
    assert "0" + "1" == "01" && "0" + "01" == "001" && "0" + "001" == "0001";
    assert PadZeros("1", 4) == PadZeros("01", 4) == PadZeros("001", 4) == "0001";
  }

  lemma FormatYearOneJanuary()
    ensures FormatMonthYear(YearMonth(1, 1)) == "0001-01"
  {
    YearOneField();
    assert NatStr(1) == "1";
    assert PadZeros("1", 2) == "01";
  }

  lemma FormatYearZeroDecember()
    ensures FormatMonthYear(YearMonth(0, 12)) == "0001-12"
  {
    YearOneField();
    assert NatStr(12) == "12";
    assert PadZeros("12", 2) == "12";
  }

  /** A signed year: "-0001-01" is January of year -1, whose previous month
      (year -2) prints with year-of-era 3. */
  lemma NegativeYearPreviousMonth()
    ensures ParseMonthYear("-0001-01") == Some(YearMonth(-1, 1))
    ensures GetPreviousMonth("-0001-01") == Some("0003-12")
  {
    assert "01"[..1] == "0" && "0001"[..3] == "000" && "000"[..2] == "00" && "00"[..1] == "0";
    assert ParseDigits("01") == 1 && ParseDigits("0001") == 1;
    assert "-0001-01"[..5] == "-0001" && "-0001"[1..] == "0001" && "-0001-01"[6..] == "01";
    assert ParseYearField("-0001") == Some(-1);
    YearThreeDecember();
  }

  lemma YearThreeDecember()
    ensures FormatMonthYear(YearMonth(-2, 12)) == "0003-12"
  {
    assert NatStr(3) == "3" && NatStr(12) == "12";
    assert "0" + "3" == "03" && "0" + "03" == "003" && "0" + "003" == "0003";
    assert PadZeros("3", 4) == PadZeros("03", 4) == PadZeros("003", 4) == "0003";
    assert PadZeros("12", 2) == "12";
  }

  /** An extended year: "+10000-01" steps back into the four-digit year 9999. */
  lemma ExtendedYearPreviousMonth()
    ensures ParseMonthYear("+10000-01") == Some(YearMonth(10000, 1))
    ensures GetPreviousMonth("+10000-01") == Some("9999-12")
  {
    assert "01"[..1] == "0" && ParseDigits("01") == 1;
    assert "10000"[..4] == "1000" && "1000"[..3] == "100" && "100"[..2] == "10" && "10"[..1] == "1";
    assert ParseDigits("10000") == 10000;
    assert "+10000-01"[..6] == "+10000" && "+10000"[1..] == "10000" && "+10000-01"[7..] == "01";
    assert ParseYearField("+10000") == Some(10000);
    YearNinesDecember();
  }

  lemma YearNinesDecember()
    ensures FormatMonthYear(YearMonth(9999, 12)) == "9999-12"
  {
    assert NatStr(9) == "9" && NatStr(99) == "99" && NatStr(999) == "999" && NatStr(9999) == "9999";
    assert NatStr(1) == "1" && NatStr(12) == "12";
    assert PadZeros("12", 2) == "12";
  }

  /** The strict year rules: a '+' needs more than four digits, "minus zero"
      is refused, five unsigned digits are refused, and so is month 13. */
  lemma RejectedMonthStrings()
    ensures ParseMonthYear("+2024-01").None?
    ensures ParseMonthYear("-0000-01").None?
    ensures ParseMonthYear("20240-01").None?
    ensures ParseMonthYear("2024-13").None?
  {
    MinusZeroRejected();
    MonthThirteenRejected();
  }

  lemma MinusZeroRejected()
    ensures ParseMonthYear("-0000-01").None?
  {
    assert "0000"[..3] == "000" && "000"[..2] == "00" && "00"[..1] == "0";
    assert "-0000"[1..] == "0000" && ParseDigits("0000") == 0;
    assert "-0000-01"[..5] == "-0000";
  }

  lemma MonthThirteenRejected()
    ensures ParseMonthYear("2024-13").None?
  {
    assert "13"[..1] == "1";
    assert ParseDigits("13") == 13 && "2024-13"[5..] == "13";
  }

  /** January of the first representable year has no previous month:
      minusMonths(1) leaves the YEAR range, and getPreviousMonth returns
      null. */
  lemma FirstYearHasNoPreviousMonth()
    ensures ParseMonthYear("-999999999-01") == Some(YearMonth(MinYear, 1))
    ensures GetPreviousMonth("-999999999-01").None?
  {
    var s := "-999999999-01";
    assert s[..10] == "-999999999" && "-999999999"[1..] == "999999999";
    assert s[11..] == "01" && "01"[..1] == "0" && ParseDigits("01") == 1;
    NinesValue();
    assert ParseYearField("-999999999") == Some(MinYear);
  }

  lemma NinesValue()
    ensures ParseDigits("999999999") == 999999999
  {
    assert "999999999"[..8] == "99999999" && "99999999"[..7] == "9999999" && "9999999"[..6] == "999999";
    assert "999999"[..5] == "99999" && "99999"[..4] == "9999" && "9999"[..3] == "999";
    assert "999"[..2] == "99" && "99"[..1] == "9" && "9"[..0] == "";
  }

  /** The month of "today minus one month" as "yyyy-MM": the default target
      month of the batch and the retry pass. */
  function PreviousMonthString(today: Date): string
    requires 1 <= today.month <= 12
  {
    FormatMonthYear(PreviousMonthOf(YearMonth(today.year, today.month)))
  }

  /** The month of today as "yyyy-MM". */
  function CurrentMonthString(today: Date): string
    requires 1 <= today.month <= 12
  {
    FormatMonthYear(YearMonth(today.year, today.month))
  }
}
