/** The tax-period-begin date, read with the `%Y-%m-%d` pattern. Only the strict
    form is modelled: four-digit year, two-digit month, two-digit day, each a
    real calendar date from year 1 on. */
module Dates {
  import opened Wrappers

  datatype Date = Date(year: int, month: int, day: int)

  predicate IsDigit(c: char) {
    '0' <= c <= '9'
  }

  function Digit(c: char): int
    requires IsDigit(c)
  {
    c as int - '0' as int
  }

  function DigitChar(d: int): char
    requires 0 <= d < 10
  {
    (d + '0' as int) as char
  }

  predicate LeapYear(y: int) {
    y % 4 == 0 && (y % 100 != 0 || y % 400 == 0)
  }

  function DaysInMonth(y: int, m: int): int {
    if m == 2 then (if LeapYear(y) then 29 else 28)
    else if m == 4 || m == 6 || m == 9 || m == 11 then 30
    else 31
  }

  /** A date the calendar has (the date type starts at year 1). */
  predicate ValidDate(d: Date) {
    && 1 <= d.year <= 9999
    && 1 <= d.month <= 12
    && 1 <= d.day <= DaysInMonth(d.year, d.month)
  }

  function Pad2(n: int): string
    requires 0 <= n < 100
  {
    [DigitChar(n / 10), DigitChar(n % 10)]
  }

  function Pad4(n: int): string
    requires 0 <= n < 10000
  {
    Pad2(n / 100) + Pad2(n % 100)
  }

  /** The `YYYY-MM-DD` text of a date. */
  function FormatDate(d: Date): string
    requires ValidDate(d)
  {
    Pad4(d.year) + "-" + Pad2(d.month) + "-" + Pad2(d.day)
  }

  function Num2(s: string): int
    requires |s| == 2 && IsDigit(s[0]) && IsDigit(s[1])
  {
    10 * Digit(s[0]) + Digit(s[1])
  }

  predicate DateShape(s: string) {
    && |s| == 10
    && s[4] == '-' && s[7] == '-'
    && IsDigit(s[0]) && IsDigit(s[1]) && IsDigit(s[2]) && IsDigit(s[3])
    && IsDigit(s[5]) && IsDigit(s[6]) && IsDigit(s[8]) && IsDigit(s[9])
  }

  /** Parses `YYYY-MM-DD`; anything that is not the text of a calendar date fails. */
  function ParseDate(s: string): (r: Result<Date>)
    ensures r.Failure? ==> r.error == BadDate
  {
    if !DateShape(s) then Failure(BadDate)
    else
      var d := Date(100 * Num2(s[0..2]) + Num2(s[2..4]), Num2(s[5..7]), Num2(s[8..10]));
      if !ValidDate(d) then Failure(BadDate)
      else
        Success(d)
  }

  /** A parsed date is a calendar date whose text is exactly the parsed text. */
  lemma ParseDateSound(s: string)
    requires ParseDate(s).Success?
    ensures ValidDate(ParseDate(s).value) && FormatDate(ParseDate(s).value) == s
  {
    FormatOfShape(s);
  }

  /** The date read from a well-shaped text prints back as that text. */
  lemma FormatOfShape(s: string)
    requires DateShape(s)
    requires ValidDate(Date(100 * Num2(s[0..2]) + Num2(s[2..4]), Num2(s[5..7]), Num2(s[8..10])))
    ensures FormatDate(Date(100 * Num2(s[0..2]) + Num2(s[2..4]), Num2(s[5..7]), Num2(s[8..10]))) == s
  {
    var hi, lo := Num2(s[0..2]), Num2(s[2..4]);
    var y := 100 * hi + lo;
    DivMod100(hi, lo);
    assert Pad4(y) == Pad2(hi) + Pad2(lo);
    Pad2Num2(s[0..2]);
    Pad2Num2(s[2..4]);
    Pad2Num2(s[5..7]);
    Pad2Num2(s[8..10]);
    assert s == s[0..2] + s[2..4] + "-" + s[5..7] + "-" + s[8..10];
  }

  lemma DivMod100(hi: int, lo: int)
    requires 0 <= hi < 100 && 0 <= lo < 100
    ensures (100 * hi + lo) / 100 == hi && (100 * hi + lo) % 100 == lo
  {
  }

  lemma Pad2Num2(s: string)
    requires |s| == 2 && IsDigit(s[0]) && IsDigit(s[1])
    ensures Pad2(Num2(s)) == s
  {
  }

  lemma Num2Pad2(n: int)
    requires 0 <= n < 100
    ensures Num2(Pad2(n)) == n
  {
  }

  /** Formatting a calendar date and parsing it back gives the date again. */
  lemma ParseFormatted(d: Date)
    requires ValidDate(d)
    ensures ParseDate(FormatDate(d)) == Success(d)
  {
    var s := FormatDate(d);
    Num2Pad2(d.year / 100);
    Num2Pad2(d.year % 100);
    Num2Pad2(d.month);
    Num2Pad2(d.day);
    assert s[0..2] == Pad2(d.year / 100);
    assert s[2..4] == Pad2(d.year % 100);
    assert s[5..7] == Pad2(d.month);
    assert s[8..10] == Pad2(d.day);
  }

  /** The filing year: the year of the tax-period-begin text. A missing (`None`)
      text or one that is not a `YYYY-MM-DD` date fails. */
  function FilingYear(text: Option<string>): (r: Result<int>)
    ensures r.Failure? ==> r.error == BadDate
  {
    if text.None? then Failure(BadDate)
    else
      var d :- ParseDate(text.value);
      Success(d.year)
  }

  /** A filing year comes from a ten-character text that begins with the year's
      four digits. */
  lemma FilingYearSound(text: Option<string>)
    requires FilingYear(text).Success?
    ensures text.Some? && |text.value| == 10
    ensures 1 <= FilingYear(text).value <= 9999 && text.value[..4] == Pad4(FilingYear(text).value)
  {
    var d := ParseDate(text.value).value;
    ParseDateSound(text.value);
    assert text.value[..4] == FormatDate(d)[..4];
  }

  /** Every calendar date's text yields its own year. */
  lemma FilingYearOfDate(d: Date)
    requires ValidDate(d)
    ensures FilingYear(Some(FormatDate(d))) == Success(d.year)
  {
    ParseFormatted(d);
  }

  /** A period beginning 2019-07-01 files for 2019. */
  lemma FilingYearExample()
    ensures FilingYear(Some("2019-07-01")) == Success(2019)
  {
    var d := Date(2019, 7, 1);
    assert FormatDate(d) == "2019-07-01";
    FilingYearOfDate(d);
  }
}
