/**
 * Calendar dates in the ISO 8601 extended calendar form YYYY-MM-DD
 * (ISO 8601:2004, section 4.1.2.2), read as UTC midnight, and the seconds those
 * days span. A timestamp is a whole number of seconds since 1970-01-01T00:00:00Z.
 */
module Calendar {
  import opened Wrappers
  import Digits

  type Timestamp = int

  const SECONDS_PER_DAY: nat := 86400

  datatype Date = Date(year: nat, month: nat, day: nat)

  /** The date-input rule /^\d{4}-\d{2}-\d{2}$/: four digits, '-', two digits, '-',
      two digits, and nothing else. */
  predicate IsDateShaped(s: string) {
    && |s| == 10
    && s[4] == '-' && s[7] == '-'
    && forall i :: 0 <= i < 10 && i != 4 && i != 7 ==> Digits.IsDigit(s[i])
  }

  predicate IsLeapYear(y: nat) {
    y % 4 == 0 && (y % 100 != 0 || y % 400 == 0)
  }

  function DaysInMonth(y: nat, m: nat): (n: nat)
    requires 1 <= m <= 12
    ensures 28 <= n <= 31
  {
    if m == 2 then (if IsLeapYear(y) then 29 else 28)
    else if m == 4 || m == 6 || m == 9 || m == 11 then 30
    else 31
  }

  function DaysInYear(y: nat): nat {
    if IsLeapYear(y) then 366 else 365
  }

  /** A day that exists in the proleptic Gregorian calendar. */
  predicate IsValidDate(d: Date) {
    1 <= d.month <= 12 && 1 <= d.day <= DaysInMonth(d.year, d.month)
  }

  function Digit(s: string, i: nat): nat
    requires i < |s| && Digits.IsDigit(s[i])
  {
    Digits.DigitValue(s[i])
  }

  /** The year, month and day fields of a date-shaped string; None for any other string. */
  function ParseDate(s: string): (r: Option<Date>)
    ensures r.Some? <==> IsDateShaped(s)
    ensures r.Some? ==> r.value.year < 10000 && r.value.month < 100 && r.value.day < 100
  {
    if !IsDateShaped(s) then None
    else Some(Date(Digit(s, 0) * 1000 + Digit(s, 1) * 100 + Digit(s, 2) * 10 + Digit(s, 3),
                   Digit(s, 5) * 10 + Digit(s, 6),
                   Digit(s, 8) * 10 + Digit(s, 9)))
  }

  /** A date string the invoice accepts: the right shape, naming a real day. */
  predicate IsCalendarDate(s: string) {
    var r := ParseDate(s); r.Some? && IsValidDate(r.value)
  }

  /** The YYYY-MM-DD text of a date with a four-digit year. */
  function FormatDate(d: Date): (s: string)
    requires d.year < 10000 && d.month < 100 && d.day < 100
    ensures IsDateShaped(s)
  {
    [Digits.DigitChar(d.year / 1000), Digits.DigitChar(d.year / 100 % 10),
     Digits.DigitChar(d.year / 10 % 10), Digits.DigitChar(d.year % 10), '-',
     Digits.DigitChar(d.month / 10), Digits.DigitChar(d.month % 10), '-',
     Digits.DigitChar(d.day / 10), Digits.DigitChar(d.day % 10)]
  }

  lemma FourDigits(y: nat)
    requires y < 10000
    ensures y / 1000 * 1000 + y / 100 % 10 * 100 + y / 10 % 10 * 10 + y % 10 == y
  {
    var t, d := y / 10, y % 10;
    var u, c := t / 10, t % 10;
    var v, b := u / 10, u % 10;
    assert y == v * 1000 + b * 100 + c * 10 + d;
    SplitFour(v, b, c, d);
  }

  /** Formatting a date and parsing the text gives the date back. */
  lemma FormatThenParse(d: Date)
    requires d.year < 10000 && d.month < 100 && d.day < 100
    ensures ParseDate(FormatDate(d)) == Some(d)
  {
    FourDigits(d.year);
  }

  lemma SplitFour(a: nat, b: nat, c: nat, d: nat)
    requires a < 10 && b < 10 && c < 10 && d < 10
    ensures var y := a * 1000 + b * 100 + c * 10 + d;
      y / 1000 == a && y / 100 % 10 == b && y / 10 % 10 == c && y % 10 == d
  {
    var y := a * 1000 + b * 100 + c * 10 + d;
    Digits.DivMod1000(a, b * 100 + c * 10 + d);
    Digits.DivMod100(a * 10 + b, c * 10 + d);
    Digits.DivMod10(a, b);
    Digits.DivMod10(a * 100 + b * 10 + c, d);
    Digits.DivMod10(a * 10 + b, c);
  }

  lemma SplitTwo(a: nat, b: nat)
    requires a < 10 && b < 10
    ensures (a * 10 + b) / 10 == a && (a * 10 + b) % 10 == b
  {
  }

  /** Every date-shaped string is the text of the date it parses to. */
  lemma ParseThenFormat(s: string)
    requires IsDateShaped(s)
    ensures FormatDate(ParseDate(s).value) == s
  {
    var d := ParseDate(s).value;
    SplitFour(Digit(s, 0), Digit(s, 1), Digit(s, 2), Digit(s, 3));
    SplitTwo(Digit(s, 5), Digit(s, 6));
    SplitTwo(Digit(s, 8), Digit(s, 9));
    var t := FormatDate(d);
    forall i | 0 <= i < 10 && i != 4 && i != 7 ensures t[i] == s[i] {
      Digits.DigitCharOfValue(s[i]);
    }
  }

  /** Days from 0000-01-01 to the first day of year y. */
  function DaysBeforeYear(y: nat): nat {
    if y == 0 then 0 else DaysBeforeYear(y - 1) + DaysInYear(y - 1)
  }

  /** Days from the first day of year y to the first day of month m. */
  function DaysBeforeMonth(y: nat, m: nat): nat
    requires 1 <= m <= 13
  {
    if m == 1 then 0 else DaysBeforeMonth(y, m - 1) + DaysInMonth(y, m - 1)
  }

  /** Days from 0000-01-01 to d. */
  function DayNumber(d: Date): int
    requires IsValidDate(d)
  {
    DaysBeforeYear(d.year) + DaysBeforeMonth(d.year, d.month) + d.day - 1
  }

  const EPOCH: Date := Date(1970, 1, 1)

  /** The instant at which day d begins, UTC. */
  function DayStart(d: Date): Timestamp
    requires IsValidDate(d)
  {
    (DayNumber(d) - DayNumber(EPOCH)) * SECONDS_PER_DAY
  }

  /** The calendar day after d: what adding one to the day of the month yields. */
  function NextDay(d: Date): (n: Date)
    requires IsValidDate(d)
    ensures IsValidDate(n)
  {
    if d.day < DaysInMonth(d.year, d.month) then Date(d.year, d.month, d.day + 1)
    else if d.month < 12 then Date(d.year, d.month + 1, 1)
    else Date(d.year + 1, 1, 1)
  }

  lemma MonthsMakeYear(y: nat)
    ensures DaysBeforeMonth(y, 13) == DaysInYear(y)
  {
    var feb := DaysInMonth(y, 2);
    assert DaysBeforeMonth(y, 2) == 31;
    assert DaysBeforeMonth(y, 3) == 31 + feb;
    assert DaysBeforeMonth(y, 4) == 62 + feb;
    assert DaysBeforeMonth(y, 5) == 92 + feb;
    assert DaysBeforeMonth(y, 6) == 123 + feb;
    assert DaysBeforeMonth(y, 7) == 153 + feb;
    assert DaysBeforeMonth(y, 8) == 184 + feb;
    assert DaysBeforeMonth(y, 9) == 215 + feb;
    assert DaysBeforeMonth(y, 10) == 245 + feb;
    assert DaysBeforeMonth(y, 11) == 276 + feb;
    assert DaysBeforeMonth(y, 12) == 306 + feb;
    assert DaysBeforeMonth(y, 13) == 337 + feb;
  }

  /** The next calendar day starts exactly one day number later. */
  lemma NextDayIsOneDayLater(d: Date)
    requires IsValidDate(d)
    ensures DayNumber(NextDay(d)) == DayNumber(d) + 1
  {
    if d.day == DaysInMonth(d.year, d.month) && d.month == 12 {
      MonthsMakeYear(d.year);
    }
  }

  /** So the half-open day [DayStart(d), DayStart(NextDay(d))) is 86400 seconds long. */
  lemma NextDayStartsOneDayLater(d: Date)
    requires IsValidDate(d)
    ensures DayStart(NextDay(d)) == DayStart(d) + SECONDS_PER_DAY
  {
    NextDayIsOneDayLater(d);
  }
}
