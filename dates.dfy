/** Calendar dates as Python's `datetime` handles them for the calendar tool:
    `strptime(s, "%Y-%m-%d")`, the `strftime` formats the tool prints, day ordinals
    (`toordinal`, 1 for 0001-01-01) and the next day. */
module Dates {
  import opened Text

  datatype Date = Date(year: int, month: int, day: int)

  predicate IsLeap(y: int) {
    y % 4 == 0 && (y % 100 != 0 || y % 400 == 0)
  }

  function DaysInMonth(y: int, m: int): (n: int)
    requires 1 <= m <= 12
    ensures 28 <= n <= 31
  {
    if m == 2 then (if IsLeap(y) then 29 else 28)
    else if m == 4 || m == 6 || m == 9 || m == 11 then 30
    else 31
  }

  /** The dates `datetime.date` accepts: years 1 to 9999. */
  predicate ValidDate(d: Date) {
    1 <= d.year <= 9999 && 1 <= d.month <= 12 && 1 <= d.day <= DaysInMonth(d.year, d.month)
  }

  /** A date that exists. */
  type Day = d: Date | ValidDate(d) witness Date(1, 1, 1)

  function DigitValue(c: char): nat
    requires IsDigit(c)
  {
    c as int - '0' as int
  }

  /** The `%m` field at `i`: the regex alternatives `1[0-2]`, `0[1-9]` and `[1-9]` tried in
      order, each having to be followed by the literal `-`. Gives the month and the index
      just past the `-`. */
  function MonthField(s: string, i: nat): (r: Option<(int, nat)>)
    ensures r.Some? ==> 1 <= r.value.0 <= 12 && i < r.value.1 <= |s|
  {
    if i + 2 < |s| && ((s[i] == '1' && '0' <= s[i + 1] <= '2') || (s[i] == '0' && '1' <= s[i + 1] <= '9'))
       && s[i + 2] == '-' then
      Some((10 * DigitValue(s[i]) + DigitValue(s[i + 1]), i + 3))
    else if i + 1 < |s| && '1' <= s[i] <= '9' && s[i + 1] == '-' then
      Some((DigitValue(s[i]), i + 2))
    else None
  }

  /** The `%d` field at `i`: the first of the alternatives `3[01]`, `[12]\d`, `0[1-9]`,
      `[1-9]` and ` [1-9]` that matches there. Gives the day and the index past it. */
  function DayField(s: string, i: nat): (r: Option<(int, nat)>)
    ensures r.Some? ==> 1 <= r.value.0 <= 31 && i < r.value.1 <= |s|
  {
    if i + 1 < |s| && s[i] == '3' && (s[i + 1] == '0' || s[i + 1] == '1') then
      Some((30 + DigitValue(s[i + 1]), i + 2))
    else if i + 1 < |s| && (s[i] == '1' || s[i] == '2') && IsDigit(s[i + 1]) then
      Some((10 * DigitValue(s[i]) + DigitValue(s[i + 1]), i + 2))
    else if i + 1 < |s| && s[i] == '0' && '1' <= s[i + 1] <= '9' then
      Some((DigitValue(s[i + 1]), i + 2))
    else if i < |s| && '1' <= s[i] <= '9' then
      Some((DigitValue(s[i]), i + 1))
    else if i + 1 < |s| && s[i] == ' ' && '1' <= s[i + 1] <= '9' then
      Some((DigitValue(s[i + 1]), i + 2))
    else None
  }

  /** `datetime.strptime(s, "%Y-%m-%d")` restricted to ASCII digits: four digits, `-`, the month,
      `-`, the day, nothing left over, and a date that exists. None is the ValueError. */
  function ParseDate(s: string): (r: Option<Date>)
    ensures r.Some? ==> ValidDate(r.value)
  {
    if |s| < 5 || !(IsDigit(s[0]) && IsDigit(s[1]) && IsDigit(s[2]) && IsDigit(s[3])) || s[4] != '-' then None
    else
      var year := 1000 * DigitValue(s[0]) + 100 * DigitValue(s[1]) + 10 * DigitValue(s[2]) + DigitValue(s[3]);
      match MonthField(s, 5)
      case None => None
      case Some(mf) =>
        match DayField(s, mf.1)
        case None => None
        case Some(df) =>
          if df.1 != |s| || year < 1 || df.0 > DaysInMonth(year, mf.0) then None
          else Some(Date(year, mf.0, df.0))
  }

  /** Two digits, zero-padded. */
  function Pad2(n: int): (r: string)
    requires 0 <= n < 100
    ensures |r| == 2 && IsDigit(r[0]) && IsDigit(r[1])
    ensures DigitValue(r[0]) == n / 10 && DigitValue(r[1]) == n % 10
  {
    [DigitChar(n / 10), DigitChar(n % 10)]
  }

  /** Four digits, zero-padded. */
  function Pad4(n: int): (r: string)
    requires 0 <= n < 10000
    ensures |r| == 4 && forall i :: 0 <= i < 4 ==> IsDigit(r[i])
    ensures 1000 * DigitValue(r[0]) + 100 * DigitValue(r[1]) + 10 * DigitValue(r[2]) + DigitValue(r[3]) == n
  {
    FourDigits(n);
    [DigitChar(n / 1000), DigitChar(n / 100 % 10), DigitChar(n / 10 % 10), DigitChar(n % 10)]
  }

  lemma FourDigits(n: int)
    requires 0 <= n < 10000
    ensures n / 1000 < 10
    ensures 1000 * (n / 1000) + 100 * (n / 100 % 10) + 10 * (n / 10 % 10) + n % 10 == n
  {
    var t := n / 10;
    var h := t / 10;
    assert n == 10 * t + n % 10;
    assert t == 10 * h + t % 10;
    assert h == 10 * (h / 10) + h % 10;
    assert n / 100 == h && n / 1000 == h / 10;
  }

  /** `strftime("%Y-%m-%d")` */
  function FormatDate(d: Date): (r: string)
    requires ValidDate(d)
    ensures |r| == 10
  {
    Pad4(d.year) + "-" + Pad2(d.month) + "-" + Pad2(d.day)
  }

  /** A formatted date reads back as the same date. */
  lemma FormatDateParses(d: Date)
    requires ValidDate(d)
    ensures ParseDate(FormatDate(d)) == Some(d)
  {
    var s := FormatDate(d);
    var m := Pad2(d.month);
    var dd := Pad2(d.day);
    assert s[5] == m[0] && s[6] == m[1] && s[7] == '-' && s[8] == dd[0] && s[9] == dd[1];
    assert MonthField(s, 5) == Some((d.month, 8));
    assert DayField(s, 8) == Some((d.day, 10));
  }

  /** Reading a date back out of a parsed string's normal form gives the same date: the
      normalisation that `check_schedule` applies is idempotent. */
  lemma ParsedDateNormalises(s: string)
    requires ParseDate(s).Some?
    ensures ParseDate(FormatDate(ParseDate(s).value)) == ParseDate(s)
  {
    FormatDateParses(ParseDate(s).value);
  }

  function DaysBeforeYear(y: int): int
  {
    var p := y - 1;
    p * 365 + p / 4 - p / 100 + p / 400
  }

  function DaysBeforeMonth(y: int, m: int): int
    requires 1 <= m <= 12
  {
    [0, 31, 59, 90, 120, 151, 181, 212, 243, 273, 304, 334][m - 1] + (if m > 2 && IsLeap(y) then 1 else 0)
  }

  /** `date.toordinal()` */
  function Ordinal(d: Date): int
    requires 1 <= d.month <= 12
  {
    DaysBeforeYear(d.year) + DaysBeforeMonth(d.year, d.month) + d.day
  }

  /** `date(9999, 12, 31).toordinal()` */
  const MaxOrdinal := 3652059

  lemma OrdinalBounds(d: Date)
    requires ValidDate(d)
    ensures 1 <= Ordinal(d) <= MaxOrdinal
  {
    assert DaysBeforeYear(d.year) <= DaysBeforeYear(9999);
  }

  lemma DivStep4(p: int)
    ensures (p + 1) / 4 == p / 4 + (if (p + 1) % 4 == 0 then 1 else 0)
  {
  }

  lemma DivStep100(p: int)
    ensures (p + 1) / 100 == p / 100 + (if (p + 1) % 100 == 0 then 1 else 0)
  {
  }

  lemma DivStep400(p: int)
    ensures (p + 1) / 400 == p / 400 + (if (p + 1) % 400 == 0 then 1 else 0)
  {
  }

  /** A year has 366 days when it is a leap year and 365 otherwise. */
  lemma YearLength(y: int)
    ensures DaysBeforeYear(y + 1) == DaysBeforeYear(y) + (if IsLeap(y) then 366 else 365)
  {
    DivStep4(y - 1);
    DivStep100(y - 1);
    DivStep400(y - 1);
    assert y % 400 == 0 ==> y % 100 == 0 && y % 4 == 0;
    assert y % 100 == 0 ==> y % 4 == 0;
  }

  /** `date + timedelta(days=1)`, or None for the OverflowError past 9999-12-31. */
  function NextDay(d: Date): (r: Option<Date>)
    requires ValidDate(d)
    ensures r.None? <==> d == Date(9999, 12, 31)
    ensures r.Some? ==> ValidDate(r.value) && Ordinal(r.value) == Ordinal(d) + 1
  {
    if d.day < DaysInMonth(d.year, d.month) then Some(Date(d.year, d.month, d.day + 1))
    else if d.month < 12 then Some(Date(d.year, d.month + 1, 1))
    else if d.year < 9999 then
      YearLength(d.year);
      Some(Date(d.year + 1, 1, 1))
    else None
  }

  const WeekdayNames := ["Monday", "Tuesday", "Wednesday", "Thursday", "Friday", "Saturday", "Sunday"]
  const MonthNames := ["January", "February", "March", "April", "May", "June", "July",
                       "August", "September", "October", "November", "December"]

  /** `%A`: 0001-01-01 was a Monday. */
  function WeekdayName(d: Date): string
    requires 1 <= d.month <= 12
  {
    WeekdayNames[(Ordinal(d) + 6) % 7]
  }

  /** `%b`: the first three letters of the month's name. */
  function MonthAbbrev(m: int): (r: string)
    requires 1 <= m <= 12
    ensures |r| == 3
  {
    MonthNames[m - 1][..3]
  }

  /** `strftime("%A, %B %d, %Y")` */
  function LongName(d: Date): string
    requires ValidDate(d)
  {
    WeekdayName(d) + ", " + MonthNames[d.month - 1] + " " + Pad2(d.day) + ", " + Pad4(d.year)
  }

  /** `strftime("%A, %b %d")` */
  function ShortName(d: Date): string
    requires ValidDate(d)
  {
    WeekdayName(d) + ", " + MonthAbbrev(d.month) + " " + Pad2(d.day)
  }
}
