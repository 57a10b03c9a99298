/** Dates as day numbers: day 0 is 1970-01-01, a Thursday. Weekdays come
    from the day number modulo 7; civil dates use the proleptic Gregorian
    calendar (Python's `date`, PostgreSQL's `date`). */
module Calendar {
  import opened Wrappers
  import opened Text

  type Day = int

  /** Python's date.weekday(): Monday is 0, Sunday is 6. */
  function Weekday(d: Day): (w: nat)
    ensures w < 7
    ensures w == (d + 3) % 7
  {
    (d + 3) % 7
  }

  /** PostgreSQL's EXTRACT(ISODOW FROM date): Monday is 1, Sunday is 7. */
  function IsoWeekday(d: Day): (w: nat)
    ensures 1 <= w <= 7 && w == Weekday(d) + 1
  {
    Weekday(d) + 1
  }

  lemma {:induction false} WeekdayPeriodic(d: Day, k: int)
    ensures Weekday(d + 7 * k) == Weekday(d)
  {
    assert (d + 7 * k + 3) == (d + 3) + 7 * k;
  }

  predicate IsLeap(y: int) {
    y % 4 == 0 && (y % 100 != 0 || y % 400 == 0)
  }

  function DaysInMonth(y: int, m: int): (n: int)
    requires 1 <= m <= 12
    ensures 28 <= n <= 31
    ensures m == 2 ==> (n == 29 <==> IsLeap(y))
  {
    if m == 2 then (if IsLeap(y) then 29 else 28)
    else if m == 4 || m == 6 || m == 9 || m == 11 then 30
    else 31
  }

  datatype Civil = Civil(year: int, month: int, day: int)

  /** A calendar date Python's `date` accepts (years 1 to 9999). */
  predicate ValidCivil(c: Civil) {
    1 <= c.year <= 9999 && 1 <= c.month <= 12 && 1 <= c.day <= DaysInMonth(c.year, c.month)
  }

  /** Day number of a civil date (H. Hinnant's days_from_civil, in a
      March-based year; Dafny's `/` on a positive divisor is floor
      division, as the algorithm needs). */
  function DaysFromCivil(c: Civil): Day {
    var y := if c.month <= 2 then c.year - 1 else c.year;
    var era := y / 400;
    var mp := if c.month > 2 then c.month - 3 else c.month + 9;
    era * 146097 + DayOfEra(y - era * 400, DayOfYear(mp, c.day)) - 719468
  }

  /** The day of the March-based year of day `day` of month `mp` (March 0). */
  function DayOfYear(mp: int, day: int): int {
    (153 * mp + 2) / 5 + day - 1
  }

  /** The day of the 400-year era of day `doy` of year `yoe` of the era. */
  function DayOfEra(yoe: int, doy: int): int {
    yoe * 365 + yoe / 4 - yoe / 100 + doy
  }

  /** Civil date of a day number (H. Hinnant's civil_from_days). */
  function CivilFromDays(z0: Day): Civil {
    var z := z0 + 719468;
    var era := z / 146097;
    CivilOfEraDay(era, z - era * 146097)
  }

  function CivilOfEraDay(era: int, doe: int): Civil {
    var yoe := (doe - doe / 1460 + doe / 36524 - doe / 146096) / 365;
    CivilOfYearDay(yoe + era * 400, doe - (365 * yoe + yoe / 4 - yoe / 100))
  }

  function CivilOfYearDay(y: int, doy: int): Civil {
    var mp := (5 * doy + 2) / 153;
    var m := if mp < 10 then mp + 3 else mp - 9;
    Civil(if m <= 2 then y + 1 else y, m, doy - (153 * mp + 2) / 5 + 1)
  }

  /** Day 0 is 1970-01-01, and it reads back as that date. */
  lemma EpochIsDayZero()
    ensures DaysFromCivil(Civil(1970, 1, 1)) == 0
    ensures CivilFromDays(0) == Civil(1970, 1, 1)
  {
    assert 1969 / 400 == 4 && DayOfYear(10, 1) == 306 && DayOfEra(369, 306) == 135080;
    CivilRoundTrip(Civil(1970, 1, 1));
  }

  /** The month and day read back from a day of the March-based year. */
  lemma MonthOfDayOfYear(y: int, mp: int, day: int)
    requires 0 <= mp <= 11 && 1 <= day
    requires mp == 11 ==> day <= 29
    requires mp != 11 ==> day <= (if mp == 1 || mp == 3 || mp == 6 || mp == 8 then 30 else 31)
    ensures 0 <= DayOfYear(mp, day) <= 365
    ensures DayOfYear(mp, day) == 365 ==> mp == 11 && day == 29
    ensures CivilOfYearDay(y, DayOfYear(mp, day)) ==
      Civil(if mp >= 10 then y + 1 else y, if mp < 10 then mp + 3 else mp - 9, day)
  {
    var doy := DayOfYear(mp, day);
    assert (5 * doy + 2) / 153 == mp;
  }

  /** A year of the era as centuries, 4-year cycles and years. */
  lemma EraParts(yoe: int)
    requires 0 <= yoe <= 399
    ensures yoe == 100 * (yoe / 100) + 4 * ((yoe % 100) / 4) + yoe % 4
    ensures yoe / 4 == 25 * (yoe / 100) + (yoe % 100) / 4
    ensures 0 <= yoe / 100 <= 3 && 0 <= (yoe % 100) / 4 <= 24
  {
  }

  /** The day of the era counts 365 days a year plus the leap days
      before it; the two correction terms of civil_from_days remove them. */
  lemma LeapDays(c: int, q: int, s: int, doy: int, doe: int)
    requires 0 <= c <= 3 && 0 <= q <= 24 && 0 <= s <= 3 && 0 <= doy <= 365
    requires doy == 365 ==> s == 3 && (q != 24 || c == 3)
    requires doe == 36524 * c + 1461 * q + 365 * s + doy
    ensures 0 <= doe <= 146096 && doe / 36524 - doe / 146096 == c
  {
  }

  lemma LeapCycles(c: int, q: int, s: int, doy: int, doe: int)
    requires 0 <= c <= 3 && 0 <= q <= 24 && 0 <= s <= 3 && 0 <= doy <= 365
    requires doy == 365 ==> s == 3
    requires doe == 36524 * c + 1461 * q + 365 * s + doy
    ensures var k := doe / 1460 - 25 * c - q;
      0 <= k <= 1 && 0 <= doy - k <= 364
  {
    var r := 24 * c + q + 365 * s + doy;
    assert doe == 1460 * (25 * c + q) + r && 0 <= r < 2 * 1460;
  }

  /** The year of the era and the day of the year read back from a day of
      the era: the 366th day of a March-based year exists only when the
      February it ends with is a leap February. */
  lemma YearOfEra(era: int, yoe: int, doy: int)
    requires 0 <= yoe <= 399 && 0 <= doy <= 365
    requires doy == 365 ==> yoe % 4 == 3 && (yoe % 100 != 99 || yoe == 399)
    ensures 0 <= DayOfEra(yoe, doy) <= 146096
    ensures CivilOfEraDay(era, DayOfEra(yoe, doy)) == CivilOfYearDay(yoe + era * 400, doy)
  {
    var doe := DayOfEra(yoe, doy);
    YearOfEraDay(yoe, doy);
    EraDayParts(era, doe, yoe, doy);
  }

  lemma YearOfEraDay(yoe: int, doy: int)
    requires 0 <= yoe <= 399 && 0 <= doy <= 365
    requires doy == 365 ==> yoe % 4 == 3 && (yoe % 100 != 99 || yoe == 399)
    ensures var doe := DayOfEra(yoe, doy);
      0 <= doe <= 146096 && (doe - doe / 1460 + doe / 36524 - doe / 146096) / 365 == yoe
      && doe - (365 * yoe + yoe / 4 - yoe / 100) == doy
  {
    EraParts(yoe);
    var c, q, s := yoe / 100, (yoe % 100) / 4, yoe % 4;
    var doe := DayOfEra(yoe, doy);
    assert doe == 36524 * c + 1461 * q + 365 * s + doy;
    LeapDays(c, q, s, doy, doe);
    LeapCycles(c, q, s, doy, doe);
    var k := doe / 1460 - 25 * c - q;
    DivUnique(doe - doe / 1460 + doe / 36524 - doe / 146096, 365, yoe, doy - k);
  }

  lemma EraDayParts(era: int, doe: int, yoe: int, doy: int)
    requires (doe - doe / 1460 + doe / 36524 - doe / 146096) / 365 == yoe
    requires doe - (365 * yoe + yoe / 4 - yoe / 100) == doy
    ensures CivilOfEraDay(era, doe) == CivilOfYearDay(yoe + era * 400, doy)
  {
  }

  /** CivilFromDays inverts DaysFromCivil on every date Python accepts. */
  lemma {:induction false} CivilRoundTrip(c: Civil)
    requires ValidCivil(c)
    ensures CivilFromDays(DaysFromCivil(c)) == c
  {
    var y := if c.month <= 2 then c.year - 1 else c.year;
    var era := y / 400;
    var yoe := y - era * 400;
    var mp := if c.month > 2 then c.month - 3 else c.month + 9;
    var doy := DayOfYear(mp, c.day);
    var doe := DayOfEra(yoe, doy);
    MonthOfDayOfYear(y, mp, c.day);
    LeapInEra(era, yoe);
    YearOfEra(era, yoe, doy);
    CivilFromEra(c, y, era, mp, doe);
  }

  /** civil_from_days splits the day number of a date back into the era and
      the day of the era that days_from_civil added up. */
  lemma CivilFromEra(c: Civil, y: int, era: int, mp: int, doe: int)
    requires y == (if c.month <= 2 then c.year - 1 else c.year) && era == y / 400
    requires mp == (if c.month > 2 then c.month - 3 else c.month + 9)
    requires doe == DayOfEra(y - era * 400, DayOfYear(mp, c.day)) && 0 <= doe <= 146096
    ensures CivilFromDays(DaysFromCivil(c)) == CivilOfEraDay(era, doe)
  {
    DaysOfEra(c, y, era, mp);
    CivilFromEraDay(DaysFromCivil(c), era, doe);
  }

  /** days_from_civil as the start of the era plus the day of the era. */
  lemma DaysOfEra(c: Civil, y: int, era: int, mp: int)
    requires y == (if c.month <= 2 then c.year - 1 else c.year) && era == y / 400
    requires mp == (if c.month > 2 then c.month - 3 else c.month + 9)
    ensures DaysFromCivil(c) + 719468 == era * 146097 + DayOfEra(y - era * 400, DayOfYear(mp, c.day))
  {
  }

  /** civil_from_days splits a day number into its era and day of era. */
  lemma CivilFromEraDay(z0: Day, era: int, doe: int)
    requires 0 <= doe <= 146096 && z0 + 719468 == era * 146097 + doe
    ensures CivilFromDays(z0) == CivilOfEraDay(era, doe)
  {
    DivUnique(z0 + 719468, 146097, era, doe);
  }

  /** Whether the year after year `yoe` of an era is a leap year depends on
      `yoe` alone. */
  lemma LeapInEra(era: int, yoe: int)
    requires 0 <= yoe <= 399
    ensures IsLeap(era * 400 + yoe + 1) ==> yoe % 4 == 3 && (yoe % 100 != 99 || yoe == 399)
  {
    var x := era * 400 + yoe + 1;
    ShiftMod(x, 4, 100 * era, yoe + 1);
    ShiftMod(x, 100, 4 * era, yoe + 1);
    ShiftMod(x, 400, era, yoe + 1);
  }

  /** Adding whole multiples of the divisor keeps the remainder. */
  lemma ShiftMod(x: int, d: int, k: int, t: int)
    requires d > 0 && x == k * d + t
    ensures x % d == t % d
  {
    var q, r := t / d, t % d;
    assert t == q * d + r && 0 <= r < d;
    assert x == (k + q) * d + r;
    DivUnique(x, d, k + q, r);
  }

  lemma DivUnique(x: int, d: int, q: int, r: int)
    requires d > 0 && 0 <= r < d && x == q * d + r
    ensures x / d == q && x % d == r
  {
    var q', r' := x / d, x % d;
    assert x == q' * d + r' && 0 <= r' < d;
    assert (q - q') * d == r' - r;
    if q > q' {
      MulAtLeast(q - q', d);
    } else if q < q' {
      MulAtLeast(q' - q, d);
    }
  }

  lemma {:induction false} MulAtLeast(a: int, d: int)
    requires a >= 1 && d > 0
    ensures a * d >= d
    decreases a
  {
    if a > 1 {
      MulAtLeast(a - 1, d);
      assert a * d == (a - 1) * d + d;
    }
  }


  /** PostgreSQL's EXTRACT(DAY FROM date). */
  function DayOfMonth(d: Day): int {
    CivilFromDays(d).day
  }

  function Year(d: Day): int {
    CivilFromDays(d).year
  }

  /** `date - INTERVAL '1 year'` in PostgreSQL: same month and day one year
      earlier, with February 29 becoming February 28. */
  function OneYearBefore(c: Civil): (r: Civil)
    requires ValidCivil(c) && c.year >= 2
    ensures ValidCivil(r) && r.year == c.year - 1 && r.month == c.month
    ensures r.day == c.day || (c.month == 2 && c.day == 29 && r.day == 28)
  {
    var days := DaysInMonth(c.year - 1, c.month);
    Civil(c.year - 1, c.month, if c.day <= days then c.day else days)
  }

  /** A natural number for formatting; dates outside Python's range never
      reach a formatter. */
  function Nat(x: int): nat {
    if x < 0 then 0 else x
  }

  /** strftime("%Y-%m-%d"). */
  function FormatIso(c: Civil): (s: string)
    ensures |s| == 10 && s[4] == '-' && s[7] == '-'
  {
    PadDigits(Nat(c.year), 4) + "-" + PadDigits(Nat(c.month), 2) + "-" + PadDigits(Nat(c.day), 2)
  }

  /** strftime("%d%m%Y"), the form used in NSE bhavcopy file names. */
  function FormatDdmmyyyy(c: Civil): (s: string)
    ensures |s| == 8 && AllDigits(s)
  {
    PadDigits(Nat(c.day), 2) + PadDigits(Nat(c.month), 2) + PadDigits(Nat(c.year), 4)
  }

  /** The civil date written by (day, month, year) when it exists. */
  function MakeCivil(y: int, m: int, d: int): (r: Option<Civil>)
    ensures r.Some? <==> ValidCivil(Civil(y, m, d))
    ensures r.Some? ==> r.value == Civil(y, m, d)
  {
    if ValidCivil(Civil(y, m, d)) then Some(Civil(y, m, d)) else None
  }

  /** strptime(s, "%d%m%Y") for the eight-digit zero-padded form. */
  function ParseDdmmyyyy(s: string): (r: Option<Civil>)
    ensures r.Some? ==> ValidCivil(r.value)
  {
    if |s| == 8 && AllDigits(s) then
      MakeCivil(DigitsValue(s[4..8]), DigitsValue(s[2..4]), DigitsValue(s[0..2]))
    else None
  }

  /** strptime(s, "%Y-%m-%d") for the ten-character zero-padded form. */
  function ParseIso(s: string): (r: Option<Civil>)
    ensures r.Some? ==> ValidCivil(r.value)
  {
    if |s| == 10 && s[4] == '-' && s[7] == '-' && AllDigits(s[0..4]) && AllDigits(s[5..7])
       && AllDigits(s[8..10]) then
      MakeCivil(DigitsValue(s[0..4]), DigitsValue(s[5..7]), DigitsValue(s[8..10]))
    else None
  }

  lemma {:induction false} DdmmyyyyRoundTrip(c: Civil)
    requires ValidCivil(c)
    ensures ParseDdmmyyyy(FormatDdmmyyyy(c)) == Some(c)
  {
    var s := FormatDdmmyyyy(c);
    var a, b, e := PadDigits(c.day, 2), PadDigits(c.month, 2), PadDigits(c.year, 4);
    assert s[0..2] == a && s[2..4] == b && s[4..8] == e;
    PadDigitsValue(c.day, 2);
    PadDigitsValue(c.month, 2);
    PadDigitsValue(c.year, 4);
  }

  lemma {:induction false} IsoRoundTrip(c: Civil)
    requires ValidCivil(c)
    ensures ParseIso(FormatIso(c)) == Some(c)
  {
    var s := FormatIso(c);
    var a, b, e := PadDigits(c.year, 4), PadDigits(c.month, 2), PadDigits(c.day, 2);
    assert s[0..4] == a && s[5..7] == b && s[8..10] == e;
    PadDigitsValue(c.day, 2);
    PadDigitsValue(c.month, 2);
    PadDigitsValue(c.year, 4);
  }

  const MonthAbbreviations: seq<string> :=
    ["JAN", "FEB", "MAR", "APR", "MAY", "JUN", "JUL", "AUG", "SEP", "OCT", "NOV", "DEC"]

  /** Month number of an English month abbreviation, in any letter case
      (strptime's %b), or 0. */
  function MonthOfAbbreviation(t: string): (m: nat)
    ensures m <= 12
    ensures 1 <= m ==> Upper(t) == MonthAbbreviations[m - 1]
    ensures m == 0 ==> Upper(t) !in MonthAbbreviations
  {
    var u := Upper(t);
    if u in MonthAbbreviations then
      var k :| 0 <= k < 12 && MonthAbbreviations[k] == u;
      k + 1
    else 0
  }

  /** strptime(s, "%d-%b-%Y") for the forms "05-Jan-2024" and "5-Jan-2024";
      None where pandas' to_datetime(errors='coerce') gives NaT. */
  function ParseDdMonYyyy(s: string): (r: Option<Civil>)
    ensures r.Some? ==> ValidCivil(r.value)
  {
    if |s| == 11 && s[2] == '-' && s[6] == '-' && AllDigits(s[0..2]) && AllDigits(s[7..11]) then
      DayMonYear(s[0..2], s[3..6], s[7..11])
    else if |s| == 10 && s[1] == '-' && s[5] == '-' && AllDigits(s[0..1]) && AllDigits(s[6..10]) then
      DayMonYear(s[0..1], s[2..5], s[6..10])
    else None
  }

  /** The date with the given day digits, month abbreviation and year
      digits, or None where the month or the day does not exist. */
  function DayMonYear(dd: string, mon: string, yyyy: string): (r: Option<Civil>)
    requires AllDigits(dd) && AllDigits(yyyy)
    ensures r.Some? ==> ValidCivil(r.value)
  {
    var m := MonthOfAbbreviation(mon);
    if m == 0 then None else MakeCivil(DigitsValue(yyyy), m, DigitsValue(dd))
  }
}
