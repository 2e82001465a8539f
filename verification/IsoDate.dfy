/** The date-time string of `Date.prototype.toISOString` (section 21.4.1 of ECMA-262) and reading it back. */
module IsoDate {
  import opened Common

  const MS_PER_DAY := 86400000

  /** The time values a `Date` can hold (section 21.4.1.1). */
  predicate ValidTime(t: int) {
    -8640000000000000 <= t <= 8640000000000000
  }

  // ----- The calendar -----

  predicate LeapYear(y: int) {
    y % 4 == 0 && (y % 100 != 0 || y % 400 == 0)
  }

  function DayFromYear(y: int): int {
    365 * (y - 1970) + (y - 1969) / 4 - (y - 1901) / 100 + (y - 1601) / 400
  }

  lemma EveryFourth(y: int)
    ensures (y - 1968) / 4 - (y - 1969) / 4 == if y % 4 == 0 then 1 else 0
  {
  }

  lemma EveryHundredth(y: int)
    ensures (y - 1900) / 100 - (y - 1901) / 100 == if y % 100 == 0 then 1 else 0
  {
  }

  lemma EveryFourHundredth(y: int)
    ensures (y - 1600) / 400 - (y - 1601) / 400 == if y % 400 == 0 then 1 else 0
  {
  }

  lemma Divisors(y: int)
    ensures (y % 400 == 0 ==> y % 100 == 0) && (y % 100 == 0 ==> y % 4 == 0)
  {
  }

  /** Day 0 begins 1970, and the Gregorian calendar repeats every 400 years of 146097 days. */
  lemma Gregorian(y: int)
    ensures DayFromYear(1970) == 0 && DayFromYear(y + 400) == DayFromYear(y) + 146097
    ensures !LeapYear(1900) && LeapYear(2000) && LeapYear(2024) && !LeapYear(2023)
  {
    assert (y + 400 - 1969) / 4 == (y - 1969) / 4 + 100;
    assert (y + 400 - 1901) / 100 == (y - 1901) / 100 + 4;
    assert (y + 400 - 1601) / 400 == (y - 1601) / 400 + 1;
  }

  lemma YearLength(y: int)
    ensures DayFromYear(y + 1) == DayFromYear(y) + (if LeapYear(y) then 366 else 365)
  {
    EveryFourth(y);
    EveryHundredth(y);
    EveryFourHundredth(y);
    Divisors(y);
    assert y + 1 - 1969 == y - 1968 && y + 1 - 1901 == y - 1900 && y + 1 - 1601 == y - 1600;
  }

  function YearUp(day: int, y: int): (r: int)
    requires DayFromYear(y) <= day
    ensures y <= r && DayFromYear(r) <= day < DayFromYear(r + 1)
    decreases day - DayFromYear(y)
  {
    YearLength(y);
    if day < DayFromYear(y + 1) then y else YearUp(day, y + 1)
  }

  /** The largest year that has begun by `day`. */
  function YearFromDay(day: int): (y: int)
    ensures DayFromYear(y) <= day < DayFromYear(y + 1)
  {
    YearUp(day, if day < 0 then 1969 + day / 365 else 1970)
  }

  /** Days of the year before month `m` (0 for January). */
  function DaysBefore(m: int, leap: bool): int
    requires 0 <= m <= 12
  {
    var l := if leap then 1 else 0;
    if m == 0 then 0 else if m == 1 then 31 else if m == 2 then 59 + l else if m == 3 then 90 + l
    else if m == 4 then 120 + l else if m == 5 then 151 + l else if m == 6 then 181 + l else if m == 7 then 212 + l
    else if m == 8 then 243 + l else if m == 9 then 273 + l else if m == 10 then 304 + l else if m == 11 then 334 + l
    else 365 + l
  }

  function MonthOf(dayInYear: int, leap: bool): (m: int)
    requires 0 <= dayInYear < DaysBefore(12, leap)
    ensures 0 <= m < 12 && DaysBefore(m, leap) <= dayInYear < DaysBefore(m + 1, leap)
  {
    MonthUp(dayInYear, leap, 0)
  }

  function MonthUp(dayInYear: int, leap: bool, m: int): (r: int)
    requires 0 <= m < 12 && DaysBefore(m, leap) <= dayInYear < DaysBefore(12, leap)
    ensures m <= r < 12 && DaysBefore(r, leap) <= dayInYear < DaysBefore(r + 1, leap)
    decreases 12 - m
  {
    if dayInYear < DaysBefore(m + 1, leap) then m else MonthUp(dayInYear, leap, m + 1)
  }

  /** `month` counts from 1, as the string form writes it. */
  datatype Civil = Civil(year: int, month: int, day: int, ms: int)

  /** The length of each month. */
  function DaysIn(m: int, leap: bool): int
    requires 0 <= m < 12
  {
    [31, if leap then 29 else 28, 31, 30, 31, 30, 31, 31, 30, 31, 30, 31][m]
  }

  lemma MonthLength(m: int, leap: bool)
    requires 0 <= m < 12
    ensures DaysBefore(0, leap) == 0 && DaysBefore(m + 1, leap) == DaysBefore(m, leap) + DaysIn(m, leap)
    ensures 28 <= DaysIn(m, leap) <= 31
  {
  }

  lemma DayWithinYear(day: int, y: int)
    requires DayFromYear(y) <= day < DayFromYear(y + 1)
    ensures 0 <= day - DayFromYear(y) < DaysBefore(12, LeapYear(y))
  {
    YearLength(y);
    hide DayFromYear;
  }

  /** The month and the day of the month. */
  function InYear(n: int, leap: bool, y: int, ms: int): (c: Civil)
    requires 0 <= n < DaysBefore(12, leap)
    ensures 1 <= c.month <= 12 && 1 <= c.day <= 31 && c.ms == ms && c.year == y
    ensures DaysBefore(c.month - 1, leap) + c.day - 1 == n
  {
    var m := MonthOf(n, leap);
    MonthLength(m, leap);
    Civil(y, m + 1, n - DaysBefore(m, leap) + 1, ms)
  }

  /** Year, month and day of a day number. */
  function DateOf(day: int, ms: int): (c: Civil)
    ensures 1 <= c.month <= 12 && 1 <= c.day <= 31 && c.ms == ms
    ensures DayFromYear(c.year) + DaysBefore(c.month - 1, LeapYear(c.year)) + c.day - 1 == day
    ensures DayFromYear(c.year) <= day < DayFromYear(c.year + 1)
  {
    var y := YearFromDay(day);
    DayWithinYear(day, y);
    InYear(day - DayFromYear(y), LeapYear(y), y, ms)
  }

  function CivilOf(t: int): (c: Civil)
    ensures 1 <= c.month <= 12 && 1 <= c.day <= 31 && 0 <= c.ms < MS_PER_DAY
  {
    DateOf(t / MS_PER_DAY, t % MS_PER_DAY)
  }

  function MakeTime(c: Civil): int
    requires 1 <= c.month <= 12
  {
    (DayFromYear(c.year) + DaysBefore(c.month - 1, LeapYear(c.year)) + c.day - 1) * MS_PER_DAY + c.ms
  }

  lemma CivilRoundTrip(t: int)
    ensures MakeTime(CivilOf(t)) == t
  {
    var day, ms := t / MS_PER_DAY, t % MS_PER_DAY;
    var c := DateOf(day, ms);
    assert CivilOf(t) == c && day * MS_PER_DAY + ms == t;
    hide DateOf, DayFromYear, DaysBefore, LeapYear, CivilOf;
  }

  lemma YearRange(t: int)
    requires ValidTime(t)
    ensures -300000 < CivilOf(t).year < 300000
  {
    var day := t / MS_PER_DAY;
    var y := YearFromDay(day);
    assert -100000000 <= day <= 100000000;
    assert DayFromYear(y) <= day < DayFromYear(y + 1);
    hide YearFromDay;
    assert 2 * DayFromYear(y) >= 730 * (y - 1970) - 8000 || y < 1970;
  }

  // ----- Decimal fields -----

  function DigitChar(d: int): (c: char)
    requires 0 <= d < 10
    ensures c == "0123456789"[d]
  {
    ('0' as int + d) as char
  }

  function Pow10(k: nat): nat {
    if k == 0 then 1 else 10 * Pow10(k - 1)
  }

  /** The least significant digit last. */
  function Padded(n: nat, width: nat): (s: string)
    ensures |s| == width && forall i :: 0 <= i < |s| ==> '0' <= s[i] <= '9'
    ensures width > 0 ==> s[width - 1] == DigitChar(n % 10)
  {
    if width == 0 then [] else Padded(n / 10, width - 1) + [DigitChar(n % 10)]
  }

  function Number(s: string): Option<nat>
    decreases |s|
  {
    if s == [] then Some(0)
    else
      var c := s[|s| - 1];
      match Number(s[..|s| - 1])
      case Some(n) => if '0' <= c <= '9' then Some(10 * n + (c as int - '0' as int)) else None
      case None => None
  }

  lemma {:induction false} NumberOfPadded(n: nat, width: nat)
    requires n < Pow10(width)
    ensures Number(Padded(n, width)) == Some(n)
    decreases width
  {
    if width > 0 {
      NumberOfPadded(n / 10, width - 1);
      var s := Padded(n, width);
      assert s[..|s| - 1] == Padded(n / 10, width - 1);
    }
  }

  // ----- The string form -----

  /** Four digits for the years 0 to 9999, a sign and six digits for the rest. */
  function YearText(y: int): string
    requires -1000000 < y < 1000000
  {
    if 0 <= y <= 9999 then Padded(y, 4)
    else if y > 0 then "+" + Padded(y, 6)
    else "-" + Padded(-y, 6)
  }

  function HourOf(ms: nat): (h: nat)
    ensures ms < MS_PER_DAY ==> h < 24
  {
    ms / 3600000
  }

  function MinuteOf(ms: nat): (m: nat)
    ensures m < 60
  {
    ms / 60000 % 60
  }

  function SecondOf(ms: nat): (s: nat)
    ensures s < 60
  {
    ms / 1000 % 60
  }

  function MillisecondOf(ms: nat): (m: nat)
    ensures m < 1000
  {
    ms % 1000
  }

  /** `-MM-DDTHH:mm:ss.sssZ`, always twenty characters. */
  function Tail(c: Civil): (s: string)
    requires 1 <= c.month <= 12 && 1 <= c.day <= 31 && 0 <= c.ms < MS_PER_DAY
    ensures |s| == 20
  {
    "-" + Padded(c.month, 2) + "-" + Padded(c.day, 2)
    + "T" + Padded(HourOf(c.ms), 2) + ":" + Padded(MinuteOf(c.ms), 2)
    + ":" + Padded(SecondOf(c.ms), 2) + "." + Padded(MillisecondOf(c.ms), 3) + "Z"
  }

  function ToIsoString(t: int): (s: string)
    requires ValidTime(t)
  {
    YearRange(t);
    var c := CivilOf(t);
    YearText(c.year) + Tail(c)
  }

  function ParseYear(s: string): Option<int> {
    if |s| == 4 then
      match Number(s) case Some(n) => Some(n) case None => None
    else if |s| == 7 && (s[0] == '+' || s[0] == '-') then
      match Number(s[1..])
      case Some(n) =>
        var magnitude: int := n;
        Some(if s[0] == '+' then magnitude else -magnitude)
      case None => None
    else None
  }

  function ParseTail(s: string, year: int): Option<Civil>
    requires |s| == 20
  {
    var mo, d := Number(s[1..3]), Number(s[4..6]);
    var h, mi, sec, ms := Number(s[7..9]), Number(s[10..12]), Number(s[13..15]), Number(s[16..19]);
    if mo.None? || d.None? || h.None? || mi.None? || sec.None? || ms.None? then None
    else Some(Civil(year, mo.value, d.value, h.value * 3600000 + mi.value * 60000 + sec.value * 1000 + ms.value))
  }

  /** The instant a string of exactly this form denotes; None for any other string. */
  function ParseIso(s: string): (t: Option<int>)
    ensures t.Some? ==> ValidTime(t.value) && ToIsoString(t.value) == s
  {
    if |s| < 20 then None
    else
      match ParseYear(s[..|s| - 20])
      case None => None
      case Some(y) =>
        match ParseTail(s[|s| - 20..], y)
        case None => None
        case Some(c) =>
          if !(1 <= c.month <= 12) then None
          else
            var t := MakeTime(c);
            if ValidTime(t) && ToIsoString(t) == s then Some(t) else None
  }

  lemma YearTextRoundTrip(y: int)
    requires -1000000 < y < 1000000
    ensures ParseYear(YearText(y)) == Some(y)
  {
    assert Pow10(4) == 10000 && Pow10(6) == 1000000;
    var n := if y < 0 then -y else y;
    NumberOfPadded(n, 6);
    if 0 <= y <= 9999 {
      NumberOfPadded(y, 4);
    } else {
      assert YearText(y)[1..] == Padded(n, 6);
    }
  }

  lemma TimeOfDay(ms: int)
    requires 0 <= ms < MS_PER_DAY
    ensures ms == HourOf(ms) * 3600000 + MinuteOf(ms) * 60000 + SecondOf(ms) * 1000 + MillisecondOf(ms)
  {
  }

  lemma FixedWidth(n: nat)
    ensures n < 100 ==> Number(Padded(n, 2)) == Some(n)
    ensures n < 1000 ==> Number(Padded(n, 3)) == Some(n)
  {
    assert Pow10(2) == 100 && Pow10(3) == 1000;
    hide Number, Padded;
    if n < 100 { NumberOfPadded(n, 2); }
    if n < 1000 { NumberOfPadded(n, 3); }
  }

  lemma DateFields(c: Civil)
    requires 1 <= c.month <= 12 && 1 <= c.day <= 31 && 0 <= c.ms < MS_PER_DAY
    ensures Tail(c)[1..3] == Padded(c.month, 2) && Tail(c)[4..6] == Padded(c.day, 2)
    ensures Tail(c)[7..9] == Padded(HourOf(c.ms), 2)
  {
    hide Padded, HourOf, MinuteOf, SecondOf, MillisecondOf;
  }

  lemma TimeFields(c: Civil)
    requires 1 <= c.month <= 12 && 1 <= c.day <= 31 && 0 <= c.ms < MS_PER_DAY
    ensures Tail(c)[10..12] == Padded(MinuteOf(c.ms), 2) && Tail(c)[13..15] == Padded(SecondOf(c.ms), 2)
    ensures Tail(c)[16..19] == Padded(MillisecondOf(c.ms), 3)
  {
    hide Padded, HourOf, MinuteOf, SecondOf, MillisecondOf;
  }

  lemma FieldsRead(c: Civil)
    requires 1 <= c.month <= 12 && 1 <= c.day <= 31 && 0 <= c.ms < MS_PER_DAY
    ensures Number(Tail(c)[1..3]) == Some(c.month) && Number(Tail(c)[4..6]) == Some(c.day)
    ensures Number(Tail(c)[7..9]) == Some(HourOf(c.ms)) && Number(Tail(c)[10..12]) == Some(MinuteOf(c.ms))
    ensures Number(Tail(c)[13..15]) == Some(SecondOf(c.ms)) && Number(Tail(c)[16..19]) == Some(MillisecondOf(c.ms))
  {
    hide Tail, Padded, Number, HourOf, MinuteOf, SecondOf, MillisecondOf;
    DateFields(c);
    TimeFields(c);
    FixedWidth(c.month);
    FixedWidth(c.day);
    FixedWidth(HourOf(c.ms));
    FixedWidth(MinuteOf(c.ms));
    FixedWidth(SecondOf(c.ms));
    FixedWidth(MillisecondOf(c.ms));
  }

  lemma TailRoundTrip(c: Civil)
    requires 1 <= c.month <= 12 && 1 <= c.day <= 31 && 0 <= c.ms < MS_PER_DAY
    ensures ParseTail(Tail(c), c.year) == Some(c)
  {
    hide Tail, Padded, Number, HourOf, MinuteOf, SecondOf, MillisecondOf;
    TimeOfDay(c.ms);
    FieldsRead(c);
  }

  /** Every instant a `Date` can hold is read back from its string form. */
  lemma IsoRoundTrip(t: int)
    requires ValidTime(t)
    ensures ParseIso(ToIsoString(t)) == Some(t)
  {
    YearRange(t);
    CivilRoundTrip(t);
    var c := CivilOf(t);
    var s := ToIsoString(t);
    YearTextRoundTrip(c.year);
    TailRoundTrip(c);
    hide CivilOf, MakeTime, YearText, Tail, ParseYear, ParseTail;
    assert s[..|s| - 20] == YearText(c.year) && s[|s| - 20..] == Tail(c);
  }

  predicate Plain(s: string) {
    forall i :: 0 <= i < |s| ==> s[i] != '|' && s[i] < 128 as char
  }

  lemma YearShape(y: int)
    requires -1000000 < y < 1000000
    ensures Plain(YearText(y)) && (if 0 <= y <= 9999 then |YearText(y)| == 4 else |YearText(y)| == 7)
    ensures (y < 0 ==> YearText(y)[0] == '-') && (9999 < y ==> YearText(y)[0] == '+')
  {
    hide Padded, HourOf, MinuteOf, SecondOf, MillisecondOf;
  }

  lemma TailShape(c: Civil)
    requires 1 <= c.month <= 12 && 1 <= c.day <= 31 && 0 <= c.ms < MS_PER_DAY
    ensures Plain(Tail(c))
  {
    hide Padded, HourOf, MinuteOf, SecondOf, MillisecondOf;
  }

  lemma IsoShape(t: int)
    requires ValidTime(t)
    ensures |ToIsoString(t)| == 24 || |ToIsoString(t)| == 27
    ensures Plain(ToIsoString(t))
  {
    YearRange(t);
    hide CivilOf, YearText, Tail;
    YearShape(CivilOf(t).year);
    TailShape(CivilOf(t));
  }
}
