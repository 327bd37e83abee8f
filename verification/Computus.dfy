// The kitchen display's holiday dates: the Gregorian computus behind `easter`,
// and `nthWeekday`, both measured against a calendar that counts days one year
// at a time with the Gregorian leap rule.

module Calendar {

  predicate IsLeap(y: nat) {
    (y % 4 == 0 && y % 100 != 0) || y % 400 == 0
  }

  // Days in the years 0 .. y-1, counted one year at a time.
  function DaysBeforeYear(y: nat): nat {
    if y == 0 then 0 else DaysBeforeYear(y - 1) + (if IsLeap(y - 1) then 366 else 365)
  }

  // Days in the months before `mo` (0 is January).
  function DaysBeforeMonth(y: nat, mo: nat): nat
    requires mo < 12
  {
    [0, 31, 59, 90, 120, 151, 181, 212, 243, 273, 304, 334][mo] + (if mo >= 2 && IsLeap(y) then 1 else 0)
  }

  function DayNumber(y: nat, mo: nat, day: int): int
    requires mo < 12
  {
    DaysBeforeYear(y) + DaysBeforeMonth(y, mo) + day - 1
  }

  // 1 January 1970 was a Thursday (4); Sunday is 0.
  function Weekday(dayNumber: int): int {
    (dayNumber - 719528 + 4) % 7
  }

  // JavaScript reads a year from 0 to 99 as 1900 + year.
  function JsYear(y: nat): nat {
    if y <= 99 then 1900 + y else y
  }

  // `new Date(y, mo, day)`; a day past the end of the month runs on into the next.
  function NewDate(y: nat, mo: nat, day: int): int
    requires mo < 12
  {
    DayNumber(JsYear(y), mo, day)
  }

  // Multiples of 4, 100 and 400 among 0 .. y-1.
  function LeapDays(y: nat): int {
    (y + 3) / 4 - (y + 99) / 100 + (y + 399) / 400
  }

  lemma LeapDaysStep(y: nat)
    ensures LeapDays(y + 1) == LeapDays(y) + (if IsLeap(y) then 1 else 0)
  {
    var q, r := y / 400, y % 400;
    var s, t := r / 100, r % 100;
    var u, v := t / 4, t % 4;
    assert y == 400 * q + 100 * s + 4 * u + v;
    assert (y + 4) / 4 == 100 * q + 25 * s + u + 1;
    assert (y + 3) / 4 == 100 * q + 25 * s + u + (if v == 0 then 0 else 1);
    assert (y + 100) / 100 == 4 * q + s + 1;
    assert (y + 99) / 100 == 4 * q + s + (if t == 0 then 0 else 1);
    assert (y + 400) / 400 == q + 1;
    assert (y + 399) / 400 == q + (if r == 0 then 0 else 1);
    assert y % 4 == v;
    assert y % 100 == t;
  }

  lemma {:induction false} DaysBeforeYearClosed(y: nat)
    ensures DaysBeforeYear(y) == 365 * y + LeapDays(y)
  {
    if y > 0 {
      DaysBeforeYearClosed(y - 1);
      LeapDaysStep(y - 1);
    }
  }

  // The weekday anchor is the real one: day 719528 of this count is 1970-01-01.
  lemma EpochIsThursday()
    ensures DayNumber(1970, 0, 1) == 719528 && Weekday(DayNumber(1970, 0, 1)) == 4
  {
    DaysBeforeYearClosed(1970);
  }

  // 22 March's weekday in the century digits the computus works with.
  lemma MarchWeekday(y: nat, d: nat, e: nat, i: nat, k: nat)
    requires y == 400 * d + 100 * e + 4 * i + k && e < 4 && i < 25 && k < 4
    ensures (DayNumber(y, 2, 22) + 2 * e + 2 * i - k) % 7 == 4
  {
    DaysBeforeYearClosed(y + 1);
    assert (y + 4) / 4 == 100 * d + 25 * e + i + 1;
    assert (y + 100) / 100 == 4 * d + e + 1;
    assert (y + 400) / 400 == d + 1;
    assert DayNumber(y, 2, 22) == DaysBeforeYear(y + 1) - 306 + 21;
    assert DayNumber(y, 2, 22) + 2 * e + 2 * i - k
        == 7 * (20871 * d + 5218 * e + 209 * i + 52 * k + 11) + 4 by {
      assert 365 * (y + 1) == 146000 * d + 36500 * e + 1460 * i + 365 * k + 365;
    }
  }
}

module Computus {
  import opened Calendar

  datatype MonthDay = MonthDay(month: int, day: int)

  // The intermediate values h, l, m of the source.
  function MoonAge(y: nat): int {
    var a, b := y % 19, y / 100;
    var d, f := b / 4, (b + 8) / 25;
    var g := (b - f + 1) / 3;
    (19 * a + b - d - g + 15) % 30
  }

  function SundayStep(y: nat): int {
    var b, c := y / 100, y % 100;
    var e, i, k := b % 4, c / 4, c % 4;
    (32 + 2 * e + 2 * i - MoonAge(y) - k) % 7
  }

  function Correction(y: nat): int {
    (y % 19 + 11 * MoonAge(y) + 22 * SundayStep(y)) / 451
  }

  // Month (0-based) and day that `easter` passes to `new Date`.
  function EasterMonthDay(y: nat): MonthDay {
    var n := MoonAge(y) + SundayStep(y) - 7 * Correction(y) + 114;
    MonthDay(n / 31 - 1, n % 31 + 1)
  }

  // The date `easter(y)` returns, as a day number.
  function Easter(y: nat): int
    requires EasterMonthDay(y).month in {2, 3}
  {
    NewDate(y, EasterMonthDay(y).month, EasterMonthDay(y).day)
  }

  // Days from 21 March to the paschal full moon: h, one less in the two exceptional cases.
  function PaschalOffset(y: nat): int {
    var h := MoonAge(y);
    if h == 29 || (h == 28 && y % 19 > 10) then h - 1 else h
  }

  lemma CorrectionCases(y: nat)
    ensures 0 <= MoonAge(y) < 30 && 0 <= SundayStep(y) < 7
    ensures Correction(y) == if PaschalOffset(y) != MoonAge(y) && SundayStep(y) == 6 then 1 else 0
  {}

  // Easter lies between 22 March and 25 April; counted from 21 March it is 1 to 7 days after the full moon.
  lemma EasterRange(y: nat)
    ensures var md := EasterMonthDay(y);
            || (md.month == 2 && 22 <= md.day <= 31)
            || (md.month == 3 && 1 <= md.day <= 25)
    ensures var md := EasterMonthDay(y);
            var fromMarch21 := if md.month == 2 then md.day - 21 else md.day + 10;
            && fromMarch21 == MoonAge(y) + SundayStep(y) - 7 * Correction(y) + 1
            && PaschalOffset(y) + 1 <= fromMarch21 <= PaschalOffset(y) + 7
  {
    CorrectionCases(y);
  }

  lemma EasterDayNumber(y: nat)
    ensures EasterMonthDay(y).month in {2, 3}
    ensures var md := EasterMonthDay(y);
            DayNumber(y, md.month, md.day) ==
            DayNumber(y, 2, 22) + MoonAge(y) + SundayStep(y) - 7 * Correction(y)
  {
    EasterRange(y);
  }

  // In the calendar year asked for, the month and day name a Sunday, and it is
  // the first Sunday strictly after the paschal full moon.
  lemma EasterIsFirstSundayAfterFullMoon(y: nat)
    ensures EasterMonthDay(y).month in {2, 3}
    ensures var md := EasterMonthDay(y);
            var easter := DayNumber(y, md.month, md.day);
            var fullMoon := DayNumber(y, 2, 21) + PaschalOffset(y);
            && Weekday(easter) == 0
            && fullMoon < easter
            && forall n :: fullMoon < n && Weekday(n) == 0 ==> easter <= n
  {
    EasterRange(y);
    EasterDayNumber(y);
    var b, c := y / 100, y % 100;
    var d, e, i, k := b / 4, b % 4, c / 4, c % 4;
    MarchWeekday(y, d, e, i, k);
    SundayArithmetic(DayNumber(y, 2, 22), e, i, k, MoonAge(y), SundayStep(y), Correction(y));
    var md := EasterMonthDay(y);
    NoEarlierSunday(DayNumber(y, md.month, md.day), DayNumber(y, 2, 21) + PaschalOffset(y));
  }

  lemma SundayArithmetic(first: int, e: int, i: int, k: int, h: int, l: int, m: int)
    requires (first + 2 * e + 2 * i - k) % 7 == 4
    requires l == (32 + 2 * e + 2 * i - h - k) % 7
    ensures Weekday(first + h + l - 7 * m) == 0
  {
    var s := 2 * e + 2 * i;
    var p := (first + s - k) / 7;
    var q := (32 + s - h - k) / 7;
    assert first == 7 * p + 4 - s + k;
    assert l == 32 + s - h - k - 7 * q;
    var n := first + h + l - 7 * m;
    assert n - 719528 + 4 == 7 * (p - q - m + 5 - 102789);
  }

  lemma NoEarlierSunday(sunday: int, after: int)
    requires Weekday(sunday) == 0 && after < sunday <= after + 7
    ensures forall n :: after < n && Weekday(n) == 0 ==> sunday <= n
  {
    forall n | after < n && Weekday(n) == 0
      ensures sunday <= n
    {
      var p, q := (n - 719528 + 4) / 7, (sunday - 719528 + 4) / 7;
      assert sunday - n == 7 * (q - p);
    }
  }

  // What the returned Date shows. JavaScript moves years below 100 into the
  // 1900s, where the same month and day fall one weekday later, so `easter`
  // answers a Sunday for exactly the years from 100 on (and a Monday below).
  lemma EasterIsSundayFrom100(y: nat)
    ensures EasterMonthDay(y).month in {2, 3}
    ensures Weekday(Easter(y)) == 0 <==> y >= 100
    ensures y < 100 ==> Weekday(Easter(y)) == 1
  {
    EasterIsFirstSundayAfterFullMoon(y);
    var md := EasterMonthDay(y);
    if y < 100 {
      ShiftInto1900s(y, md.month, md.day);
      DayAfterSunday(DayNumber(y, md.month, md.day), 99137);
    }
  }

  lemma DayAfterSunday(sunday: int, weeks: int)
    requires Weekday(sunday) == 0
    ensures Weekday(sunday + 7 * weeks + 1) == 1
  {
    var p := (sunday - 719528 + 4) / 7;
    assert sunday + 7 * weeks + 1 - 719528 + 4 == 7 * (p + weeks) + 1;
  }

  // From a day of March or April of year y < 100 to that day of 1900 + y is 99137 weeks and a day.
  lemma ShiftInto1900s(y: nat, mo: nat, day: int)
    requires y < 100 && mo in {2, 3}
    ensures NewDate(y, mo, day) == DayNumber(y, mo, day) + 7 * 99137 + 1
  {
    YearShift(y, 1900 + y);
    assert DayNumber(y, mo, day) == DaysBeforeYear(y + 1) - 306 + 31 * (mo - 2) + day - 1;
    var z := JsYear(y);
    assert DayNumber(z, mo, day) == DaysBeforeYear(z + 1) - 306 + 31 * (mo - 2) + day - 1;
  }

  lemma YearShift(y: nat, z: nat)
    requires y < 100 && z == 1900 + y
    ensures DaysBeforeYear(z + 1) == DaysBeforeYear(y + 1) + 7 * 99137 + 1
  {
    DaysBeforeYearClosed(y + 1);
    DaysBeforeYearClosed(z + 1);
    assert LeapDays(y + 1) == y / 4 + 1;
    assert (z + 4) / 4 == y / 4 + 476;
    assert LeapDays(z + 1) == y / 4 + 461;
  }

  // ---- the ecclesiastical rules of Lilius and Clavius, as a second definition

  // Epact of the Gregorian calendar reform, adjusted for the two cases in which
  // the lunar month would otherwise start on a day already taken.
  function Epact(y: nat): int {
    var golden, century := y % 19 + 1, y / 100 + 1;
    var droppedLeapDays := 3 * century / 4 - 12;
    var moonCorrection := (8 * century + 5) / 25 - 5;
    var e := (11 * golden + 20 + moonCorrection - droppedLeapDays) % 30;
    if e == 24 || (e == 25 && golden > 11) then e + 1 else e
  }

  // Full moon as a day of March (32 is 1 April), not before 21 March.
  function ClaviusFullMoon(y: nat): int {
    if 44 - Epact(y) < 21 then 74 - Epact(y) else 44 - Epact(y)
  }

  lemma MoonCorrections(b: nat)
    ensures (b - (b + 8) / 25 + 1) / 3 == (8 * (b + 1) + 5) / 25
    ensures 3 * (b + 1) / 4 == b - b / 4
  {
    var q, r := b / 25, b % 25;
    assert b == 25 * q + r;
    assert (b + 8) / 25 == q + (r + 8) / 25;
    assert (8 * (b + 1) + 5) / 25 == 8 * q + (8 * r + 13) / 25;
    assert b - (b + 8) / 25 + 1 == 3 * (8 * q) + (r - (r + 8) / 25 + 1);
  }

  lemma EpactArithmetic(a: int, b: int, d: int, g: int, h: int, e: int)
    requires h == (19 * a + b - d - g + 15) % 30
    requires e == (11 * (a + 1) + 20 + (g - 5) - (b - d - 12)) % 30
    ensures e == if h <= 23 then 23 - h else 53 - h
  {
    var p := (19 * a + b - d - g + 15) / 30;
    var q := (11 * (a + 1) + 20 + (g - 5) - (b - d - 12)) / 30;
    assert h + e == 30 * (a - p - q) + 53;
  }

  // The paschal full moon of `easter` is the one the epact tables give.
  lemma FullMoonMatchesEpact(y: nat)
    ensures 21 + PaschalOffset(y) == ClaviusFullMoon(y)
  {
    var b := y / 100;
    MoonCorrections(b);
    var g := (b - (b + 8) / 25 + 1) / 3;
    EpactArithmetic(y % 19, b, b / 4, g, MoonAge(y),
                    (11 * (y % 19 + 1) + 20 + (g - 5) - (b - b / 4 - 12)) % 30);
  }

  // So `easter` names the first Sunday strictly after the ecclesiastical full moon, in every year.
  lemma EasterAgreesWithClavius(y: nat)
    ensures EasterMonthDay(y).month in {2, 3}
    ensures var md := EasterMonthDay(y);
            var easter := DayNumber(y, md.month, md.day);
            var fullMoon := DayNumber(y, 2, ClaviusFullMoon(y));
            && Weekday(easter) == 0
            && fullMoon < easter <= fullMoon + 7
  {
    EasterIsFirstSundayAfterFullMoon(y);
    FullMoonMatchesEpact(y);
    EasterRange(y);
    EasterDayNumber(y);
  }

  // ---- nthWeekday

  // `nthWeekday(y, mo, wd, n)` as a day number.
  function NthWeekday(y: nat, mo: nat, wd: int, n: int): int
    requires mo < 12
  {
    var first := NewDate(y, mo, 1);
    NewDate(y, mo, 1 + (wd - Weekday(first) + 7) % 7 + 7 * (n - 1))
  }

  // It is the day that has exactly n - 1 days of that weekday between the first
  // of the month and itself, wherever that lands.
  lemma {:induction false} NthWeekdayIsNth(y: nat, mo: nat, wd: int, n: nat)
    requires mo < 12 && 0 <= wd < 7 && n >= 1
    ensures var first := NewDate(y, mo, 1);
            var r := NthWeekday(y, mo, wd, n);
            && first <= r && Weekday(r) == wd
            && CountWeekday(first, r, wd) == n - 1
  {
    var first := NewDate(y, mo, 1);
    if n == 1 {
      WeekdayAfter(first, wd, (wd - Weekday(first) + 7) % 7);
    } else {
      NthWeekdayIsNth(y, mo, wd, n - 1);
      OneMoreWeek(first, NthWeekday(y, mo, wd, n - 1), wd, 7);
    }
  }

  lemma {:induction false} OneMoreWeek(first: int, r: int, wd: int, steps: nat)
    requires first <= r && Weekday(r) == wd && 1 <= steps <= 7
    ensures CountWeekday(first, r + steps, wd) == CountWeekday(first, r, wd) + 1
    ensures steps == 7 ==> Weekday(r + steps) == wd
  {
    WeekdayPlus(r, steps);
    if steps > 1 {
      OneMoreWeek(first, r, wd, steps - 1);
      WeekdayPlus(r, steps - 1);
    }
  }

  lemma WeekdayPlus(n: int, k: nat)
    requires k <= 7
    ensures 0 <= Weekday(n) < 7
    ensures Weekday(n + k) == if Weekday(n) + k < 7 then Weekday(n) + k else Weekday(n) + k - 7
  {
    var p := (n - 719528 + 4) / 7;
    assert n - 719528 + 4 == 7 * p + Weekday(n);
    assert n + k - 719528 + 4 == 7 * p + Weekday(n) + k;
  }

  // Days of weekday `wd` in [lo, hi).
  function CountWeekday(lo: int, hi: int, wd: int): nat
    requires lo <= hi
    decreases hi - lo
  {
    if lo == hi then 0
    else CountWeekday(lo, hi - 1, wd) + (if Weekday(hi - 1) == wd then 1 else 0)
  }

  lemma {:induction false} WeekdayAfter(first: int, wd: int, steps: nat)
    requires 0 <= wd < 7 && steps <= (wd - Weekday(first) + 7) % 7
    ensures CountWeekday(first, first + steps, wd) == 0
    ensures steps == (wd - Weekday(first) + 7) % 7 ==> Weekday(first + steps) == wd
  {
    WeekdayPlus(first, steps);
    if steps > 0 {
      WeekdayAfter(first, wd, steps - 1);
      WeekdayPlus(first, steps - 1);
    }
  }
}
