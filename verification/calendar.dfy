/**
  Days since the epoch to a calendar date. The arithmetic counts in eras of 400
  years that begin in March; the rules it must agree with are the Gregorian
  month lengths (section 5.7 of RFC 3339) and leap years (its appendix C).
 */
module Calendar {
  datatype Date = Date(year: int, month: int, day: int)

  const DAY_SECONDS := 86_400
  const ERA_DAYS := 146_097

  function YearOfEra(doe: nat): nat
    requires doe < ERA_DAYS
  {
    (doe - doe / 1460 + doe / 36_524 - doe / 146_096) / 365
  }

  function DayOfYear(doe: nat): int
    requires doe < ERA_DAYS
  {
    var yoe := YearOfEra(doe);
    doe - (365 * yoe + yoe / 4 - yoe / 100)
  }

  /** A day of a year of an era, as a date. */
  function DateOf(era: int, yoe: int, doy: int): Date
    requires 0 <= doy <= 365
  {
    var mp := (5 * doy + 2) / 153;
    var d := doy - (153 * mp + 2) / 5 + 1;
    var m := if mp < 10 then mp + 3 else mp - 9;
    Date(yoe + era * 400 + (if m <= 2 then 1 else 0), m, d)
  }

  predicate Leap(y: int) {
    y % 4 == 0 && (y % 100 != 0 || y % 400 == 0)
  }

  function MonthLength(y: int, m: int): nat {
    if m == 2 then (if Leap(y) then 29 else 28)
    else if m == 4 || m == 6 || m == 9 || m == 11 then 30
    else 31
  }

  predicate Valid(t: Date) {
    1 <= t.month <= 12 && 1 <= t.day <= MonthLength(t.year, t.month)
  }

  /** The calendar's own rule for the day after. */
  function NextDay(t: Date): Date {
    if t.day < MonthLength(t.year, t.month) then t.(day := t.day + 1)
    else if t.month < 12 then Date(t.year, t.month + 1, 1)
    else Date(t.year + 1, 1, 1)
  }

  /** A day of an era as a century, a cycle of four years, a year and a day. */
  datatype Place = Place(c: nat, q: nat, r: nat, doy: nat)

  predicate LongYear(c: nat, q: nat, r: nat) {
    r == 3 && (q < 24 || c == 3)
  }

  predicate Proper(p: Place) {
    p.c < 4 && p.q < 25 && p.r < 4 && p.doy < (if LongYear(p.c, p.q, p.r) then 366 else 365)
  }

  function DayOfEra(p: Place): nat {
    36_524 * p.c + 1461 * p.q + 365 * p.r + p.doy
  }

  function YearAt(p: Place): nat {
    100 * p.c + 4 * p.q + p.r
  }

  lemma Centuries(p: Place)
    requires Proper(p)
    ensures DayOfEra(p) < ERA_DAYS
    ensures DayOfEra(p) / 36_524 - DayOfEra(p) / 146_096 == p.c
  {
    var doe := DayOfEra(p);
    if p.c < 3 {
      assert 36_524 * p.c <= doe < 36_524 * (p.c + 1);
    }
  }

  lemma Cycles(p: Place) returns (e: nat)
    requires Proper(p)
    ensures DayOfEra(p) / 1460 == 25 * p.c + p.q + e
    ensures e <= p.doy < 365 + e
  {
    var doe := DayOfEra(p);
    var inner := 24 * p.c + p.q + 365 * p.r + p.doy;
    assert doe == 1460 * (25 * p.c + p.q) + inner;
    e := if inner >= 1460 then 1 else 0;
    assert inner < 2920;
  }

  /** The arithmetic finds the year and the day of any place in an era. */
  lemma FindsTheYear(p: Place)
    requires Proper(p)
    ensures DayOfEra(p) < ERA_DAYS
    ensures YearOfEra(DayOfEra(p)) == YearAt(p)
    ensures DayOfYear(DayOfEra(p)) == p.doy
  {
    var doe := DayOfEra(p);
    Centuries(p);
    var e := Cycles(p);
    var n := doe - doe / 1460 + doe / 36_524 - doe / 146_096;
    assert n == 365 * YearAt(p) + (p.doy - e);
    assert YearAt(p) / 4 == 25 * p.c + p.q;
    assert YearAt(p) / 100 == p.c;
  }

  /** Every day of an era has a place. */
  function PlaceOf(doe: nat): (p: Place)
    requires doe < ERA_DAYS
    ensures Proper(p) && DayOfEra(p) == doe
  {
    var c := if doe / 36_524 < 4 then doe / 36_524 else 3;
    var inCentury := doe - 36_524 * c;
    var q := inCentury / 1461;
    var inCycle := inCentury - 1461 * q;
    var r := if inCycle / 365 < 4 then inCycle / 365 else 3;
    Place(c, q, r, inCycle - 365 * r)
  }

  /** Days since 1970-01-01 to a date. */
  function Civil(days: nat): Date {
    var z := days + 719_468;
    var p := PlaceOf(z % ERA_DAYS);
    FindsTheYear(p);
    DateOf(z / ERA_DAYS, YearOfEra(z % ERA_DAYS), DayOfYear(z % ERA_DAYS))
  }

  /** The next place, with what it adds to the era. */
  function Following(p: Place): (Place, nat)
    requires Proper(p)
  {
    if p.doy + 1 < (if LongYear(p.c, p.q, p.r) then 366 else 365) then (p.(doy := p.doy + 1), 0)
    else if p.r < 3 then (Place(p.c, p.q, p.r + 1, 0), 0)
    else if p.q < 24 then (Place(p.c, p.q + 1, 0, 0), 0)
    else if p.c < 3 then (Place(p.c + 1, 0, 0, 0), 0)
    else (Place(0, 0, 0, 0), 1)
  }

  lemma FollowingFollows(p: Place)
    requires Proper(p)
    ensures Proper(Following(p).0)
    ensures DayOfEra(Following(p).0) + ERA_DAYS * Following(p).1 == DayOfEra(p) + 1
    ensures Following(p).0.doy != 0 ==>
      Following(p).0.doy == p.doy + 1 && Following(p).1 == 0 && YearAt(Following(p).0) == YearAt(p)
    ensures Following(p).0.doy == 0 ==> YearAt(Following(p).0) + 400 * Following(p).1 == YearAt(p) + 1
  {
  }

  lemma Fourths(k: int, a: nat)
    requires a <= 4
    ensures (4 * k + a) % 4 == 0 <==> a == 0 || a == 4
  {
  }

  lemma Hundredths(k: int, a: nat)
    requires a <= 100
    ensures (100 * k + a) % 100 == 0 <==> a == 0 || a == 100
  {
  }

  lemma FourHundredths(k: int, a: nat)
    requires a <= 400
    ensures (400 * k + a) % 400 == 0 <==> a == 0 || a == 400
  {
  }

  /** The year that begins in March holds a 29 February when the next is leap. */
  lemma LongYearsAreLeap(era: int, p: Place)
    requires Proper(p)
    ensures Leap(400 * era + YearAt(p) + 1) <==> LongYear(p.c, p.q, p.r)
  {
    var y := 400 * era + YearAt(p) + 1;
    Fourths(100 * era + 25 * p.c + p.q, p.r + 1);
    Hundredths(4 * era + p.c, 4 * p.q + p.r + 1);
    FourHundredths(era, 100 * p.c + 4 * p.q + p.r + 1);
    assert y == 4 * (100 * era + 25 * p.c + p.q) + (p.r + 1);
    assert y == 100 * (4 * era + p.c) + (4 * p.q + p.r + 1);
  }

  /** Within a year the date moves on by the calendar's rule. */
  lemma WithinYear(era: int, p: Place)
    requires Proper(p) && Following(p).0.doy != 0
    ensures DateOf(era, YearAt(p), p.doy + 1) == NextDay(DateOf(era, YearAt(p), p.doy))
    ensures Valid(DateOf(era, YearAt(p), p.doy))
  {
    hide Leap;
    LongYearsAreLeap(era, p);
  }

  /** At the end of February the year turns. */
  lemma AcrossYears(era: int, p: Place)
    requires Proper(p) && Following(p).0.doy == 0
    ensures DateOf(era, YearAt(p) + 1, 0) == NextDay(DateOf(era, YearAt(p), p.doy))
    ensures Valid(DateOf(era, YearAt(p), p.doy))
  {
    hide Leap;
    LongYearsAreLeap(era, p);
  }

  lemma SplitDays(era: int, doe: int)
    requires 0 <= doe < ERA_DAYS
    ensures (ERA_DAYS * era + doe) / ERA_DAYS == era && (ERA_DAYS * era + doe) % ERA_DAYS == doe
  {
  }

  lemma CivilAt(days: nat, era: nat, p: Place)
    requires Proper(p) && DayOfEra(p) < ERA_DAYS
    requires days + 719_468 == ERA_DAYS * era + DayOfEra(p)
    ensures Civil(days) == DateOf(era, YearAt(p), p.doy)
  {
    hide DateOf, YearOfEra, DayOfYear, DayOfEra, YearAt, Proper;
    SplitDays(era, DayOfEra(p));
    FindsTheYear(p);
  }

  /** Each day's date is valid, and the next day's is the calendar's next. */
  lemma EachDayFollows(days: nat)
    ensures Valid(Civil(days))
    ensures Civil(days + 1) == NextDay(Civil(days))
  {
    hide DateOf, NextDay, Valid, YearOfEra, DayOfYear, DayOfEra, YearAt, Civil, Following, Proper;
    var z := days + 719_468;
    var era := z / ERA_DAYS;
    var p := PlaceOf(z % ERA_DAYS);
    var (p', turn) := Following(p);
    FollowingFollows(p);
    FindsTheYear(p');
    CivilAt(days, era, p);
    CivilAt(days + 1, era + turn, p');
    if p'.doy == 0 {
      AcrossYears(era, p);
      SameYear(era, turn, YearAt(p'), YearAt(p) + 1);
    } else {
      WithinYear(era, p);
    }
  }

  lemma SameYear(era: int, turn: int, a: int, b: int)
    requires a + 400 * turn == b
    ensures DateOf(era + turn, a, 0) == DateOf(era, b, 0)
  {
  }

  /** The date some days after another, a day at a time. */
  function After(t: Date, days: nat): Date {
    if days == 0 then t else NextDay(After(t, days - 1))
  }

  lemma {:induction false} DaysFollow(days: nat)
    ensures Civil(days) == After(Date(1970, 1, 1), days)
    ensures Valid(Civil(days))
  {
    hide NextDay, Valid, Civil;
    if days == 0 {
      EpochIsDayZero();
      EachDayFollows(0);
    } else {
      DaysFollow(days - 1);
      EachDayFollows(days - 1);
      EachDayFollows(days);
    }
  }

  lemma EpochIsDayZero()
    ensures Civil(0) == Date(1970, 1, 1)
  {
    var p := Place(3, 17, 1, 306);
    assert DayOfEra(p) == 719_468 % ERA_DAYS;
    FindsTheYear(p);
  }

  /** Any moment of a day has that day's date. */
  function DateAt(seconds: nat): Date {
    Civil(seconds / DAY_SECONDS)
  }

  /** The date of a moment is the epoch's date moved on by the calendar's rule,
      once for each whole day since, and a valid one. */
  lemma DatesFollowTheCalendar(seconds: nat)
    ensures DateAt(seconds) == After(Date(1970, 1, 1), seconds / DAY_SECONDS)
    ensures Valid(DateAt(seconds))
  {
    hide Civil, After, Valid;
    DaysFollow(seconds / DAY_SECONDS);
  }
}
