/**
 Dates and wall clocks as the serializer takes them apart and the reader puts them together again.

 The calendar is the proleptic Gregorian one, over all years, negative ones included. `DayNumber` is the definition,
 counting days from 1970-01-01; `DateOf` is the decomposition in cycles of 400, 100, 4 and 1 years.
 */
module Calendar {
  datatype Date = Date(year: int, month: int, day: int)

  /** A wall clock; `micros` is the second of the minute with its fraction, in microseconds. */
  datatype Clock = Clock(date: Date, hour: int, minute: int, micros: int)

  const MILLIS_PER_DAY := 86_400_000
  const MICROS_PER_DAY := 86_400_000_000
  const MICROS_PER_HOUR := 3_600_000_000
  const MICROS_PER_MINUTE := 60_000_000

  /** 1970-01-01, counted from 0001-01-01. */
  const EPOCH_DAY := 719_162

  predicate IsLeap(y: int) {
    y % 4 == 0 && (y % 100 != 0 || y % 400 == 0)
  }

  function DaysInMonth(y: int, m: int): int
    requires 1 <= m <= 12
  {
    if m == 2 then if IsLeap(y) then 29 else 28
    else if m == 4 || m == 6 || m == 9 || m == 11 then 30
    else 31
  }

  /** Days from 0001-01-01 to the first day of year `y`. */
  function DaysBeforeYear(y: int): int {
    365 * (y - 1) + (y - 1) / 4 - (y - 1) / 100 + (y - 1) / 400
  }

  function DaysBeforeMonth(y: int, m: int): int
    requires 1 <= m <= 13
  {
    if m == 1 then 0 else DaysBeforeMonth(y, m - 1) + DaysInMonth(y, m - 1)
  }

  predicate ValidDate(d: Date) {
    1 <= d.month <= 12 && 1 <= d.day <= DaysInMonth(d.year, d.month)
  }

  function DayNumber(d: Date): int
    requires 1 <= d.month <= 12
  {
    DaysBeforeYear(d.year) + DaysBeforeMonth(d.year, d.month) + d.day - 1 - EPOCH_DAY
  }

  function Least(a: int, b: int): int {
    if a < b then a else b
  }

  /** The year that holds day `n` counted from 0001-01-01. */
  function YearOf(n: int): int {
    var r400 := n % 146_097;
    var n100 := Least(r400 / 36_524, 3);
    var r100 := r400 - 36_524 * n100;
    var r4 := r100 % 1_461;
    400 * (n / 146_097) + 100 * n100 + 4 * (r100 / 1_461) + Least(r4 / 365, 3) + 1
  }

  function MonthFrom(y: int, r: int, m: int): (k: int)
    requires 1 <= m <= 12
    ensures m <= k <= 12
    decreases 12 - m
  {
    if m == 12 || r < DaysBeforeMonth(y, m + 1) then m else MonthFrom(y, r, m + 1)
  }

  function DateOf(day: int): Date {
    var n := day + EPOCH_DAY;
    var y := YearOf(n);
    var r := n - DaysBeforeYear(y);
    var m := MonthFrom(y, r, 1);
    Date(y, m, r - DaysBeforeMonth(y, m) + 1)
  }

  /* ---- the calendar is right ---- */

  lemma Step4(y: int)
    ensures y / 4 - (y - 1) / 4 == if y % 4 == 0 then 1 else 0
  {
  }

  lemma Step100(y: int)
    ensures y / 100 - (y - 1) / 100 == if y % 100 == 0 then 1 else 0
  {
  }

  lemma Step400(y: int)
    ensures y / 400 - (y - 1) / 400 == if y % 400 == 0 then 1 else 0
  {
  }

  lemma Multiples(y: int)
    ensures y % 400 == 0 ==> y % 100 == 0
    ensures y % 100 == 0 ==> y % 4 == 0
  {
    if y % 400 == 0 {
      Multiple100(4 * (y / 400));
    }
    if y % 100 == 0 {
      Multiple4(25 * (y / 100));
    }
  }

  lemma Multiple100(z: int)
    ensures (100 * z) % 100 == 0
  {
  }

  lemma Multiple4(z: int)
    ensures (4 * z) % 4 == 0
  {
  }

  lemma YearLength(y: int)
    ensures DaysBeforeYear(y + 1) - DaysBeforeYear(y) == if IsLeap(y) then 366 else 365
  {
    Step4(y);
    Step100(y);
    Step400(y);
    Multiples(y);
  }

  lemma {:induction false} YearsGrow(y: int, y': int)
    requires y < y'
    ensures DaysBeforeYear(y) + 365 <= DaysBeforeYear(y')
    decreases y' - y
  {
    YearLength(y' - 1);
    if y < y' - 1 {
      YearsGrow(y, y' - 1);
    }
  }

  lemma Shift4(c: int, z: int)
    ensures (400 * c + z) / 4 == 100 * c + z / 4
  {
  }

  lemma Shift100(c: int, z: int)
    ensures (400 * c + z) / 100 == 4 * c + z / 100
  {
  }

  lemma Shift400(c: int, z: int)
    ensures (400 * c + z) / 400 == c + z / 400
  {
  }

  /** A cycle of 400 years repeats the one before. */
  lemma Cycle(c: int, y: int)
    ensures DaysBeforeYear(400 * c + y) == 146_097 * c + DaysBeforeYear(y)
  {
    Shift4(c, y - 1);
    Shift100(c, y - 1);
    Shift400(c, y - 1);
    assert 400 * c + y - 1 == 400 * c + (y - 1);
  }

  /** Within one cycle: `a` centuries, `b` leap periods and `k` years from the beginning. */
  lemma InCycle(a: int, b: int, k: int)
    requires 0 <= a <= 3 && 0 <= b <= 24 && 0 <= k <= 3
    ensures DaysBeforeYear(100 * a + 4 * b + k + 1) == 36_524 * a + 1_461 * b + 365 * k
  {
  }

  lemma LeapRepeats(c: int, z: int)
    ensures IsLeap(400 * c + z) <==> IsLeap(z)
  {
    Shift4(c, z);
    Shift100(c, z);
    Shift400(c, z);
  }

  /** The fourth year of a leap period is a leap year, unless it ends one of the first three centuries. */
  lemma LeapInCycle(a: int, b: int, c: int)
    requires 0 <= a <= 3 && 0 <= b <= 24
    ensures IsLeap(400 * c + 100 * a + 4 * b + 4) <==> b < 24 || a == 3
  {
    LeapRepeats(c, 100 * a + 4 * b + 4);
    assert 400 * c + 100 * a + 4 * b + 4 == 400 * c + (100 * a + 4 * b + 4);
    assert IsLeap(100 * a + 4 * b + 4) <==> b < 24 || a == 3;
    hide IsLeap;
  }

  /** The parts of a day count: `r4` days into a leap period `b` of century `a`. */
  lemma Parts(r400: int, a: int, r100: int, b: int, r4: int)
    requires 0 <= r400 < 146_097 && a == Least(r400 / 36_524, 3) && r100 == r400 - 36_524 * a
    requires b == r100 / 1_461 && r4 == r100 % 1_461
    ensures 0 <= a <= 3 && 0 <= b <= 24 && 0 <= r4 < 1_461
    ensures b == 24 && a < 3 ==> r4 < 1_460
  {
  }

  lemma YearFits(n: int)
    ensures DaysBeforeYear(YearOf(n)) <= n < DaysBeforeYear(YearOf(n) + 1)
  {
    hide DaysBeforeYear, IsLeap;
    var c, r400 := n / 146_097, n % 146_097;
    var a := Least(r400 / 36_524, 3);
    var r100 := r400 - 36_524 * a;
    var b := r100 / 1_461;
    var r4 := r100 % 1_461;
    var k := Least(r4 / 365, 3);
    var y := 100 * a + 4 * b + k + 1;
    Parts(r400, a, r100, b, r4);
    InCycle(a, b, k);
    Cycle(c, y);
    assert YearOf(n) == 400 * c + y;
    YearLength(400 * c + y);
    LeapInCycle(a, b, c);
    hide YearOf;
    assert n == 146_097 * c + 36_524 * a + 1_461 * b + r4;
    assert k < 3 ==> r4 < 365 * k + 365;
    assert k == 3 ==> 400 * c + y == 400 * c + 100 * a + 4 * b + 4;
  }

  lemma YearUnique(n: int, y: int)
    requires DaysBeforeYear(y) <= n < DaysBeforeYear(y + 1)
    ensures YearOf(n) == y
  {
    hide DaysBeforeYear, YearOf;
    YearFits(n);
    var z := YearOf(n);
    if z < y {
      if z + 1 < y {
        YearsGrow(z + 1, y);
      }
      assert false;
    } else if y < z {
      if y + 1 < z {
        YearsGrow(y + 1, z);
      }
      assert false;
    }
  }

  lemma YearMonths(y: int)
    ensures DaysBeforeMonth(y, 13) == if IsLeap(y) then 366 else 365
    ensures DaysBeforeMonth(y, 1) == 0
  {
    var feb := DaysInMonth(y, 2);
    assert DaysBeforeMonth(y, 2) == 31;
    assert DaysBeforeMonth(y, 3) == 31 + feb;
    assert DaysBeforeMonth(y, 4) == 62 + feb;
    assert DaysBeforeMonth(y, 5) == 92 + feb;
    assert DaysBeforeMonth(y, 6) == 123 + feb;
    assert DaysBeforeMonth(y, 7) == 153 + feb;
    assert DaysBeforeMonth(y, 8) == 184 + feb;
    assert DaysBeforeMonth(y, 9) == 215 + feb;
    assert DaysBeforeMonth(y, 10) == 245 + feb;
    assert DaysBeforeMonth(y, 11) == 276 + feb;
    assert DaysBeforeMonth(y, 12) == 306 + feb;
  }

  lemma {:induction false} MonthFits(y: int, r: int, m: int)
    requires 1 <= m <= 12 && DaysBeforeMonth(y, m) <= r < DaysBeforeMonth(y, 13)
    ensures var k := MonthFrom(y, r, m); DaysBeforeMonth(y, k) <= r < DaysBeforeMonth(y, k + 1)
    decreases 12 - m
  {
    if m < 12 && DaysBeforeMonth(y, m + 1) <= r {
      MonthFits(y, r, m + 1);
    }
  }

  lemma {:induction false} MonthUnique(y: int, r: int, m: int, k: int)
    requires 1 <= m <= k <= 12 && DaysBeforeMonth(y, k) <= r < DaysBeforeMonth(y, k + 1)
    ensures MonthFrom(y, r, m) == k
    decreases 12 - m
  {
    if m < k {
      MonthsGrow(y, m + 1, k);
      MonthUnique(y, r, m + 1, k);
    }
  }

  lemma {:induction false} MonthsGrow(y: int, m: int, k: int)
    requires 1 <= m <= k <= 13
    ensures DaysBeforeMonth(y, m) <= DaysBeforeMonth(y, k)
    decreases k - m
  {
    if m < k {
      MonthsGrow(y, m, k - 1);
    }
  }

  /** Splitting a day gives a date of the calendar, and its day number is that day. */
  lemma SplitThenCount(day: int)
    ensures ValidDate(DateOf(day)) && DayNumber(DateOf(day)) == day
  {
    hide DaysBeforeYear, YearOf, IsLeap;
    var n := day + EPOCH_DAY;
    var y := YearOf(n);
    YearFits(n);
    YearLength(y);
    YearMonths(y);
    MonthFits(y, n - DaysBeforeYear(y), 1);
  }

  /** Counting the days of a date and splitting them again gives the date back. */
  lemma CountThenSplit(d: Date)
    requires ValidDate(d)
    ensures DateOf(DayNumber(d)) == d
  {
    hide DaysBeforeYear, YearOf, IsLeap, DaysInMonth;
    var r := DaysBeforeMonth(d.year, d.month) + d.day - 1;
    YearLength(d.year);
    YearMonths(d.year);
    MonthsGrow(d.year, 1, d.month);
    MonthsGrow(d.year, d.month + 1, 13);
    YearUnique(DaysBeforeYear(d.year) + r, d.year);
    MonthUnique(d.year, r, 1, d.month);
  }

  /* ---- wall clocks ---- */

  /** The fields of a wall clock given in microseconds. */
  function ClockOf(us: int): Clock {
    var t := us % MICROS_PER_DAY;
    Clock(DateOf(us / MICROS_PER_DAY), t / MICROS_PER_HOUR, t % MICROS_PER_HOUR / MICROS_PER_MINUTE,
          t % MICROS_PER_MINUTE)
  }

  /** The instant at which a clock in UTC shows these fields. */
  function MakeTimestamp(c: Clock): int
    requires 1 <= c.date.month <= 12
  {
    DayNumber(c.date) * MICROS_PER_DAY + c.hour * MICROS_PER_HOUR + c.minute * MICROS_PER_MINUTE + c.micros
  }

  /** Epoch milliseconds of an instant, rounded towards the past. */
  function UnixMillis(us: int): int {
    us / 1000
  }

  function DateMillis(day: int): int {
    day * MILLIS_PER_DAY
  }

  /** What the serializer stores for a wall clock without a zone: its fields, taken to be UTC. */
  function NtzMillis(us: int): int {
    UnixMillis(MakeTimestamp(ClockOf(us)))
  }

  /** What the reader makes of epoch milliseconds. */
  function MillisToMicros(ms: int): int {
    1000 * ms
  }

  function MillisToDay(ms: int): int {
    MillisToMicros(ms) / MICROS_PER_DAY
  }

  lemma TimeOfDay(t: int)
    requires 0 <= t < MICROS_PER_DAY
    ensures t / MICROS_PER_HOUR * MICROS_PER_HOUR + t % MICROS_PER_HOUR / MICROS_PER_MINUTE * MICROS_PER_MINUTE +
            t % MICROS_PER_MINUTE == t
    ensures 0 <= t / MICROS_PER_HOUR < 24 && 0 <= t % MICROS_PER_HOUR / MICROS_PER_MINUTE < 60
  {
  }

  /** A clock taken apart shows real fields, and put together again it shows the same instant: before the epoch as
      well as after it. */
  lemma ClockRoundTrip(us: int)
    ensures var c := ClockOf(us);
      && ValidDate(c.date) && 0 <= c.hour < 24 && 0 <= c.minute < 60 && 0 <= c.micros < MICROS_PER_MINUTE
      && MakeTimestamp(c) == us
  {
    hide DateOf, DayNumber, ValidDate;
    SplitThenCount(us / MICROS_PER_DAY);
    TimeOfDay(us % MICROS_PER_DAY);
  }

  /** The stored milliseconds are the wall clock divided by a thousand and floored; read back, the clock has lost
      exactly its microseconds. */
  lemma NtzFloors(us: int)
    ensures NtzMillis(us) == us / 1000
    ensures MillisToMicros(NtzMillis(us)) == us - us % 1000
  {
    hide ClockOf, MakeTimestamp, ValidDate;
    ClockRoundTrip(us);
  }

  /** A date is read back as the same day. */
  lemma DateRoundTrip(day: int)
    ensures MillisToDay(DateMillis(day)) == day
  {
  }
}
