/** Repeat cadences over the Gregorian calendar: what one step does, and what many steps add up to. */
module Calendar {
  import opened Common

  /** A wall-clock instant; `time` is the time of day in ticks. */
  datatype DateTime = DateTime(year: int, month: int, day: int, time: int)

  predicate Leap(year: int) { year % 4 == 0 && (year % 100 != 0 || year % 400 == 0) }

  function DaysIn(year: int, month: int): (n: int)
    ensures 28 <= n <= 31
  {
    if month == 2 then if Leap(year) then 29 else 28
    else if month == 4 || month == 6 || month == 9 || month == 11 then 30 else 31
  }

  predicate Valid(v: DateTime) { 1 <= v.month <= 12 && 1 <= v.day <= DaysIn(v.year, v.month) }

  predicate DateBefore(a: DateTime, b: DateTime) {
    a.year < b.year || (a.year == b.year && (a.month < b.month || (a.month == b.month && a.day < b.day)))
  }

  predicate SameDate(a: DateTime, b: DateTime) { a.year == b.year && a.month == b.month && a.day == b.day }

  predicate Before(a: DateTime, b: DateTime) { DateBefore(a, b) || (SameDate(a, b) && a.time < b.time) }

  predicate NotAfter(a: DateTime, b: DateTime) { Before(a, b) || a == b }

  // ----- days -----

  function NextDay(v: DateTime): (r: DateTime)
    requires Valid(v)
    ensures Valid(r) && DateBefore(v, r) && r.time == v.time
  {
    if v.day < DaysIn(v.year, v.month) then v.(day := v.day + 1)
    else if v.month < 12 then v.(month := v.month + 1, day := 1)
    else v.(year := v.year + 1, month := 1, day := 1)
  }

  function AddDays(v: DateTime, n: nat): (r: DateTime)
    requires Valid(v)
    ensures Valid(r) && r.time == v.time
    decreases n
  {
    if n == 0 then v else AddDays(NextDay(v), n - 1)
  }

  // ----- months -----

  function MonthIndex(v: DateTime): int { 12 * v.year + v.month - 1 }

  function Length(index: int): (n: int)
    ensures 28 <= n <= 31
  {
    DaysIn(index / 12, index % 12 + 1)
  }

  function AddMonths(v: DateTime, n: nat): (r: DateTime)
    requires Valid(v)
    ensures Valid(r) && r.time == v.time
  {
    var index := v.month - 1 + n;
    var year, month := v.year + index / 12, index % 12 + 1;
    DateTime(year, month, Min(v.day, DaysIn(year, month)), v.time)
  }

  // ----- cadences -----

  datatype Unit = Day | Week | Month
  datatype Cadence = Cadence(unit: Unit, interval: nat)

  predicate ValidCadence(c: Cadence) { c.interval >= 1 }

  function NextAfter(c: Cadence, v: DateTime): (r: DateTime)
    requires Valid(v)
    ensures Valid(r) && r.time == v.time
  {
    match c.unit
    case Day => AddDays(v, c.interval)
    case Week => AddDays(v, 7 * c.interval)
    case Month => AddMonths(v, c.interval)
  }

  function Iterate(c: Cadence, v: DateTime, k: nat): (r: DateTime)
    requires Valid(v)
    ensures Valid(r) && r.time == v.time
    decreases k
  {
    if k == 0 then v else NextAfter(c, Iterate(c, v, k - 1))
  }

  // ----- one step -----

  /** A month step advances the month index by exactly the interval and keeps the day if it can. */
  lemma MonthStep(v: DateTime, n: nat)
    requires Valid(v)
    ensures MonthIndex(AddMonths(v, n)) == MonthIndex(v) + n
    ensures AddMonths(v, n).day == Min(v.day, Length(MonthIndex(v) + n))
  {
    var index := v.month - 1 + n;
    var total := MonthIndex(v) + n;
    assert total == 12 * (v.year + index / 12) + index % 12;
    assert total / 12 == v.year + index / 12 && total % 12 == index % 12;
  }

  lemma IndexOrders(a: DateTime, b: DateTime)
    requires Valid(a) && Valid(b)
    ensures MonthIndex(a) < MonthIndex(b) ==> DateBefore(a, b)
    ensures MonthIndex(a) == MonthIndex(b) ==> a.year == b.year && a.month == b.month
    ensures DateBefore(a, b) <==> MonthIndex(a) < MonthIndex(b) || (MonthIndex(a) == MonthIndex(b) && a.day < b.day)
  {}

  lemma BeforeIsTransitive(a: DateTime, b: DateTime, c: DateTime)
    requires DateBefore(a, b) && DateBefore(b, c)
    ensures DateBefore(a, c)
  {}

  lemma {:induction false} DaysAreLater(v: DateTime, n: nat)
    requires Valid(v) && n >= 1
    ensures DateBefore(v, AddDays(v, n))
    decreases n
  {
    if n > 1 {
      DaysAreLater(NextDay(v), n - 1);
      BeforeIsTransitive(v, NextDay(v), AddDays(NextDay(v), n - 1));
    }
  }

  /** Every step is strictly later, by at least a day. */
  lemma StepIsLater(c: Cadence, v: DateTime)
    requires ValidCadence(c) && Valid(v)
    ensures DateBefore(v, NextAfter(c, v)) && Before(v, NextAfter(c, v))
  {
    match c.unit
    case Day => DaysAreLater(v, c.interval);
    case Week => DaysAreLater(v, 7 * c.interval);
    case Month =>
      MonthStep(v, c.interval);
      IndexOrders(v, NextAfter(c, v));
  }

  lemma NextDayIsMonotone(a: DateTime, b: DateTime)
    requires Valid(a) && Valid(b)
    ensures DateBefore(a, b) ==> DateBefore(NextDay(a), NextDay(b))
    ensures SameDate(a, b) ==> SameDate(NextDay(a), NextDay(b))
  {}

  lemma {:induction false} DaysAreMonotone(a: DateTime, b: DateTime, n: nat)
    requires Valid(a) && Valid(b)
    ensures DateBefore(a, b) ==> DateBefore(AddDays(a, n), AddDays(b, n))
    ensures SameDate(a, b) ==> SameDate(AddDays(a, n), AddDays(b, n))
    decreases n
  {
    if n > 0 {
      NextDayIsMonotone(a, b);
      DaysAreMonotone(NextDay(a), NextDay(b), n - 1);
    }
  }

  /** Two instants of one month whose days both overshoot the target month, the later day at the earlier time of day. */
  predicate Swaps(c: Cadence, a: DateTime, b: DateTime) {
    && c.unit == Month && a.year == b.year && a.month == b.month && a.day < b.day
    && Length(MonthIndex(a) + c.interval) <= a.day && a.time > b.time
  }

  /** A step keeps the order of two instants exactly unless they are such a pair. */
  lemma StepIsMonotoneIff(c: Cadence, a: DateTime, b: DateTime)
    requires Valid(a) && Valid(b) && NotAfter(a, b)
    ensures NotAfter(NextAfter(c, a), NextAfter(c, b)) <==> !Swaps(c, a, b)
  {
    match c.unit
    case Day => DaysAreMonotone(a, b, c.interval);
    case Week => DaysAreMonotone(a, b, 7 * c.interval);
    case Month =>
      MonthStep(a, c.interval);
      MonthStep(b, c.interval);
      IndexOrders(a, b);
      IndexOrders(NextAfter(c, a), NextAfter(c, b));
  }

  /** 30 January 23:00 is before 31 January 01:00, but a month later the order is reversed. */
  lemma MonotonicityFails(year: int)
    ensures var a, b, c := DateTime(year, 1, 30, 23), DateTime(year, 1, 31, 1), Cadence(Month, 1);
            Before(a, b) && Before(NextAfter(c, b), NextAfter(c, a))
  {
    var a, b := DateTime(year, 1, 30, 23), DateTime(year, 1, 31, 1);
    MonthStep(a, 1);
    MonthStep(b, 1);
  }

  /** Dates, and instants at one time of day, always keep their order. */
  lemma DatesAreMonotone(c: Cadence, a: DateTime, b: DateTime)
    requires Valid(a) && Valid(b) && NotAfter(a, b)
    ensures !DateBefore(NextAfter(c, b), NextAfter(c, a))
    ensures a.time <= b.time ==> NotAfter(NextAfter(c, a), NextAfter(c, b))
  {
    StepIsMonotoneIff(c, a.(time := 0), b.(time := 0));
    StepIsMonotoneIff(c, a, b);
    TimeDoesNotMatter(c, a);
    TimeDoesNotMatter(c, b);
  }

  lemma {:induction false} TimeOfDays(v: DateTime, n: nat, t: int)
    requires Valid(v)
    ensures AddDays(v.(time := t), n) == AddDays(v, n).(time := t)
    decreases n
  {
    if n > 0 { TimeOfDays(NextDay(v), n - 1, t); }
  }

  lemma TimeDoesNotMatter(c: Cadence, v: DateTime)
    requires Valid(v)
    ensures SameDate(NextAfter(c, v.(time := 0)), NextAfter(c, v))
  {
    match c.unit
    case Day => TimeOfDays(v, c.interval, 0);
    case Week => TimeOfDays(v, 7 * c.interval, 0);
    case Month =>
  }

  // ----- many steps -----

  lemma {:induction false} DaysAdd(v: DateTime, m: nat, n: nat)
    requires Valid(v)
    ensures AddDays(AddDays(v, m), n) == AddDays(v, m + n)
    decreases m
  {
    if m > 0 { DaysAdd(NextDay(v), m - 1, n); }
  }

  /** `k` day or week steps are one step of `k` times the interval. */
  lemma {:induction false} DayStepsCompose(c: Cadence, v: DateTime, k: nat)
    requires Valid(v) && c.unit != Month
    ensures Iterate(c, v, k) == NextAfter(c.(interval := k * c.interval), v)
  {
    if k > 0 {
      DayStepsCompose(c, v, k - 1);
      assert k * c.interval == (k - 1) * c.interval + c.interval;
      if c.unit == Day {
        DaysAdd(v, (k - 1) * c.interval, c.interval);
      } else {
        assert 7 * (k * c.interval) == 7 * ((k - 1) * c.interval) + 7 * c.interval;
        DaysAdd(v, 7 * ((k - 1) * c.interval), 7 * c.interval);
      }
    }
  }

  /** The least of a day and the lengths of the months visited by `k` steps. */
  function LeastVisited(day: int, index: int, interval: nat, k: nat): int {
    if k == 0 then day else Min(LeastVisited(day, index, interval, k - 1), Length(index + k * interval))
  }

  /** After `k` month steps: the month index has advanced by `k` intervals, and the day is the least of
      the starting day and the lengths of all months visited. */
  lemma {:induction false} MonthSteps(c: Cadence, v: DateTime, k: nat)
    requires Valid(v) && c.unit == Month
    ensures MonthIndex(Iterate(c, v, k)) == MonthIndex(v) + k * c.interval
    ensures Iterate(c, v, k).day == LeastVisited(v.day, MonthIndex(v), c.interval, k)
  {
    if k > 0 {
      hide AddMonths, MonthIndex, Length;
      MonthSteps(c, v, k - 1);
      var before, index := Iterate(c, v, k - 1), MonthIndex(v);
      assert Iterate(c, v, k) == AddMonths(before, c.interval);
      assert LeastVisited(v.day, index, c.interval, k)
             == Min(LeastVisited(v.day, index, c.interval, k - 1), Length(index + k * c.interval));
      hide Iterate, LeastVisited;
      MonthStep(before, c.interval);
      NextMultiple(k, c.interval);
    }
  }

  lemma NextMultiple(k: nat, interval: nat)
    requires k > 0
    ensures k * interval == (k - 1) * interval + interval
  {}

  lemma SameIndexSameDate(a: DateTime, b: DateTime)
    requires Valid(a) && Valid(b) && MonthIndex(a) == MonthIndex(b) && a.day == b.day && a.time == b.time
    ensures a == b
  {
    IndexOrders(a, b);
  }

  lemma ReachesIff(c: Cadence, v: DateTime, end: DateTime, n: nat, least: int)
    requires Valid(v) && Valid(end) && c.unit == Month && end.time == v.time && MonthIndex(end) == MonthIndex(v) + n
    requires end.day == Min(least, Length(MonthIndex(v) + n)) && least <= v.day
    ensures end == NextAfter(c.(interval := n), v) <==> least >= Min(v.day, Length(MonthIndex(v) + n))
  {
    MonthStep(v, n);
    if end.day == NextAfter(c.(interval := n), v).day { SameIndexSameDate(end, NextAfter(c.(interval := n), v)); }
  }

  /** `k` month steps are one step of `k` intervals exactly when no month visited on the way is too short
      for the day that the one step reaches. */
  lemma MonthStepsComposeIff(c: Cadence, v: DateTime, k: nat)
    requires Valid(v) && c.unit == Month && k >= 1
    ensures Iterate(c, v, k) == NextAfter(c.(interval := k * c.interval), v)
       <==> LeastVisited(v.day, MonthIndex(v), c.interval, k - 1) >= Min(v.day, Length(MonthIndex(v) + k * c.interval))
  {
    hide Iterate, NextAfter, AddMonths, MonthIndex, Length;
    MonthSteps(c, v, k);
    LeastIsBelowDay(v.day, MonthIndex(v), c.interval, k - 1);
    ReachesIff(c, v, Iterate(c, v, k), k * c.interval, LeastVisited(v.day, MonthIndex(v), c.interval, k - 1));
  }

  lemma {:induction false} LeastIsBelowDay(day: int, index: int, interval: nat, k: nat)
    ensures LeastVisited(day, index, interval, k) <= day
    ensures day <= 28 ==> LeastVisited(day, index, interval, k) == day
  {
    if k > 0 { LeastIsBelowDay(day, index, interval, k - 1); }
  }

  /** Up to day 28 they always are. */
  lemma MonthStepsCompose(c: Cadence, v: DateTime, k: nat)
    requires Valid(v) && c.unit == Month && v.day <= 28
    ensures Iterate(c, v, k) == NextAfter(c.(interval := k * c.interval), v)
    ensures Iterate(c, v, k).day == v.day
  {
    hide Iterate, AddMonths, MonthIndex, Length, LeastVisited;
    MonthSteps(c, v, k);
    MonthStep(v, k * c.interval);
    LeastIsBelowDay(v.day, MonthIndex(v), c.interval, k);
    SameIndexSameDate(Iterate(c, v, k), AddMonths(v, k * c.interval));
  }

  // ----- counting days -----

  /** The leap years from year 1 to year `y`. */
  ghost function LeapsUpTo(y: int): int { y / 4 - y / 100 + y / 400 }

  /** The days of a common year before a month. */
  ghost function DaysBefore(month: int): int {
    if month <= 1 then 0 else if month == 2 then 31 else if month == 3 then 59 else if month == 4 then 90
    else if month == 5 then 120 else if month == 6 then 151 else if month == 7 then 181 else if month == 8 then 212
    else if month == 9 then 243 else if month == 10 then 273 else if month == 11 then 304
    else if month == 12 then 334 else 365
  }

  /** The number of a day, in closed form: the first of January of year 1 is day 1. */
  ghost function DayNumber(v: DateTime): int {
    var y := v.year - 1;
    365 * y + LeapsUpTo(y) + DaysBefore(v.month) + v.day
    + if v.month > 2 then LeapsUpTo(v.year) - LeapsUpTo(y) else 0
  }

  /** One step from a multiple of `k` to the next. */
  lemma QuotientSteps(y: int, k: int)
    requires k >= 2
    ensures y / k - (y - 1) / k == if y % k == 0 then 1 else 0
  {
    var q, r := y / k, y % k;
    assert y == q * k + r;
    if r == 0 {
      assert y - 1 == (q - 1) * k + (k - 1);
      QuotientIs(y - 1, q - 1, k - 1, k);
    } else {
      QuotientIs(y - 1, q, r - 1, k);
    }
  }

  lemma QuotientIs(x: int, q: int, r: int, k: int)
    requires k >= 1 && 0 <= r < k && x == q * k + r
    ensures x / k == q
  {
    DivisionIsUnique(k, x / k, x % k, q, r);
  }

  lemma LeapStep(year: int)
    ensures LeapsUpTo(year) - LeapsUpTo(year - 1) == if Leap(year) then 1 else 0
  {
    QuotientSteps(year, 4);
    QuotientSteps(year, 100);
    QuotientSteps(year, 400);
    assert year % 400 == 0 ==> year % 100 == 0 by { Divides(year, 100, 4); }
    assert year % 100 == 0 ==> year % 4 == 0 by { Divides(year, 4, 25); }
  }

  lemma Divides(y: int, a: int, b: int)
    requires a >= 1 && b >= 1
    ensures a * b >= 1 && (y % (a * b) == 0 ==> y % a == 0)
  {
    assert a * b >= 1 by { assert a * b == a + a * (b - 1); assert a * (b - 1) >= 0; }
    if y % (a * b) == 0 {
      var q := y / (a * b);
      assert y == q * (a * b) == (q * b) * a + 0;
      QuotientIs(y, q * b, 0, a);
    }
  }

  /** The next day has the next number. */
  lemma NextDayCounts(v: DateTime)
    requires Valid(v)
    ensures DayNumber(NextDay(v)) == DayNumber(v) + 1
  {
    LeapStep(v.year);
    hide LeapsUpTo;
  }

  lemma {:induction false} DaysCount(v: DateTime, n: nat)
    requires Valid(v)
    ensures DayNumber(AddDays(v, n)) == DayNumber(v) + n
    decreases n
  {
    if n > 0 {
      NextDayCounts(v);
      hide DayNumber, NextDay;
      DaysCount(NextDay(v), n - 1);
    }
  }

  /** A step of a day cadence moves the number of the day on by its interval, a step of a week cadence by seven times
      its interval. */
  lemma StepCounts(c: Cadence, v: DateTime)
    requires Valid(v) && (c.unit == Day || c.unit == Week)
    ensures DayNumber(NextAfter(c, v)) == DayNumber(v) + if c.unit == Day then c.interval else c.interval * 7
  {
    hide DayNumber, AddDays;
    DaysCount(v, if c.unit == Day then c.interval else 7 * c.interval);
  }

  lemma WithinYear(v: DateTime)
    requires Valid(v)
    ensures 365 * (v.year - 1) + LeapsUpTo(v.year - 1) < DayNumber(v) <= 365 * v.year + LeapsUpTo(v.year)
  {
    LeapStep(v.year);
    hide LeapsUpTo;
  }

  lemma WithinMonth(v: DateTime)
    requires Valid(v)
    ensures var first := DayNumber(v.(day := 1));
            && DayNumber(v) == first + v.day - 1
            && (v.month < 12 ==> DayNumber(v.(month := v.month + 1, day := 1)) == first + DaysIn(v.year, v.month))
  {
    LeapStep(v.year);
    hide LeapsUpTo;
  }

  lemma {:induction false} MonthsOrder(year: int, m: int, n: int, time: int)
    requires 1 <= m < n <= 12
    ensures DayNumber(DateTime(year, m, 1, time)) + DaysIn(year, m) <= DayNumber(DateTime(year, n, 1, time))
    decreases n - m
  {
    WithinMonth(DateTime(year, m, 1, time));
    hide DayNumber, DaysIn;
    if m + 1 < n {
      MonthsOrder(year, m + 1, n, time);
    }
  }

  lemma TimeIsNotCounted(v: DateTime, time: int)
    ensures DayNumber(v.(time := time)) == DayNumber(v)
  {}

  /** Different dates have different numbers, in the order of the dates. */
  lemma NumbersOrder(a: DateTime, b: DateTime)
    requires Valid(a) && Valid(b) && DateBefore(a, b)
    ensures DayNumber(a) < DayNumber(b)
  {
    if a.year < b.year {
      WithinYear(a);
      WithinYear(b);
      LeapsGrow(a.year, b.year - 1);
    } else {
      WithinMonth(a);
      WithinMonth(b);
      TimeIsNotCounted(b.(day := 1), a.time);
      if a.month < b.month { MonthsOrder(a.year, a.month, b.month, a.time); }
    }
    hide DayNumber, LeapsUpTo, DaysIn;
  }

  lemma {:induction false} LeapsGrow(y: int, z: int)
    requires y <= z
    ensures LeapsUpTo(y) <= LeapsUpTo(z)
    decreases z - y
  {
    if y < z {
      LeapStep(z);
      LeapsGrow(y, z - 1);
    }
  }

  /** A week step of interval `n` is `7 * n` steps of one day. */
  lemma WeekIsSevenDays(v: DateTime, n: nat)
    requires Valid(v)
    ensures NextAfter(Cadence(Week, n), v) == Iterate(Cadence(Day, 1), v, n * 7)
  {
    SingleDays(v, n * 7);
    hide AddDays, Iterate;
  }

  lemma {:induction false} SingleDays(v: DateTime, k: nat)
    requires Valid(v)
    ensures Iterate(Cadence(Day, 1), v, k) == AddDays(v, k)
    decreases k
  {
    if k > 0 {
      SingleDays(v, k - 1);
      DaysAdd(v, k - 1, 1);
    }
  }
}
