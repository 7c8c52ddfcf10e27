/**
 The proleptic Gregorian calendar behind Python's `datetime`: days are numbered by
 `toordinal` (day 1 is 1 January of year 1, a Monday) and months by one integer,
 twelve times the year plus the zero-based month of the year.
 */
module Calendar {

  predicate IsLeap(year: int) {
    year % 4 == 0 && (year % 100 != 0 || year % 400 == 0)
  }

  /** The month number of a (year, 1..12) pair. */
  function MonthIndex(year: int, month: int): int {
    12 * year + month - 1
  }

  function MonthInYear(m: int): (month: int)
    ensures 1 <= month <= 12 && MonthIndex(m / 12, month) == m
  {
    m % 12 + 1
  }

  lemma MonthIndexInverse(year: int, month: int)
    requires 1 <= month <= 12
    ensures MonthIndex(year, month) / 12 == year && MonthInYear(MonthIndex(year, month)) == month
  {
  }

  function DaysInMonth(m: int): (days: int)
    ensures 28 <= days <= 31
  {
    var month := MonthInYear(m);
    if month == 2 then (if IsLeap(m / 12) then 29 else 28)
    else if month in {4, 6, 9, 11} then 30
    else 31
  }

  function DaysBeforeYear(year: int): int {
    var past := year - 1;
    365 * past + past / 4 - past / 100 + past / 400
  }

  function DaysBeforeMonth(year: int, month: int): int {
    var common := if 1 <= month <= 12
                  then [0, 31, 59, 90, 120, 151, 181, 212, 243, 273, 304, 334][month - 1] else 0;
    if month > 2 && IsLeap(year) then common + 1 else common
  }

  lemma YearLength(year: int)
    ensures DaysBeforeYear(year + 1) == DaysBeforeYear(year) + (if IsLeap(year) then 366 else 365)
  {
    var p := year - 1;
    assert (p + 1) / 4 == p / 4 + (if year % 4 == 0 then 1 else 0);
    assert (p + 1) / 100 == p / 100 + (if year % 100 == 0 then 1 else 0);
    assert (p + 1) / 400 == p / 400 + (if year % 400 == 0 then 1 else 0);
    assert year % 400 == 0 ==> year % 100 == 0;
    assert year % 100 == 0 ==> year % 4 == 0;
  }

  function Ordinal(m: int): int {
    DaysBeforeYear(m / 12) + DaysBeforeMonth(m / 12, MonthInYear(m)) + 1
  }

  lemma OrdinalSteps(m: int)
    ensures Ordinal(m + 1) == Ordinal(m) + DaysInMonth(m)
  {
    YearLength(m / 12);
    if m % 12 == 11 {
      assert (m + 1) / 12 == m / 12 + 1 && (m + 1) % 12 == 0;
    } else {
      assert (m + 1) / 12 == m / 12 && (m + 1) % 12 == m % 12 + 1;
    }
  }

  /** A numbering of month starts by the lengths of the months. */
  ghost predicate CountsMonths(start: int -> int) {
    && start(12) == 1
    && forall m: int {:trigger DaysInMonth(m)} :: start(m + 1) == start(m) + DaysInMonth(m)
  }

  /** Month starts counted one month at a time from January of year 1. */
  function CountedStart(m: int): int
    decreases if m < 12 then 12 - m else m - 12
  {
    if m == 12 then 1
    else if m > 12 then CountedStart(m - 1) + DaysInMonth(m - 1)
    else CountedStart(m + 1) - DaysInMonth(m)
  }

  lemma CountingExists()
    ensures exists start :: CountsMonths(start)
  {
    assert CountsMonths(m => CountedStart(m));
  }

  /** The day number of the first day of a month, fixed by the lengths of the months. It is chosen rather
      than computed so that the solver reasons with `MonthStartSteps` and does not unroll the calendar. */
  ghost function MonthStart(m: int): int {
    CountingExists();
    var start :| CountsMonths(start);
    start(m)
  }

  lemma MonthStartSteps(m: int)
    ensures MonthStart(m + 1) == MonthStart(m) + DaysInMonth(m)
  {
  }

  /** The distance between counting and the closed form that `date.toordinal` uses. */
  ghost function Drift(m: int): int {
    MonthStart(m) - Ordinal(m)
  }

  lemma DriftIsSteady(m: int)
    ensures Drift(m + 1) == Drift(m)
  {
    MonthStartSteps(m);
    OrdinalSteps(m);
  }

  ghost predicate Steady(drift: int -> int) {
    forall j: int, k: int :: j + 1 == k ==> drift(j) == drift(k)
  }

  lemma {:induction false} SteadyIsConstant(drift: int -> int, m: int)
    requires Steady(drift)
    ensures drift(m) == drift(12)
    decreases if m < 12 then 12 - m else m - 12
  {
    if m > 12 {
      SteadyIsConstant(drift, m - 1);
    } else if m < 12 {
      SteadyIsConstant(drift, m + 1);
    }
  }

  lemma DriftIsConstant(m: int)
    ensures Drift(m) == Drift(12)
  {
    var drift := (k: int) => Drift(k);
    forall j: int, k: int | j + 1 == k
      ensures drift(j) == drift(k)
    {
      DriftIsSteady(j);
    }
    SteadyIsConstant(drift, m);
  }

  lemma NoDriftAtOrigin()
    ensures Drift(12) == 0
  {
  }

  /** Counting month by month gives exactly the day numbers of the closed form. */
  lemma MonthStartIsOrdinal(m: int)
    ensures MonthStart(m) == Ordinal(m)
  {
    DriftIsConstant(m);
    NoDriftAtOrigin();
  }

  lemma {:induction false} MonthStartGrows(a: int, b: int)
    requires a <= b
    ensures MonthStart(a) + 28 * (b - a) <= MonthStart(b) <= MonthStart(a) + 31 * (b - a)
    decreases b - a
  {
    if a < b {
      MonthStartGrows(a, b - 1);
      MonthStartSteps(b - 1);
    }
  }

  lemma MonthExists(n: int) returns (m: int)
    ensures MonthStart(m) <= n < MonthStart(m + 1)
  {
    m := if n >= 1 then 12 else 11 + n;
    if n < 1 { MonthStartGrows(m, 12); }
    while MonthStart(m + 1) <= n
      invariant MonthStart(m) <= n
      decreases n - MonthStart(m)
    {
      MonthStartSteps(m);
      m := m + 1;
    }
  }

  /** The month that day `n` falls in. */
  ghost function MonthOf(n: int): (m: int)
    ensures MonthStart(m) <= n < MonthStart(m + 1)
  {
    assert exists m :: MonthStart(m) <= n < MonthStart(m + 1) by { var m := MonthExists(n); }
    var m :| MonthStart(m) <= n < MonthStart(m + 1);
    m
  }

  lemma MonthOfUnique(n: int, m: int)
    requires MonthStart(m) <= n < MonthStart(m + 1)
    ensures MonthOf(n) == m
  {
    var r := MonthOf(n);
    if r < m { MonthStartGrows(r + 1, m); }
    if m < r { MonthStartGrows(m + 1, r); }
  }

  /** The day number of day `day` of month `m`. */
  ghost function DayNumber(m: int, day: int): int {
    MonthStart(m) + day - 1
  }

  ghost function DayOfMonth(n: int): (day: int)
    ensures 1 <= day <= 31 && DayNumber(MonthOf(n), day) == n
  {
    MonthStartSteps(MonthOf(n));
    n - MonthStart(MonthOf(n)) + 1
  }

  /** The month a day falls in, found by stepping forward; this is how a date gets its year and month. */
  method FindMonth(n: int) returns (m: int)
    ensures m == MonthOf(n)
  {
    m := if n >= 1 then 12 else 11 + n;
    MonthStartIsOrdinal(m);
    var start := Ordinal(m);
    assert start == MonthStart(m) <= n by { if n < 1 { MonthStartGrows(m, 12); } }
    while start + DaysInMonth(m) <= n
      invariant start == MonthStart(m) <= n
      decreases n - start
    {
      MonthStartSteps(m);
      start, m := start + DaysInMonth(m), m + 1;
    }
    MonthStartSteps(m);
    MonthOfUnique(n, m);
  }

  lemma DayNumberInverse(m: int, day: int)
    requires 1 <= day <= DaysInMonth(m)
    ensures MonthOf(DayNumber(m, day)) == m && DayOfMonth(DayNumber(m, day)) == day
  {
    MonthStartSteps(m);
    MonthOfUnique(DayNumber(m, day), m);
  }

  /** Python's `weekday`: Monday is 0. */
  function Weekday(n: int): (w: int)
    ensures 0 <= w < 7
  {
    (n + 6) % 7
  }
}
