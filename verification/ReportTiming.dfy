/**
 Report cadences: the next firing instant of a schedule in the depot's time zone and the
 calendar period a run reports on. Instants are microseconds; a local wall-clock value
 holds its date as a day number (`local / DAY`).
 */
module ReportTiming {
  import opened Common
  import opened Calendar

  const DAY: int := 86_400_000_000

  // ---------------------------------------------------------------- time zones

  /** A zone is two offset tables: by wall-clock value (fold=0) and by UTC instant. */
  datatype Zone = Zone(localOffset: int -> int, utcOffset: int -> int)

  function LocalToUtc(z: Zone, local: int): int {
    local - z.localOffset(local)
  }

  function UtcToLocal(z: Zone, utc: int): int {
    utc + z.utcOffset(utc)
  }

  function LocalDate(z: Zone, utc: int): int {
    UtcToLocal(z, utc) / DAY
  }

  /** The only thing Python guarantees of every zone: offsets stay strictly within a day. */
  ghost predicate ValidZone(z: Zone) {
    && (forall t: int :: -DAY < z.localOffset(t) < DAY)
    && (forall t: int :: -DAY < z.utcOffset(t) < DAY)
  }

  /** A wall-clock value keeps its date when it is taken to UTC and back. */
  ghost predicate KeepsDates(z: Zone) {
    forall local: int :: LocalDate(z, LocalToUtc(z, local)) == local / DAY
  }

  /** A wall-clock value on a date before the current local date has already passed. */
  ghost predicate PassesDates(z: Zone) {
    forall local: int, utc: int :: local / DAY < LocalDate(z, utc) ==> LocalToUtc(z, local) <= utc
  }

  ghost predicate DateCoherent(z: Zone) {
    ValidZone(z) && KeepsDates(z) && PassesDates(z)
  }

  function FixedZone(offset: int): Zone {
    Zone(t => offset, t => offset)
  }

  /** A zone whose offset changes once, at UTC instant `at`; fold=0 picks the earlier reading. */
  function ShiftZone(at: int, before: int, after: int): Zone {
    var turn := at + (if before < after then after else before);
    Zone(t => if t < turn then before else after, t => if t < at then before else after)
  }

  lemma FixedZonesAreCoherent(offset: int)
    requires -DAY < offset < DAY
    ensures DateCoherent(FixedZone(offset))
  {
  }

  /** Clocks that go back never break coherence: fold=0 names the earlier of two readings. */
  lemma ShiftBackIsCoherent(at: int, before: int, after: int)
    requires -DAY < after <= before < DAY
    ensures DateCoherent(ShiftZone(at, before, after))
  {
    var z := ShiftZone(at, before, after);
    forall local: int
      ensures LocalDate(z, LocalToUtc(z, local)) == local / DAY
    {
      assert UtcToLocal(z, LocalToUtc(z, local)) == local;
    }
    forall local: int, utc: int | local / DAY < LocalDate(z, utc)
      ensures LocalToUtc(z, local) <= utc
    {
      DatesAreMonotone(UtcToLocal(z, utc), local);
    }
  }

  /** Clocks that go forward are coherent exactly when the skipped stretch and the equally long
      stretch after it lie on one date. */
  lemma ShiftForwardIsCoherent(at: int, before: int, after: int)
    requires -DAY < before < after < DAY
    ensures DateCoherent(ShiftZone(at, before, after)) <==>
            (at + before) / DAY == (at + 2 * after - before - 1) / DAY
  {
    if (at + before) / DAY == (at + 2 * after - before - 1) / DAY {
      ShiftInsideDate(at, before, after);
    } else {
      ShiftAcrossMidnight(at, before, after);
    }
  }

  lemma ShiftInsideDate(at: int, before: int, after: int)
    requires -DAY < before < after < DAY
    requires (at + before) / DAY == (at + 2 * after - before - 1) / DAY
    ensures DateCoherent(ShiftZone(at, before, after))
  {
    var z := ShiftZone(at, before, after);
    forall local: int
      ensures LocalDate(z, LocalToUtc(z, local)) == local / DAY
    {
      if at + before <= local < at + after {
        SameDateBetween(at + before, local, at + 2 * after - before - 1);
        SameDateBetween(at + before, local + after - before, at + 2 * after - before - 1);
        assert UtcToLocal(z, LocalToUtc(z, local)) == local + after - before;
      } else {
        assert UtcToLocal(z, LocalToUtc(z, local)) == local;
      }
    }
    forall local: int, utc: int | local / DAY < LocalDate(z, utc)
      ensures LocalToUtc(z, local) <= utc
    {
      var back := UtcToLocal(z, LocalToUtc(z, local));
      assert back / DAY == local / DAY;
      DatesAreMonotone(UtcToLocal(z, utc), back);
    }
  }

  lemma ShiftAcrossMidnight(at: int, before: int, after: int)
    requires -DAY < before < after < DAY
    requires (at + before) / DAY != (at + 2 * after - before - 1) / DAY
    ensures !KeepsDates(ShiftZone(at, before, after))
  {
    var z := ShiftZone(at, before, after);
    var gap := after - before;
    var first := at + before;
    var midnight := (first + 2 * gap - 1) / DAY * DAY;
    var local := if midnight - gap < first then first else midnight - gap;
    assert local < midnight <= local + gap;
    assert UtcToLocal(z, LocalToUtc(z, local)) == local + gap;
    DateJump(local, midnight, local + gap);
    assert LocalDate(z, LocalToUtc(z, local)) != local / DAY;
  }

  lemma DateJump(a: int, midnight: int, b: int)
    requires midnight % DAY == 0 && a < midnight <= b
    ensures a / DAY < b / DAY
  {
  }

  lemma DatesAreMonotone(a: int, b: int)
    ensures a <= b ==> a / DAY <= b / DAY
  {
  }

  lemma SameDateBetween(a: int, x: int, b: int)
    requires a <= x <= b && a / DAY == b / DAY
    ensures x / DAY == a / DAY
  {
  }

  // ---------------------------------------------------------------- next firing

  datatype Error = NaiveClock | UnknownTimezone | UnknownFrequency | MissingDay | InvalidDay | BeyondHorizon
  datatype Frequency = Weekly | Monthly | Quarterly | Unknown

  /** The cadence columns of a schedule row, before any of them is checked. */
  datatype Cadence = Cadence(frequency: Frequency, dayOfMonth: Option<int>, dayOfWeek: Option<int>, time: int)

  /** The column checks of the `report_schedules` table. */
  predicate ValidCadence(c: Cadence) {
    && 0 <= c.time < DAY
    && match c.frequency {
         case Weekly => c.dayOfWeek.Some? && 0 <= c.dayOfWeek.value <= 6
         case Monthly => c.dayOfMonth.Some? && 1 <= c.dayOfMonth.value <= 28
         case Quarterly => c.dayOfMonth.Some? && 1 <= c.dayOfMonth.value <= 28
         case Unknown => false
       }
  }

  /** The UTC instant at which the wall clock shows `time` on day `date`. */
  function Firing(z: Zone, date: int, time: int): int {
    LocalToUtc(z, date * DAY + time)
  }

  /** Schedules number weekdays from Sunday, Python from Monday. */
  function SpecWeekday(dayOfWeek: int): int {
    (dayOfWeek - 1) % 7
  }

  function NextWeekly(z: Zone, now: int, dayOfWeek: int, time: int): int {
    var today := LocalDate(z, now);
    var ahead := (SpecWeekday(dayOfWeek) - Weekday(today)) % 7;
    var candidate := Firing(z, today + ahead, time);
    if candidate <= now then Firing(z, today + ahead + 7, time) else candidate
  }

  predicate MonthAllowed(m: int, quarterly: bool) {
    quarterly ==> MonthInYear(m) in {1, 4, 7, 10}
  }

  /** How many months the scan tries before it gives up. */
  function Horizon(): nat { 60 }

  /** The month scan: `steps` months from `m` on are tried, and an impossible day of month is an error. */
  ghost function ScanMonths(z: Zone, now: int, m: int, day: int, time: int, quarterly: bool, steps: nat)
    : Result<int, Error>
    decreases steps
  {
    if steps == 0 then Err(BeyondHorizon)
    else if MonthAllowed(m, quarterly) then
      if !(1 <= day <= DaysInMonth(m)) then Err(InvalidDay)
      else
        var candidate := Firing(z, DayNumber(m, day), time);
        if candidate > now then Ok(candidate)
        else ScanMonths(z, now, m + 1, day, time, quarterly, steps - 1)
    else ScanMonths(z, now, m + 1, day, time, quarterly, steps - 1)
  }

  ghost function ComputeNextRunAt(z: Zone, now: int, c: Cadence): Result<int, Error> {
    match c.frequency
    case Weekly =>
      if c.dayOfWeek.None? then Err(MissingDay)
      else Ok(NextWeekly(z, now, c.dayOfWeek.value, c.time))
    case Monthly =>
      if c.dayOfMonth.None? then Err(MissingDay)
      else ScanMonths(z, now, MonthOf(LocalDate(z, now)), c.dayOfMonth.value, c.time, false, Horizon())
    case Quarterly =>
      if c.dayOfMonth.None? then Err(MissingDay)
      else ScanMonths(z, now, MonthOf(LocalDate(z, now)), c.dayOfMonth.value, c.time, true, Horizon())
    case Unknown => Err(UnknownFrequency)
  }

  /** `datetime(year, month, day, ...)` in the zone, taken to UTC; the constructor refuses an impossible day. */
  method LocalizeToUtc(z: Zone, year: int, month: int, day: int, time: int) returns (r: Result<int, Error>)
    requires 1 <= month <= 12
    ensures var m := MonthIndex(year, month);
            r == if 1 <= day <= DaysInMonth(m) then Ok(Firing(z, DayNumber(m, day), time)) else Err(InvalidDay)
  {
    var m := MonthIndex(year, month);
    if !(1 <= day <= DaysInMonth(m)) {
      return Err(InvalidDay);
    }
    MonthStartIsOrdinal(m);
    return Ok(Firing(z, Ordinal(m) + day - 1, time));
  }

  /** The bounded loop over (year, month) pairs, rolling December over to January. */
  method NextByMonth(z: Zone, now: int, day: int, time: int, quarterly: bool, steps: nat)
    returns (r: Result<int, Error>)
    ensures r == ScanMonths(z, now, MonthOf(LocalDate(z, now)), day, time, quarterly, steps)
  {
    var here := FindMonth(LocalDate(z, now));
    var year, month := here / 12, MonthInYear(here);
    ghost var m := here;
    for i := 0 to steps
      invariant 1 <= month <= 12 && MonthIndex(year, month) == m
      invariant ScanMonths(z, now, here, day, time, quarterly, steps) ==
                ScanMonths(z, now, m, day, time, quarterly, steps - i)
    {
      MonthIndexInverse(year, month);
      if !quarterly || month in {1, 4, 7, 10} {
        r := LocalizeToUtc(z, year, month, day, time);
        if r.Err? || r.value > now {
          return;
        }
      }
      month := month + 1;
      if month > 12 {
        month, year := 1, year + 1;
      }
      m := m + 1;
    }
    return Err(BeyondHorizon);
  }

  /** A day on which the cadence fires, by its own calendar meaning. */
  ghost predicate FiresOn(c: Cadence, date: int)
    requires ValidCadence(c)
  {
    match c.frequency
    case Weekly => Weekday(date) == SpecWeekday(c.dayOfWeek.value)
    case _ => DayOfMonth(date) == c.dayOfMonth.value && MonthAllowed(MonthOf(date), c.frequency == Quarterly)
  }

  /** `compute_next_run_at`: the clock must be aware and the zone name known before the cadence is looked at. */
  method ComputeNextRun(tz: Option<Zone>, now: int, aware: bool, c: Cadence) returns (r: Result<int, Error>)
    ensures r == if !aware then Err(NaiveClock)
                 else if tz.None? then Err(UnknownTimezone)
                 else ComputeNextRunAt(tz.value, now, c)
  {
    if !aware {
      return Err(NaiveClock);
    }
    if tz.None? {
      return Err(UnknownTimezone);
    }
    match c.frequency {
      case Unknown => return Err(UnknownFrequency);
      case Weekly =>
        if c.dayOfWeek.None? { return Err(MissingDay); }
        return Ok(NextWeekly(tz.value, now, c.dayOfWeek.value, c.time));
      case _ =>
        if c.dayOfMonth.None? { return Err(MissingDay); }
        r := NextByMonth(tz.value, now, c.dayOfMonth.value, c.time, c.frequency == Quarterly, Horizon());
    }
  }

  lemma {:induction false} ScanFinds(z: Zone, now: int, m: int, day: int, time: int, quarterly: bool,
                                     steps: nat, some: int) returns (hit: int)
    requires 1 <= day <= 28 && m <= some < m + steps
    requires MonthAllowed(some, quarterly) && Firing(z, DayNumber(some, day), time) > now
    ensures m <= hit <= some && MonthAllowed(hit, quarterly)
    ensures ScanMonths(z, now, m, day, time, quarterly, steps) == Ok(Firing(z, DayNumber(hit, day), time))
    ensures Firing(z, DayNumber(hit, day), time) > now
    ensures forall k :: m <= k < hit && MonthAllowed(k, quarterly) ==> Firing(z, DayNumber(k, day), time) <= now
    decreases steps
  {
    if MonthAllowed(m, quarterly) && Firing(z, DayNumber(m, day), time) > now {
      hit := m;
    } else {
      hit := ScanFinds(z, now, m + 1, day, time, quarterly, steps - 1, some);
    }
  }

  /** Two months on, every firing lies in the future whatever the zone does. */
  lemma LaterMonthFires(z: Zone, now: int, m: int, day: int, time: int)
    requires ValidZone(z) && 0 <= time && 1 <= day
    requires MonthOf(LocalDate(z, now)) + 2 <= m
    ensures Firing(z, DayNumber(m, day), time) > now
  {
    var today := LocalDate(z, now);
    MonthStartGrows(MonthOf(today) + 1, m);
    FarDates(z, now, DayNumber(m, day), time);
  }

  lemma FarDates(z: Zone, now: int, date: int, time: int)
    requires ValidZone(z) && 0 <= time && LocalDate(z, now) + 3 <= date
    ensures Firing(z, date, time) > now
  {
    var local := UtcToLocal(z, now);
    assert local < (local / DAY + 1) * DAY;
    assert -DAY < z.utcOffset(now) < DAY;
    assert -DAY < z.localOffset(date * DAY + time) < DAY;
  }

  lemma NextQuarterMonth(m: int) returns (q: int)
    ensures m <= q <= m + 2 && MonthAllowed(q, true)
  {
    q := if m % 3 == 0 then m else if m % 3 == 1 then m + 2 else m + 1;
    assert q % 3 == 0;
    assert q % 12 in {0, 3, 6, 9};
  }

  /** The month that the scan of a valid monthly or quarterly cadence stops at. */
  lemma MonthlyFires(z: Zone, now: int, c: Cadence) returns (hit: int)
    requires ValidZone(z) && ValidCadence(c) && c.frequency != Weekly
    ensures MonthOf(LocalDate(z, now)) <= hit && MonthAllowed(hit, c.frequency == Quarterly)
    ensures ComputeNextRunAt(z, now, c) == Ok(Firing(z, DayNumber(hit, c.dayOfMonth.value), c.time))
    ensures Firing(z, DayNumber(hit, c.dayOfMonth.value), c.time) > now
    ensures forall k :: MonthOf(LocalDate(z, now)) <= k < hit && MonthAllowed(k, c.frequency == Quarterly) ==>
              Firing(z, DayNumber(k, c.dayOfMonth.value), c.time) <= now
  {
    var here := MonthOf(LocalDate(z, now));
    var some := NextQuarterMonth(here + 2);
    var day := c.dayOfMonth.value;
    LaterMonthFires(z, now, some, day, c.time);
    hit := ScanFinds(z, now, here, day, c.time, c.frequency == Quarterly, Horizon(), some);
  }

  /** Every valid cadence has a next firing: the horizon error cannot occur, and the result is
      strictly later than `now` and falls on a firing day of the calendar. */
  lemma NextRunIsLater(z: Zone, now: int, c: Cadence) returns (date: int)
    requires ValidZone(z) && ValidCadence(c)
    ensures ComputeNextRunAt(z, now, c) == Ok(Firing(z, date, c.time))
    ensures Firing(z, date, c.time) > now
    ensures FiresOn(c, date)
  {
    if c.frequency == Weekly {
      var today := LocalDate(z, now);
      var ahead := (SpecWeekday(c.dayOfWeek.value) - Weekday(today)) % 7;
      date := today + ahead;
      WeekdayAhead(today, SpecWeekday(c.dayOfWeek.value));
      if Firing(z, date, c.time) <= now {
        date := date + 7;
        FarDates(z, now, date, c.time);
      }
    } else {
      var hit := MonthlyFires(z, now, c);
      date := DayNumber(hit, c.dayOfMonth.value);
      DayNumberInverse(hit, c.dayOfMonth.value);
    }
  }

  /** What the columns of a cadence mean for a day number. Day 7 is a Sunday, and schedules number weekdays from
      Sunday; months are numbered so that quarters start at multiples of three. */
  lemma FiresOnMeans(c: Cadence, date: int)
    requires ValidCadence(c)
    ensures c.frequency == Weekly ==> (FiresOn(c, date) <==> date % 7 == c.dayOfWeek.value)
    ensures c.frequency != Weekly ==>
              (FiresOn(c, date) <==>
               && date == MonthStart(MonthOf(date)) + c.dayOfMonth.value - 1
               && (c.frequency == Quarterly ==> MonthOf(date) % 3 == 0))
  {
    if c.frequency == Quarterly { QuarterMonths(MonthOf(date)); }
  }

  /** The result of `compute_next_run_at` in plain numbers: later than `now`, at the wall-clock time of the
      schedule, on its weekday, or on its day of a month that starts a quarter if it has to. */
  lemma NextRunOnCalendar(z: Zone, now: int, c: Cadence) returns (date: int)
    requires ValidZone(z) && ValidCadence(c)
    ensures ComputeNextRunAt(z, now, c).Ok?
    ensures var r, local := ComputeNextRunAt(z, now, c).value, date * 86_400_000_000 + c.time;
            r > now && r == local - z.localOffset(local)
    ensures c.frequency == Weekly ==> date % 7 == c.dayOfWeek.value
    ensures c.frequency != Weekly ==> date == MonthStart(MonthOf(date)) + c.dayOfMonth.value - 1
    ensures c.frequency == Quarterly ==> MonthOf(date) % 3 == 0
  {
    date := NextRunIsLater(z, now, c);
    FiresOnMeans(c, date);
  }

  lemma WeekdayAhead(today: int, target: int)
    requires 0 <= target < 7
    ensures Weekday(today + (target - Weekday(today)) % 7) == target
  {
  }

  /** Same weekday means whole weeks apart. */
  lemma WholeWeeks(a: int, b: int)
    requires Weekday(a) == Weekday(b) && a < b
    ensures a + 7 <= b
  {
  }

  /** A firing at least three dates later is a later instant. */
  lemma LaterDateFiresLater(z: Zone, a: int, b: int, time: int)
    requires ValidZone(z) && a + 3 <= b
    ensures Firing(z, a, time) < Firing(z, b, time)
  {
    assert -DAY < z.localOffset(a * DAY + time) < DAY;
    assert -DAY < z.localOffset(b * DAY + time) < DAY;
  }

  /** In a date-coherent zone no firing is jumped over: the result is the least firing after `now`. */
  lemma NextRunIsLeast(z: Zone, now: int, c: Cadence, date: int)
    requires ValidZone(z) && PassesDates(z) && ValidCadence(c)
    requires FiresOn(c, date) && Firing(z, date, c.time) > now
    ensures ComputeNextRunAt(z, now, c).Ok?
    ensures ComputeNextRunAt(z, now, c).value <= Firing(z, date, c.time)
  {
    var today := LocalDate(z, now);
    assert (date * DAY + c.time) / DAY == date;
    assert today <= date;
    if c.frequency == Weekly {
      WeeklyIsLeast(z, now, c, date);
    } else {
      var hit := MonthlyFires(z, now, c);
      var day := c.dayOfMonth.value;
      var m := MonthOf(date);
      assert DayNumber(m, day) == date;
      if m < hit {
        MonthOrder(today, date);
        assert false;
      } else if hit < m {
        MonthStartGrows(hit, m);
        LaterDateFiresLater(z, DayNumber(hit, day), date, c.time);
      }
    }
  }

  lemma MonthOrder(a: int, b: int)
    requires a <= b
    ensures MonthOf(a) <= MonthOf(b)
  {
    if MonthOf(b) < MonthOf(a) {
      MonthStartGrows(MonthOf(b) + 1, MonthOf(a));
    }
  }

  lemma WeeklyIsLeast(z: Zone, now: int, c: Cadence, date: int)
    requires ValidZone(z) && ValidCadence(c) && c.frequency == Weekly
    requires FiresOn(c, date) && Firing(z, date, c.time) > now && LocalDate(z, now) <= date
    ensures ComputeNextRunAt(z, now, c) == Ok(NextWeekly(z, now, c.dayOfWeek.value, c.time))
    ensures NextWeekly(z, now, c.dayOfWeek.value, c.time) <= Firing(z, date, c.time)
  {
    var today := LocalDate(z, now);
    var target := SpecWeekday(c.dayOfWeek.value);
    var first := today + (target - Weekday(today)) % 7;
    WeekdayAhead(today, target);
    if date < first {
      WholeWeeks(date, first);
      assert false;
    }
    if first < date {
      WholeWeeks(first, date);
      LaterDateFiresLater(z, first, date, c.time);
      if first + 7 < date {
        assert Weekday(first + 7) == target;
        WholeWeeks(first + 7, date);
        LaterDateFiresLater(z, first + 7, date, c.time);
      }
    }
  }

  /** No firing after `now` precedes the computed one, for any valid cadence and any `now`. */
  ghost predicate NeverJumps(z: Zone) {
    forall c: Cadence, now: int, date: int ::
      ValidCadence(c) && FiresOn(c, date) && Firing(z, date, c.time) > now ==>
        ComputeNextRunAt(z, now, c).Ok? && ComputeNextRunAt(z, now, c).value <= Firing(z, date, c.time)
  }

  /** The zones in which the least firing is always found are exactly those that pass dates. */
  lemma NextRunIsLeastExactly(z: Zone)
    requires ValidZone(z)
    ensures NeverJumps(z) <==> PassesDates(z)
  {
    if PassesDates(z) {
      forall c: Cadence, now: int, date: int |
        ValidCadence(c) && FiresOn(c, date) && Firing(z, date, c.time) > now
        ensures ComputeNextRunAt(z, now, c).Ok?
        ensures ComputeNextRunAt(z, now, c).value <= Firing(z, date, c.time)
      {
        NextRunIsLeast(z, now, c, date);
      }
    } else {
      var local: int, utc: int :| local / DAY < LocalDate(z, utc) && LocalToUtc(z, local) > utc;
      LateDateIsJumped(z, utc, local);
    }
  }

  /** A wall-clock value that comes after `now` although its date is over is jumped over by the
      weekly cadence of its own weekday. */
  lemma LateDateIsJumped(z: Zone, now: int, local: int)
    requires ValidZone(z) && local / DAY < LocalDate(z, now) && LocalToUtc(z, local) > now
    ensures !NeverJumps(z)
  {
    var date := local / DAY;
    var dow := (Weekday(date) + 1) % 7;
    assert SpecWeekday(dow) == Weekday(date);
    var c := Cadence(Weekly, None, Some(dow), local % DAY);
    assert Firing(z, date, c.time) == LocalToUtc(z, local);
    assert FiresOn(c, date);
    var today := LocalDate(z, now);
    var first := today + (Weekday(date) - Weekday(today)) % 7;
    WeekdayAhead(today, Weekday(date));
    WholeWeeks(date, first);
    LaterDateFiresLater(z, date, first, c.time);
    LaterDateFiresLater(z, date, first + 7, c.time);
    assert ComputeNextRunAt(z, now, c).value > Firing(z, date, c.time);
  }

  // ---------------------------------------------------------------- report periods

  datatype Period = Period(first: int, last: int)

  ghost function LastDayOfMonth(year: int, month: int): int {
    DayOfMonth((if month == 12 then MonthStart(MonthIndex(year + 1, 1))
                else MonthStart(MonthIndex(year, month + 1))) - 1)
  }

  ghost function PreviousMonth(date: int): Period {
    var lastOfPrevious := MonthStart(MonthOf(date)) - 1;
    Period(MonthStart(MonthOf(lastOfPrevious)), lastOfPrevious)
  }

  ghost function PreviousQuarter(date: int): Period {
    var year, month := MonthOf(date) / 12, MonthInYear(MonthOf(date));
    var quarter := (month - 1) / 3;
    var prevYear, prevQuarter := if quarter == 0 then year - 1 else year, if quarter == 0 then 3 else quarter - 1;
    var startMonth := prevQuarter * 3 + 1;
    var endMonth := startMonth + 2;
    Period(DayNumber(MonthIndex(prevYear, startMonth), 1),
           DayNumber(MonthIndex(prevYear, endMonth), LastDayOfMonth(prevYear, endMonth)))
  }

  /** The days a run fired on local date `date` reports on. */
  ghost function ReportPeriod(frequency: Frequency, date: int): (r: Result<Period, Error>)
    ensures r.Ok? <==> frequency != Unknown
  {
    match frequency
    case Weekly => Ok(Period(date - 1 - 6, date - 1))
    case Monthly => Ok(PreviousMonth(date))
    case Quarterly => Ok(PreviousQuarter(date))
    case Unknown => Err(UnknownFrequency)
  }

  lemma PreviousMonthIsWhole(date: int)
    ensures PreviousMonth(date) == Period(MonthStart(MonthOf(date) - 1), MonthStart(MonthOf(date)) - 1)
  {
    var m := MonthOf(date);
    MonthStartSteps(m - 1);
    MonthOfUnique(MonthStart(m) - 1, m - 1);
  }

  lemma LastDayIsLast(m: int)
    ensures DayNumber(m, DayOfMonth(MonthStart(m + 1) - 1)) == MonthStart(m + 1) - 1
  {
    MonthStartSteps(m);
    MonthOfUnique(MonthStart(m + 1) - 1, m);
  }

  /** The months that the source's year and quarter arithmetic names: the first and the last of the quarter before. */
  lemma QuarterBefore(m: int)
    ensures var year, quarter := m / 12, (MonthInYear(m) - 1) / 3;
            var prevYear := if quarter == 0 then year - 1 else year;
            var prevQuarter := if quarter == 0 then 3 else quarter - 1;
            && MonthIndex(prevYear, prevQuarter * 3 + 1) == 3 * QuarterOf(m) - 3
            && MonthIndex(prevYear, prevQuarter * 3 + 3) == 3 * QuarterOf(m) - 1
            && (prevQuarter * 3 + 3 == 12 ==> MonthIndex(prevYear + 1, 1) == 3 * QuarterOf(m))
            && (prevQuarter * 3 + 3 != 12 ==> MonthIndex(prevYear, prevQuarter * 3 + 4) == 3 * QuarterOf(m))
  {
    QuarterInYear(m / 12, m % 12);
  }

  /** The three whole months before the quarter that `date` lies in, across year ends too. */
  lemma PreviousQuarterIsWhole(date: int)
    ensures var u := QuarterOf(MonthOf(date));
            PreviousQuarter(date) == Period(MonthStart(3 * u - 3), MonthStart(3 * u) - 1)
  {
    QuarterBefore(MonthOf(date));
    LastDayIsLast(3 * QuarterOf(MonthOf(date)) - 1);
  }

  /** Quarters are numbered like months: four to the year. */
  function QuarterOf(m: int): int {
    m / 3
  }

  lemma QuarterInYear(year: int, month: int)
    requires 0 <= month < 12
    ensures QuarterOf(12 * year + month) == 4 * year + month / 3
    ensures (12 * year + month) / 12 == year && (12 * year + month) % 12 == month
  {
  }

  lemma QuarterMonths(m: int)
    ensures MonthAllowed(m, true) <==> 3 * QuarterOf(m) == m
  {
    QuarterInYear(m / 12, m % 12);
    var month := m % 12;
    assert m == 12 * (m / 12) + month;
    assert month % 3 == 0 <==> month in {0, 3, 6, 9};
  }

  // ---------------------------------------------------------------- the chain of slots

  /** The instant a handled slot is advanced to; a failed computation leaves it where it is. */
  ghost function NextSlot(z: Zone, c: Cadence, slot: int): int {
    match ComputeNextRunAt(z, slot, c)
    case Ok(next) => next
    case Err(_) => slot
  }

  function Chain(next: int -> int, first: int, k: nat): int {
    if k == 0 then first else next(Chain(next, first, k - 1))
  }

  /** A chain of rising steps never repeats, so a slot names its place in the chain. */
  lemma {:induction false} ChainRises(next: int -> int, first: int, j: nat, k: nat)
    requires forall x: int :: x < next(x)
    requires j < k
    ensures Chain(next, first, j) < Chain(next, first, k)
    decreases k
  {
    if j < k - 1 {
      ChainRises(next, first, j, k - 1);
    }
  }

  /** The slots of a schedule: iterating the next firing. */
  ghost function Advance(z: Zone, c: Cadence): int -> int {
    slot => NextSlot(z, c, slot)
  }

  lemma AdvanceRises(z: Zone, c: Cadence)
    requires ValidZone(z) && ValidCadence(c)
    ensures forall x: int :: x < Advance(z, c)(x)
  {
    forall x: int
      ensures x < Advance(z, c)(x)
    {
      var date := NextRunIsLater(z, x, c);
    }
  }

  ghost function NextFiringDate(c: Cadence, date: int): int
    requires ValidCadence(c)
  {
    match c.frequency
    case Weekly => date + 7
    case Monthly => DayNumber(MonthOf(date) + 1, c.dayOfMonth.value)
    case _ => DayNumber(MonthOf(date) + 3, c.dayOfMonth.value)
  }

  /** A firing shows its own date on the wall, give or take two days. */
  lemma FiringDrifts(z: Zone, date: int, time: int)
    requires ValidZone(z) && 0 <= time < DAY
    ensures date - 2 <= LocalDate(z, Firing(z, date, time)) <= date + 2
    ensures KeepsDates(z) ==> LocalDate(z, Firing(z, date, time)) == date
  {
    var local := date * DAY + time;
    assert local / DAY == date;
    assert -DAY < z.localOffset(local) < DAY && -DAY < z.utcOffset(LocalToUtc(z, local)) < DAY;
    Within2Days(local, UtcToLocal(z, LocalToUtc(z, local)));
  }

  lemma Within2Days(a: int, b: int)
    requires -2 * DAY < b - a < 2 * DAY
    ensures a / DAY - 2 <= b / DAY <= a / DAY + 2
  {
    DatesAreMonotone(a - 2 * DAY, b);
    DatesAreMonotone(b, a + 2 * DAY);
    assert (a - 2 * DAY) / DAY == a / DAY - 2 && (a + 2 * DAY) / DAY == a / DAY + 2;
  }

  lemma WeeklyStep(z: Zone, c: Cadence, date: int)
    requires ValidZone(z) && ValidCadence(c) && c.frequency == Weekly && FiresOn(c, date)
    ensures NextSlot(z, c, Firing(z, date, c.time)) == Firing(z, date + 7, c.time)
    ensures FiresOn(c, date + 7)
  {
    FiringDrifts(z, date, c.time);
    LaterDateFiresLater(z, date, date + 7, c.time);
    NextMatch(LocalDate(z, Firing(z, date, c.time)), date);
  }

  /** The next day with the weekday of `date`, counted from a day near it. */
  lemma NextMatch(today: int, date: int)
    requires date - 2 <= today <= date + 2
    ensures today + (Weekday(date) - Weekday(today)) % 7 == if today <= date then date else date + 7
  {
  }

  /** The month the scan stops at when it starts on a firing itself: the next allowed one. */
  lemma NextAllowedMonth(z: Zone, c: Cadence, now: int, m: int)
    requires ValidZone(z) && ValidCadence(c) && c.frequency != Weekly
    requires MonthOf(LocalDate(z, now)) <= m + 1 && MonthAllowed(m, c.frequency == Quarterly)
    requires now == Firing(z, DayNumber(m, c.dayOfMonth.value), c.time)
    ensures var next := if c.frequency == Monthly then m + 1 else m + 3;
            && MonthAllowed(next, c.frequency == Quarterly)
            && ComputeNextRunAt(z, now, c) == Ok(Firing(z, DayNumber(next, c.dayOfMonth.value), c.time))
  {
    var day := c.dayOfMonth.value;
    var next := if c.frequency == Monthly then m + 1 else m + 3;
    NextIsAllowed(m, next, c.frequency == Quarterly);
    LaterMonthFiresLater(z, m, next, day, c.time);
    var hit := MonthlyFires(z, now, c);
    assert hit <= next;
    assert m < hit by { if hit < m { LaterMonthFiresLater(z, hit, m, day, c.time); } }
    assert hit == next by { NextIsAllowed(m, hit, c.frequency == Quarterly); }
  }

  /** After an allowed month the next allowed one is one or three months away. */
  lemma NextIsAllowed(m: int, k: int, quarterly: bool)
    requires MonthAllowed(m, quarterly)
    ensures var next := if quarterly then m + 3 else m + 1;
            && MonthAllowed(next, quarterly)
            && (m < k <= next && MonthAllowed(k, quarterly) ==> k == next)
  {
    if quarterly {
      QuarterMonths(m);
      QuarterMonths(m + 3);
      QuarterMonths(k);
    }
  }

  lemma LaterMonthFiresLater(z: Zone, a: int, b: int, day: int, time: int)
    requires ValidZone(z) && a < b
    ensures Firing(z, DayNumber(a, day), time) < Firing(z, DayNumber(b, day), time)
  {
    MonthStartGrows(a, b);
    LaterDateFiresLater(z, DayNumber(a, day), DayNumber(b, day), time);
  }

  lemma MonthlyStep(z: Zone, c: Cadence, date: int)
    requires ValidZone(z) && ValidCadence(c) && c.frequency != Weekly && FiresOn(c, date)
    ensures NextSlot(z, c, Firing(z, date, c.time)) == Firing(z, NextFiringDate(c, date), c.time)
    ensures FiresOn(c, NextFiringDate(c, date))
  {
    var day, m := c.dayOfMonth.value, MonthOf(date);
    assert DayNumber(m, day) == date;
    FiringDrifts(z, date, c.time);
    NearMonth(date, LocalDate(z, Firing(z, date, c.time)));
    NextAllowedMonth(z, c, Firing(z, date, c.time), m);
    DayNumberInverse(if c.frequency == Monthly then m + 1 else m + 3, day);
  }

  lemma NearMonth(date: int, near: int)
    requires near <= date + 2
    ensures MonthOf(near) <= MonthOf(date) + 1
  {
    var m := MonthOf(date);
    MonthStartGrows(m + 1, m + 2);
    if m + 2 <= MonthOf(near) { MonthStartGrows(m + 2, MonthOf(near)); }
  }

  /** From one slot the chain moves by exactly one week, month or quarter of the wall calendar, in every
      zone. */
  lemma SlotStep(z: Zone, c: Cadence, date: int)
    requires ValidZone(z) && ValidCadence(c) && FiresOn(c, date)
    ensures Advance(z, c)(Firing(z, date, c.time)) == Firing(z, NextFiringDate(c, date), c.time)
    ensures FiresOn(c, NextFiringDate(c, date))
  {
    if c.frequency == Weekly {
      WeeklyStep(z, c, date);
    } else {
      MonthlyStep(z, c, date);
    }
  }

  // ---------------------------------------------------------------- periods of the chain

  /** The calendar unit a cadence counts in: days, months or quarters. */
  ghost function Unit(frequency: Frequency, date: int): int {
    match frequency
    case Weekly => date
    case Monthly => MonthOf(date)
    case _ => QuarterOf(MonthOf(date))
  }

  /** The units from one firing date to the next. */
  function Pace(frequency: Frequency): int {
    if frequency == Weekly then 7 else 1
  }

  /** A firing date lies one pace after the one before it. */
  lemma UnitsAdvance(c: Cadence, date: int)
    requires ValidCadence(c) && FiresOn(c, date)
    ensures Unit(c.frequency, NextFiringDate(c, date)) == Unit(c.frequency, date) + Pace(c.frequency)
  {
    match c.frequency {
      case Weekly =>
      case Monthly => DayNumberInverse(MonthOf(date) + 1, c.dayOfMonth.value);
      case Quarterly =>
        DayNumberInverse(MonthOf(date) + 3, c.dayOfMonth.value);
    }
  }

  /** The period reported from a date is the unit before the one the date lies in. */
  lemma PeriodOfUnit(frequency: Frequency, date: int)
    requires frequency != Unknown
    ensures var p, u := ReportPeriod(frequency, date).value, Unit(frequency, date);
            match frequency {
              case Weekly => p == Period(u - 7, u - 1)
              case Monthly => p == Period(MonthStart(u - 1), MonthStart(u) - 1)
              case _ => p == Period(MonthStart(3 * u - 3), MonthStart(3 * u) - 1)
            }
  {
    PreviousMonthIsWhole(date);
    PreviousQuarterIsWhole(date);
  }

  lemma MonthStartsDiffer(a: int, b: int)
    requires MonthStart(a) == MonthStart(b)
    ensures a == b
  {
    if a < b { MonthStartGrows(a, b); } else { MonthStartGrows(b, a); }
  }

  /** Equally long stretches of months are adjacent exactly when their numbers are. */
  lemma AdjacentMonths(a: int, b: int, n: nat)
    requires n > 0
    ensures MonthStart(a - n) <= MonthStart(a) - 1
    ensures MonthStart(b - n) == MonthStart(a) <==> b == a + n
  {
    MonthStartGrows(a - n, a);
    if MonthStart(b - n) == MonthStart(a) { MonthStartsDiffer(b - n, a); }
  }

  /** Two dates report adjacent periods exactly when they lie one pace apart. */
  lemma AdjacentExactly(frequency: Frequency, a: int, b: int)
    requires frequency != Unknown
    ensures var p, q := ReportPeriod(frequency, a).value, ReportPeriod(frequency, b).value;
            && p.first <= p.last
            && (q.first == p.last + 1 <==> Unit(frequency, b) == Unit(frequency, a) + Pace(frequency))
  {
    PeriodOfUnit(frequency, a);
    PeriodOfUnit(frequency, b);
    var u, v := Unit(frequency, a), Unit(frequency, b);
    if frequency == Monthly {
      AdjacentMonths(u, v, 1);
    } else if frequency == Quarterly {
      AdjacentMonths(3 * u, 3 * v, 3);
    }
  }

  /** The period of the next firing date starts the day after the period of this one ends. */
  lemma PeriodFollows(c: Cadence, date: int)
    requires ValidCadence(c) && FiresOn(c, date)
    ensures var here, next := ReportPeriod(c.frequency, date), ReportPeriod(c.frequency, NextFiringDate(c, date));
            here.Ok? && next.Ok? && here.value.first <= here.value.last && next.value.first == here.value.last + 1
  {
    UnitsAdvance(c, date);
    AdjacentExactly(c.frequency, date, NextFiringDate(c, date));
  }

  /** The period a run reports on, as the worker derives it from the run's slot. */
  ghost function SlotPeriod(z: Zone, c: Cadence, slot: int): Period
    requires ValidCadence(c)
  {
    ReportPeriod(c.frequency, LocalDate(z, slot)).value
  }

  /** The firing dates of a schedule whose first one is `start`. */
  ghost function FiringDate(c: Cadence, start: int, k: nat): (date: int)
    requires ValidCadence(c) && FiresOn(c, start)
    ensures FiresOn(c, date)
  {
    if k == 0 then start
    else
      var before := FiringDate(c, start, k - 1);
      NextStillFires(c, before);
      NextFiringDate(c, before)
  }

  lemma NextStillFires(c: Cadence, date: int)
    requires ValidCadence(c) && FiresOn(c, date)
    ensures FiresOn(c, NextFiringDate(c, date))
  {
    SlotStep(FixedZone(0), c, date);
  }

  /** The slots of the chain are the firings on those dates, in every zone. */
  lemma {:induction false} ChainFires(z: Zone, c: Cadence, start: int, k: nat)
    requires ValidZone(z) && ValidCadence(c) && FiresOn(c, start)
    ensures Chain(Advance(z, c), Firing(z, start, c.time), k) == Firing(z, FiringDate(c, start, k), c.time)
  {
    if k > 0 {
      ChainFires(z, c, start, k - 1);
      SlotStep(z, c, FiringDate(c, start, k - 1));
    }
  }

  /** By how many units the wall date of a firing misses its date: zero in a zone that keeps dates. */
  ghost function Shift(z: Zone, c: Cadence, date: int): int
    requires ValidCadence(c)
  {
    Unit(c.frequency, LocalDate(z, Firing(z, date, c.time))) - Unit(c.frequency, date)
  }

  /** The periods of a schedule created at `created`, slot by slot. */
  ghost function Periods(z: Zone, c: Cadence, created: int): nat -> Period
    requires ValidCadence(c)
  {
    (k: nat) => SlotPeriod(z, c, Chain(Advance(z, c), NextSlot(z, c, created), k))
  }

  ghost predicate FollowsAt(p: nat -> Period, k: nat) {
    p(k).first <= p(k).last && p(k + 1).first == p(k).last + 1
  }

  ghost predicate Tiles(p: nat -> Period) {
    forall k: nat :: FollowsAt(p, k)
  }

  lemma PeriodAt(z: Zone, c: Cadence, created: int, start: int, k: nat)
    requires ValidZone(z) && ValidCadence(c) && FiresOn(c, start)
    requires NextSlot(z, c, created) == Firing(z, start, c.time)
    ensures Periods(z, c, created)(k) == SlotPeriod(z, c, Firing(z, FiringDate(c, start, k), c.time))
  {
    ChainFires(z, c, start, k);
  }

  /** The periods of two successive firings are adjacent exactly when both miss their dates by the same. */
  lemma FiringsFollowExactly(z: Zone, c: Cadence, date: int)
    requires ValidCadence(c) && FiresOn(c, date)
    ensures var next := NextFiringDate(c, date);
            var p, q := SlotPeriod(z, c, Firing(z, date, c.time)), SlotPeriod(z, c, Firing(z, next, c.time));
            p.first <= p.last && (q.first == p.last + 1 <==> Shift(z, c, next) == Shift(z, c, date))
  {
    var next := NextFiringDate(c, date);
    UnitsAdvance(c, date);
    AdjacentExactly(c.frequency, LocalDate(z, Firing(z, date, c.time)), LocalDate(z, Firing(z, next, c.time)));
  }

  /** By how much each firing of a schedule misses its date. */
  ghost function Shifts(z: Zone, c: Cadence, start: int): nat -> int
    requires ValidCadence(c) && FiresOn(c, start)
  {
    (k: nat) => Shift(z, c, FiringDate(c, start, k))
  }

  lemma FollowsExactly(z: Zone, c: Cadence, created: int, start: int, k: nat)
    requires ValidZone(z) && ValidCadence(c) && FiresOn(c, start)
    requires NextSlot(z, c, created) == Firing(z, start, c.time)
    ensures FollowsAt(Periods(z, c, created), k) <==> Shifts(z, c, start)(k + 1) == Shifts(z, c, start)(k)
  {
    PeriodAt(z, c, created, start, k);
    PeriodAt(z, c, created, start, k + 1);
    assert FiringDate(c, start, k + 1) == NextFiringDate(c, FiringDate(c, start, k));
    FiringsFollowExactly(z, c, FiringDate(c, start, k));
  }

  ghost predicate Constant(f: nat -> int) {
    forall k: nat :: f(k) == f(0)
  }

  /** A tiling of periods and a sequence of shifts that agree step by step agree as a whole. */
  lemma TilesExactly(p: nat -> Period, f: nat -> int)
    requires forall k: nat :: FollowsAt(p, k) <==> f(k + 1) == f(k)
    ensures Tiles(p) <==> Constant(f)
  {
    if Tiles(p) {
      forall k: nat
        ensures f(k) == f(0)
      {
        ShiftStays(p, f, k);
      }
    }
    if Constant(f) {
      forall k: nat
        ensures FollowsAt(p, k)
      {
        assert f(k) == f(0) && f(k + 1) == f(0);
      }
    }
  }

  lemma {:induction false} ShiftStays(p: nat -> Period, f: nat -> int, k: nat)
    requires Tiles(p) && forall j: nat :: FollowsAt(p, j) <==> f(j + 1) == f(j)
    ensures f(k) == f(0)
  {
    if k > 0 {
      ShiftStays(p, f, k - 1);
      assert FollowsAt(p, k - 1);
    }
  }

  /** In every zone, the periods of a schedule tile the calendar if and only if all its firings miss their
      dates by the same number of units. `start` is the first firing date. */
  lemma PeriodsTileExactly(z: Zone, c: Cadence, created: int, start: int)
    requires ValidZone(z) && ValidCadence(c) && FiresOn(c, start)
    requires NextSlot(z, c, created) == Firing(z, start, c.time)
    ensures Tiles(Periods(z, c, created)) <==> Constant(Shifts(z, c, start))
  {
    forall k: nat
      ensures FollowsAt(Periods(z, c, created), k) <==> Shifts(z, c, start)(k + 1) == Shifts(z, c, start)(k)
    {
      FollowsExactly(z, c, created, start, k);
    }
    TilesExactly(Periods(z, c, created), Shifts(z, c, start));
  }

  /** Successive periods tile the calendar: each starts the day after the one before it ends. */
  lemma PeriodsTile(z: Zone, c: Cadence, created: int)
    requires ValidZone(z) && KeepsDates(z) && ValidCadence(c)
    ensures Tiles(Periods(z, c, created))
  {
    var start := NextRunIsLater(z, created, c);
    forall k: nat
      ensures Shifts(z, c, start)(k) == 0
    {
      FiringDrifts(z, FiringDate(c, start, k), c.time);
    }
    PeriodsTileExactly(z, c, created, start);
  }

  const ONE_HOUR: int := 3_600_000_000

  /** A zone that skips the last hour of `date`. */
  function SkipZone(date: int): Zone {
    ShiftZone(date * DAY + 23 * ONE_HOUR, 0, ONE_HOUR)
  }

  /** The wall clock jumps over the firing of `date` into the next date, and shows all others as usual. */
  lemma SlipsOnce(date: int, other: int, time: int)
    requires 23 * ONE_HOUR <= time < DAY
    ensures LocalDate(SkipZone(date), Firing(SkipZone(date), other, time)) == if other == date then date + 1 else other
  {
    var z := SkipZone(date);
    if other == date {
      assert UtcToLocal(z, Firing(z, date, time)) == (date + 1) * DAY + (time - 23 * ONE_HOUR);
    } else {
      assert other < date ==> other * DAY + DAY <= date * DAY;
      assert other > date ==> date * DAY + DAY <= other * DAY;
      assert UtcToLocal(z, Firing(z, other, time)) == other * DAY + time;
    }
  }

  /** A weekly cadence that fires on the weekday of `date`. */
  lemma WeeklyOn(date: int, time: int) returns (c: Cadence)
    requires 0 <= time < DAY
    ensures ValidCadence(c) && c.frequency == Weekly && c.time == time
    ensures FiresOn(c, date) && FiresOn(c, date - 7) && FiresOn(c, date - 14)
  {
    c := Cadence(Weekly, None, Some((Weekday(date) + 1) % 7), time);
    assert SpecWeekday((Weekday(date) + 1) % 7) == Weekday(date) == Weekday(date - 7) == Weekday(date - 14);
  }

  lemma {:induction false} WeeklyDates(c: Cadence, start: int, k: nat)
    requires ValidCadence(c) && c.frequency == Weekly && FiresOn(c, start)
    ensures FiringDate(c, start, k) == start + 7 * k
  {
    if k > 0 { WeeklyDates(c, start, k - 1); }
  }

  /** The periods of a weekly schedule that fires in the skipped hour, from the week before it on. */
  lemma SkippedPeriods(date: int, c: Cadence, created: int, k: nat)
    requires ValidCadence(c) && c.frequency == Weekly && FiresOn(c, date - 7) && 23 * ONE_HOUR <= c.time
    requires NextSlot(SkipZone(date), c, created) == Firing(SkipZone(date), date - 7, c.time)
    ensures var firing := date - 7 + 7 * k;
            Periods(SkipZone(date), c, created)(k) ==
            if k == 1 then Period(date - 6, date) else Period(firing - 7, firing - 1)
  {
    SkipZoneIsValid(date);
    WeeklyPeriodAt(SkipZone(date), c, created, date - 7, k);
    SlipsOnce(date, date - 7 + 7 * k, c.time);
  }

  lemma SkipZoneIsValid(date: int)
    ensures ValidZone(SkipZone(date))
  {
  }

  /** The k-th period of a weekly schedule: the week before the local date of its k-th firing. */
  lemma WeeklyPeriodAt(z: Zone, c: Cadence, created: int, start: int, k: nat)
    requires ValidZone(z) && ValidCadence(c) && c.frequency == Weekly && FiresOn(c, start)
    requires NextSlot(z, c, created) == Firing(z, start, c.time)
    ensures var local := LocalDate(z, Firing(z, start + 7 * k, c.time));
            Periods(z, c, created)(k) == Period(local - 7, local - 1)
  {
    PeriodAt(z, c, created, start, k);
    WeeklySlotPeriod(z, c, start, k);
  }

  lemma WeeklySlotPeriod(z: Zone, c: Cadence, start: int, k: nat)
    requires ValidCadence(c) && c.frequency == Weekly && FiresOn(c, start)
    ensures var local := LocalDate(z, Firing(z, start + 7 * k, c.time));
            SlotPeriod(z, c, Firing(z, FiringDate(c, start, k), c.time)) == Period(local - 7, local - 1)
  {
    WeeklyDates(c, start, k);
  }

  /** The zone skips the last hour of `date`. A weekly schedule that fires in that hour slips to the next date
      once: the day a week before is reported by no slot, although the schedule was at work, and `date` itself
      is reported twice. */
  lemma SkippedHourLosesDay(date: int) returns (c: Cadence, created: int)
    ensures ValidZone(SkipZone(date)) && ValidCadence(c)
    ensures var p := Periods(SkipZone(date), c, created);
            && p(0).first <= date - 7 && (forall k: nat :: !Covers(p(k), date - 7))
            && Covers(p(1), date) && Covers(p(2), date) && !Tiles(p)
  {
    var z := SkipZone(date);
    c := WeeklyOn(date, 23 * ONE_HOUR + ONE_HOUR / 2);
    created := Firing(z, date - 14, c.time);
    WeeklyStep(z, c, date - 14);
    var p := Periods(z, c, created);
    forall k: nat
      ensures !Covers(p(k), date - 7)
    {
      SkippedPeriods(date, c, created, k);
    }
    SkippedPeriods(date, c, created, 0);
    SkippedPeriods(date, c, created, 1);
    SkippedPeriods(date, c, created, 2);
    assert !FollowsAt(p, 0);
  }

  lemma {:induction false} TilesRise(p: nat -> Period, j: nat, k: nat)
    requires Tiles(p) && j < k
    ensures p(j).last < p(k).first
    decreases k
  {
    assert FollowsAt(p, k - 1);
    if j < k - 1 {
      assert FollowsAt(p, j + 1);
      TilesRise(p, j, k - 1);
    }
  }

  predicate Covers(p: Period, day: int) {
    p.first <= day <= p.last
  }

  lemma TilesCoverOnce(p: nat -> Period, day: int) returns (k: nat)
    requires Tiles(p) && p(0).first <= day
    ensures Covers(p(k), day)
    ensures forall j: nat :: Covers(p(j), day) ==> j == k
  {
    k := 0;
    while p(k).last < day
      invariant p(k).first <= day
      decreases day - p(k).last
    {
      assert FollowsAt(p, k) && FollowsAt(p, k + 1);
      k := k + 1;
    }
    forall j: nat | Covers(p(j), day)
      ensures j == k
    {
      if j < k { TilesRise(p, j, k); }
      if k < j { TilesRise(p, k, j); }
    }
  }

  /** Every day from the first reported day on is reported by exactly one slot of the schedule. */
  lemma DayIsReportedOnce(z: Zone, c: Cadence, created: int, day: int) returns (k: nat)
    requires ValidZone(z) && KeepsDates(z) && ValidCadence(c)
    requires Periods(z, c, created)(0).first <= day
    ensures Covers(Periods(z, c, created)(k), day)
    ensures forall j: nat :: Covers(Periods(z, c, created)(j), day) ==> j == k
  {
    PeriodsTile(z, c, created);
    k := TilesCoverOnce(Periods(z, c, created), day);
  }
}
