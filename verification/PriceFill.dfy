/**
 Hourly prices by bidding zone: the windowed forward fill over `electricity_prices`, the
 read-through that adds rows pulled from ENTSO-E, and what both mean over the whole table.
 */
module PriceFill {
  import opened Common

  const HOUR: int := 3_600_000_000
  const DAM := "ENTSOE_DAM"

  /** The unique index of the price table: one row per (time, node, market). */
  datatype Key = Key(time: int, zone: string, market: string)

  /** Prices in EUR/MWh; a row may hold no price. */
  type Table = map<Key, Option<real>>

  function HourFloor(t: int): int {
    t - t % HOUR
  }

  /** The hour buckets that `[start, end)` touches. */
  predicate InWindow(start: int, end: int, hour: int) {
    hour % HOUR == 0 && HourFloor(start) <= hour < end
  }

  /** The window holds exactly the full hours that overlap the request, the one that contains `start` included. */
  lemma WindowMeans(start: int, end: int, h: int)
    ensures InWindow(start, end, h) <==> h % 3_600_000_000 == 0 && start < h + 3_600_000_000 && h < end
  {
    var floor := HourFloor(start);
    assert floor % HOUR == 0 && floor <= start < floor + HOUR;
    if h % HOUR == 0 {
      if h < floor { NextHour(h); assert h + HOUR <= floor by { HourSteps(h, floor); } }
    }
  }

  /** Full hours lie at least an hour apart. */
  lemma HourSteps(a: int, b: int)
    requires a % HOUR == 0 && b % HOUR == 0 && a < b
    ensures a + HOUR <= b
  {
  }

  /** Every instant of a request has its bucket in the window. */
  lemma InstantHasBucket(start: int, end: int, t: int) returns (h: int)
    requires start <= t < end
    ensures InWindow(start, end, h) && h <= t < h + HOUR
  {
    h := t - t % HOUR;
    assert h % HOUR == 0;
    WindowMeans(start, end, h);
  }

  // ---------------------------------------------------------------- specification

  function PriceAt(table: Table, zone: string, time: int): Option<real> {
    if Key(time, zone, DAM) in table then table[Key(time, zone, DAM)] else None
  }

  /** The latest price in `[lo, hi]`, looking back from `hi`, in EUR/kWh. */
  function LatestIn(table: Table, zone: string, lo: int, hi: int): Option<real>
    decreases hi - lo
  {
    if hi < lo then None
    else match PriceAt(table, zone, hi)
         case Some(price) => Some(price / 1000.0)
         case None => LatestIn(table, zone, lo, hi - 1)
  }

  /** The price of an hour over the whole table: no request window appears in it. */
  function Fill(table: Table, zone: string, hour: int, window: int): Option<real> {
    LatestIn(table, zone, hour - window, hour)
  }

  /** The forward fill of a request: exactly its priced hours, each with its fill. */
  ghost predicate IsFillOf(filled: map<int, real>, table: Table, zone: string, start: int, end: int, window: int) {
    && (forall h :: h in filled <==> InWindow(start, end, h) && Fill(table, zone, h, window).Some?)
    && (forall h :: h in filled ==> Fill(table, zone, h, window) == Some(filled[h]))
  }

  /** A fill is the price of the latest priced row inside the window, and only of that one. */
  lemma {:induction false} LatestIsLatest(table: Table, zone: string, lo: int, hi: int, time: int)
    requires lo <= time <= hi && PriceAt(table, zone, time).Some?
    requires forall t :: time < t <= hi ==> PriceAt(table, zone, t).None?
    ensures LatestIn(table, zone, lo, hi) == Some(PriceAt(table, zone, time).value / 1000.0)
    decreases hi - time
  {
    if time < hi { LatestIsLatest(table, zone, lo, hi - 1, time); }
  }

  lemma {:induction false} LatestNeedsPrice(table: Table, zone: string, lo: int, hi: int)
    requires forall t :: lo <= t <= hi ==> PriceAt(table, zone, t).None?
    ensures LatestIn(table, zone, lo, hi) == None
    decreases hi - lo
  {
    if lo <= hi { LatestNeedsPrice(table, zone, lo, hi - 1); }
  }

  // ---------------------------------------------------------------- the query

  /** `SELECT time, price ... WHERE lo <= time < hi ORDER BY time`. */
  function SelectRows(table: Table, zone: string, lo: int, hi: int): seq<(int, Option<real>)>
    decreases hi - lo
  {
    if hi <= lo then []
    else
      var before := SelectRows(table, zone, lo, hi - 1);
      var key := Key(hi - 1, zone, DAM);
      if key in table then before + [(hi - 1, table[key])] else before
  }

  /** The rows of a query that hold a price, in EUR/kWh. */
  function Priced(rows: seq<(int, Option<real>)>): seq<(int, real)> {
    if rows == [] then []
    else
      var before, last := Priced(rows[..|rows| - 1]), rows[|rows| - 1];
      if last.1.Some? then before + [(last.0, last.1.value / 1000.0)] else before
  }

  /** The last known price within the window, in the order the loop sees them. */
  function LastWithin(known: seq<(int, real)>, hour: int, window: int): Option<real> {
    if known == [] then None
    else
      var (time, price) := known[|known| - 1];
      if time <= hour && hour - time <= window then Some(price)
      else LastWithin(known[..|known| - 1], hour, window)
  }

  ghost predicate Ascending(known: seq<(int, real)>) {
    forall i, j :: 0 <= i < j < |known| ==> known[i].0 < known[j].0
  }

  function PricedRow(table: Table, zone: string, time: int): seq<(int, real)> {
    match PriceAt(table, zone, time)
    case Some(price) => [(time, price / 1000.0)]
    case None => []
  }

  lemma PricedGrows(table: Table, zone: string, lo: int, hi: int)
    requires lo < hi
    ensures Priced(SelectRows(table, zone, lo, hi)) ==
            Priced(SelectRows(table, zone, lo, hi - 1)) + PricedRow(table, zone, hi - 1)
  {
    var rows, before := SelectRows(table, zone, lo, hi), SelectRows(table, zone, lo, hi - 1);
    if Key(hi - 1, zone, DAM) in table {
      assert rows[..|rows| - 1] == before;
    }
  }

  lemma LastWithinGrows(known: seq<(int, real)>, time: int, price: real, hour: int, window: int)
    ensures LastWithin(known + [(time, price)], hour, window) ==
            if time <= hour && hour - time <= window then Some(price) else LastWithin(known, hour, window)
  {
    assert (known + [(time, price)])[..|known|] == known;
  }

  lemma {:induction false} PricedAscends(table: Table, zone: string, lo: int, hi: int)
    ensures Ascending(Priced(SelectRows(table, zone, lo, hi)))
    ensures forall i :: 0 <= i < |Priced(SelectRows(table, zone, lo, hi))| ==>
              Priced(SelectRows(table, zone, lo, hi))[i].0 < hi
    decreases hi - lo
  {
    if lo < hi {
      PricedAscends(table, zone, lo, hi - 1);
      PricedGrows(table, zone, lo, hi);
    }
  }

  /** One more row at the end of the fetch range, on both sides of the equation below. */
  lemma OneMoreRow(table: Table, zone: string, lo: int, hi: int, hour: int, window: int)
    requires lo < hi
    ensures LastWithin(Priced(SelectRows(table, zone, lo, hi)), hour, window) ==
            if PriceAt(table, zone, hi - 1).Some? && hi - 1 <= hour && hour - (hi - 1) <= window
            then Some(PriceAt(table, zone, hi - 1).value / 1000.0)
            else LastWithin(Priced(SelectRows(table, zone, lo, hi - 1)), hour, window)
  {
    PricedGrows(table, zone, lo, hi);
    var before := Priced(SelectRows(table, zone, lo, hi - 1));
    match PriceAt(table, zone, hi - 1) {
      case Some(price) => LastWithinGrows(before, hi - 1, price / 1000.0, hour, window);
      case None => assert before + [] == before;
    }
  }

  /** Over a fetch range that reaches back one window, the loop's last known price is the fill. */
  lemma {:induction false} QueryHoldsFill(table: Table, zone: string, lo: int, hi: int, hour: int, window: int)
    requires lo <= hour - window
    ensures LastWithin(Priced(SelectRows(table, zone, lo, hi)), hour, window) ==
            LatestIn(table, zone, hour - window, if hour < hi then hour else hi - 1)
    decreases hi - lo
  {
    if lo < hi {
      QueryHoldsFill(table, zone, lo, hi - 1, hour, window);
      OneMoreRow(table, zone, lo, hi, hour, window);
    }
  }

  /** Prices after the first one past the hour cannot count, so the loop may stop there. */
  lemma {:induction false} BreakIsSafe(known: seq<(int, real)>, i: nat, hour: int, window: int)
    requires Ascending(known) && i < |known| && hour < known[i].0
    ensures LastWithin(known, hour, window) == LastWithin(known[..i], hour, window)
    decreases |known|
  {
    var shorter := known[..|known| - 1];
    if i < |shorter| {
      BreakIsSafe(shorter, i, hour, window);
      assert shorter[..i] == known[..i];
    }
  }

  lemma FilledOneMore(filled: map<int, real>, table: Table, zone: string, start: int, cursor: int, window: int)
    requires IsFillOf(filled, table, zone, start, cursor, window)
    requires cursor % HOUR == 0 && HourFloor(start) <= cursor
    ensures var fill := Fill(table, zone, cursor, window);
            IsFillOf(if fill.Some? then filled[cursor := fill.value] else filled,
                     table, zone, start, cursor + HOUR, window)
  {
    NextHour(cursor);
    forall h
      ensures InWindow(start, cursor + HOUR, h) <==> InWindow(start, cursor, h) || h == cursor
    {
    }
  }

  /** `fetch_prices_by_zone`: rows from one window before the floored start, then one pass per hour. */
  method FetchPricesByZone(table: Table, zone: string, start: int, end: int, window: int)
    returns (filled: map<int, real>)
    ensures IsFillOf(filled, table, zone, start, end, window)
  {
    var lower := HourFloor(start) - window;
    var rows := SelectRows(table, zone, lower, end);
    var known := KnownPrices(rows);
    PricedAscends(table, zone, lower, end);
    filled := map[];
    var cursor := HourFloor(start);
    while cursor < end
      invariant cursor % HOUR == 0 && HourFloor(start) <= cursor
      invariant cursor < end + HOUR || cursor == HourFloor(start)
      invariant IsFillOf(filled, table, zone, start, cursor, window)
    {
      var candidate := Candidate(known, cursor, window);
      QueryHoldsFill(table, zone, lower, end, cursor, window);
      FilledOneMore(filled, table, zone, start, cursor, window);
      if candidate.Some? {
        filled := filled[cursor := candidate.value];
      }
      cursor := cursor + HOUR;
    }
    SameHours(start, end, cursor);
  }

  /** Rounding the end of a window up to a full hour changes nothing. */
  lemma SameHours(start: int, end: int, cursor: int)
    requires cursor % HOUR == 0 && end <= cursor && (cursor < end + HOUR || cursor == HourFloor(start))
    ensures forall h :: InWindow(start, end, h) <==> InWindow(start, cursor, h)
  {
    forall h
      ensures InWindow(start, end, h) <==> InWindow(start, cursor, h)
    {
      if InWindow(start, cursor, h) { NextHour(h); }
    }
  }

  lemma NextHour(cursor: int)
    requires cursor % HOUR == 0
    ensures (cursor + HOUR) % HOUR == 0
    ensures forall h :: h % HOUR == 0 && h < cursor + HOUR ==> h <= cursor
  {
  }

  method KnownPrices(rows: seq<(int, Option<real>)>) returns (known: seq<(int, real)>)
    ensures known == Priced(rows)
  {
    known := [];
    for i := 0 to |rows|
      invariant known == Priced(rows[..i])
    {
      assert rows[..i + 1][..i] == rows[..i];
      if rows[i].1.Some? {
        known := known + [(rows[i].0, rows[i].1.value / 1000.0)];
      }
    }
    assert rows[..|rows|] == rows;
  }

  /** The inner loop: the last price within the window, stopping at the first later one. */
  method Candidate(known: seq<(int, real)>, hour: int, window: int) returns (candidate: Option<real>)
    requires Ascending(known)
    ensures candidate == LastWithin(known, hour, window)
  {
    candidate := None;
    var i := 0;
    while i < |known|
      invariant 0 <= i <= |known|
      invariant candidate == LastWithin(known[..i], hour, window)
    {
      assert known[..i + 1][..i] == known[..i];
      var (time, price) := known[i];
      if time <= hour && hour - time <= window {
        candidate := Some(price);
      } else if time > hour {
        BreakIsSafe(known, i, hour, window);
        return;
      }
      i := i + 1;
    }
    assert known[..|known|] == known;
  }

  /** Two requests that share an hour agree on it: a fill does not depend on the window it was asked in. */
  lemma RequestsAgree(table: Table, zone: string, window: int, a: map<int, real>, start: int, end: int,
                      b: map<int, real>, start': int, end': int, hour: int)
    requires IsFillOf(a, table, zone, start, end, window) && IsFillOf(b, table, zone, start', end', window)
    requires InWindow(start, end, hour) && InWindow(start', end', hour)
    ensures (hour in a <==> hour in b) && (hour in a ==> a[hour] == b[hour])
  {
    assert hour in a ==> Fill(table, zone, hour, window) == Some(a[hour]);
    assert hour in b ==> Fill(table, zone, hour, window) == Some(b[hour]);
  }

  // ---------------------------------------------------------------- read-through

  /** Inserting pulled prices (EUR/kWh) with ON CONFLICT DO NOTHING, in order. */
  function InsertNew(table: Table, zone: string, pulled: seq<(int, real)>): Table {
    if pulled == [] then table
    else
      var before := InsertNew(table, zone, pulled[..|pulled| - 1]);
      var (time, price) := pulled[|pulled| - 1];
      if Key(time, zone, DAM) in before then before
      else before[Key(time, zone, DAM) := Some(price * 1000.0)]
  }

  /** Every row of `table` is still in `more`, unchanged. */
  ghost predicate Extends(more: Table, table: Table) {
    forall k :: k in table ==> k in more && more[k] == table[k]
  }

  /** Stored rows never change and are never duplicated. */
  lemma {:induction false} InsertKeepsRows(table: Table, zone: string, pulled: seq<(int, real)>)
    ensures Extends(InsertNew(table, zone, pulled), table)
  {
    if pulled != [] { InsertKeepsRows(table, zone, pulled[..|pulled| - 1]); }
  }

  /** What is new is exactly the absent pulled hours, each with the first price pulled for it. */
  lemma {:induction false} InsertAddsAbsent(table: Table, zone: string, pulled: seq<(int, real)>, k: Key)
    requires k !in table
    ensures k in InsertNew(table, zone, pulled) <==>
            k.zone == zone && k.market == DAM && exists i :: 0 <= i < |pulled| && pulled[i].0 == k.time
    ensures k in InsertNew(table, zone, pulled) ==>
              exists i :: 0 <= i < |pulled| && pulled[i].0 == k.time
                          && InsertNew(table, zone, pulled)[k] == Some(pulled[i].1 * 1000.0)
                          && forall j :: 0 <= j < i ==> pulled[j].0 != k.time
  {
    if pulled != [] {
      var before := pulled[..|pulled| - 1];
      InsertAddsAbsent(table, zone, before, k);
      if k in InsertNew(table, zone, before) {
        var i :| 0 <= i < |before| && before[i].0 == k.time
                 && InsertNew(table, zone, before)[k] == Some(before[i].1 * 1000.0)
                 && forall j :: 0 <= j < i ==> before[j].0 != k.time;
        assert pulled[i] == before[i];
        assert forall j :: 0 <= j < i ==> pulled[j] == before[j];
      } else {
        assert forall j :: 0 <= j < |before| ==> pulled[j] == before[j];
      }
    }
  }

  /** A price pulled for an hour without a row is the price of that hour, in the unit it was pulled in. */
  lemma PulledIsPrice(table: Table, zone: string, time: int, price: real, window: nat)
    requires Key(time, zone, DAM) !in table
    ensures Fill(InsertNew(table, zone, [(time, price)]), zone, time, window) == Some(price)
  {
    var pulled := [(time, price)];
    assert pulled[..0] == [] && InsertNew(table, zone, []) == table;
    var more := InsertNew(table, zone, pulled);
    assert more == table[Key(time, zone, DAM) := Some(price * 1000.0)];
    LatestIsLatest(more, zone, time - window, time, time);
  }

  /** An hour that had a price still has one after new rows arrive. */
  lemma {:induction false} CoverageStays(table: Table, more: Table, zone: string, lo: int, hi: int)
    requires Extends(more, table) && LatestIn(table, zone, lo, hi).Some?
    ensures LatestIn(more, zone, lo, hi).Some?
    decreases hi - lo
  {
    if PriceAt(table, zone, hi).None? && PriceAt(more, zone, hi).None? {
      CoverageStays(table, more, zone, lo, hi - 1);
    }
  }

  /** The pulled rows that the existence check over `[start, end)` does not find in `base`. */
  function Absent(base: Table, zone: string, start: int, end: int, pulled: seq<(int, real)>): seq<(int, real)> {
    if pulled == [] then []
    else
      var before, last := Absent(base, zone, start, end, pulled[..|pulled| - 1]), pulled[|pulled| - 1];
      if start <= last.0 < end && Key(last.0, zone, DAM) in base then before else before + [last]
  }

  /** The existence check only saves conflicts: inserting what it leaves is inserting everything. */
  lemma {:induction false} AbsentIsEnough(base: Table, table: Table, zone: string, start: int, end: int,
                                          pulled: seq<(int, real)>)
    requires Extends(table, base)
    ensures InsertNew(table, zone, Absent(base, zone, start, end, pulled)) == InsertNew(table, zone, pulled)
  {
    if pulled != [] {
      var before, last := pulled[..|pulled| - 1], pulled[|pulled| - 1];
      AbsentIsEnough(base, table, zone, start, end, before);
      InsertKeepsRows(table, zone, before);
      var kept := Absent(base, zone, start, end, before);
      assert (kept + [last])[..|kept|] == kept;
    }
  }

  method AnyMissing(filled: map<int, real>, start: int, end: int) returns (missing: bool)
    ensures missing <==> exists h :: InWindow(start, end, h) && h !in filled
  {
    missing := false;
    var cursor := HourFloor(start);
    while cursor < end
      invariant cursor % HOUR == 0 && HourFloor(start) <= cursor
      invariant missing <==> exists h :: InWindow(start, end, h) && h < cursor && h !in filled
    {
      assert InWindow(start, end, cursor);
      if cursor !in filled { missing := true; }
      NextHour(cursor);
      cursor := cursor + HOUR;
    }
  }

  class PriceStore {
    var rows: Table

    constructor (rows: Table)
      ensures this.rows == rows
    {
      this.rows := rows;
    }

    /** `fetch_or_pull_prices_by_zone`. `pulled` is what ENTSO-E answers, None when the call fails. Other
        writers change the table arbitrarily at every point where this task waits: `during` the call,
        `between` the existence check and the insert, and `after` the insert. */
    method FetchOrPull(zone: string, start: int, end: int, window: int, hasToken: bool,
                       pulled: Option<seq<(int, real)>>,
                       during: Table -> Table, between: Table -> Table, after: Table -> Table)
      returns (filled: map<int, real>, pulls: bool)
      modifies this
      ensures var asks := hasToken && HasGap(old(rows), zone, start, end, window);
              && (pulls <==> asks && pulled.Some? && pulled.value != [])
              && (!asks ==> rows == old(rows))
              && (asks && !pulls ==> rows == during(old(rows)))
      ensures pulls ==>
                var seen := during(old(rows));
                rows == after(InsertNew(between(seen), zone, Absent(seen, zone, start, end, pulled.value)))
      ensures IsFillOf(filled, if pulls then rows else old(rows), zone, start, end, window)
    {
      filled := FetchPricesByZone(rows, zone, start, end, window);
      var missing := AnyMissing(filled, start, end);
      assert missing <==> HasGap(rows, zone, start, end, window);
      pulls := false;
      if !missing || !hasToken {
        return;
      }
      rows := during(rows);
      if pulled.None? || pulled.value == [] {
        return;
      }
      pulls := true;
      var newRows := Absent(rows, zone, start, end, pulled.value);
      rows := between(rows);
      StoreNew(zone, newRows);
      rows := after(rows);
      filled := FetchPricesByZone(rows, zone, start, end, window);
    }

    /** `executemany` of the insert: a row whose key is taken does nothing. */
    method StoreNew(zone: string, newRows: seq<(int, real)>)
      modifies this
      ensures rows == InsertNew(old(rows), zone, newRows)
    {
      ghost var before := rows;
      for i := 0 to |newRows|
        invariant rows == InsertNew(before, zone, newRows[..i])
      {
        assert newRows[..i + 1][..i] == newRows[..i];
        var key := Key(newRows[i].0, zone, DAM);
        if key !in rows {
          rows := rows[key := Some(newRows[i].1 * 1000.0)];
        }
      }
      assert newRows[..|newRows|] == newRows;
    }
  }

  /** Some hour of the window has no price. */
  ghost predicate HasGap(table: Table, zone: string, start: int, end: int, window: int) {
    exists h :: InWindow(start, end, h) && Fill(table, zone, h, window).None?
  }

  /** While other writers only add rows, the write-back adds exactly the absent ones of what was pulled,
      although the check was made on an older table. */
  lemma PullAddsAbsent(seen: Table, table: Table, zone: string, start: int, end: int, pulled: seq<(int, real)>)
    requires Extends(table, seen)
    ensures InsertNew(table, zone, Absent(seen, zone, start, end, pulled)) == InsertNew(table, zone, pulled)
    ensures Extends(InsertNew(table, zone, pulled), seen)
  {
    AbsentIsEnough(seen, table, zone, start, end, pulled);
    InsertKeepsRows(table, zone, pulled);
  }

  /** A pull never loses an hour: what the table covered before, it covers after. */
  lemma PullKeepsCoverage(seen: Table, table: Table, zone: string, start: int, end: int, pulled: seq<(int, real)>,
                          hour: int, window: int)
    requires Extends(table, seen) && Fill(seen, zone, hour, window).Some?
    ensures Fill(InsertNew(table, zone, Absent(seen, zone, start, end, pulled)), zone, hour, window).Some?
  {
    PullAddsAbsent(seen, table, zone, start, end, pulled);
    CoverageStays(seen, InsertNew(table, zone, pulled), zone, hour - window, hour);
  }

  // ---------------------------------------------------------------- what new rows do to a fill

  /** The row that an hour's price comes from. */
  lemma {:induction false} FillSource(table: Table, zone: string, lo: int, hi: int) returns (time: int)
    requires LatestIn(table, zone, lo, hi).Some?
    ensures IsSource(table, zone, lo, hi, time)
    ensures LatestIn(table, zone, lo, hi) == Some(PriceAt(table, zone, time).value / 1000.0)
    decreases hi - lo
  {
    if PriceAt(table, zone, hi).Some? {
      time := hi;
    } else {
      time := FillSource(table, zone, lo, hi - 1);
    }
  }

  ghost predicate IsSource(table: Table, zone: string, lo: int, hi: int, time: int) {
    && lo <= time <= hi && PriceAt(table, zone, time).Some?
    && forall t :: time < t <= hi ==> PriceAt(table, zone, t).None?
  }

  /** A fill moves exactly when a row arrives after its source, and then it moves to the latest such row. */
  lemma NewRowsMoveFill(table: Table, more: Table, zone: string, lo: int, hi: int, was: int, now: int)
    requires Extends(more, table) && IsSource(table, zone, lo, hi, was) && IsSource(more, zone, lo, hi, now)
    ensures was <= now
    ensures was == now <==> forall t :: was < t <= hi ==> PriceAt(more, zone, t).None?
    ensures was == now ==> LatestIn(more, zone, lo, hi) == LatestIn(table, zone, lo, hi)
    ensures LatestIn(more, zone, lo, hi) == Some(PriceAt(more, zone, now).value / 1000.0)
  {
    LatestIsLatest(table, zone, lo, hi, was);
    LatestIsLatest(more, zone, lo, hi, now);
    assert PriceAt(more, zone, was) == PriceAt(table, zone, was);
  }
}
