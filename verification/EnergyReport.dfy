/**
 Energy report aggregation: sessions of a window are accumulated per (month, group) row and, by the
 same accumulator, into one totals row. The rows must add up to the totals for every grouping.
 */
module EnergyReport {
  import opened Common

  const HOUR: real := 3_600_000_000.0
  const HALF_UNIT: real := 0.0000005

  datatype Session = Session(start: int, end: Option<int>, energy: Option<real>, cost: Option<real>,
                             vehicle: Option<string>, charger: Option<string>, driver: Option<string>,
                             card: Option<string>, cardLabel: Option<string>, cardTag: Option<string>)

  datatype GroupBy = NoGrouping | ByVehicle | ByCharger | ByDriver | ByCard

  /** A request: the half-open UTC window, the grouping, and the depot-local month of an instant. */
  datatype Query = Query(from: int, to: int, groupBy: GroupBy, bucketOf: int -> int)

  type Key = (int, Option<string>)

  // ---------------------------------------------------------------- grouping

  predicate Filled(text: Option<string>) {
    text.Some? && text.value != ""
  }

  /** Cards that share a label are one group; tag and id are the fallbacks. */
  function CardKey(row: Session): Option<string> {
    if row.card.None? then None
    else if Filled(row.cardLabel) then row.cardLabel
    else if Filled(row.cardTag) then row.cardTag
    else row.card
  }

  function GroupValue(row: Session, groupBy: GroupBy): Option<string> {
    match groupBy
    case NoGrouping => None
    case ByVehicle => row.vehicle
    case ByCharger => row.charger
    case ByDriver => row.driver
    case ByCard => CardKey(row)
  }

  /** The group of a session, column by column: a card goes by its label, failing that by its tag, failing that by
      its id, and a session without a card has no group. */
  lemma GroupMeans(row: Session)
    ensures GroupValue(row, NoGrouping) == None && GroupValue(row, ByVehicle) == row.vehicle
    ensures GroupValue(row, ByCharger) == row.charger && GroupValue(row, ByDriver) == row.driver
    ensures row.card == None ==> GroupValue(row, ByCard) == None
    ensures forall name :: row.card.Some? && name != "" && row.cardLabel == Some(name) ==>
              GroupValue(row, ByCard) == Some(name)
    ensures row.card.Some? && row.cardLabel in {None, Some("")} ==>
              forall name :: name != "" && row.cardTag == Some(name) ==> GroupValue(row, ByCard) == Some(name)
    ensures row.card.Some? && row.cardLabel in {None, Some("")} && row.cardTag in {None, Some("")} ==>
              GroupValue(row, ByCard) == row.card
  {
  }

  function KeyOf(q: Query, row: Session): Key {
    (q.bucketOf(row.start), GroupValue(row, q.groupBy))
  }

  predicate InWindow(q: Query, row: Session) {
    q.from <= row.start < q.to
  }

  /** A session belongs to the row of its local month and its group, and to no other. */
  lemma RowMeans(q: Query, k: Key, row: Session)
    ensures OfRow(q, k)(row) <==>
            q.from <= row.start < q.to && q.bucketOf(row.start) == k.0 && GroupValue(row, q.groupBy) == k.1
  {
  }

  // ---------------------------------------------------------------- accumulators

  datatype Agg = Agg(energy: real, energyWithDuration: real, sessions: nat, duration: real,
                     cost: real, missing: nat, energyMissing: real)

  function Zero(): Agg {
    Agg(0.0, 0.0, 0, 0.0, 0.0, 0, 0.0)
  }

  function Add(a: Agg, b: Agg): Agg {
    Agg(a.energy + b.energy, a.energyWithDuration + b.energyWithDuration, a.sessions + b.sessions,
        a.duration + b.duration, a.cost + b.cost, a.missing + b.missing, a.energyMissing + b.energyMissing)
  }

  function Duration(row: Session): real
    requires row.end.Some?
  {
    var hours := (row.end.value - row.start) as real / HOUR;
    if hours < 0.0 then 0.0 else hours
  }

  function Accumulate(agg: Agg, row: Session): Agg {
    var energy := if row.energy.Some? then row.energy.value else 0.0;
    var counted := agg.(energy := agg.energy + energy, sessions := agg.sessions + 1);
    var timed := if row.end.Some?
                 then counted.(duration := counted.duration + Duration(row),
                               energyWithDuration := counted.energyWithDuration + energy)
                 else counted;
    if row.cost.None?
    then timed.(missing := timed.missing + 1, energyMissing := timed.energyMissing + energy)
    else timed.(cost := timed.cost + row.cost.value)
  }

  lemma AccumulateAdds(agg: Agg, row: Session)
    ensures Accumulate(agg, row) == Add(agg, Accumulate(Zero(), row))
  {
  }

  /** The reference: what the picked sessions add up to. */
  function Total(sessions: seq<Session>, pick: Session -> bool): Agg {
    if sessions == [] then Zero()
    else
      var before, row := Total(sessions[..|sessions| - 1], pick), sessions[|sessions| - 1];
      if pick(row) then Add(before, Accumulate(Zero(), row)) else before
  }

  /** The sessions of one row, of some rows, and of the whole report. */
  function OfRow(q: Query, k: Key): Session -> bool {
    row => InWindow(q, row) && KeyOf(q, row) == k
  }

  function OfRows(q: Query, keys: seq<Key>): Session -> bool {
    row => InWindow(q, row) && KeyOf(q, row) in keys
  }

  function OfReport(q: Query): Session -> bool {
    row => InWindow(q, row)
  }

  ghost predicate Occurs(sessions: seq<Session>, pick: Session -> bool) {
    exists i :: 0 <= i < |sessions| && pick(sessions[i])
  }

  /** The rows of a report: one per key that occurs, each holding exactly its sessions. */
  ghost predicate AreRows(q: Query, sessions: seq<Session>, rows: map<Key, Agg>) {
    && (forall k :: k in rows <==> Occurs(sessions, OfRow(q, k)))
    && (forall k :: k in rows ==> rows[k] == Total(sessions, OfRow(q, k)))
  }

  /** `aggregate_energy_rows`, up to the order and the rendering of the rows. */
  method AggregateRows(q: Query, sessions: seq<Session>) returns (rows: map<Key, Agg>)
    ensures AreRows(q, sessions, rows)
  {
    rows := map[];
    for i := 0 to |sessions|
      invariant AreRows(q, sessions[..i], rows)
    {
      var row := sessions[i];
      ghost var before := rows;
      var key := KeyOf(q, row);
      if InWindow(q, row) {
        var agg := if key in rows then rows[key] else Zero();
        AccumulateAdds(agg, row);
        rows := rows[key := Accumulate(agg, row)];
      }
      RowsGrow(q, sessions, i, before, rows);
    }
    assert sessions[..|sessions|] == sessions;
  }

  lemma OccursGrows(sessions: seq<Session>, i: nat, pick: Session -> bool)
    requires i < |sessions|
    ensures Occurs(sessions[..i + 1], pick) <==> Occurs(sessions[..i], pick) || pick(sessions[i])
  {
    var before, after := sessions[..i], sessions[..i + 1];
    if Occurs(before, pick) {
      var j :| 0 <= j < |before| && pick(before[j]);
      assert after[j] == before[j];
    }
    if Occurs(after, pick) {
      var j :| 0 <= j < |after| && pick(after[j]);
      if j < i { assert before[j] == after[j]; }
    }
    assert after[i] == sessions[i];
  }

  lemma TotalGrows(sessions: seq<Session>, i: nat, pick: Session -> bool)
    requires i < |sessions|
    ensures Total(sessions[..i + 1], pick) ==
            if pick(sessions[i]) then Add(Total(sessions[..i], pick), Accumulate(Zero(), sessions[i]))
            else Total(sessions[..i], pick)
  {
    assert sessions[..i + 1][..i] == sessions[..i];
  }

  lemma {:induction false} AbsentTotal(sessions: seq<Session>, pick: Session -> bool)
    requires !Occurs(sessions, pick)
    ensures Total(sessions, pick) == Zero()
  {
    if sessions != [] {
      var before := sessions[..|sessions| - 1];
      assert forall i :: 0 <= i < |before| ==> before[i] == sessions[i];
      AbsentTotal(before, pick);
    }
  }

  lemma RowsGrow(q: Query, sessions: seq<Session>, i: nat, before: map<Key, Agg>, after: map<Key, Agg>)
    requires i < |sessions| && AreRows(q, sessions[..i], before)
    requires var row, key := sessions[i], KeyOf(q, sessions[i]);
             after == if InWindow(q, row)
                      then before[key := Add(if key in before then before[key] else Zero(), Accumulate(Zero(), row))]
                      else before
    ensures AreRows(q, sessions[..i + 1], after)
  {
    forall k
      ensures k in after <==> Occurs(sessions[..i + 1], OfRow(q, k))
      ensures k in after ==> after[k] == Total(sessions[..i + 1], OfRow(q, k))
    {
      OccursGrows(sessions, i, OfRow(q, k));
      TotalGrows(sessions, i, OfRow(q, k));
      if k !in before { AbsentTotal(sessions[..i], OfRow(q, k)); }
    }
  }

  /** `compute_energy_totals`, up to rendering. */
  method ComputeTotals(q: Query, sessions: seq<Session>) returns (agg: Agg)
    ensures agg == Total(sessions, OfReport(q))
  {
    agg := Zero();
    for i := 0 to |sessions|
      invariant agg == Total(sessions[..i], OfReport(q))
    {
      TotalGrows(sessions, i, OfReport(q));
      if InWindow(q, sessions[i]) {
        AccumulateAdds(agg, sessions[i]);
        agg := Accumulate(agg, sessions[i]);
      }
    }
    assert sessions[..|sessions|] == sessions;
  }

  // ---------------------------------------------------------------- what the accumulators hold

  function SumOf(sessions: seq<Session>, pick: Session -> bool, f: Session -> real): real {
    if sessions == [] then 0.0
    else
      var before, row := SumOf(sessions[..|sessions| - 1], pick, f), sessions[|sessions| - 1];
      if pick(row) then before + f(row) else before
  }

  function CountOf(sessions: seq<Session>, pick: Session -> bool, also: Session -> bool): nat {
    if sessions == [] then 0
    else
      var before, row := CountOf(sessions[..|sessions| - 1], pick, also), sessions[|sessions| - 1];
      if pick(row) && also(row) then before + 1 else before
  }

  /** Energy delivered, counting a missing value as none. */
  function Kwh(row: Session): real {
    match row.energy
    case Some(kwh) => kwh
    case None => 0.0
  }

  /** Hours from start to end; none for an open session or one that ends before it starts. */
  function HoursOf(row: Session): real {
    match row.end
    case Some(end) => if row.start <= end then (end - row.start) as real / 3_600_000_000.0 else 0.0
    case None => 0.0
  }

  predicate Always(row: Session) { true }

  predicate LacksCost(row: Session) { row.cost == None }

  function KwhIfEnded(row: Session): real { if row.end == None then 0.0 else Kwh(row) }

  function KwhIfUnpriced(row: Session): real { if row.cost == None then Kwh(row) else 0.0 }

  function OwnCost(row: Session): real {
    match row.cost
    case Some(cost) => cost
    case None => 0.0
  }

  /** The seven accumulators are plain sums over the sessions picked. */
  lemma {:induction false} TotalMeans(sessions: seq<Session>, pick: Session -> bool)
    ensures var t := Total(sessions, pick);
            && t.energy == SumOf(sessions, pick, Kwh)
            && t.energyWithDuration == SumOf(sessions, pick, KwhIfEnded)
            && t.sessions == CountOf(sessions, pick, Always)
            && t.duration == SumOf(sessions, pick, HoursOf)
            && t.cost == SumOf(sessions, pick, OwnCost)
            && t.missing == CountOf(sessions, pick, LacksCost)
            && t.energyMissing == SumOf(sessions, pick, KwhIfUnpriced)
  {
    if sessions != [] {
      TotalMeans(sessions[..|sessions| - 1], pick);
      OneMeans(sessions[|sessions| - 1]);
    }
  }

  lemma OneMeans(row: Session)
    ensures var one := Accumulate(Zero(), row);
            && one.energy == Kwh(row) && one.energyWithDuration == KwhIfEnded(row)
            && one.sessions == 1 && one.duration == HoursOf(row) && one.cost == OwnCost(row)
            && one.missing == Bit(LacksCost(row)) && one.energyMissing == KwhIfUnpriced(row)
  {
    if row.end.Some? && row.end.value < row.start { assert (row.end.value - row.start) as real / HOUR < 0.0; }
  }

  /** Reports over adjacent windows add up to the report over both: the window is closed at its start and open at
      its end. */
  lemma WindowsAddUp(q: Query, mid: int, sessions: seq<Session>)
    requires q.from <= mid <= q.to
    ensures Total(sessions, OfReport(q)) ==
            Add(Total(sessions, OfReport(q.(to := mid))), Total(sessions, OfReport(q.(from := mid))))
    ensures forall row :: OfReport(q)(row) <==> q.from <= row.start < q.to
  {
    TotalSplits(sessions, OfReport(q.(to := mid)), OfReport(q.(from := mid)), OfReport(q));
  }

  // ---------------------------------------------------------------- rows add up

  /** A listing of the rows: every row once, in any order. */
  ghost predicate Lists(keys: seq<Key>, rows: map<Key, Agg>) {
    && (forall k :: k in keys <==> k in rows)
    && (forall i, j :: 0 <= i < j < |keys| ==> keys[i] != keys[j])
  }

  function SumRows(keys: seq<Key>, rows: map<Key, Agg>): Agg
    requires forall k :: k in keys ==> k in rows
  {
    if keys == [] then Zero() else Add(rows[keys[0]], SumRows(keys[1..], rows))
  }

  lemma AddRegroups(x: Agg, y: Agg, z: Agg)
    ensures Add(Add(x, y), z) == Add(Add(x, z), y) == Add(x, Add(y, z))
  {
  }

  lemma NothingSplits(a: Session -> bool, b: Session -> bool, both: Session -> bool)
    ensures Total([], both) == Add(Total([], a), Total([], b))
  {
  }

  lemma LastSplits(sessions: seq<Session>, a: Session -> bool, b: Session -> bool, both: Session -> bool)
    requires sessions != []
    requires forall row :: !(a(row) && b(row)) && (both(row) <==> a(row) || b(row))
    requires var before := sessions[..|sessions| - 1];
             Total(before, both) == Add(Total(before, a), Total(before, b))
    ensures Total(sessions, both) == Add(Total(sessions, a), Total(sessions, b))
  {
    var before, row := sessions[..|sessions| - 1], sessions[|sessions| - 1];
    var x, y, one := Total(before, a), Total(before, b), Accumulate(Zero(), row);
    AddRegroups(x, y, one);
    if a(row) {
      assert Total(sessions, both) == Add(Total(before, both), one);
      assert Total(sessions, a) == Add(x, one) && Total(sessions, b) == y;
    } else if b(row) {
      assert Total(sessions, both) == Add(Total(before, both), one);
      assert Total(sessions, a) == x && Total(sessions, b) == Add(y, one);
    }
  }

  /** Two disjoint picks add up to their union. */
  lemma {:induction false} TotalSplits(sessions: seq<Session>, a: Session -> bool, b: Session -> bool,
                                       both: Session -> bool)
    requires forall row :: !(a(row) && b(row)) && (both(row) <==> a(row) || b(row))
    ensures Total(sessions, both) == Add(Total(sessions, a), Total(sessions, b))
  {
    if sessions == [] {
      NothingSplits(a, b, both);
    } else {
      TotalSplits(sessions[..|sessions| - 1], a, b, both);
      LastSplits(sessions, a, b, both);
    }
  }

  lemma {:induction false} SumIsTotal(q: Query, sessions: seq<Session>, keys: seq<Key>, rows: map<Key, Agg>)
    requires forall k :: k in keys ==> k in rows && rows[k] == Total(sessions, OfRow(q, k))
    requires forall i, j :: 0 <= i < j < |keys| ==> keys[i] != keys[j]
    ensures SumRows(keys, rows) == Total(sessions, OfRows(q, keys))
  {
    if keys == [] {
      AbsentTotal(sessions, OfRows(q, keys));
    } else {
      var rest := keys[1..];
      SumIsTotal(q, sessions, rest, rows);
      assert keys[0] !in rest && forall k :: k in keys <==> k == keys[0] || k in rest;
      TotalSplits(sessions, OfRow(q, keys[0]), OfRows(q, rest), OfRows(q, keys));
    }
  }

  lemma {:induction false} SamePicks(sessions: seq<Session>, a: Session -> bool, b: Session -> bool)
    requires forall i :: 0 <= i < |sessions| ==> a(sessions[i]) == b(sessions[i])
    ensures Total(sessions, a) == Total(sessions, b)
  {
    if sessions != [] {
      var before := sessions[..|sessions| - 1];
      assert forall i :: 0 <= i < |before| ==> before[i] == sessions[i];
      SamePicks(before, a, b);
    }
  }

  /** All seven accumulators of the rows add up to the totals, for every grouping. */
  lemma RowsAddUp(q: Query, sessions: seq<Session>, rows: map<Key, Agg>, keys: seq<Key>)
    requires AreRows(q, sessions, rows) && Lists(keys, rows)
    ensures SumRows(keys, rows) == Total(sessions, OfReport(q))
  {
    SumIsTotal(q, sessions, keys, rows);
    forall i | 0 <= i < |sessions|
      ensures OfRows(q, keys)(sessions[i]) == OfReport(q)(sessions[i])
    {
      var k := KeyOf(q, sessions[i]);
      if InWindow(q, sessions[i]) { assert Occurs(sessions, OfRow(q, k)); }
    }
    SamePicks(sessions, OfRows(q, keys), OfReport(q));
  }

  // ---------------------------------------------------------------- cost

  predicate Estimated(agg: Agg) {
    agg.missing > 0
  }

  function CostAmount(agg: Agg, rate: Option<real>): real {
    if Estimated(agg)
    then agg.cost + (if rate.Some? then agg.energyMissing * rate.value else 0.0)
    else agg.cost
  }

  /** Energy without a cost comes only from sessions without a cost. */
  predicate Sound(agg: Agg) {
    agg.missing == 0 ==> agg.energyMissing == 0.0
  }

  lemma {:induction false} TotalsAreSound(sessions: seq<Session>, pick: Session -> bool)
    ensures Sound(Total(sessions, pick))
  {
    if sessions != [] { TotalsAreSound(sessions[..|sessions| - 1], pick); }
  }

  lemma CostAdds(a: Agg, b: Agg, rate: Option<real>)
    requires Sound(a) && Sound(b)
    ensures Sound(Add(a, b)) && CostAmount(Add(a, b), rate) == CostAmount(a, rate) + CostAmount(b, rate)
    ensures Estimated(Add(a, b)) <==> Estimated(a) || Estimated(b)
  {
    if rate.Some? {
      assert (a.energyMissing + b.energyMissing) * rate.value ==
             a.energyMissing * rate.value + b.energyMissing * rate.value;
    }
  }

  /** The cost of a row session by session: its own cost, or its energy at the rate, or nothing. */
  function CostOf(row: Session, rate: Option<real>): real {
    match row.cost
    case Some(cost) => cost
    case None => if rate.Some? then Kwh(row) * rate.value else 0.0
  }

  function CostAt(rate: Option<real>): Session -> real {
    row => CostOf(row, rate)
  }

  /** A row's cost is the sum of its sessions' costs, and it is estimated exactly when one of them has none. */
  lemma {:induction false} CostMeans(sessions: seq<Session>, pick: Session -> bool, rate: Option<real>)
    ensures CostAmount(Total(sessions, pick), rate) == SumOf(sessions, pick, CostAt(rate))
    ensures Estimated(Total(sessions, pick)) <==>
            exists i :: 0 <= i < |sessions| && pick(sessions[i]) && sessions[i].cost.None?
  {
    if sessions != [] {
      var before, row := sessions[..|sessions| - 1], sessions[|sessions| - 1];
      CostMeans(before, pick, rate);
      TotalsAreSound(before, pick);
      OneMeans(row);
      var one := Accumulate(Zero(), row);
      assert Sound(one);
      CostAdds(Total(before, pick), one, rate);
      assert CostAmount(one, rate) == CostOf(row, rate);
      assert forall i :: 0 <= i < |before| ==> before[i] == sessions[i];
    }
  }

  function SumCosts(keys: seq<Key>, rows: map<Key, Agg>, rate: Option<real>): real
    requires forall k :: k in keys ==> k in rows
  {
    if keys == [] then 0.0 else CostAmount(rows[keys[0]], rate) + SumCosts(keys[1..], rows, rate)
  }

  lemma {:induction false} CostsOfSum(keys: seq<Key>, rows: map<Key, Agg>, rate: Option<real>)
    requires forall k :: k in keys ==> k in rows && Sound(rows[k])
    ensures Sound(SumRows(keys, rows)) && CostAmount(SumRows(keys, rows), rate) == SumCosts(keys, rows, rate)
    ensures Estimated(SumRows(keys, rows)) <==> exists k :: k in keys && Estimated(rows[k])
  {
    if keys != [] {
      CostsOfSum(keys[1..], rows, rate);
      CostAdds(rows[keys[0]], SumRows(keys[1..], rows), rate);
      assert forall k :: k in keys <==> k == keys[0] || k in keys[1..];
    }
  }

  /** Unrounded costs add up exactly, and the totals are flagged as estimated exactly when a row is. */
  lemma CostsAddUp(q: Query, sessions: seq<Session>, rows: map<Key, Agg>, keys: seq<Key>, rate: Option<real>)
    requires AreRows(q, sessions, rows) && Lists(keys, rows)
    ensures SumCosts(keys, rows, rate) == CostAmount(Total(sessions, OfReport(q)), rate)
    ensures Estimated(Total(sessions, OfReport(q))) <==> exists k :: k in keys && Estimated(rows[k])
  {
    forall k | k in keys
      ensures Sound(rows[k])
    {
      TotalsAreSound(sessions, OfRow(q, k));
    }
    RowsAddUp(q, sessions, rows, keys);
    CostsOfSum(keys, rows, rate);
  }

  // ---------------------------------------------------------------- rounding

  /** `round(x, 6)`: the nearest millionth, halves to the even one. */
  function Round6(x: real): (r: real)
    ensures -HALF_UNIT <= r - x <= HALF_UNIT
    ensures (r * 1000000.0).Floor as real == r * 1000000.0
    ensures r - x == HALF_UNIT || x - r == HALF_UNIT ==> (r * 1000000.0).Floor % 2 == 0
  {
    var scaled := x * 1000000.0;
    var low := scaled.Floor;
    var rest := scaled - low as real;
    var nearest := if rest < 0.5 || (rest == 0.5 && low % 2 == 0) then low else low + 1;
    nearest as real / 1000000.0
  }

  function SumRounded(keys: seq<Key>, rows: map<Key, Agg>, rate: Option<real>): real
    requires forall k :: k in keys ==> k in rows
  {
    if keys == [] then 0.0 else Round6(CostAmount(rows[keys[0]], rate)) + SumRounded(keys[1..], rows, rate)
  }

  lemma {:induction false} RoundingDrift(keys: seq<Key>, rows: map<Key, Agg>, rate: Option<real>)
    requires forall k :: k in keys ==> k in rows
    ensures var bound := |keys| as real * HALF_UNIT;
            -bound <= SumRounded(keys, rows, rate) - SumCosts(keys, rows, rate) <= bound
  {
    if keys != [] {
      RoundingDrift(keys[1..], rows, rate);
      assert |keys| as real * HALF_UNIT == |keys[1..]| as real * HALF_UNIT + HALF_UNIT;
    }
  }

  /** The rounded rows miss the rounded total by at most half a unit per row and half a unit more. */
  lemma RoundedCostsDrift(q: Query, sessions: seq<Session>, rows: map<Key, Agg>, keys: seq<Key>, rate: Option<real>)
    requires AreRows(q, sessions, rows) && Lists(keys, rows)
    ensures var total := Round6(CostAmount(Total(sessions, OfReport(q)), rate));
            var bound := (|keys| + 1) as real * HALF_UNIT;
            -bound <= SumRounded(keys, rows, rate) - total <= bound
  {
    CostsAddUp(q, sessions, rows, keys, rate);
    RoundingDrift(keys, rows, rate);
    assert (|keys| + 1) as real * HALF_UNIT == |keys| as real * HALF_UNIT + HALF_UNIT;
  }
}
