/**
 Two statements for the freshest state of charge of a vehicle over a charger feed and a telematics
 feed: the latest row of the union of the feeds, and a join of each feed's latest row.
 */
module VehicleSoc {
  import opened Common

  /** A telemetry row; `plug` stands for the power and plug columns, which telematics rows do not have. */
  datatype Reading = Reading(vehicle: string, time: int, soc: Option<real>, plug: Option<nat>)

  /** A row of a query with its source priority: charger rows 0, telematics rows 1. */
  datatype Tagged = Tagged(row: Reading, priority: nat)

  /** What both statements report for a vehicle. */
  datatype Charge = Charge(time: int, soc: Option<real>)

  predicate InScope(r: Reading, vehicle: string, floor: int) {
    r.vehicle == vehicle && r.time > floor
  }

  /** The rows of one vehicle inside the window, with their priority; `known` drops those without a SoC. */
  function Scan(rows: seq<Reading>, vehicle: string, floor: int, known: bool, priority: nat): (found: seq<Tagged>)
    ensures forall t :: t in found <==>
              t.priority == priority && t.row in rows && InScope(t.row, vehicle, floor) && (known ==> t.row.soc.Some?)
  {
    if rows == [] then []
    else
      var rest := Scan(rows[1..], vehicle, floor, known, priority);
      if InScope(rows[0], vehicle, floor) && (known ==> rows[0].soc.Some?) then [Tagged(rows[0], priority)] + rest
      else rest
  }

  /** `a` sorts strictly before `b`: later first, then by priority. */
  predicate Before(a: Tagged, b: Tagged) {
    a.row.time > b.row.time || (a.row.time == b.row.time && a.priority < b.priority)
  }

  /** The first row in the order of the statement. */
  function First(rows: seq<Tagged>): (r: Option<Tagged>)
    ensures r.None? <==> rows == []
    ensures r.Some? ==> r.value in rows && forall t :: t in rows ==> !Before(t, r.value)
  {
    if rows == [] then None
    else
      var rest := First(rows[1..]);
      assert forall t :: t in rows ==> t == rows[0] || t in rows[1..];
      if rest.Some? && Before(rest.value, rows[0]) then rest else Some(rows[0])
  }

  /** `_MERGED_VEHICLE_SOC_SQL` for one vehicle. */
  function LatestOfUnion(charger: seq<Reading>, telematics: seq<Reading>, vehicle: string, floor: int): Option<Charge> {
    var r := First(Scan(charger, vehicle, floor, true, 0) + Scan(telematics, vehicle, floor, true, 1));
    if r.None? then None else Some(Charge(r.value.row.time, r.value.row.soc))
  }

  /** `_MERGED_VEHICLE_TELEMETRY_SQL` for one vehicle: the charge, and the charger's other columns. */
  function JoinOfLatest(charger: seq<Reading>, telematics: seq<Reading>, vehicle: string, floor: int)
    : Option<(Charge, Option<nat>)>
  {
    var c := First(Scan(charger, vehicle, floor, false, 0));
    var t := First(Scan(telematics, vehicle, floor, true, 1));
    if c.None? && t.None? then None
    else if c.None? then Some((Charge(t.value.row.time, t.value.row.soc), None))
    else
      var plug := c.value.row.plug;
      if t.None? then Some((Charge(c.value.row.time, c.value.row.soc), plug))
      else if t.value.row.time > c.value.row.time then Some((Charge(t.value.row.time, t.value.row.soc), plug))
      else Some((Charge(c.value.row.time, c.value.row.soc), plug))
  }

  function Charges(join: Option<(Charge, Option<nat>)>): Option<Charge> {
    if join.None? then None else Some(join.value.0)
  }

  /** One row per vehicle and time in a feed. */
  ghost predicate UniqueTimes(rows: seq<Reading>) {
    forall a, b :: a in rows && b in rows && a.vehicle == b.vehicle && a.time == b.time ==> a == b
  }

  /** The vehicle's latest charger row in the window has no SoC, and no telematics row with one is newer. */
  ghost predicate LatestIsBlank(charger: seq<Reading>, telematics: seq<Reading>, vehicle: string, floor: int) {
    exists c ::
      && c in charger && c.vehicle == vehicle && c.time > floor && c.soc.None?
      && (forall d :: d in charger && d.vehicle == vehicle && d.time > floor ==> d.time <= c.time)
      && (forall t :: t in telematics && t.vehicle == vehicle && t.time > floor && t.soc.Some? ==> t.time <= c.time)
  }

  /** `best` is the freshest known charge: no known row of either feed is newer, and it is the charger's on a tie. */
  ghost predicate IsFreshest(charger: seq<Reading>, telematics: seq<Reading>, vehicle: string, floor: int,
                             best: Charge)
  {
    && best.soc.Some?
    && (forall r :: (r in charger || r in telematics) && r.vehicle == vehicle && r.time > floor && r.soc.Some? ==>
          r.time <= best.time)
    && ((exists r :: r in charger && r.vehicle == vehicle && r.time > floor &&
                    r.time == best.time && r.soc == best.soc) ||
        ((exists r :: r in telematics && r.vehicle == vehicle && r.time > floor &&
                       r.time == best.time && r.soc == best.soc) &&
         (forall r :: r in charger && r.vehicle == vehicle && r.time > floor && r.soc.Some? ==> r.time != best.time)))
  }

  ghost predicate HasKnown(rows: seq<Reading>, vehicle: string, floor: int) {
    exists r :: r in rows && r.vehicle == vehicle && r.time > floor && r.soc.Some?
  }

  /** The union statement reports the freshest known charge whenever a feed has one. */
  lemma UnionIsFreshest(charger: seq<Reading>, telematics: seq<Reading>, vehicle: string, floor: int)
    ensures var r := LatestOfUnion(charger, telematics, vehicle, floor);
            && (r.Some? <==> HasKnown(charger, vehicle, floor) || HasKnown(telematics, vehicle, floor))
            && (r.Some? ==> IsFreshest(charger, telematics, vehicle, floor, r.value))
  {
    var cs, ts := Scan(charger, vehicle, floor, true, 0), Scan(telematics, vehicle, floor, true, 1);
    var first := First(cs + ts);
    forall r | r in charger && InScope(r, vehicle, floor) && r.soc.Some?
      ensures Tagged(r, 0) in cs + ts
    {
      assert Tagged(r, 0) in cs;
    }
    forall r | r in telematics && InScope(r, vehicle, floor) && r.soc.Some?
      ensures Tagged(r, 1) in cs + ts
    {
      assert Tagged(r, 1) in ts;
    }
    if first.Some? {
      assert first.value in cs || first.value in ts;
    }
  }

  /** The freshest known charge is determined by the rows. */
  lemma FreshestIsUnique(charger: seq<Reading>, telematics: seq<Reading>, vehicle: string, floor: int,
                         a: Charge, b: Charge)
    requires UniqueTimes(charger) && UniqueTimes(telematics)
    requires IsFreshest(charger, telematics, vehicle, floor, a) && IsFreshest(charger, telematics, vehicle, floor, b)
    ensures a == b
  {
  }

  /** The join statement reports the freshest known charge unless the latest charger row is blank. */
  lemma JoinIsFreshest(charger: seq<Reading>, telematics: seq<Reading>, vehicle: string, floor: int)
    requires UniqueTimes(charger) && UniqueTimes(telematics)
    ensures var r := Charges(JoinOfLatest(charger, telematics, vehicle, floor));
            && (LatestIsBlank(charger, telematics, vehicle, floor) ==> r.Some? && r.value.soc.None?)
            && (!LatestIsBlank(charger, telematics, vehicle, floor) ==>
                  && (r.Some? <==> HasKnown(charger, vehicle, floor) || HasKnown(telematics, vehicle, floor))
                  && (r.Some? ==> IsFreshest(charger, telematics, vehicle, floor, r.value)))
  {
    var c := First(Scan(charger, vehicle, floor, false, 0));
    var t := First(Scan(telematics, vehicle, floor, true, 1));
    FirstOfFeed(charger, vehicle, floor, false, 0);
    FirstOfFeed(telematics, vehicle, floor, true, 1);
    if c.Some? && c.value.row.soc.None? {
      assert !(t.Some? && t.value.row.time > c.value.row.time) ==> LatestIsBlank(charger, telematics, vehicle, floor);
    }
    if LatestIsBlank(charger, telematics, vehicle, floor) {
      assert c.Some? && c.value.row.soc.None?;
    } else {
      if t.Some? { assert HasKnown(telematics, vehicle, floor); }
      if c.Some? && c.value.row.soc.Some? { assert HasKnown(charger, vehicle, floor); }
    }
  }

  /** The first row of a feed is a latest one. */
  lemma FirstOfFeed(rows: seq<Reading>, vehicle: string, floor: int, known: bool, priority: nat)
    ensures var f := First(Scan(rows, vehicle, floor, known, priority));
            && (f.Some? ==>
                  f.value.row in rows && InScope(f.value.row, vehicle, floor) && (known ==> f.value.row.soc.Some?))
            && (forall r :: r in rows && InScope(r, vehicle, floor) && (known ==> r.soc.Some?) ==>
                  f.Some? && r.time <= f.value.row.time)
  {
    var found := Scan(rows, vehicle, floor, known, priority);
    forall r | r in rows && InScope(r, vehicle, floor) && (known ==> r.soc.Some?)
      ensures First(found).Some? && r.time <= First(found).value.row.time
    {
      assert Tagged(r, priority) in found;
    }
  }

  /** The two statements agree on a vehicle exactly when its latest charger row is not blank. */
  lemma JoinAgreesExactly(charger: seq<Reading>, telematics: seq<Reading>, vehicle: string, floor: int)
    requires UniqueTimes(charger) && UniqueTimes(telematics)
    ensures var join := Charges(JoinOfLatest(charger, telematics, vehicle, floor));
            join == LatestOfUnion(charger, telematics, vehicle, floor) <==>
            !LatestIsBlank(charger, telematics, vehicle, floor)
  {
    UnionIsFreshest(charger, telematics, vehicle, floor);
    JoinIsFreshest(charger, telematics, vehicle, floor);
    var r := Charges(JoinOfLatest(charger, telematics, vehicle, floor));
    var u := LatestOfUnion(charger, telematics, vehicle, floor);
    if !LatestIsBlank(charger, telematics, vehicle, floor) && r.Some? {
      FreshestIsUnique(charger, telematics, vehicle, floor, r.value, u.value);
    }
  }

  /** With no blank charger row in the window the statements report the same charge for every vehicle. */
  lemma JoinAgrees(charger: seq<Reading>, telematics: seq<Reading>, floor: int)
    requires UniqueTimes(charger) && UniqueTimes(telematics)
    requires forall c :: c in charger && c.time > floor ==> c.soc.Some?
    ensures forall v ::
              Charges(JoinOfLatest(charger, telematics, v, floor)) == LatestOfUnion(charger, telematics, v, floor)
  {
    forall v
      ensures Charges(JoinOfLatest(charger, telematics, v, floor)) == LatestOfUnion(charger, telematics, v, floor)
    {
      JoinAgreesExactly(charger, telematics, v, floor);
    }
  }

  /** The power and plug columns come from a latest charger row in the window, and are missing without one. */
  lemma PlugIsLatest(charger: seq<Reading>, telematics: seq<Reading>, vehicle: string, floor: int)
    ensures var join := JoinOfLatest(charger, telematics, vehicle, floor);
            && (join.Some? && (exists c :: c in charger && c.vehicle == vehicle && c.time > floor) ==>
                  exists c :: c in charger && c.vehicle == vehicle && c.time > floor && join.value.1 == c.plug &&
                    forall d :: d in charger && d.vehicle == vehicle && d.time > floor ==> d.time <= c.time)
            && (join.Some? && !(exists c :: c in charger && c.vehicle == vehicle && c.time > floor) ==>
                  join.value.1 == None)
  {
    var first := First(Scan(charger, vehicle, floor, false, 0));
    FirstOfFeed(charger, vehicle, floor, false, 0);
    if first.Some? {
      var c := first.value.row;
      assert c in charger && InScope(c, vehicle, floor);
      assert forall d :: d in charger && d.vehicle == vehicle && d.time > floor ==> InScope(d, vehicle, floor);
    } else {
      forall c | c in charger
        ensures !(c.vehicle == vehicle && c.time > floor)
      {
        assert !InScope(c, vehicle, floor);
      }
    }
  }

  /** A blank latest charger row hides a known charge that the union statement reports. */
  lemma BlankHidesCharge()
    ensures var charger := [Reading("bus", 2, None, Some(1)), Reading("bus", 1, Some(0.5), Some(1))];
            && LatestOfUnion(charger, [], "bus", 0) == Some(Charge(1, Some(0.5)))
            && JoinOfLatest(charger, [], "bus", 0) == Some((Charge(2, None), Some(1)))
  {
    var blank, known := Reading("bus", 2, None, Some(1)), Reading("bus", 1, Some(0.5), Some(1));
    var charger := [blank, known];
    UnionIsFreshest(charger, [], "bus", 0);
    assert known in charger && InScope(known, "bus", 0);
    assert HasKnown(charger, "bus", 0);
    var cs := Scan(charger, "bus", 0, false, 0);
    assert Tagged(blank, 0) in cs;
    assert First(cs) == Some(Tagged(blank, 0));
  }
}
