/**
 Calendar and engine together: in a zone that keeps dates, the periods of a schedule's slots tile
 the calendar, so a run can only ever meet a draft of its own.
 */
module ReportDrafts {
  import opened ReportEngine
  import opened ReportTiming
  import Slots = ReportSlots
  import Approval = ReportApproval

  /** Different slots of a plan report on different periods. */
  ghost predicate PeriodsDiffer(plan: Plan) {
    forall j: nat, k: nat :: j != k ==>
      plan.periodStart(Slots.SlotOf(plan, j)) != plan.periodStart(Slots.SlotOf(plan, k))
  }

  ghost predicate AllDiffer(world: World) {
    forall id :: id in world ==> PeriodsDiffer(world[id])
  }

  lemma CalendarPeriodsDiffer(z: Zone, c: Cadence, created: int)
    requires ValidZone(z) && KeepsDates(z) && ValidCadence(c)
    ensures PeriodsDiffer(Slots.PlanOf(z, c, created))
  {
    var plan, p := Slots.PlanOf(z, c, created), Periods(z, c, created);
    PeriodsTile(z, c, created);
    forall j: nat, k: nat | j != k
      ensures plan.periodStart(Slots.SlotOf(plan, j)) != plan.periodStart(Slots.SlotOf(plan, k))
    {
      assert FollowsAt(p, j) && FollowsAt(p, k);
      if j < k { TilesRise(p, j, k); } else { TilesRise(p, k, j); }
      assert plan.periodStart(Slots.SlotOf(plan, j)) == p(j).first;
      assert plan.periodStart(Slots.SlotOf(plan, k)) == p(k).first;
    }
  }

  /** Every schedule has a valid cadence in a zone that keeps dates. */
  ghost predicate KeepsCalendar(world: World) {
    forall id :: id in world ==> PlanKeepsDates(world[id])
  }

  ghost predicate PlanKeepsDates(plan: Plan) {
    exists z: Zone, c: Cadence, created: int ::
      ValidZone(z) && KeepsDates(z) && ValidCadence(c) && plan == Slots.PlanOf(z, c, created)
  }

  lemma CalendarWorldDiffers(world: World)
    requires KeepsCalendar(world)
    ensures AllDiffer(world)
  {
    forall id | id in world
      ensures PeriodsDiffer(world[id])
    {
      assert PlanKeepsDates(world[id]);
      var z: Zone, c: Cadence, created: int :|
        ValidZone(z) && KeepsDates(z) && ValidCadence(c) && world[id] == Slots.PlanOf(z, c, created);
      CalendarPeriodsDiffer(z, c, created);
    }
  }

  /** A draft found under a run's (schedule, period) key was written for that very run. */
  lemma DraftIsOwn(world: World, clock: int, actions: seq<Action>, run: nat, i: nat)
    requires AllDiffer(world)
    requires var s := After(world, Start(world, clock), actions);
             && run < |s.runs| && i < |s.drafts| && s.runs[run].schedule in world
             && s.drafts[i].schedule == s.runs[run].schedule
             && s.drafts[i].period == world[s.runs[run].schedule].periodStart(s.runs[run].slot)
    ensures After(world, Start(world, clock), actions).drafts[i].run == run
  {
    var s := After(world, Start(world, clock), actions);
    var id := s.runs[run].schedule;
    var other := s.drafts[i].run;
    Slots.RunKeeps(world, clock, actions);
    Approval.RunKeeps(world, clock, actions);
    assert Approval.DraftOfRun(world, s.runs, s.drafts[i]);
    assert Slots.Ready(world, s.runs, id, s.runs[run].slot);
    assert Slots.Ready(world, s.runs, id, s.runs[other].slot);
    var j: nat :| s.runs[run].slot == Slots.SlotOf(world[id], j);
    var k: nat :| s.runs[other].slot == Slots.SlotOf(world[id], k);
    assert PeriodsDiffer(world[id]);
    assert j == k;
  }
}
