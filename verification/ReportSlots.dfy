/**
 Slot safety of the report engine: whatever the interleaving, the crashes and the takeovers of
 stale runs, no slot is claimed twice and no slot is dropped.
 */
module ReportSlots {
  import opened Common
  import opened ReportEngine
  import opened ReportTiming

  /** Slots rise along every plan; the calendar guarantees it for every valid cadence. */
  ghost predicate Rising(world: World) {
    forall id: nat, x: int :: id in world ==> x < world[id].next(x)
  }

  function SlotOf(plan: Plan, k: nat): int {
    Chain(plan.next, plan.first, k)
  }

  ghost predicate IsDone(runs: seq<Run>, id: nat, slot: int) {
    exists i :: 0 <= i < |runs| && runs[i].schedule == id && runs[i].slot == slot && runs[i].completed
  }

  ghost predicate DoneBefore(plan: Plan, runs: seq<Run>, id: nat, k: nat) {
    forall j: nat :: j < k ==> IsDone(runs, id, SlotOf(plan, j))
  }

  /** A slot of the schedule's chain all of whose predecessors have a completed run. */
  ghost predicate Ready(world: World, runs: seq<Run>, id: nat, slot: int) {
    id in world && exists k: nat :: slot == SlotOf(world[id], k) && DoneBefore(world[id], runs, id, k)
  }

  ghost predicate UniqueSlots(runs: seq<Run>) {
    forall i, j | 0 <= i < |runs| && 0 <= j < |runs| ::
      runs[i].schedule == runs[j].schedule && runs[i].slot == runs[j].slot ==> i == j
  }

  // ---------------------------------------------------------------- invariant

  predicate Settled(row: Run, due: Due, now: int) {
    row.schedule == due.schedule && row.slot == due.slot && (row.completed || row.triggeredAt > now - HOUR)
  }

  /** The statements a worker's execution goes through; an approver's are the rest. */
  predicate WorkerWork(work: Work) {
    && !work.Settle?
    && (work.ReadRecipients? || work.ReadLedger? || work.Send? || work.Record? ==> work.goal.Report?)
  }

  ghost predicate JobOk(world: World, s: State, now: int, job: Job) {
    match job
    case Between => true
    case Claim(due) => Ready(world, s.runs, due.schedule, due.slot)
    case Takeover(due) => Ready(world, s.runs, due.schedule, due.slot) && HasRun(s.runs, due)
    case Probe(due) =>
      && Ready(world, s.runs, due.schedule, due.slot)
      && exists i :: 0 <= i < |s.runs| && Settled(s.runs[i], due, now)
    case Execute(due, run, work) =>
      && Ready(world, s.runs, due.schedule, due.slot) && WorkerWork(work)
      && run < |s.runs| && s.runs[run].schedule == due.schedule && s.runs[run].slot == due.slot
    case Advance(due, _) => Ready(world, s.runs, due.schedule, due.slot) && IsDone(s.runs, due.schedule, due.slot)
  }

  ghost predicate ProcOk(world: World, s: State, q: Process) {
    match q
    case Idle => true
    case Approver(run, _) => run < |s.runs|
    case Worker(now, rest, job) =>
      && (forall d :: d in rest ==> Ready(world, s.runs, d.schedule, d.slot))
      && JobOk(world, s, now, job)
  }

  ghost predicate RowsOk(world: World, s: State) {
    && UniqueSlots(s.runs)
    && forall i :: 0 <= i < |s.runs| ==>
         s.runs[i].triggeredAt <= s.clock && Ready(world, s.runs, s.runs[i].schedule, s.runs[i].slot)
  }

  ghost predicate NextOk(world: World, s: State) {
    s.nextRunAt.Keys == world.Keys
    && forall id :: id in world ==> Ready(world, s.runs, id, s.nextRunAt[id])
  }

  ghost predicate Inv(world: World, s: State) {
    RowsOk(world, s) && NextOk(world, s) && forall p :: p in s.procs ==> ProcOk(world, s, s.procs[p])
  }

  // ---------------------------------------------------------------- tables only grow

  predicate RowGrows(a: Run, b: Run) {
    a.schedule == b.schedule && a.slot == b.slot && a.triggeredAt <= b.triggeredAt && (a.completed ==> b.completed)
  }

  ghost predicate Grows(s: State, t: State) {
    && s.clock <= t.clock && |s.runs| <= |t.runs|
    && forall i :: 0 <= i < |s.runs| ==> RowGrows(s.runs[i], t.runs[i])
  }

  lemma DoneStays(s: State, t: State, id: nat, slot: int)
    requires Grows(s, t) && IsDone(s.runs, id, slot)
    ensures IsDone(t.runs, id, slot)
  {
    var i :| 0 <= i < |s.runs| && s.runs[i].schedule == id && s.runs[i].slot == slot && s.runs[i].completed;
    assert RowGrows(s.runs[i], t.runs[i]);
  }

  lemma ReadyStays(world: World, s: State, t: State, id: nat, slot: int)
    requires Grows(s, t) && Ready(world, s.runs, id, slot)
    ensures Ready(world, t.runs, id, slot)
  {
    var k: nat :| slot == SlotOf(world[id], k) && DoneBefore(world[id], s.runs, id, k);
    forall j: nat | j < k
      ensures IsDone(t.runs, id, SlotOf(world[id], j))
    {
      DoneStays(s, t, id, SlotOf(world[id], j));
    }
    assert DoneBefore(world[id], t.runs, id, k);
  }

  lemma JobStays(world: World, s: State, t: State, now: int, job: Job)
    requires Grows(s, t) && JobOk(world, s, now, job)
    ensures JobOk(world, t, now, job)
  {
    if job.Between? {
      return;
    }
    ReadyStays(world, s, t, job.due.schedule, job.due.slot);
    match job {
      case Takeover(due) =>
        var i :| 0 <= i < |s.runs| && s.runs[i].schedule == due.schedule && s.runs[i].slot == due.slot;
        assert RowGrows(s.runs[i], t.runs[i]);
      case Probe(due) =>
        var i :| 0 <= i < |s.runs| && Settled(s.runs[i], due, now);
        assert RowGrows(s.runs[i], t.runs[i]);
        assert Settled(t.runs[i], due, now);
      case Execute(due, run, _) => assert RowGrows(s.runs[run], t.runs[run]);
      case Advance(due, _) => DoneStays(s, t, due.schedule, due.slot);
      case _ =>
    }
  }

  lemma ProcStays(world: World, s: State, t: State, q: Process)
    requires Grows(s, t) && ProcOk(world, s, q)
    ensures ProcOk(world, t, q)
  {
    if q.Worker? {
      forall d | d in q.rest
        ensures Ready(world, t.runs, d.schedule, d.slot)
      {
        ReadyStays(world, s, t, d.schedule, d.slot);
      }
      JobStays(world, s, t, q.now, q.job);
    }
  }

  /** A step of one process keeps the invariant when the tables grow and its own claims hold. */
  lemma Keep(world: World, s: State, t: State, p: nat)
    requires Inv(world, s) && Grows(s, t)
    requires UniqueSlots(t.runs)
    requires forall i :: 0 <= i < |t.runs| ==> t.runs[i].triggeredAt <= t.clock
    requires forall i :: |s.runs| <= i < |t.runs| ==> Ready(world, s.runs, t.runs[i].schedule, t.runs[i].slot)
    requires t.nextRunAt == s.nextRunAt || NextOk(world, t)
    requires forall q :: q in t.procs && q != p ==> q in s.procs && t.procs[q] == s.procs[q]
    requires p in t.procs ==> ProcOk(world, t, t.procs[p])
    ensures Inv(world, t)
  {
    forall i | 0 <= i < |t.runs|
      ensures Ready(world, t.runs, t.runs[i].schedule, t.runs[i].slot)
    {
      if i < |s.runs| {
        assert RowGrows(s.runs[i], t.runs[i]);
      }
      ReadyStays(world, s, t, t.runs[i].schedule, t.runs[i].slot);
    }
    if t.nextRunAt == s.nextRunAt {
      forall id | id in world
        ensures Ready(world, t.runs, id, t.nextRunAt[id])
      {
        ReadyStays(world, s, t, id, s.nextRunAt[id]);
      }
    }
    forall q | q in t.procs
      ensures ProcOk(world, t, t.procs[q])
    {
      if q != p { ProcStays(world, s, t, s.procs[q]); }
    }
  }

  /** A step that leaves the run rows alone keeps the invariant when its own process does. */
  lemma KeepRows(world: World, s: State, t: State, p: nat)
    requires Inv(world, s) && t.runs == s.runs && s.clock <= t.clock
    requires t.nextRunAt == s.nextRunAt || NextOk(world, t)
    requires forall q :: q in t.procs && q != p ==> q in s.procs && t.procs[q] == s.procs[q]
    requires p in t.procs && !(p in s.procs && t.procs[p] == s.procs[p]) ==> ProcOk(world, s, t.procs[p])
    ensures Inv(world, t)
  {
    forall q | q in t.procs
      ensures ProcOk(world, t, t.procs[q])
    {
      assert ProcOk(world, s, t.procs[q]);
      ProcStays(world, s, t, t.procs[q]);
    }
  }

  // ---------------------------------------------------------------- the steps

  /** What one step of an execution may do to the slot columns: at most complete its own row. */
  ghost predicate OwnRowOnly(s: State, t: State) {
    && t.clock == s.clock && t.nextRunAt == s.nextRunAt && t.procs == s.procs && |t.runs| == |s.runs|
    && forall i :: 0 <= i < |s.runs| ==>
         RowGrows(s.runs[i], t.runs[i]) && t.runs[i].triggeredAt == s.runs[i].triggeredAt
  }

  lemma StepOwnRow(world: World, s: State, run: nat, work: Work, choice: Choice)
    requires run < |s.runs|
    ensures OwnRowOnly(s, Step(world, s, run, work, choice).state)
    ensures var r := Step(world, s, run, work, choice);
            r.Done? && r.outcome.Some? ==> r.state.runs[run].completed
  {
  }

  lemma StepOfWorker(world: World, s: State, run: nat, work: Work, choice: Choice)
    requires run < |s.runs| && WorkerWork(work)
    ensures var r := Step(world, s, run, work, choice);
            if r.Done? then r.outcome.Some? else WorkerWork(r.work)
  {
  }

  lemma UniqueStays(s: State, t: State)
    requires UniqueSlots(s.runs) && |t.runs| == |s.runs|
    requires forall i :: 0 <= i < |s.runs| ==> RowGrows(s.runs[i], t.runs[i])
    ensures UniqueSlots(t.runs)
  {
    forall i, j | 0 <= i < |t.runs| && 0 <= j < |t.runs|
                  && t.runs[i].schedule == t.runs[j].schedule && t.runs[i].slot == t.runs[j].slot
      ensures i == j
    {
      assert RowGrows(s.runs[i], t.runs[i]) && RowGrows(s.runs[j], t.runs[j]);
    }
  }

  /** Advancing past a completed slot reaches a slot whose predecessors are all completed. */
  lemma NextIsReady(world: World, runs: seq<Run>, id: nat, slot: int)
    requires Ready(world, runs, id, slot) && IsDone(runs, id, slot)
    ensures Ready(world, runs, id, world[id].next(slot))
  {
    var plan := world[id];
    var k: nat :| slot == SlotOf(plan, k) && DoneBefore(plan, runs, id, k);
    assert DoneBefore(plan, runs, id, k + 1);
    assert plan.next(slot) == SlotOf(plan, k + 1);
  }

  lemma ExecuteKeeps(world: World, s: State, p: nat, q: Process, choice: Choice)
    requires Inv(world, s) && ProcOk(world, s, q) && q.Worker? && q.job.Execute?
    ensures Inv(world, WorkerStep(world, s, p, q, choice))
  {
    var due, run, work := q.job.due, q.job.run, q.job.work;
    var t := WorkerStep(world, s, p, q, choice);
    if choice.Raise? {
      ProcStays(world, s, t, q);
    } else {
      StepOwnRow(world, s, run, work, choice);
      StepOfWorker(world, s, run, work, choice);
      var r := Step(world, s, run, work, choice);
      UniqueStays(s, r.state);
      ProcStays(world, s, t, q);
      assert RowGrows(s.runs[run], t.runs[run]);
    }
    Keep(world, s, t, p);
  }

  lemma ApproverKeeps(world: World, s: State, p: nat, q: Process, choice: Choice)
    requires Inv(world, s) && ProcOk(world, s, q) && q.Approver?
    ensures Inv(world, ApproverStep(world, s, p, q, choice))
  {
    var t := ApproverStep(world, s, p, q, choice);
    if !choice.Raise? {
      StepOwnRow(world, s, q.run, q.work, choice);
      UniqueStays(s, Step(world, s, q.run, q.work, choice).state);
    }
    Keep(world, s, t, p);
  }

  lemma ClaimKeeps(world: World, s: State, p: nat, q: Process, choice: Choice)
    requires Inv(world, s) && ProcOk(world, s, q) && q.Worker? && q.job.Claim?
    ensures Inv(world, WorkerStep(world, s, p, q, choice))
  {
    var due := q.job.due;
    var t := WorkerStep(world, s, p, q, choice);
    ProcStays(world, s, t, q);
    Keep(world, s, t, p);
  }

  lemma TakeoverKeeps(world: World, s: State, p: nat, q: Process, choice: Choice)
    requires Inv(world, s) && ProcOk(world, s, q) && q.Worker? && q.job.Takeover?
    ensures Inv(world, WorkerStep(world, s, p, q, choice))
  {
    var due := q.job.due;
    var t := WorkerStep(world, s, p, q, choice);
    var i := FindRun(s.runs, due);
    assert i < |s.runs|;
    UniqueStays(s, t);
    ProcStays(world, s, t, q);
    if t.procs[p].job.Probe? {
      assert Settled(t.runs[i], due, q.now);
    }
    Keep(world, s, t, p);
  }

  lemma ProbeKeeps(world: World, s: State, p: nat, q: Process, choice: Choice)
    requires Inv(world, s) && ProcOk(world, s, q) && q.Worker? && q.job.Probe?
    ensures Inv(world, WorkerStep(world, s, p, q, choice))
  {
    var due := q.job.due;
    var t := WorkerStep(world, s, p, q, choice);
    var j :| 0 <= j < |s.runs| && Settled(s.runs[j], due, q.now);
    assert FindRun(s.runs, due) == j;
    if s.runs[j].completed { assert IsDone(s.runs, due.schedule, due.slot); }
    KeepRows(world, s, t, p);
  }

  lemma AdvanceKeeps(world: World, s: State, p: nat, q: Process, choice: Choice)
    requires Inv(world, s) && ProcOk(world, s, q) && q.Worker? && q.job.Advance?
    ensures Inv(world, WorkerStep(world, s, p, q, choice))
  {
    var due := q.job.due;
    var t := WorkerStep(world, s, p, q, choice);
    NextIsReady(world, s.runs, due.schedule, due.slot);
    if t.nextRunAt != s.nextRunAt { NextMoves(world, s, t, due.schedule); }
    KeepRows(world, s, t, p);
  }

  lemma NextMoves(world: World, s: State, t: State, id: nat)
    requires NextOk(world, s) && id in world && t.runs == s.runs
    requires id in t.nextRunAt && t.nextRunAt == s.nextRunAt[id := t.nextRunAt[id]]
    requires Ready(world, s.runs, id, t.nextRunAt[id])
    ensures NextOk(world, t)
  {
  }

  lemma WorkerKeeps(world: World, s: State, p: nat, q: Process, choice: Choice)
    requires Inv(world, s) && ProcOk(world, s, q) && q.Worker?
    ensures Inv(world, WorkerStep(world, s, p, q, choice))
  {
    match q.job {
      case Between => KeepRows(world, s, WorkerStep(world, s, p, q, choice), p);
      case Claim(_) => ClaimKeeps(world, s, p, q, choice);
      case Takeover(_) => TakeoverKeeps(world, s, p, q, choice);
      case Probe(_) => ProbeKeeps(world, s, p, q, choice);
      case Execute(_, _, _) => ExecuteKeeps(world, s, p, q, choice);
      case Advance(_, _) => AdvanceKeeps(world, s, p, q, choice);
    }
  }

  lemma CrashKeeps(world: World, s: State, p: nat)
    requires Inv(world, s)
    ensures Inv(world, CrashStep(s, p))
  {
    KeepRows(world, s, CrashStep(s, p), p);
  }

  lemma TickKeeps(world: World, s: State, p: nat, now: int, due: seq<Due>)
    requires Inv(world, s)
    ensures Inv(world, TickStep(s, p, now, due))
  {
    KeepRows(world, s, TickStep(s, p, now, due), p);
  }

  lemma ApproveKeeps(world: World, s: State, p: nat, run: nat)
    requires Inv(world, s)
    ensures Inv(world, ApproveStep(s, p, run))
  {
    KeepRows(world, s, ApproveStep(s, p, run), p);
  }

  lemma RejectKeeps(world: World, s: State, run: nat)
    requires Inv(world, s)
    ensures Inv(world, RejectStep(s, run))
  {
    var t := RejectStep(s, run);
    if t != s {
      UniqueStays(s, t);
      if 0 in s.procs { ProcStays(world, s, t, s.procs[0]); }
      Keep(world, s, t, 0);
    }
  }

  lemma WaitKeeps(world: World, s: State, elapsed: nat)
    requires Inv(world, s)
    ensures Inv(world, s.(clock := s.clock + elapsed))
  {
    KeepRows(world, s, s.(clock := s.clock + elapsed), 0);
  }

  lemma WebhookKeeps(world: World, s: State, row: nat, status: DeliveryStatus)
    requires Inv(world, s)
    ensures Inv(world, WebhookStep(s, row, status))
  {
    KeepRows(world, s, WebhookStep(s, row, status), 0);
  }

  lemma GoKeeps(world: World, s: State, p: nat, choice: Choice)
    requires Inv(world, s)
    ensures Inv(world, GoStep(world, s, p, choice))
  {
    match Proc(s, p) {
      case Idle =>
      case Worker(_, _, _) => WorkerKeeps(world, s, p, Proc(s, p), choice);
      case Approver(_, _) => ApproverKeeps(world, s, p, Proc(s, p), choice);
    }
  }

  lemma ActKeeps(world: World, s: State, a: Action)
    requires Inv(world, s)
    ensures Inv(world, Act(world, s, a))
  {
    match a {
      case Go(p, choice) => GoKeeps(world, s, p, choice);
      case Tick(p, now, due) => TickKeeps(world, s, p, now, due);
      case Crash(p) => CrashKeeps(world, s, p);
      case Approve(p, run) => ApproveKeeps(world, s, p, run);
      case Reject(run) => RejectKeeps(world, s, run);
      case Wait(elapsed) => WaitKeeps(world, s, elapsed);
      case Webhook(row, status) => WebhookKeeps(world, s, row, status);
    }
  }

  lemma {:induction false} RunKeeps(world: World, clock: int, actions: seq<Action>)
    ensures Inv(world, After(world, Start(world, clock), actions))
  {
    if actions == [] {
      forall id | id in world
        ensures Ready(world, [], id, world[id].first)
      {
        assert world[id].first == SlotOf(world[id], 0) && DoneBefore(world[id], [], id, 0);
      }
    } else {
      var before := actions[..|actions| - 1];
      RunKeeps(world, clock, before);
      ActKeeps(world, After(world, Start(world, clock), before), actions[|actions| - 1]);
    }
  }

  // ---------------------------------------------------------------- the theorems

  /** In every run a (schedule, slot) pair has at most one run row. */
  lemma SlotIsClaimedOnce(world: World, clock: int, actions: seq<Action>, i: nat, j: nat)
    ensures var runs := After(world, Start(world, clock), actions).runs;
            i < |runs| && j < |runs| && runs[i].schedule == runs[j].schedule && runs[i].slot == runs[j].slot ==> i == j
  {
    RunKeeps(world, clock, actions);
  }

  lemma ReadyBelow(world: World, runs: seq<Run>, id: nat, slot: int, j: nat)
    requires Rising(world) && Ready(world, runs, id, slot) && SlotOf(world[id], j) < slot
    ensures IsDone(runs, id, SlotOf(world[id], j))
  {
    var plan := world[id];
    var k: nat :| slot == SlotOf(plan, k) && DoneBefore(plan, runs, id, k);
    if k < j {
      ChainRises(plan.next, plan.first, k, j);
    }
  }

  /** No slot is dropped: the next slot lies on the chain, and every slot of the chain before it has
      a completed run. */
  lemma NoSlotIsDropped(world: World, clock: int, actions: seq<Action>, id: nat, j: nat)
    requires Rising(world) && id in world
    ensures var s := After(world, Start(world, clock), actions);
            && id in s.nextRunAt
            && (exists k: nat :: s.nextRunAt[id] == SlotOf(world[id], k))
            && (SlotOf(world[id], j) < s.nextRunAt[id] ==> IsDone(s.runs, id, SlotOf(world[id], j)))
  {
    RunKeeps(world, clock, actions);
    var s := After(world, Start(world, clock), actions);
    assert Ready(world, s.runs, id, s.nextRunAt[id]);
    if SlotOf(world[id], j) < s.nextRunAt[id] {
      ReadyBelow(world, s.runs, id, s.nextRunAt[id], j);
    }
  }

  /** Claimed slots form a prefix of the chain: a claimed slot lies on it and every earlier slot is
      claimed as well, with its run already completed. */
  lemma ClaimsArePrefix(world: World, clock: int, actions: seq<Action>, i: nat, j: nat)
    requires Rising(world) && i < |After(world, Start(world, clock), actions).runs|
    ensures var runs := After(world, Start(world, clock), actions).runs;
            && runs[i].schedule in world
            && (exists k: nat :: runs[i].slot == SlotOf(world[runs[i].schedule], k))
            && (SlotOf(world[runs[i].schedule], j) < runs[i].slot ==>
                  IsDone(runs, runs[i].schedule, SlotOf(world[runs[i].schedule], j)))
  {
    RunKeeps(world, clock, actions);
    var runs := After(world, Start(world, clock), actions).runs;
    var id := runs[i].schedule;
    assert Ready(world, runs, id, runs[i].slot);
    if SlotOf(world[id], j) < runs[i].slot {
      ReadyBelow(world, runs, id, runs[i].slot, j);
    }
  }

  /** A schedule has at most one unfinished run, whatever the workers do. */
  lemma OneOpenRun(world: World, clock: int, actions: seq<Action>, i: nat, j: nat)
    requires Rising(world)
    ensures var runs := After(world, Start(world, clock), actions).runs;
            i < |runs| && j < |runs| && !runs[i].completed && !runs[j].completed ==>
              runs[i].schedule == runs[j].schedule ==> i == j
  {
    var runs := After(world, Start(world, clock), actions).runs;
    if i < |runs| && j < |runs| && runs[i].schedule == runs[j].schedule
       && !runs[i].completed && !runs[j].completed && i != j {
      RunKeeps(world, clock, actions);
      var early, late := if runs[i].slot < runs[j].slot then i else j, if runs[i].slot < runs[j].slot then j else i;
      assert Ready(world, runs, runs[early].schedule, runs[early].slot);
      var k: nat :| runs[early].slot == SlotOf(world[runs[early].schedule], k);
      ReadyBelow(world, runs, runs[late].schedule, runs[late].slot, k);
    }
  }

  /** The plan of a schedule created at `created`, as the calendar functions give it. */
  ghost function PlanOf(z: Zone, c: Cadence, created: int): Plan
    requires ValidCadence(c)
  {
    Plan(ReportTiming.Advance(z, c), NextSlot(z, c, created), slot => SlotPeriod(z, c, slot).first)
  }

  ghost predicate FromCalendar(world: World) {
    forall id :: id in world ==> PlanIsScheduled(world[id])
  }

  ghost predicate PlanIsScheduled(plan: Plan) {
    exists z: Zone, c: Cadence, created: int ::
      ValidZone(z) && ValidCadence(c) && plan == PlanOf(z, c, created)
  }

  /** Real schedules rise, so the theorems above hold for every valid cadence in every valid zone. */
  lemma CalendarRises(world: World)
    requires FromCalendar(world)
    ensures Rising(world)
  {
    forall id: nat, x: int | id in world
      ensures x < world[id].next(x)
    {
      assert PlanIsScheduled(world[id]);
      var z: Zone, c: Cadence, created: int :|
        ValidZone(z) && ValidCadence(c) && world[id] == PlanOf(z, c, created);
      AdvanceRises(z, c);
    }
  }
}
