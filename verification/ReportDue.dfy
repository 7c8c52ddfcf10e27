/**
 When slots run: never before they are due, and always once they are.
 */
module ReportDue {
  import opened Common
  import opened ReportEngine
  import Outcome = ReportOutcome
  import Slots = ReportSlots

  // ---------------------------------------------------------------- not too early

  /** A worker has read the slot as due, by its own clock. */
  ghost predicate WasDue(actions: seq<Action>, due: Due) {
    exists n :: 0 <= n < |actions| && actions[n].Tick? && due in actions[n].due && due.slot <= actions[n].now
  }

  function RowDue(row: Run): Due {
    Due(row.schedule, row.slot)
  }

  /** The slots that a process has read and not left behind. */
  ghost predicate Holds(q: Process, due: Due) {
    q.Worker? && (due in q.rest || (!q.job.Between? && q.job.due == due))
  }

  ghost predicate AllDue(actions: seq<Action>, s: State) {
    && (forall i :: 0 <= i < |s.runs| ==> WasDue(actions, RowDue(s.runs[i])))
    && (forall p, due :: p in s.procs && Holds(s.procs[p], due) ==> WasDue(actions, due))
  }

  lemma WorkerHolds(world: World, s: State, p: nat, q: Process, choice: Choice, due: Due)
    requires q.Worker? && q == Proc(s, p)
    ensures var t := WorkerStep(world, s, p, q, choice); p in t.procs && Holds(t.procs[p], due) ==> Holds(q, due)
  {
    if q.job.Execute? { Outcome.StepProcs(world, s, q.job.run, q.job.work, choice); }
  }

  lemma ActorHolds(world: World, s: State, a: Action, p: nat, due: Due)
    requires Outcome.ActsOn(a, p) && p in Act(world, s, a).procs && Holds(Act(world, s, a).procs[p], due)
    ensures (p in s.procs && Holds(s.procs[p], due)) || (a.Tick? && due in a.due && due.slot <= a.now)
  {
    if a.Go? {
      match Proc(s, p)
      case Idle =>
      case Worker(_, _, _) => WorkerHolds(world, s, p, Proc(s, p), a.choice, due);
      case Approver(run, work) => Outcome.StepProcs(world, s, run, work, a.choice);
    }
  }

  lemma StepRows(world: World, s: State, run: nat, work: Work, choice: Choice)
    requires run < |s.runs|
    ensures var t := Step(world, s, run, work, choice).state;
            |t.runs| == |s.runs| && forall i :: 0 <= i < |s.runs| ==> RowDue(t.runs[i]) == RowDue(s.runs[i])
  {
  }

  lemma WorkerRows(world: World, s: State, p: nat, q: Process, choice: Choice, i: nat)
    requires q.Worker? && i < |WorkerStep(world, s, p, q, choice).runs|
    ensures var row := RowDue(WorkerStep(world, s, p, q, choice).runs[i]);
            (i < |s.runs| && row == RowDue(s.runs[i])) || Holds(q, row)
  {
    if q.job.Execute? && q.job.run < |s.runs| { StepRows(world, s, q.job.run, q.job.work, choice); }
  }

  lemma ApproverRows(world: World, s: State, p: nat, q: Process, choice: Choice, i: nat)
    requires q.Approver? && i < |ApproverStep(world, s, p, q, choice).runs|
    ensures i < |s.runs| && RowDue(ApproverStep(world, s, p, q, choice).runs[i]) == RowDue(s.runs[i])
  {
    if q.run < |s.runs| { StepRows(world, s, q.run, q.work, choice); }
  }

  lemma GoRows(world: World, s: State, p: nat, choice: Choice, i: nat)
    requires i < |GoStep(world, s, p, choice).runs|
    ensures var row := RowDue(GoStep(world, s, p, choice).runs[i]);
            (i < |s.runs| && row == RowDue(s.runs[i])) || (p in s.procs && Holds(s.procs[p], row))
  {
    match Proc(s, p)
    case Idle =>
    case Approver(_, _) => ApproverRows(world, s, p, Proc(s, p), choice, i);
    case Worker(_, _, _) => WorkerRows(world, s, p, Proc(s, p), choice, i);
  }

  lemma ActRows(world: World, s: State, a: Action, i: nat)
    requires i < |Act(world, s, a).runs|
    ensures var row := RowDue(Act(world, s, a).runs[i]);
            (i < |s.runs| && row == RowDue(s.runs[i])) || (a.Go? && a.p in s.procs && Holds(s.procs[a.p], row))
  {
    if a.Go? { GoRows(world, s, a.p, a.choice, i); }
  }

  lemma DueStays(before: seq<Action>, a: Action, due: Due)
    requires WasDue(before, due) || (a.Tick? && due in a.due && due.slot <= a.now)
    ensures WasDue(before + [a], due)
  {
    var actions := before + [a];
    if WasDue(before, due) {
      var n :| 0 <= n < |before| && before[n].Tick? && due in before[n].due && due.slot <= before[n].now;
      assert actions[n] == before[n];
    } else {
      assert actions[|before|] == a;
    }
  }

  lemma {:induction false} RunKeeps(world: World, clock: int, actions: seq<Action>)
    ensures AllDue(actions, After(world, Start(world, clock), actions))
  {
    if actions != [] {
      var before, a := actions[..|actions| - 1], actions[|actions| - 1];
      assert actions == before + [a];
      RunKeeps(world, clock, before);
      var s := After(world, Start(world, clock), before);
      var t := Act(world, s, a);
      forall i | 0 <= i < |t.runs|
        ensures WasDue(actions, RowDue(t.runs[i]))
      {
        ActRows(world, s, a, i);
        DueStays(before, a, RowDue(t.runs[i]));
      }
      forall p, due | p in t.procs && Holds(t.procs[p], due)
        ensures WasDue(actions, due)
      {
        if Outcome.ActsOn(a, p) { ActorHolds(world, s, a, p, due); } else { Outcome.OneProcess(world, s, a, p); }
        DueStays(before, a, due);
      }
    }
  }

  /** No slot is claimed before it is due: for every run row some worker's tick listed that slot when its clock
      had reached it. */
  lemma ClaimsWereDue(world: World, clock: int, actions: seq<Action>, i: nat) returns (n: nat)
    requires i < |After(world, Start(world, clock), actions).runs|
    ensures var row := After(world, Start(world, clock), actions).runs[i];
            && n < |actions| && actions[n].Tick? && row.slot <= actions[n].now
            && exists d :: d in actions[n].due && d.schedule == row.schedule && d.slot == row.slot
  {
    RunKeeps(world, clock, actions);
    var row := After(world, Start(world, clock), actions).runs[i];
    assert WasDue(actions, RowDue(row));
    n :| 0 <= n < |actions| && actions[n].Tick? && RowDue(row) in actions[n].due && RowDue(row).slot <= actions[n].now;
  }

  // ---------------------------------------------------------------- never stuck

  predicate At(s: State, p: nat, now: int, job: Job) {
    p in s.procs && s.procs[p] == Worker(now, [], job)
  }

  /** A worker that has executed a slot puts its schedule to the slot after it, wherever it stood. */
  lemma AdvanceMoves(world: World, s: State, p: nat, now: int, due: Due, outcome: Option<Status>)
    requires At(s, p, now, Advance(due, outcome)) && due.schedule in world && due.schedule in s.nextRunAt
    requires outcome.Some? || s.nextRunAt[due.schedule] == due.slot
    ensures var t := Act(world, s, Go(p, Proceed));
            due.schedule in t.nextRunAt && t.nextRunAt[due.schedule] == world[due.schedule].next(due.slot)
  {
  }

  /** A worker that only found the slot finished leaves a schedule alone that has moved on. */
  lemma AdvanceWaits(world: World, s: State, p: nat, now: int, due: Due)
    requires At(s, p, now, Advance(due, None)) && due.schedule in s.nextRunAt && s.nextRunAt[due.schedule] != due.slot
    ensures Act(world, s, Go(p, Proceed)).nextRunAt == s.nextRunAt
  {
  }

  lemma ShadowSteps(world: World, s: State, p: nat, now: int, due: Due, run: nat)
    requires At(s, p, now, Execute(due, run, ReadMode)) && run < |s.runs|
    ensures var t := Act(world, Act(world, s, Go(p, UseMode(Shadow))), Go(p, Proceed));
            && At(t, p, now, Advance(due, Some(Skipped))) && t.nextRunAt == s.nextRunAt
            && |t.runs| == |s.runs| && t.runs[run] == Finished(s.runs[run], Skipped, None)
            && t.seen.accepted == s.seen.accepted && t.drafts == s.drafts && t.ledger == s.ledger
  {
  }

  /** Whoever executes the slot can finish it, and its schedule moves on. */
  lemma ExecutionAdvances(world: World, start: State, before: seq<Action>, p: nat, now: int, due: Due, run: nat)
    returns (actions: seq<Action>)
    requires var s := After(world, start, before);
             && At(s, p, now, Execute(due, run, ReadMode)) && run < |s.runs|
             && due.schedule in world && due.schedule in s.nextRunAt
    ensures var t := After(world, start, actions);
            due.schedule in t.nextRunAt && t.nextRunAt[due.schedule] == world[due.schedule].next(due.slot)
  {
    var s := After(world, start, before);
    Outcome.Extend(world, start, before, Go(p, UseMode(Shadow)));
    Outcome.Extend(world, start, before + [Go(p, UseMode(Shadow))], Go(p, Proceed));
    var mid := before + [Go(p, UseMode(Shadow))] + [Go(p, Proceed)];
    ShadowSteps(world, s, p, now, due, run);
    AdvanceMoves(world, After(world, start, mid), p, now, due, Some(Skipped));
    Outcome.Extend(world, start, mid, Go(p, Proceed));
    actions := mid + [Go(p, Proceed)];
  }

  lemma TickSteps(world: World, s: State, p: nat, now: int, due: Due)
    requires p !in s.procs && due.schedule in s.nextRunAt && s.nextRunAt[due.schedule] == due.slot && due.slot <= now
    ensures var t := Act(world, Act(world, s, Tick(p, now, [due])), Go(p, Proceed));
            At(t, p, now, Claim(due)) && t.runs == s.runs && t.nextRunAt == s.nextRunAt
  {
    var mid := Act(world, s, Tick(p, now, [due]));
    assert mid.procs[p] == Worker(now, [due], Between);
    assert [due][1..] == [];
  }

  lemma ClaimStep(world: World, s: State, p: nat, now: int, due: Due)
    requires At(s, p, now, Claim(due))
    ensures var t := Act(world, s, Go(p, Proceed));
            && t.nextRunAt == s.nextRunAt
            && (HasRun(s.runs, due) ==> At(t, p, now, Takeover(due)) && t.runs == s.runs)
            && (!HasRun(s.runs, due) ==> At(t, p, now, Execute(due, |s.runs|, ReadMode)) && |t.runs| == |s.runs| + 1)
  {
  }

  lemma TakeoverStep(world: World, s: State, p: nat, now: int, due: Due)
    requires At(s, p, now, Takeover(due)) && HasRun(s.runs, due)
    ensures var t, i := Act(world, s, Go(p, Proceed)), FindRun(s.runs, due);
            && t.nextRunAt == s.nextRunAt && |t.runs| == |s.runs|
            && (s.runs[i].completed ==> At(t, p, now, Probe(due)) && t.runs == s.runs)
            && (!s.runs[i].completed && s.runs[i].triggeredAt <= now - 3_600_000_000 ==>
                  At(t, p, now, Execute(due, i, ReadMode)))
  {
  }

  lemma ProbeStep(world: World, s: State, p: nat, now: int, due: Due)
    requires At(s, p, now, Probe(due)) && HasRun(s.runs, due) && s.runs[FindRun(s.runs, due)].completed
    ensures var t := Act(world, s, Go(p, Proceed)); t.nextRunAt == s.nextRunAt && At(t, p, now, Advance(due, None))
  {
  }

  /** The worker found the slot claimed: finished, or unfinished for an hour. */
  lemma ConflictAdvances(world: World, start: State, before: seq<Action>, p: nat, now: int, due: Due)
    returns (actions: seq<Action>)
    requires var s := After(world, start, before);
             && At(s, p, now, Takeover(due)) && HasRun(s.runs, due) && due.schedule in world
             && due.schedule in s.nextRunAt && s.nextRunAt[due.schedule] == due.slot
             && s.runs[FindRun(s.runs, due)].triggeredAt <= now - HOUR
    ensures var t := After(world, start, actions);
            due.schedule in t.nextRunAt && t.nextRunAt[due.schedule] == world[due.schedule].next(due.slot)
  {
    var s := After(world, start, before);
    TakeoverStep(world, s, p, now, due);
    Outcome.Extend(world, start, before, Go(p, Proceed));
    var next := before + [Go(p, Proceed)];
    if s.runs[FindRun(s.runs, due)].completed {
      ProbeStep(world, After(world, start, next), p, now, due);
      Outcome.Extend(world, start, next, Go(p, Proceed));
      var last := next + [Go(p, Proceed)];
      AdvanceMoves(world, After(world, start, last), p, now, due, None);
      Outcome.Extend(world, start, last, Go(p, Proceed));
      actions := last + [Go(p, Proceed)];
    } else {
      actions := ExecutionAdvances(world, start, next, p, now, due, FindRun(s.runs, due));
    }
  }

  /** No schedule is ever stuck: from every reachable state, whatever crashed, some continuation handles its next
      slot and moves it to the slot after that. */
  lemma NeverStuck(world: World, clock: int, past: seq<Action>, id: nat) returns (actions: seq<Action>)
    requires id in world
    ensures var s := After(world, Start(world, clock), past);
            var t := After(world, s, actions);
            id in s.nextRunAt && id in t.nextRunAt && t.nextRunAt[id] == world[id].next(s.nextRunAt[id])
  {
    var s := After(world, Start(world, clock), past);
    Slots.RunKeeps(world, clock, past);
    var due := Due(id, s.nextRunAt[id]);
    var p := FreeId(s.procs.Keys);
    var stale := if HasRun(s.runs, due) then s.runs[FindRun(s.runs, due)].triggeredAt + HOUR else due.slot;
    var now := if stale < due.slot then due.slot else stale;
    assert After(world, s, []) == s;
    Outcome.Extend(world, s, [], Tick(p, now, [due]));
    Outcome.Extend(world, s, [] + [Tick(p, now, [due])], Go(p, Proceed));
    var ready := [] + [Tick(p, now, [due])] + [Go(p, Proceed)];
    TickSteps(world, s, p, now, due);
    ClaimStep(world, After(world, s, ready), p, now, due);
    Outcome.Extend(world, s, ready, Go(p, Proceed));
    var next := ready + [Go(p, Proceed)];
    if HasRun(s.runs, due) {
      actions := ConflictAdvances(world, s, next, p, now, due);
    } else {
      actions := ExecutionAdvances(world, s, next, p, now, due, |s.runs|);
    }
  }
}
