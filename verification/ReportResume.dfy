/**
 Retries resume: while executions of a run do not overlap, a report that was saved for the run is neither
 generated again nor replaced, and it is the one that is proposed, sent and kept.
 */
module ReportResume {
  import opened Common
  import opened ReportEngine
  import opened ReportDelivery
  import Slots = ReportSlots
  import Outcome = ReportOutcome
  import Exclusive = ReportExclusive

  /** The report that an execution works with. */
  function ReportOf(work: Work): Option<nat> {
    match work
    case Propose(report) => Some(report)
    case ReadRecipients(Report(_, report)) => Some(report)
    case ReadLedger(Report(_, report), _) => Some(report)
    case Send(Report(_, report), _, _, _) => Some(report)
    case Record(Report(_, report), _, _, _, _, _) => Some(report)
    case Notify(report) => Some(report)
    case Finalize(_, kept) => kept
    case _ => None
  }

  /** A report is made only while the row has none, and afterwards the row holds the one in use. */
  predicate ReportOk(row: Run, work: Work) {
    && (work.Generate? || work.SaveReport? ==> row.report == None)
    && (ReportOf(work).Some? ==> row.report == ReportOf(work))
    && (work.Finalize? && work.outcome in {Succeeded, PendingApproval} ==> work.kept.Some?)
  }

  predicate ProcReportOk(s: State, q: Process) {
    q.Worker? && q.job.Execute? && q.job.run < |s.runs| ==>
      ReportOk(s.runs[q.job.run], q.job.work) && Slots.WorkerWork(q.job.work)
  }

  ghost predicate Inv(s: State) {
    forall p :: p in s.procs ==> ProcReportOk(s, s.procs[p])
  }

  // ---------------------------------------------------------------- one step

  lemma StepWork(world: World, s: State, run: nat, work: Work, choice: Choice)
    requires run < |s.runs| && ReportOk(s.runs[run], work) && Slots.WorkerWork(work) && !s.runs[run].completed
    ensures var next := Step(world, s, run, work, choice);
            && |next.state.runs| == |s.runs|
            && (next.More? ==> ReportOk(next.state.runs[run], next.work) && Slots.WorkerWork(next.work))
  {
  }

  /** The report is as it was, or the run has ended without one that counts. */
  predicate KeptReport(before: Run, after: Run) {
    after.report == before.report || (after.completed && (after.status == Failed || after.status == Skipped))
  }

  lemma StepReport(world: World, s: State, run: nat, work: Work, choice: Choice)
    requires run < |s.runs| && ReportOk(s.runs[run], work) && Slots.WorkerWork(work) && s.runs[run].report.Some?
    ensures var t := Step(world, s, run, work, choice).state;
            |t.runs| == |s.runs| && KeptReport(s.runs[run], t.runs[run])
  {
  }

  /** No other process touches the report of a run that a worker is executing. */
  lemma ReportUntouched(world: World, s: State, a: Action, run: nat)
    requires run < |s.runs| && !s.runs[run].completed && ReportDelivery.Inv(s) && Approval.Inv(world, s)
    requires !(a.Go? && Proc(s, a.p).Worker? && Proc(s, a.p).job.Execute? && Proc(s, a.p).job.run == run)
    ensures run < |Act(world, s, a).runs| && Act(world, s, a).runs[run].report == s.runs[run].report
  {
    if a.Go? {
      match Proc(s, a.p)
      case Idle =>
      case Approver(own, work) =>
        assert ProcOk(s, s.procs[a.p]);
        if !a.choice.Raise? { StepApprover(world, s, own, work, a.choice); }
      case Worker(_, _, _) => WorkerElsewhere(world, s, a.p, Proc(s, a.p), a.choice, run);
    }
  }

  lemma WorkerElsewhere(world: World, s: State, p: nat, q: Process, choice: Choice, run: nat)
    requires q.Worker? && run < |s.runs| && !(q.job.Execute? && q.job.run == run)
    ensures var t := WorkerStep(world, s, p, q, choice); run < |t.runs| && t.runs[run].report == s.runs[run].report
  {
    if q.job.Execute? && q.job.run < |s.runs| && !choice.Raise? {
      StepElsewhere(world, s, q.job.run, q.job.work, choice, run);
    }
  }

  lemma ExecuteReport(world: World, s: State, p: nat, q: Process, choice: Choice)
    requires q.Worker? && q.job.Execute? && q.job.run < |s.runs| && ProcReportOk(s, q) && !s.runs[q.job.run].completed
    requires s.runs[q.job.run].report.Some?
    ensures var t := WorkerStep(world, s, p, q, choice);
            q.job.run < |t.runs| && KeptReport(s.runs[q.job.run], t.runs[q.job.run])
  {
    if !choice.Raise? { StepReport(world, s, q.job.run, q.job.work, choice); }
  }

  lemma ExecuteKeeps(world: World, s: State, p: nat, q: Process, choice: Choice)
    requires q.Worker? && q.job.Execute? && q.job.run < |s.runs| && ProcReportOk(s, q) && !s.runs[q.job.run].completed
    ensures var t := WorkerStep(world, s, p, q, choice); p in t.procs && ProcReportOk(t, t.procs[p])
  {
    if !choice.Raise? { StepWork(world, s, q.job.run, q.job.work, choice); }
  }

  lemma ClaimKeeps(world: World, s: State, p: nat, q: Process, choice: Choice)
    requires q.Worker? && q.job.Claim?
    ensures var t := WorkerStep(world, s, p, q, choice); p in t.procs && ProcReportOk(t, t.procs[p])
  {
  }

  lemma TakeoverKeeps(world: World, s: State, p: nat, q: Process, choice: Choice)
    requires q.Worker? && q.job.Takeover?
    ensures var t := WorkerStep(world, s, p, q, choice); p in t.procs && ProcReportOk(t, t.procs[p])
  {
  }

  lemma ActorKeeps(world: World, s: State, a: Action, p: nat)
    requires Inv(s) && ReportDelivery.Inv(s) && a.Go? && a.p == p && p in s.procs && s.procs[p].Worker?
    requires p in Act(world, s, a).procs
    ensures ProcReportOk(Act(world, s, a), Act(world, s, a).procs[p])
  {
    var q := s.procs[p];
    assert ProcReportOk(s, q) && ProcOk(s, q);
    if q.job.Execute? {
      ExecuteKeeps(world, s, p, q, a.choice);
    } else if q.job.Claim? {
      ClaimKeeps(world, s, p, q, a.choice);
    } else if q.job.Takeover? {
      TakeoverKeeps(world, s, p, q, a.choice);
    } else {
      RestFacts(world, s, p, q, a.choice);
    }
  }

  lemma OtherKeeps(world: World, s: State, a: Action, p: nat)
    requires Inv(s) && ReportDelivery.Inv(s) && Approval.Inv(world, s) && Apart(s)
    requires p in s.procs && p in Act(world, s, a).procs && Act(world, s, a).procs[p] == s.procs[p]
    requires !(a.Go? && a.p == p)
    ensures ProcReportOk(Act(world, s, a), Act(world, s, a).procs[p])
  {
    var q := s.procs[p];
    assert ProcReportOk(s, q) && ProcOk(s, q);
    if q.Worker? && q.job.Execute? { ReportUntouched(world, s, a, q.job.run); }
  }

  lemma ActKeeps(world: World, s: State, a: Action)
    requires Inv(s) && ReportDelivery.Inv(s) && Approval.Inv(world, s) && Apart(s)
    ensures Inv(Act(world, s, a))
  {
    forall p | p in Act(world, s, a).procs
      ensures ProcReportOk(Act(world, s, a), Act(world, s, a).procs[p])
    {
      if !Outcome.ActsOn(a, p) {
        Outcome.OneProcess(world, s, a, p);
        OtherKeeps(world, s, a, p);
      } else {
        Exclusive.ActorLive(world, s, a, p);
        if a.Go? && p in s.procs && s.procs[p].Worker? { ActorKeeps(world, s, a, p); }
      }
    }
  }

  lemma {:induction false} RunKeeps(world: World, clock: int, actions: seq<Action>)
    requires NeverOverlaps(world, clock, actions)
    ensures Inv(After(world, Start(world, clock), actions))
  {
    if actions != [] {
      var before := actions[..|actions| - 1];
      forall n | 0 <= n <= |before|
        ensures Apart(After(world, Start(world, clock), before[..n]))
      {
        assert before[..n] == actions[..n];
      }
      assert before[..|before|] == before;
      RunKeeps(world, clock, before);
      ReportDelivery.RunKeeps(world, clock, before);
      Approval.RunKeeps(world, clock, before);
      ActKeeps(world, After(world, Start(world, clock), before), actions[|actions| - 1]);
    }
  }

  // ---------------------------------------------------------------- the theorems

  /** Nobody generates a report for a run that has one. */
  lemma GeneratedOnce(world: World, clock: int, actions: seq<Action>, p: nat)
    requires NeverOverlaps(world, clock, actions)
    ensures var s := After(world, Start(world, clock), actions);
            var q := Proc(s, p);
            q.Worker? && q.job.Execute? && q.job.run < |s.runs| && (q.job.work.Generate? || q.job.work.SaveReport?) ==>
              s.runs[q.job.run].report == None
  {
    RunKeeps(world, clock, actions);
    var s := After(world, Start(world, clock), actions);
    if p in s.procs { assert ProcReportOk(s, s.procs[p]); }
  }

  /** A saved report of an open run stays until the run ends, and is dropped only with a failed or skipped run. */
  lemma ReportIsKept(world: World, clock: int, actions: seq<Action>, a: Action, run: nat)
    requires NeverOverlaps(world, clock, actions)
    requires var s := After(world, Start(world, clock), actions);
             run < |s.runs| && !s.runs[run].completed && s.runs[run].report.Some?
    ensures var s := After(world, Start(world, clock), actions);
            var t := Act(world, s, a);
            && run < |t.runs|
            && (t.runs[run].report == s.runs[run].report ||
                (t.runs[run].completed && (t.runs[run].status == Failed || t.runs[run].status == Skipped)))
  {
    var s := After(world, Start(world, clock), actions);
    RunKeeps(world, clock, actions);
    ReportDelivery.RunKeeps(world, clock, actions);
    Approval.RunKeeps(world, clock, actions);
    if a.Go? && Proc(s, a.p).Worker? && Proc(s, a.p).job.Execute? && Proc(s, a.p).job.run == run {
      assert ProcReportOk(s, s.procs[a.p]);
      ExecuteReport(world, s, a.p, Proc(s, a.p), a.choice);
    } else {
      ReportUntouched(world, s, a, run);
    }
  }
}
