/**
 When the outcome of a run is final, with overlap allowed: the exact conditions on the workers that
 still execute it.
 */
module ReportOutcome {
  import opened Common
  import opened ReportEngine
  import Slots = ReportSlots
  import Approval = ReportApproval
  import Mail = ReportDelivery

  predicate Executes(q: Process, run: nat) {
    q.Worker? && q.job.Execute? && q.job.run == run
  }

  /** No worker is executing the run; approvers may be. */
  ghost predicate NoWorkerOn(s: State, run: nat) {
    forall p :: p in s.procs ==> !Executes(s.procs[p], run)
  }

  predicate ApproverOk(q: Process) {
    q.Approver? ==> Mail.ApproverWork(q.work)
  }

  ghost predicate ApproversOk(s: State) {
    forall p :: p in s.procs ==> ApproverOk(s.procs[p])
  }

  predicate Completed(s: State, run: nat) {
    run < |s.runs| && s.runs[run].completed
  }

  /** The run is finished and does not wait for approval. */
  predicate Ended(s: State, run: nat) {
    Completed(s, run) && s.runs[run].status != PendingApproval
  }

  // ---------------------------------------------------------------- one step

  predicate ActsOn(a: Action, p: nat) {
    (a.Go? || a.Crash? || a.Tick? || a.Approve?) && a.p == p
  }

  lemma StepProcs(world: World, s: State, run: nat, work: Work, choice: Choice)
    ensures run < |s.runs| ==> Step(world, s, run, work, choice).state.procs == s.procs
  {
  }

  lemma ExecuteProcs(world: World, s: State, p: nat, q: Process, choice: Choice)
    requires q.Worker? && q.job.Execute?
    ensures WorkerStep(world, s, p, q, choice).procs - {p} == s.procs - {p}
  {
    StepProcs(world, s, q.job.run, q.job.work, choice);
  }

  lemma OtherJobProcs(world: World, s: State, p: nat, q: Process, choice: Choice)
    requires q.Worker? && !q.job.Execute?
    ensures WorkerStep(world, s, p, q, choice).procs - {p} == s.procs - {p}
  {
  }

  lemma ApproverProcs(world: World, s: State, p: nat, q: Process, choice: Choice)
    requires q.Approver?
    ensures ApproverStep(world, s, p, q, choice).procs - {p} == s.procs - {p}
  {
    StepProcs(world, s, q.run, q.work, choice);
  }

  lemma GoLeavesOthers(world: World, s: State, p: nat, choice: Choice)
    ensures GoStep(world, s, p, choice).procs - {p} == s.procs - {p}
  {
    match Proc(s, p)
    case Idle =>
    case Worker(_, _, job) =>
      if job.Execute? {
        ExecuteProcs(world, s, p, Proc(s, p), choice);
      } else {
        OtherJobProcs(world, s, p, Proc(s, p), choice);
      }
    case Approver(_, _) => ApproverProcs(world, s, p, Proc(s, p), choice);
  }

  /** A step touches one process at most. */
  lemma OneProcess(world: World, s: State, a: Action, p: nat)
    requires !ActsOn(a, p)
    ensures p in Act(world, s, a).procs <==> p in s.procs
    ensures p in s.procs ==> Act(world, s, a).procs[p] == s.procs[p]
  {
    if a.Go? {
      GoLeavesOthers(world, s, a.p, a.choice);
      var t := GoStep(world, s, a.p, a.choice);
      assert p in t.procs <==> p in t.procs - {a.p};
      assert p in s.procs <==> p in s.procs - {a.p};
      assert p in s.procs ==> (t.procs - {a.p})[p] == (s.procs - {a.p})[p];
    }
  }

  lemma ActorStaysOk(world: World, s: State, a: Action, p: nat)
    requires ApproversOk(s) && p in Act(world, s, a).procs
    ensures ApproverOk(Act(world, s, a).procs[p])
  {
    if !ActsOn(a, p) {
      OneProcess(world, s, a, p);
      assert ApproverOk(s.procs[p]);
    } else if a.Go? && Proc(s, p).Approver? {
      assert ApproverOk(s.procs[p]);
      var q := s.procs[p];
      if q.run < |s.runs| && !a.choice.Raise? { Mail.StepApprover(world, s, q.run, q.work, a.choice); }
    } else if p in s.procs {
      assert ApproverOk(s.procs[p]);
    }
  }

  lemma ActApproversOk(world: World, s: State, a: Action)
    requires ApproversOk(s)
    ensures ApproversOk(Act(world, s, a))
  {
    forall p | p in Act(world, s, a).procs
      ensures ApproverOk(Act(world, s, a).procs[p])
    {
      ActorStaysOk(world, s, a, p);
    }
  }

  /** Whether a worker that executes the run stands where its write would not change a failed row. */
  predicate FailsAgain(q: Process) {
    q.Worker? && q.job.Execute? && q.job.work == Finalize(Failed, None)
  }

  /** No worker executes the run, except to write the failure that is already there. */
  ghost predicate Settled(s: State, run: nat) {
    run < |s.runs| && forall p :: p in s.procs && Executes(s.procs[p], run) ==>
      s.runs[run].status == Failed && FailsAgain(s.procs[p])
  }

  /** A step never starts work on a completed run, and a worker about to fail only ever fails. */
  lemma NobodyStarts(world: World, s: State, a: Action, run: nat, p: nat)
    requires Completed(s, run) && p in Act(world, s, a).procs
    requires p in s.procs && Executes(s.procs[p], run) ==> FailsAgain(s.procs[p])
    ensures Executes(Act(world, s, a).procs[p], run) ==>
              FailsAgain(Act(world, s, a).procs[p]) && p in s.procs && Executes(s.procs[p], run)
  {
    if !ActsOn(a, p) { OneProcess(world, s, a, p); }
  }

  lemma WorkerLeavesRow(world: World, s: State, p: nat, q: Process, choice: Choice, run: nat)
    requires Completed(s, run) && q.Worker?
    requires Executes(q, run) ==> FailsAgain(q) && s.runs[run].status == Failed && s.runs[run].report == None
    ensures var t := WorkerStep(world, s, p, q, choice); run < |t.runs| && t.runs[run] == s.runs[run]
  {
    if q.job.Execute? && q.job.run < |s.runs| && !choice.Raise? {
      if q.job.run == run {
        assert Finished(s.runs[run], Failed, None) == s.runs[run];
      } else {
        Mail.StepElsewhere(world, s, q.job.run, q.job.work, choice, run);
      }
    }
  }

  /** The only ways to change a completed row that no worker can change. */
  predicate Resolves(s: State, a: Action, run: nat) {
    a == Reject(run) || (a.Go? && Proc(s, a.p).Approver? && Proc(s, a.p).run == run && Proc(s, a.p).work.Settle?)
  }

  predicate BareRow(row: Run) {
    row.status == Failed ==> row.completed && row.report == None
  }

  lemma RowStays(world: World, s: State, a: Action, run: nat)
    requires Completed(s, run) && Settled(s, run) && ApproversOk(s) && BareRow(s.runs[run])
    ensures Completed(Act(world, s, a), run)
    ensures Act(world, s, a).runs[run] == s.runs[run] ||
            (Resolves(s, a, run) && s.runs[run].status == PendingApproval
             && Act(world, s, a).runs[run].status in {Succeeded, Skipped})
  {
    if a.Go? && a.p in s.procs {
      var q := s.procs[a.p];
      assert ApproverOk(q);
      match q {
        case Idle =>
        case Approver(own, work) =>
          if own < |s.runs| && !a.choice.Raise? { Mail.StepApprover(world, s, own, work, a.choice); }
        case Worker(_, _, _) => WorkerLeavesRow(world, s, a.p, q, a.choice, run);
      }
    }
  }

  lemma SettledStays(world: World, s: State, a: Action, run: nat)
    requires Completed(s, run) && Settled(s, run) && ApproversOk(s) && BareRow(s.runs[run])
    ensures Settled(Act(world, s, a), run) && BareRow(Act(world, s, a).runs[run])
    ensures NoWorkerOn(s, run) ==> NoWorkerOn(Act(world, s, a), run)
  {
    RowStays(world, s, a, run);
    forall p | p in Act(world, s, a).procs && Executes(Act(world, s, a).procs[p], run)
      ensures FailsAgain(Act(world, s, a).procs[p]) && p in s.procs && Executes(s.procs[p], run)
    {
      NobodyStarts(world, s, a, run, p);
    }
  }

  // ---------------------------------------------------------------- failed rows

  predicate BareWork(work: Work) {
    work.Finalize? && work.outcome == Failed ==> work.kept == None
  }

  predicate BareProc(q: Process) {
    Mail.Live(q).Some? ==> BareWork(Mail.WorkOf(q))
  }

  /** A failed row holds no report, and whoever is about to fail a run writes none. */
  ghost predicate Bare(s: State) {
    && (forall i :: 0 <= i < |s.runs| ==> BareRow(s.runs[i]))
    && (forall p :: p in s.procs ==> BareProc(s.procs[p]))
  }

  lemma StepBare(world: World, s: State, run: nat, work: Work, choice: Choice)
    requires run < |s.runs| && BareWork(work) && forall i :: 0 <= i < |s.runs| ==> BareRow(s.runs[i])
    ensures var next := Step(world, s, run, work, choice);
            && (forall i :: 0 <= i < |next.state.runs| ==> BareRow(next.state.runs[i]))
            && (next.More? ==> BareWork(next.work))
  {
  }

  ghost predicate BareAt(t: State, p: nat) {
    && (forall i :: 0 <= i < |t.runs| ==> BareRow(t.runs[i]))
    && (p in t.procs ==> BareProc(t.procs[p]))
  }

  lemma ExecuteBare(world: World, s: State, p: nat, q: Process, choice: Choice)
    requires Bare(s) && BareProc(q) && q.Worker? && q.job.Execute? && q.job.run < |s.runs|
    ensures BareAt(WorkerStep(world, s, p, q, choice), p)
  {
    StepBare(world, s, q.job.run, q.job.work, choice);
  }

  lemma OtherJobBare(world: World, s: State, p: nat, q: Process, choice: Choice)
    requires Bare(s) && BareProc(q) && q.Worker? && !q.job.Execute?
    ensures BareAt(WorkerStep(world, s, p, q, choice), p)
  {
  }

  lemma ApproverBare(world: World, s: State, p: nat, q: Process, choice: Choice)
    requires Bare(s) && BareProc(q) && q.Approver? && q.run < |s.runs|
    ensures BareAt(ApproverStep(world, s, p, q, choice), p)
  {
    StepBare(world, s, q.run, q.work, choice);
  }

  lemma GoBare(world: World, s: State, p: nat, choice: Choice)
    requires Bare(s)
    ensures BareAt(GoStep(world, s, p, choice), p)
  {
    var q := Proc(s, p);
    match q
    case Idle =>
    case Approver(run, _) => if run < |s.runs| { ApproverBare(world, s, p, q, choice); }
    case Worker(_, _, job) =>
      if !job.Execute? {
        OtherJobBare(world, s, p, q, choice);
      } else if job.run < |s.runs| {
        ExecuteBare(world, s, p, q, choice);
      }
  }

  lemma ActBare(world: World, s: State, a: Action)
    requires Bare(s)
    ensures Bare(Act(world, s, a))
  {
    if a.Go? { GoBare(world, s, a.p, a.choice); }
    forall p | p in Act(world, s, a).procs
      ensures BareProc(Act(world, s, a).procs[p])
    {
      if !ActsOn(a, p) {
        OneProcess(world, s, a, p);
        assert BareProc(s.procs[p]);
      }
    }
  }

  lemma {:induction false} Reached(world: World, clock: int, actions: seq<Action>)
    ensures ApproversOk(After(world, Start(world, clock), actions)) && Bare(After(world, Start(world, clock), actions))
  {
    if actions != [] {
      var before, a := actions[..|actions| - 1], actions[|actions| - 1];
      Reached(world, clock, before);
      ActApproversOk(world, After(world, Start(world, clock), before), a);
      ActBare(world, After(world, Start(world, clock), before), a);
    }
  }

  // ---------------------------------------------------------------- whole runs

  lemma {:induction false} SettledStaysOver(world: World, s: State, actions: seq<Action>, run: nat)
    requires Completed(s, run) && Settled(s, run) && ApproversOk(s) && BareRow(s.runs[run])
    ensures var t := After(world, s, actions);
            && Completed(t, run) && Settled(t, run) && ApproversOk(t) && BareRow(t.runs[run])
            && (s.runs[run].status != PendingApproval ==> t.runs[run] == s.runs[run])
            && (NoWorkerOn(s, run) ==> NoWorkerOn(t, run))
  {
    if actions != [] {
      var before := actions[..|actions| - 1];
      SettledStaysOver(world, s, before, run);
      var t, a := After(world, s, before), actions[|actions| - 1];
      RowStays(world, t, a, run);
      SettledStays(world, t, a, run);
      ActApproversOk(world, t, a);
    }
  }

  /** Whatever happens from `s` on, the row of the run stays as it is. */
  ghost predicate Final(world: World, s: State, run: nat) {
    forall actions :: Unchanged(world, s, actions, run)
  }

  ghost predicate Unchanged(world: World, s: State, actions: seq<Action>, run: nat) {
    var t := After(world, s, actions);
    run < |s.runs| && run < |t.runs| && t.runs[run] == s.runs[run]
  }

  lemma Extend(world: World, s: State, actions: seq<Action>, a: Action)
    ensures After(world, s, actions + [a]) == Act(world, After(world, s, actions), a)
  {
    assert (actions + [a])[..|actions|] == actions;
  }

  /** A worker can raise at any moment, and then stands before failing the run. */
  lemma WorkerRaises(world: World, s: State, run: nat, p: nat)
    requires run < |s.runs| && p in s.procs && Executes(s.procs[p], run)
    ensures var t := After(world, s, [Go(p, Raise)]);
            && t.runs == s.runs && Proc(t, p).Worker? && FailsAgain(Proc(t, p)) && Executes(Proc(t, p), run)
            && run < |Act(world, t, Go(p, Proceed)).runs| && Act(world, t, Go(p, Proceed)).runs[run].status == Failed
  {
    Extend(world, s, [], Go(p, Raise));
    assert [] + [Go(p, Raise)] == [Go(p, Raise)];
  }

  /** A worker that still executes the run can fail, and then writes that over the outcome. */
  lemma WorkerOverwrites(world: World, s: State, run: nat, p: nat)
    requires run < |s.runs| && p in s.procs && Executes(s.procs[p], run) && s.runs[run].status != Failed
    ensures !Final(world, s, run)
  {
    WorkerRaises(world, s, run, p);
    Extend(world, s, [Go(p, Raise)], Go(p, Proceed));
    assert !Unchanged(world, s, [Go(p, Raise)] + [Go(p, Proceed)], run);
  }

  // ---------------------------------------------------------------- overwriting a failure

  /** A choice that leads an execution away from failing. */
  function Pick(work: Work): Choice {
    match work
    case ReadMode => UseMode(Shadow)
    case Generate(_) => Generated(0)
    case ReadRecipients(_) => Found([], true)
    case Send(_, _, _, _) => Refused
    case _ => Proceed
  }

  function Stage(work: Work): nat {
    match work
    case ReadMode => 7
    case ReadRun(_) => 6
    case Generate(_) => 5
    case SaveReport(_, _) => 4
    case ReadRecipients(_) => 3
    case ReadLedger(_, _) => 3
    case Send(_, _, _, _) => 2
    case Record(_, _, _, _, _, _) => 2
    case Notify(_) => 1
    case _ => 0
  }

  function Size(work: Work): nat {
    match work
    case Send(_, _, todo, _) => 2 * |todo|
    case Record(_, _, todo, _, _, _) => 2 * |todo| + 1
    case _ => 0
  }

  /** An execution of a failed row that is not itself about to fail it. */
  predicate Strays(world: World, s: State, run: nat, work: Work) {
    && run < |s.runs| && s.runs[run].status == Failed && BareRow(s.runs[run]) && s.runs[run].schedule in world
    && Slots.WorkerWork(work) && !(work.Finalize? && work.outcome == Failed)
  }

  lemma PickLeadsOn(world: World, s: State, run: nat, work: Work)
    requires Strays(world, s, run, work)
    ensures var next := Step(world, s, run, work, Pick(work));
            && |next.state.runs| == |s.runs|
            && (next.Done? ==> next.state.runs[run].status != Failed)
            && (next.More? ==>
                  && Strays(world, next.state, run, next.work)
                  && (Stage(next.work) < Stage(work) ||
                      (Stage(next.work) == Stage(work) && Size(next.work) < Size(work))))
  {
  }

  /** Such an execution can end with another outcome. `before` led to this state from `start`. */
  lemma {:induction false} StrayOverwrites(world: World, start: State, before: seq<Action>, run: nat, p: nat)
    returns (actions: seq<Action>)
    requires var s := After(world, start, before);
             p in s.procs && Executes(s.procs[p], run) && Strays(world, s, run, s.procs[p].job.work)
    ensures var t := After(world, start, actions); run < |t.runs| && t.runs[run].status != Failed
    decreases Stage(After(world, start, before).procs[p].job.work), Size(After(world, start, before).procs[p].job.work)
  {
    var s := After(world, start, before);
    var work := s.procs[p].job.work;
    var a := Go(p, Pick(work));
    PickLeadsOn(world, s, run, work);
    Extend(world, start, before, a);
    actions := before + [a];
    var next := Step(world, s, run, work, Pick(work));
    StepGoes(world, s, p, run);
    if next.More? {
      actions := StrayOverwrites(world, start, before + [a], run, p);
    }
  }

  /** The worker's step is the step of its execution. */
  lemma StepGoes(world: World, s: State, p: nat, run: nat)
    requires p in s.procs && Executes(s.procs[p], run) && run < |s.runs|
    ensures var work := s.procs[p].job.work;
            var next, t := Step(world, s, run, work, Pick(work)), Act(world, s, Go(p, Pick(work)));
            && t.runs == next.state.runs && p in t.procs
            && (next.More? ==> Executes(t.procs[p], run) && t.procs[p].job.work == next.work)
  {
  }

  // ---------------------------------------------------------------- the theorems

  /** In every reachable state, the row of an ended run stays as it is in every continuation if and only if no
      worker still executes the run, or the run failed and every such worker is about to fail it again. */
  lemma OutcomeIsFinalExactly(world: World, clock: int, past: seq<Action>, run: nat)
    requires Ended(After(world, Start(world, clock), past), run)
    ensures var s := After(world, Start(world, clock), past); Final(world, s, run) <==> Settled(s, run)
  {
    var s := After(world, Start(world, clock), past);
    Reached(world, clock, past);
    if Settled(s, run) {
      forall actions
        ensures Unchanged(world, s, actions, run)
      {
        SettledStaysOver(world, s, actions, run);
      }
    } else {
      var p :| p in s.procs && Executes(s.procs[p], run) && !(s.runs[run].status == Failed && FailsAgain(s.procs[p]));
      if s.runs[run].status != Failed {
        WorkerOverwrites(world, s, run, p);
      } else {
        Slots.RunKeeps(world, clock, past);
        assert Slots.ProcOk(world, s, s.procs[p]) && BareProc(s.procs[p]);
        assert After(world, s, []) == s;
        var actions := StrayOverwrites(world, s, [], run, p);
        assert !Unchanged(world, s, actions, run);
      }
    }
  }

  /** Whatever happens from `s` on, the run stops waiting only by approval or rejection. */
  ghost predicate OnlyResolved(world: World, s: State, run: nat) {
    forall actions, a :: StopsByUser(world, After(world, s, actions), a, run)
  }

  ghost predicate StopsByUser(world: World, t: State, a: Action, run: nat) {
    var u := Act(world, t, a);
    Approval.Waiting(t.runs, run) && !Approval.Waiting(u.runs, run) ==> Resolves(t, a, run)
  }

  /** In every reachable state, a waiting run stops waiting only by approval or rejection in every
      continuation if and only if no worker still executes it. */
  lemma WaitingIsResolvedExactly(world: World, clock: int, past: seq<Action>, run: nat)
    requires Approval.Waiting(After(world, Start(world, clock), past).runs, run)
    ensures var s := After(world, Start(world, clock), past); OnlyResolved(world, s, run) <==> NoWorkerOn(s, run)
  {
    var s := After(world, Start(world, clock), past);
    Reached(world, clock, past);
    Approval.RunKeeps(world, clock, past);
    assert s.runs[run].completed;
    if NoWorkerOn(s, run) {
      forall actions, a
        ensures StopsByUser(world, After(world, s, actions), a, run)
      {
        SettledStaysOver(world, s, actions, run);
        RowStays(world, After(world, s, actions), a, run);
      }
    } else {
      var p :| p in s.procs && Executes(s.procs[p], run);
      WorkerRaises(world, s, run, p);
      assert !StopsByUser(world, After(world, s, [Go(p, Raise)]), Go(p, Proceed), run);
    }
  }
}
