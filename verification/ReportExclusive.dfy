/**
 What the hypothesis that executions never overlap asks of a deployment: that no takeover succeeds and no
 approval starts on a run that some process is still executing.
 */
module ReportExclusive {
  import opened Common
  import opened ReportEngine
  import opened ReportDelivery
  import Approval = ReportApproval
  import Outcome = ReportOutcome

  /** Some process executes the run. */
  ghost predicate Busy(s: State, run: nat) {
    exists q :: q in s.procs && Live(s.procs[q]) == Some(run)
  }

  /** The takeover of a stale run succeeds: it is unfinished and was triggered an hour ago by the worker's clock. */
  predicate IsStale(s: State, due: Due, now: int) {
    var i := FindRun(s.runs, due);
    i < |s.runs| && !s.runs[i].completed && s.runs[i].triggeredAt <= now - HOUR
  }

  predicate CanApprove(s: State, run: nat) {
    run < |s.runs| && s.runs[run].status == PendingApproval && s.runs[run].report.Some?
  }

  /** The run whose execution the action starts, if it starts one. */
  function StartedBy(s: State, a: Action): Option<nat> {
    if a.Approve? then if Proc(s, a.p) == Idle && CanApprove(s, a.run) then Some(a.run) else None
    else if a.Go? && Proc(s, a.p).Worker? then
      var q := Proc(s, a.p);
      if q.job.Claim? && !HasRun(s.runs, q.job.due) then Some(|s.runs|)
      else if q.job.Takeover? && IsStale(s, q.job.due, q.now) then Some(FindRun(s.runs, q.job.due))
      else None
    else None
  }

  /** A takeover or an approval starts on a run that is being executed. */
  ghost predicate Clashes(s: State, a: Action) {
    && StartedBy(s, a).Some? && Busy(s, StartedBy(s, a).value)
    && (a.Approve? || Proc(s, a.p).job.Takeover?)
  }

  // ---------------------------------------------------------------- one step

  ghost predicate LiveOk(s: State) {
    forall p :: p in s.procs && Live(s.procs[p]).Some? ==> Live(s.procs[p]).value < |s.runs|
  }

  lemma ExecuteLive(world: World, s: State, p: nat, q: Process, choice: Choice)
    requires q.Worker? && q.job.Execute? && q == Proc(s, p)
    ensures var t := WorkerStep(world, s, p, q, choice);
            p in t.procs ==> Live(t.procs[p]).None? || Live(t.procs[p]) == Live(q)
  {
    Outcome.StepProcs(world, s, q.job.run, q.job.work, choice);
  }

  lemma OtherJobLive(world: World, s: State, p: nat, choice: Choice)
    requires Proc(s, p).Worker? && !Proc(s, p).job.Execute?
    ensures var t := WorkerStep(world, s, p, Proc(s, p), choice);
            p in t.procs && Live(t.procs[p]) == StartedBy(s, Go(p, choice))
  {
  }

  lemma ApproverLive(world: World, s: State, p: nat, q: Process, choice: Choice)
    requires q.Approver? && q == Proc(s, p)
    ensures var t := ApproverStep(world, s, p, q, choice);
            p in t.procs ==> Live(t.procs[p]).None? || Live(t.procs[p]) == Live(q)
  {
    Outcome.StepProcs(world, s, q.run, q.work, choice);
  }

  /** After a step its process executes what it executed before, nothing, or what the step started. */
  lemma ActorLive(world: World, s: State, a: Action, p: nat)
    requires Outcome.ActsOn(a, p)
    ensures var t := Act(world, s, a);
            if StartedBy(s, a).Some? then p in t.procs && Live(t.procs[p]) == StartedBy(s, a) && Live(Proc(s, p)).None?
            else p in t.procs && Live(t.procs[p]).Some? ==> p in s.procs && Live(t.procs[p]) == Live(s.procs[p])
  {
    if a.Go? {
      match Proc(s, p)
      case Idle =>
      case Approver(_, _) => ApproverLive(world, s, p, Proc(s, p), a.choice);
      case Worker(_, _, job) =>
        if job.Execute? {
          ExecuteLive(world, s, p, Proc(s, p), a.choice);
        } else {
          OtherJobLive(world, s, p, a.choice);
        }
    }
  }

  /** While executions are apart, a step keeps them apart exactly when it does not clash. */
  lemma StaysApartExactly(world: World, s: State, a: Action)
    requires Apart(s) && LiveOk(s)
    ensures Apart(Act(world, s, a)) <==> !Clashes(s, a)
  {
    var t := Act(world, s, a);
    forall p | !Outcome.ActsOn(a, p)
      ensures p in t.procs <==> p in s.procs
      ensures p in s.procs ==> t.procs[p] == s.procs[p]
    {
      Outcome.OneProcess(world, s, a, p);
    }
    if a.Go? || a.Crash? || a.Tick? || a.Approve? {
      ActorLive(world, s, a, a.p);
      ActorDecides(s, t, a);
    }
  }

  lemma ActorDecides(s: State, t: State, a: Action)
    requires Apart(s) && LiveOk(s) && (a.Go? || a.Crash? || a.Tick? || a.Approve?)
    requires forall p :: p != a.p ==> (p in t.procs <==> p in s.procs)
    requires forall p :: p != a.p && p in s.procs ==> t.procs[p] == s.procs[p]
    requires if StartedBy(s, a).Some?
             then a.p in t.procs && Live(t.procs[a.p]) == StartedBy(s, a) && Live(Proc(s, a.p)).None?
             else a.p in t.procs && Live(t.procs[a.p]).Some? ==>
                    a.p in s.procs && Live(t.procs[a.p]) == Live(s.procs[a.p])
    ensures Apart(t) <==> !Clashes(s, a)
  {
    if StartedBy(s, a).Some? && Busy(s, StartedBy(s, a).value) {
      var q :| q in s.procs && Live(s.procs[q]) == StartedBy(s, a);
      assert q != a.p && q in t.procs;
      assert StartedBy(s, a).value < |s.runs|;
    }
  }

  // ---------------------------------------------------------------- whole runs

  ghost predicate NeverClashes(world: World, clock: int, actions: seq<Action>) {
    forall n :: 0 <= n < |actions| ==> !Clashes(After(world, Start(world, clock), actions[..n]), actions[n])
  }

  lemma ApartNext(world: World, clock: int, actions: seq<Action>, n: nat)
    requires n < |actions| && Apart(After(world, Start(world, clock), actions[..n]))
    ensures Apart(After(world, Start(world, clock), actions[..n + 1])) <==>
            !Clashes(After(world, Start(world, clock), actions[..n]), actions[n])
  {
    var s := After(world, Start(world, clock), actions[..n]);
    Approval.RunKeeps(world, clock, actions[..n]);
    assert LiveOk(s) by {
      forall p | p in s.procs && Live(s.procs[p]).Some?
        ensures Live(s.procs[p]).value < |s.runs|
      {
        assert Approval.ProcOk(s, s.procs[p]);
      }
    }
    assert actions[..n + 1] == actions[..n] + [actions[n]];
    Outcome.Extend(world, Start(world, clock), actions[..n], actions[n]);
    StaysApartExactly(world, s, actions[n]);
  }

  lemma {:induction false} ApartUpTo(world: World, clock: int, actions: seq<Action>, n: nat)
    requires NeverClashes(world, clock, actions) && n <= |actions|
    ensures Apart(After(world, Start(world, clock), actions[..n]))
  {
    if n > 0 {
      ApartUpTo(world, clock, actions, n - 1);
      ApartNext(world, clock, actions, n - 1);
    }
  }

  /** Executions of a run never overlap if and only if no takeover succeeds and no approval starts while a
      process is executing that run. */
  lemma NeverOverlapsExactly(world: World, clock: int, actions: seq<Action>)
    ensures NeverOverlaps(world, clock, actions) <==> NeverClashes(world, clock, actions)
  {
    if NeverOverlaps(world, clock, actions) {
      forall n | 0 <= n < |actions|
        ensures !Clashes(After(world, Start(world, clock), actions[..n]), actions[n])
      {
        ApartNext(world, clock, actions, n);
      }
    }
    if NeverClashes(world, clock, actions) {
      forall n | 0 <= n <= |actions|
        ensures Apart(After(world, Start(world, clock), actions[..n]))
      {
        ApartUpTo(world, clock, actions, n);
      }
    }
  }

  /** A claim or takeover stamps the run with the database clock, so that for an hour from then on no worker whose
      clock is not ahead can take it over. */
  lemma StartIsFresh(world: World, s: State, a: Action, now: int)
    requires StartedBy(s, a).Some? && a.Go? && now < s.clock + 3_600_000_000
    ensures var t, due := Act(world, s, a), Proc(s, a.p).job.due;
            && FindRun(t.runs, due) == StartedBy(s, a).value && StartedBy(s, a).value < |t.runs|
            && !t.runs[StartedBy(s, a).value].completed && !IsStale(t, due, now)
  {
    var due, t := Proc(s, a.p).job.due, Act(world, s, a);
    if Proc(s, a.p).job.Claim? {
      assert t.runs[..|s.runs|] == s.runs;
      assert t.runs[|s.runs|].schedule == due.schedule;
      FirstRunStays(s.runs, t.runs, due);
    } else {
      FirstRunStays(s.runs, t.runs, due);
    }
  }

  lemma {:induction false} FirstRunStays(before: seq<Run>, after: seq<Run>, due: Due)
    requires |before| <= |after| <= |before| + 1
    requires forall i :: 0 <= i < |before| ==>
               after[i].schedule == before[i].schedule && after[i].slot == before[i].slot
    requires |after| == |before| + 1 ==>
               !HasRun(before, due) && after[|before|].schedule == due.schedule && after[|before|].slot == due.slot
    ensures FindRun(after, due) == FindRun(before, due)
    decreases |after|
  {
    if after != [] {
      var last := |after| - 1;
      if |before| == |after| {
        FirstRunStays(before[..last], after[..last], due);
      } else {
        assert after[..last] == after[..|before|];
        FirstRunStays(before, after[..last], due);
      }
    }
  }

  // ---------------------------------------------------------------- counting starts

  lemma StepStartsNothing(world: World, s: State, run: nat, work: Work, choice: Choice)
    ensures run < |s.runs| ==> Step(world, s, run, work, choice).state.seen.started == s.seen.started
  {
  }

  lemma WorkerStarts(world: World, s: State, p: nat, choice: Choice)
    requires Proc(s, p).Worker?
    ensures var begun := StartedBy(s, Go(p, choice));
            WorkerStep(world, s, p, Proc(s, p), choice).seen.started ==
            s.seen.started + if begun.Some? then multiset{begun.value} else multiset{}
  {
    var q := Proc(s, p);
    if q.job.Execute? { StepStartsNothing(world, s, q.job.run, q.job.work, choice); }
  }

  lemma ActStarts(world: World, s: State, a: Action)
    ensures var begun := StartedBy(s, a);
            Act(world, s, a).seen.started == s.seen.started + if begun.Some? then multiset{begun.value} else multiset{}
  {
    if a.Go? {
      match Proc(s, a.p)
      case Idle =>
      case Worker(_, _, _) => WorkerStarts(world, s, a.p, a.choice);
      case Approver(run, work) => StepStartsNothing(world, s, run, work, a.choice);
    }
  }

  /** How many actions of a run start an execution of run row `run`. */
  function Starts(world: World, clock: int, actions: seq<Action>, run: nat): nat {
    if actions == [] then 0
    else
      var before := actions[..|actions| - 1];
      Starts(world, clock, before, run) +
      Bit(StartedBy(After(world, Start(world, clock), before), actions[|actions| - 1]) == Some(run))
  }

  /** The history counts exactly the successful claims, takeovers and approvals. */
  lemma {:induction false} StartsAreCounted(world: World, clock: int, actions: seq<Action>, run: nat)
    ensures After(world, Start(world, clock), actions).seen.started[run] == Starts(world, clock, actions, run)
  {
    if actions != [] {
      var before := actions[..|actions| - 1];
      StartsAreCounted(world, clock, before, run);
      ActStarts(world, After(world, Start(world, clock), before), actions[|actions| - 1]);
    }
  }
}
