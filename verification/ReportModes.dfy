/**
 Why runs end as they do: the autonomy mode that an execution read, an approval, a rejection or a failure
 explains every outcome, every draft and every e-mail, with overlap and crashes included.
 */
module ReportModes {
  import opened Common
  import opened ReportEngine
  import Mail = ReportDelivery
  import Outcome = ReportOutcome

  // ---------------------------------------------------------------- causes

  predicate ReadAs(c: Causes, run: nat, mode: Mode) {
    c.modes[(run, mode)] > 0
  }

  predicate IsAuto(c: Causes, run: nat) {
    ReadAs(c, run, AutoNotify) || ReadAs(c, run, AutoSilent)
  }

  /** Somebody let the report out: an automatic mode, or a user who opened an approval. */
  predicate IsReleased(c: Causes, run: nat) {
    IsAuto(c, run) || c.approvals[run] > 0
  }

  predicate GoalCaused(c: Causes, run: nat, goal: Goal) {
    match goal
    case Approval => c.approvals[run] > 0
    case Report(mode, _) => (mode == AutoNotify || mode == AutoSilent) && ReadAs(c, run, mode)
  }

  predicate WorkCaused(c: Causes, run: nat, work: Work) {
    match work
    case ReadMode => true
    case ReadRun(mode) => mode != Shadow && ReadAs(c, run, mode)
    case Generate(mode) => mode != Shadow && ReadAs(c, run, mode)
    case SaveReport(mode, _) => mode != Shadow && ReadAs(c, run, mode)
    case Propose(_) => ReadAs(c, run, Proposed)
    case ReadRecipients(goal) => GoalCaused(c, run, goal)
    case ReadLedger(goal, _) => GoalCaused(c, run, goal)
    case Send(goal, _, _, _) => GoalCaused(c, run, goal)
    case Record(goal, _, _, _, _, _) => GoalCaused(c, run, goal)
    case Notify(_) => ReadAs(c, run, AutoNotify)
    case Finalize(Succeeded, kept) => IsAuto(c, run) && kept.Some?
    case Finalize(Failed, _) => c.failures[run] > 0
    case Finalize(Skipped, kept) => ReadAs(c, run, Shadow) && kept.None?
    case Finalize(PendingApproval, _) => false
    case Settle(_) => c.approvals[run] > 0
  }

  /** What each outcome takes. */
  predicate RowCaused(c: Causes, run: nat, row: Run) {
    row.completed ==>
      match row.status
      case Succeeded => IsReleased(c, run) && row.report.Some?
      case PendingApproval => ReadAs(c, run, Proposed) && row.report.Some?
      case Skipped => if row.report.None? then ReadAs(c, run, Shadow) else ReadAs(c, run, Proposed)
      case Failed => c.failures[run] > 0
  }

  predicate DraftCaused(c: Causes, d: Draft) {
    ReadAs(c, d.run, if d.proposed then Proposed else AutoNotify)
  }

  predicate ProcCaused(c: Causes, q: Process) {
    Mail.Live(q).Some? ==> WorkCaused(c, Mail.Live(q).value, Mail.WorkOf(q))
  }

  predicate MailCaused(s: State, run: nat, r: nat) {
    s.seen.accepted[(run, r)] > 0 ==> IsReleased(s.seen.causes, run)
  }

  ghost predicate RowsCaused(s: State) {
    && (forall i :: 0 <= i < |s.runs| ==> RowCaused(s.seen.causes, i, s.runs[i]))
    && (forall i :: 0 <= i < |s.runs| ==> s.runs[i].completed || s.runs[i].status == Skipped)
  }

  ghost predicate Inv(s: State) {
    && RowsCaused(s)
    && (forall i :: 0 <= i < |s.drafts| ==> DraftCaused(s.seen.causes, s.drafts[i]))
    && (forall run: nat, r: nat :: MailCaused(s, run, r))
    && (forall p :: p in s.procs ==> ProcCaused(s.seen.causes, s.procs[p]))
  }

  // ---------------------------------------------------------------- causes stay

  ghost predicate Grows(c: Causes, d: Causes) {
    c.modes <= d.modes && c.approvals <= d.approvals && c.rejections <= d.rejections && c.failures <= d.failures
  }

  lemma CausesStay(c: Causes, d: Causes, run: nat)
    requires Grows(c, d)
    ensures forall mode :: ReadAs(c, run, mode) ==> ReadAs(d, run, mode)
    ensures c.approvals[run] > 0 ==> d.approvals[run] > 0
    ensures c.failures[run] > 0 ==> d.failures[run] > 0
  {
    forall mode | ReadAs(c, run, mode)
      ensures ReadAs(d, run, mode)
    {
      assert c.modes[(run, mode)] <= d.modes[(run, mode)];
    }
    assert c.approvals[run] <= d.approvals[run] && c.failures[run] <= d.failures[run];
  }

  lemma WorkStays(c: Causes, d: Causes, run: nat, work: Work)
    requires Grows(c, d) && WorkCaused(c, run, work)
    ensures WorkCaused(d, run, work)
  {
    CausesStay(c, d, run);
  }

  lemma RowStays(c: Causes, d: Causes, run: nat, row: Run)
    requires Grows(c, d) && RowCaused(c, run, row)
    ensures RowCaused(d, run, row)
  {
    CausesStay(c, d, run);
  }

  // ---------------------------------------------------------------- one step of an execution

  lemma StepRows(world: World, s: State, run: nat, work: Work, choice: Choice)
    requires run < |s.runs|
    ensures var t := Step(world, s, run, work, choice).state;
            && |t.runs| == |s.runs| && t.procs == s.procs
            && forall i :: 0 <= i < |s.runs| && i != run ==> t.runs[i] == s.runs[i]
  {
  }

  /** Only reading the mode and failing to generate add a cause. */
  lemma StepCauses(world: World, s: State, run: nat, work: Work, choice: Choice)
    requires run < |s.runs|
    ensures Grows(s.seen.causes, Step(world, s, run, work, choice).state.seen.causes)
    ensures !work.ReadMode? && !work.Generate? ==>
              Step(world, s, run, work, choice).state.seen.causes == s.seen.causes
  {
  }

  lemma NoteWork(world: World, s: State, run: nat, work: Work, choice: Choice)
    requires run < |s.runs| && WorkCaused(s.seen.causes, run, work) && (work.ReadMode? || work.Generate?)
    ensures var next := Step(world, s, run, work, choice);
            next.More? ==> WorkCaused(next.state.seen.causes, run, next.work)
  {
  }

  lemma PlainWork(world: World, s: State, run: nat, work: Work, choice: Choice)
    requires run < |s.runs| && WorkCaused(s.seen.causes, run, work) && !work.ReadMode? && !work.Generate?
    ensures var next := Step(world, s, run, work, choice);
            next.More? ==> WorkCaused(s.seen.causes, run, next.work)
  {
  }

  lemma StepWork(world: World, s: State, run: nat, work: Work, choice: Choice)
    requires run < |s.runs| && WorkCaused(s.seen.causes, run, work)
    ensures var next := Step(world, s, run, work, choice);
            next.More? ==> WorkCaused(next.state.seen.causes, run, next.work)
  {
    if work.ReadMode? || work.Generate? {
      NoteWork(world, s, run, work, choice);
    } else {
      PlainWork(world, s, run, work, choice);
      StepCauses(world, s, run, work, choice);
    }
  }

  lemma StepRow(world: World, s: State, run: nat, work: Work, choice: Choice)
    requires run < |s.runs| && WorkCaused(s.seen.causes, run, work) && RowCaused(s.seen.causes, run, s.runs[run])
    requires s.runs[run].completed || s.runs[run].status == Skipped
    ensures var t := Step(world, s, run, work, choice).state;
            && RowCaused(t.seen.causes, run, t.runs[run])
            && (t.runs[run].completed || t.runs[run].status == Skipped)
  {
    StepCauses(world, s, run, work, choice);
    CausesStay(s.seen.causes, Step(world, s, run, work, choice).state.seen.causes, run);
  }

  lemma StepDrafts(world: World, s: State, run: nat, work: Work, choice: Choice)
    requires run < |s.runs| && WorkCaused(s.seen.causes, run, work)
    requires forall i :: 0 <= i < |s.drafts| ==> DraftCaused(s.seen.causes, s.drafts[i])
    ensures var t := Step(world, s, run, work, choice).state;
            forall i :: 0 <= i < |t.drafts| ==> DraftCaused(t.seen.causes, t.drafts[i])
  {
    var t := Step(world, s, run, work, choice).state;
    StepCauses(world, s, run, work, choice);
    forall i | 0 <= i < |s.drafts|
      ensures DraftCaused(t.seen.causes, s.drafts[i])
    {
      CausesStay(s.seen.causes, t.seen.causes, s.drafts[i].run);
    }
  }

  lemma StepMail(world: World, s: State, run: nat, work: Work, choice: Choice, other: nat, r: nat)
    requires run < |s.runs| && WorkCaused(s.seen.causes, run, work) && MailCaused(s, other, r)
    ensures MailCaused(Step(world, s, run, work, choice).state, other, r)
  {
    StepCauses(world, s, run, work, choice);
    CausesStay(s.seen.causes, Step(world, s, run, work, choice).state.seen.causes, other);
  }

  // ---------------------------------------------------------------- frame

  /** The rest of the invariant when causes grow and process `p` alone moves. */
  lemma Keep(s: State, t: State, p: nat)
    requires Inv(s) && Grows(s.seen.causes, t.seen.causes) && RowsCaused(t)
    requires forall i :: 0 <= i < |t.drafts| ==> DraftCaused(t.seen.causes, t.drafts[i])
    requires forall run: nat, r: nat :: MailCaused(t, run, r)
    requires forall q :: q in t.procs && q != p ==> q in s.procs && t.procs[q] == s.procs[q]
    requires p in t.procs ==> ProcCaused(t.seen.causes, t.procs[p])
    ensures Inv(t)
  {
    forall q | q in t.procs && q != p
      ensures ProcCaused(t.seen.causes, t.procs[q])
    {
      assert ProcCaused(s.seen.causes, s.procs[q]);
      if Mail.Live(s.procs[q]).Some? {
        WorkStays(s.seen.causes, t.seen.causes, Mail.Live(s.procs[q]).value, Mail.WorkOf(s.procs[q]));
      }
    }
  }

  /** A step that writes no draft and accepts no mail. */
  lemma QuietKeeps(s: State, t: State, p: nat)
    requires Inv(s) && Grows(s.seen.causes, t.seen.causes) && RowsCaused(t)
    requires t.drafts == s.drafts && t.seen.accepted == s.seen.accepted
    requires forall q :: q in t.procs && q != p ==> q in s.procs && t.procs[q] == s.procs[q]
    requires p in t.procs ==> ProcCaused(t.seen.causes, t.procs[p])
    ensures Inv(t)
  {
    forall i | 0 <= i < |t.drafts|
      ensures DraftCaused(t.seen.causes, t.drafts[i])
    {
      CausesStay(s.seen.causes, t.seen.causes, s.drafts[i].run);
    }
    forall run: nat, r: nat
      ensures MailCaused(t, run, r)
    {
      assert MailCaused(s, run, r);
      CausesStay(s.seen.causes, t.seen.causes, run);
    }
    Keep(s, t, p);
  }

  lemma SameRows(s: State, t: State)
    requires RowsCaused(s) && Grows(s.seen.causes, t.seen.causes) && t.runs == s.runs
    ensures RowsCaused(t)
  {
    forall i | 0 <= i < |t.runs|
      ensures RowCaused(t.seen.causes, i, t.runs[i])
    {
      RowStays(s.seen.causes, t.seen.causes, i, s.runs[i]);
    }
  }

  // ---------------------------------------------------------------- the steps

  lemma ExecutionKeeps(world: World, s: State, p: nat, run: nat, work: Work, choice: Choice, t: State, q: Process)
    requires Inv(s) && p in s.procs && Mail.Live(s.procs[p]) == Some(run) && Mail.WorkOf(s.procs[p]) == work
    requires run < |s.runs| && t == SetProc(Step(world, s, run, work, choice).state, p, q)
    requires Step(world, s, run, work, choice).More? ==>
               Mail.Live(q) == Some(run) && Mail.WorkOf(q) == Step(world, s, run, work, choice).work
    requires Step(world, s, run, work, choice).Done? ==> Mail.Live(q).None?
    ensures Inv(t)
  {
    assert ProcCaused(s.seen.causes, s.procs[p]);
    StepRows(world, s, run, work, choice);
    StepCauses(world, s, run, work, choice);
    StepWork(world, s, run, work, choice);
    StepDrafts(world, s, run, work, choice);
    forall i | 0 <= i < |t.runs|
      ensures RowCaused(t.seen.causes, i, t.runs[i]) && (t.runs[i].completed || t.runs[i].status == Skipped)
    {
      if i == run {
        StepRow(world, s, run, work, choice);
      } else {
        RowStays(s.seen.causes, t.seen.causes, i, s.runs[i]);
      }
    }
    forall other: nat, r: nat
      ensures MailCaused(t, other, r)
    {
      assert MailCaused(s, other, r);
      StepMail(world, s, run, work, choice, other, r);
    }
    Keep(s, t, p);
  }

  lemma RaiseKeeps(s: State, t: State, p: nat, run: nat)
    requires Inv(s) && t.runs == s.runs && t.drafts == s.drafts && t.seen.accepted == s.seen.accepted
    requires Grows(s.seen.causes, t.seen.causes) && t.seen.causes.failures[run] > 0
    requires forall q :: q in t.procs && q != p ==> q in s.procs && t.procs[q] == s.procs[q]
    requires p in t.procs && Mail.Live(t.procs[p]).Some? ==>
               Mail.Live(t.procs[p]) == Some(run) && Mail.WorkOf(t.procs[p]) == Finalize(Failed, None)
    ensures Inv(t)
  {
    SameRows(s, t);
    QuietKeeps(s, t, p);
  }

  lemma ExecuteKeeps(world: World, s: State, p: nat, choice: Choice)
    requires Inv(s) && Proc(s, p).Worker? && Proc(s, p).job.Execute? && Proc(s, p).job.run < |s.runs|
    ensures Inv(WorkerStep(world, s, p, Proc(s, p), choice))
  {
    var q := s.procs[p];
    var t := WorkerStep(world, s, p, q, choice);
    if choice.Raise? {
      RaiseKeeps(s, t, p, q.job.run);
    } else {
      ExecutionKeeps(world, s, p, q.job.run, q.job.work, choice, t, t.procs[p]);
    }
  }

  lemma ApproverKeeps(world: World, s: State, p: nat, choice: Choice)
    requires Inv(s) && Proc(s, p).Approver? && Proc(s, p).run < |s.runs|
    ensures Inv(ApproverStep(world, s, p, Proc(s, p), choice))
  {
    var q := s.procs[p];
    var t := ApproverStep(world, s, p, q, choice);
    if choice.Raise? {
      SameRows(s, t);
      QuietKeeps(s, t, p);
    } else {
      ExecutionKeeps(world, s, p, q.run, q.work, choice, t, t.procs[p]);
    }
  }

  lemma ClaimKeeps(world: World, s: State, p: nat, choice: Choice)
    requires Inv(s) && Proc(s, p).Worker? && Proc(s, p).job.Claim?
    ensures Inv(WorkerStep(world, s, p, Proc(s, p), choice))
  {
    QuietKeeps(s, WorkerStep(world, s, p, Proc(s, p), choice), p);
  }

  lemma TakeoverKeeps(world: World, s: State, p: nat, choice: Choice)
    requires Inv(s) && Proc(s, p).Worker? && Proc(s, p).job.Takeover?
    ensures Inv(WorkerStep(world, s, p, Proc(s, p), choice))
  {
    QuietKeeps(s, WorkerStep(world, s, p, Proc(s, p), choice), p);
  }

  lemma RestKeeps(world: World, s: State, p: nat, choice: Choice)
    requires Inv(s) && Proc(s, p).Worker?
    requires Proc(s, p).job.Between? || Proc(s, p).job.Probe? || Proc(s, p).job.Advance?
    ensures Inv(WorkerStep(world, s, p, Proc(s, p), choice))
  {
    Mail.RestFacts(world, s, p, Proc(s, p), choice);
    var t := WorkerStep(world, s, p, Proc(s, p), choice);
    SameRows(s, t);
    QuietKeeps(s, t, p);
  }

  lemma GoKeeps(world: World, s: State, p: nat, choice: Choice)
    requires Inv(s)
    ensures Inv(GoStep(world, s, p, choice))
  {
    match Proc(s, p) {
      case Idle =>
      case Approver(run, _) => if run < |s.runs| { ApproverKeeps(world, s, p, choice); }
      case Worker(_, _, job) =>
        match job {
          case Execute(_, run, _) => if run < |s.runs| { ExecuteKeeps(world, s, p, choice); }
          case Claim(_) => ClaimKeeps(world, s, p, choice);
          case Takeover(_) => TakeoverKeeps(world, s, p, choice);
          case _ => RestKeeps(world, s, p, choice);
        }
    }
  }

  lemma ApproveKeeps(s: State, p: nat, run: nat)
    requires Inv(s)
    ensures Inv(ApproveStep(s, p, run))
  {
    var t := ApproveStep(s, p, run);
    if t != s {
      SameRows(s, t);
      QuietKeeps(s, t, p);
    }
  }

  lemma RejectKeeps(s: State, run: nat)
    requires Inv(s)
    ensures Inv(RejectStep(s, run))
  {
    var t := RejectStep(s, run);
    if t != s {
      forall i | 0 <= i < |t.runs|
        ensures RowCaused(t.seen.causes, i, t.runs[i]) && (t.runs[i].completed || t.runs[i].status == Skipped)
      {
        RowStays(s.seen.causes, t.seen.causes, i, s.runs[i]);
      }
      if 0 in s.procs {
        assert ProcCaused(s.seen.causes, s.procs[0]);
        if Mail.Live(s.procs[0]).Some? {
          WorkStays(s.seen.causes, t.seen.causes, Mail.Live(s.procs[0]).value, Mail.WorkOf(s.procs[0]));
        }
      }
      QuietKeeps(s, t, 0);
    }
  }

  lemma PlainKeeps(s: State, t: State, p: nat)
    requires Inv(s) && t.runs == s.runs && t.drafts == s.drafts && t.seen.accepted == s.seen.accepted
    requires t.seen.causes == s.seen.causes
    requires forall q :: q in t.procs && q != p ==> q in s.procs && t.procs[q] == s.procs[q]
    requires p in t.procs && !(p in s.procs && t.procs[p] == s.procs[p]) ==> Mail.Live(t.procs[p]).None?
    ensures Inv(t)
  {
    SameRows(s, t);
    QuietKeeps(s, t, p);
  }

  lemma CrashKeeps(s: State, p: nat)
    requires Inv(s)
    ensures Inv(CrashStep(s, p))
  {
    PlainKeeps(s, CrashStep(s, p), p);
  }

  lemma TickKeeps(s: State, p: nat, now: int, due: seq<Due>)
    requires Inv(s)
    ensures Inv(TickStep(s, p, now, due))
  {
    PlainKeeps(s, TickStep(s, p, now, due), p);
  }

  lemma OutsideKeeps(world: World, s: State, a: Action)
    requires Inv(s) && (a.Webhook? || a.Wait?)
    ensures Inv(Act(world, s, a))
  {
    PlainKeeps(s, Act(world, s, a), 0);
  }

  lemma ActKeeps(world: World, s: State, a: Action)
    requires Inv(s)
    ensures Inv(Act(world, s, a))
  {
    match a {
      case Go(p, choice) => GoKeeps(world, s, p, choice);
      case Approve(p, run) => ApproveKeeps(s, p, run);
      case Reject(run) => RejectKeeps(s, run);
      case Crash(p) => CrashKeeps(s, p);
      case Tick(p, now, due) => TickKeeps(s, p, now, due);
      case _ => OutsideKeeps(world, s, a);
    }
  }

  lemma {:induction false} RunKeeps(world: World, clock: int, actions: seq<Action>)
    ensures Inv(After(world, Start(world, clock), actions))
  {
    if actions != [] {
      var before := actions[..|actions| - 1];
      RunKeeps(world, clock, before);
      ActKeeps(world, After(world, Start(world, clock), before), actions[|actions| - 1]);
    }
  }

  // ---------------------------------------------------------------- the theorems

  /** Mail goes out only for a run that some execution read as automatic or that a user opened for approval: a
      shadow schedule and an unapproved proposal mail nobody. */
  lemma MailIsReleased(world: World, clock: int, actions: seq<Action>, run: nat, r: nat)
    ensures var seen := After(world, Start(world, clock), actions).seen;
            seen.accepted[(run, r)] > 0 ==>
              || seen.causes.modes[(run, AutoNotify)] > 0 || seen.causes.modes[(run, AutoSilent)] > 0
              || seen.causes.approvals[run] > 0
  {
    RunKeeps(world, clock, actions);
    assert MailCaused(After(world, Start(world, clock), actions), run, r);
  }

  /** Every outcome has its cause, and a report exactly when one was made for it. */
  lemma OutcomeHasCause(world: World, clock: int, actions: seq<Action>, run: nat)
    requires run < |After(world, Start(world, clock), actions).runs|
    ensures var s := After(world, Start(world, clock), actions);
            var row, c := s.runs[run], s.seen.causes;
            && (row.status == Succeeded ==>
                  row.report.Some? &&
                  (c.modes[(run, AutoNotify)] > 0 || c.modes[(run, AutoSilent)] > 0 || c.approvals[run] > 0))
            && (row.status == PendingApproval ==> row.report.Some? && c.modes[(run, Proposed)] > 0)
            && (row.status == Failed ==> c.failures[run] > 0)
            && (row.status == Skipped && row.completed ==>
                  if row.report.None? then c.modes[(run, Shadow)] > 0 else c.modes[(run, Proposed)] > 0)
  {
    RunKeeps(world, clock, actions);
    var s := After(world, Start(world, clock), actions);
    assert RowCaused(s.seen.causes, run, s.runs[run]);
  }

  /** A pending draft comes from a proposal, an executed one from a run that notifies; silent runs leave none. */
  lemma DraftHasCause(world: World, clock: int, actions: seq<Action>, i: nat)
    requires i < |After(world, Start(world, clock), actions).drafts|
    ensures var s := After(world, Start(world, clock), actions);
            var d := s.drafts[i];
            s.seen.causes.modes[(d.run, if d.proposed then Proposed else AutoNotify)] > 0
  {
    RunKeeps(world, clock, actions);
    var s := After(world, Start(world, clock), actions);
    assert DraftCaused(s.seen.causes, s.drafts[i]);
  }

  /** An execution that reads `shadow` and does not raise ends its row as skipped, without a report, and touches
      neither mail nor ledger nor drafts. */
  lemma ShadowIsSkipped(world: World, s: State, p: nat, due: Due, run: nat, choice: Choice)
    requires Proc(s, p).Worker? && Proc(s, p).job == Execute(due, run, ReadMode) && run < |s.runs| && !choice.Raise?
    ensures var t := Act(world, Act(world, s, Go(p, UseMode(Shadow))), Go(p, choice));
            && run < |t.runs| && t.runs[run].completed && t.runs[run].status == Skipped && t.runs[run].report == None
            && t.seen.accepted == s.seen.accepted && t.ledger == s.ledger && t.drafts == s.drafts
  {
  }

  // ---------------------------------------------------------------- the causes are real

  predicate ReadsMode(s: State, a: Action, run: nat, mode: Mode) {
    && a.Go? && a.choice == UseMode(mode)
    && Mail.Live(Proc(s, a.p)) == Some(run) && Mail.WorkOf(Proc(s, a.p)).ReadMode?
  }

  predicate OpensApproval(s: State, a: Action, run: nat) {
    a.Approve? && a.run == run && run < |s.runs| && s.runs[run].status == PendingApproval
  }

  predicate Fails(s: State, a: Action, run: nat) {
    a.Go? && Mail.Live(Proc(s, a.p)) == Some(run) && (a.choice == Raise || a.choice == GenerationFails)
  }

  lemma StepNotes(world: World, s: State, run: nat, work: Work, choice: Choice, other: nat, mode: Mode)
    requires run < |s.runs|
    ensures var c, d := s.seen.causes, Step(world, s, run, work, choice).state.seen.causes;
            && (d.modes[(other, mode)] > c.modes[(other, mode)] ==>
                  other == run && work.ReadMode? && choice == UseMode(mode))
            && (d.failures[other] > c.failures[other] ==> other == run && choice == GenerationFails)
            && d.approvals == c.approvals
  {
  }

  ghost predicate Noted(s: State, a: Action, d: Causes, run: nat, mode: Mode) {
    var c := s.seen.causes;
    && (d.modes[(run, mode)] > c.modes[(run, mode)] ==> ReadsMode(s, a, run, mode))
    && (d.failures[run] > c.failures[run] ==> Fails(s, a, run))
    && (d.approvals[run] > c.approvals[run] ==> OpensApproval(s, a, run))
  }

  lemma ExecuteNotes(world: World, s: State, p: nat, choice: Choice, run: nat, mode: Mode)
    requires Proc(s, p).Worker? && Proc(s, p).job.Execute?
    ensures Noted(s, Go(p, choice), WorkerStep(world, s, p, Proc(s, p), choice).seen.causes, run, mode)
  {
    var q := Proc(s, p);
    if q.job.run < |s.runs| { StepNotes(world, s, q.job.run, q.job.work, choice, run, mode); }
  }

  lemma OtherJobNotes(world: World, s: State, p: nat, choice: Choice)
    requires Proc(s, p).Worker? && !Proc(s, p).job.Execute?
    ensures WorkerStep(world, s, p, Proc(s, p), choice).seen.causes == s.seen.causes
  {
  }

  lemma ApproverNotes(world: World, s: State, p: nat, choice: Choice, run: nat, mode: Mode)
    requires Proc(s, p).Approver?
    ensures Noted(s, Go(p, choice), ApproverStep(world, s, p, Proc(s, p), choice).seen.causes, run, mode)
  {
    var q := Proc(s, p);
    if q.run < |s.runs| { StepNotes(world, s, q.run, q.work, choice, run, mode); }
  }

  lemma GoNotes(world: World, s: State, p: nat, choice: Choice, run: nat, mode: Mode)
    ensures Noted(s, Go(p, choice), GoStep(world, s, p, choice).seen.causes, run, mode)
  {
    match Proc(s, p)
    case Idle =>
    case Approver(_, _) => ApproverNotes(world, s, p, choice, run, mode);
    case Worker(_, _, job) =>
      if job.Execute? { ExecuteNotes(world, s, p, choice, run, mode); } else { OtherJobNotes(world, s, p, choice); }
  }

  lemma ActNotes(world: World, s: State, a: Action, run: nat, mode: Mode)
    ensures Noted(s, a, Act(world, s, a).seen.causes, run, mode)
  {
    if a.Go? { GoNotes(world, s, a.p, a.choice, run, mode); }
  }

  /** What is counted as a cause happened in the run. */
  lemma {:induction false} CausesAreReal(world: World, clock: int, actions: seq<Action>, run: nat, mode: Mode)
    ensures var c := After(world, Start(world, clock), actions).seen.causes;
            && (c.modes[(run, mode)] > 0 ==>
                  exists n :: 0 <= n < |actions| &&
                    ReadsMode(After(world, Start(world, clock), actions[..n]), actions[n], run, mode))
            && (c.approvals[run] > 0 ==>
                  exists n :: 0 <= n < |actions| &&
                    OpensApproval(After(world, Start(world, clock), actions[..n]), actions[n], run))
            && (c.failures[run] > 0 ==>
                  exists n :: 0 <= n < |actions| &&
                    Fails(After(world, Start(world, clock), actions[..n]), actions[n], run))
  {
    if actions != [] {
      var last := |actions| - 1;
      var before := actions[..last];
      CausesAreReal(world, clock, before, run, mode);
      ActNotes(world, After(world, Start(world, clock), before), actions[last], run, mode);
      assert forall n :: 0 <= n < |before| ==> before[n] == actions[n] && before[..n] == actions[..n];
      assert actions[..last] == before;
    }
  }
}
