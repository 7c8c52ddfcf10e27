/**
 A bound on mail that needs no assumption on overlap: an execution mails a recipient at most once, so
 a recipient never gets more mail for a run than executions of that run were started.
 */
module ReportMail {
  import opened Common
  import opened ReportEngine
  import opened ReportDelivery

  /** An execution that stands here may still mail the recipient. */
  predicate MayMail(work: Work, r: nat) {
    match work
    case Send(_, _, todo, _) => r in todo
    case Record(_, _, todo, _, _, _) => r in todo
    case Propose(_) => false
    case Notify(_) => false
    case Finalize(_, _) => false
    case Settle(_) => false
    case _ => true
  }

  predicate ListOk(work: Work) {
    match work
    case ReadLedger(_, recipients) => Distinct(recipients)
    case Send(_, _, todo, _) => Distinct(todo)
    case Record(_, _, todo, _, _, _) => Distinct(todo)
    case _ => true
  }

  predicate Mails(q: Process, run: nat, r: nat) {
    Live(q) == Some(run) && MayMail(WorkOf(q), r)
  }

  /** The processes that may still mail `r` about `run`. */
  function Mailers(s: State, run: nat, r: nat): set<nat> {
    set p | p in s.procs && Mails(s.procs[p], run, r)
  }

  predicate ProcListOk(q: Process) {
    Live(q).Some? ==> ListOk(WorkOf(q))
  }

  ghost predicate WithinStarts(s: State, run: nat, r: nat) {
    s.seen.accepted[(run, r)] + |Mailers(s, run, r)| <= s.seen.started[run]
  }

  ghost predicate MailInv(s: State) {
    && (forall p :: p in s.procs ==> ProcListOk(s.procs[p]))
    && (forall run: nat, r: nat :: WithinStarts(s, run, r))
  }

  // ---------------------------------------------------------------- one step

  lemma StepStartsNothing(world: World, s: State, run: nat, work: Work, choice: Choice)
    requires run < |s.runs|
    ensures var t := Step(world, s, run, work, choice).state;
            && t.procs == s.procs && t.seen.started == s.seen.started
            && (!work.Send? ==> t.seen.accepted == s.seen.accepted)
  {
  }

  /** The right to mail is never regained. */
  lemma StepMayMailLess(world: World, s: State, run: nat, work: Work, choice: Choice, r: nat)
    requires run < |s.runs| && ListOk(work) && !work.Send?
    ensures var next := Step(world, s, run, work, choice);
            next.More? ==> ListOk(next.work) && (MayMail(next.work, r) ==> MayMail(work, r))
  {
  }

  lemma SendMails(s: State, run: nat, work: Work, choice: Choice, r: nat)
    requires work.Send? && Distinct(work.todo)
    ensures var next := SendOne(s, run, work, choice);
            && (next.More? ==> ListOk(next.work))
            && next.state.seen.accepted[(run, r)] + Bit(next.More? && MayMail(next.work, r)) <=
               s.seen.accepted[(run, r)] + Bit(MayMail(work, r))
  {
    if work.todo != [] { DistinctTail(work.todo); }
  }

  /** One statement of an execution: mail to `r` uses up the right to mail `r`. */
  lemma StepMails(world: World, s: State, run: nat, work: Work, choice: Choice, r: nat)
    requires run < |s.runs| && ListOk(work)
    ensures var next := Step(world, s, run, work, choice);
            && next.state.procs == s.procs && next.state.seen.started == s.seen.started
            && (next.More? ==> ListOk(next.work))
            && next.state.seen.accepted[(run, r)] + Bit(next.More? && MayMail(next.work, r)) <=
               s.seen.accepted[(run, r)] + Bit(MayMail(work, r))
  {
    StepStartsNothing(world, s, run, work, choice);
    if work.Send? {
      SendMails(s, run, work, choice, r);
      assert Step(world, s, run, work, choice) == SendOne(s, run, work, choice);
    } else {
      StepMayMailLess(world, s, run, work, choice, r);
    }
  }

  lemma StepOtherRuns(world: World, s: State, run: nat, work: Work, choice: Choice, other: nat, r: nat)
    requires run < |s.runs| && other != run
    ensures Step(world, s, run, work, choice).state.seen.accepted[(other, r)] == s.seen.accepted[(other, r)]
  {
  }

  /** What a step of process `p` may do to the mail of one pair. */
  ghost predicate Pays(s: State, t: State, p: nat, run: nat, r: nat) {
    t.seen.accepted[(run, r)] + Bit(p in Mailers(t, run, r)) + s.seen.started[run] <=
    s.seen.accepted[(run, r)] + Bit(p in Mailers(s, run, r)) + t.seen.started[run]
  }

  lemma PaysKeeps(s: State, t: State, p: nat, run: nat, r: nat)
    requires OneProc(s, t, p) && WithinStarts(s, run, r) && Pays(s, t, p, run, r)
    ensures WithinStarts(t, run, r)
  {
    SameOthers(s, t, p, run, r);
    CountWithout(Mailers(s, run, r), p);
    CountWithout(Mailers(t, run, r), p);
  }

  lemma SameOthers(s: State, t: State, p: nat, run: nat, r: nat)
    requires OneProc(s, t, p)
    ensures Mailers(s, run, r) - {p} == Mailers(t, run, r) - {p}
  {
  }

  lemma CountWithout(ids: set<nat>, p: nat)
    ensures |ids| == |ids - {p}| + Bit(p in ids)
  {
    if p !in ids { assert ids - {p} == ids; }
  }

  lemma Keep(s: State, t: State, p: nat)
    requires MailInv(s) && OneProc(s, t, p) && (p in t.procs ==> ProcListOk(t.procs[p]))
    requires forall run: nat, r: nat :: Pays(s, t, p, run, r)
    ensures MailInv(t)
  {
    forall run: nat, r: nat
      ensures WithinStarts(t, run, r)
    {
      assert WithinStarts(s, run, r) && Pays(s, t, p, run, r);
      PaysKeeps(s, t, p, run, r);
    }
  }

  /** A step of `p` that starts nothing and mails nobody, after which `p` may mail no more than before. */
  lemma QuietKeeps(s: State, t: State, p: nat)
    requires MailInv(s) && OneProc(s, t, p) && (p in t.procs ==> ProcListOk(t.procs[p]))
    requires t.seen.accepted == s.seen.accepted && t.seen.started == s.seen.started
    requires p in t.procs && Live(t.procs[p]).Some? ==>
               p in s.procs && (t.procs[p] == s.procs[p] || WorkOf(t.procs[p]).Finalize?)
    ensures MailInv(t)
  {
    forall run: nat, r: nat
      ensures Pays(s, t, p, run, r)
    {
    }
    Keep(s, t, p);
  }

  /** An execution of `run` starts. */
  lemma StartKeeps(s: State, t: State, p: nat, run: nat)
    requires MailInv(s) && OneProc(s, t, p) && p in t.procs && Live(t.procs[p]) == Some(run)
    requires ListOk(WorkOf(t.procs[p])) && t.seen.accepted == s.seen.accepted
    requires t.seen.started == s.seen.started + multiset{run}
    ensures MailInv(t)
  {
    forall x: nat, r: nat
      ensures Pays(s, t, p, x, r)
    {
    }
    Keep(s, t, p);
  }

  /** One statement of the execution that process `p` works on. */
  lemma ExecutionKeeps(world: World, s: State, p: nat, run: nat, work: Work, choice: Choice, t: State, q: Process)
    requires MailInv(s) && p in s.procs && Live(s.procs[p]) == Some(run) && WorkOf(s.procs[p]) == work
    requires run < |s.runs| && t == SetProc(Step(world, s, run, work, choice).state, p, q)
    requires Step(world, s, run, work, choice).More? ==>
               Live(q) == Some(run) && WorkOf(q) == Step(world, s, run, work, choice).work
    requires Step(world, s, run, work, choice).Done? ==> Live(q).None?
    ensures MailInv(t)
  {
    assert ProcListOk(s.procs[p]);
    StepMails(world, s, run, work, choice, 0);
    forall x: nat, r: nat
      ensures Pays(s, t, p, x, r)
    {
      if x == run {
        StepMails(world, s, run, work, choice, r);
      } else {
        StepOtherRuns(world, s, run, work, choice, x, r);
      }
    }
    Keep(s, t, p);
  }

  lemma ExecuteKeeps(world: World, s: State, p: nat, choice: Choice)
    requires MailInv(s) && Proc(s, p).Worker? && Proc(s, p).job.Execute?
    ensures MailInv(WorkerStep(world, s, p, Proc(s, p), choice))
  {
    var q := s.procs[p];
    var run, work := q.job.run, q.job.work;
    var t := WorkerStep(world, s, p, q, choice);
    if run < |s.runs| {
      if choice.Raise? {
        QuietKeeps(s, t, p);
      } else {
        ExecutionKeeps(world, s, p, run, work, choice, t, t.procs[p]);
      }
    }
  }

  lemma ApproverKeeps(world: World, s: State, p: nat, choice: Choice)
    requires MailInv(s) && Proc(s, p).Approver?
    ensures MailInv(ApproverStep(world, s, p, Proc(s, p), choice))
  {
    var q := s.procs[p];
    var t := ApproverStep(world, s, p, q, choice);
    if q.run < |s.runs| {
      if choice.Raise? {
        QuietKeeps(s, t, p);
      } else {
        ExecutionKeeps(world, s, p, q.run, q.work, choice, t, t.procs[p]);
      }
    }
  }

  lemma ClaimKeeps(world: World, s: State, p: nat, choice: Choice)
    requires MailInv(s) && Proc(s, p).Worker? && Proc(s, p).job.Claim?
    ensures MailInv(WorkerStep(world, s, p, Proc(s, p), choice))
  {
    var t := WorkerStep(world, s, p, Proc(s, p), choice);
    if HasRun(s.runs, Proc(s, p).job.due) { QuietKeeps(s, t, p); } else { StartKeeps(s, t, p, |s.runs|); }
  }

  lemma TakeoverKeeps(world: World, s: State, p: nat, choice: Choice)
    requires MailInv(s) && Proc(s, p).Worker? && Proc(s, p).job.Takeover?
    ensures MailInv(WorkerStep(world, s, p, Proc(s, p), choice))
  {
    var t := WorkerStep(world, s, p, Proc(s, p), choice);
    if Live(t.procs[p]).Some? { StartKeeps(s, t, p, Live(t.procs[p]).value); } else { QuietKeeps(s, t, p); }
  }

  lemma RestKeeps(world: World, s: State, p: nat, choice: Choice)
    requires MailInv(s) && Proc(s, p).Worker?
    requires Proc(s, p).job.Between? || Proc(s, p).job.Probe? || Proc(s, p).job.Advance?
    ensures MailInv(WorkerStep(world, s, p, Proc(s, p), choice))
  {
    RestFacts(world, s, p, Proc(s, p), choice);
    QuietKeeps(s, WorkerStep(world, s, p, Proc(s, p), choice), p);
  }

  lemma GoKeeps(world: World, s: State, p: nat, choice: Choice)
    requires MailInv(s)
    ensures MailInv(GoStep(world, s, p, choice))
  {
    match Proc(s, p) {
      case Idle =>
      case Approver(_, _) => ApproverKeeps(world, s, p, choice);
      case Worker(_, _, job) =>
        match job {
          case Execute(_, _, _) => ExecuteKeeps(world, s, p, choice);
          case Claim(_) => ClaimKeeps(world, s, p, choice);
          case Takeover(_) => TakeoverKeeps(world, s, p, choice);
          case _ => RestKeeps(world, s, p, choice);
        }
    }
  }

  lemma ApproveKeeps(s: State, p: nat, run: nat)
    requires MailInv(s)
    ensures MailInv(ApproveStep(s, p, run))
  {
    var t := ApproveStep(s, p, run);
    if t != s { StartKeeps(s, t, p, run); }
  }

  /** A step of no process, or one that puts a process to other work than mailing. */
  lemma OutsideKeeps(world: World, s: State, a: Action)
    requires MailInv(s) && (a.Wait? || a.Reject? || a.Webhook?)
    ensures MailInv(Act(world, s, a))
  {
    QuietKeeps(s, Act(world, s, a), 0);
  }

  lemma TickKeeps(s: State, p: nat, now: int, due: seq<Due>)
    requires MailInv(s)
    ensures MailInv(TickStep(s, p, now, due))
  {
    QuietKeeps(s, TickStep(s, p, now, due), p);
  }

  lemma CrashKeeps(s: State, p: nat)
    requires MailInv(s)
    ensures MailInv(CrashStep(s, p))
  {
    QuietKeeps(s, CrashStep(s, p), p);
  }

  lemma {:induction false} RunKeeps(world: World, clock: int, actions: seq<Action>)
    ensures MailInv(After(world, Start(world, clock), actions))
  {
    if actions == [] {
      assert forall run: nat, r: nat :: Mailers(Start(world, clock), run, r) == {};
    } else {
      var before, a := actions[..|actions| - 1], actions[|actions| - 1];
      RunKeeps(world, clock, before);
      var s := After(world, Start(world, clock), before);
      match a {
        case Go(p, choice) => GoKeeps(world, s, p, choice);
        case Approve(p, run) => ApproveKeeps(s, p, run);
        case Tick(p, now, due) => TickKeeps(s, p, now, due);
        case Crash(p) => CrashKeeps(s, p);
        case _ => OutsideKeeps(world, s, a);
      }
    }
  }

  // ---------------------------------------------------------------- the theorem

  /** In every run, overlap included, the mail a recipient gets for a run is at most the number of times the
      run was claimed, taken over or opened for approval. */
  lemma MailWithinStarts(world: World, clock: int, actions: seq<Action>, run: nat, r: nat)
    ensures var seen := After(world, Start(world, clock), actions).seen;
            seen.accepted[(run, r)] <= seen.started[run]
  {
    RunKeeps(world, clock, actions);
    assert WithinStarts(After(world, Start(world, clock), actions), run, r);
  }
}
