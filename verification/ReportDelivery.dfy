/**
 What the report engine guarantees while no two executions of one run overlap: nobody is mailed
 twice except through an interruption or a lost acknowledgement, and a finished run keeps its
 outcome.
 */
module ReportDelivery {
  import opened Common
  import opened ReportEngine
  import Approval = ReportApproval

  // ---------------------------------------------------------------- overlap

  /** The run a process is executing, if any. */
  function Live(q: Process): Option<nat> {
    match q
    case Idle => None
    case Approver(run, _) => Some(run)
    case Worker(_, _, job) => if job.Execute? then Some(job.run) else None
  }

  function WorkOf(q: Process): Work
    requires Live(q).Some?
  {
    if q.Approver? then q.work else q.job.work
  }

  ghost predicate Apart(s: State) {
    forall p, q :: p in s.procs && q in s.procs && p != q && Live(s.procs[p]).Some? ==>
      Live(s.procs[p]) != Live(s.procs[q])
  }

  /** At every moment of the run at most one process executes any given run row. */
  ghost predicate NeverOverlaps(world: World, clock: int, actions: seq<Action>) {
    forall n :: 0 <= n <= |actions| ==> Apart(After(world, Start(world, clock), actions[..n]))
  }

  // ---------------------------------------------------------------- invariant

  predicate ApproverWork(work: Work) {
    work.Settle? || ((work.ReadRecipients? || work.ReadLedger? || work.Send? || work.Record?) && work.goal.Approval?)
  }

  /** Nobody on the to-do list, and not the recipient in hand, is recorded as sent. */
  predicate MailOk(ledger: seq<Delivery>, run: nat, work: Work) {
    match work
    case ReadLedger(_, recipients) => Distinct(recipients)
    case Send(_, _, todo, _) => Distinct(todo) && forall r :: r in todo ==> !IsSent(ledger, run, r)
    case Record(_, _, todo, _, to, _) =>
      Distinct(todo) && to !in todo && !IsSent(ledger, run, to) && forall r :: r in todo ==> !IsSent(ledger, run, r)
    case _ => true
  }

  predicate ProcOk(s: State, q: Process) {
    Live(q).Some? ==>
      && Live(q).value < |s.runs| && MailOk(s.ledger, Live(q).value, WorkOf(q))
      && (q.Approver? ==> ApproverWork(q.work))
      && (q.Worker? ==> !s.runs[q.job.run].completed)
  }

  predicate Holds(q: Process, run: nat, r: nat) {
    Live(q) == Some(run) && WorkOf(q).Record? && WorkOf(q).recipient == r && WorkOf(q).status == Sent
  }

  /** Accepted mail to `r` that the ledger does not show yet. */
  predicate InHand(s: State, run: nat, r: nat) {
    exists p :: p in s.procs && Holds(s.procs[p], run, r)
  }

  predicate MailBounded(s: State, run: nat, r: nat) {
    s.seen.accepted[(run, r)] <= s.seen.lostAcks[(run, r)] + s.seen.interrupted[(run, r)]
                                 + Bit(IsSent(s.ledger, run, r)) + Bit(InHand(s, run, r))
  }

  ghost predicate LedgerOk(ledger: seq<Delivery>) {
    forall i :: 0 <= i < |ledger| && ledger[i].tracked ==> IsSent(ledger, ledger[i].run, ledger[i].recipient)
  }

  ghost predicate Inv(s: State) {
    && LedgerOk(s.ledger)
    && (forall p :: p in s.procs ==> ProcOk(s, s.procs[p]))
    && (forall run: nat, r: nat :: MailBounded(s, run, r))
  }

  // ---------------------------------------------------------------- ledger facts

  /** Appending one row changes at most the sent-ness of that row's own recipient. */
  lemma AppendSent(ledger: seq<Delivery>, d: Delivery, run: nat, r: nat)
    ensures IsSent(ledger + [d], run, r) <==>
            IsSent(ledger, run, r) || (d.run == run && d.recipient == r && d.status == Sent)
  {
    var longer := ledger + [d];
    if IsSent(ledger, run, r) {
      var i :| 0 <= i < |ledger| && ledger[i].run == run && ledger[i].recipient == r && ledger[i].status == Sent;
      assert longer[i] == ledger[i];
    }
    assert longer[|ledger|] == d;
  }

  lemma AppendLedger(ledger: seq<Delivery>, d: Delivery)
    requires LedgerOk(ledger) && (d.tracked ==> d.status == Sent || IsSent(ledger, d.run, d.recipient))
    ensures LedgerOk(ledger + [d])
  {
    forall i | 0 <= i < |ledger + [d]| && (ledger + [d])[i].tracked
      ensures IsSent(ledger + [d], (ledger + [d])[i].run, (ledger + [d])[i].recipient)
    {
      AppendSent(ledger, d, (ledger + [d])[i].run, (ledger + [d])[i].recipient);
    }
  }

  ghost predicate SameSent(s: State, t: State, run: nat) {
    forall r: nat :: IsSent(s.ledger, run, r) == IsSent(t.ledger, run, r)
  }

  // ---------------------------------------------------------------- frame

  /** The other processes keep their claims when their runs stay open and their mail stays as it was. */
  lemma OthersKeep(s: State, t: State, p: nat)
    requires Inv(s) && |s.runs| <= |t.runs|
    requires forall q :: q in t.procs && q != p ==> q in s.procs && t.procs[q] == s.procs[q]
    requires forall q :: q in t.procs && q != p && Live(t.procs[q]).Some? ==>
               SameSent(s, t, Live(t.procs[q]).value)
    requires forall q :: q in t.procs && q != p && t.procs[q].Worker? && t.procs[q].job.Execute? ==>
               t.runs[t.procs[q].job.run].completed == s.runs[t.procs[q].job.run].completed
    requires p in t.procs ==> ProcOk(t, t.procs[p])
    ensures forall q :: q in t.procs ==> ProcOk(t, t.procs[q])
  {
    forall q | q in t.procs && q != p
      ensures ProcOk(t, t.procs[q])
    {
      assert ProcOk(s, s.procs[q]);
    }
  }

  /** Mail in hand for a pair changes only through process `p`. */
  lemma HandFrame(s: State, t: State, p: nat, run: nat, r: nat)
    requires forall q :: q != p ==> (q in t.procs <==> q in s.procs)
    requires forall q :: q in t.procs && q != p ==> t.procs[q] == s.procs[q]
    requires (p in s.procs && Holds(s.procs[p], run, r)) == (p in t.procs && Holds(t.procs[p], run, r))
    ensures InHand(s, run, r) == InHand(t, run, r)
  {
    if InHand(s, run, r) {
      var q :| q in s.procs && Holds(s.procs[q], run, r);
      assert q in t.procs && Holds(t.procs[q], run, r);
    }
    if InHand(t, run, r) {
      var q :| q in t.procs && Holds(t.procs[q], run, r);
      assert q in s.procs && Holds(s.procs[q], run, r);
    }
  }

  predicate OneProc(s: State, t: State, p: nat) {
    && (forall q :: q in t.procs && q != p ==> q in s.procs && t.procs[q] == s.procs[q])
    && (forall q :: q in s.procs && q != p ==> q in t.procs)
  }

  /** A step of process `p` that touches neither mail nor the ledger. */
  lemma QuietKeeps(s: State, t: State, p: nat)
    requires Inv(s) && OneProc(s, t, p) && t.ledger == s.ledger && |s.runs| <= |t.runs|
    requires t.seen.accepted == s.seen.accepted && t.seen.lostAcks == s.seen.lostAcks
             && t.seen.interrupted == s.seen.interrupted
    requires forall q :: q in t.procs && q != p && t.procs[q].Worker? && t.procs[q].job.Execute? ==>
               t.runs[t.procs[q].job.run].completed == s.runs[t.procs[q].job.run].completed
    requires p in t.procs ==> ProcOk(t, t.procs[p])
    requires forall run: nat, r: nat :: !(p in s.procs && Holds(s.procs[p], run, r))
    requires forall run: nat, r: nat :: !(p in t.procs && Holds(t.procs[p], run, r))
    ensures Inv(t)
  {
    OthersKeep(s, t, p);
    forall run: nat, r: nat
      ensures MailBounded(t, run, r)
    {
      assert MailBounded(s, run, r);
      HandFrame(s, t, p, run, r);
    }
  }

  // ---------------------------------------------------------------- mail steps

  /** No other process has mail in hand for a run that `p` is executing. */
  lemma OnlyOwnHand(s: State, p: nat, run: nat, r: nat)
    requires Apart(s) && p in s.procs && Live(s.procs[p]) == Some(run)
    ensures InHand(s, run, r) <==> Holds(s.procs[p], run, r)
  {
  }

  lemma HandOver(s: State, t: State, p: nat, run: nat, work: Work, choice: Choice)
    requires Inv(s) && Apart(s) && p in s.procs && Live(s.procs[p]) == Some(run) && WorkOf(s.procs[p]) == work
    requires work.Send? && work.todo != [] && (choice.Accepted? || choice.LostAck? || choice.Refused?)
    requires OneProc(s, t, p) && p in t.procs && Live(t.procs[p]) == Some(run) && ProcOk(t, t.procs[p])
    requires WorkOf(t.procs[p]) == SendOne(s, run, work, choice).work
    requires t.seen == SendOne(s, run, work, choice).state.seen && t.ledger == s.ledger && t.runs == s.runs
    ensures Inv(t)
  {
    OthersKeep(s, t, p);
    var to := work.todo[0];
    assert ProcOk(s, s.procs[p]);
    assert Holds(t.procs[p], run, to) <==> choice.Accepted?;
    forall run': nat, r: nat
      ensures MailBounded(t, run', r)
    {
      assert MailBounded(s, run', r);
      if (run', r) == (run, to) {
        OnlyOwnHand(s, p, run, to);
      } else {
        HandFrame(s, t, p, run', r);
      }
    }
  }

  lemma WriteDown(s: State, t: State, p: nat, run: nat, work: Work)
    requires Inv(s) && Apart(s) && p in s.procs && Live(s.procs[p]) == Some(run) && WorkOf(s.procs[p]) == work
    requires work.Record?
    requires OneProc(s, t, p) && p in t.procs && Live(t.procs[p]) == Some(run)
    requires s.procs[p].Worker? == t.procs[p].Worker?
    requires WorkOf(t.procs[p]) == Send(work.goal, work.recipients, work.todo, work.allSent)
    requires t.ledger == s.ledger + [Delivery(run, work.recipient, work.status, work.status == Sent)]
    requires t.seen == s.seen && t.runs == s.runs
    ensures Inv(t)
  {
    var d := Delivery(run, work.recipient, work.status, work.status == Sent);
    assert ProcOk(s, s.procs[p]);
    AppendLedger(s.ledger, d);
    forall run': nat, r: nat
      ensures IsSent(t.ledger, run', r) <==>
              IsSent(s.ledger, run', r) || ((run', r) == (run, work.recipient) && work.status == Sent)
    {
      AppendSent(s.ledger, d, run', r);
    }
    OthersKeep(s, t, p);
    forall run': nat, r: nat
      ensures MailBounded(t, run', r)
    {
      assert MailBounded(s, run', r);
      if (run', r) == (run, work.recipient) {
        OnlyOwnHand(s, p, run, r);
      } else {
        HandFrame(s, t, p, run', r);
      }
    }
  }

  /** Dropping an execution with mail in hand turns that mail into an interruption. */
  lemma LetGo(s: State, t: State, p: nat, run: nat, work: Work)
    requires Inv(s) && Apart(s) && p in s.procs && Live(s.procs[p]) == Some(run) && WorkOf(s.procs[p]) == work
    requires OneProc(s, t, p) && (p in t.procs ==> ProcOk(t, t.procs[p]))
    requires p in t.procs && Live(t.procs[p]).Some? ==> !WorkOf(t.procs[p]).Record?
    requires t.ledger == s.ledger && t.runs == s.runs && t.seen.accepted == s.seen.accepted
    requires t.seen.lostAcks == s.seen.lostAcks && t.seen.interrupted == Abandon(s, run, work).seen.interrupted
    ensures Inv(t)
  {
    OthersKeep(s, t, p);
    forall run': nat, r: nat
      ensures MailBounded(t, run', r)
    {
      assert MailBounded(s, run', r);
      if Holds(s.procs[p], run', r) {
        OnlyOwnHand(s, p, run, r);
      } else {
        HandFrame(s, t, p, run', r);
      }
    }
  }

  // ---------------------------------------------------------------- all steps

  predicate HandsOver(work: Work, choice: Choice) {
    work.Send? && work.todo != [] && (choice.Accepted? || choice.LostAck? || choice.Refused?)
  }

  /** Every other statement of an execution leaves mail alone and writes at most its own row. */
  lemma StepQuiet(world: World, s: State, run: nat, work: Work, choice: Choice)
    requires run < |s.runs| && !work.Record? && !HandsOver(work, choice)
    ensures var t := Step(world, s, run, work, choice).state;
            && t.ledger == s.ledger && t.procs == s.procs && |t.runs| == |s.runs|
            && t.seen.accepted == s.seen.accepted && t.seen.lostAcks == s.seen.lostAcks
            && t.seen.interrupted == s.seen.interrupted
            && forall i :: 0 <= i < |s.runs| && i != run ==> t.runs[i] == s.runs[i]
  {
  }

  lemma StepQuietWork(world: World, s: State, run: nat, work: Work, choice: Choice)
    requires run < |s.runs| && MailOk(s.ledger, run, work) && !work.Record? && !HandsOver(work, choice)
    ensures var r := Step(world, s, run, work, choice);
            r.More? ==> && MailOk(s.ledger, run, r.work) && !r.work.Record?
                        && r.state.runs[run].completed == s.runs[run].completed
  {
  }

  lemma StepApprover(world: World, s: State, run: nat, work: Work, choice: Choice)
    requires run < |s.runs| && ApproverWork(work)
    ensures var r := Step(world, s, run, work, choice);
            && (r.More? ==> ApproverWork(r.work))
            && (r.state.runs == s.runs
                || (work.Settle? && s.runs[run].status == PendingApproval
                    && r.state.runs == s.runs[run := s.runs[run].(completed := true, status := Succeeded)]))
  {
  }

  /** One statement of an execution by process `p`, whose next state is `q` when work remains. */
  lemma ExecutionKeeps(world: World, s: State, p: nat, run: nat, work: Work, choice: Choice, t: State, q: Process)
    requires Inv(s) && Apart(s) && p in s.procs && Live(s.procs[p]) == Some(run) && WorkOf(s.procs[p]) == work
    requires t == SetProc(Step(world, s, run, work, choice).state, p, q)
    requires Step(world, s, run, work, choice).More? ==>
               Live(q) == Some(run) && WorkOf(q) == Step(world, s, run, work, choice).work
               && q.Worker? == s.procs[p].Worker?
    requires Step(world, s, run, work, choice).Done? ==> Live(q).None?
    ensures Inv(t)
  {
    assert ProcOk(s, s.procs[p]);
    if s.procs[p].Approver? { StepApprover(world, s, run, work, choice); }
    if work.Record? {
      WriteDown(s, t, p, run, work);
    } else if HandsOver(work, choice) {
      DistinctTail(work.todo);
      HandOver(s, t, p, run, work, choice);
    } else {
      QuietExecution(world, s, p, run, work, choice, t, q);
    }
  }

  lemma QuietExecution(world: World, s: State, p: nat, run: nat, work: Work, choice: Choice, t: State, q: Process)
    requires Inv(s) && Apart(s) && p in s.procs && Live(s.procs[p]) == Some(run) && WorkOf(s.procs[p]) == work
    requires !work.Record? && !HandsOver(work, choice) && run < |s.runs|
    requires t == SetProc(Step(world, s, run, work, choice).state, p, q)
    requires Step(world, s, run, work, choice).More? ==>
               Live(q) == Some(run) && WorkOf(q) == Step(world, s, run, work, choice).work
               && q.Worker? == s.procs[p].Worker? && (q.Approver? ==> ApproverWork(q.work))
    requires Step(world, s, run, work, choice).Done? ==> Live(q).None?
    ensures Inv(t)
  {
    assert ProcOk(s, s.procs[p]);
    StepQuiet(world, s, run, work, choice);
    StepQuietWork(world, s, run, work, choice);
    QuietKeeps(s, t, p);
  }

  lemma ExecuteKeeps(world: World, s: State, p: nat, choice: Choice)
    requires Inv(s) && Apart(s) && Proc(s, p).Worker? && Proc(s, p).job.Execute?
    ensures Inv(WorkerStep(world, s, p, Proc(s, p), choice))
  {
    var q := s.procs[p];
    var run, work := q.job.run, q.job.work;
    var t := WorkerStep(world, s, p, q, choice);
    assert ProcOk(s, q);
    if choice.Raise? {
      LetGo(s, t, p, run, work);
    } else {
      ExecutionKeeps(world, s, p, run, work, choice, t, t.procs[p]);
    }
  }

  lemma ApproverKeeps(world: World, s: State, p: nat, choice: Choice)
    requires Inv(s) && Apart(s) && Proc(s, p).Approver?
    ensures Inv(ApproverStep(world, s, p, Proc(s, p), choice))
  {
    var q := s.procs[p];
    var t := ApproverStep(world, s, p, q, choice);
    assert ProcOk(s, q);
    if choice.Raise? {
      LetGo(s, t, p, q.run, q.work);
    } else {
      ExecutionKeeps(world, s, p, q.run, q.work, choice, t, t.procs[p]);
    }
  }

  lemma ClaimKeeps(world: World, s: State, p: nat, choice: Choice)
    requires Inv(s) && Proc(s, p).Worker? && Proc(s, p).job.Claim?
    ensures Inv(WorkerStep(world, s, p, Proc(s, p), choice))
  {
    QuietKeeps(s, WorkerStep(world, s, p, Proc(s, p), choice), p);
  }

  lemma TakeoverKeeps(world: World, s: State, p: nat, choice: Choice)
    requires Inv(s) && Proc(s, p).Worker? && Proc(s, p).job.Takeover?
    ensures Inv(WorkerStep(world, s, p, Proc(s, p), choice))
  {
    QuietKeeps(s, WorkerStep(world, s, p, Proc(s, p), choice), p);
  }

  lemma RestKeeps(world: World, s: State, p: nat, choice: Choice)
    requires Inv(s) && Proc(s, p).Worker?
    requires Proc(s, p).job.Between? || Proc(s, p).job.Probe? || Proc(s, p).job.Advance?
    ensures Inv(WorkerStep(world, s, p, Proc(s, p), choice))
  {
    RestFacts(world, s, p, Proc(s, p), choice);
    QuietKeeps(s, WorkerStep(world, s, p, Proc(s, p), choice), p);
  }

  /** Between two slots a worker changes only itself and when a schedule is due. */
  lemma RestFacts(world: World, s: State, p: nat, q: Process, choice: Choice)
    requires q.Worker? && (q.job.Between? || q.job.Probe? || q.job.Advance?)
    ensures var t := WorkerStep(world, s, p, q, choice);
            && t.runs == s.runs && t.ledger == s.ledger && t.seen == s.seen
            && p in t.procs && Live(t.procs[p]).None? && t.procs == s.procs[p := t.procs[p]]
  {
  }

  lemma WorkerKeeps(world: World, s: State, p: nat, choice: Choice)
    requires Inv(s) && Apart(s) && Proc(s, p).Worker?
    ensures Inv(WorkerStep(world, s, p, Proc(s, p), choice))
  {
    match Proc(s, p).job {
      case Execute(_, _, _) => ExecuteKeeps(world, s, p, choice);
      case Claim(_) => ClaimKeeps(world, s, p, choice);
      case Takeover(_) => TakeoverKeeps(world, s, p, choice);
      case _ => RestKeeps(world, s, p, choice);
    }
  }

  lemma CrashKeeps(s: State, p: nat)
    requires Inv(s) && Apart(s)
    ensures Inv(CrashStep(s, p))
  {
    var q := Proc(s, p);
    if Live(q).Some? {
      LetGo(s, CrashStep(s, p), p, Live(q).value, WorkOf(q));
    } else if !q.Idle? {
      QuietKeeps(s, CrashStep(s, p), p);
    }
  }

  lemma StartKeeps(s: State, t: State, p: nat)
    requires Inv(s) && Proc(s, p).Idle? && OneProc(s, t, p) && p in t.procs
    requires t.ledger == s.ledger && t.runs == s.runs && t.seen.accepted == s.seen.accepted
    requires t.seen.lostAcks == s.seen.lostAcks && t.seen.interrupted == s.seen.interrupted
    requires ProcOk(t, t.procs[p]) && forall run: nat, r: nat :: !Holds(t.procs[p], run, r)
    ensures Inv(t)
  {
    QuietKeeps(s, t, p);
  }

  /** A step of no process: tables change, but neither who is sent nor which runs are open. */
  lemma TablesKeep(s: State, t: State)
    requires Inv(s) && t.procs == s.procs && LedgerOk(t.ledger) && |t.runs| == |s.runs|
    requires forall run: nat :: SameSent(s, t, run)
    requires forall i :: 0 <= i < |s.runs| ==> t.runs[i].completed == s.runs[i].completed
    requires t.seen.accepted == s.seen.accepted && t.seen.lostAcks == s.seen.lostAcks
             && t.seen.interrupted == s.seen.interrupted
    ensures Inv(t)
  {
    forall p | p in t.procs
      ensures ProcOk(t, t.procs[p])
    {
      assert ProcOk(s, s.procs[p]);
      if Live(t.procs[p]).Some? { assert SameSent(s, t, Live(t.procs[p]).value); }
    }
    forall run: nat, r: nat
      ensures MailBounded(t, run, r)
    {
      assert MailBounded(s, run, r) && SameSent(s, t, run);
    }
  }

  lemma WebhookKeeps(s: State, row: nat, status: DeliveryStatus)
    requires Inv(s)
    ensures Inv(WebhookStep(s, row, status))
  {
    if row < |s.ledger| && s.ledger[row].tracked {
      var d := s.ledger[row].(status := status);
      AppendLedger(s.ledger, d);
      var t := WebhookStep(s, row, status);
      forall run: nat
        ensures SameSent(s, t, run)
      {
        forall r: nat
          ensures IsSent(s.ledger, run, r) == IsSent(t.ledger, run, r)
        {
          AppendSent(s.ledger, d, run, r);
        }
      }
      TablesKeep(s, t);
    }
  }

  lemma RejectKeeps(world: World, s: State, run: nat)
    requires Inv(s) && Approval.Inv(world, s)
    ensures Inv(RejectStep(s, run))
  {
    assert Approval.Waiting(s.runs, run) ==> s.runs[run].completed;
    TablesKeep(s, RejectStep(s, run));
  }

  lemma ActKeeps(world: World, s: State, a: Action)
    requires Inv(s) && Apart(s) && Approval.Inv(world, s)
    ensures Inv(Act(world, s, a))
  {
    match a {
      case Go(p, choice) => GoKeeps(world, s, p, choice);
      case Crash(p) => CrashKeeps(s, p);
      case Reject(run) => RejectKeeps(world, s, run);
      case Webhook(row, status) => WebhookKeeps(s, row, status);
      case Tick(p, now, due) => if TickStep(s, p, now, due) != s { StartKeeps(s, TickStep(s, p, now, due), p); }
      case Approve(p, run) => if ApproveStep(s, p, run) != s { StartKeeps(s, ApproveStep(s, p, run), p); }
      case Wait(elapsed) => TablesKeep(s, s.(clock := s.clock + elapsed));
    }
  }

  lemma GoKeeps(world: World, s: State, p: nat, choice: Choice)
    requires Inv(s) && Apart(s)
    ensures Inv(GoStep(world, s, p, choice))
  {
    match Proc(s, p) {
      case Idle =>
      case Worker(_, _, _) => WorkerKeeps(world, s, p, choice);
      case Approver(_, _) => ApproverKeeps(world, s, p, choice);
    }
  }

  lemma {:induction false} RunKeeps(world: World, clock: int, actions: seq<Action>)
    requires NeverOverlaps(world, clock, actions)
    ensures Inv(After(world, Start(world, clock), actions))
  {
    if actions != [] {
      var before := actions[..|actions| - 1];
      var s := After(world, Start(world, clock), before);
      forall n | 0 <= n <= |before|
        ensures Apart(After(world, Start(world, clock), before[..n]))
      {
        assert before[..n] == actions[..n];
      }
      RunKeeps(world, clock, before);
      assert before[..|before|] == before;
      Approval.RunKeeps(world, clock, before);
      ActKeeps(world, s, actions[|actions| - 1]);
    }
  }

  // ---------------------------------------------------------------- the theorems

  /** The provider accepts at most one mail per run and recipient, plus one for each execution that was
      interrupted between hand-over and ledger and one for each lost acknowledgement. */
  lemma MailedOnce(world: World, clock: int, actions: seq<Action>, run: nat, r: nat)
    requires NeverOverlaps(world, clock, actions)
    ensures var seen := After(world, Start(world, clock), actions).seen;
            seen.accepted[(run, r)] <= 1 + seen.interrupted[(run, r)] + seen.lostAcks[(run, r)]
  {
    RunKeeps(world, clock, actions);
    var s := After(world, Start(world, clock), actions);
    assert MailBounded(s, run, r);
    if InHand(s, run, r) {
      var p :| p in s.procs && Holds(s.procs[p], run, r);
      assert ProcOk(s, s.procs[p]);
    }
  }

  /** A completed run keeps its row for ever; only a run that still waits may be approved or rejected. */
  lemma OutcomeIsFinal(world: World, clock: int, actions: seq<Action>, a: Action, run: nat)
    requires NeverOverlaps(world, clock, actions)
    requires var s := After(world, Start(world, clock), actions); run < |s.runs| && s.runs[run].completed
    ensures var s := After(world, Start(world, clock), actions);
            var t := Act(world, s, a);
            && run < |t.runs|
            && (t.runs[run] == s.runs[run]
                || (s.runs[run].status == PendingApproval
                    && t.runs[run] in {s.runs[run].(status := Succeeded), s.runs[run].(status := Skipped)}))
  {
    RunKeeps(world, clock, actions);
    var s := After(world, Start(world, clock), actions);
    match a {
      case Go(p, choice) =>
        var q := Proc(s, p);
        if q.Approver? {
          assert ProcOk(s, q);
          if !choice.Raise? { StepApprover(world, s, q.run, q.work, choice); }
        } else if q.Worker? {
          assert ProcOk(s, q);
          WorkerTouches(world, s, p, q, choice, run);
        }
      case _ =>
    }
  }

  /** A waiting run turns `succeeded` only by the approving statement, and then every recipient that
      the approval read has a `sent` row. */
  lemma ApprovedMeansDelivered(world: World, clock: int, actions: seq<Action>, a: Action, run: nat)
    returns (p: nat, recipients: seq<nat>)
    requires NeverOverlaps(world, clock, actions)
    ensures var s := After(world, Start(world, clock), actions);
            var t := Act(world, s, a);
            Approval.Waiting(s.runs, run) && run < |t.runs| && t.runs[run].status == Succeeded ==>
              && Proc(s, p) == Approver(run, Settle(recipients))
              && forall r :: r in recipients ==> IsSent(s.ledger, run, r)
  {
    p, recipients := 0, [];
    var s := After(world, Start(world, clock), actions);
    var t := Act(world, s, a);
    if Approval.Waiting(s.runs, run) && run < |t.runs| && t.runs[run].status == Succeeded {
      RunKeeps(world, clock, actions);
      Approval.RunKeeps(world, clock, actions);
      assert s.runs[run].completed;
      assert a.Go? && Proc(s, a.p) != Idle;
      p := a.p;
      var q := Proc(s, p);
      assert ProcOk(s, q);
      if q.Worker? { WorkerTouches(world, s, p, q, a.choice, run); }
      if !a.choice.Raise? { StepApprover(world, s, q.run, q.work, a.choice); }
      recipients := q.work.recipients;
      assert Approval.ProcOk(s, q);
    }
  }

  /** A worker writes only an open row: the one it executes, or one it takes over. */
  lemma WorkerTouches(world: World, s: State, p: nat, q: Process, choice: Choice, run: nat)
    requires q.Worker? && ProcOk(s, q) && run < |s.runs| && s.runs[run].completed
    ensures var t := WorkerStep(world, s, p, q, choice); run < |t.runs| && t.runs[run] == s.runs[run]
  {
    if q.job.Execute? {
      var own, work := q.job.run, q.job.work;
      if !choice.Raise? { StepElsewhere(world, s, own, work, choice, run); }
    }
  }

  lemma StepElsewhere(world: World, s: State, own: nat, work: Work, choice: Choice, run: nat)
    requires own < |s.runs| && run < |s.runs| && own != run
    ensures var t := Step(world, s, own, work, choice).state; |t.runs| == |s.runs| && t.runs[run] == s.runs[run]
  {
  }
}
