/**
 Drafts and approvals of the report engine, in every run and without any assumption on overlap:
 a run waits for approval only with a draft of its own, it stops waiting at most once, and an
 approval succeeds only after every recipient it read has a `sent` row.
 */
module ReportApproval {
  import opened Common
  import opened ReportEngine

  // ---------------------------------------------------------------- invariant

  ghost predicate UniqueDrafts(drafts: seq<Draft>) {
    forall i, j | 0 <= i < |drafts| && 0 <= j < |drafts| ::
      drafts[i].schedule == drafts[j].schedule && drafts[i].period == drafts[j].period ==> i == j
  }

  /** A draft carries its run, and its key is the one that run's slot determines. */
  predicate DraftOfRun(world: World, runs: seq<Run>, d: Draft) {
    && d.run < |runs| && runs[d.run].schedule == d.schedule && d.schedule in world
    && d.period == world[d.schedule].periodStart(runs[d.run].slot)
  }

  predicate HasProposal(drafts: seq<Draft>, run: nat) {
    exists i :: 0 <= i < |drafts| && drafts[i].run == run && drafts[i].proposed
  }

  predicate Waiting(runs: seq<Run>, run: nat) {
    run < |runs| && runs[run].status == PendingApproval
  }

  /** Each proposal pays for exactly one stay in `pending_approval`. */
  predicate StaysPaid(s: State, run: nat) {
    s.seen.left[run] + Bit(Waiting(s.runs, run)) == Bit(HasProposal(s.drafts, run))
  }

  ghost predicate TablesOk(world: World, s: State) {
    && UniqueDrafts(s.drafts)
    && (forall i :: 0 <= i < |s.drafts| ==> DraftOfRun(world, s.runs, s.drafts[i]))
    && (forall run: nat :: StaysPaid(s, run))
    && (forall run: nat :: Waiting(s.runs, run) ==> s.runs[run].completed)
  }

  /** While nothing has failed, every recipient read is sent, being sent, or still to do. */
  predicate WorkOk(ledger: seq<Delivery>, run: nat, work: Work) {
    match work
    case Send(_, recipients, todo, allSent) =>
      allSent ==> forall r :: r in recipients ==> r in todo || IsSent(ledger, run, r)
    case Record(_, recipients, todo, allSent, to, status) =>
      allSent ==> status == Sent && forall r :: r in recipients ==> r in todo || r == to || IsSent(ledger, run, r)
    case Settle(recipients) => forall r :: r in recipients ==> IsSent(ledger, run, r)
    case Finalize(outcome, _) => outcome != PendingApproval
    case _ => true
  }

  predicate ProcOk(s: State, q: Process) {
    match q
    case Idle => true
    case Approver(run, work) => run < |s.runs| && WorkOk(s.ledger, run, work)
    case Worker(_, _, job) => job.Execute? ==> job.run < |s.runs| && WorkOk(s.ledger, job.run, job.work)
  }

  ghost predicate Inv(world: World, s: State) {
    TablesOk(world, s) && forall p :: p in s.procs ==> ProcOk(s, s.procs[p])
  }

  // ---------------------------------------------------------------- frame

  lemma SentStays(a: seq<Delivery>, b: seq<Delivery>, run: nat, r: nat)
    requires a <= b && IsSent(a, run, r)
    ensures IsSent(b, run, r)
  {
    var i :| 0 <= i < |a| && a[i].run == run && a[i].recipient == r && a[i].status == Sent;
    assert b[i] == a[i];
  }

  lemma WorkStays(a: seq<Delivery>, b: seq<Delivery>, run: nat, work: Work)
    requires a <= b && WorkOk(a, run, work)
    ensures WorkOk(b, run, work)
  {
    forall r: nat | IsSent(a, run, r)
      ensures IsSent(b, run, r)
    {
      SentStays(a, b, run, r);
    }
  }

  lemma Keep(world: World, s: State, t: State, p: nat)
    requires Inv(world, s) && TablesOk(world, t) && s.ledger <= t.ledger && |s.runs| <= |t.runs|
    requires forall q :: q in t.procs && q != p ==> q in s.procs && t.procs[q] == s.procs[q]
    requires p in t.procs ==> ProcOk(t, t.procs[p])
    ensures Inv(world, t)
  {
    forall q | q in t.procs
      ensures ProcOk(t, t.procs[q])
    {
      if q != p {
        match s.procs[q] {
          case Idle =>
          case Approver(run, work) => WorkStays(s.ledger, t.ledger, run, work);
          case Worker(_, _, job) => if job.Execute? { WorkStays(s.ledger, t.ledger, job.run, job.work); }
        }
      }
    }
  }

  // ---------------------------------------------------------------- writing a run row

  /** A row write that does not start a stay keeps the tables. */
  lemma WriteKeeps(world: World, s: State, run: nat, row: Run)
    requires TablesOk(world, s) && run < |s.runs|
    requires row.schedule == s.runs[run].schedule && row.slot == s.runs[run].slot
    requires row.status == PendingApproval ==> s.runs[run].status == PendingApproval && row.completed
    ensures TablesOk(world, WriteRun(s, run, row))
  {
    var t := WriteRun(s, run, row);
    forall i | 0 <= i < |t.drafts|
      ensures DraftOfRun(world, t.runs, t.drafts[i])
    {
      assert DraftOfRun(world, s.runs, s.drafts[i]);
    }
    forall r: nat
      ensures StaysPaid(t, r)
      ensures Waiting(t.runs, r) ==> t.runs[r].completed
    {
      assert StaysPaid(s, r);
      assert Waiting(s.runs, r) ==> s.runs[r].completed;
    }
  }

  ghost predicate DraftsOk(world: World, runs: seq<Run>, drafts: seq<Draft>) {
    UniqueDrafts(drafts) && forall i :: 0 <= i < |drafts| ==> DraftOfRun(world, runs, drafts[i])
  }

  /** A draft that is inserted is the only one of its key, so a proposal is the first of its run. */
  lemma EmitKeeps(world: World, s: State, d: Draft)
    requires DraftsOk(world, s.runs, s.drafts) && DraftOfRun(world, s.runs, d)
    ensures DraftsOk(world, s.runs, EmitDraft(s, d).drafts)
    ensures var taken := HasDraft(s.drafts, d.schedule, d.period);
            && (!taken ==> !HasProposal(s.drafts, d.run))
            && forall r: nat :: HasProposal(EmitDraft(s, d).drafts, r) <==>
                                HasProposal(s.drafts, r) || (!taken && d.proposed && r == d.run)
  {
    var t := EmitDraft(s, d);
    if HasDraft(s.drafts, d.schedule, d.period) {
      return;
    }
    assert forall i :: 0 <= i < |s.drafts| ==> DraftOfRun(world, s.runs, s.drafts[i]);
    assert !HasProposal(s.drafts, d.run);
    assert t.drafts[|s.drafts|] == d;
    forall r: nat | HasProposal(s.drafts, r)
      ensures HasProposal(t.drafts, r)
    {
      var i :| 0 <= i < |s.drafts| && s.drafts[i].run == r && s.drafts[i].proposed;
      assert t.drafts[i] == s.drafts[i];
    }
    forall i | 0 <= i < |t.drafts|
      ensures DraftOfRun(world, t.runs, t.drafts[i])
    {
      if i < |s.drafts| { assert DraftOfRun(world, s.runs, s.drafts[i]); }
    }
  }

  /** The proposing transaction: the draft it inserts is the first proposal of its run. */
  lemma ProposeKeeps(world: World, s: State, run: nat, report: nat)
    requires TablesOk(world, s) && run < |s.runs| && s.runs[run].schedule in world
    ensures TablesOk(world, Step(world, s, run, Propose(report), Proceed).state)
  {
    var row := s.runs[run];
    var d := Draft(row.schedule, world[row.schedule].periodStart(row.slot), run, true);
    var mid := EmitDraft(s, d);
    EmitKeeps(world, s, d);
    if HasDraft(s.drafts, d.schedule, d.period) {
      WriteKeeps(world, mid, run, Finished(row, Skipped, Some(report)));
    } else {
      var t := WriteRun(mid, run, Finished(row, PendingApproval, Some(report)));
      assert t == Step(world, s, run, Propose(report), Proceed).state;
      forall i | 0 <= i < |t.drafts|
        ensures DraftOfRun(world, t.runs, t.drafts[i])
      {
        assert DraftOfRun(world, mid.runs, mid.drafts[i]);
      }
      forall r: nat
        ensures StaysPaid(t, r)
        ensures Waiting(t.runs, r) ==> t.runs[r].completed
      {
        assert StaysPaid(s, r) && StaysPaid(s, run);
        assert Waiting(s.runs, r) ==> s.runs[r].completed;
      }
    }
  }

  lemma NotifyKeeps(world: World, s: State, d: Draft)
    requires TablesOk(world, s) && DraftOfRun(world, s.runs, d) && !d.proposed
    ensures TablesOk(world, EmitDraft(s, d))
  {
    EmitKeeps(world, s, d);
    forall r: nat
      ensures StaysPaid(EmitDraft(s, d), r)
    {
      assert StaysPaid(s, r);
    }
  }

  // ---------------------------------------------------------------- the steps

  lemma StepTables(world: World, s: State, run: nat, work: Work, choice: Choice)
    requires TablesOk(world, s) && run < |s.runs| && WorkOk(s.ledger, run, work)
    ensures TablesOk(world, Step(world, s, run, work, choice).state)
  {
    var row := s.runs[run];
    match work {
      case Propose(report) =>
        if row.schedule in world { ProposeKeeps(world, s, run, report); }
      case Notify(_) =>
        if row.schedule in world {
          NotifyKeeps(world, s, Draft(row.schedule, world[row.schedule].periodStart(row.slot), run, false));
        }
      case SaveReport(_, report) =>
        if !row.completed {
          assert !Waiting(s.runs, run);
          WriteKeeps(world, s, run, row.(report := Some(report)));
        }
      case Finalize(outcome, kept) => WriteKeeps(world, s, run, Finished(row, outcome, kept));
      case Settle(_) =>
        if row.status == PendingApproval { WriteKeeps(world, s, run, row.(completed := true, status := Succeeded)); }
      case Send(_, _, _, _) => SendTables(world, s, run, work, choice);
      case Record(_, _, _, _, _, _) => SameTables(world, s, Step(world, s, run, work, choice).state);
      case ReadMode => SameTables(world, s, Step(world, s, run, work, choice).state);
      case Generate(_) => SameTables(world, s, Step(world, s, run, work, choice).state);
      case _ =>
    }
  }

  lemma SameTables(world: World, s: State, t: State)
    requires TablesOk(world, s) && t.drafts == s.drafts && t.runs == s.runs && t.seen.left == s.seen.left
    ensures TablesOk(world, t)
  {
    forall r: nat
      ensures StaysPaid(t, r)
    {
      assert StaysPaid(s, r);
    }
  }

  lemma SendTables(world: World, s: State, run: nat, work: Work, choice: Choice)
    requires TablesOk(world, s) && run < |s.runs| && work.Send?
    ensures TablesOk(world, SendOne(s, run, work, choice).state)
  {
    SameTables(world, s, SendOne(s, run, work, choice).state);
  }

  lemma StepWork(world: World, s: State, run: nat, work: Work, choice: Choice)
    requires run < |s.runs| && WorkOk(s.ledger, run, work)
    ensures var r := Step(world, s, run, work, choice);
            && s.ledger <= r.state.ledger && |r.state.runs| == |s.runs| && r.state.procs == s.procs
            && (r.More? ==> WorkOk(r.state.ledger, run, r.work))
  {
    var r := Step(world, s, run, work, choice);
    match work {
      case Record(goal, recipients, todo, allSent, to, status) =>
        assert r.state.ledger[|s.ledger|] == Delivery(run, to, status, status == Sent);
        WorkStays(s.ledger, r.state.ledger, run, work);
      case _ =>
    }
  }

  lemma ExecutionKeeps(world: World, s: State, p: nat, choice: Choice)
    requires Inv(world, s)
    ensures Inv(world, GoStep(world, s, p, choice))
  {
    var q := Proc(s, p);
    var t := GoStep(world, s, p, choice);
    match q {
      case Idle =>
      case Approver(run, work) =>
        if choice.Raise? {
          SameTables(world, s, t);
        } else {
          StepTables(world, s, run, work, choice);
          StepWork(world, s, run, work, choice);
          SameTables(world, Step(world, s, run, work, choice).state, t);
        }
        Keep(world, s, t, p);
      case Worker(_, _, job) => WorkerKeeps(world, s, p, q, choice);
    }
  }

  lemma ExecuteKeeps(world: World, s: State, p: nat, q: Process, choice: Choice)
    requires Inv(world, s) && q.Worker? && q.job.Execute? && ProcOk(s, q)
    ensures Inv(world, WorkerStep(world, s, p, q, choice))
  {
    var run, work := q.job.run, q.job.work;
    var t := WorkerStep(world, s, p, q, choice);
    if choice.Raise? {
      SameTables(world, s, t);
    } else {
      StepTables(world, s, run, work, choice);
      StepWork(world, s, run, work, choice);
      SameTables(world, Step(world, s, run, work, choice).state, t);
    }
    Keep(world, s, t, p);
  }

  lemma ClaimKeeps(world: World, s: State, p: nat, q: Process, choice: Choice)
    requires Inv(world, s) && q.Worker? && q.job.Claim?
    ensures Inv(world, WorkerStep(world, s, p, q, choice))
  {
    var t := WorkerStep(world, s, p, q, choice);
    ClaimTables(world, s, t);
    Keep(world, s, t, p);
  }

  lemma TakeoverKeeps(world: World, s: State, p: nat, q: Process, choice: Choice)
    requires Inv(world, s) && q.Worker? && q.job.Takeover?
    ensures Inv(world, WorkerStep(world, s, p, q, choice))
  {
    var t := WorkerStep(world, s, p, q, choice);
    TakeoverTables(world, s, FindRun(s.runs, q.job.due), t);
    Keep(world, s, t, p);
  }

  lemma WorkerKeeps(world: World, s: State, p: nat, q: Process, choice: Choice)
    requires Inv(world, s) && q.Worker? && ProcOk(s, q)
    ensures Inv(world, WorkerStep(world, s, p, q, choice))
  {
    match q.job {
      case Execute(_, _, _) => ExecuteKeeps(world, s, p, q, choice);
      case Claim(_) => ClaimKeeps(world, s, p, q, choice);
      case Takeover(_) => TakeoverKeeps(world, s, p, q, choice);
      case Between => QuietKeeps(world, s, WorkerStep(world, s, p, q, choice), p);
      case Probe(_) => QuietKeeps(world, s, WorkerStep(world, s, p, q, choice), p);
      case Advance(_, _) => QuietKeeps(world, s, WorkerStep(world, s, p, q, choice), p);
    }
  }

  lemma TakeoverTables(world: World, s: State, i: nat, t: State)
    requires TablesOk(world, s) && t.drafts == s.drafts
    requires (t.runs == s.runs && t.seen.left == s.seen.left) ||
             (i < |s.runs| && !s.runs[i].completed
              && t.seen.left == WriteRun(s, i, s.runs[i].(triggeredAt := s.clock)).seen.left
              && t.runs == s.runs[i := s.runs[i].(triggeredAt := s.clock)])
    ensures TablesOk(world, t)
  {
    if t.runs == s.runs && t.seen.left == s.seen.left {
      SameTables(world, s, t);
    } else {
      assert !Waiting(s.runs, i);
      var u := WriteRun(s, i, s.runs[i].(triggeredAt := s.clock));
      WriteKeeps(world, s, i, s.runs[i].(triggeredAt := s.clock));
      SameTables(world, u, t);
    }
  }

  lemma ClaimTables(world: World, s: State, t: State)
    requires TablesOk(world, s) && t.drafts == s.drafts && t.seen.left == s.seen.left && s.runs <= t.runs
    requires forall i :: |s.runs| <= i < |t.runs| ==> t.runs[i].status != PendingApproval
    ensures TablesOk(world, t)
  {
    forall i | 0 <= i < |t.drafts|
      ensures DraftOfRun(world, t.runs, t.drafts[i])
    {
      assert DraftOfRun(world, s.runs, s.drafts[i]);
    }
    forall r: nat
      ensures StaysPaid(t, r)
      ensures Waiting(t.runs, r) ==> t.runs[r].completed
    {
      assert StaysPaid(s, r);
      assert Waiting(s.runs, r) ==> s.runs[r].completed;
    }
  }

  lemma RejectKeeps(world: World, s: State, run: nat)
    requires Inv(world, s)
    ensures Inv(world, RejectStep(s, run))
  {
    if Waiting(s.runs, run) {
      SameTables(world, s, NoteRejection(s, run));
      WriteKeeps(world, NoteRejection(s, run), run, s.runs[run].(completed := true, status := Skipped));
    }
    Keep(world, s, RejectStep(s, run), 0);
  }

  /** Actions that leave runs and drafts alone and at most put process `p` at a harmless place. */
  lemma QuietKeeps(world: World, s: State, t: State, p: nat)
    requires Inv(world, s) && t.drafts == s.drafts && t.runs == s.runs && t.seen.left == s.seen.left
    requires s.ledger <= t.ledger
    requires forall q :: q in t.procs && q != p ==> q in s.procs && t.procs[q] == s.procs[q]
    requires p in t.procs && (p !in s.procs || t.procs[p] != s.procs[p]) ==> ProcOk(t, t.procs[p])
    ensures Inv(world, t)
  {
    SameTables(world, s, t);
    if p in t.procs && p in s.procs && t.procs[p] == s.procs[p] {
      match s.procs[p] {
        case Idle =>
        case Approver(run, work) => WorkStays(s.ledger, t.ledger, run, work);
        case Worker(_, _, job) => if job.Execute? { WorkStays(s.ledger, t.ledger, job.run, job.work); }
      }
    }
    Keep(world, s, t, p);
  }

  lemma CrashKeeps(world: World, s: State, p: nat)
    requires Inv(world, s)
    ensures Inv(world, CrashStep(s, p))
  {
    QuietKeeps(world, s, CrashStep(s, p), p);
  }

  lemma OtherKeeps(world: World, s: State, a: Action)
    requires Inv(world, s) && (a.Tick? || a.Approve? || a.Wait? || a.Webhook?)
    ensures Inv(world, Act(world, s, a))
  {
    QuietKeeps(world, s, Act(world, s, a), if a.Tick? || a.Approve? then a.p else 0);
  }

  lemma ActKeeps(world: World, s: State, a: Action)
    requires Inv(world, s)
    ensures Inv(world, Act(world, s, a))
  {
    match a {
      case Go(p, choice) => ExecutionKeeps(world, s, p, choice);
      case Reject(run) => RejectKeeps(world, s, run);
      case Crash(p) => CrashKeeps(world, s, p);
      case _ => OtherKeeps(world, s, a);
    }
  }

  lemma {:induction false} RunKeeps(world: World, clock: int, actions: seq<Action>)
    ensures Inv(world, After(world, Start(world, clock), actions))
  {
    if actions != [] {
      var before := actions[..|actions| - 1];
      RunKeeps(world, clock, before);
      ActKeeps(world, After(world, Start(world, clock), before), actions[|actions| - 1]);
    }
  }

  // ---------------------------------------------------------------- the theorems

  /** A run waits for approval only while a proposed draft carries its id, and that draft sits under
      the run's own (schedule, period) key. */
  lemma WaitingHasDraft(world: World, clock: int, actions: seq<Action>, run: nat) returns (i: nat)
    requires Waiting(After(world, Start(world, clock), actions).runs, run)
    ensures var s := After(world, Start(world, clock), actions);
            i < |s.drafts| && s.drafts[i].run == run && s.drafts[i].proposed && DraftOfRun(world, s.runs, s.drafts[i])
  {
    RunKeeps(world, clock, actions);
    var s := After(world, Start(world, clock), actions);
    assert StaysPaid(s, run);
    i :| 0 <= i < |s.drafts| && s.drafts[i].run == run && s.drafts[i].proposed;
  }

  /** One (schedule, period) key never has two drafts, so two runs never share a draft. */
  lemma DraftsAreUnique(world: World, clock: int, actions: seq<Action>, i: nat, j: nat)
    ensures var drafts := After(world, Start(world, clock), actions).drafts;
            i < |drafts| && j < |drafts| && drafts[i].schedule == drafts[j].schedule ==>
              drafts[i].period == drafts[j].period ==> i == j
  {
    RunKeeps(world, clock, actions);
  }

  /** A run stops waiting at most once in a whole run of the engine, and never waits again. It has stopped
      exactly when it was proposed and does not wait. */
  lemma WaitsOnce(world: World, clock: int, actions: seq<Action>, run: nat)
    ensures var s := After(world, Start(world, clock), actions);
            && s.seen.left[run] <= 1
            && (s.seen.left[run] == 1 <==> HasProposal(s.drafts, run) && !Waiting(s.runs, run))
  {
    RunKeeps(world, clock, actions);
    assert StaysPaid(After(world, Start(world, clock), actions), run);
  }

  /** The statement that approves a run is reached only when every recipient read is recorded as sent. */
  lemma ApprovalIsDelivered(world: World, clock: int, actions: seq<Action>, p: nat, run: nat,
                            recipients: seq<nat>, r: nat)
    requires var s := After(world, Start(world, clock), actions);
             Proc(s, p) == Approver(run, Settle(recipients)) && r in recipients
    ensures IsSent(After(world, Start(world, clock), actions).ledger, run, r)
  {
    RunKeeps(world, clock, actions);
    var s := After(world, Start(world, clock), actions);
    assert ProcOk(s, s.procs[p]);
  }
}
