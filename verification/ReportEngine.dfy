/**
 The scheduled-report engine as a state machine. Any number of workers and approvers share the
 tables; one step is one database statement (or one transaction) or one e-mail hand-over, steps
 interleave freely, and a process may crash between any two of its steps. A step that is not
 possible in a state leaves the state alone, so every sequence of actions is a run.
 */
module ReportEngine {
  import opened Common

  const HOUR: int := 3_600_000_000

  /** What the calendar fixes for one schedule: the slot after a slot, the first slot, and the
      start of the period that a slot reports on. */
  datatype Plan = Plan(next: int -> int, first: int, periodStart: int -> int)
  type World = map<nat, Plan>

  // ---------------------------------------------------------------- tables

  datatype Status = Skipped | Failed | Succeeded | PendingApproval

  datatype Run = Run(schedule: nat, slot: int, triggeredAt: int, completed: bool, status: Status, report: Option<nat>)

  datatype DeliveryStatus = Sent | NotSent | Bounced | Suppressed

  /** A ledger row; `tracked` rows carry the provider's message id. */
  datatype Delivery = Delivery(run: nat, recipient: nat, status: DeliveryStatus, tracked: bool)

  datatype Draft = Draft(schedule: nat, period: int, run: nat, proposed: bool)

  // ---------------------------------------------------------------- processes

  datatype Due = Due(schedule: nat, slot: int)
  datatype Mode = Shadow | Proposed | AutoNotify | AutoSilent
  datatype Goal = Approval | Report(mode: Mode, report: nat)

  /** Where an execution of a run stands; each constructor is the statement about to happen. */
  datatype Work =
    | ReadMode
    | ReadRun(mode: Mode)
    | Generate(mode: Mode)
    | SaveReport(mode: Mode, report: nat)
    | Propose(report: nat)
    | ReadRecipients(goal: Goal)
    | ReadLedger(goal: Goal, recipients: seq<nat>)
    | Send(goal: Goal, recipients: seq<nat>, todo: seq<nat>, allSent: bool)
    | Record(goal: Goal, recipients: seq<nat>, todo: seq<nat>, allSent: bool, recipient: nat, status: DeliveryStatus)
    | Notify(report: nat)
    | Finalize(outcome: Status, kept: Option<nat>)
    | Settle(recipients: seq<nat>)

  datatype Job =
    | Between
    | Claim(due: Due)
    | Takeover(due: Due)
    | Probe(due: Due)
    | Execute(due: Due, run: nat, work: Work)
    | Advance(due: Due, outcome: Option<Status>)

  datatype Process =
    | Idle
    | Worker(now: int, rest: seq<Due>, job: Job)
    | Approver(run: nat, work: Work)

  /** What has happened to a run that may explain its outcome: autonomy modes read, approvals opened,
      rejections and failures. */
  datatype Causes = Causes(modes: multiset<(nat, Mode)>, approvals: multiset<nat>, rejections: multiset<nat>,
                           failures: multiset<nat>)

  /** What an observer counts. By (run, recipient): e-mails accepted, those reported as failed all the same, and
      those whose sender stopped before recording them. By run: executions started, how often it stopped
      waiting for approval, and the causes of its outcome. */
  datatype History = History(accepted: multiset<(nat, nat)>, lostAcks: multiset<(nat, nat)>,
                             interrupted: multiset<(nat, nat)>, started: multiset<nat>, left: multiset<nat>,
                             causes: Causes)

  datatype State = State(clock: int, nextRunAt: map<nat, int>, runs: seq<Run>, ledger: seq<Delivery>,
                         drafts: seq<Draft>, procs: map<nat, Process>, seen: History)

  datatype Choice =
    | Proceed
    | Raise
    | UseMode(mode: Mode)
    | Generated(report: nat)
    | GenerationFails
    | Found(recipients: seq<nat>, reportExists: bool)
    | Accepted
    | Refused
    | LostAck

  datatype Action =
    | Wait(elapsed: nat)
    | Tick(p: nat, now: int, due: seq<Due>)
    | Go(p: nat, choice: Choice)
    | Crash(p: nat)
    | Approve(p: nat, run: nat)
    | Reject(run: nat)
    | Webhook(row: nat, status: DeliveryStatus)

  // ---------------------------------------------------------------- queries

  function Proc(s: State, p: nat): Process {
    if p in s.procs then s.procs[p] else Idle
  }

  predicate HasRun(runs: seq<Run>, due: Due) {
    exists i :: 0 <= i < |runs| && runs[i].schedule == due.schedule && runs[i].slot == due.slot
  }

  /** The row of a slot; the table length when the slot is unclaimed. */
  function FindRun(runs: seq<Run>, due: Due): (i: nat)
    ensures i <= |runs|
    ensures i < |runs| ==> runs[i].schedule == due.schedule && runs[i].slot == due.slot
    ensures i == |runs| <==> !HasRun(runs, due)
  {
    if runs == [] then 0
    else
      var last := |runs| - 1;
      var i := FindRun(runs[..last], due);
      if i < last then i
      else if runs[last].schedule == due.schedule && runs[last].slot == due.slot then last
      else |runs|
  }

  predicate IsSent(ledger: seq<Delivery>, run: nat, recipient: nat) {
    exists i :: 0 <= i < |ledger| &&
                ledger[i].run == run && ledger[i].recipient == recipient && ledger[i].status == Sent
  }

  predicate HasDraft(drafts: seq<Draft>, schedule: nat, period: int) {
    exists i :: 0 <= i < |drafts| && drafts[i].schedule == schedule && drafts[i].period == period
  }

  function Unsent(ledger: seq<Delivery>, run: nat, recipients: seq<nat>): (todo: seq<nat>)
    ensures forall r :: r in todo <==> r in recipients && !IsSent(ledger, run, r)
    ensures Distinct(recipients) ==> Distinct(todo)
  {
    if recipients == [] then []
    else
      var rest := Unsent(ledger, run, recipients[1..]);
      if IsSent(ledger, run, recipients[0]) then rest else [recipients[0]] + rest
  }

  // ---------------------------------------------------------------- statements

  /** Overwrites a run row, noting when the row stops waiting for approval. */
  function WriteRun(s: State, run: nat, row: Run): State
    requires run < |s.runs|
  {
    var leaves := s.runs[run].status == PendingApproval && row.status != PendingApproval;
    s.(runs := s.runs[run := row],
       seen := if leaves then s.seen.(left := s.seen.left + multiset{run}) else s.seen)
  }

  function Finished(row: Run, status: Status, report: Option<nat>): Run {
    row.(completed := true, status := status, report := report)
  }

  /** Inserts a draft unless its (schedule, period) is taken. */
  function EmitDraft(s: State, d: Draft): State {
    if HasDraft(s.drafts, d.schedule, d.period) then s else s.(drafts := s.drafts + [d])
  }

  /** Notes that an execution of the run starts. */
  function Begin(s: State, run: nat): State {
    s.(seen := s.seen.(started := s.seen.started + multiset{run}))
  }

  function Note(s: State, causes: Causes): State {
    s.(seen := s.seen.(causes := causes))
  }

  function NoteMode(s: State, run: nat, mode: Mode): State {
    Note(s, s.seen.causes.(modes := s.seen.causes.modes + multiset{(run, mode)}))
  }

  function NoteApproval(s: State, run: nat): State {
    Note(s, s.seen.causes.(approvals := s.seen.causes.approvals + multiset{run}))
  }

  function NoteRejection(s: State, run: nat): State {
    Note(s, s.seen.causes.(rejections := s.seen.causes.rejections + multiset{run}))
  }

  function NoteFailure(s: State, run: nat): State {
    Note(s, s.seen.causes.(failures := s.seen.causes.failures + multiset{run}))
  }

  function SetProc(s: State, p: nat, q: Process): State {
    s.(procs := s.procs[p := q])
  }

  // ---------------------------------------------------------------- an execution

  /** The result of one step of an execution: new tables, and either more work or an outcome. */
  datatype Progress = More(state: State, work: Work) | Done(state: State, outcome: Option<Status>)

  function AfterReport(mode: Mode, report: nat): Work {
    if mode == Proposed then Propose(report) else ReadRecipients(Report(mode, report))
  }

  function AfterDelivery(s: State, goal: Goal, recipients: seq<nat>, allSent: bool): Progress {
    match goal
    case Approval => if allSent then More(s, Settle(recipients)) else Done(s, None)
    case Report(mode, report) =>
      if mode == AutoNotify then More(s, Notify(report)) else More(s, Finalize(Succeeded, Some(report)))
  }

  /** Handing one e-mail to the provider. A lost acknowledgement is accepted mail that looks failed. */
  function SendOne(s: State, run: nat, work: Work, choice: Choice): Progress
    requires work.Send?
  {
    if work.todo == [] then AfterDelivery(s, work.goal, work.recipients, work.allSent)
    else
      var to := work.todo[0];
      match choice
      case Accepted =>
        More(s.(seen := s.seen.(accepted := s.seen.accepted + multiset{(run, to)})),
             Record(work.goal, work.recipients, work.todo[1..], work.allSent, to, Sent))
      case LostAck =>
        More(s.(seen := s.seen.(accepted := s.seen.accepted + multiset{(run, to)},
                                lostAcks := s.seen.lostAcks + multiset{(run, to)})),
             Record(work.goal, work.recipients, work.todo[1..], false, to, NotSent))
      case Refused => More(s, Record(work.goal, work.recipients, work.todo[1..], false, to, NotSent))
      case _ => More(s, work)
  }

  /** One statement of executing run `run`, for a worker or an approver. */
  function Step(world: World, s: State, run: nat, work: Work, choice: Choice): Progress
    requires run < |s.runs|
  {
    var row := s.runs[run];
    match work
    case ReadMode =>
      if !choice.UseMode? then More(s, work)
      else if choice.mode == Shadow then More(NoteMode(s, run, Shadow), Finalize(Skipped, None))
      else More(NoteMode(s, run, choice.mode), ReadRun(choice.mode))
    case ReadRun(mode) =>
      More(s, if row.report.Some? then AfterReport(mode, row.report.value) else Generate(mode))
    case Generate(mode) =>
      if choice.Generated? then More(s, SaveReport(mode, choice.report))
      else if choice.GenerationFails? then More(NoteFailure(s, run), Finalize(Failed, None))
      else More(s, work)
    case SaveReport(mode, report) =>
      More(if row.completed then s else WriteRun(s, run, row.(report := Some(report))), AfterReport(mode, report))
    case Propose(report) =>
      if row.schedule !in world then More(s, work)
      else
        var period := world[row.schedule].periodStart(row.slot);
        var status := if HasDraft(s.drafts, row.schedule, period) then Skipped else PendingApproval;
        Done(WriteRun(EmitDraft(s, Draft(row.schedule, period, run, true)), run, Finished(row, status, Some(report))),
             Some(status))
    case ReadRecipients(goal) =>
      if !(choice.Found? && Distinct(choice.recipients)) then More(s, work)
      else if choice.recipients == [] then AfterDelivery(s, goal, [], true)
      else if !choice.reportExists then AfterDelivery(s, goal, [], false)
      else More(s, ReadLedger(goal, choice.recipients))
    case ReadLedger(goal, recipients) =>
      More(s, Send(goal, recipients, Unsent(s.ledger, run, recipients), true))
    case Send(_, _, _, _) => SendOne(s, run, work, choice)
    case Record(goal, recipients, todo, allSent, to, status) =>
      More(s.(ledger := s.ledger + [Delivery(run, to, status, status == Sent)]),
           Send(goal, recipients, todo, allSent))
    case Notify(report) =>
      var after := if choice.Proceed? && row.schedule in world
                   then EmitDraft(s, Draft(row.schedule, world[row.schedule].periodStart(row.slot), run, false))
                   else s;
      More(after, Finalize(Succeeded, Some(report)))
    case Finalize(status, report) =>
      Done(WriteRun(s, run, Finished(row, status, report)), Some(status))
    case Settle(_) =>
      Done(if row.status == PendingApproval
           then WriteRun(s, run, row.(completed := true, status := Succeeded)) else s, None)
  }

  /** Abandoning an execution: mail handed over but not yet recorded counts as interrupted. */
  function Abandon(s: State, run: nat, work: Work): State {
    if work.Record? && work.status == Sent
    then s.(seen := s.seen.(interrupted := s.seen.interrupted + multiset{(run, work.recipient)}))
    else s
  }

  // ---------------------------------------------------------------- a worker

  function WorkerStep(world: World, s: State, p: nat, q: Process, choice: Choice): State
    requires q.Worker?
  {
    var now, rest := q.now, q.rest;
    match q.job
    case Between =>
      if rest == [] then SetProc(s, p, Idle)
      else if choice.Raise? then SetProc(s, p, Worker(now, rest[1..], Between))
      else SetProc(s, p, Worker(now, rest[1..], Claim(rest[0])))
    case Claim(due) =>
      if HasRun(s.runs, due) then SetProc(s, p, Worker(now, rest, Takeover(due)))
      else
        var row := Run(due.schedule, due.slot, s.clock, false, Skipped, None);
        SetProc(Begin(s.(runs := s.runs + [row]), |s.runs|), p, Worker(now, rest, Execute(due, |s.runs|, ReadMode)))
    case Takeover(due) =>
      var i := FindRun(s.runs, due);
      if i < |s.runs| && !s.runs[i].completed && s.runs[i].triggeredAt <= now - HOUR then
        SetProc(Begin(WriteRun(s, i, s.runs[i].(triggeredAt := s.clock)), i), p,
                Worker(now, rest, Execute(due, i, ReadMode)))
      else SetProc(s, p, Worker(now, rest, Probe(due)))
    case Probe(due) =>
      var i := FindRun(s.runs, due);
      if i < |s.runs| && !s.runs[i].completed && s.runs[i].triggeredAt > now - HOUR then
        SetProc(s, p, Worker(now, rest, Between))
      else SetProc(s, p, Worker(now, rest, Advance(due, None)))
    case Execute(due, run, work) =>
      if |s.runs| <= run then s
      else if choice.Raise? then
        SetProc(NoteFailure(Abandon(s, run, work), run), p,
                Worker(now, rest, Execute(due, run, Finalize(Failed, None))))
      else (
        match Step(world, s, run, work, choice)
        case More(t, w) => SetProc(t, p, Worker(now, rest, Execute(due, run, w)))
        case Done(t, outcome) => SetProc(t, p, Worker(now, rest, Advance(due, outcome))))
    case Advance(due, outcome) =>
      if choice.Raise? || due.schedule !in world || due.schedule !in s.nextRunAt
         || (outcome.None? && s.nextRunAt[due.schedule] != due.slot) then
        SetProc(s, p, Worker(now, rest, Between))
      else
        SetProc(s.(nextRunAt := s.nextRunAt[due.schedule := world[due.schedule].next(due.slot)]),
                p, Worker(now, rest, Between))
  }

  function ApproverStep(world: World, s: State, p: nat, q: Process, choice: Choice): State
    requires q.Approver?
  {
    if |s.runs| <= q.run then s
    else if choice.Raise? then SetProc(Abandon(s, q.run, q.work), p, Idle)
    else
      match Step(world, s, q.run, q.work, choice)
      case More(t, w) => SetProc(t, p, Approver(q.run, w))
      case Done(t, _) => SetProc(t, p, Idle)
  }

  // ---------------------------------------------------------------- all actions

  function CrashStep(s: State, p: nat): State {
    match Proc(s, p)
    case Idle => s
    case Approver(run, work) => SetProc(Abandon(s, run, work), p, Idle)
    case Worker(_, _, job) =>
      SetProc(if job.Execute? then Abandon(s, job.run, job.work) else s, p, Idle)
  }

  /** The due rows a tick reads: each is a schedule whose next slot is not in the worker's future. */
  predicate IsDue(s: State, now: int, due: Due) {
    due.schedule in s.nextRunAt && s.nextRunAt[due.schedule] == due.slot && due.slot <= now
  }

  function TickStep(s: State, p: nat, now: int, due: seq<Due>): State {
    if Proc(s, p) == Idle && (forall d :: d in due ==> IsDue(s, now, d))
    then SetProc(s, p, Worker(now, due, Between)) else s
  }

  function GoStep(world: World, s: State, p: nat, choice: Choice): State {
    match Proc(s, p)
    case Idle => s
    case Worker(_, _, _) => WorkerStep(world, s, p, Proc(s, p), choice)
    case Approver(_, _) => ApproverStep(world, s, p, Proc(s, p), choice)
  }

  /** An approval starts only on a run that still waits and has a report. */
  function ApproveStep(s: State, p: nat, run: nat): State {
    if Proc(s, p) == Idle && run < |s.runs| && s.runs[run].status == PendingApproval && s.runs[run].report.Some?
    then SetProc(Begin(NoteApproval(s, run), run), p, Approver(run, ReadRecipients(Approval))) else s
  }

  function RejectStep(s: State, run: nat): State {
    if run < |s.runs| && s.runs[run].status == PendingApproval
    then WriteRun(NoteRejection(s, run), run, s.runs[run].(completed := true, status := Skipped)) else s
  }

  /** A provider callback mirrors a tracked ledger row under a new status. */
  function WebhookStep(s: State, row: nat, status: DeliveryStatus): State {
    if row < |s.ledger| && s.ledger[row].tracked
    then s.(ledger := s.ledger + [s.ledger[row].(status := status)]) else s
  }

  function Act(world: World, s: State, a: Action): State {
    match a
    case Wait(elapsed) => s.(clock := s.clock + elapsed)
    case Tick(p, now, due) => TickStep(s, p, now, due)
    case Go(p, choice) => GoStep(world, s, p, choice)
    case Crash(p) => CrashStep(s, p)
    case Approve(p, run) => ApproveStep(s, p, run)
    case Reject(run) => RejectStep(s, run)
    case Webhook(row, status) => WebhookStep(s, row, status)
  }

  /** The state after a sequence of actions, oldest first. */
  function After(world: World, s: State, actions: seq<Action>): State {
    if actions == [] then s
    else Act(world, After(world, s, actions[..|actions| - 1]), actions[|actions| - 1])
  }

  /** A fresh deployment: every schedule waits for its first slot and nothing has run. */
  function Start(world: World, clock: int): State {
    State(clock, map id | id in world :: world[id].first, [], [], [], map[],
          History(multiset{}, multiset{}, multiset{}, multiset{}, multiset{},
                  Causes(multiset{}, multiset{}, multiset{}, multiset{})))
  }
}
