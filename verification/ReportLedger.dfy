/**
 What the ledger and the observer's counts mean, with overlap and crashes included: a `sent` row stands for
 accepted mail, every recipient of a finished pass has a row, and only accepted mail counts as interrupted.
 */
module ReportLedger {
  import opened Common
  import opened ReportEngine
  import opened ReportDelivery
  import Mail = ReportMail

  predicate WasAccepted(s: State, run: nat, r: nat) {
    s.seen.accepted[(run, r)] > 0
  }

  predicate HasRow(ledger: seq<Delivery>, run: nat, r: nat) {
    exists i :: 0 <= i < |ledger| && ledger[i].run == run && ledger[i].recipient == r
  }

  /** A row that says `sent` or carries a provider id is about accepted mail. */
  predicate RowOk(s: State, d: Delivery) {
    d.status == Sent || d.tracked ==> WasAccepted(s, d.run, d.recipient)
  }

  /** The mail in hand was accepted, and everybody read has a row or is still to come. */
  predicate PassOk(s: State, run: nat, work: Work) {
    match work
    case Send(_, recipients, todo, _) => forall r :: r in recipients ==> r in todo || HasRow(s.ledger, run, r)
    case Record(_, recipients, todo, _, to, status) =>
      && (status == Sent ==> WasAccepted(s, run, to))
      && forall r :: r in recipients ==> r in todo || r == to || HasRow(s.ledger, run, r)
    case _ => true
  }

  predicate ProcPassOk(s: State, q: Process) {
    Live(q).Some? ==> PassOk(s, Live(q).value, WorkOf(q))
  }

  /** The processes that have accepted mail to `r` in hand. */
  function Holders(s: State, run: nat, r: nat): set<nat> {
    set p | p in s.procs && ReportDelivery.Holds(s.procs[p], run, r)
  }

  /** Interruptions, lost acknowledgements and mail in hand are accepted mail, each counted once. */
  ghost predicate CountsOk(s: State, run: nat, r: nat) {
    s.seen.interrupted[(run, r)] + s.seen.lostAcks[(run, r)] + |Holders(s, run, r)| <= s.seen.accepted[(run, r)]
  }

  ghost predicate LedgerInv(s: State) {
    && (forall i :: 0 <= i < |s.ledger| ==> RowOk(s, s.ledger[i]))
    && (forall p :: p in s.procs ==> ProcPassOk(s, s.procs[p]))
    && (forall run: nat, r: nat :: CountsOk(s, run, r))
  }

  // ---------------------------------------------------------------- frame

  lemma RowsStay(s: State, t: State, run: nat, work: Work)
    requires PassOk(s, run, work) && s.ledger <= t.ledger && s.seen.accepted <= t.seen.accepted
    ensures PassOk(t, run, work)
  {
    forall r: nat | HasRow(s.ledger, run, r)
      ensures HasRow(t.ledger, run, r)
    {
      var i :| 0 <= i < |s.ledger| && s.ledger[i].run == run && s.ledger[i].recipient == r;
      assert t.ledger[i] == s.ledger[i];
    }
    if work.Record? { assert s.seen.accepted[(run, work.recipient)] <= t.seen.accepted[(run, work.recipient)]; }
  }

  function Lost(s: State, run: nat, r: nat): nat {
    s.seen.interrupted[(run, r)] + s.seen.lostAcks[(run, r)]
  }

  /** How process `p` may change the counts of one pair. */
  ghost predicate Balanced(s: State, t: State, p: nat, run: nat, r: nat) {
    Lost(t, run, r) + Bit(p in Holders(t, run, r)) + s.seen.accepted[(run, r)] <=
    Lost(s, run, r) + Bit(p in Holders(s, run, r)) + t.seen.accepted[(run, r)]
  }

  lemma BalancedKeeps(s: State, t: State, p: nat, run: nat, r: nat)
    requires OneProc(s, t, p) && CountsOk(s, run, r) && Balanced(s, t, p, run, r)
    ensures CountsOk(t, run, r)
  {
    assert Holders(s, run, r) - {p} == Holders(t, run, r) - {p};
    Mail.CountWithout(Holders(s, run, r), p);
    Mail.CountWithout(Holders(t, run, r), p);
  }

  lemma Keep(s: State, t: State, p: nat)
    requires LedgerInv(s) && OneProc(s, t, p) && s.ledger <= t.ledger && s.seen.accepted <= t.seen.accepted
    requires forall i :: |s.ledger| <= i < |t.ledger| ==> RowOk(t, t.ledger[i])
    requires p in t.procs ==> ProcPassOk(t, t.procs[p])
    requires forall run: nat, r: nat :: Balanced(s, t, p, run, r)
    ensures LedgerInv(t)
  {
    forall i | 0 <= i < |t.ledger|
      ensures RowOk(t, t.ledger[i])
    {
      if i < |s.ledger| {
        assert t.ledger[i] == s.ledger[i] && RowOk(s, s.ledger[i]);
        assert s.seen.accepted[(s.ledger[i].run, s.ledger[i].recipient)] <=
               t.seen.accepted[(s.ledger[i].run, s.ledger[i].recipient)];
      }
    }
    forall q | q in t.procs && q != p
      ensures ProcPassOk(t, t.procs[q])
    {
      assert ProcPassOk(s, s.procs[q]);
      if Live(s.procs[q]).Some? { RowsStay(s, t, Live(s.procs[q]).value, WorkOf(s.procs[q])); }
    }
    forall run: nat, r: nat
      ensures CountsOk(t, run, r)
    {
      assert CountsOk(s, run, r) && Balanced(s, t, p, run, r);
      BalancedKeeps(s, t, p, run, r);
    }
  }

  /** A step that touches neither mail nor the ledger, and after which `p` has no mail in hand. */
  lemma QuietKeeps(s: State, t: State, p: nat)
    requires LedgerInv(s) && OneProc(s, t, p) && t.ledger == s.ledger && t.seen.accepted == s.seen.accepted
    requires t.seen.lostAcks == s.seen.lostAcks && t.seen.interrupted == s.seen.interrupted
    requires p in t.procs ==> ProcPassOk(t, t.procs[p])
    requires p in t.procs && Live(t.procs[p]).Some? ==>
               !WorkOf(t.procs[p]).Record? || (p in s.procs && t.procs[p] == s.procs[p])
    ensures LedgerInv(t)
  {
    forall run: nat, r: nat
      ensures Balanced(s, t, p, run, r)
    {
    }
    Keep(s, t, p);
  }

  // ---------------------------------------------------------------- one step of an execution

  /** A statement that neither hands mail over nor records it. */
  lemma PlainStep(world: World, s: State, run: nat, work: Work, choice: Choice)
    requires run < |s.runs| && !work.Record? && !HandsOver(work, choice) && PassOk(s, run, work)
    ensures var next := Step(world, s, run, work, choice);
            next.More? ==> PassOk(next.state, run, next.work) && !next.work.Record?
  {
    StepQuiet(world, s, run, work, choice);
    if work.ReadLedger? {
      forall r | r in work.recipients && IsSent(s.ledger, run, r)
        ensures HasRow(s.ledger, run, r)
      {
        var i :| 0 <= i < |s.ledger| &&
                 s.ledger[i].run == run && s.ledger[i].recipient == r && s.ledger[i].status == Sent;
      }
    }
  }

  lemma HandOverStep(s: State, run: nat, work: Work, choice: Choice)
    requires HandsOver(work, choice) && PassOk(s, run, work)
    ensures var next := SendOne(s, run, work, choice);
            && next.More? && next.work.Record? && next.work.recipient == work.todo[0]
            && next.state.ledger == s.ledger && next.state.procs == s.procs
            && PassOk(next.state, run, next.work)
            && (next.work.status == Sent <==> choice.Accepted?)
  {
    assert forall r :: r in work.todo ==> r == work.todo[0] || r in work.todo[1..];
  }

  lemma HandOverKeeps(s: State, t: State, p: nat, run: nat, work: Work, choice: Choice)
    requires LedgerInv(s) && p in s.procs && Live(s.procs[p]) == Some(run) && WorkOf(s.procs[p]) == work
    requires HandsOver(work, choice) && OneProc(s, t, p) && p in t.procs && Live(t.procs[p]) == Some(run)
    requires WorkOf(t.procs[p]) == SendOne(s, run, work, choice).work
    requires t.ledger == s.ledger && t.seen == SendOne(s, run, work, choice).state.seen
    ensures LedgerInv(t)
  {
    assert ProcPassOk(s, s.procs[p]);
    HandOverStep(s, run, work, choice);
    forall x: nat, r: nat
      ensures Balanced(s, t, p, x, r)
    {
    }
    Keep(s, t, p);
  }

  lemma RecordKeeps(s: State, t: State, p: nat, run: nat, work: Work)
    requires LedgerInv(s) && p in s.procs && Live(s.procs[p]) == Some(run) && WorkOf(s.procs[p]) == work && work.Record?
    requires OneProc(s, t, p) && p in t.procs && Live(t.procs[p]) == Some(run) && t.seen == s.seen
    requires WorkOf(t.procs[p]) == Send(work.goal, work.recipients, work.todo, work.allSent)
    requires t.ledger == s.ledger + [Delivery(run, work.recipient, work.status, work.status == Sent)]
    ensures LedgerInv(t)
  {
    assert ProcPassOk(s, s.procs[p]);
    var d := Delivery(run, work.recipient, work.status, work.status == Sent);
    assert t.ledger[|s.ledger|] == d && HasRow(t.ledger, run, work.recipient);
    RowsStay(s, t, run, work);
    forall x: nat, r: nat
      ensures Balanced(s, t, p, x, r)
    {
    }
    Keep(s, t, p);
  }

  lemma ExecutionKeeps(world: World, s: State, p: nat, run: nat, work: Work, choice: Choice, t: State, q: Process)
    requires LedgerInv(s) && p in s.procs && Live(s.procs[p]) == Some(run) && WorkOf(s.procs[p]) == work
    requires run < |s.runs| && t == SetProc(Step(world, s, run, work, choice).state, p, q)
    requires Step(world, s, run, work, choice).More? ==>
               Live(q) == Some(run) && WorkOf(q) == Step(world, s, run, work, choice).work
    requires Step(world, s, run, work, choice).Done? ==> Live(q).None?
    ensures LedgerInv(t)
  {
    assert ProcPassOk(s, s.procs[p]);
    if work.Record? {
      RecordKeeps(s, t, p, run, work);
    } else if HandsOver(work, choice) {
      HandOverStep(s, run, work, choice);
      HandOverKeeps(s, t, p, run, work, choice);
    } else {
      PlainStep(world, s, run, work, choice);
      StepQuiet(world, s, run, work, choice);
      QuietKeeps(s, t, p);
    }
  }

  /** Giving up an execution turns its accepted mail in hand into an interruption. */
  lemma AbandonKeeps(s: State, t: State, p: nat, run: nat, work: Work)
    requires LedgerInv(s) && p in s.procs && Live(s.procs[p]) == Some(run) && WorkOf(s.procs[p]) == work
    requires OneProc(s, t, p) && t.ledger == s.ledger && t.seen.accepted == s.seen.accepted
    requires t.seen.lostAcks == s.seen.lostAcks && t.seen.interrupted == Abandon(s, run, work).seen.interrupted
    requires p in t.procs && Live(t.procs[p]).Some? ==> WorkOf(t.procs[p]).Finalize?
    ensures LedgerInv(t)
  {
    forall x: nat, r: nat
      ensures Balanced(s, t, p, x, r)
    {
    }
    Keep(s, t, p);
  }

  // ---------------------------------------------------------------- all steps

  lemma ExecuteKeeps(world: World, s: State, p: nat, choice: Choice)
    requires LedgerInv(s) && Proc(s, p).Worker? && Proc(s, p).job.Execute? && Proc(s, p).job.run < |s.runs|
    ensures LedgerInv(WorkerStep(world, s, p, Proc(s, p), choice))
  {
    var q := s.procs[p];
    var t := WorkerStep(world, s, p, q, choice);
    if choice.Raise? {
      AbandonKeeps(s, t, p, q.job.run, q.job.work);
    } else {
      ExecutionKeeps(world, s, p, q.job.run, q.job.work, choice, t, t.procs[p]);
    }
  }

  lemma ApproverKeeps(world: World, s: State, p: nat, choice: Choice)
    requires LedgerInv(s) && Proc(s, p).Approver? && Proc(s, p).run < |s.runs|
    ensures LedgerInv(ApproverStep(world, s, p, Proc(s, p), choice))
  {
    var q := s.procs[p];
    var t := ApproverStep(world, s, p, q, choice);
    if choice.Raise? {
      AbandonKeeps(s, t, p, q.run, q.work);
    } else {
      ExecutionKeeps(world, s, p, q.run, q.work, choice, t, t.procs[p]);
    }
  }

  lemma StartKeeps(world: World, s: State, p: nat, choice: Choice)
    requires LedgerInv(s) && Proc(s, p).Worker? && (Proc(s, p).job.Claim? || Proc(s, p).job.Takeover?)
    ensures LedgerInv(WorkerStep(world, s, p, Proc(s, p), choice))
  {
    QuietKeeps(s, WorkerStep(world, s, p, Proc(s, p), choice), p);
  }

  lemma RestKeeps(world: World, s: State, p: nat, choice: Choice)
    requires LedgerInv(s) && Proc(s, p).Worker?
    requires Proc(s, p).job.Between? || Proc(s, p).job.Probe? || Proc(s, p).job.Advance?
    ensures LedgerInv(WorkerStep(world, s, p, Proc(s, p), choice))
  {
    RestFacts(world, s, p, Proc(s, p), choice);
    QuietKeeps(s, WorkerStep(world, s, p, Proc(s, p), choice), p);
  }

  lemma GoKeeps(world: World, s: State, p: nat, choice: Choice)
    requires LedgerInv(s)
    ensures LedgerInv(GoStep(world, s, p, choice))
  {
    match Proc(s, p) {
      case Idle =>
      case Approver(run, _) => if run < |s.runs| { ApproverKeeps(world, s, p, choice); }
      case Worker(_, _, job) =>
        match job {
          case Execute(_, run, _) => if run < |s.runs| { ExecuteKeeps(world, s, p, choice); }
          case Claim(_) => StartKeeps(world, s, p, choice);
          case Takeover(_) => StartKeeps(world, s, p, choice);
          case _ => RestKeeps(world, s, p, choice);
        }
    }
  }

  lemma CrashKeeps(s: State, p: nat)
    requires LedgerInv(s)
    ensures LedgerInv(CrashStep(s, p))
  {
    var q := Proc(s, p);
    if Live(q).Some? {
      AbandonKeeps(s, CrashStep(s, p), p, Live(q).value, WorkOf(q));
    } else {
      QuietKeeps(s, CrashStep(s, p), p);
    }
  }

  lemma BeginKeeps(s: State, a: Action)
    requires LedgerInv(s) && (a.Tick? || a.Approve?)
    ensures LedgerInv(Act(map[], s, a))
  {
    QuietKeeps(s, Act(map[], s, a), a.p);
  }

  lemma WebhookKeeps(s: State, row: nat, status: DeliveryStatus)
    requires LedgerInv(s)
    ensures LedgerInv(WebhookStep(s, row, status))
  {
    var t := WebhookStep(s, row, status);
    if t != s {
      assert RowOk(s, s.ledger[row]);
      if 0 in s.procs {
        assert ProcPassOk(s, s.procs[0]);
        if Live(s.procs[0]).Some? { RowsStay(s, t, Live(s.procs[0]).value, WorkOf(s.procs[0])); }
      }
      forall run: nat, r: nat
        ensures Balanced(s, t, 0, run, r)
      {
      }
      Keep(s, t, 0);
    }
  }

  lemma OutsideKeeps(s: State, a: Action)
    requires LedgerInv(s) && (a.Reject? || a.Wait?)
    ensures LedgerInv(Act(map[], s, a))
  {
    QuietKeeps(s, Act(map[], s, a), 0);
  }

  lemma ActKeeps(world: World, s: State, a: Action)
    requires LedgerInv(s)
    ensures LedgerInv(Act(world, s, a))
  {
    match a {
      case Go(p, choice) => GoKeeps(world, s, p, choice);
      case Crash(p) => CrashKeeps(s, p);
      case Webhook(row, status) => WebhookKeeps(s, row, status);
      case Tick(_, _, _) => BeginKeeps(s, a);
      case Approve(_, _) => BeginKeeps(s, a);
      case _ => OutsideKeeps(s, a);
    }
  }

  lemma {:induction false} RunKeeps(world: World, clock: int, actions: seq<Action>)
    ensures LedgerInv(After(world, Start(world, clock), actions))
  {
    if actions == [] {
      assert forall run: nat, r: nat :: Holders(Start(world, clock), run, r) == {};
    } else {
      var before := actions[..|actions| - 1];
      RunKeeps(world, clock, before);
      ActKeeps(world, After(world, Start(world, clock), before), actions[|actions| - 1]);
    }
  }

  // ---------------------------------------------------------------- the theorems

  /** A recipient is recorded as sent only if the provider accepted mail to it for that run. */
  lemma SentMeansAccepted(world: World, clock: int, actions: seq<Action>, run: nat, r: nat)
    ensures var s := After(world, Start(world, clock), actions);
            IsSent(s.ledger, run, r) ==> s.seen.accepted[(run, r)] > 0
  {
    RunKeeps(world, clock, actions);
    var s := After(world, Start(world, clock), actions);
    if IsSent(s.ledger, run, r) {
      var i :| 0 <= i < |s.ledger| &&
               s.ledger[i].run == run && s.ledger[i].recipient == r && s.ledger[i].status == Sent;
      assert RowOk(s, s.ledger[i]);
    }
  }

  /** A pass that has nobody left to send to has recorded something for every recipient it read. */
  lemma PassIsComplete(world: World, clock: int, actions: seq<Action>, p: nat, r: nat)
    requires var q := Proc(After(world, Start(world, clock), actions), p);
             Live(q).Some? && WorkOf(q).Send? && WorkOf(q).todo == [] && r in WorkOf(q).recipients
    ensures var s := After(world, Start(world, clock), actions);
            exists i :: 0 <= i < |s.ledger| && s.ledger[i].run == Live(Proc(s, p)).value && s.ledger[i].recipient == r
  {
    RunKeeps(world, clock, actions);
    var s := After(world, Start(world, clock), actions);
    assert ProcPassOk(s, s.procs[p]);
    assert HasRow(s.ledger, Live(s.procs[p]).value, r);
  }

  /** What counts as interrupted or as a lost acknowledgement was accepted by the provider, and is counted once. */
  lemma LossesWereAccepted(world: World, clock: int, actions: seq<Action>, run: nat, r: nat)
    ensures var seen := After(world, Start(world, clock), actions).seen;
            seen.interrupted[(run, r)] + seen.lostAcks[(run, r)] <= seen.accepted[(run, r)]
  {
    RunKeeps(world, clock, actions);
    assert CountsOk(After(world, Start(world, clock), actions), run, r);
  }
}
