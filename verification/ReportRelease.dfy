/**
 Reports get out: a waiting run can always be approved and delivered, and a run that notifies leaves a draft.
 */
module ReportRelease {
  import opened Common
  import opened ReportEngine
  import Approval = ReportApproval
  import Outcome = ReportOutcome
  import Modes = ReportModes

  predicate At(s: State, p: nat, run: nat, work: Work) {
    p in s.procs && s.procs[p] == Approver(run, work) && run < |s.runs|
  }

  // ---------------------------------------------------------------- the statements of an approval

  lemma OpenStep(world: World, s: State, p: nat, run: nat)
    requires p !in s.procs && run < |s.runs| && s.runs[run].status == PendingApproval && s.runs[run].report.Some?
    ensures var t := Act(world, s, Approve(p, run)); At(t, p, run, ReadRecipients(Approval)) && t.runs == s.runs
  {
  }

  lemma FoundStep(world: World, s: State, p: nat, run: nat, recipients: seq<nat>)
    requires At(s, p, run, ReadRecipients(Approval)) && Distinct(recipients)
    ensures var t := Act(world, s, Go(p, Found(recipients, true)));
            && t.runs == s.runs
            && At(t, p, run, if recipients == [] then Settle([]) else ReadLedger(Approval, recipients))
  {
  }

  lemma LedgerStep(world: World, s: State, p: nat, run: nat, recipients: seq<nat>)
    requires At(s, p, run, ReadLedger(Approval, recipients))
    ensures var t := Act(world, s, Go(p, Proceed));
            && t.runs == s.runs
            && At(t, p, run, Send(Approval, recipients, Unsent(s.ledger, run, recipients), true))
  {
  }

  /** The provider accepts the next e-mail, and it is recorded. */
  lemma MailSteps(world: World, s: State, p: nat, run: nat, recipients: seq<nat>, todo: seq<nat>)
    requires At(s, p, run, Send(Approval, recipients, todo, true)) && todo != []
    ensures var t := Act(world, Act(world, s, Go(p, Accepted)), Go(p, Proceed));
            && t.runs == s.runs && At(t, p, run, Send(Approval, recipients, todo[1..], true))
            && t.ledger == s.ledger + [Delivery(run, todo[0], Sent, true)]
  {
    var mid := Act(world, s, Go(p, Accepted));
    assert mid.procs[p] == Approver(run, Record(Approval, recipients, todo[1..], true, todo[0], Sent));
  }

  lemma LastStep(world: World, s: State, p: nat, run: nat, recipients: seq<nat>)
    requires At(s, p, run, Send(Approval, recipients, [], true))
    ensures var t := Act(world, s, Go(p, Proceed)); t.runs == s.runs && At(t, p, run, Settle(recipients))
  {
  }

  lemma SettleStep(world: World, s: State, p: nat, run: nat, recipients: seq<nat>)
    requires At(s, p, run, Settle(recipients)) && s.runs[run].status == PendingApproval
    ensures var t := Act(world, s, Go(p, Proceed));
            run < |t.runs| && t.runs[run] == s.runs[run].(completed := true, status := Succeeded)
  {
  }

  // ---------------------------------------------------------------- the whole approval

  /** With a provider that accepts everything, the to-do list is worked off. */
  lemma {:induction false} WorksOff(world: World, start: State, before: seq<Action>, p: nat, run: nat,
                                    recipients: seq<nat>, todo: seq<nat>)
    returns (actions: seq<Action>)
    requires At(After(world, start, before), p, run, Send(Approval, recipients, todo, true))
    ensures var t := After(world, start, actions);
            At(t, p, run, Send(Approval, recipients, [], true)) && t.runs == After(world, start, before).runs
    decreases |todo|
  {
    actions := before;
    if todo != [] {
      Outcome.Extend(world, start, before, Go(p, Accepted));
      Outcome.Extend(world, start, before + [Go(p, Accepted)], Go(p, Proceed));
      MailSteps(world, After(world, start, before), p, run, recipients, todo);
      actions := WorksOff(world, start, before + [Go(p, Accepted)] + [Go(p, Proceed)], p, run, recipients, todo[1..]);
    }
  }

  lemma Settles(world: World, start: State, before: seq<Action>, p: nat, run: nat, recipients: seq<nat>)
    returns (actions: seq<Action>)
    requires var s := After(world, start, before);
             At(s, p, run, ReadRecipients(Approval)) && Distinct(recipients) && s.runs[run].status == PendingApproval
    ensures var s, t := After(world, start, before), After(world, start, actions);
            run < |t.runs| && t.runs[run] == s.runs[run].(completed := true, status := Succeeded)
  {
    Outcome.Extend(world, start, before, Go(p, Found(recipients, true)));
    FoundStep(world, After(world, start, before), p, run, recipients);
    actions := before + [Go(p, Found(recipients, true))];
    if recipients != [] {
      LedgerStep(world, After(world, start, actions), p, run, recipients);
      Outcome.Extend(world, start, actions, Go(p, Proceed));
      var todo := Unsent(After(world, start, actions).ledger, run, recipients);
      actions := WorksOff(world, start, actions + [Go(p, Proceed)], p, run, recipients, todo);
      LastStep(world, After(world, start, actions), p, run, recipients);
      Outcome.Extend(world, start, actions, Go(p, Proceed));
      actions := actions + [Go(p, Proceed)];
    }
    SettleStep(world, After(world, start, actions), p, run, recipients);
    Outcome.Extend(world, start, actions, Go(p, Proceed));
    actions := actions + [Go(p, Proceed)];
  }

  /** From every reachable state, a waiting run can be approved: whoever the recipients are, if the provider
      accepts the mail the run ends `succeeded` with its report. */
  lemma ApprovalCanSucceed(world: World, clock: int, past: seq<Action>, run: nat, recipients: seq<nat>)
    returns (actions: seq<Action>)
    requires Approval.Waiting(After(world, Start(world, clock), past).runs, run) && Distinct(recipients)
    ensures var s := After(world, Start(world, clock), past);
            var t := After(world, s, actions);
            run < |t.runs| && t.runs[run].status == Succeeded && t.runs[run].report == s.runs[run].report
  {
    var s := After(world, Start(world, clock), past);
    Modes.OutcomeHasCause(world, clock, past, run);
    var p := FreeId(s.procs.Keys);
    assert After(world, s, []) == s;
    OpenStep(world, s, p, run);
    Outcome.Extend(world, s, [], Approve(p, run));
    actions := Settles(world, s, [] + [Approve(p, run)], p, run, recipients);
  }

  /** An approval that finds recipients but no report, or whose mail was not all accepted, leaves the run waiting. */
  lemma UndeliveredWaits(world: World, s: State, p: nat, run: nat, recipients: seq<nat>)
    requires recipients != [] && Distinct(recipients)
    ensures At(s, p, run, ReadRecipients(Approval)) ==>
              var t := Act(world, s, Go(p, Found(recipients, false))); t.runs == s.runs && Proc(t, p) == Idle
    ensures At(s, p, run, Send(Approval, recipients, [], false)) ==>
              var t := Act(world, s, Go(p, Proceed)); t.runs == s.runs && Proc(t, p) == Idle
  {
  }

  // ---------------------------------------------------------------- drafts

  /** A proposal waits exactly when no draft holds its (schedule, period) key. */
  lemma ProposalWaitsExactly(world: World, s: State, p: nat, due: Due, run: nat, report: nat, choice: Choice)
    requires Proc(s, p).Worker? && Proc(s, p).job == Execute(due, run, Propose(report)) && run < |s.runs|
    requires s.runs[run].schedule in world && !choice.Raise?
    ensures var t := Act(world, s, Go(p, choice));
            && run < |t.runs| && t.runs[run].completed && t.runs[run].report == Some(report)
            && (t.runs[run].status == PendingApproval <==>
                forall i :: 0 <= i < |s.drafts| ==>
                  !(s.drafts[i].schedule == s.runs[run].schedule &&
                    s.drafts[i].period == world[s.runs[run].schedule].periodStart(s.runs[run].slot)))
            && (t.runs[run].status != PendingApproval ==> t.runs[run].status == Skipped && t.drafts == s.drafts)
  {
  }

  /** After its deliveries a run that notifies leaves a draft under its key, and then succeeds. */
  lemma NotifyLeavesDraft(world: World, s: State, p: nat, due: Due, run: nat, report: nat, recipients: seq<nat>,
                          all: bool)
    requires Proc(s, p).Worker? && run < |s.runs| && s.runs[run].schedule in world
    requires Proc(s, p).job == Execute(due, run, Send(Report(AutoNotify, report), recipients, [], all))
    ensures var t := Act(world, Act(world, s, Go(p, Proceed)), Go(p, Proceed));
            && (exists i :: 0 <= i < |t.drafts| && t.drafts[i].schedule == s.runs[run].schedule &&
                            t.drafts[i].period == world[s.runs[run].schedule].periodStart(s.runs[run].slot))
            && Proc(t, p).Worker? && Proc(t, p).job == Execute(due, run, Finalize(Succeeded, Some(report)))
  {
    var row := s.runs[run];
    var period := world[row.schedule].periodStart(row.slot);
    var mid := Act(world, s, Go(p, Proceed));
    assert mid.procs[p].job == Execute(due, run, Notify(report)) && mid.runs == s.runs && mid.drafts == s.drafts;
    var t := Act(world, mid, Go(p, Proceed));
    assert t.drafts == EmitDraft(mid, Draft(row.schedule, period, run, false)).drafts;
    if HasDraft(s.drafts, row.schedule, period) {
      var i :| 0 <= i < |s.drafts| && s.drafts[i].schedule == row.schedule && s.drafts[i].period == period;
      assert t.drafts[i] == s.drafts[i];
    } else {
      assert t.drafts[|s.drafts|] == Draft(row.schedule, period, run, false);
    }
  }
}
