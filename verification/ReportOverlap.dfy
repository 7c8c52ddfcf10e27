/**
 Why the overlap hypothesis is needed: an execution that outlives the stale threshold can overwrite
 the outcome of a run that was taken over, proposed and approved in the meantime. This happens to the
 first slot of every plan.
 */
module ReportOverlap {
  import opened Common
  import opened ReportEngine

  function Only(plan: Plan): World {
    map[0 := plan]
  }

  function Slot(plan: Plan): Due {
    Due(0, plan.first)
  }

  /** The one run of the story, claimed when its slot was due. */
  function Row(plan: Plan, report: Option<nat>): Run {
    Run(0, plan.first, plan.first, false, Skipped, report)
  }

  function Ended(plan: Plan, status: Status): Run {
    Run(0, plan.first, plan.first + HOUR, true, status, Some(7))
  }

  function Proposal(plan: Plan): Draft {
    Draft(0, plan.periodStart(plan.first), 0, true)
  }

  /** A state in which only the run of the first slot and its processes differ from the start. */
  function Scene(plan: Plan, elapsed: nat, runs: seq<Run>, drafts: seq<Draft>, procs: map<nat, Process>,
                 starts: nat, modesRead: nat, left: multiset<nat>): State
  {
    var approvals := if starts == 3 then multiset{0} else multiset{};
    State(plan.first + elapsed, map[0 := plan.first], runs, [], drafts, procs,
          History(multiset{}, multiset{}, multiset{}, multiset{}[0 := starts], left,
                  Causes(multiset{}[(0, Proposed) := modesRead], approvals, multiset{}, multiset{})))
  }

  function Busy(plan: Plan, now: int, work: Work): Process {
    Worker(now, [], Execute(Slot(plan), 0, work))
  }

  ghost predicate Leads(plan: Plan, actions: seq<Action>, s: State) {
    After(Only(plan), Start(Only(plan), plan.first), actions) == s
  }

  lemma Then(plan: Plan, actions: seq<Action>, s: State, a: Action, t: State) returns (longer: seq<Action>)
    requires Leads(plan, actions, s) && Act(Only(plan), s, a) == t
    ensures Leads(plan, longer, t)
  {
    longer := actions + [a];
    assert longer[..|longer| - 1] == actions;
  }

  // ---------------------------------------------------------------- worker 1

  /** Worker 1 alone. */
  function Alone(plan: Plan, report: Option<nat>, work: Work): State {
    Scene(plan, 0, [Row(plan, report)], [], map[1 := Busy(plan, plan.first, work)], 1, Bit(!work.ReadMode?), multiset{})
  }

  lemma WorkerTicks(plan: Plan) returns (actions: seq<Action>)
    ensures Leads(plan, actions,
                  Scene(plan, 0, [], [], map[1 := Worker(plan.first, [], Claim(Slot(plan)))], 0, 0, multiset{}))
  {
    var s0 := Scene(plan, 0, [], [], map[], 0, 0, multiset{});
    assert Leads(plan, [], s0);
    var s1 := Scene(plan, 0, [], [], map[1 := Worker(plan.first, [Slot(plan)], Between)], 0, 0, multiset{});
    actions := Then(plan, [], s0, Tick(1, plan.first, [Slot(plan)]), s1);
    assert [Slot(plan)][1..] == [];
    actions := Then(plan, actions, s1, Go(1, Proceed),
                    Scene(plan, 0, [], [], map[1 := Worker(plan.first, [], Claim(Slot(plan)))], 0, 0, multiset{}));
  }

  /** Worker 1 claims the slot. */
  lemma WorkerClaims(plan: Plan) returns (actions: seq<Action>)
    ensures Leads(plan, actions, Alone(plan, None, ReadMode))
  {
    actions := WorkerTicks(plan);
    var s := Scene(plan, 0, [], [], map[1 := Worker(plan.first, [], Claim(Slot(plan)))], 0, 0, multiset{});
    assert multiset{}[0 := 0] + multiset{0} == multiset{}[0 := 1];
    actions := Then(plan, actions, s, Go(1, Proceed), Alone(plan, None, ReadMode));
  }

  lemma WorkerReads(plan: Plan) returns (actions: seq<Action>)
    ensures Leads(plan, actions, Alone(plan, None, Generate(Proposed)))
  {
    actions := WorkerClaims(plan);
    assert multiset{}[(0, Proposed) := 0] + multiset{(0, Proposed)} == multiset{}[(0, Proposed) := 1];
    actions := Then(plan, actions, Alone(plan, None, ReadMode), Go(1, UseMode(Proposed)),
                    Alone(plan, None, ReadRun(Proposed)));
    actions := Then(plan, actions, Alone(plan, None, ReadRun(Proposed)), Go(1, Proceed),
                    Alone(plan, None, Generate(Proposed)));
  }

  /** It generates report 7 and stalls just before proposing it. */
  lemma WorkerStalls(plan: Plan) returns (actions: seq<Action>)
    ensures Leads(plan, actions, Alone(plan, Some(7), Propose(7)))
  {
    actions := WorkerReads(plan);
    actions := Then(plan, actions, Alone(plan, None, Generate(Proposed)), Go(1, Generated(7)),
                    Alone(plan, None, SaveReport(Proposed, 7)));
    actions := Then(plan, actions, Alone(plan, None, SaveReport(Proposed, 7)), Go(1, Proceed),
                    Alone(plan, Some(7), Propose(7)));
  }

  // ---------------------------------------------------------------- worker 2, an hour later

  function Stalled(plan: Plan): Process {
    Busy(plan, plan.first, Propose(7))
  }

  /** Worker 2 looks at the run that worker 1 still holds. */
  function Contest(plan: Plan, rest: seq<Due>, job: Job): State {
    Scene(plan, HOUR, [Row(plan, Some(7))], [], map[1 := Stalled(plan), 2 := Worker(plan.first + HOUR, rest, job)],
          1, 1, multiset{})
  }

  function Later(plan: Plan): State {
    Scene(plan, HOUR, [Row(plan, Some(7))], [], map[1 := Stalled(plan)], 1, 1, multiset{})
  }

  lemma HourPasses(plan: Plan) returns (actions: seq<Action>)
    ensures Leads(plan, actions, Later(plan))
  {
    actions := WorkerStalls(plan);
    actions := Then(plan, actions, Alone(plan, Some(7), Propose(7)), Wait(HOUR), Later(plan));
  }

  lemma WorkerReturns(plan: Plan) returns (actions: seq<Action>)
    ensures Leads(plan, actions, Contest(plan, [], Claim(Slot(plan))))
  {
    actions := HourPasses(plan);
    actions := Then(plan, actions, Later(plan), Tick(2, plan.first + HOUR, [Slot(plan)]),
                    Contest(plan, [Slot(plan)], Between));
    assert [Slot(plan)][1..] == [];
    actions := Then(plan, actions, Contest(plan, [Slot(plan)], Between), Go(2, Proceed),
                    Contest(plan, [], Claim(Slot(plan))));
  }

  /** The run of worker 2's execution, which has been taken over. */
  function TakenOver(plan: Plan): Run {
    Row(plan, Some(7)).(triggeredAt := plan.first + HOUR)
  }

  function Second(plan: Plan, work: Work): State {
    Scene(plan, HOUR, [TakenOver(plan)], [], map[1 := Stalled(plan), 2 := Busy(plan, plan.first + HOUR, work)],
          2, if work.ReadMode? then 1 else 2, multiset{})
  }

  lemma WorkerConflicts(plan: Plan) returns (actions: seq<Action>)
    ensures Leads(plan, actions, Contest(plan, [], Takeover(Slot(plan))))
  {
    var rows := [Row(plan, Some(7))];
    actions := WorkerReturns(plan);
    assert HasRun(rows, Slot(plan)) by { assert rows[0].slot == Slot(plan).slot; }
    actions := Then(plan, actions, Contest(plan, [], Claim(Slot(plan))), Go(2, Proceed),
                    Contest(plan, [], Takeover(Slot(plan))));
  }

  lemma TakesOver(plan: Plan)
    ensures Act(Only(plan), Contest(plan, [], Takeover(Slot(plan))), Go(2, Proceed)) == Second(plan, ReadMode)
  {
    var s := Contest(plan, [], Takeover(Slot(plan)));
    assert HasRun(s.runs, Slot(plan)) by { assert s.runs[0].slot == Slot(plan).slot; }
    assert FindRun(s.runs, Slot(plan)) == 0;
    assert multiset{}[0 := 1] + multiset{0} == multiset{}[0 := 2];
    assert s.runs[0 := TakenOver(plan)] == [TakenOver(plan)];
    var q := Busy(plan, plan.first + HOUR, ReadMode);
    assert WriteRun(s, 0, TakenOver(plan)) == s.(runs := [TakenOver(plan)]);
    assert Act(Only(plan), s, Go(2, Proceed)) == SetProc(Begin(WriteRun(s, 0, TakenOver(plan)), 0), 2, q);
  }

  /** An hour later worker 2 finds the run unfinished and takes it over. */
  lemma WorkerTakesOver(plan: Plan) returns (actions: seq<Action>)
    ensures Leads(plan, actions, Second(plan, ReadMode))
  {
    actions := WorkerConflicts(plan);
    TakesOver(plan);
    actions := Then(plan, actions, Contest(plan, [], Takeover(Slot(plan))), Go(2, Proceed), Second(plan, ReadMode));
  }

  lemma WorkerResumes(plan: Plan) returns (actions: seq<Action>)
    ensures Leads(plan, actions, Second(plan, Propose(7)))
  {
    actions := WorkerTakesOver(plan);
    assert multiset{}[(0, Proposed) := 1] + multiset{(0, Proposed)} == multiset{}[(0, Proposed) := 2];
    actions := Then(plan, actions, Second(plan, ReadMode), Go(2, UseMode(Proposed)), Second(plan, ReadRun(Proposed)));
    actions := Then(plan, actions, Second(plan, ReadRun(Proposed)), Go(2, Proceed), Second(plan, Propose(7)));
  }

  function Proposers(plan: Plan): map<nat, Process> {
    map[1 := Stalled(plan), 2 := Worker(plan.first + HOUR, [], Advance(Slot(plan), Some(PendingApproval)))]
  }

  function Waiting(plan: Plan): State {
    Scene(plan, HOUR, [Ended(plan, PendingApproval)], [Proposal(plan)], Proposers(plan), 2, 2, multiset{})
  }

  /** Worker 2 proposes the same report, and the run waits for approval. */
  lemma WorkerProposes(plan: Plan) returns (actions: seq<Action>)
    ensures Leads(plan, actions, Waiting(plan))
  {
    actions := WorkerResumes(plan);
    assert [TakenOver(plan)][0 := Ended(plan, PendingApproval)] == [Ended(plan, PendingApproval)];
    assert [] + [Proposal(plan)] == [Proposal(plan)];
    actions := Then(plan, actions, Second(plan, Propose(7)), Go(2, Proceed), Waiting(plan));
  }

  // ---------------------------------------------------------------- the approver

  function Approving(plan: Plan, work: Work): State {
    Scene(plan, HOUR, [Ended(plan, PendingApproval)], [Proposal(plan)], Proposers(plan)[3 := Approver(0, work)],
          3, 2, multiset{})
  }

  lemma UserOpens(plan: Plan) returns (actions: seq<Action>)
    ensures Leads(plan, actions, Approving(plan, Settle([])))
  {
    actions := WorkerProposes(plan);
    assert multiset{}[0 := 2] + multiset{0} == multiset{}[0 := 3];
    actions := Then(plan, actions, Waiting(plan), Approve(3, 0), Approving(plan, ReadRecipients(Approval)));
    actions := Then(plan, actions, Approving(plan, ReadRecipients(Approval)), Go(3, Found([], true)),
                    Approving(plan, Settle([])));
  }

  function Approved(plan: Plan): State {
    Scene(plan, HOUR, [Ended(plan, Succeeded)], [Proposal(plan)], Proposers(plan)[3 := Idle], 3, 2, multiset{0})
  }

  lemma UserApproves(plan: Plan) returns (actions: seq<Action>)
    ensures Leads(plan, actions, Approved(plan))
  {
    actions := UserOpens(plan);
    assert Proposers(plan)[3 := Approver(0, Settle([]))][3 := Idle] == Proposers(plan)[3 := Idle];
    assert [Ended(plan, PendingApproval)][0 := Ended(plan, Succeeded)] == [Ended(plan, Succeeded)];
    actions := Then(plan, actions, Approving(plan, Settle([])), Go(3, Proceed), Approved(plan));
  }

  /** The run is approved and succeeds; then worker 1 wakes up, finds the draft taken and writes
      `skipped` over it. */
  lemma OverlapOverwritesApproval(plan: Plan) returns (actions: seq<Action>, s: State, a: Action, t: State)
    ensures s == After(Only(plan), Start(Only(plan), plan.first), actions) && t == Act(Only(plan), s, a)
    ensures |s.runs| == 1 && s.runs[0].completed && s.runs[0].status == Succeeded
    ensures |t.runs| == 1 && t.runs[0].status == Skipped
  {
    actions := UserApproves(plan);
    s := Approved(plan);
    a := Go(1, Proceed);
    assert HasDraft(s.drafts, 0, plan.periodStart(plan.first)) by { assert s.drafts[0] == Proposal(plan); }
    t := Act(Only(plan), s, a);
  }
}
