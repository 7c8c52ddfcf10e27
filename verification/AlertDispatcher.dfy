/**
 The single alert dispatcher, with crashes. A tick claims due alerts and works on them concurrently;
 every statement, e-mail and crash is a step, and other writers change alert statuses in between.
 */
module AlertDispatcher {
  import opened Common

  const COUNT_LIMIT: nat := 32767   // last_notified_count is a SMALLINT

  /** The columns the dispatcher reads and writes. */
  datatype Alert = Alert(active: bool, notifiedAt: Option<int>, count: nat)

  datatype Delivery = Delivery(alert: nat, recipient: nat, count: nat)

  datatype Task =
    | ListRecipients(claimedAt: int)
    | Mark(claimedAt: int, recipients: seq<nat>)
    | Send(count: nat, todo: seq<nat>)
    | Record(count: nat, todo: seq<nat>, recipient: nat)

  /** `sends` counts e-mails handed to the provider; `marks` lists the notification times of an alert. */
  datatype State = State(clock: int, alerts: map<nat, Alert>, deliveries: seq<Delivery>, tasks: map<nat, Task>,
                         sends: multiset<(nat, nat)>, marks: map<nat, seq<int>>)

  datatype Action =
    | Wait(elapsed: nat)
    | Raise(alert: nat)
    | SetActive(alert: nat, active: bool)
    | Tick(claimed: set<nat>)
    | Go(alert: nat, found: seq<nat>)
    | Fail(alert: nat)
    | Crash

  /** `claim_pending_alerts`: active, and never notified or notified longer ago than the interval. */
  predicate IsPending(s: State, interval: nat, id: nat) {
    && id in s.alerts && s.alerts[id].active
    && (s.alerts[id].notifiedAt.None? || s.alerts[id].notifiedAt.value < s.clock - interval)
  }

  predicate HasDelivery(rows: seq<Delivery>, d: Delivery) {
    exists i :: 0 <= i < |rows| && rows[i] == d
  }

  function Finish(s: State, id: nat): State {
    s.(tasks := s.tasks - {id})
  }

  /** `mark_notified`; a count that no longer fits its column makes the statement fail. */
  function MarkStep(s: State, id: nat, recipients: seq<nat>): State
    requires id in s.alerts && id in s.marks
  {
    var a := s.alerts[id];
    if a.count >= COUNT_LIMIT then Finish(s, id)
    else
      var marked := s.(alerts := s.alerts[id := a.(notifiedAt := Some(s.clock), count := a.count + 1)],
                       marks := s.marks[id := s.marks[id] + [s.clock]]);
      if recipients == [] then Finish(marked, id)
      else marked.(tasks := s.tasks[id := Send(a.count + 1, recipients)])
  }

  function RecordStep(s: State, id: nat, task: Task): State
    requires task.Record?
  {
    var d := Delivery(id, task.recipient, task.count);
    s.(deliveries := if HasDelivery(s.deliveries, d) then s.deliveries else s.deliveries + [d],
       tasks := s.tasks[id := Send(task.count, task.todo)])
  }

  /** The next statement of the task on one alert; `found` is what the recipient query returns. */
  function GoStep(s: State, id: nat, found: seq<nat>): State {
    if id !in s.tasks || id !in s.alerts || id !in s.marks then s
    else
      match s.tasks[id]
      case ListRecipients(at) =>
        if Distinct(found) then s.(tasks := s.tasks[id := Mark(at, found)]) else s
      case Mark(_, recipients) => MarkStep(s, id, recipients)
      case Send(count, todo) =>
        if todo == [] then Finish(s, id)
        else s.(sends := s.sends + multiset{(id, todo[0])}, tasks := s.tasks[id := Record(count, todo[1..], todo[0])])
      case Record(_, _, _) => RecordStep(s, id, s.tasks[id])
  }

  /** A tick starts only when the tasks of the previous one are over. */
  function TickStep(s: State, interval: nat, claimed: set<nat>): State {
    if s.tasks == map[] && (forall id :: id in claimed ==> IsPending(s, interval, id))
    then s.(tasks := map id | id in claimed :: ListRecipients(s.clock)) else s
  }

  function Act(interval: nat, s: State, a: Action): State {
    match a
    case Wait(elapsed) => s.(clock := s.clock + elapsed)
    case Raise(id) =>
      if id in s.alerts then s
      else s.(alerts := s.alerts[id := Alert(true, None, 0)], marks := s.marks[id := []])
    case SetActive(id, active) =>
      if id in s.alerts then s.(alerts := s.alerts[id := s.alerts[id].(active := active)]) else s
    case Tick(claimed) => TickStep(s, interval, claimed)
    case Go(id, found) => GoStep(s, id, found)
    case Fail(id) => Finish(s, id)
    case Crash => s.(tasks := map[])
  }

  function Start(clock: int): State {
    State(clock, map[], [], map[], multiset{}, map[])
  }

  function After(interval: nat, clock: int, actions: seq<Action>): State {
    if actions == [] then Start(clock)
    else Act(interval, After(interval, clock, actions[..|actions| - 1]), actions[|actions| - 1])
  }

  // ---------------------------------------------------------------- invariant

  ghost predicate Spaced(marks: seq<int>, interval: nat) {
    forall i, j :: 0 <= i < j < |marks| ==> marks[j] - marks[i] > interval
  }

  /** The columns agree with the notification history, and that history is spaced out. */
  ghost predicate AlertOk(s: State, interval: nat, id: nat) {
    id in s.alerts ==>
      && id in s.marks && Spaced(s.marks[id], interval)
      && s.alerts[id].count == |s.marks[id]|
      && (s.marks[id] == [] <==> s.alerts[id].notifiedAt.None?)
      && (s.marks[id] != [] ==> s.alerts[id].notifiedAt == Some(s.marks[id][|s.marks[id]| - 1])
                                && s.marks[id][|s.marks[id]| - 1] <= s.clock)
  }

  predicate Unmarked(s: State, interval: nat, id: nat, claimedAt: int)
    requires id in s.alerts
  {
    claimedAt <= s.clock && (s.alerts[id].notifiedAt.None? || s.alerts[id].notifiedAt.value < claimedAt - interval)
  }

  /** Who still waits for this notification has one e-mail less than notifications, and no row for it. */
  predicate Waits(s: State, id: nat, r: nat, count: nat) {
    s.sends[(id, r)] < count && !HasDelivery(s.deliveries, Delivery(id, r, count))
  }

  predicate TaskOk(s: State, interval: nat, id: nat) {
    id in s.tasks ==>
      && id in s.alerts && id in s.marks
      && match s.tasks[id] {
           case ListRecipients(at) => Unmarked(s, interval, id, at)
           case Mark(at, recipients) => Unmarked(s, interval, id, at) && Distinct(recipients)
           case Send(count, todo) =>
             count == s.alerts[id].count && Distinct(todo) && forall r :: r in todo ==> Waits(s, id, r, count)
           case Record(count, todo, r) =>
             && count == s.alerts[id].count && Distinct(todo) && r !in todo
             && !HasDelivery(s.deliveries, Delivery(id, r, count))
             && forall x :: x in todo ==> Waits(s, id, x, count)
         }
  }

  ghost predicate MailOk(s: State, id: nat, r: nat) {
    s.sends[(id, r)] <= (if id in s.alerts then s.alerts[id].count else 0)
  }

  ghost predicate LedgerOk(s: State) {
    && (forall i, j :: 0 <= i < j < |s.deliveries| ==> s.deliveries[i] != s.deliveries[j])
    && (forall i :: 0 <= i < |s.deliveries| ==>
          s.deliveries[i].alert in s.alerts && s.deliveries[i].count <= s.alerts[s.deliveries[i].alert].count)
  }

  ghost predicate Inv(s: State, interval: nat) {
    && (forall id: nat :: AlertOk(s, interval, id))
    && (forall id: nat :: TaskOk(s, interval, id))
    && (forall id: nat, r: nat :: MailOk(s, id, r))
    && LedgerOk(s)
  }

  // ---------------------------------------------------------------- steps

  /** A notification that is about to happen has no ledger row and no e-mail yet. */
  lemma NewCountWaits(s: State, t: State, interval: nat, id: nat, r: nat)
    requires Inv(s, interval) && id in s.alerts && t.sends == s.sends && t.deliveries == s.deliveries
    ensures Waits(t, id, r, s.alerts[id].count + 1)
  {
    assert MailOk(s, id, r);
    var d := Delivery(id, r, s.alerts[id].count + 1);
    forall i | 0 <= i < |s.deliveries|
      ensures s.deliveries[i] != d
    {
      if s.deliveries[i].alert == id { assert s.deliveries[i].count <= s.alerts[id].count; }
    }
  }

  lemma MarkAlert(s: State, t: State, interval: nat, id: nat)
    requires AlertOk(s, interval, id) && TaskOk(s, interval, id) && id in s.tasks && s.tasks[id].Mark?
    requires id in s.alerts && id in s.marks && id in t.alerts && id in t.marks && t.clock == s.clock
    requires t.alerts[id].notifiedAt == Some(s.clock) && t.alerts[id].count == s.alerts[id].count + 1
    requires t.marks[id] == s.marks[id] + [s.clock]
    ensures AlertOk(t, interval, id)
  {
  }

  lemma MarkKeeps(s: State, interval: nat, id: nat, recipients: seq<nat>)
    requires Inv(s, interval) && id in s.tasks && s.tasks[id].Mark? && s.tasks[id].recipients == recipients
    requires id in s.alerts && id in s.marks
    ensures Inv(MarkStep(s, id, recipients), interval)
  {
    var t := MarkStep(s, id, recipients);
    assert TaskOk(s, interval, id) && AlertOk(s, interval, id);
    if s.alerts[id].count < COUNT_LIMIT {
      MarkAlert(s, t, interval, id);
      forall r | r in recipients
        ensures Waits(t, id, r, s.alerts[id].count + 1)
      {
        NewCountWaits(s, t, interval, id, r);
      }
    }
    forall x: nat
      ensures AlertOk(t, interval, x) && TaskOk(t, interval, x)
    {
      if x != id { assert AlertOk(s, interval, x) && TaskOk(s, interval, x); }
    }
    forall x: nat, r: nat
      ensures MailOk(t, x, r)
    {
      assert MailOk(s, x, r);
    }
  }

  lemma SendKeeps(s: State, interval: nat, id: nat, found: seq<nat>)
    requires Inv(s, interval) && id in s.tasks && s.tasks[id].Send?
    ensures Inv(GoStep(s, id, found), interval)
  {
    var t := GoStep(s, id, found);
    var todo := s.tasks[id].todo;
    assert TaskOk(s, interval, id);
    if todo != [] {
      DistinctTail(todo);
      assert todo[0] in todo;
    }
    forall x: nat
      ensures AlertOk(t, interval, x) && TaskOk(t, interval, x)
    {
      assert AlertOk(s, interval, x) && TaskOk(s, interval, x);
    }
    forall x: nat, r: nat
      ensures MailOk(t, x, r)
    {
      assert MailOk(s, x, r);
    }
  }

  lemma AppendDelivery(rows: seq<Delivery>, d: Delivery, e: Delivery)
    ensures HasDelivery(rows + [d], e) <==> HasDelivery(rows, e) || d == e
  {
    if HasDelivery(rows, e) {
      var i :| 0 <= i < |rows| && rows[i] == e;
      assert (rows + [d])[i] == e;
    }
    assert (rows + [d])[|rows|] == d;
  }

  lemma RecordKeeps(s: State, interval: nat, id: nat)
    requires Inv(s, interval) && id in s.tasks && s.tasks[id].Record?
    ensures Inv(RecordStep(s, id, s.tasks[id]), interval)
    ensures !HasDelivery(s.deliveries, Delivery(id, s.tasks[id].recipient, s.tasks[id].count))
  {
    var task := s.tasks[id];
    var t := RecordStep(s, id, task);
    assert TaskOk(s, interval, id);
    var d := Delivery(id, task.recipient, task.count);
    assert t.deliveries == s.deliveries + [d];
    forall e: Delivery
      ensures HasDelivery(t.deliveries, e) <==> HasDelivery(s.deliveries, e) || d == e
    {
      AppendDelivery(s.deliveries, d, e);
    }
    assert forall i :: 0 <= i < |s.deliveries| ==> HasDelivery(s.deliveries, s.deliveries[i]);
    forall x: nat
      ensures AlertOk(t, interval, x) && TaskOk(t, interval, x)
    {
      assert AlertOk(s, interval, x) && TaskOk(s, interval, x);
    }
    forall x: nat, r: nat
      ensures MailOk(t, x, r)
    {
      assert MailOk(s, x, r);
    }
  }

  /** What a quiet step keeps of the alerts: old ones unchanged in their counts, new ones untouched. */
  ghost predicate SameCounts(s: State, t: State) {
    && (forall id :: id in s.alerts ==>
          id in t.alerts && t.alerts[id].notifiedAt == s.alerts[id].notifiedAt &&
          t.alerts[id].count == s.alerts[id].count)
    && (forall id :: id in t.alerts && id !in s.alerts ==> t.alerts[id].notifiedAt.None? && t.alerts[id].count == 0)
    && (forall id :: id in t.alerts ==>
          id in t.marks && t.marks[id] == if id in s.alerts && id in s.marks then s.marks[id] else [])
  }

  predicate NewTaskOk(t: State, interval: nat, id: nat) {
    id in t.tasks && id in t.alerts && id in t.marks
    && (t.tasks[id].ListRecipients? || (t.tasks[id].Mark? && Distinct(t.tasks[id].recipients)))
    && Unmarked(t, interval, id, t.tasks[id].claimedAt)
  }

  /** Steps that leave counts, mail and ledger alone. */
  lemma QuietKeeps(s: State, t: State, interval: nat)
    requires Inv(s, interval) && SameCounts(s, t)
    requires t.sends == s.sends && t.deliveries == s.deliveries && s.clock <= t.clock
    requires forall id :: id in t.tasks ==> (id in s.tasks && t.tasks[id] == s.tasks[id]) || NewTaskOk(t, interval, id)
    ensures Inv(t, interval)
  {
    forall x: nat
      ensures AlertOk(t, interval, x) && TaskOk(t, interval, x)
    {
      assert AlertOk(s, interval, x) && TaskOk(s, interval, x);
    }
    forall x: nat, r: nat
      ensures MailOk(t, x, r)
    {
      assert MailOk(s, x, r);
    }
  }

  lemma GoKeeps(s: State, interval: nat, id: nat, found: seq<nat>)
    requires Inv(s, interval)
    ensures Inv(GoStep(s, id, found), interval)
  {
    assert TaskOk(s, interval, id);
    assert forall x :: x in s.alerts ==> AlertOk(s, interval, x);
    assert forall x :: x in s.tasks ==> TaskOk(s, interval, x);
    if id in s.tasks && id in s.alerts && id in s.marks {
      match s.tasks[id] {
        case Mark(_, recipients) => MarkKeeps(s, interval, id, recipients);
        case Send(_, _) => SendKeeps(s, interval, id, found);
        case Record(_, _, _) => RecordKeeps(s, interval, id);
        case ListRecipients(_) => QuietKeeps(s, GoStep(s, id, found), interval);
      }
    }
  }

  lemma TickKeeps(s: State, interval: nat, claimed: set<nat>)
    requires Inv(s, interval)
    ensures Inv(TickStep(s, interval, claimed), interval)
  {
    assert forall x :: x in s.alerts ==> AlertOk(s, interval, x);
    QuietKeeps(s, TickStep(s, interval, claimed), interval);
  }

  lemma OutsideKeeps(s: State, interval: nat, a: Action)
    requires Inv(s, interval) && !a.Go? && !a.Tick?
    ensures Inv(Act(interval, s, a), interval)
  {
    assert forall x :: x in s.alerts ==> AlertOk(s, interval, x);
    OutsideFacts(s, interval, a);
    QuietKeeps(s, Act(interval, s, a), interval);
  }

  /** The other actors never touch counts, mail or the ledger, and start no task. */
  lemma OutsideFacts(s: State, interval: nat, a: Action)
    requires !a.Go? && !a.Tick? && forall x :: x in s.alerts ==> x in s.marks
    ensures var t := Act(interval, s, a);
            && SameCounts(s, t) && t.sends == s.sends && t.deliveries == s.deliveries && s.clock <= t.clock
            && forall id :: id in t.tasks ==> id in s.tasks && t.tasks[id] == s.tasks[id]
  {
  }

  lemma ActKeeps(s: State, interval: nat, a: Action)
    requires Inv(s, interval)
    ensures Inv(Act(interval, s, a), interval)
  {
    match a {
      case Go(id, found) => GoKeeps(s, interval, id, found);
      case Tick(claimed) => TickKeeps(s, interval, claimed);
      case _ => OutsideKeeps(s, interval, a);
    }
  }

  lemma {:induction false} RunKeeps(interval: nat, clock: int, actions: seq<Action>)
    ensures Inv(After(interval, clock, actions), interval)
  {
    if actions != [] {
      var before := actions[..|actions| - 1];
      RunKeeps(interval, clock, before);
      ActKeeps(After(interval, clock, before), interval, actions[|actions| - 1]);
    }
  }

  // ---------------------------------------------------------------- the theorems

  /** Notifications of one alert are always more than the resend interval apart. */
  lemma NotificationsAreSpaced(interval: nat, clock: int, actions: seq<Action>, id: nat, i: nat, j: nat)
    requires var s := After(interval, clock, actions); id in s.alerts && id in s.marks && i < j < |s.marks[id]|
    ensures var marks := After(interval, clock, actions).marks[id]; marks[j] - marks[i] > interval
  {
    RunKeeps(interval, clock, actions);
    assert AlertOk(After(interval, clock, actions), interval, id);
  }

  /** A recipient never gets more e-mails about an alert than `last_notified_count`. */
  lemma MailWithinCount(interval: nat, clock: int, actions: seq<Action>, id: nat, r: nat)
    ensures var s := After(interval, clock, actions);
            s.sends[(id, r)] <= if id in s.alerts then s.alerts[id].count else 0
  {
    RunKeeps(interval, clock, actions);
    assert MailOk(After(interval, clock, actions), id, r);
  }

  /** The ledger holds one row per (alert, recipient, count), and its unique key never has to refuse one. */
  lemma LedgerNeverConflicts(interval: nat, clock: int, actions: seq<Action>, i: nat, j: nat, id: nat)
    ensures var s := After(interval, clock, actions);
            && (i < j < |s.deliveries| ==> s.deliveries[i] != s.deliveries[j])
            && (id in s.tasks && s.tasks[id].Record? ==>
                  !HasDelivery(s.deliveries, Delivery(id, s.tasks[id].recipient, s.tasks[id].count)))
  {
    RunKeeps(interval, clock, actions);
    assert TaskOk(After(interval, clock, actions), interval, id);
  }

  // ---------------------------------------------------------------- who is notified

  /** A tick that claims the alert while it is active. */
  predicate ClaimsActive(s: State, a: Action, id: nat) {
    a.Tick? && id in a.claimed && id in s.alerts && s.alerts[id].active
  }

  function Claims(interval: nat, clock: int, actions: seq<Action>, id: nat): nat {
    if actions == [] then 0
    else
      var before := actions[..|actions| - 1];
      Claims(interval, clock, before, id) +
      Bit(ClaimsActive(After(interval, clock, before), actions[|actions| - 1], id))
  }

  /** The notifications of an alert, and the one that a task is about to make. */
  function Due(s: State, id: nat): nat {
    (if id in s.marks then |s.marks[id]| else 0)
    + Bit(id in s.tasks && (s.tasks[id].ListRecipients? || s.tasks[id].Mark?))
  }

  lemma ActDue(interval: nat, s: State, a: Action, id: nat)
    ensures Due(Act(interval, s, a), id) <= Due(s, id) + Bit(ClaimsActive(s, a, id))
  {
  }

  lemma {:induction false} DueWithinClaims(interval: nat, clock: int, actions: seq<Action>, id: nat)
    ensures Due(After(interval, clock, actions), id) <= Claims(interval, clock, actions, id)
  {
    if actions != [] {
      var before := actions[..|actions| - 1];
      DueWithinClaims(interval, clock, before, id);
      ActDue(interval, After(interval, clock, before), actions[|actions| - 1], id);
    }
  }

  /** An alert is never notified more often than it was claimed while active: once acknowledged or resolved, it is
      not claimed again. */
  lemma OnlyActiveIsNotified(interval: nat, clock: int, actions: seq<Action>, id: nat)
    ensures var s := After(interval, clock, actions);
            id in s.alerts ==> s.alerts[id].count <= Claims(interval, clock, actions, id)
  {
    RunKeeps(interval, clock, actions);
    DueWithinClaims(interval, clock, actions, id);
    assert AlertOk(After(interval, clock, actions), interval, id);
  }

  // ---------------------------------------------------------------- a due alert gets through

  function From(interval: nat, s: State, actions: seq<Action>): State {
    if actions == [] then s
    else Act(interval, From(interval, s, actions[..|actions| - 1]), actions[|actions| - 1])
  }

  lemma Extend(interval: nat, s: State, actions: seq<Action>, a: Action)
    ensures From(interval, s, actions + [a]) == Act(interval, From(interval, s, actions), a)
  {
    assert (actions + [a])[..|actions|] == actions;
  }

  predicate At(s: State, id: nat, task: Task) {
    id in s.tasks && s.tasks[id] == task && id in s.alerts && id in s.marks
  }

  /** An active alert that was never notified, or longer ago than the interval, can be claimed and marked. */
  lemma MarkSteps(interval: nat, s: State, id: nat, recipients: seq<nat>)
    requires s.tasks == map[] && id in s.alerts && id in s.marks && s.alerts[id].active && Distinct(recipients)
    requires s.alerts[id].notifiedAt.None? || s.alerts[id].notifiedAt.value < s.clock - interval
    requires s.alerts[id].count < 32767 && recipients != []
    ensures var t := Act(interval, Act(interval, Act(interval, s, Tick({id})), Go(id, recipients)), Go(id, []));
            && At(t, id, Send(s.alerts[id].count + 1, recipients)) && t.alerts[id].count == s.alerts[id].count + 1
            && t.sends == s.sends && t.deliveries == s.deliveries
  {
    var t1 := Act(interval, s, Tick({id}));
    assert t1.tasks[id] == ListRecipients(s.clock);
    var t2 := Act(interval, t1, Go(id, recipients));
    assert t2.tasks[id] == Mark(s.clock, recipients);
  }

  /** One recipient is mailed and recorded. */
  lemma MailSteps(interval: nat, s: State, id: nat, count: nat, todo: seq<nat>)
    requires At(s, id, Send(count, todo)) && todo != []
    ensures var t := Act(interval, Act(interval, s, Go(id, [])), Go(id, []));
            && At(t, id, Send(count, todo[1..])) && t.alerts == s.alerts
            && t.sends == s.sends + multiset{(id, todo[0])}
            && HasDelivery(t.deliveries, Delivery(id, todo[0], count)) && s.deliveries <= t.deliveries
  {
    var mid := Act(interval, s, Go(id, []));
    assert mid.tasks[id] == Record(count, todo[1..], todo[0]);
    AppendDelivery(s.deliveries, Delivery(id, todo[0], count), Delivery(id, todo[0], count));
  }

  ghost predicate Mailed(s: State, t: State, id: nat, count: nat, recipients: seq<nat>) {
    forall r :: r in recipients ==>
      t.sends[(id, r)] == s.sends[(id, r)] + 1 && HasDelivery(t.deliveries, Delivery(id, r, count))
  }

  lemma {:induction false} WorksOff(interval: nat, start: State, before: seq<Action>, id: nat, count: nat,
                                    todo: seq<nat>)
    returns (actions: seq<Action>)
    requires At(From(interval, start, before), id, Send(count, todo)) && Distinct(todo)
    ensures var s, t := From(interval, start, before), From(interval, start, actions);
            && t.alerts == s.alerts && s.deliveries <= t.deliveries && Mailed(s, t, id, count, todo)
            && forall r :: r !in todo ==> t.sends[(id, r)] == s.sends[(id, r)]
    decreases |todo|
  {
    actions := before;
    if todo != [] {
      var s := From(interval, start, before);
      DistinctTail(todo);
      Extend(interval, start, before, Go(id, []));
      Extend(interval, start, before + [Go(id, [])], Go(id, []));
      MailSteps(interval, s, id, count, todo);
      var next := before + [Go(id, [])] + [Go(id, [])];
      actions := WorksOff(interval, start, next, id, count, todo[1..]);
      var mid, t := From(interval, start, next), From(interval, start, actions);
      forall r | r in todo
        ensures t.sends[(id, r)] == s.sends[(id, r)] + 1 && HasDelivery(t.deliveries, Delivery(id, r, count))
      {
        if r == todo[0] {
          var i :| 0 <= i < |mid.deliveries| && mid.deliveries[i] == Delivery(id, r, count);
          assert t.deliveries[i] == mid.deliveries[i];
        } else {
          assert r in todo[1..];
        }
      }
    }
  }

  /** From every state between two ticks, an active alert whose interval has passed can be notified: its count
      rises by one, and every recipient gets exactly one e-mail and one ledger row for it. */
  lemma DueAlertIsNotified(interval: nat, s: State, id: nat, recipients: seq<nat>) returns (actions: seq<Action>)
    requires s.tasks == map[] && id in s.alerts && id in s.marks && s.alerts[id].active && Distinct(recipients)
    requires s.alerts[id].notifiedAt.None? || s.alerts[id].notifiedAt.value < s.clock - interval
    requires s.alerts[id].count < 32767 && recipients != []
    ensures var t := From(interval, s, actions);
            && id in t.alerts && t.alerts[id].count == s.alerts[id].count + 1
            && Mailed(s, t, id, s.alerts[id].count + 1, recipients)
  {
    MarkSteps(interval, s, id, recipients);
    assert From(interval, s, []) == s;
    Extend(interval, s, [], Tick({id}));
    Extend(interval, s, [] + [Tick({id})], Go(id, recipients));
    Extend(interval, s, [] + [Tick({id})] + [Go(id, recipients)], Go(id, []));
    var ready := [] + [Tick({id})] + [Go(id, recipients)] + [Go(id, [])];
    actions := WorksOff(interval, s, ready, id, s.alerts[id].count + 1, recipients);
  }
}
