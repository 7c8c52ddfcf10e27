/**
 Provider callbacks on the delivery ledger. A callback appends a row that mirrors the latest row of
 its message, except that good news after bad news is dropped.
 */
module DeliveryWebhook {
  import opened Common

  datatype Status = Sent | Failed | Bounced | Suppressed

  /** A ledger row: which message it is about and what it says; `copy` stands for the mirrored columns. */
  datatype Row = Row(message: string, status: Status, copy: nat)

  datatype Event = Event(message: string, provider: string)

  function MapProviderStatus(provider: string): Status {
    if provider == "sent" || provider == "delivered" then Sent
    else if provider == "bounced" then Bounced
    else if provider == "complained" || provider == "suppressed" then Suppressed
    else Failed
  }

  predicate Negative(status: Status) {
    status != Sent
  }

  /** The latest row of a message; rows are in the order of their `attempted_at`. */
  function Latest(rows: seq<Row>, message: string): (r: Option<Row>)
    ensures r.Some? ==> r.value in rows && r.value.message == message
    ensures r.None? <==> forall i :: 0 <= i < |rows| ==> rows[i].message != message
  {
    if rows == [] then None
    else if rows[|rows| - 1].message == message then Some(rows[|rows| - 1])
    else Latest(rows[..|rows| - 1], message)
  }

  function AppendStatus(rows: seq<Row>, message: string, status: Status): seq<Row> {
    match Latest(rows, message)
    case None => rows
    case Some(row) => if Negative(row.status) && status == Sent then rows else rows + [row.(status := status)]
  }

  class Ledger {
    var rows: seq<Row>

    constructor (rows: seq<Row>)
      ensures this.rows == rows
    {
      this.rows := rows;
    }

    /** `append_delivery_status_from_webhook`: true when the message is known. */
    method AppendFromWebhook(event: Event) returns (found: bool)
      modifies this
      ensures found <==> Latest(old(rows), event.message).Some?
      ensures rows == AppendStatus(old(rows), event.message, MapProviderStatus(event.provider))
    {
      var i := |rows|;
      assert rows[..i] == rows;
      while i > 0 && rows[i - 1].message != event.message
        invariant 0 <= i <= |rows|
        invariant Latest(rows, event.message) == Latest(rows[..i], event.message)
      {
        assert rows[..i][..i - 1] == rows[..i - 1];
        i := i - 1;
      }
      if i == 0 {
        return false;
      }
      var latest := rows[i - 1];
      var mapped := MapProviderStatus(event.provider);
      if latest.status in {Bounced, Suppressed, Failed} && mapped == Sent {
        return true;
      }
      rows := rows + [latest.(status := mapped)];
      return true;
    }
  }

  /** The ledger after a sequence of callbacks, oldest first. */
  function AfterEvents(rows: seq<Row>, events: seq<Event>): seq<Row> {
    if events == [] then rows
    else
      var before := AfterEvents(rows, events[..|events| - 1]);
      var e := events[|events| - 1];
      AppendStatus(before, e.message, MapProviderStatus(e.provider))
  }

  predicate IsBad(e: Event, message: string) {
    e.message == message && Negative(MapProviderStatus(e.provider))
  }

  predicate HasBad(events: seq<Event>, message: string) {
    exists i :: 0 <= i < |events| && IsBad(events[i], message)
  }

  lemma LatestAfterAppend(rows: seq<Row>, message: string, status: Status, other: string)
    ensures other != message ==> Latest(AppendStatus(rows, message, status), other) == Latest(rows, other)
    ensures Latest(rows, message).Some? ==>
              var after := Latest(AppendStatus(rows, message, status), message);
              after.Some? &&
              (Negative(after.value.status) <==> Negative(Latest(rows, message).value.status) || Negative(status))
  {
    if Latest(rows, message).Some? {
      var row := Latest(rows, message).value.(status := status);
      assert (rows + [row])[..|rows|] == rows;
    }
  }

  lemma BadAppend(events: seq<Event>, message: string)
    requires events != []
    ensures HasBad(events, message) <==>
            HasBad(events[..|events| - 1], message) || IsBad(events[|events| - 1], message)
  {
    var before := events[..|events| - 1];
    if HasBad(before, message) {
      var i :| 0 <= i < |before| && IsBad(before[i], message);
      assert events[i] == before[i];
    }
  }

  /** After any callbacks, of any messages, the latest status of a message is negative exactly when it
      was negative at first or some callback of that message was. */
  lemma {:induction false} Polarity(rows: seq<Row>, events: seq<Event>, message: string)
    requires Latest(rows, message).Some?
    ensures Latest(AfterEvents(rows, events), message).Some?
    ensures Negative(Latest(AfterEvents(rows, events), message).value.status) <==>
            Negative(Latest(rows, message).value.status) || HasBad(events, message)
  {
    if events != [] {
      var before, e := events[..|events| - 1], events[|events| - 1];
      Polarity(rows, before, message);
      var status := MapProviderStatus(e.provider);
      LatestAfterAppend(AfterEvents(rows, before), e.message, status, message);
      BadAppend(events, message);
    }
  }

  /** The provider's words: which ledger status each of them means. */
  lemma WordsMean(provider: string)
    ensures MapProviderStatus(provider) == Sent <==> provider in {"sent", "delivered"}
    ensures MapProviderStatus(provider) == Bounced <==> provider == "bounced"
    ensures MapProviderStatus(provider) == Suppressed <==> provider in {"complained", "suppressed"}
    ensures MapProviderStatus(provider) == Failed <==>
            provider !in {"sent", "delivered", "bounced", "complained", "suppressed"}
  {
  }

  /** Polarity in the provider's words: after a message was sent, its latest status is negative exactly when some
      callback of it said anything else than `sent` or `delivered`. */
  lemma PolarityOfWords(rows: seq<Row>, events: seq<Event>, message: string)
    requires Latest(rows, message).Some? && Latest(rows, message).value.status == Sent
    ensures Latest(AfterEvents(rows, events), message).Some?
    ensures Latest(AfterEvents(rows, events), message).value.status != Sent <==>
            exists i :: 0 <= i < |events| &&
                        events[i].message == message && events[i].provider !in {"sent", "delivered"}
  {
    Polarity(rows, events, message);
    forall i | 0 <= i < |events|
      ensures IsBad(events[i], message) <==>
              events[i].message == message && events[i].provider !in {"sent", "delivered"}
    {
      WordsMean(events[i].provider);
    }
    if HasBad(events, message) {
      var i :| 0 <= i < |events| && IsBad(events[i], message);
      assert events[i].message == message;
    }
  }

  /** What one callback leaves as the latest row of its message: the row before it under the new status, unless
      that is good news after bad. Other messages keep their latest rows, and the ledger only grows. */
  lemma CallbackMeans(rows: seq<Row>, event: Event, other: string)
    ensures var after := AppendStatus(rows, event.message, MapProviderStatus(event.provider));
            && rows <= after
            && (other != event.message ==> Latest(after, other) == Latest(rows, other))
            && (Latest(rows, event.message).None? ==> after == rows)
            && (Latest(rows, event.message).Some? ==>
                  var was, next := Latest(rows, event.message).value, Latest(after, event.message);
                  next == Some(if was.status != Sent && event.provider in {"sent", "delivered"} then was
                               else was.(status := MapProviderStatus(event.provider))))
  {
    WordsMean(event.provider);
    LatestAfterAppend(rows, event.message, MapProviderStatus(event.provider), other);
    if Latest(rows, event.message).Some? {
      var row := Latest(rows, event.message).value.(status := MapProviderStatus(event.provider));
      BadAfterAppend(rows, row, event.message);
    }
  }

  lemma SameBad(a: seq<Event>, b: seq<Event>, message: string)
    requires multiset(a) == multiset(b) && HasBad(a, message)
    ensures HasBad(b, message)
  {
    var i :| 0 <= i < |a| && IsBad(a[i], message);
    assert a[i] in multiset(a);
    assert a[i] in multiset(b);
    assert a[i] in b;
  }

  /** The order in which the provider's callbacks arrive does not change the final polarity. */
  lemma OrderDoesNotMatter(rows: seq<Row>, a: seq<Event>, b: seq<Event>, message: string)
    requires Latest(rows, message).Some? && multiset(a) == multiset(b)
    ensures var x, y := Latest(AfterEvents(rows, a), message), Latest(AfterEvents(rows, b), message);
            x.Some? && y.Some? && (Negative(x.value.status) <==> Negative(y.value.status))
  {
    Polarity(rows, a, message);
    Polarity(rows, b, message);
    if HasBad(a, message) { SameBad(a, b, message); }
    if HasBad(b, message) { SameBad(b, a, message); }
  }

  // ---------------------------------------------------------------- interleaved callbacks

  /** What an unfinished callback has read, and what it is going to write. */
  datatype Pending = Pending(latest: Row, mapped: Status)

  /** The ledger while callbacks interleave: the read and the insert of a callback are two statements. */
  datatype Race = Race(rows: seq<Row>, open: map<nat, Pending>)

  datatype Step = Read(callback: nat, event: Event) | Put(callback: nat)

  function Act(s: Race, step: Step): Race {
    match step
    case Read(callback, event) =>
      var latest := Latest(s.rows, event.message);
      if latest.None? then s.(open := s.open - {callback})
      else s.(open := s.open[callback := Pending(latest.value, MapProviderStatus(event.provider))])
    case Put(callback) =>
      if callback !in s.open then s
      else
        var p := s.open[callback];
        var dropped := Negative(p.latest.status) && p.mapped == Sent;
        Race(if dropped then s.rows else s.rows + [p.latest.(status := p.mapped)], s.open - {callback})
  }

  /** The state after a sequence of steps, oldest first. */
  function Run(s: Race, steps: seq<Step>): Race {
    if steps == [] then s else Act(Run(s, steps[..|steps| - 1]), steps[|steps| - 1])
  }

  /** A callback that is not interrupted does exactly what `AppendFromWebhook` does. */
  lemma UninterruptedIsAppend(s: Race, callback: nat, event: Event)
    ensures Run(s, [Read(callback, event), Put(callback)]).rows ==
            AppendStatus(s.rows, event.message, MapProviderStatus(event.provider))
  {
    var steps := [Read(callback, event), Put(callback)];
    assert steps[..1] == [Read(callback, event)] && steps[..1][..0] == [];
    assert Run(s, steps[..1]) == Act(Run(s, []), Read(callback, event));
  }

  ghost predicate WasBad(rows: seq<Row>, message: string) {
    exists i :: 0 <= i < |rows| && rows[i].message == message && Negative(rows[i].status)
  }

  /** The latest status of a message shows every bounce that its ledger rows hold. */
  ghost predicate Honest(rows: seq<Row>, message: string) {
    WasBad(rows, message) ==> Latest(rows, message).Some? && Negative(Latest(rows, message).value.status)
  }

  /** The step inserts good news, read before a bounce was written, over that bounce. */
  predicate Hides(s: Race, step: Step, message: string) {
    && step.Put? && step.callback in s.open
    && s.open[step.callback].latest.message == message
    && s.open[step.callback].mapped == Sent && !Negative(s.open[step.callback].latest.status)
    && Latest(s.rows, message).Some? && Negative(Latest(s.rows, message).value.status)
  }

  lemma BadAfterAppend(rows: seq<Row>, row: Row, message: string)
    ensures WasBad(rows + [row], message) <==>
            WasBad(rows, message) || (row.message == message && Negative(row.status))
    ensures Latest(rows + [row], message) == if row.message == message then Some(row) else Latest(rows, message)
  {
    var longer := rows + [row];
    assert longer[..|rows|] == rows && longer[|rows|] == row;
    if WasBad(rows, message) {
      var i :| 0 <= i < |rows| && rows[i].message == message && Negative(rows[i].status);
      assert longer[i] == rows[i];
    }
  }

  /** An honest ledger turns dishonest exactly by a hiding step. */
  lemma StepHidesExactly(s: Race, step: Step, message: string)
    requires Honest(s.rows, message)
    ensures Honest(Act(s, step).rows, message) <==> !Hides(s, step, message)
  {
    if step.Put? && step.callback in s.open {
      var p := s.open[step.callback];
      BadAfterAppend(s.rows, p.latest.(status := p.mapped), message);
      if Hides(s, step, message) { LatestIsRow(s.rows, message); }
    }
  }

  lemma LatestIsRow(rows: seq<Row>, message: string)
    requires Latest(rows, message).Some? && Negative(Latest(rows, message).value.status)
    ensures WasBad(rows, message)
  {
    assert Latest(rows, message).value in rows;
  }

  /** At every moment of the run the latest status of the message shows every bounce. */
  ghost predicate AlwaysHonest(s: Race, steps: seq<Step>, message: string) {
    forall n :: 0 <= n <= |steps| ==> Honest(Run(s, steps[..n]).rows, message)
  }

  ghost predicate NeverHides(s: Race, steps: seq<Step>, message: string) {
    forall n :: 0 <= n < |steps| ==> !Hides(Run(s, steps[..n]), steps[n], message)
  }

  /** One more step of a run, and what it does to the message. */
  lemma HonestNext(s: Race, steps: seq<Step>, message: string, n: nat)
    requires n < |steps| && Honest(Run(s, steps[..n]).rows, message)
    ensures Honest(Run(s, steps[..n + 1]).rows, message) <==> !Hides(Run(s, steps[..n]), steps[n], message)
  {
    assert steps[..n + 1] == steps[..n] + [steps[n]];
    Then(s, steps[..n], steps[n]);
    StepHidesExactly(Run(s, steps[..n]), steps[n], message);
  }

  lemma {:induction false} HonestUpTo(s: Race, steps: seq<Step>, message: string, n: nat)
    requires Honest(s.rows, message) && NeverHides(s, steps, message) && n <= |steps|
    ensures Honest(Run(s, steps[..n]).rows, message)
  {
    if n > 0 {
      HonestUpTo(s, steps, message, n - 1);
      HonestNext(s, steps, message, n - 1);
    }
  }

  /** From an honest ledger, with any callbacks in flight, a run of interleaved callbacks shows every bounce
      at every moment if and only if no insert carries good news read before a bounce was written. */
  lemma AlwaysHonestExactly(s: Race, steps: seq<Step>, message: string)
    requires Honest(s.rows, message)
    ensures AlwaysHonest(s, steps, message) <==> NeverHides(s, steps, message)
  {
    if AlwaysHonest(s, steps, message) {
      forall n | 0 <= n < |steps|
        ensures !Hides(Run(s, steps[..n]), steps[n], message)
      {
        HonestNext(s, steps, message, n);
      }
    }
    if NeverHides(s, steps, message) {
      forall n | 0 <= n <= |steps|
        ensures Honest(Run(s, steps[..n]).rows, message)
      {
        HonestUpTo(s, steps, message, n);
      }
    }
  }

  /** Two callbacks read the same row; the bounce is inserted first. */
  lemma BothRead(row: Row)
    requires row.status == Sent
    ensures var s := Race([row], map[]);
            var s1 := Act(s, Read(1, Event(row.message, "delivered")));
            var s2 := Act(s1, Read(2, Event(row.message, "bounced")));
            && s2 == Race([row], map[1 := Pending(row, Sent), 2 := Pending(row, Bounced)])
            && Act(s2, Put(2)) == Race([row] + [row.(status := Bounced)], map[1 := Pending(row, Sent)])
  {
    assert Latest([row], row.message) == Some(row);
    assert map[1 := Pending(row, Sent), 2 := Pending(row, Bounced)] - {2} == map[1 := Pending(row, Sent)];
  }

  lemma LateGoodNews(row: Row)
    requires row.status == Sent
    ensures var rows := Act(Race([row] + [row.(status := Bounced)], map[1 := Pending(row, Sent)]), Put(1)).rows;
            WasBad(rows, row.message) && Latest(rows, row.message) == Some(row)
  {
    BadAfterAppend([row], row.(status := Bounced), row.message);
    BadAfterAppend([row] + [row.(status := Bounced)], row, row.message);
    assert row.(status := Sent) == row;
  }

  /** Two callbacks in flight: `delivered` reads, `bounced` reads and inserts, `delivered` inserts, and
      the ledger ends on `sent` with a bounce in it. */
  lemma RaceHidesBounce(row: Row) returns (steps: seq<Step>)
    requires row.status == Sent
    ensures var rows := Run(Race([row], map[]), steps).rows;
            WasBad(rows, row.message) && Latest(rows, row.message) == Some(row)
  {
    var s := Race([row], map[]);
    var first, second := Read(1, Event(row.message, "delivered")), Read(2, Event(row.message, "bounced"));
    BothRead(row);
    LateGoodNews(row);
    Then(s, [], first);
    Then(s, [] + [first], second);
    Then(s, [] + [first] + [second], Put(2));
    Then(s, [] + [first] + [second] + [Put(2)], Put(1));
    steps := [] + [first] + [second] + [Put(2)] + [Put(1)];
  }

  lemma Then(s: Race, steps: seq<Step>, step: Step)
    ensures Run(s, steps + [step]) == Act(Run(s, steps), step)
  {
    assert (steps + [step])[..|steps|] == steps;
  }
}
