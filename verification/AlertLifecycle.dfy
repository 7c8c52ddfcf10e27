/**
 The life of notification alerts: guarded statements open, bump, acknowledge and resolve rows. The
 clock counts statements, so `firstAt` and `resolvedAt` are positions in the statement history.
 */
module AlertLifecycle {
  import opened Common

  datatype Status = Active | Acknowledged | Resolved

  datatype Alert = Alert(org: nat, key: string, status: Status, occurrences: nat, firstAt: nat, resolvedAt: Option<nat>)

  datatype Op =
    | Upsert(org: nat, key: string)
    | Acknowledge(id: nat)
    | AcknowledgeForOrg(id: nat, org: nat)
    | ResolveKey(org: nat, key: string)
    | ResolveById(id: nat, org: nat)

  predicate IsOpen(a: Alert, org: nat, key: string) {
    a.org == org && a.key == key && a.status != Resolved
  }

  /** The open row of a dedup key; the table length when there is none. */
  function FindOpen(rows: seq<Alert>, org: nat, key: string): (i: nat)
    ensures i <= |rows|
    ensures i < |rows| ==> IsOpen(rows[i], org, key)
    ensures forall j :: 0 <= j < i ==> !IsOpen(rows[j], org, key)
    decreases |rows|
  {
    if rows == [] then 0
    else if IsOpen(rows[0], org, key) then 0
    else 1 + FindOpen(rows[1..], org, key)
  }

  function Close(a: Alert, now: nat): Alert {
    a.(status := Resolved, resolvedAt := Some(now))
  }

  /** One statement, executed as statement number `now`. */
  function Apply(rows: seq<Alert>, now: nat, op: Op): seq<Alert> {
    match op
    case Upsert(org, key) =>
      var i := FindOpen(rows, org, key);
      if i < |rows| then rows[i := rows[i].(occurrences := rows[i].occurrences + 1)]
      else rows + [Alert(org, key, Active, 1, now, None)]
    case Acknowledge(id) =>
      if id < |rows| && rows[id].status == Active then rows[id := rows[id].(status := Acknowledged)] else rows
    case AcknowledgeForOrg(id, org) =>
      if id < |rows| && rows[id].org == org && rows[id].status == Active
      then rows[id := rows[id].(status := Acknowledged)] else rows
    case ResolveKey(org, key) =>
      seq(|rows|, i requires 0 <= i < |rows| => if IsOpen(rows[i], org, key) then Close(rows[i], now) else rows[i])
    case ResolveById(id, org) =>
      if id < |rows| && rows[id].org == org && rows[id].status != Resolved
      then rows[id := Close(rows[id], now)] else rows
  }

  /** The table in memory of every statement that reached it. */
  class AlertTable {
    var rows: seq<Alert>
    var now: nat
    ghost var ops: seq<Op>

    /** The rows are what the history of statements leads to: one open alert per key, and every row
        counts the raises of its key while it was open. */
    ghost predicate Valid()
      reads this
    {
      rows == Replay(ops) && now == |ops| && Inv(ops, rows)
    }

    constructor ()
      ensures Valid() && ops == []
    {
      rows, now, ops := [], 0, [];
    }

    /** One more statement in the history. */
    ghost method Log(op: Op)
      requires rows == Apply(Replay(ops), |ops|, op) && now == |ops|
      modifies this`ops
      ensures rows == Replay(ops) && Inv(ops, rows) && ops == old(ops) + [op]
    {
      assert (ops + [op])[..|ops|] == ops;
      ops := ops + [op];
      ReplayKeeps(ops);
    }

    /** The partial unique index turns an insert on an open key into a bump: afterwards the key has exactly
        one open alert, the returned one, and it counts every raise since it was opened. */
    method UpsertAlert(org: nat, key: string) returns (id: nat)
      requires Valid()
      modifies this
      ensures Valid() && ops == old(ops) + [Upsert(org, key)]
      ensures id < |rows| && IsOpen(rows[id], org, key)
      ensures rows[id].occurrences == Raised(ops, org, key, rows[id].firstAt, |ops|)
      ensures forall j :: 0 <= j < |rows| && j != id ==>
                !IsOpen(rows[j], org, key) && j < |old(rows)| && rows[j] == old(rows)[j]
    {
      id := FindRow(rows, org, key);
      if id < |rows| {
        rows := rows[id := rows[id].(occurrences := rows[id].occurrences + 1)];
      } else {
        rows := rows + [Alert(org, key, Active, 1, now, None)];
      }
      Log(Upsert(org, key));
      now := now + 1;
      OnlyOpen(ops, rows, org, key, id);
    }

    /** An active alert becomes acknowledged and stays the open alert of its key; any other is left alone. */
    method AcknowledgeAlert(id: nat) returns (changed: bool)
      requires Valid()
      modifies this
      ensures Valid() && ops == old(ops) + [Acknowledge(id)]
      ensures changed <==> id < |old(rows)| && old(rows)[id].status == Active
      ensures changed ==> id < |rows| && rows[id].status == Acknowledged
      ensures SameButStatus(old(rows), rows, if changed then {id} else {})
    {
      changed := id < |rows| && rows[id].status == Active;
      if changed { rows := rows[id := rows[id].(status := Acknowledged)]; }
      Log(Acknowledge(id));
      now := now + 1;
    }

    /** The same for an alert of one organisation. */
    method AcknowledgeAlertForOrg(id: nat, org: nat) returns (changed: bool)
      requires Valid()
      modifies this
      ensures Valid() && ops == old(ops) + [AcknowledgeForOrg(id, org)]
      ensures changed <==> id < |old(rows)| && old(rows)[id].status == Active && old(rows)[id].org == org
      ensures changed ==> id < |rows| && rows[id].status == Acknowledged
      ensures SameButStatus(old(rows), rows, if changed then {id} else {})
    {
      changed := id < |rows| && rows[id].org == org && rows[id].status == Active;
      if changed { rows := rows[id := rows[id].(status := Acknowledged)]; }
      Log(AcknowledgeForOrg(id, org));
      now := now + 1;
    }

    /** Afterwards the key has no open alert, and its count is frozen. */
    method ResolveAlert(org: nat, key: string) returns (changed: bool)
      requires Valid()
      modifies this
      ensures Valid() && ops == old(ops) + [ResolveKey(org, key)]
      ensures changed <==> exists i :: 0 <= i < |old(rows)| && IsOpen(old(rows)[i], org, key)
      ensures forall i :: 0 <= i < |rows| ==> !IsOpen(rows[i], org, key)
      ensures SameButStatus(old(rows), rows, set i: nat | i < |old(rows)| && IsOpen(old(rows)[i], org, key))
    {
      changed := false;
      ghost var before := rows;
      for i := 0 to |rows|
        invariant |rows| == |before| && now == old(now) && ops == old(ops)
        invariant forall j :: 0 <= j < i ==>
                    rows[j] == if IsOpen(before[j], org, key) then Close(before[j], now) else before[j]
        invariant forall j :: i <= j < |rows| ==> rows[j] == before[j]
        invariant changed <==> exists j :: 0 <= j < i && IsOpen(before[j], org, key)
      {
        if IsOpen(rows[i], org, key) {
          rows := rows[i := Close(rows[i], now)];
          changed := true;
        }
      }
      assert rows == Apply(before, now, ResolveKey(org, key));
      Log(ResolveKey(org, key));
      now := now + 1;
    }

    /** An open alert of the organisation is closed, so that its key can be raised anew. */
    method ResolveAlertById(id: nat, org: nat) returns (changed: bool)
      requires Valid()
      modifies this
      ensures Valid() && ops == old(ops) + [ResolveById(id, org)]
      ensures changed <==> id < |old(rows)| && old(rows)[id].org == org && old(rows)[id].status != Resolved
      ensures changed ==> forall j :: 0 <= j < |rows| ==> !IsOpen(rows[j], org, old(rows)[id].key)
      ensures SameButStatus(old(rows), rows, if changed then {id} else {})
    {
      changed := id < |rows| && rows[id].org == org && rows[id].status != Resolved;
      if changed { rows := rows[id := Close(rows[id], now)]; }
      Log(ResolveById(id, org));
      now := now + 1;
    }
  }

  /** The lookup through the partial unique index. */
  method FindRow(rows: seq<Alert>, org: nat, key: string) returns (id: nat)
    ensures id == FindOpen(rows, org, key)
  {
    id := 0;
    while id < |rows| && !IsOpen(rows[id], org, key)
      invariant id <= |rows|
      invariant forall j :: 0 <= j < id ==> !IsOpen(rows[j], org, key)
    {
      id := id + 1;
    }
    FindOpenIs(rows, org, key, id);
  }

  lemma OnlyOpen(ops: seq<Op>, rows: seq<Alert>, org: nat, key: string, id: nat)
    requires Inv(ops, rows) && id < |rows| && IsOpen(rows[id], org, key)
    ensures forall j :: 0 <= j < |rows| && j != id ==> !IsOpen(rows[j], org, key)
    ensures rows[id].occurrences == Raised(ops, org, key, rows[id].firstAt, |ops|)
  {
    assert CountsRaises(ops, rows[id]);
  }

  /** Only the rows in `ids` changed, and of those only the status and when they were resolved. */
  ghost predicate SameButStatus(before: seq<Alert>, after: seq<Alert>, ids: set<nat>) {
    && |after| == |before|
    && (forall i: nat :: i < |before| && i !in ids ==> after[i] == before[i])
    && (forall i: nat :: i < |before| && i in ids ==>
          after[i] == before[i].(status := after[i].status, resolvedAt := after[i].resolvedAt))
  }

  lemma {:induction false} FindOpenIs(rows: seq<Alert>, org: nat, key: string, i: nat)
    requires i <= |rows| && (i < |rows| ==> IsOpen(rows[i], org, key))
    requires forall j :: 0 <= j < i ==> !IsOpen(rows[j], org, key)
    ensures FindOpen(rows, org, key) == i
  {
    if i > 0 { FindOpenIs(rows[1..], org, key, i - 1); }
  }

  // ---------------------------------------------------------------- whole histories

  function Replay(ops: seq<Op>): seq<Alert> {
    if ops == [] then []
    else Apply(Replay(ops[..|ops| - 1]), |ops| - 1, ops[|ops| - 1])
  }

  /** How many statements in `[lo, hi)` raise the given key. */
  function Raised(ops: seq<Op>, org: nat, key: string, lo: nat, hi: nat): nat
    requires hi <= |ops|
    decreases hi
  {
    if hi <= lo then 0
    else Raised(ops, org, key, lo, hi - 1) + (if ops[hi - 1] == Upsert(org, key) then 1 else 0)
  }

  ghost predicate OneOpen(rows: seq<Alert>) {
    forall i, j | 0 <= i < |rows| && 0 <= j < |rows| ::
      IsOpen(rows[i], rows[j].org, rows[j].key) && rows[j].status != Resolved ==> i == j
  }

  /** A row counts exactly the raises from its opening up to its resolution. */
  predicate CountsRaises(ops: seq<Op>, a: Alert) {
    && a.firstAt <= |ops|
    && (a.status == Resolved <==> a.resolvedAt.Some?)
    && (a.resolvedAt.Some? ==> a.firstAt <= a.resolvedAt.value <= |ops|)
    && a.occurrences == Raised(ops, a.org, a.key, a.firstAt, if a.resolvedAt.Some? then a.resolvedAt.value else |ops|)
  }

  ghost predicate Inv(ops: seq<Op>, rows: seq<Alert>) {
    OneOpen(rows) && forall i :: 0 <= i < |rows| ==> CountsRaises(ops, rows[i])
  }

  lemma {:induction false} RaisedPrefix(ops: seq<Op>, more: seq<Op>, org: nat, key: string, lo: nat, hi: nat)
    requires hi <= |ops| && ops <= more
    ensures Raised(more, org, key, lo, hi) == Raised(ops, org, key, lo, hi)
    decreases hi
  {
    if lo < hi { RaisedPrefix(ops, more, org, key, lo, hi - 1); }
  }

  /** A statement that touches a row neither raises its key nor changes the count of a closed row. */
  lemma CountStays(before: seq<Op>, ops: seq<Op>, a: Alert)
    requires before != ops && before <= ops && |ops| == |before| + 1 && CountsRaises(before, a)
    requires a.status != Resolved ==> ops[|before|] != Upsert(a.org, a.key)
    ensures CountsRaises(ops, a)
  {
    RaisedPrefix(before, ops, a.org, a.key, a.firstAt, if a.resolvedAt.Some? then a.resolvedAt.value else |before|);
  }

  lemma BumpCounts(before: seq<Op>, ops: seq<Op>, a: Alert)
    requires before <= ops && |ops| == |before| + 1 && CountsRaises(before, a)
    requires a.status != Resolved && ops[|before|] == Upsert(a.org, a.key)
    ensures CountsRaises(ops, a.(occurrences := a.occurrences + 1))
  {
    RaisedPrefix(before, ops, a.org, a.key, a.firstAt, |before|);
  }

  lemma CloseCounts(before: seq<Op>, ops: seq<Op>, a: Alert)
    requires before <= ops && |ops| == |before| + 1 && CountsRaises(before, a) && a.status != Resolved
    ensures CountsRaises(ops, Close(a, |before|))
  {
    RaisedPrefix(before, ops, a.org, a.key, a.firstAt, |before|);
  }

  lemma UpsertKeeps(before: seq<Op>, ops: seq<Op>, rows: seq<Alert>, org: nat, key: string)
    requires Inv(before, rows) && before <= ops && |ops| == |before| + 1 && ops[|before|] == Upsert(org, key)
    ensures Inv(ops, Apply(rows, |before|, Upsert(org, key)))
  {
    var t := Apply(rows, |before|, Upsert(org, key));
    var i := FindOpen(rows, org, key);
    forall j | 0 <= j < |t|
      ensures CountsRaises(ops, t[j])
    {
      if j == i && i < |rows| {
        BumpCounts(before, ops, rows[j]);
      } else if j < |rows| {
        assert rows[j].status != Resolved ==> !IsOpen(rows[j], org, key);
        CountStays(before, ops, rows[j]);
      }
    }
  }

  lemma OtherKeeps(before: seq<Op>, ops: seq<Op>, rows: seq<Alert>, op: Op)
    requires Inv(before, rows) && before <= ops && |ops| == |before| + 1 && ops[|before|] == op && !op.Upsert?
    ensures Inv(ops, Apply(rows, |before|, op))
  {
    var t := Apply(rows, |before|, op);
    forall j | 0 <= j < |t|
      ensures CountsRaises(ops, t[j])
    {
      if t[j].status == Resolved && rows[j].status != Resolved {
        CloseCounts(before, ops, rows[j]);
      } else {
        CountStays(before, ops, rows[j]);
      }
    }
  }

  lemma {:induction false} ReplayKeeps(ops: seq<Op>)
    ensures Inv(ops, Replay(ops))
  {
    if ops != [] {
      var before, op := ops[..|ops| - 1], ops[|ops| - 1];
      ReplayKeeps(before);
      if op.Upsert? {
        UpsertKeeps(before, ops, Replay(before), op.org, op.key);
      } else {
        OtherKeeps(before, ops, Replay(before), op);
      }
    }
  }

  /** Whatever the statements, a dedup key has at most one open alert. */
  lemma OneOpenPerKey(ops: seq<Op>, i: nat, j: nat)
    ensures var rows := Replay(ops);
            i < |rows| && j < |rows| && rows[i].status != Resolved && IsOpen(rows[j], rows[i].org, rows[i].key) ==>
              i == j
  {
    ReplayKeeps(ops);
  }

  /** `occurrence_count` is exactly the number of raises since the row was opened, up to its resolution. */
  lemma OccurrencesCount(ops: seq<Op>, i: nat)
    requires i < |Replay(ops)|
    ensures CountsRaises(ops, Replay(ops)[i])
  {
    ReplayKeeps(ops);
  }

  /** Resolved is absorbing, acknowledged never becomes active again, and identity never changes. */
  lemma StatusOnlyAdvances(rows: seq<Alert>, now: nat, op: Op, i: nat)
    requires i < |rows|
    ensures var t := Apply(rows, now, op);
            && i < |t| && t[i].org == rows[i].org && t[i].key == rows[i].key && t[i].firstAt == rows[i].firstAt
            && (rows[i].status == Resolved ==> t[i] == rows[i])
            && (rows[i].status == Acknowledged ==> t[i].status != Active)
            && rows[i].occurrences <= t[i].occurrences
  {
  }

  lemma {:induction false} StatusOnlyAdvancesOver(ops: seq<Op>, more: seq<Op>, i: nat)
    requires i < |Replay(ops)|
    ensures var early, late := Replay(ops), Replay(ops + more);
            && i < |late|
            && (early[i].status == Resolved ==> late[i] == early[i])
            && (early[i].status == Acknowledged ==> late[i].status != Active)
  {
    if more == [] {
      assert ops + more == ops;
    } else {
      var rest, op := more[..|more| - 1], more[|more| - 1];
      StatusOnlyAdvancesOver(ops, rest, i);
      assert (ops + more)[..|ops + more| - 1] == ops + rest;
      StatusOnlyAdvances(Replay(ops + rest), |ops + rest|, op, i);
    }
  }

  // ---------------------------------------------------------------- status from the history

  predicate Acks(op: Op, i: nat, org: nat) {
    op == Acknowledge(i) || op == AcknowledgeForOrg(i, org)
  }

  predicate Closes(op: Op, i: nat, a: Alert) {
    op == ResolveKey(a.org, a.key) || op == ResolveById(i, a.org)
  }

  /** The statements of a history decide the status of row `i`: it was opened by a raise of its key, it is resolved
      exactly by the first statement that closes it, and until then it is active exactly while nobody has
      acknowledged it. */
  ghost predicate StatusOk(ops: seq<Op>, i: nat, a: Alert) {
    && a.firstAt < |ops| && ops[a.firstAt] == Upsert(a.org, a.key)
    && (a.status == Resolved <==> a.resolvedAt.Some?)
    && (a.resolvedAt.Some? ==> a.firstAt < a.resolvedAt.value < |ops| && Closes(ops[a.resolvedAt.value], i, a))
    && (forall n :: a.firstAt < n < (if a.resolvedAt.Some? then a.resolvedAt.value else |ops|) ==>
          !Closes(ops[n], i, a))
    && (a.status == Active ==> forall n :: a.firstAt < n < |ops| ==> !Acks(ops[n], i, a.org))
    && (a.status == Acknowledged ==> exists n :: a.firstAt < n < |ops| && Acks(ops[n], i, a.org))
  }

  lemma StatusStep(before: seq<Op>, ops: seq<Op>, rows: seq<Alert>, i: nat)
    requires before < ops && |ops| == |before| + 1
    requires i < |rows| ==> StatusOk(before, i, rows[i])
    requires i < |Apply(rows, |before|, ops[|before|])|
    ensures StatusOk(ops, i, Apply(rows, |before|, ops[|before|])[i])
  {
    var op := ops[|before|];
    assert forall n :: 0 <= n < |before| ==> ops[n] == before[n];
    if i < |rows| {
      var a := rows[i];
      if a.status == Acknowledged {
        var n :| a.firstAt < n < |before| && Acks(before[n], i, a.org);
        assert Acks(ops[n], i, a.org);
      }
    }
  }

  lemma {:induction false} StatusFollows(ops: seq<Op>, i: nat)
    requires i < |Replay(ops)|
    ensures StatusOk(ops, i, Replay(ops)[i])
  {
    if ops != [] {
      var before := ops[..|ops| - 1];
      if i < |Replay(before)| { StatusFollows(before, i); }
      StatusStep(before, ops, Replay(before), i);
    }
  }
}
