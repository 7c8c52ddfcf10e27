/**
 The in-memory ring of recent log records, bounded by count and by age. Its answers are stated on the
 history of everything ever emitted.
 */
module LogRing {
  import opened Common

  datatype Record = Record(ts: int, level: int, message: string)

  const ERROR: int := 40

  function Within(records: seq<Record>, cutoff: int): seq<Record> {
    if records == [] then []
    else if records[0].ts >= cutoff then [records[0]] + Within(records[1..], cutoff)
    else Within(records[1..], cutoff)
  }

  lemma {:induction false} WithinMeans(records: seq<Record>, cutoff: int)
    ensures forall x :: x in Within(records, cutoff) <==> x in records && x.ts >= cutoff
  {
    if records != [] {
      WithinMeans(records[1..], cutoff);
      assert forall x :: x in records <==> x == records[0] || x in records[1..];
    }
  }

  function LastError(records: seq<Record>): Option<Record> {
    if records == [] then None
    else if records[|records| - 1].level >= ERROR then Some(records[|records| - 1])
    else LastError(records[..|records| - 1])
  }

  /** The last `n` records. */
  function LastOf(records: seq<Record>, n: nat): seq<Record> {
    if |records| <= n then records else records[|records| - n..]
  }

  ghost predicate Sorted(records: seq<Record>) {
    forall i, j :: 0 <= i < j < |records| ==> records[i].ts <= records[j].ts
  }

  /** Records below the cutoff can be dropped from the front. */
  lemma {:induction false} WithinDrops(records: seq<Record>, k: nat, cutoff: int)
    requires k <= |records| && forall i :: 0 <= i < k ==> records[i].ts < cutoff
    ensures Within(records, cutoff) == Within(records[k..], cutoff)
  {
    if k == 0 {
      assert records[k..] == records;
    } else {
      WithinDrops(records[1..], k - 1, cutoff);
      assert records[1..][k - 1..] == records[k..];
    }
  }

  lemma {:induction false} WithinLoses(records: seq<Record>, k: nat, i: nat, cutoff: int)
    requires i < k <= |records| && records[i].ts >= cutoff
    ensures |Within(records[k..], cutoff)| < |Within(records, cutoff)|
  {
    assert records[1..][k - 1..] == records[k..];
    if i > 0 {
      WithinLoses(records[1..], k - 1, i - 1, cutoff);
    } else {
      WithinShrinks(records[1..], k - 1, cutoff);
    }
  }

  lemma {:induction false} WithinShrinks(records: seq<Record>, k: nat, cutoff: int)
    requires k <= |records|
    ensures |Within(records[k..], cutoff)| <= |Within(records, cutoff)|
  {
    if k == 0 {
      assert records[k..] == records;
    } else {
      WithinShrinks(records[1..], k - 1, cutoff);
      assert records[1..][k - 1..] == records[k..];
    }
  }

  /** The ring after `gone`: what left it is beyond the count or was older than the age cap when `clock` pruned. */
  ghost predicate RingOk(gone: seq<Record>, records: seq<Record>, maxRecords: nat, maxAge: int, clock: int) {
    && 0 < maxRecords && |records| <= maxRecords
    && (maxAge <= 0 ==> gone == [] || |records| == maxRecords)
    && forall i :: 0 <= i < |gone| && |gone| + |records| - maxRecords <= i ==> gone[i].ts < clock - maxAge
  }

  lemma DropKeeps(gone: seq<Record>, records: seq<Record>, maxRecords: nat, maxAge: int, clock: int)
    requires RingOk(gone, records, maxRecords, maxAge, clock) && records != []
    requires maxAge > 0 && records[0].ts < clock - maxAge
    ensures RingOk(gone + [records[0]], records[1..], maxRecords, maxAge, clock)
  {
  }

  class RingBuffer {
    const maxRecords: nat
    const maxAge: int
    var records: seq<Record>
    ghost var gone: seq<Record>      // what has left the ring
    ghost var clock: int             // the greatest reading that pruned

    ghost predicate Valid()
      reads this
    {
      RingOk(gone, records, maxRecords, maxAge, clock)
    }

    /** Everything ever emitted. */
    ghost function History(): seq<Record>
      reads this
    {
      gone + records
    }

    constructor (maxRecords: int, maxAge: int, now: int)
      ensures Valid() && this.maxRecords == (if maxRecords < 1 then 1 else maxRecords) && this.maxAge == maxAge
      ensures History() == [] && clock == now
    {
      this.maxRecords := if maxRecords < 1 then 1 else maxRecords;
      this.maxAge, records, gone, clock := maxAge, [], [], now;
    }

    /** Drops records from the front while they are too old. */
    method Prune(now: int)
      requires Valid()
      modifies this`records, this`gone, this`clock
      ensures Valid() && History() == old(History()) && clock == if old(clock) < now then now else old(clock)
      ensures maxAge > 0 && records != [] ==> records[0].ts >= now - maxAge
    {
      clock := if clock < now then now else clock;
      if maxAge <= 0 {
        return;
      }
      while records != [] && records[0].ts < now - maxAge
        invariant Valid() && History() == old(History())
        invariant clock == if old(clock) < now then now else old(clock)
      {
        DropKeeps(gone, records, maxRecords, maxAge, clock);
        assert records == [records[0]] + records[1..];
        gone, records := gone + [records[0]], records[1..];
      }
    }

    /** Appends a record, dropping the oldest one when the ring is full, and prunes. */
    method Emit(record: Record, now: int)
      requires Valid()
      modifies this
      ensures Valid() && History() == old(History()) + [record]
      ensures clock == if old(clock) < now then now else old(clock)
      ensures maxAge > 0 && records != [] ==> records[0].ts >= now - maxAge
    {
      if |records| == maxRecords {
        assert records == [records[0]] + records[1..];
        gone, records := gone + [records[0]], records[1..] + [record];
      } else {
        records := records + [record];
      }
      assert History() == old(History()) + [record];
      Prune(now);
    }

    method Clear()
      requires Valid()
      modifies this`records, this`gone
      ensures Valid() && History() == []
    {
      records, gone := [], [];
    }

    /** The part of the history that an answer may draw on. */
    ghost function Kept(): seq<Record>
      reads this
    {
      LastOf(History(), maxRecords)
    }

    /** No record inside the window was pruned from the part that an answer may draw on. */
    ghost predicate Spared(cutoff: int)
      reads this
    {
      forall i :: 0 <= i < |gone| && |gone| + |records| - maxRecords <= i ==> gone[i].ts < cutoff
    }

    /** Pruning spares a window that no pruning clock was past, by more than the age cap. */
    lemma LostIsOld(cutoff: int)
      requires Valid() && (maxAge <= 0 || clock - maxAge <= cutoff)
      ensures Spared(cutoff)
    {
    }

    lemma SparedExactly(cutoff: int)
      requires Valid()
      ensures Within(records, cutoff) == Within(Kept(), cutoff) <==> Spared(cutoff)
    {
      var kept := Kept();
      var k := |kept| - |records|;
      var lost := |gone| - k;
      assert records == kept[k..];
      assert forall i :: 0 <= i < k ==> kept[i] == gone[lost + i];
      if Spared(cutoff) {
        WithinDrops(kept, k, cutoff);
      } else {
        var i :| 0 <= i < |gone| && |gone| + |records| - maxRecords <= i && gone[i].ts >= cutoff;
        assert kept[i - lost] == gone[i];
        WithinLoses(kept, k, i - lost, cutoff);
      }
    }

    /** Records emitted in the order of their timestamps never break a scan. */
    lemma OrderedIsUnbroken(cutoff: int)
      requires Valid() && Sorted(History())
      ensures Unbroken(records, cutoff)
    {
      assert records == History()[|gone|..];
      SortedIsUnbroken(records, cutoff);
    }

    /** The answer is the whole history cut to the last `maxRecords` and filtered by age exactly when the window
        was spared. With a window no longer than the age cap that is so unless another thread has pruned
        with a later clock than `now`. */
    method GetRecords(since: int, now: int) returns (r: seq<Record>)
      requires Valid()
      ensures r == Within(records, now - since)
      ensures forall x :: x in r <==> x in records && x.ts >= now - since
      ensures r == Within(Kept(), now - since) <==> Spared(now - since)
      ensures maxAge <= 0 || clock - maxAge <= now - since ==> r == Within(Kept(), now - since)
    {
      r := Within(records, now - since);
      WithinMeans(records, now - since);
      SparedExactly(now - since);
      if maxAge <= 0 || clock - maxAge <= now - since { LostIsOld(now - since); }
    }

    /** The newest error inside the window, scanning back. The early exit is right exactly when no record
        after that error is older than the window; ordered timestamps are enough for that. */
    method MostRecentError(since: Option<int>, now: int) returns (r: Option<Record>)
      requires Valid()
      ensures since.None? ==> r == LastError(records)
      ensures since.Some? ==>
                (r == LastError(Within(records, now - since.value)) <==> Unbroken(records, now - since.value))
      ensures since.Some? && (maxAge <= 0 || clock - maxAge <= now - since.value || Spared(now - since.value)) ==>
                (r == LastError(Within(Kept(), now - since.value)) <==> Unbroken(records, now - since.value))
    {
      if since.None? {
        r := ScanBack(records, None);
        return;
      }
      var cutoff := now - since.value;
      r := ScanBack(records, Some(cutoff));
      assert maxAge <= 0 || clock - maxAge <= cutoff || Spared(cutoff) ==>
          Within(records, cutoff) == Within(Kept(), cutoff) by {
        SparedExactly(cutoff);
        if maxAge <= 0 || clock - maxAge <= cutoff { LostIsOld(cutoff); }
      }
    }
  }

  /** A reader takes the time, 4; before it gets the lock another thread prunes at 10 and drops a record that the
      reader's window of 5 still contains. */
  method LateReaderMisses() returns (ring: RingBuffer, r: seq<Record>)
    ensures fresh(ring) && ring.Valid() && ring.maxAge == 5
    ensures r == Within(ring.records, 4 - 5) && r != Within(ring.Kept(), 4 - 5)
  {
    ring := new RingBuffer(10, 5, 0);
    ring.Emit(Record(0, 0, ""), 0);
    ring.Emit(Record(10, 0, ""), 10);
    assert ring.History()[0] == Record(0, 0, "") && |ring.History()| == 2;
    assert ring.gone != [] && ring.gone[0] == ring.History()[0];
    assert !ring.Spared(4 - 5);
    r := ring.GetRecords(5, 4);
  }

  // ---------------------------------------------------------------- the scan

  predicate IsHit(record: Record, cutoff: int) {
    record.level >= ERROR && record.ts >= cutoff
  }

  predicate IsLastHit(records: seq<Record>, cutoff: int, i: int) {
    0 <= i < |records| && IsHit(records[i], cutoff) && forall k :: i < k < |records| ==> !IsHit(records[k], cutoff)
  }

  /** Every record after the last error inside the window is inside the window too. */
  ghost predicate Unbroken(records: seq<Record>, cutoff: int) {
    forall i :: IsLastHit(records, cutoff, i) ==> forall j :: i < j < |records| ==> records[j].ts >= cutoff
  }

  lemma SortedIsUnbroken(records: seq<Record>, cutoff: int)
    requires Sorted(records)
    ensures Unbroken(records, cutoff)
  {
  }

  lemma {:induction false} WithinGrows(records: seq<Record>, record: Record, cutoff: int)
    ensures Within(records + [record], cutoff) ==
            Within(records, cutoff) + if record.ts >= cutoff then [record] else []
  {
    if records == [] {
      assert [] + [record] == [record] && [record][1..] == [];
    } else {
      WithinGrows(records[1..], record, cutoff);
      assert (records + [record])[1..] == records[1..] + [record];
    }
  }

  lemma ErrorGrows(records: seq<Record>, record: Record, cutoff: int)
    ensures LastError(Within(records + [record], cutoff)) ==
            if IsHit(record, cutoff) then Some(record) else LastError(Within(records, cutoff))
  {
    WithinGrows(records, record, cutoff);
    var window := Within(records, cutoff);
    if record.ts >= cutoff {
      assert (window + [record])[..|window|] == window;
    } else {
      assert window + [] == window;
    }
  }

  lemma {:induction false} WindowError(records: seq<Record>, cutoff: int, i: int)
    requires IsLastHit(records, cutoff, i)
    ensures LastError(Within(records, cutoff)) == Some(records[i])
    decreases |records|
  {
    var before, last := records[..|records| - 1], records[|records| - 1];
    assert records == before + [last];
    ErrorGrows(before, last, cutoff);
    if i < |before| {
      assert IsLastHit(before, cutoff, i);
      WindowError(before, cutoff, i);
    }
  }

  lemma {:induction false} NoWindowError(records: seq<Record>, cutoff: int)
    requires forall k :: 0 <= k < |records| ==> !IsHit(records[k], cutoff)
    ensures LastError(Within(records, cutoff)) == None
    decreases |records|
  {
    if records != [] {
      var before, last := records[..|records| - 1], records[|records| - 1];
      assert records == before + [last];
      assert forall k :: 0 <= k < |before| ==> before[k] == records[k];
      ErrorGrows(before, last, cutoff);
      NoWindowError(before, cutoff);
    }
  }

  lemma {:induction false} LastHitExists(records: seq<Record>, cutoff: int, n: nat) returns (i: int)
    requires n <= |records| && forall k :: n <= k < |records| ==> !IsHit(records[k], cutoff)
    ensures i == -1 ==> forall k :: 0 <= k < |records| ==> !IsHit(records[k], cutoff)
    ensures i != -1 ==> IsLastHit(records, cutoff, i) && i < n
    decreases n
  {
    if n == 0 {
      i := -1;
    } else if IsHit(records[n - 1], cutoff) {
      i := n - 1;
    } else {
      i := LastHitExists(records, cutoff, n - 1);
    }
  }

  /** The scan came back to `n` without meeting an error or an old record, and stops there. */
  lemma ScanDecides(records: seq<Record>, n: nat, cutoff: int)
    requires n <= |records|
    requires forall j :: n <= j < |records| ==> records[j].ts >= cutoff && records[j].level < ERROR
    ensures n > 0 && IsHit(records[n - 1], cutoff) ==>
              LastError(Within(records, cutoff)) == Some(records[n - 1]) && Unbroken(records, cutoff)
    ensures n == 0 || records[n - 1].ts < cutoff ==>
              (LastError(Within(records, cutoff)) == None <==> Unbroken(records, cutoff))
  {
    var i := LastHitExists(records, cutoff, n);
    if i == -1 {
      NoWindowError(records, cutoff);
    } else {
      WindowError(records, cutoff, i);
      if i == n - 1 {
        assert forall k :: IsLastHit(records, cutoff, k) ==> k == i;
      } else {
        assert i < n - 1;
        assert records[n - 1].ts < cutoff ==> !Unbroken(records, cutoff);
      }
    }
  }

  /** The scan of `most_recent_error`: newest first, stopping at the first record before the cutoff. */
  method ScanBack(records: seq<Record>, cutoff: Option<int>) returns (r: Option<Record>)
    ensures cutoff.None? ==> r == LastError(records)
    ensures cutoff.Some? ==> (r == LastError(Within(records, cutoff.value)) <==> Unbroken(records, cutoff.value))
    ensures r.Some? ==> r.value in records && r.value.level >= 40 && (cutoff.Some? ==> r.value.ts >= cutoff.value)
    ensures r.None? && cutoff.None? ==> forall i :: 0 <= i < |records| ==> records[i].level < 40
  {
    var i := |records|;
    while i > 0 && !(cutoff.Some? && records[i - 1].ts < cutoff.value) && records[i - 1].level < ERROR
      invariant 0 <= i <= |records|
      invariant cutoff.Some? ==> forall j :: i <= j < |records| ==> records[j].ts >= cutoff.value
      invariant forall j :: i <= j < |records| ==> records[j].level < ERROR
    {
      i := i - 1;
    }
    QuietTail(records, i);
    if cutoff.Some? { ScanDecides(records, i, cutoff.value); }
    if i == 0 || (cutoff.Some? && records[i - 1].ts < cutoff.value) {
      return None;
    }
    return Some(records[i - 1]);
  }

  lemma {:induction false} QuietTail(records: seq<Record>, n: nat)
    requires n <= |records| && forall j :: n <= j < |records| ==> records[j].level < ERROR
    ensures LastError(records) == LastError(records[..n])
    decreases |records|
  {
    if n == |records| {
      assert records[..n] == records;
    } else {
      QuietTail(records[..|records| - 1], n);
      assert records[..|records| - 1][..n] == records[..n];
    }
  }

  /** Two threads whose records arrive out of order: the older one hides the error before it. */
  lemma OldRecordBreaks()
    ensures var records := [Record(10, ERROR, ""), Record(5, 0, "")];
            !Unbroken(records, 8) && LastError(Within(records, 8)) == Some(records[0])
  {
    var records := [Record(10, ERROR, ""), Record(5, 0, "")];
    assert IsLastHit(records, 8, 0) && records[1].ts < 8;
    WindowError(records, 8, 0);
  }
}
