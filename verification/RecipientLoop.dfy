/**
 The delivery loop over a run's recipients, run without interference: who is attempted, what the
 ledger gains, and what the returned flag means.
 */
module RecipientLoop {
  import opened Common
  import opened ReportEngine
  import Mail = ReportDelivery

  function Attempt(run: nat, r: nat, accepted: bool): Delivery {
    Delivery(run, r, if accepted then Sent else NotSent, accepted)
  }

  /** What a pass appends to a ledger that stood at `rows`: one row per recipient without a `sent` row, in
      list order. */
  function Pass(rows: seq<Delivery>, run: nat, recipients: seq<nat>, accepts: nat -> bool): seq<Delivery> {
    if recipients == [] then []
    else
      var before, r := Pass(rows, run, recipients[..|recipients| - 1], accepts), recipients[|recipients| - 1];
      if IsSent(rows, run, r) then before else before + [Attempt(run, r, accepts(r))]
  }

  class DeliveryLedger {
    var rows: seq<Delivery>

    constructor ()
      ensures rows == []
    {
      rows := [];
    }

    /** `accepts` is the provider's answer for each recipient of this pass. */
    method DeliverToRecipients(run: nat, recipients: seq<nat>, accepts: nat -> bool) returns (allSent: bool)
      modifies this
      ensures rows == old(rows) + Pass(old(rows), run, recipients, accepts)
      ensures allSent <==> forall r :: r in recipients ==> IsSent(rows, run, r)
      ensures allSent <==> forall r :: r in recipients ==> IsSent(old(rows), run, r) || accepts(r)
      ensures forall r :: IsSent(rows, run, r) <==> IsSent(old(rows), run, r) || (r in recipients && accepts(r))
      ensures Recorded(rows[|old(rows)|..], run)
    {
      var before := rows;
      allSent := true;
      for i := 0 to |recipients|
        invariant rows == before + Pass(before, run, recipients[..i], accepts)
        invariant Recorded(Pass(before, run, recipients[..i], accepts), run)
        invariant forall r :: IsSent(rows, run, r) <==> IsSent(before, run, r) || (r in recipients[..i] && accepts(r))
        invariant allSent <==> forall r :: r in recipients[..i] ==> IsSent(before, run, r) || accepts(r)
      {
        var rec := recipients[i];
        assert recipients[..i + 1] == recipients[..i] + [rec];
        PassAppend(before, run, recipients[..i], rec, accepts);
        if !IsSent(before, run, rec) {
          var row := Attempt(run, rec, accepts(rec));
          forall r: nat
            ensures IsSent(rows + [row], run, r) <==> IsSent(rows, run, r) || (r == rec && accepts(rec))
          {
            Mail.AppendSent(rows, row, run, r);
          }
          rows := rows + [row];
          assert rows == before + Pass(before, run, recipients[..i + 1], accepts);
          if row.status != Sent { allSent := false; }
        }
      }
      assert recipients[..|recipients|] == recipients;
      assert rows[|before|..] == Pass(before, run, recipients, accepts);
    }
  }

  /** Rows of one run whose provider id is kept exactly when they were sent. */
  ghost predicate Recorded(rows: seq<Delivery>, run: nat) {
    forall i :: 0 <= i < |rows| ==> rows[i].run == run && (rows[i].tracked <==> rows[i].status == Sent)
  }

  lemma PassAppend(rows: seq<Delivery>, run: nat, recipients: seq<nat>, r: nat, accepts: nat -> bool)
    ensures Pass(rows, run, recipients + [r], accepts) ==
            Pass(rows, run, recipients, accepts) + (if IsSent(rows, run, r) then [] else [Attempt(run, r, accepts(r))])
  {
    assert (recipients + [r])[..|recipients|] == recipients;
    var before := Pass(rows, run, recipients, accepts);
    assert before + [] == before;
  }

  /** A pass holds a row exactly for the recipients that the ledger does not show as sent, `sent` and with a
      provider id if the provider accepted the mail, and failed otherwise. */
  lemma {:induction false} PassAttempts(rows: seq<Delivery>, run: nat, recipients: seq<nat>, accepts: nat -> bool,
                                        d: Delivery)
    ensures d in Pass(rows, run, recipients, accepts) <==>
            && d.run == run && d.recipient in recipients && !IsSent(rows, run, d.recipient)
            && d.status == (if accepts(d.recipient) then Sent else NotSent) && d.tracked == accepts(d.recipient)
  {
    if recipients != [] {
      var before, r := recipients[..|recipients| - 1], recipients[|recipients| - 1];
      PassAttempts(rows, run, before, accepts, d);
      assert recipients == before + [r];
    }
  }
}
