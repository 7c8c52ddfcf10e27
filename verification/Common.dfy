/**
 Notions that several parts of the model share.
 */
module Common {
  datatype Option<T> = None | Some(value: T)

  datatype Result<T, E> = Ok(value: T) | Err(error: E)

  function Bit(b: bool): nat {
    if b then 1 else 0
  }

  predicate Distinct(ids: seq<nat>) {
    forall i, j :: 0 <= i < j < |ids| ==> ids[i] != ids[j]
  }

  lemma DistinctTail(ids: seq<nat>)
    requires Distinct(ids) && ids != []
    ensures Distinct(ids[1..]) && ids[0] !in ids[1..] && forall x :: x in ids[1..] ==> x in ids
  {
  }

  /** A number above all of `ids`. */
  lemma {:induction false} FreeId(ids: set<nat>) returns (p: nat)
    ensures forall q :: q in ids ==> q < p
    decreases |ids|
  {
    if ids == {} {
      p := 0;
    } else {
      var q :| q in ids;
      p := FreeId(ids - {q});
      assert forall r :: r in ids ==> r == q || r in ids - {q};
      p := if p <= q then q + 1 else p;
    }
  }
}
