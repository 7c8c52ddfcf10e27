/**
 The keyset-paging driver of the cost backfill. Session ids are UUIDs read as numbers; the
 candidate set may change arbitrarily between chunks, because other writers keep working.
 */
module SessionBackfill {
  import opened Common

  const LAST_ID: nat := 0xFFFF_FFFF_FFFF_FFFF_FFFF_FFFF_FFFF_FFFF

  /** `ORDER BY session_id LIMIT limit` over the candidates above the cursor. */
  ghost predicate IsChunk(rows: seq<nat>, candidates: set<nat>, cursor: nat, limit: int) {
    && |rows| <= (if limit < 0 then 0 else limit)
    && (forall i :: 0 <= i < |rows| ==> cursor < rows[i] && rows[i] in candidates)
    && (forall i, j :: 0 <= i < j < |rows| ==> rows[i] < rows[j])
    && (forall id :: id in candidates && cursor < id && id !in rows ==>
          |rows| >= limit && forall i :: 0 <= i < |rows| ==> rows[i] < id)
  }

  function Above(candidates: set<nat>, cursor: nat): set<nat> {
    set id | id in candidates && cursor < id
  }

  lemma {:induction false} LeastExists(ids: set<nat>) returns (least: nat)
    requires ids != {}
    ensures least in ids && forall id :: id in ids ==> least <= id
    decreases |ids|
  {
    var x :| x in ids;
    var smaller := set id | id in ids && id < x;
    if smaller == {} {
      least := x;
      assert forall id :: id in ids ==> (id in smaller <==> id < x);
    } else {
      assert smaller < ids;
      SmallerSet(smaller, ids);
      least := LeastExists(smaller);
      assert forall id :: id in ids && id < x ==> id in smaller;
    }
  }

  lemma SmallerSet(a: set<nat>, b: set<nat>)
    requires a < b
    ensures |a| < |b|
  {
    assert |b - a| == |b| - |a|;
    assert b - a != {};
  }

  /** The chunk query. */
  method SelectChunk(candidates: set<nat>, cursor: nat, limit: int) returns (rows: seq<nat>)
    ensures IsChunk(rows, candidates, cursor, limit)
  {
    rows := [];
    var left := Above(candidates, cursor);
    while left != {} && |rows| < limit
      invariant left <= Above(candidates, cursor)
      invariant |rows| <= (if limit < 0 then 0 else limit)
      invariant forall i :: 0 <= i < |rows| ==> cursor < rows[i] && rows[i] in candidates
      invariant forall i, j :: 0 <= i < j < |rows| ==> rows[i] < rows[j]
      invariant forall id :: id in Above(candidates, cursor) ==> id in left || id in rows
      invariant forall id, i :: id in left && 0 <= i < |rows| ==> rows[i] < id
      decreases left
    {
      ghost var some := LeastExists(left);
      var least :| least in left && forall id :: id in left ==> least <= id;
      rows := rows + [least];
      left := left - {least};
    }
    forall id | id in candidates && cursor < id && id !in rows
      ensures |rows| >= limit && forall i :: 0 <= i < |rows| ==> rows[i] < id
    {
      assert id in Above(candidates, cursor);
    }
  }

  ghost predicate Ascending(ids: seq<nat>) {
    forall i, j :: 0 <= i < j < |ids| ==> ids[i] < ids[j]
  }

  /** `_run`: `candidates(n)` is what the n-th chunk query sees. The processed ids come back in order,
      with the number of chunks that were read. */
  method Backfill(candidates: nat -> set<nat>, batchSize: int, maxRows: Option<int>)
    returns (processed: seq<nat>, chunks: nat)
    requires forall n: nat, id: nat :: id in candidates(n) ==> id <= LAST_ID
    // each session at most once, in rising order, and only sessions that were candidates when read
    ensures Ascending(processed)
    ensures forall id :: id in processed ==> exists n: nat :: n < chunks && id in candidates(n)
    // never more rows than asked for
    ensures maxRows.Some? ==> |processed| <= (if maxRows.value < 0 then 0 else maxRows.value)
    // in chunks of at most the batch size
    ensures batchSize >= 0 ==> |processed| <= chunks * batchSize
    // a run that does not use up its rows reaches every non-nil row that stays a candidate throughout
    ensures (maxRows.None? || |processed| < maxRows.value) && batchSize > 0 ==>
              forall id :: id > 0 && (forall n: nat :: n < chunks ==> id in candidates(n)) ==> id in processed
  {
    processed, chunks := [], 0;
    var cursor: nat := 0;
    while true
      invariant Ascending(processed) && cursor <= LAST_ID
      invariant forall id :: id in processed ==> id <= cursor
      invariant forall id :: id in processed ==> exists n: nat :: n < chunks && id in candidates(n)
      invariant maxRows.Some? ==> |processed| <= (if maxRows.value < 0 then 0 else maxRows.value)
      invariant batchSize >= 0 ==> |processed| <= chunks * batchSize
      invariant batchSize > 0 ==>
                  forall id :: 0 < id <= cursor && (forall n: nat :: n < chunks ==> id in candidates(n)) ==>
                    id in processed
      decreases LAST_ID - cursor
    {
      if maxRows.Some? && |processed| >= maxRows.value {
        break;
      }
      var limit := batchSize;
      if maxRows.Some? && maxRows.value - |processed| < limit {
        limit := maxRows.value - |processed|;
      }
      var rows := SelectChunk(candidates(chunks), cursor, limit);
      chunks := chunks + 1;
      if rows == [] {
        break;
      }
      ghost var before := cursor;
      cursor := rows[|rows| - 1];
      ChunkAdvances(processed, rows, before);
      processed := processed + rows;
      forall id | 0 < id <= cursor && (forall n: nat :: n < chunks ==> id in candidates(n))
        ensures id in processed
      {
        if before < id { assert id in candidates(chunks - 1); }
      }
    }
  }

  lemma ChunkAdvances(processed: seq<nat>, rows: seq<nat>, cursor: nat)
    requires Ascending(processed) && Ascending(rows) && rows != []
    requires forall id :: id in processed ==> id <= cursor
    requires forall i :: 0 <= i < |rows| ==> cursor < rows[i]
    ensures Ascending(processed + rows)
    ensures forall id :: id in processed + rows ==> id <= rows[|rows| - 1]
  {
    assert forall i :: 0 <= i < |processed| ==> processed[i] in processed;
  }
}
