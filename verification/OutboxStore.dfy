/** The outbox table and the two functions workers call on it. */
module OutboxStore {
  import opened Sql
  import opened Batches
  import opened Outbox

  class Store {
    var rows: Rows

    constructor ()
      ensures rows == []
    {
      rows := [];
    }

    /** An event is recorded as part of the transaction that caused it. */
    method Insert(occurredAt: int)
      modifies this
      ensures rows == Next(old(rows), Record(occurredAt))
    {
      rows := rows + [Event(occurredAt, None, None, None, 0, None, None, None, occurredAt)];
    }

    method ClaimOutbox(worker: Option<string>, limit: Option<int>, now: int) returns (claimed: seq<nat>)
      modifies this
      ensures claimed == Due(old(rows), limit, now)
      ensures rows == Claim(old(rows), worker, limit, now)
    {
      claimed := Due(rows, limit, now);
      for i := 0 to |claimed|
        invariant |rows| == |old(rows)|
        invariant rows == Mark(old(rows), claimed[..i], HandOut(worker, now))
      {
        assert claimed[..i + 1][..i] == claimed[..i];
        var id := claimed[i];
        DueIsEligible(old(rows), limit, now, id);
        rows := rows[id := Handed(rows[id], worker, now)];
      }
      assert claimed[..|claimed|] == claimed;
    }

    /** Answers true, or NULL when no row matched. */
    method FinishOutbox(id: nat, worker: Option<string>, published: Bool3, error: Option<string>, retryAt: Option<int>,
                        dead: Bool3, now: int) returns (r: Bool3)
      modifies this
      ensures rows == Finish(old(rows), id, worker, published, error, retryAt, dead, now)
      ensures r == if FinishMatches(old(rows), id, worker) then Some(true) else None
    {
      r := None;
      if id < |rows| && IsTrue(Equals3(rows[id].lockedBy, worker)) {
        var e := rows[id];
        if IsTrue(published) { e := e.(publishedAt := Some(now)); }
        if IsTrue(dead) { e := e.(discardedAt := Some(now)); }
        e := e.(nextAttemptAt := if IsTrue(published) || IsTrue(dead) then None else retryAt);
        e := e.(error := if IsTrue(published) then None else Left(error, 2048));
        rows := rows[id := e.(lockedAt := None, lockedBy := None, updatedAt := now)];
        r := Some(true);
      }
    }
  }
}
