/** A lone worker drains the outbox in the order the events occurred. */
module OutboxDrain {
  import opened Sql
  import opened Sorting
  import opened Batches
  import opened Outbox

  /** All claimable events, oldest first. */
  function Waiting(rows: Rows, now: int): seq<nat> {
    Backlog(Ready(rows, now), Times(rows))
  }

  lemma WaitingHas(rows: Rows, now: int, i: nat)
    ensures i in Waiting(rows, now) <==> i < |rows| && Eligible(rows[i], now)
  {
    FlagsAre(rows, IsReady(now));
    BacklogHas(Ready(rows, now), Times(rows), i);
  }

  /** Every open event is unlocked and due. */
  predicate AllReady(rows: Rows, now: int) {
    forall i :: 0 <= i < |rows| && !Closed(rows[i]) ==>
      rows[i].lockedAt == None && (rows[i].nextAttemptAt == None || rows[i].nextAttemptAt.value <= now)
  }

  function Published(e: Event, now: int): Event {
    Finished(e, Some(true), None, None, Some(false), now)
  }

  /** The worker publishes the events of its batch one by one, in the order they were returned in. */
  function PublishAll(rows: Rows, ids: seq<nat>, worker: Option<string>, now: int): Rows
    decreases |ids|
  {
    if ids == [] then rows
    else PublishAll(Finish(rows, ids[0], worker, Some(true), None, None, Some(false), now), ids[1..], worker, now)
  }

  /** One claim, and a successful finish of everything it returned. PostgreSQL promises nothing about the
      order in which the claimed rows come back. */
  function Round(rows: Rows, returned: seq<nat>, worker: Option<string>, limit: Option<int>, now: int): Rows {
    PublishAll(Claim(rows, worker, limit, now), returned, worker, now)
  }

  ghost predicate Shuffled(ids: seq<nat>, batch: seq<nat>) {
    multiset(ids) == multiset(batch)
  }

  lemma {:induction false} PublishAllEffect(rows: Rows, ids: seq<nat>, worker: Option<string>, now: int)
    requires NoRepeats(ids) && forall i :: i in ids ==> FinishMatches(rows, i, worker)
    ensures |PublishAll(rows, ids, worker, now)| == |rows|
    ensures forall i: nat :: i < |rows| ==>
      PublishAll(rows, ids, worker, now)[i] == if i in ids then Published(rows[i], now) else rows[i]
    decreases |ids|
  {
    if ids != [] {
      var next := Finish(rows, ids[0], worker, Some(true), None, None, Some(false), now);
      assert ids[0] !in ids[1..] && ids == [ids[0]] + ids[1..];
      assert ids[0] in ids;
      forall i | i in ids[1..] ensures FinishMatches(next, i, worker) {
        assert i in ids && FinishMatches(rows, i, worker);
      }
      PublishAllEffect(next, ids[1..], worker, now);
    }
  }

  lemma RoundEffect(rows: Rows, returned: seq<nat>, worker: string, limit: Option<int>, now: int)
    requires |worker| <= 128 && Shuffled(returned, Due(rows, limit, now))
    ensures var r, batch := Round(rows, returned, Some(worker), limit, now), Due(rows, limit, now);
      && |r| == |rows|
      && forall i: nat :: i < |rows| ==>
           r[i] == if i in batch then Published(Handed(rows[i], Some(worker), now), now) else rows[i]
  {
    var claimed, batch := Claim(rows, Some(worker), limit, now), Due(rows, limit, now);
    SameElements(returned, batch);
    BatchHasNoRepeats(Ready(rows, now), Times(rows), limit);
    NoRepeatsCounts(batch);
    CountsNoRepeats(returned);
    MarkKeepsCount(rows, batch, HandOut(Some(worker), now));
    forall i: nat | i < |rows|
      ensures claimed[i] == if i in batch then Handed(rows[i], Some(worker), now) else rows[i]
    {
      ClaimEffect(rows, Some(worker), limit, now, i);
    }
    forall i | i in batch ensures FinishMatches(claimed, i, Some(worker)) {
      FinishableIff(rows, Some(worker), limit, now, i);
    }
    PublishAllEffect(claimed, returned, Some(worker), now);
  }

  predicate Drops(ids: seq<nat>, batch: seq<nat>, rest: seq<nat>, k: nat) {
    ids == batch + rest && |batch| == if |ids| <= k then |ids| else k
  }

  lemma RestIsWhatIsLeft(at: seq<int>, batch: seq<nat>, rest: seq<nat>, i: nat)
    requires StrictlySorted(Earlier(at), batch + rest)
    ensures i in rest <==> i in batch + rest && i !in batch
  {
    if i in batch {
      var a :| 0 <= a < |batch| && batch[a] == i;
      forall b | 0 <= b < |rest| ensures rest[b] != i {
        assert Earlier(at)((batch + rest)[a], (batch + rest)[|batch| + b]);
      }
    }
  }

  /** What a round leaves claimable is what was claimable and not in the batch. */
  lemma RoundLeaves(rows: Rows, returned: seq<nat>, worker: string, limit: Option<int>, now: int, later: int, i: nat)
    requires |worker| <= 128 && Shuffled(returned, Due(rows, limit, now))
    requires AllReady(rows, now) && now <= later
    ensures i in Waiting(Round(rows, returned, Some(worker), limit, now), later)
      <==> i in Waiting(rows, now) && i !in Due(rows, limit, now)
  {
    RoundEffect(rows, returned, worker, limit, now);
    WaitingHas(rows, now, i);
    WaitingHas(Round(rows, returned, Some(worker), limit, now), later, i);
    if i in Due(rows, limit, now) { DueIsEligible(rows, limit, now, i); }
  }

  lemma SameTimes(rows: Rows, others: Rows)
    requires |rows| == |others| && forall i :: 0 <= i < |rows| ==> rows[i].occurredAt == others[i].occurredAt
    ensures Times(rows) == Times(others)
  {
    SameColumn(rows, others, (e: Event) => e.occurredAt);
  }

  lemma RoundKeepsReady(rows: Rows, returned: seq<nat>, worker: string, limit: Option<int>, now: int, later: int)
    requires |worker| <= 128 && Shuffled(returned, Due(rows, limit, now))
    requires AllReady(rows, now) && now <= later
    ensures AllReady(Round(rows, returned, Some(worker), limit, now), later)
    ensures Times(Round(rows, returned, Some(worker), limit, now)) == Times(rows)
  {
    RoundEffect(rows, returned, worker, limit, now);
    SameTimes(Round(rows, returned, Some(worker), limit, now), rows);
  }

  /** One round hands out the oldest events and leaves exactly the rest of the backlog, in order. */
  lemma RoundTakesOldest(rows: Rows, returned: seq<nat>, worker: string, limit: Option<int>, now: int, later: int)
    requires |worker| <= 128 && Shuffled(returned, Due(rows, limit, now))
    requires AllReady(rows, now) && now <= later
    ensures Drops(Waiting(rows, now), Due(rows, limit, now),
                  Waiting(Round(rows, returned, Some(worker), limit, now), later), BatchSize(limit))
  {
    var batch, all := Due(rows, limit, now), Waiting(rows, now);
    var rest, left := all[|batch|..], Waiting(Round(rows, returned, Some(worker), limit, now), later);
    var at := Times(rows);
    RoundKeepsReady(rows, returned, worker, limit, now, later);
    BacklogSorted(Ready(rows, now), Times(rows));
    var after := Round(rows, returned, Some(worker), limit, now);
    BacklogSorted(Ready(after, later), Times(after));
    assert all == batch + rest;
    forall i: nat ensures i in rest <==> i in left {
      RoundLeaves(rows, returned, worker, limit, now, later, i);
      RestIsWhatIsLeft(at, batch, rest, i);
    }
    EarlierIsTotal(at);
    StrictlySortedUnique(Earlier(at), rest, left);
  }

  /** One turn of the worker: when it was, and its batch in the order the database returned it. */
  datatype Turn = Turn(returned: seq<nat>, now: int)

  function After(rows: Rows, turn: Turn, worker: string, limit: Option<int>): Rows {
    Round(rows, turn.returned, Some(worker), limit, turn.now)
  }

  function Turns(rows: Rows, turns: seq<Turn>, worker: string, limit: Option<int>): Rows {
    if turns == [] then rows
    else After(Turns(rows, turns[..|turns| - 1], worker, limit), turns[|turns| - 1], worker, limit)
  }

  /** Every turn returns the batch of its moment, in any order, and no turn is earlier than the last. */
  ghost predicate Working(rows: Rows, turns: seq<Turn>, worker: string, limit: Option<int>, start: int) {
    turns == [] ||
    (&& Working(rows, turns[..|turns| - 1], worker, limit, start)
     && Ends(turns[..|turns| - 1], start) <= turns[|turns| - 1].now
     && Shuffled(turns[|turns| - 1].returned,
                 Due(Turns(rows, turns[..|turns| - 1], worker, limit), limit, turns[|turns| - 1].now)))
  }

  function Ends(turns: seq<Turn>, start: int): int {
    if turns == [] then start else turns[|turns| - 1].now
  }

  /** What comes after the first `n` elements. */
  function From(ids: seq<nat>, n: nat): seq<nat> {
    if n <= |ids| then ids[n..] else []
  }

  /** How many events so many full batches hold. */
  function Taken(turns: nat, limit: Option<int>): nat {
    if turns == 0 then 0 else Taken(turns - 1, limit) + BatchSize(limit)
  }

  lemma {:induction false} TakenIsProduct(turns: nat, limit: Option<int>)
    ensures Taken(turns, limit) == turns * BatchSize(limit)
  {
    if turns > 0 { TakenIsProduct(turns - 1, limit); }
  }

  lemma DropsFrom(ids: seq<nat>, n: nat, k: nat, batch: seq<nat>, rest: seq<nat>)
    requires Drops(From(ids, n), batch, rest, k)
    ensures batch == Until(From(ids, n), k) && rest == From(ids, n + k)
  {
  }

  lemma OneMoreTurn(ids: seq<nat>, n: nat, before: Rows, turn: Turn, worker: string, limit: Option<int>, later: int)
    requires |worker| <= 128 && Shuffled(turn.returned, Due(before, limit, turn.now)) && turn.now <= later
    requires AllReady(before, turn.now) && Waiting(before, turn.now) == From(ids, n)
    ensures AllReady(After(before, turn, worker, limit), later)
    ensures Waiting(After(before, turn, worker, limit), later) == From(ids, n + BatchSize(limit))
  {
    RoundKeepsReady(before, turn.returned, worker, limit, turn.now, later);
    RoundTakesOldest(before, turn.returned, worker, limit, turn.now, later);
    DropsFrom(ids, n, BatchSize(limit), Due(before, limit, turn.now),
              Waiting(After(before, turn, worker, limit), later));
  }

  /** After any number of turns, what is left to publish is the backlog without its first
      `k` events per turn, and nothing waits for a lock or a retry time. */
  lemma {:induction false} TurnsTakeOldest(rows: Rows, turns: seq<Turn>, worker: string, limit: Option<int>, start: int,
                                           later: int)
    requires |worker| <= 128 && AllReady(rows, start) && Working(rows, turns, worker, limit, start)
    requires Ends(turns, start) <= later
    ensures AllReady(Turns(rows, turns, worker, limit), later)
    ensures Waiting(Turns(rows, turns, worker, limit), later) == From(Waiting(rows, start), Taken(|turns|, limit))
  {
    if turns == [] {
      ReadyStays(rows, start, later);
    } else {
      var init, turn := turns[..|turns| - 1], turns[|turns| - 1];
      var before := Turns(rows, init, worker, limit);
      TurnsTakeOldest(rows, init, worker, limit, start, turn.now);
      OneMoreTurn(Waiting(rows, start), Taken(|init|, limit), before, turn, worker, limit, later);
    }
  }

  lemma ReadyStays(rows: Rows, start: int, later: int)
    requires AllReady(rows, start) && start <= later
    ensures AllReady(rows, later) && Waiting(rows, later) == From(Waiting(rows, start), 0)
  {
    BacklogSorted(Ready(rows, start), Times(rows));
    BacklogSorted(Ready(rows, later), Times(rows));
    forall i: nat ensures i in Waiting(rows, start) <==> i in Waiting(rows, later) {
      WaitingHas(rows, start, i);
      WaitingHas(rows, later, i);
    }
    EarlierIsTotal(Times(rows));
    StrictlySortedUnique(Earlier(Times(rows)), Waiting(rows, start), Waiting(rows, later));
  }

  /** Turn `j` hands out exactly the `j`-th run of `k` events of the original backlog: publishing follows
      (occurred_at, id) from turn to turn. */
  lemma TurnsFollowOrder(rows: Rows, turns: seq<Turn>, worker: string, limit: Option<int>, start: int)
    requires |worker| <= 128 && AllReady(rows, start) && Working(rows, turns, worker, limit, start) && turns != []
    ensures Shuffled(turns[|turns| - 1].returned,
                     Until(From(Waiting(rows, start), Taken(|turns| - 1, limit)), BatchSize(limit)))
  {
    var init, turn := turns[..|turns| - 1], turns[|turns| - 1];
    TurnsTakeOldest(rows, init, worker, limit, start, turn.now);
  }

  /** `ceil(n / k)`. */
  function RoundsFor(n: nat, limit: Option<int>): nat {
    (n + BatchSize(limit) - 1) / BatchSize(limit)
  }

  lemma TimesMonotonic(a: int, b: int, k: nat)
    requires a <= b
    ensures a * k <= b * k
  {
    assert b * k - a * k == (b - a) * k;
  }

  lemma Ceiling(n: nat, k: nat, t: nat, q: int, r: nat)
    requires r < k && n + k - 1 == q * k + r
    ensures t * k >= n <==> t >= q
  {
    if t >= q {
      TimesMonotonic(q, t, k);
    } else {
      TimesMonotonic(t, q - 1, k);
      assert (q - 1) * k == q * k - k;
    }
  }

  lemma RoundsCover(n: nat, limit: Option<int>, turns: nat)
    ensures Taken(turns, limit) >= n <==> turns >= RoundsFor(n, limit)
  {
    TakenIsProduct(turns, limit);
    var k := BatchSize(limit);
    Ceiling(n, k, turns, (n + k - 1) / k, (n + k - 1) % k);
  }

  /** A backlog of `n` events is published after exactly `ceil(n / k)` turns and not before. */
  lemma DrainsInRounds(rows: Rows, turns: seq<Turn>, worker: string, limit: Option<int>, start: int)
    requires |worker| <= 128 && AllReady(rows, start) && Working(rows, turns, worker, limit, start)
    ensures AllClosed(Turns(rows, turns, worker, limit)) <==> |turns| >= RoundsFor(|Waiting(rows, start)|, limit)
  {
    var r, now := Turns(rows, turns, worker, limit), Ends(turns, start);
    TurnsTakeOldest(rows, turns, worker, limit, start, now);
    NothingLeft(r, now);
    RoundsCover(|Waiting(rows, start)|, limit, |turns|);
  }

  lemma NothingLeft(rows: Rows, now: int)
    requires AllReady(rows, now)
    ensures AllClosed(rows) <==> |Waiting(rows, now)| == 0
  {
    if |Waiting(rows, now)| == 0 {
      forall i: nat | i < |rows| ensures Closed(rows[i]) { WaitingHas(rows, now, i); }
    } else {
      WaitingHas(rows, now, Waiting(rows, now)[0]);
    }
  }

  predicate AllClosed(rows: Rows) {
    forall i :: 0 <= i < |rows| ==> Closed(rows[i])
  }
}
