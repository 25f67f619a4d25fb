/** The outbox: events are handed out to workers in batches under a two-minute lock. */
module Outbox {
  import opened Sql
  import opened Batches

  /** Two minutes, in microseconds. */
  const LOCK_TIMEOUT := 2 * 60 * 1_000_000

  datatype Event = Event(
    occurredAt: int,
    publishedAt: Option<int>,
    discardedAt: Option<int>,
    nextAttemptAt: Option<int>,
    attempts: nat,
    error: Option<string>,
    lockedAt: Option<int>,
    lockedBy: Option<string>,
    updatedAt: int)

  predicate Closed(e: Event) {
    e.publishedAt.Some? || e.discardedAt.Some?
  }

  /** Events are keyed by position. */
  type Rows = seq<Event>

  predicate Eligible(e: Event, now: int) {
    && !Closed(e)
    && (e.nextAttemptAt == None || e.nextAttemptAt.value <= now)
    && (e.lockedAt == None || e.lockedAt.value < now - LOCK_TIMEOUT)
  }

  function IsReady(now: int): Event -> bool {
    (e: Event) => Eligible(e, now)
  }

  function Ready(rows: Rows, now: int): seq<bool> {
    Flags(rows, IsReady(now))
  }

  function Times(rows: Rows): seq<int> {
    Column(rows, (e: Event) => e.occurredAt)
  }

  /** The events one claim hands out, `ORDER BY occurred_at, id`. */
  function Due(rows: Rows, limit: Option<int>, now: int): seq<nat> {
    Batch(Ready(rows, now), Times(rows), limit)
  }

  function Handed(e: Event, worker: Option<string>, now: int): Event {
    e.(lockedAt := Some(now), lockedBy := Left(worker, 128), attempts := e.attempts + 1, error := None)
  }

  function HandOut(worker: Option<string>, now: int): Event -> Event {
    (e: Event) => Handed(e, worker, now)
  }

  function Claim(rows: Rows, worker: Option<string>, limit: Option<int>, now: int): Rows {
    Mark(rows, Due(rows, limit, now), HandOut(worker, now))
  }

  predicate FinishMatches(rows: Rows, id: nat, worker: Option<string>) {
    id < |rows| && IsTrue(Equals3(rows[id].lockedBy, worker))
  }

  function Finished(e: Event, published: Bool3, error: Option<string>, retryAt: Option<int>, dead: Bool3,
                    now: int): Event {
    e.(publishedAt := if IsTrue(published) then Some(now) else e.publishedAt,
       discardedAt := if IsTrue(dead) then Some(now) else e.discardedAt,
       nextAttemptAt := if IsTrue(Or3(published, dead)) then None else retryAt,
       error := if IsTrue(published) then None else Left(error, 2048),
       lockedAt := None, lockedBy := None, updatedAt := now)
  }

  function Finish(rows: Rows, id: nat, worker: Option<string>, published: Bool3, error: Option<string>,
                  retryAt: Option<int>, dead: Bool3, now: int): Rows {
    if FinishMatches(rows, id, worker)
    then rows[id := Finished(rows[id], published, error, retryAt, dead, now)] else rows
  }

  datatype Step =
    | Record(occurredAt: int)
    | ClaimStep(worker: Option<string>, limit: Option<int>, now: int)
    | FinishStep(id: nat, worker: Option<string>, published: Bool3, error: Option<string>, retryAt: Option<int>,
                 dead: Bool3, now: int)

  function Next(rows: Rows, s: Step): Rows {
    match s
    case Record(at) => rows + [Event(at, None, None, None, 0, None, None, None, at)]
    case ClaimStep(worker, limit, now) => Claim(rows, worker, limit, now)
    case FinishStep(id, worker, published, error, retryAt, dead, now) =>
      Finish(rows, id, worker, published, error, retryAt, dead, now)
  }

  function Run(rows: Rows, steps: seq<Step>): Rows {
    if steps == [] then rows else Next(Run(rows, steps[..|steps| - 1]), steps[|steps| - 1])
  }

  // ----- The history of one event

  /** Observed of one event: it was in a batch handed to a worker, or a finish was accepted. */
  datatype Seen =
    | HandedOut(holder: Option<string>, at: int)
    | Returned(worker: Option<string>, published: bool, dead: bool, error: Option<string>, retryAt: Option<int>,
               at: int)

  predicate Closes(e: Seen) {
    e.Returned? && (e.published || e.dead)
  }

  function Observed(rows: Rows, s: Step, i: nat): seq<Seen> {
    if i >= |rows| then []
    else match s
      case Record(_) => []
      case ClaimStep(worker, limit, now) =>
        if i in Due(rows, limit, now) then [HandedOut(Left(worker, 128), now)] else []
      case FinishStep(id, worker, published, error, retryAt, dead, now) =>
        if id == i && FinishMatches(rows, id, worker)
        then [Returned(worker, published == Some(true), dead == Some(true), error, retryAt, now)] else []
  }

  function History(rows: Rows, steps: seq<Step>, i: nat): seq<Seen> {
    if steps == [] then []
    else History(rows, steps[..|steps| - 1], i) + Observed(Run(rows, steps[..|steps| - 1]), steps[|steps| - 1], i)
  }

  /** The time before which the worker that last returned the event does not want it handed out. */
  function RetryTime(history: seq<Seen>): Option<int> {
    if history == [] then None
    else
      var last := history[|history| - 1];
      if last.HandedOut? then RetryTime(history[..|history| - 1]) else if Closes(last) then None else last.retryAt
  }

  predicate Waited(history: seq<Seen>, now: int) {
    RetryTime(history) == None || RetryTime(history).value <= now
  }

  /** Handed out again only more than two minutes later or after it was returned open, and not before the time it
      was returned with; returned only by the worker it was last handed to. */
  predicate Allowed(history: seq<Seen>, e: Seen) {
    if history == [] then e.HandedOut?
    else
      var last := history[|history| - 1];
      match e
      case HandedOut(_, at) =>
        Waited(history, at) && if last.HandedOut? then at - last.at > LOCK_TIMEOUT else !Closes(last)
      case Returned(worker, _, _, _, _, _) => last.HandedOut? && worker.Some? && worker == last.holder
  }

  predicate Legal(history: seq<Seen>) {
    history == [] ||
    (Legal(history[..|history| - 1]) && Allowed(history[..|history| - 1], history[|history| - 1]))
  }

  /** How often the event was returned, and how often it was handed out while still locked. */
  function Returns(history: seq<Seen>): nat {
    if history == [] then 0
    else Returns(history[..|history| - 1]) + if history[|history| - 1].Returned? then 1 else 0
  }

  function Takeovers(history: seq<Seen>): nat {
    if history == [] then 0
    else
      var init := history[..|history| - 1];
      Takeovers(init) + if history[|history| - 1].HandedOut? && Locked(init) then 1 else 0
  }

  predicate Locked(history: seq<Seen>) {
    history != [] && history[|history| - 1].HandedOut?
  }

  /** What became of the event when it was last returned; handing it out clears the error. */
  predicate Outcome(history: seq<Seen>, e: Event) {
    if history == [] || history[|history| - 1].HandedOut? then
      e.error == None && e.publishedAt == None && e.discardedAt == None
    else
      var last := history[|history| - 1];
      && e.error == (if last.published then None else Left(last.error, 2048))
      && e.publishedAt == (if last.published then Some(last.at) else None)
      && e.discardedAt == (if last.dead then Some(last.at) else None)
  }

  /** The row as its history tells it: the ledger of attempts, the lock, the time of the next attempt, and how it was
      last returned. */
  predicate Explains(history: seq<Seen>, e: Event) {
    && e.attempts == Returns(history) + Takeovers(history) + (if Locked(history) then 1 else 0)
    && (e.lockedAt.Some? <==> Locked(history))
    && (e.lockedBy.Some? ==> Locked(history))
    && (Locked(history) ==>
          e.lockedAt == Some(history[|history| - 1].at) && e.lockedBy == history[|history| - 1].holder)
    && (Closed(e) <==> history != [] && Closes(history[|history| - 1]))
    && e.nextAttemptAt == RetryTime(history) && Outcome(history, e)
  }

  lemma ExtendHistory(history: seq<Seen>, e: Seen)
    requires Legal(history) && Allowed(history, e)
    ensures Legal(history + [e])
    ensures Returns(history + [e]) == Returns(history) + if e.Returned? then 1 else 0
    ensures Takeovers(history + [e]) == Takeovers(history) + if e.HandedOut? && Locked(history) then 1 else 0
    ensures RetryTime(history + [e]) ==
      if e.HandedOut? then RetryTime(history) else if Closes(e) then None else e.retryAt
  {
    assert (history + [e])[..|history + [e]| - 1] == history;
  }

  lemma DueIsEligible(rows: Rows, limit: Option<int>, now: int, i: nat)
    requires i in Due(rows, limit, now)
    ensures i < |rows| && Eligible(rows[i], now)
  {
    FlagsAre(rows, IsReady(now));
    BatchIsReady(Ready(rows, now), Times(rows), limit, i);
  }

  /** A claim locks every event of its batch, once, and changes nothing else. */
  lemma ClaimEffect(rows: Rows, worker: Option<string>, limit: Option<int>, now: int, i: nat)
    requires i < |rows|
    ensures |Claim(rows, worker, limit, now)| == |rows|
    ensures Claim(rows, worker, limit, now)[i] ==
      if i in Due(rows, limit, now) then Handed(rows[i], worker, now) else rows[i]
  {
    BatchHasNoRepeats(Ready(rows, now), Times(rows), limit);
    MarkEffect(rows, Due(rows, limit, now), HandOut(worker, now), i);
  }

  lemma HandOutExtends(e: Event, worker: Option<string>, now: int, history: seq<Seen>)
    requires Legal(history) && Explains(history, e) && Eligible(e, now)
    ensures Legal(history + [HandedOut(Left(worker, 128), now)])
    ensures Explains(history + [HandedOut(Left(worker, 128), now)], Handed(e, worker, now))
  {
    ExtendHistory(history, HandedOut(Left(worker, 128), now));
  }

  lemma ClaimExtends(rows: Rows, worker: Option<string>, limit: Option<int>, now: int, i: nat, history: seq<Seen>)
    requires i < |rows| && Legal(history) && Explains(history, rows[i])
    ensures var s := ClaimStep(worker, limit, now);
      && |Claim(rows, worker, limit, now)| == |rows|
      && Legal(history + Observed(rows, s, i))
      && Explains(history + Observed(rows, s, i), Claim(rows, worker, limit, now)[i])
  {
    ClaimEffect(rows, worker, limit, now, i);
    if i in Due(rows, limit, now) {
      DueIsEligible(rows, limit, now, i);
      HandOutExtends(rows[i], worker, now, history);
    } else {
      assert history + [] == history;
    }
  }

  lemma FinishExtends(rows: Rows, s: Step, i: nat, history: seq<Seen>)
    requires s.FinishStep? && i < |rows| && Legal(history) && Explains(history, rows[i])
    ensures Legal(history + Observed(rows, s, i))
    ensures Explains(history + Observed(rows, s, i), Next(rows, s)[i])
  {
    if s.id == i && FinishMatches(rows, i, s.worker) {
      ExtendHistory(history, Observed(rows, s, i)[0]);
    } else {
      assert history + [] == history;
    }
  }

  lemma StepExtends(rows: Rows, s: Step, i: nat, history: seq<Seen>)
    requires i < |rows| && Legal(history) && Explains(history, rows[i])
    ensures i < |Next(rows, s)| && Legal(history + Observed(rows, s, i))
    ensures Explains(history + Observed(rows, s, i), Next(rows, s)[i])
  {
    match s
    case Record(_) => assert history + [] == history;
    case ClaimStep(worker, limit, now) => ClaimExtends(rows, worker, limit, now, i, history);
    case FinishStep(_, _, _, _, _, _, _) => FinishExtends(rows, s, i, history);
  }

  lemma RowsStay(rows: Rows, s: Step)
    ensures |rows| <= |Next(rows, s)|
  {
    if s.ClaimStep? { MarkKeepsCount(rows, Due(rows, s.limit, s.now), HandOut(s.worker, s.now)); }
  }

  lemma {:induction false} NoHistoryBefore(rows: Rows, steps: seq<Step>, i: nat)
    requires |Run(rows, steps)| <= i
    ensures History(rows, steps, i) == []
  {
    if steps != [] {
      var init, s := steps[..|steps| - 1], steps[|steps| - 1];
      RowsStay(Run(rows, init), s);
      NoHistoryBefore(rows, init, i);
    }
  }

  lemma NewRow(rows: Rows, s: Step, i: nat)
    requires |rows| <= i < |Next(rows, s)|
    ensures Observed(rows, s, i) == [] && Explains([], Next(rows, s)[i])
  {
    if s.ClaimStep? { MarkKeepsCount(rows, Due(rows, s.limit, s.now), HandOut(s.worker, s.now)); }
  }

  /** On every run from an empty outbox, each event's history is legal and explains its row: attempts
      equal returns plus takeovers plus one while locked, and a closed event is unlocked. */
  lemma {:induction false} LedgerBalances(steps: seq<Step>, i: nat)
    requires i < |Run([], steps)|
    ensures Legal(History([], steps, i)) && Explains(History([], steps, i), Run([], steps)[i])
  {
    var init, s := steps[..|steps| - 1], steps[|steps| - 1];
    var rows := Run([], init);
    if i < |rows| {
      LedgerBalances(init, i);
      StepExtends(rows, s, i, History([], init, i));
    } else {
      NoHistoryBefore([], init, i);
      NewRow(rows, s, i);
    }
  }

  lemma {:induction false} LegalAt(history: seq<Seen>, k: nat)
    requires Legal(history) && k < |history|
    ensures Allowed(history[..k], history[k])
  {
    if k < |history| - 1 {
      LegalAt(history[..|history| - 1], k);
      assert history[..|history| - 1][..k] == history[..k];
    }
  }

  /** No event is handed out twice within two minutes unless it was returned in between, nor before the time it was
      returned with, and nothing happens to a closed event any more. */
  lemma HandedOutOnce(steps: seq<Step>, i: nat, k: nat)
    requires i < |Run([], steps)| && k + 1 < |History([], steps, i)|
    ensures var h := History([], steps, i);
      && (h[k].HandedOut? && h[k + 1].HandedOut? ==> h[k + 1].at - h[k].at > LOCK_TIMEOUT)
      && (h[k].Returned? ==> !Closes(h[k]) && h[k + 1].HandedOut?)
      && (h[k + 1].HandedOut? ==> Waited(h[..k + 1], h[k + 1].at))
  {
    var h := History([], steps, i);
    LedgerBalances(steps, i);
    LegalAt(h, k + 1);
    assert h[..k + 1][|h[..k + 1]| - 1] == h[k];
  }

  /** And an event is up for claiming exactly when it is open, the time it was returned with has come, and it is not
      locked or was locked more than two minutes ago. */
  lemma EligibleIff(steps: seq<Step>, i: nat, now: int)
    requires i < |Run([], steps)|
    ensures var h := History([], steps, i);
      Eligible(Run([], steps)[i], now) <==>
        && (h != [] ==> !Closes(h[|h| - 1])) && Waited(h, now)
        && (Locked(h) ==> now - h[|h| - 1].at > LOCK_TIMEOUT)
  {
    LedgerBalances(steps, i);
  }

  lemma ClosedStays(rows: Rows, s: Step, i: nat)
    requires i < |rows| && Closed(rows[i]) && rows[i].lockedBy == None
    ensures i < |Next(rows, s)| && Next(rows, s)[i] == rows[i]
  {
    if s.ClaimStep? {
      ClaimEffect(rows, s.worker, s.limit, s.now, i);
      if i in Due(rows, s.limit, s.now) { DueIsEligible(rows, s.limit, s.now, i); }
    }
  }

  /** A published or discarded event is never changed again, in any column. */
  lemma {:induction false} ClosedIsForever(rows: Rows, steps: seq<Step>, i: nat)
    requires i < |rows| && Closed(rows[i]) && rows[i].lockedBy == None
    ensures i < |Run(rows, steps)| && Run(rows, steps)[i] == rows[i]
  {
    if steps != [] {
      var init, s := steps[..|steps| - 1], steps[|steps| - 1];
      ClosedIsForever(rows, init, i);
      ClosedStays(Run(rows, init), s, i);
    }
  }

  /** So a published or discarded event is unlocked, on every run, and is never touched again. */
  lemma ClosedIsFinal(before: seq<Step>, after: seq<Step>, i: nat)
    requires i < |Run([], before)| && Closed(Run([], before)[i])
    ensures var e := Run([], before)[i];
      && e.lockedAt == None && e.lockedBy == None
      && i < |Run(Run([], before), after)| && Run(Run([], before), after)[i] == e
  {
    LedgerBalances(before, i);
    ClosedIsForever(Run([], before), after, i);
  }

  /** A worker can finish what it claimed exactly when it gave a name that survives truncation. */
  lemma FinishableIff(rows: Rows, worker: Option<string>, limit: Option<int>, now: int, i: nat)
    requires i in Due(rows, limit, now)
    ensures FinishMatches(Claim(rows, worker, limit, now), i, worker) <==> worker.Some? && |worker.value| <= 128
  {
    DueIsEligible(rows, limit, now, i);
    ClaimEffect(rows, worker, limit, now, i);
    if worker.Some? && |worker.value| > 128 { assert |worker.value[..128]| == 128; }
  }
}
