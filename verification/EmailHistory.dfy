/** Every email has at most one holder, whatever the provider reports meanwhile. */
module EmailHistory {
  import opened Sql
  import opened Batches
  import opened Email

  /** Observed of one intent. */
  datatype Seen =
    | Claimed(holder: Option<string>, at: int)
    | Closed(worker: Option<string>, result: State, retryAt: Option<int>)
    | Moved(result: State)

  function Observed(m: Mail, s: Step, i: nat): seq<Seen> {
    if i >= |m.rows| then []
    else match s
      case Record(_) => []
      case ClaimStep(worker, limit, now) =>
        if i in Due(m.rows, limit, now) then [Claimed(Left(worker, 128), now)] else []
      case FinishStep(id, worker, report, _) =>
        (match Outcome(m.rows, id, worker, report)
         case Some(state) => if id == i then [Closed(worker, state, report.retryAt)] else []
         case None => [])
      case NotifyStep(n, _) =>
        if Target(m, n) == Some(i) then [Moved(NoticeState(n.kind.value).value)] else []
  }

  function History(m: Mail, steps: seq<Step>, i: nat): seq<Seen> {
    if steps == [] then []
    else History(m, steps[..|steps| - 1], i) + Observed(Run(m, steps[..|steps| - 1]), steps[|steps| - 1], i)
  }

  /** Who holds the intent: the last claim, unless it was closed since. */
  function Holder(history: seq<Seen>): Option<Option<string>> {
    if history == [] then None
    else
      match history[|history| - 1]
      case Claimed(holder, _) => Some(holder)
      case Closed(_, _, _) => None
      case Moved(_) => Holder(history[..|history| - 1])
  }

  /** The time before which the last worker that closed the intent does not want it claimed. */
  function RetryTime(history: seq<Seen>): Option<int> {
    if history == [] then None
    else
      var last := history[|history| - 1];
      if last.Closed? then if last.result == Retryable then last.retryAt else None
      else RetryTime(history[..|history| - 1])
  }

  predicate Waited(history: seq<Seen>, now: int) {
    RetryTime(history) == None || RetryTime(history).value <= now
  }

  /** A claim comes first or right after a retryable close, and not before the time given there; a close comes from
      the named holder; the provider speaks only of intents that were closed at least once. */
  predicate Allowed(history: seq<Seen>, e: Seen) {
    match e
    case Claimed(_, at) => (history == [] || Retry(history[|history| - 1])) && Waited(history, at)
    case Closed(worker, result, _) =>
      worker.Some? && Holder(history) == Some(worker) && result in {Sent, Delivered, Retryable, Failed}
    case Moved(result) => Closes(history) > 0 && result !in {Pending, Sending, Retryable}
  }

  predicate Legal(history: seq<Seen>) {
    history == [] || (Legal(history[..|history| - 1]) && Allowed(history[..|history| - 1], history[|history| - 1]))
  }

  function Claims(history: seq<Seen>): nat {
    if history == [] then 0 else Claims(history[..|history| - 1]) + if history[|history| - 1].Claimed? then 1 else 0
  }

  function Closes(history: seq<Seen>): nat {
    if history == [] then 0 else Closes(history[..|history| - 1]) + if history[|history| - 1].Closed? then 1 else 0
  }

  predicate Retry(e: Seen) {
    e.Closed? && e.result == Retryable
  }

  function Retries(history: seq<Seen>): nat {
    if history == [] then 0 else Retries(history[..|history| - 1]) + if Retry(history[|history| - 1]) then 1 else 0
  }

  function StateAfter(history: seq<Seen>): State {
    if history == [] then Pending
    else
      match history[|history| - 1]
      case Claimed(_, _) => Sending
      case Closed(_, result, _) => result
      case Moved(result) => result
  }

  /** The row as its history tells it. */
  predicate Explains(history: seq<Seen>, e: Intent) {
    && e.state == StateAfter(history)
    && e.attempts == Claims(history) == Closes(history) + (if Holder(history).Some? then 1 else 0)
    && (e.lockedAt.Some? <==> Holder(history).Some?)
    && e.lockedBy == (if Holder(history).Some? then Holder(history).value else None)
    && (e.messageId.Some? ==> Closes(history) > 0) && e.nextAttemptAt == RetryTime(history)
  }

  lemma ExtendHistory(history: seq<Seen>, e: Seen)
    ensures Legal(history) && Allowed(history, e) ==> Legal(history + [e])
    ensures Claims(history + [e]) == Claims(history) + if e.Claimed? then 1 else 0
    ensures Closes(history + [e]) == Closes(history) + if e.Closed? then 1 else 0
    ensures StateAfter(history + [e]) == StateAfter([e])
    ensures Holder(history + [e]) == if e.Moved? then Holder(history) else Holder([e])
    ensures RetryTime(history + [e]) ==
      if !e.Closed? then RetryTime(history) else if e.result == Retryable then e.retryAt else None
  {
    assert (history + [e])[..|history + [e]| - 1] == history;
  }

  /** A queued intent has no holder: it was never claimed, or its last holder gave it back. */
  lemma QueuedIsFree(history: seq<Seen>, e: Intent)
    requires Legal(history) && Explains(history, e) && Queued(e)
    ensures e.lockedAt == None && e.lockedBy == None
    ensures history == [] || Retry(history[|history| - 1])
  {
  }

  lemma ClaimExtends(e: Intent, worker: Option<string>, now: int, history: seq<Seen>)
    requires Legal(history) && Explains(history, e) && Eligible(e, now)
    ensures Legal(history + [Claimed(Left(worker, 128), now)])
    ensures Explains(history + [Claimed(Left(worker, 128), now)], Taken(e, worker, now))
  {
    QueuedIsFree(history, e);
    ExtendHistory(history, Claimed(Left(worker, 128), now));
  }

  lemma CloseExtends(e: Intent, worker: string, state: State, report: Report, now: int, history: seq<Seen>)
    requires Legal(history) && Explains(history, e) && e.lockedBy == Some(worker)
    requires state in {Sent, Delivered, Retryable, Failed}
    ensures Legal(history + [Closed(Some(worker), state, report.retryAt)])
    ensures Explains(history + [Closed(Some(worker), state, report.retryAt)], Finished(e, state, report, now))
  {
    ExtendHistory(history, Closed(Some(worker), state, report.retryAt));
  }

  lemma MoveExtends(e: Intent, state: State, now: int, history: seq<Seen>)
    requires Legal(history) && Explains(history, e) && e.messageId.Some? && state !in {Pending, Sending, Retryable}
    ensures Legal(history + [Moved(state)])
    ensures Explains(history + [Moved(state)], Notified(e, state, now))
  {
    ExtendHistory(history, Moved(state));
  }

  lemma ClaimStepExtends(m: Mail, s: Step, i: nat, history: seq<Seen>)
    requires s.ClaimStep? && i < |m.rows| && Legal(history) && Explains(history, m.rows[i])
    ensures i < |Next(m, s).rows| && Legal(history + Observed(m, s, i))
    ensures Explains(history + Observed(m, s, i), Next(m, s).rows[i])
  {
    ClaimEffect(m.rows, s.worker, s.limit, s.now, i);
    if i in Due(m.rows, s.limit, s.now) {
      DueIsEligible(m.rows, s.limit, s.now, i);
      ClaimExtends(m.rows[i], s.worker, s.now, history);
    } else {
      assert history + [] == history;
    }
  }

  lemma FinishStepExtends(m: Mail, s: Step, i: nat, history: seq<Seen>)
    requires s.FinishStep? && i < |m.rows| && Legal(history) && Explains(history, m.rows[i])
    ensures i < |Next(m, s).rows| && Legal(history + Observed(m, s, i))
    ensures Explains(history + Observed(m, s, i), Next(m, s).rows[i])
  {
    var outcome := Outcome(m.rows, s.id, s.worker, s.report);
    if outcome.Some? && s.id == i {
      CloseExtends(m.rows[i], s.worker.value, outcome.value, s.report, s.now, history);
    } else {
      assert history + [] == history;
    }
  }

  lemma NotifyStepExtends(m: Mail, s: Step, i: nat, history: seq<Seen>)
    requires s.NotifyStep? && i < |m.rows| && Legal(history) && Explains(history, m.rows[i])
    ensures i < |Next(m, s).rows| && Legal(history + Observed(m, s, i))
    ensures Explains(history + Observed(m, s, i), Next(m, s).rows[i])
  {
    if Target(m, s.notice) == Some(i) {
      MoveExtends(m.rows[i], NoticeState(s.notice.kind.value).value, s.now, history);
    } else {
      assert history + [] == history;
    }
  }

  lemma StepExtends(m: Mail, s: Step, i: nat, history: seq<Seen>)
    requires i < |m.rows| && Legal(history) && Explains(history, m.rows[i])
    ensures i < |Next(m, s).rows| && Legal(history + Observed(m, s, i))
    ensures Explains(history + Observed(m, s, i), Next(m, s).rows[i])
  {
    match s
    case Record(_) => assert history + [] == history;
    case ClaimStep(_, _, _) => ClaimStepExtends(m, s, i, history);
    case FinishStep(_, _, _, _) => FinishStepExtends(m, s, i, history);
    case NotifyStep(_, _) => NotifyStepExtends(m, s, i, history);
  }

  lemma NewRow(m: Mail, s: Step, i: nat)
    requires |m.rows| <= i < |Next(m, s).rows|
    ensures Observed(m, s, i) == [] && Explains([], Next(m, s).rows[i])
  {
    if s.ClaimStep? { MarkKeepsCount(m.rows, Due(m.rows, s.limit, s.now), TakeUp(s.worker, s.now)); }
  }

  lemma RowsStay(m: Mail, s: Step)
    ensures |m.rows| <= |Next(m, s).rows|
  {
    if s.ClaimStep? { MarkKeepsCount(m.rows, Due(m.rows, s.limit, s.now), TakeUp(s.worker, s.now)); }
  }

  lemma {:induction false} NoHistoryBefore(m: Mail, steps: seq<Step>, i: nat)
    requires |Run(m, steps).rows| <= i
    ensures History(m, steps, i) == []
  {
    if steps != [] {
      var init, s := steps[..|steps| - 1], steps[|steps| - 1];
      RowsStay(Run(m, init), s);
      NoHistoryBefore(m, init, i);
    }
  }

  /** On every run, with notifications arriving at any moment, each intent's history is legal and
      explains its row. */
  lemma {:induction false} HistoryIsLegal(steps: seq<Step>, i: nat)
    requires i < |Run(EMPTY, steps).rows|
    ensures Legal(History(EMPTY, steps, i)) && Explains(History(EMPTY, steps, i), Run(EMPTY, steps).rows[i])
  {
    var init, s := steps[..|steps| - 1], steps[|steps| - 1];
    var m := Run(EMPTY, init);
    if i < |m.rows| {
      HistoryIsLegal(init, i);
      StepExtends(m, s, i, History(EMPTY, init, i));
    } else {
      NoHistoryBefore(EMPTY, init, i);
      NewRow(m, s, i);
    }
  }

  /** Pending and retryable intents are unlocked and sending ones are locked, in every reachable state. So the
      two-minute clause of the claim never decides anything. */
  lemma SingleHolder(steps: seq<Step>, i: nat, now: int)
    requires i < |Run(EMPTY, steps).rows|
    ensures var e := Run(EMPTY, steps).rows[i];
      && (Queued(e) ==> e.lockedAt == None && e.lockedBy == None)
      && (e.state == Sending ==> e.lockedAt.Some?)
      && (e.lockedBy.Some? ==> e.lockedAt.Some?)
      && (Eligible(e, now) <==> Queued(e) && (e.nextAttemptAt == None || e.nextAttemptAt.value <= now))
  {
    var h, e := History(EMPTY, steps, i), Run(EMPTY, steps).rows[i];
    HistoryIsLegal(steps, i);
    if Queued(e) { QueuedIsFree(h, e); }
  }

  /** An intent is up for claiming exactly when it is new or was given back for retry, and the time it was given back
      with has come. */
  lemma ClaimableIff(steps: seq<Step>, i: nat, now: int)
    requires i < |Run(EMPTY, steps).rows|
    ensures var h := History(EMPTY, steps, i);
      Eligible(Run(EMPTY, steps).rows[i], now) <==> (h == [] || Retry(h[|h| - 1])) && Waited(h, now)
  {
    SingleHolder(steps, i, now);
    HistoryIsLegal(steps, i);
    var h := History(EMPTY, steps, i);
    if h != [] { LegalAt(h, |h| - 1); }
  }

  lemma {:induction false} LegalClaims(history: seq<Seen>)
    requires Legal(history)
    ensures Claims(history) <= Retries(history) + if history == [] || Retry(history[|history| - 1]) then 0 else 1
  {
    if history != [] { LegalClaims(history[..|history| - 1]); }
  }

  /** An intent is claimed at most once more than it was given back as retryable. */
  lemma ClaimsAreBounded(steps: seq<Step>, i: nat)
    requires i < |Run(EMPTY, steps).rows|
    ensures Run(EMPTY, steps).rows[i].attempts == Claims(History(EMPTY, steps, i))
    ensures Claims(History(EMPTY, steps, i)) <= 1 + Retries(History(EMPTY, steps, i))
  {
    HistoryIsLegal(steps, i);
    LegalClaims(History(EMPTY, steps, i));
  }

  lemma {:induction false} LegalAt(history: seq<Seen>, k: nat)
    requires Legal(history) && k < |history|
    ensures Legal(history[..k]) && Allowed(history[..k], history[k])
  {
    if k < |history| - 1 {
      LegalAt(history[..|history| - 1], k);
      assert history[..|history| - 1][..k] == history[..k];
    } else {
      assert history[..k] == history[..|history| - 1];
    }
  }

  /** Between two claims of an intent, the first claim's own holder closed it as retryable, and the second came no
      earlier than that holder asked for. */
  lemma ReclaimNeedsRetry(steps: seq<Step>, i: nat, a: nat, b: nat)
    requires i < |Run(EMPTY, steps).rows|
    requires var h := History(EMPTY, steps, i);
      && a < b < |h| && h[a].Claimed? && h[b].Claimed?
      && forall k :: a < k < b ==> !h[k].Claimed?
    ensures var h := History(EMPTY, steps, i);
      && a + 1 < b && Retry(h[b - 1]) && h[b - 1].worker == h[a].holder
      && (h[b - 1].retryAt == None || h[b - 1].retryAt.value <= h[b].at)
  {
    var history := History(EMPTY, steps, i);
    HistoryIsLegal(steps, i);
    LegalAt(history, b);
    LegalAt(history, b - 1);
    assert history[..b][b - 1] == history[b - 1] && history[..b][..b - 1] == history[..b - 1];
    HolderSince(history[..b - 1], a);
  }

  lemma {:induction false} HolderSince(history: seq<Seen>, a: nat)
    requires a < |history| && history[a].Claimed? && forall k :: a < k < |history| ==> !history[k].Claimed?
    ensures Holder(history) == None || Holder(history) == Some(history[a].holder)
    decreases |history|
  {
    if a < |history| - 1 && history[|history| - 1].Moved? {
      HolderSince(history[..|history| - 1], a);
    }
  }
}
