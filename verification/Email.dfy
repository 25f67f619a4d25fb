/** Email delivery: intents are claimed in batches, finished by their holder, and moved by the
    provider's own notifications at any moment. */
module Email {
  import opened Sql
  import opened Batches

  const LOCK_TIMEOUT := 2 * 60 * 1_000_000

  datatype State = Pending | Sending | Sent | Delivered | Retryable | Bounced | Complained | Failed

  datatype Intent = Intent(
    createdAt: int,
    state: State,
    provider: Option<string>,
    messageId: Option<string>,
    nextAttemptAt: Option<int>,
    attempts: nat,
    lastError: Option<string>,
    lockedAt: Option<int>,
    lockedBy: Option<string>,
    deliveredAt: Option<int>,
    bouncedAt: Option<int>,
    complainedAt: Option<int>,
    terminalAt: Option<int>,
    updatedAt: int)

  type Rows = seq<Intent>

  /** A notification that was recorded, and what came of it. */
  datatype Receipt = Receipt(kind: string, messageId: Option<string>, digest: string, processed: bool)

  datatype Mail = Mail(rows: Rows, receipts: map<string, Receipt>)

  function NewIntent(now: int): Intent {
    Intent(now, Pending, None, None, None, 0, None, None, None, None, None, None, None, now)
  }

  // ----- Claim

  predicate Queued(e: Intent) {
    e.state == Pending || e.state == Retryable
  }

  predicate Eligible(e: Intent, now: int) {
    && Queued(e)
    && (e.nextAttemptAt == None || e.nextAttemptAt.value <= now)
    && (e.lockedAt == None || e.lockedAt.value < now - LOCK_TIMEOUT)
  }

  function IsReady(now: int): Intent -> bool {
    (e: Intent) => Eligible(e, now)
  }

  function Ready(rows: Rows, now: int): seq<bool> {
    Flags(rows, IsReady(now))
  }

  function Times(rows: Rows): seq<int> {
    Column(rows, (e: Intent) => e.createdAt)
  }

  /** The intents one claim hands out, `ORDER BY created_at, id`. */
  function Due(rows: Rows, limit: Option<int>, now: int): seq<nat> {
    Batch(Ready(rows, now), Times(rows), limit)
  }

  function Taken(e: Intent, worker: Option<string>, now: int): Intent {
    e.(state := Sending, lockedAt := Some(now), lockedBy := Left(worker, 128), attempts := e.attempts + 1,
       lastError := None)
  }

  function TakeUp(worker: Option<string>, now: int): Intent -> Intent {
    (e: Intent) => Taken(e, worker, now)
  }

  function Claim(rows: Rows, worker: Option<string>, limit: Option<int>, now: int): Rows {
    Mark(rows, Due(rows, limit, now), TakeUp(worker, now))
  }

  // ----- Finish

  datatype Report = Report(result: Option<string>, provider: Option<string>, messageId: Option<string>,
                           error: Option<string>, retryAt: Option<int>)

  function ResultState(text: string): Option<State> {
    if text == "sent" then Some(Sent)
    else if text == "delivered" then Some(Delivered)
    else if text == "retryable" then Some(Retryable)
    else if text == "failed" then Some(Failed)
    else None
  }

  predicate FinishMatches(rows: Rows, id: nat, worker: Option<string>) {
    id < |rows| && IsTrue(Equals3(rows[id].lockedBy, worker))
  }

  /** Another intent already carries this message id: the unique index refuses it. */
  predicate MessageTaken(rows: Rows, id: nat, messageId: Option<string>) {
    messageId.Some? && exists j :: 0 <= j < |rows| && j != id && rows[j].messageId == messageId
  }

  /** An unknown result is refused at once. A NULL result slips past that check, and is refused by the
      state column only if a row is updated. */
  predicate FinishRaises(rows: Rows, id: nat, worker: Option<string>, report: Report) {
    || (report.result.Some? && ResultState(report.result.value) == None)
    || (FinishMatches(rows, id, worker) && (report.result == None || MessageTaken(rows, id, report.messageId)))
  }

  function Finished(e: Intent, state: State, report: Report, now: int): Intent {
    e.(state := state,
       provider := Left(report.provider, 32),
       messageId := if report.messageId.Some? then report.messageId else e.messageId,
       nextAttemptAt := if state == Retryable then report.retryAt else None,
       deliveredAt := if state == Delivered then Some(now) else e.deliveredAt,
       terminalAt := if state == Failed then Some(now) else e.terminalAt,
       lastError := if state == Sent || state == Delivered then None else Left(report.error, 2048),
       lockedAt := None, lockedBy := None, updatedAt := now)
  }

  /** A finish that takes effect, and the state it leaves. */
  function Outcome(rows: Rows, id: nat, worker: Option<string>, report: Report): Option<State> {
    if report.result.Some? && FinishMatches(rows, id, worker) && !FinishRaises(rows, id, worker, report)
    then ResultState(report.result.value) else None
  }

  function Finish(rows: Rows, id: nat, worker: Option<string>, report: Report, now: int): Rows {
    match Outcome(rows, id, worker, report)
    case Some(state) => if id < |rows| then rows[id := Finished(rows[id], state, report, now)] else rows
    case None => rows
  }

  // ----- Notifications from the provider

  datatype Notice = Notice(id: Option<string>, kind: Option<string>, digest: Option<string>, messageId: Option<string>)

  function NoticeState(kind: string): Option<State> {
    if kind == "email.sent" || kind == "email.delivery_delayed" then Some(Sent)
    else if kind == "email.delivered" then Some(Delivered)
    else if kind == "email.bounced" then Some(Bounced)
    else if kind == "email.complained" then Some(Complained)
    else if kind == "email.failed" || kind == "email.suppressed" then Some(Failed)
    else None
  }

  /** Unsupported, or refused by a column of the receipts table. */
  predicate NoticeRaises(n: Notice) {
    || n.kind == None || NoticeState(n.kind.value) == None
    || n.id == None
    || n.digest == None || |n.digest.value| > 71
  }

  function FindMessage(rows: Rows, messageId: Option<string>): (r: Option<nat>)
    ensures r.Some? ==> r.value < |rows| && messageId.Some? && rows[r.value].messageId == messageId
    ensures r == None && messageId.Some? ==> forall i :: 0 <= i < |rows| ==> rows[i].messageId != messageId
  {
    if rows == [] || messageId == None then None
    else
      var n := |rows| - 1;
      var r := FindMessage(rows[..n], messageId);
      if r == None && rows[n].messageId == messageId then Some(n) else r
  }

  function Notified(e: Intent, state: State, now: int): Intent {
    e.(state := state,
       deliveredAt := if state == Delivered then Some(now) else e.deliveredAt,
       bouncedAt := if state == Bounced then Some(now) else e.bouncedAt,
       complainedAt := if state == Complained then Some(now) else e.complainedAt,
       terminalAt := if state == Bounced || state == Complained || state == Failed then Some(now) else e.terminalAt,
       updatedAt := now)
  }

  function ReceiptId(n: Notice): string
    requires n.id.Some?
  {
    Left(n.id, 128).value
  }

  /** The intent a notification moves: none if it is refused, was seen before, or matches nothing. */
  function Target(m: Mail, n: Notice): (r: Option<nat>)
    ensures r.Some? ==> r.value < |m.rows| && m.rows[r.value].messageId.Some? && !NoticeRaises(n)
  {
    if NoticeRaises(n) || ReceiptId(n) in m.receipts then None else FindMessage(m.rows, n.messageId)
  }

  function Notify(m: Mail, n: Notice, now: int): Mail {
    if NoticeRaises(n) || ReceiptId(n) in m.receipts then m
    else
      var receipt := Receipt(n.kind.value, Left(n.messageId, 128), n.digest.value, Target(m, n).Some?);
      match Target(m, n)
      case None => m.(receipts := m.receipts[ReceiptId(n) := receipt])
      case Some(i) =>
        Mail(m.rows[i := Notified(m.rows[i], NoticeState(n.kind.value).value, now)],
             m.receipts[ReceiptId(n) := receipt])
  }

  // ----- Runs

  datatype Step =
    | Record(now: int)
    | ClaimStep(worker: Option<string>, limit: Option<int>, now: int)
    | FinishStep(id: nat, worker: Option<string>, report: Report, now: int)
    | NotifyStep(notice: Notice, now: int)

  function Next(m: Mail, s: Step): Mail {
    match s
    case Record(now) => m.(rows := m.rows + [NewIntent(now)])
    case ClaimStep(worker, limit, now) => m.(rows := Claim(m.rows, worker, limit, now))
    case FinishStep(id, worker, report, now) => m.(rows := Finish(m.rows, id, worker, report, now))
    case NotifyStep(n, now) => Notify(m, n, now)
  }

  function Run(m: Mail, steps: seq<Step>): Mail {
    if steps == [] then m else Next(Run(m, steps[..|steps| - 1]), steps[|steps| - 1])
  }

  const EMPTY := Mail([], map[])

  // ----- What claims and finishes do to one row

  lemma DueIsEligible(rows: Rows, limit: Option<int>, now: int, i: nat)
    requires i in Due(rows, limit, now)
    ensures i < |rows| && Eligible(rows[i], now)
  {
    FlagsAre(rows, IsReady(now));
    BatchIsReady(Ready(rows, now), Times(rows), limit, i);
  }

  lemma ClaimEffect(rows: Rows, worker: Option<string>, limit: Option<int>, now: int, i: nat)
    requires i < |rows|
    ensures |Claim(rows, worker, limit, now)| == |rows|
    ensures Claim(rows, worker, limit, now)[i] ==
      if i in Due(rows, limit, now) then Taken(rows[i], worker, now) else rows[i]
  {
    BatchHasNoRepeats(Ready(rows, now), Times(rows), limit);
    MarkEffect(rows, Due(rows, limit, now), TakeUp(worker, now), i);
  }

  /** A worker can finish what it claimed exactly when it gave a name that survives truncation. */
  lemma FinishableIff(rows: Rows, worker: Option<string>, limit: Option<int>, now: int, i: nat)
    requires i in Due(rows, limit, now)
    ensures FinishMatches(Claim(rows, worker, limit, now), i, worker) <==> worker.Some? && |worker.value| <= 128
  {
    DueIsEligible(rows, limit, now, i);
    ClaimEffect(rows, worker, limit, now, i);
    if worker.Some? && |worker.value| > 128 { assert |worker.value[..128]| == 128; }
  }
}
