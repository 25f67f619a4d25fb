/** When an email is over: abandoned claims, and reports that can still be overwritten. */
module EmailEndings {
  import opened Sql
  import opened Batches
  import opened Email
  import opened EmailHistory

  // ----- A claim nobody finishes

  predicate Finishes(s: Step, i: nat, holder: Option<string>) {
    s.FinishStep? && s.id == i && holder.Some? && s.worker == holder
  }

  lemma StepKeepsHeld(m: Mail, s: Step, i: nat)
    requires i < |m.rows| && !Queued(m.rows[i]) && !Finishes(s, i, m.rows[i].lockedBy)
    ensures i < |Next(m, s).rows|
    ensures var e, f := m.rows[i], Next(m, s).rows[i];
      !Queued(f) && f.lockedAt == e.lockedAt && f.lockedBy == e.lockedBy && f.attempts == e.attempts
  {
    if s.ClaimStep? {
      ClaimEffect(m.rows, s.worker, s.limit, s.now, i);
      if i in Due(m.rows, s.limit, s.now) { DueIsEligible(m.rows, s.limit, s.now, i); }
    }
  }

  lemma {:induction false} HeldStaysHeld(m: Mail, steps: seq<Step>, i: nat)
    requires i < |m.rows| && !Queued(m.rows[i])
    requires forall k :: 0 <= k < |steps| ==> !Finishes(steps[k], i, m.rows[i].lockedBy)
    ensures i < |Run(m, steps).rows|
    ensures var e, f := m.rows[i], Run(m, steps).rows[i];
      !Queued(f) && f.lockedAt == e.lockedAt && f.lockedBy == e.lockedBy && f.attempts == e.attempts
  {
    if steps != [] {
      var init, s := steps[..|steps| - 1], steps[|steps| - 1];
      HeldStaysHeld(m, init, i);
      StepKeepsHeld(Run(m, init), s, i);
    }
  }

  /** An email whose holder never finishes it is never handed out again, however long ago it was locked. */
  lemma AbandonedIsNeverReclaimed(before: seq<Step>, after: seq<Step>, i: nat)
    requires i < |Run(EMPTY, before).rows| && Run(EMPTY, before).rows[i].lockedAt.Some?
    requires forall k :: 0 <= k < |after| ==> !Finishes(after[k], i, Run(EMPTY, before).rows[i].lockedBy)
    ensures i < |Run(Run(EMPTY, before), after).rows|
    ensures var e, f := Run(EMPTY, before).rows[i], Run(Run(EMPTY, before), after).rows[i];
      f.attempts == e.attempts && f.lockedAt == e.lockedAt && !Queued(f)
  {
    var e := Run(EMPTY, before).rows[i];
    SingleHolder(before, i, 0);
    HeldStaysHeld(Run(EMPTY, before), after, i);
  }

  // ----- Ways back into the queue

  predicate QueuedAfter(m: Mail, steps: seq<Step>, i: nat) {
    i < |Run(m, steps).rows| && Queued(Run(m, steps).rows[i])
  }

  /** An email out of the queue can return exactly while a named worker holds it: that worker's retryable finish
      overwrites whatever was reported, a bounce included. One claimed without a name never returns. */
  lemma ReportIsFinalIff(m: Mail, i: nat)
    requires i < |m.rows| && !Queued(m.rows[i])
    ensures (exists steps :: QueuedAfter(m, steps, i)) <==> m.rows[i].lockedBy.Some?
  {
    if m.rows[i].lockedBy.Some? {
      var s := FinishStep(i, m.rows[i].lockedBy, Report(Some("retryable"), None, None, None, None), 0);
      assert Run(m, [s]) == Next(Run(m, []), s);
      assert QueuedAfter(m, [s], i);
    } else {
      forall steps ensures !QueuedAfter(m, steps, i) { HeldStaysHeld(m, steps, i); }
    }
  }

  /** Nobody but `worker` finishes the email. */
  predicate FinishedOnlyBy(steps: seq<Step>, i: nat, worker: Option<string>) {
    forall k :: 0 <= k < |steps| && steps[k].FinishStep? && steps[k].id == i ==> steps[k].worker == worker
  }

  /** What a worker claimed can return to the queue through its own finishes exactly when it gave a name of at most 128
      characters; otherwise the email is stuck, since no timeout takes it back. */
  lemma ClaimerCanReturnIff(m: Mail, worker: Option<string>, limit: Option<int>, now: int, i: nat)
    requires i in Due(m.rows, limit, now)
    ensures var u := Next(m, ClaimStep(worker, limit, now));
      (exists steps :: FinishedOnlyBy(steps, i, worker) && QueuedAfter(u, steps, i)) <==>
        worker.Some? && |worker.value| <= 128
  {
    var u := Next(m, ClaimStep(worker, limit, now));
    DueIsEligible(m.rows, limit, now, i);
    ClaimEffect(m.rows, worker, limit, now, i);
    FinishableIff(m.rows, worker, limit, now, i);
    if worker.Some? && |worker.value| <= 128 {
      var s := FinishStep(i, worker, Report(Some("retryable"), None, None, None, None), 0);
      assert Run(u, [s]) == Next(Run(u, []), s);
      assert FinishedOnlyBy([s], i, worker) && QueuedAfter(u, [s], i);
    } else {
      forall steps | FinishedOnlyBy(steps, i, worker) ensures !QueuedAfter(u, steps, i) {
        HeldStaysHeld(u, steps, i);
      }
    }
  }

  lemma ClaimLone(m: Mail, worker: Option<string>)
    requires |m.rows| == 1 && Eligible(m.rows[0], 0)
    ensures Next(m, ClaimStep(worker, None, 0)) == m.(rows := [Taken(m.rows[0], worker, 0)])
  {
    var ready, at := Ready(m.rows, 0), Times(m.rows);
    FlagsAre(m.rows, IsReady(0));
    BacklogHas(ready, at, 0);
    BacklogHas(ready, at, Backlog(ready, at)[0]);
    assert Due(m.rows, None, 0)[0] == 0;
    ClaimEffect(m.rows, worker, None, 0, 0);
  }

  lemma GiveBackLone(m: Mail, worker: Option<string>, report: Report)
    requires |m.rows| == 1 && worker.Some? && m.rows[0].lockedBy == worker && report.result == Some("retryable")
    ensures Next(m, FinishStep(0, worker, report, 0)) == m.(rows := [Finished(m.rows[0], Retryable, report, 0)])
  {
  }

  function Bounce(): Notice {
    Notice(Some("evt"), Some("email.bounced"), Some("digest"), Some("msg"))
  }

  lemma BounceLone(m: Mail)
    requires |m.rows| == 1 && m.rows[0].messageId == Some("msg") && m.receipts == map[]
    ensures var r := Next(m, NotifyStep(Bounce(), 0)).rows; |r| == 1 && r[0] == Notified(m.rows[0], Bounced, 0)
  {
  }

  /** Claimed, given back with a message id, claimed again; then the first message bounces. */
  function BounceRun(): seq<Step> {
    var report := Report(Some("retryable"), None, Some("msg"), None, None);
    [Record(0), ClaimStep(Some("w"), None, 0), FinishStep(0, Some("w"), report, 0), ClaimStep(Some("w"), None, 0),
     NotifyStep(Bounce(), 0)]
  }

  lemma RunSteps(steps: seq<Step>)
    requires |steps| == 5
    ensures Run(EMPTY, steps) == Next(Next(Next(Next(Next(EMPTY, steps[0]), steps[1]), steps[2]), steps[3]), steps[4])
  {
    RunOne(EMPTY, steps, 0);
    RunOne(EMPTY, steps, 1);
    RunOne(EMPTY, steps, 2);
    RunOne(EMPTY, steps, 3);
    RunOne(EMPTY, steps, 4);
    assert steps[..5] == steps && steps[..0] == [];
  }

  lemma RunOne(m: Mail, steps: seq<Step>, k: nat)
    requires k < |steps|
    ensures Run(m, steps[..k + 1]) == Next(Run(m, steps[..k]), steps[k])
  {
    assert steps[..k + 1][..k] == steps[..k];
  }

  /** Claimed a second time, with the message id of the first attempt. */
  lemma SecondClaim() returns (m: Mail)
    ensures m == Next(Next(Next(Next(EMPTY, BounceRun()[0]), BounceRun()[1]), BounceRun()[2]), BounceRun()[3])
    ensures |m.rows| == 1 && m.rows[0].messageId == Some("msg") && m.rows[0].lockedBy == Some("w")
    ensures m.receipts == map[]
  {
    var steps := BounceRun();
    var m1 := Next(EMPTY, steps[0]);
    ClaimLone(m1, Some("w"));
    var m2 := Next(m1, steps[1]);
    GiveBackLone(m2, Some("w"), steps[2].report);
    var m3 := Next(m2, steps[2]);
    ClaimLone(m3, Some("w"));
    m := Next(m3, steps[3]);
  }

  /** Such a state is reachable: a bounced email that its holder still puts back in the queue. */
  lemma BounceCanBeOverwritten()
    ensures var m := Run(EMPTY, BounceRun());
      && |m.rows| == 1 && m.rows[0].state == Bounced && m.rows[0].terminalAt.Some?
      && exists steps :: QueuedAfter(m, steps, 0)
  {
    var steps := BounceRun();
    RunSteps(steps);
    var m4 := SecondClaim();
    BounceLone(m4);
    ReportIsFinalIff(Next(m4, steps[4]), 0);
  }

  // ----- Notifications

  /** What the unique index keeps. */
  predicate UniqueMessages(rows: Rows) {
    forall i, j :: 0 <= i < j < |rows| && rows[i].messageId.Some? ==> rows[i].messageId != rows[j].messageId
  }

  lemma StepKeepsMessages(m: Mail, s: Step)
    requires UniqueMessages(m.rows)
    ensures UniqueMessages(Next(m, s).rows)
  {
    if s.ClaimStep? {
      MarkKeepsCount(m.rows, Due(m.rows, s.limit, s.now), TakeUp(s.worker, s.now));
      forall i | 0 <= i < |m.rows| ensures Next(m, s).rows[i].messageId == m.rows[i].messageId {
        ClaimEffect(m.rows, s.worker, s.limit, s.now, i);
      }
    }
  }

  lemma StepKeepsReceipts(m: Mail, s: Step)
    ensures forall id :: id in m.receipts ==> id in Next(m, s).receipts && Next(m, s).receipts[id] == m.receipts[id]
  {
  }

  lemma {:induction false} RunKeepsReceipts(m: Mail, steps: seq<Step>, id: string)
    requires id in m.receipts
    ensures id in Run(m, steps).receipts
  {
    if steps != [] {
      RunKeepsReceipts(m, steps[..|steps| - 1], id);
      StepKeepsReceipts(Run(m, steps[..|steps| - 1]), steps[|steps| - 1]);
    }
  }

  lemma {:induction false} RunKeepsMessages(steps: seq<Step>)
    ensures UniqueMessages(Run(EMPTY, steps).rows)
  {
    if steps != [] {
      RunKeepsMessages(steps[..|steps| - 1]);
      StepKeepsMessages(Run(EMPTY, steps[..|steps| - 1]), steps[|steps| - 1]);
    }
  }

  /** On every run a notification is taken once: it moves the one intent that carries its message id, if there
      is one, and repeating it at any later time changes nothing. */
  lemma NoticeAppliesOnce(before: seq<Step>, notice: Notice, now: int, between: seq<Step>, later: int, i: nat)
    requires i < |Run(EMPTY, before).rows| && !NoticeRaises(notice)
    requires ReceiptId(notice) !in Run(EMPTY, before).receipts
    ensures var m := Run(EMPTY, before);
      && (Target(m, notice) == Some(i) <==> notice.messageId.Some? && m.rows[i].messageId == notice.messageId)
      && var again := Run(Next(m, NotifyStep(notice, now)), between);
         Next(again, NotifyStep(notice, later)) == again
  {
    var m := Run(EMPTY, before);
    RunKeepsMessages(before);
    RunKeepsReceipts(Next(m, NotifyStep(notice, now)), between, ReceiptId(notice));
  }

  // ----- What reports and notices say

  /** What the worker that holds an email reports is what the row then says, word by word, and its hold ends. */
  lemma ReportIsBelieved(m: Mail, i: nat, report: Report, now: int)
    requires i < |m.rows| && m.rows[i].lockedBy.Some? && report.result.Some?
    requires !MessageTaken(m.rows, i, report.messageId)
    ensures var e, f := m.rows[i], Next(m, FinishStep(i, m.rows[i].lockedBy, report, now)).rows[i];
      && (report.result == Some("sent") ==> f.state == Sent && f.lastError == None)
      && (report.result == Some("delivered") ==>
            f.state == Delivered && f.deliveredAt == Some(now) && f.lastError == None)
      && (report.result == Some("failed") ==> f.state == Failed && f.terminalAt == Some(now))
      && (report.result == Some("retryable") ==> Queued(f) && f.nextAttemptAt == report.retryAt)
      && (report.result in [Some("failed"), Some("retryable")] ==> f.lastError == Left(report.error, 2048))
      && (report.result in [Some("sent"), Some("delivered"), Some("failed"), Some("retryable")] ==>
            && f.lockedAt == None && f.lockedBy == None && f.provider == Left(report.provider, 32)
            && f.messageId == (if report.messageId.Some? then report.messageId else e.messageId))
      && (report.result !in [Some("sent"), Some("delivered"), Some("failed"), Some("retryable")] ==> f == e)
  {
  }

  /** What the provider says of a message is what its row then says: sent and delayed messages are on their way,
      delivered ones arrived, and bounces, complaints, failures and suppressions end it. The hold is left alone. */
  lemma NoticeIsBelieved(m: Mail, n: Notice, now: int, i: nat)
    requires Target(m, n) == Some(i)
    ensures var e, f := m.rows[i], Next(m, NotifyStep(n, now)).rows[i];
      && (n.kind in [Some("email.sent"), Some("email.delivery_delayed")] ==>
            f.state == Sent && f.terminalAt == e.terminalAt)
      && (n.kind == Some("email.delivered") ==> f.state == Delivered && f.deliveredAt == Some(now))
      && (n.kind == Some("email.bounced") ==>
            f.state == Bounced && f.bouncedAt == Some(now) && f.terminalAt == Some(now))
      && (n.kind == Some("email.complained") ==>
            f.state == Complained && f.complainedAt == Some(now) && f.terminalAt == Some(now))
      && (n.kind in [Some("email.failed"), Some("email.suppressed")] ==> f.state == Failed && f.terminalAt == Some(now))
      && f.lockedAt == e.lockedAt && f.lockedBy == e.lockedBy && f.messageId == e.messageId
      && f.attempts == e.attempts && f.nextAttemptAt == e.nextAttemptAt
  {
  }

  /** Once an email has a message id, it has one for ever. */
  lemma {:induction false} MessageIsKept(m: Mail, steps: seq<Step>, i: nat)
    requires i < |m.rows| && m.rows[i].messageId.Some?
    ensures i < |Run(m, steps).rows| && Run(m, steps).rows[i].messageId.Some?
  {
    if steps != [] {
      var init, s := steps[..|steps| - 1], steps[|steps| - 1];
      MessageIsKept(m, init, i);
      if s.ClaimStep? { ClaimEffect(Run(m, init).rows, s.worker, s.limit, s.now, i); }
    }
  }

  // ----- Receipts

  /** The receipt says what the notice said, cut to the columns, and whether it moved an email. */
  predicate ReceiptTells(r: Receipt, m: Mail, n: Notice) {
    && !NoticeRaises(n) && Some(r.kind) == n.kind && Some(r.digest) == n.digest
    && r.messageId == Left(n.messageId, 128) && (r.processed <==> Target(m, n).Some?)
  }

  lemma StepAddsReceipt(m: Mail, s: Step, id: string)
    requires id in Next(m, s).receipts && !(id in m.receipts && Next(m, s).receipts[id] == m.receipts[id])
    ensures s.NotifyStep? && !NoticeRaises(s.notice) && ReceiptId(s.notice) == id && id !in m.receipts
    ensures ReceiptTells(Next(m, s).receipts[id], m, s.notice)
  {
  }

  /** On every run each receipt tells of the one notice it was written for, the first that came under its id. */
  lemma {:induction false} ReceiptTellsNotice(steps: seq<Step>, id: string) returns (n: nat)
    requires id in Run(EMPTY, steps).receipts
    ensures n < |steps| && steps[n].NotifyStep? && !NoticeRaises(steps[n].notice) && ReceiptId(steps[n].notice) == id
    ensures id !in Run(EMPTY, steps[..n]).receipts
    ensures ReceiptTells(Run(EMPTY, steps).receipts[id], Run(EMPTY, steps[..n]), steps[n].notice)
  {
    var init, s := steps[..|steps| - 1], steps[|steps| - 1];
    if id in Run(EMPTY, init).receipts {
      n := ReceiptTellsNotice(init, id);
      assert init[..n] == steps[..n];
      StepKeepsReceipts(Run(EMPTY, init), s);
    } else {
      n := |init|;
      StepAddsReceipt(Run(EMPTY, init), s, id);
    }
  }
}
