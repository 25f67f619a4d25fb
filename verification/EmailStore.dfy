/** The email tables and the three functions called on them. A call that raises leaves the tables as they were. */
module EmailStore {
  import opened Sql
  import opened Batches
  import opened Email

  datatype Answer<T> = Returned(value: T) | Raised

  datatype Reaction = Duplicate | Ignored | Processed

  class Store {
    var rows: Rows
    var receipts: map<string, Receipt>

    function Contents(): Mail
      reads this
    {
      Mail(rows, receipts)
    }

    constructor ()
      ensures Contents() == EMPTY
    {
      rows, receipts := [], map[];
    }

    method ClaimEmail(worker: Option<string>, limit: Option<int>, now: int) returns (claimed: seq<nat>)
      modifies this
      ensures claimed == Due(old(rows), limit, now)
      ensures Contents() == Next(old(Contents()), ClaimStep(worker, limit, now))
    {
      claimed := Due(rows, limit, now);
      for i := 0 to |claimed|
        invariant receipts == old(receipts) && |rows| == |old(rows)|
        invariant rows == Mark(old(rows), claimed[..i], TakeUp(worker, now))
      {
        assert claimed[..i + 1][..i] == claimed[..i];
        var id := claimed[i];
        DueIsEligible(old(rows), limit, now, id);
        rows := rows[id := Taken(rows[id], worker, now)];
      }
      assert claimed[..|claimed|] == claimed;
    }

    method FinishEmail(id: nat, worker: Option<string>, report: Report, now: int) returns (r: Answer<bool>)
      modifies this
      ensures Contents() == Next(old(Contents()), FinishStep(id, worker, report, now))
      ensures r.Raised? <==> FinishRaises(old(rows), id, worker, report)
      ensures r.Returned? ==> (r.value <==> FinishMatches(old(rows), id, worker))
    {
      if report.result.Some? && ResultState(report.result.value) == None { return Raised; }
      if !FinishMatches(rows, id, worker) { return Returned(false); }
      if report.result == None { return Raised; }
      for j := 0 to |rows|
        invariant report.messageId.Some? ==>
          forall k :: 0 <= k < j && k != id ==> rows[k].messageId != report.messageId
      {
        if j != id && report.messageId.Some? && rows[j].messageId == report.messageId { return Raised; }
      }
      var state := ResultState(report.result.value).value;
      var e := rows[id].(state := state, provider := Left(report.provider, 32), lockedAt := None, lockedBy := None);
      if report.messageId.Some? { e := e.(messageId := report.messageId); }
      e := e.(nextAttemptAt := if state == Retryable then report.retryAt else None);
      if state == Delivered { e := e.(deliveredAt := Some(now)); }
      if state == Failed { e := e.(terminalAt := Some(now)); }
      var error := if state == Sent || state == Delivered then None else Left(report.error, 2048);
      e := e.(lastError := error, updatedAt := now);
      rows := rows[id := e];
      return Returned(true);
    }

    method ApplyProviderEvent(notice: Notice, now: int) returns (r: Answer<Reaction>)
      modifies this
      ensures Contents() == Next(old(Contents()), NotifyStep(notice, now))
      ensures r.Raised? <==> NoticeRaises(notice)
      ensures r.Returned? ==>
        && (r.value == Duplicate <==> ReceiptId(notice) in old(receipts))
        && (r.value == Processed <==> Target(old(Contents()), notice).Some?)
    {
      if NoticeRaises(notice) { return Raised; }
      var id, kind, digest := ReceiptId(notice), notice.kind.value, notice.digest.value;
      if id in receipts { return Returned(Duplicate); }
      var target := FindMessage(rows, notice.messageId);
      if target == None {
        receipts := receipts[id := Receipt(kind, Left(notice.messageId, 128), digest, false)];
        return Returned(Ignored);
      }
      var state := NoticeState(kind).value;
      var e := rows[target.value].(state := state, updatedAt := now);
      if state == Delivered { e := e.(deliveredAt := Some(now)); }
      if state == Bounced { e := e.(bouncedAt := Some(now)); }
      if state == Complained { e := e.(complainedAt := Some(now)); }
      if state == Bounced || state == Complained || state == Failed { e := e.(terminalAt := Some(now)); }
      rows := rows[target.value := e];
      receipts := receipts[id := Receipt(kind, Left(notice.messageId, 128), digest, true)];
      return Returned(Processed);
    }
  }
}
