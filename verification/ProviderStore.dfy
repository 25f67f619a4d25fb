/** The provider functions as they run: statement by statement over stored rows, with the
    transaction rolled back when a statement raises. */
module ProviderStore {
  import opened Sql
  import opened ProviderTables

  class Store {
    var connections: map<string, Connection>
    var bindings: seq<Binding>
    var deliveries: seq<Delivery>
    var outbox: seq<OutboxRow>
    var audit: seq<AuditRow>

    constructor (t: Tables)
      ensures Contents() == t
    {
      connections, bindings, deliveries := t.connections, t.bindings, t.deliveries;
      outbox, audit := t.outbox, t.audit;
    }

    function Contents(): (t: Tables)
      reads this
    {
      Tables(connections, bindings, deliveries, outbox, audit)
    }

    method Rollback(t: Tables)
      modifies this
      ensures Contents() == t
    {
      connections, bindings, deliveries := t.connections, t.bindings, t.deliveries;
      outbox, audit := t.outbox, t.audit;
    }

    method InsertDelivery(k: Connection, key: string, c: Call) returns (ok: bool)
      modifies this`deliveries
      ensures ok <==>
        && DeliveryColumns(k.status, c) && FindPublic(old(deliveries), c.publicId) == None
        && FindExternal(old(deliveries), c.deliveryId) == None
      ensures deliveries == old(deliveries) + if ok then [NewDelivery(k, key, c)] else []
    {
      var state := StateFor(k.status, c);
      if c.publicId == None || c.deliveryId == None || c.event == None || c.digest == None || state == None
         || c.forced == None || c.deleted == None
         || FindPublic(deliveries, c.publicId).Some? || FindExternal(deliveries, c.deliveryId).Some?
      {
        return false;
      }
      var processedAt := if Final(state.value) then Some(c.now) else None;
      deliveries := deliveries + [Delivery(
        c.publicId.value, k.organization, key, c.deliveryId.value, c.event.value,
        NullIf(c.action, BlankAction), c.digest.value, state.value,
        NullIf(c.repository, ""), NullIf(c.gitRef, ""), c.headCommit, c.baseCommit, c.pullRequest,
        c.forced.value, c.deleted.value, processedAt, 0, None, None, None, c.now, c.now)];
      return true;
    }

    /** The two updates of bindings and the one that drains deliveries, in statement order. */
    method UpdateDependents(key: string, c: Call)
      modifies this`bindings, this`deliveries
      ensures bindings == UpdatedBindings(old(bindings), key, c)
      ensures deliveries == if Deactivates(c) then DrainedDeliveries(old(deliveries), key, c.now) else old(deliveries)
    {
      if c.mode == Some(Remove) {
        var removed, rows := GivenNames(c), bindings;
        bindings := seq(|rows|, i requires 0 <= i < |rows| =>
          if rows[i].connection == key && Some(rows[i].repository) in removed
          then DetachedBinding(rows[i], c.now) else rows[i]);
      }
      if Deactivates(c) {
        var rows := bindings;
        bindings := seq(|rows|, i requires 0 <= i < |rows| =>
          if rows[i].connection == key && rows[i].automatic
          then DetachedBinding(rows[i], c.now) else rows[i]);
        deliveries := DrainedDeliveries(deliveries, key, c.now);
      }
    }

    method InsertEvents(k: Connection, key: string, c: Call) returns (ok: bool)
      modifies this`outbox, this`audit
      ensures ok <==>
        && EventColumns(c) && AuditColumns(c)
        && (forall i :: 0 <= i < |old(outbox)| ==> Some(old(outbox)[i].publicId) != c.eventId)
        && (forall i :: 0 <= i < |old(audit)| ==> Some(old(audit)[i].publicId) != c.auditId)
      ensures ok ==> outbox == old(outbox) + [NewOutboxRow(k, key, c)] && audit == old(audit) + [NewAuditRow(k, key, c)]
    {
      if c.deliveryId == None || c.event == None || c.forced == None || c.deleted == None || c.eventId == None
         || c.requestId == None || (exists i :: 0 <= i < |outbox| && Some(outbox[i].publicId) == c.eventId)
      {
        return false;
      }
      outbox := outbox + [OutboxRow(
        c.eventId.value, k.organization, key, c.event.value, c.requestId.value, c.deliveryId.value,
        NullIf(c.action, BlankAction), NullIf(c.repository, ""), NullIf(c.gitRef, ""),
        c.headCommit, c.baseCommit, c.pullRequest, c.forced.value, c.deleted.value, c.now)];
      if c.auditId == None || (exists i :: 0 <= i < |audit| && Some(audit[i].publicId) == c.auditId) {
        return false;
      }
      audit := audit + [AuditRow(c.auditId.value, k.organization, key, c.requestId.value, c.deliveryId.value,
                                 c.event.value, c.now)];
      return true;
    }

    method ApplyDelivery(c: Call) returns (outcome: Outcome)
      modifies this
      ensures outcome == ApplyOutcome(old(Contents()), c)
      ensures Contents() == Apply(old(Contents()), c)
    {
      if Rejected(c) { return Raised; }
      if !(c.installationId.Some? && c.installationId.value in connections && c.actor.Some?) {
        return UnknownInstallation;
      }
      var before, key := Contents(), c.installationId.value;
      var k := connections[key];
      var existing := FindExternal(deliveries, c.deliveryId);
      if existing.Some? {
        var d := deliveries[existing.value];
        return Repeated(IsTrue(Equals3(Some(d.digest), c.digest)), d.publicId, k.organization, c.actor.value,
                        PendingHint(k.status, d, c.digest, c.now));
      }
      var inserted := InsertDelivery(k, key, c);
      if !inserted { return Raised; }
      connections := connections[key := UpdatedConnection(k, c)];
      UpdateDependents(key, c);
      var announced := InsertEvents(k, key, c);
      if !announced {
        Rollback(before);
        return Raised;
      }
      assert FreshIds(before, c) && Complete(k.status, c);
      var state := StateFor(k.status, c).value;
      return Recorded(state, c.publicId.value, k.organization, c.actor.value, Some(state == Received));
    }

    method ClaimDelivery(publicId: Option<string>, token: Option<string>, ctx: Context, now: int)
      returns (r: ClaimResult)
      modifies this`deliveries
      ensures r == ClaimResultFor(old(Contents()), publicId, token, ctx, now)
      ensures Contents() == Claim(old(Contents()), publicId, token, ctx, now)
    {
      if BadLease(publicId, token) { return ClaimRaised; }
      var row := FindPublic(deliveries, publicId);
      if row == None || !ctx.Sees(deliveries[row.value].organization) { return Unknown; }
      var d := deliveries[row.value];
      var own := d.state == Processing && IsTrue(Equals3(d.token, token));
      var stale := d.state == Processing && IsTrue(Stale(d.startedAt, now));
      if Waiting(d.state) || own || stale {
        deliveries := deliveries[row.value := d.(
          state := Processing, attempts := if own then d.attempts else d.attempts + 1,
          token := token, startedAt := Some(now), lastError := None, updatedAt := now)];
        return Claimed;
      }
      match d.state {
        case Processed => return AlreadyComplete;
        case Ignored => return AlreadyComplete;
        case Processing => return Busy;
        case _ => return Unknown;
      }
    }

    method FinishDelivery(publicId: Option<string>, token: Option<string>, succeeded: Option<bool>,
                          error: Option<string>, ctx: Context, now: int) returns (r: FinishResult)
      modifies this`deliveries
      ensures r == FinishResultFor(old(Contents()), publicId, token, error, ctx)
      ensures Contents() == Finish(old(Contents()), publicId, token, succeeded, error, ctx, now)
    {
      if BadLease(publicId, token) || (error.Some? && |error.value| > 128) { return FinishRaised; }
      var row := FindPublic(deliveries, publicId);
      if row == None || !ctx.Sees(deliveries[row.value].organization) { return FinishReturned(false); }
      var d := deliveries[row.value];
      if d.state != Processing || !IsTrue(Equals3(d.token, token)) { return FinishReturned(false); }
      var ok := IsTrue(succeeded);
      deliveries := deliveries[row.value := d.(
        state := if ok then Processed else Failed,
        processedAt := if ok then Some(now) else None,
        token := None, startedAt := None,
        lastError := if ok then None else NullIf(error, ""), updatedAt := now)];
      return FinishReturned(true);
    }
  }
}
