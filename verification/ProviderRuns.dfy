/** Runs: any interleaving of deliveries, claims, finishes and (re)connections. */
module ProviderRuns {
  import opened Sql
  import opened ProviderTables
  import Patterns

  datatype Step =
    | ApplyStep(call: Call)
    | ClaimStep(publicId: Option<string>, token: Option<string>, ctx: Context, now: int)
    | FinishStep(publicId: Option<string>, token: Option<string>, succeeded: Option<bool>, error: Option<string>,
                 ctx: Context, now: int)
    | ConnectStep(installation: string, organization: nat, login: string, accountId: int, all: bool,
                  names: seq<string>, now: int)
    | BindStep(project: nat, connection: string, organization: nat, repository: string, branch: string,
               automatic: bool, now: int)

  function Next(t: Tables, s: Step): Tables {
    match s
    case ApplyStep(c) => Apply(t, c)
    case ClaimStep(id, token, ctx, now) => Claim(t, id, token, ctx, now)
    case FinishStep(id, token, ok, error, ctx, now) => Finish(t, id, token, ok, error, ctx, now)
    case ConnectStep(k, organization, login, accountId, all, names, now) =>
      Connect(t, k, organization, login, accountId, all, names, now)
    case BindStep(project, k, organization, repository, branch, automatic, now) =>
      Bind(t, project, k, organization, repository, branch, automatic, now)
  }

  function Run(t: Tables, steps: seq<Step>): Tables {
    if steps == [] then t else Next(Run(t, steps[..|steps| - 1]), steps[|steps| - 1])
  }

  lemma {:induction false} RunSplits(t: Tables, a: seq<Step>, b: seq<Step>)
    ensures Run(t, a + b) == Run(Run(t, a), b)
  {
    if b == [] {
      assert a + b == a;
    } else {
      var init := b[..|b| - 1];
      assert (a + b)[..|a + b| - 1] == a + init;
      RunSplits(t, a, init);
    }
  }

  // ----- What every step keeps

  /** The two unique indexes on deliveries. */
  ghost predicate UniqueIds(t: Tables) {
    forall i, j :: 0 <= i < j < |t.deliveries| ==>
      && t.deliveries[i].publicId != t.deliveries[j].publicId
      && t.deliveries[i].externalId != t.deliveries[j].externalId
  }

  /** Every delivery belongs to a stored connection of the same organization. */
  ghost predicate Connected(t: Tables) {
    forall i :: 0 <= i < |t.deliveries| ==>
      && t.deliveries[i].connection in t.connections
      && t.connections[t.deliveries[i].connection].organization == t.deliveries[i].organization
  }

  /** A received delivery sits on an active connection. A failed one need not. */
  ghost predicate ReceivedIsActive(t: Tables) {
    forall i :: 0 <= i < |t.deliveries| && t.deliveries[i].state == Received ==>
      t.deliveries[i].connection in t.connections && t.connections[t.deliveries[i].connection].status == Active
  }

  predicate Live(state: DeliveryState) {
    !Final(state)
  }

  /** Work that can still be processed names the repository, ref and commit to process. */
  predicate WellFormed(d: Delivery) {
    Live(d.state) ==>
      && (d.event == Push || d.event == PullRequest)
      && d.repository.Some? && Patterns.Repository(d.repository.value)
      && d.gitRef.Some? && 0 < |d.gitRef.value| <= 512
      && d.commit.Some? && Patterns.Commit(d.commit.value)
      && (d.event == Push ==> !d.deleted && d.pullRequest == None)
      && (d.event == PullRequest ==> d.baseCommit.Some? && d.pullRequest.Some? && d.pullRequest.value >= 1)
  }

  ghost predicate AllWellFormed(t: Tables) {
    forall i :: 0 <= i < |t.deliveries| ==> WellFormed(t.deliveries[i])
  }

  /** Finished rows, and only they, carry a completion time; only leased rows carry a start, and only failed ones an
      error. */
  predicate Stamped(d: Delivery) {
    && (d.processedAt.Some? <==> Final(d.state))
    && (d.startedAt.Some? <==> d.state == Processing)
    && (d.token.Some? ==> d.state == Processing) && (d.lastError.Some? ==> d.state == Failed)
  }

  ghost predicate AllStamped(t: Tables) {
    forall i :: 0 <= i < |t.deliveries| ==> Stamped(t.deliveries[i])
  }

  /** An outbox row and an audit row that speak of the webhook stored as `d`. */
  predicate Mirrors(o: OutboxRow, a: AuditRow, d: Delivery) {
    && o.deliveryId == a.deliveryId == d.externalId
    && o.connection == a.connection == d.connection
    && o.organization == a.organization == d.organization
    && o.event == a.event == d.event
    && o.commit == d.commit && o.repository == d.repository && o.gitRef == d.gitRef
    && o.occurredAt == a.occurredAt == d.createdAt
  }

  /** Every delivery has exactly one outbox row and one audit row, at its own position. */
  ghost predicate Mirrored(t: Tables) {
    && |t.outbox| == |t.deliveries| == |t.audit|
    && forall i :: 0 <= i < |t.deliveries| ==> Mirrors(t.outbox[i], t.audit[i], t.deliveries[i])
  }

  /** The identifiers of a stored delivery have the formats its call was checked against. */
  predicate Named(d: Delivery) {
    Patterns.PublicId(d.publicId) && Patterns.Token(d.externalId) && Patterns.Digest(d.digest)
  }

  ghost predicate AllNamed(t: Tables) {
    forall i :: 0 <= i < |t.deliveries| ==> Named(t.deliveries[i])
  }

  ghost predicate Inv(t: Tables) {
    && AllNamed(t) && UniqueIds(t) && Connected(t) && ReceivedIsActive(t)
    && AllWellFormed(t) && AllStamped(t) && Mirrored(t)
  }

  /** Tables in which nothing has been delivered yet. */
  ghost predicate Fresh(t: Tables) {
    t.deliveries == [] && t.outbox == [] && t.audit == []
  }

  /** What is fixed about a delivery from the moment it is recorded. */
  predicate SameWebhook(d: Delivery, e: Delivery) {
    && d.publicId == e.publicId && d.organization == e.organization && d.connection == e.connection
    && d.externalId == e.externalId && d.event == e.event && d.action == e.action && d.digest == e.digest
    && d.repository == e.repository && d.gitRef == e.gitRef && d.commit == e.commit
    && d.baseCommit == e.baseCommit && d.pullRequest == e.pullRequest
    && d.forced == e.forced && d.deleted == e.deleted && d.createdAt == e.createdAt
  }

  /** How recording `d` for connection `key` changes the deliveries. */
  ghost predicate Appends(t: Tables, u: Tables, key: string, d: Delivery, drained: bool, now: int) {
    && |u.deliveries| == |t.deliveries| + 1
    && (forall i :: 0 <= i < |t.deliveries| ==>
          u.deliveries[i] == if drained then DrainedDelivery(t.deliveries[i], key, now) else t.deliveries[i])
    && u.deliveries[|t.deliveries|] == if drained then DrainedDelivery(d, key, now) else d
  }

  lemma CommitAppends(t: Tables, c: Call)
    requires Commits(t, c)
    ensures var key := c.installationId.value;
      Appends(t, Committed(t, c), key, NewDelivery(t.connections[key], key, c), Deactivates(c), c.now)
  {
  }

  /** `u` holds all rows of `t`, the finished ones untouched, and at most one more. */
  ghost predicate Persists(t: Tables, u: Tables) {
    && |t.deliveries| <= |u.deliveries| <= |t.deliveries| + 1
    && (forall i :: 0 <= i < |t.deliveries| ==> SameWebhook(u.deliveries[i], t.deliveries[i]))
    && (forall i :: 0 <= i < |t.deliveries| && Final(t.deliveries[i].state) ==>
          u.deliveries[i] == t.deliveries[i])
    && (forall k :: k in t.connections ==>
          k in u.connections && u.connections[k].organization == t.connections[k].organization)
  }

  lemma AppendPersists(t: Tables, u: Tables, key: string, d: Delivery, drained: bool, now: int, k: Connection)
    requires Appends(t, u, key, d, drained, now) && key in t.connections && u.connections == t.connections[key := k]
    requires k.organization == t.connections[key].organization
    ensures Persists(t, u)
  {
  }

  lemma UpdatePersists(t: Tables, i: nat, d: Delivery)
    requires i < |t.deliveries| && SameWebhook(d, t.deliveries[i]) && !Final(t.deliveries[i].state)
    ensures Persists(t, t.(deliveries := t.deliveries[i := d]))
  {
  }

  /** Rows are never removed, reordered or turned into another webhook; connections stay with their
      organization; finished deliveries never change again in any column. */
  lemma RowsPersist(t: Tables, s: Step)
    ensures Persists(t, Next(t, s))
  {
    match s
    case ApplyStep(c) =>
      if Commits(t, c) { CommitPersists(t, c); }
    case ClaimStep(id, token, ctx, now) =>
      ClaimPersists(t, id, token, ctx, now);
    case FinishStep(id, token, ok, error, ctx, now) =>
      FinishPersists(t, id, token, ok, error, ctx, now);
    case _ =>
  }

  lemma CommitPersists(t: Tables, c: Call)
    requires Commits(t, c)
    ensures Persists(t, Committed(t, c))
  {
    var key := c.installationId.value;
    var k := t.connections[key];
    CommitAppends(t, c);
    AppendPersists(t, Committed(t, c), key, NewDelivery(k, key, c), Deactivates(c), c.now, UpdatedConnection(k, c));
  }

  lemma ClaimPersists(t: Tables, id: Option<string>, token: Option<string>, ctx: Context, now: int)
    ensures Persists(t, Claim(t, id, token, ctx, now))
  {
    if ClaimResultFor(t, id, token, ctx, now) == Claimed {
      var i := FindVisible(t.deliveries, id, ctx).value;
      UpdatePersists(t, i, ClaimedRow(t.deliveries[i], token, now));
    }
  }

  lemma FinishPersists(t: Tables, id: Option<string>, token: Option<string>, ok: Option<bool>, error: Option<string>,
                       ctx: Context, now: int)
    ensures Persists(t, Finish(t, id, token, ok, error, ctx, now))
  {
    if FinishResultFor(t, id, token, error, ctx) == FinishReturned(true) {
      var i := FindVisible(t.deliveries, id, ctx).value;
      UpdatePersists(t, i, FinishedRow(t.deliveries[i], ok, error, now));
    }
  }

  lemma WellFormedInsert(k: Connection, key: string, c: Call)
    requires !Rejected(c) && DeliveryColumns(k.status, c)
    ensures WellFormed(NewDelivery(k, key, c)) && Stamped(NewDelivery(k, key, c)) && Named(NewDelivery(k, key, c))
    ensures Live(NewDelivery(k, key, c).state) ==> NewDelivery(k, key, c).state == Received && k.status == Active
  {
  }

  /** Draining changes only the lease of a row that was waiting. */
  lemma DrainKeepsRow(d: Delivery, key: string, now: int)
    requires WellFormed(d) && Stamped(d) && Named(d)
    ensures var e := DrainedDelivery(d, key, now);
      SameWebhook(e, d) && WellFormed(e) && Stamped(e) && Named(e)
  {
  }

  lemma AppendKeepsRows(t: Tables, u: Tables, key: string, d: Delivery, drained: bool, now: int)
    requires AllNamed(t) && UniqueIds(t) && AllWellFormed(t) && AllStamped(t)
    requires Appends(t, u, key, d, drained, now) && WellFormed(d) && Stamped(d) && Named(d)
    requires forall i :: 0 <= i < |t.deliveries| ==>
      t.deliveries[i].publicId != d.publicId && t.deliveries[i].externalId != d.externalId
    ensures AllNamed(u) && UniqueIds(u) && AllWellFormed(u) && AllStamped(u)
  {
    var n := |t.deliveries|;
    var all := t.deliveries + [d];
    forall i | 0 <= i <= n
      ensures SameWebhook(u.deliveries[i], all[i])
      ensures WellFormed(u.deliveries[i]) && Stamped(u.deliveries[i]) && Named(u.deliveries[i])
    {
      assert WellFormed(all[i]) && Stamped(all[i]) && Named(all[i]);
      DrainKeepsRow(all[i], key, now);
      assert SameWebhook(all[i], all[i]);
    }
  }

  lemma AppendKeepsConnections(t: Tables, u: Tables, key: string, d: Delivery, drained: bool, now: int, k: Connection)
    requires Connected(t) && ReceivedIsActive(t) && key in t.connections && d.connection == key
    requires Appends(t, u, key, d, drained, now) && u.connections == t.connections[key := k]
    requires d.organization == t.connections[key].organization == k.organization
    requires d.state == Received ==> t.connections[key].status == Active
    requires k.status == Active || drained || k.status == t.connections[key].status
    ensures Connected(u) && ReceivedIsActive(u)
  {
    var n := |t.deliveries|;
    forall i | 0 <= i < |u.deliveries|
      ensures u.deliveries[i].connection in u.connections
      ensures u.connections[u.deliveries[i].connection].organization == u.deliveries[i].organization
      ensures u.deliveries[i].state == Received ==> u.connections[u.deliveries[i].connection].status == Active
    {
      if i < n { assert t.deliveries[i].connection in t.connections; }
    }
  }

  lemma AppendKeepsMirrors(t: Tables, u: Tables, key: string, d: Delivery, drained: bool, now: int, o: OutboxRow,
                           a: AuditRow)
    requires Mirrored(t) && Appends(t, u, key, d, drained, now) && Mirrors(o, a, d)
    requires u.outbox == t.outbox + [o] && u.audit == t.audit + [a]
    ensures Mirrored(u)
  {
    forall i | 0 <= i < |u.deliveries| ensures Mirrors(u.outbox[i], u.audit[i], u.deliveries[i]) {
      if i < |t.deliveries| { assert Mirrors(t.outbox[i], t.audit[i], t.deliveries[i]); }
    }
  }

  lemma CommitKeepsInv(t: Tables, c: Call)
    requires Commits(t, c) && Inv(t)
    ensures Inv(Committed(t, c))
  {
    var key := c.installationId.value;
    var k := t.connections[key];
    var d := NewDelivery(k, key, c);
    CommitAppends(t, c);
    WellFormedInsert(k, key, c);
    AppendKeepsRows(t, Committed(t, c), key, d, Deactivates(c), c.now);
    AppendKeepsConnections(t, Committed(t, c), key, d, Deactivates(c), c.now, UpdatedConnection(k, c));
    AppendKeepsMirrors(t, Committed(t, c), key, d, Deactivates(c), c.now, NewOutboxRow(k, key, c),
                       NewAuditRow(k, key, c));
  }

  /** Rewriting one row's lease columns keeps the invariant. */
  lemma UpdateKeepsInv(t: Tables, i: nat, d: Delivery)
    requires Inv(t) && i < |t.deliveries|
    requires SameWebhook(d, t.deliveries[i]) && d.state != Received && WellFormed(d) && Stamped(d)
    ensures Inv(t.(deliveries := t.deliveries[i := d]))
  {
    var u := t.(deliveries := t.deliveries[i := d]);
    forall j | 0 <= j < |u.deliveries|
      ensures SameWebhook(u.deliveries[j], t.deliveries[j]) && WellFormed(u.deliveries[j]) && Stamped(u.deliveries[j])
    {
    }
  }

  lemma ConnectKeepsInv(t: Tables, k: string, organization: nat, login: string, accountId: int, all: bool,
                        names: seq<string>, now: int)
    requires Inv(t)
    ensures Inv(Connect(t, k, organization, login, accountId, all, names, now))
  {
  }

  lemma ClaimKeepsInv(t: Tables, id: Option<string>, token: Option<string>, ctx: Context, now: int)
    requires Inv(t)
    ensures Inv(Claim(t, id, token, ctx, now))
  {
    if ClaimResultFor(t, id, token, ctx, now) == Claimed {
      var i := FindVisible(t.deliveries, id, ctx).value;
      assert WellFormed(t.deliveries[i]) && Stamped(t.deliveries[i]);
      UpdateKeepsInv(t, i, ClaimedRow(t.deliveries[i], token, now));
    }
  }

  lemma FinishKeepsInv(t: Tables, id: Option<string>, token: Option<string>, ok: Option<bool>, error: Option<string>,
                       ctx: Context, now: int)
    requires Inv(t)
    ensures Inv(Finish(t, id, token, ok, error, ctx, now))
  {
    if FinishResultFor(t, id, token, error, ctx) == FinishReturned(true) {
      var i := FindVisible(t.deliveries, id, ctx).value;
      assert WellFormed(t.deliveries[i]) && Stamped(t.deliveries[i]);
      UpdateKeepsInv(t, i, FinishedRow(t.deliveries[i], ok, error, now));
    }
  }

  lemma BindKeepsInv(t: Tables, project: nat, k: string, organization: nat, repository: string, branch: string,
                     automatic: bool, now: int)
    requires Inv(t)
    ensures Inv(Bind(t, project, k, organization, repository, branch, automatic, now))
  {
  }

  lemma NextKeepsInv(t: Tables, s: Step)
    requires Inv(t)
    ensures Inv(Next(t, s))
  {
    match s
    case ApplyStep(c) =>
      if Commits(t, c) { CommitKeepsInv(t, c); }
    case ClaimStep(id, token, ctx, now) =>
      ClaimKeepsInv(t, id, token, ctx, now);
    case FinishStep(id, token, ok, error, ctx, now) =>
      FinishKeepsInv(t, id, token, ok, error, ctx, now);
    case ConnectStep(k, organization, login, accountId, all, names, now) =>
      ConnectKeepsInv(t, k, organization, login, accountId, all, names, now);
    case BindStep(project, k, organization, repository, branch, automatic, now) =>
      BindKeepsInv(t, project, k, organization, repository, branch, automatic, now);
  }

  /** Every reachable state satisfies the invariant. */
  lemma {:induction false} RunKeepsInv(t: Tables, steps: seq<Step>)
    requires Fresh(t) || Inv(t)
    ensures Inv(Run(t, steps))
  {
    if steps != [] {
      RunKeepsInv(t, steps[..|steps| - 1]);
      NextKeepsInv(Run(t, steps[..|steps| - 1]), steps[|steps| - 1]);
    }
  }

  lemma {:induction false} RunKeepsRows(t: Tables, steps: seq<Step>)
    ensures |t.deliveries| <= |Run(t, steps).deliveries|
    ensures forall i :: 0 <= i < |t.deliveries| ==> SameWebhook(Run(t, steps).deliveries[i], t.deliveries[i])
    ensures forall i :: 0 <= i < |t.deliveries| && Final(t.deliveries[i].state) ==>
      Run(t, steps).deliveries[i] == t.deliveries[i]
    ensures forall k :: k in t.connections ==>
      k in Run(t, steps).connections && Run(t, steps).connections[k].organization == t.connections[k].organization
  {
    if steps != [] {
      RunKeepsRows(t, steps[..|steps| - 1]);
      RowsPersist(Run(t, steps[..|steps| - 1]), steps[|steps| - 1]);
    }
  }

  lemma RunUnique(t: Tables, steps: seq<Step>)
    requires Fresh(t) || Inv(t)
    ensures UniqueIds(Run(t, steps))
  {
    RunKeepsInv(t, steps);
  }
}
