/** The tables behind the GitHub provider boundary and what one call of each of its functions does
    to them. A call is one atomic step; `now` is the clock read inside it. */
module ProviderTables {
  import opened Sql
  import opened Sorting
  import Patterns

  /** Twenty minutes, in microseconds: how long a lease may go unrenewed. */
  const LEASE_TIMEOUT := 20 * 60 * 1_000_000

  // ----- Rows

  datatype DeliveryState = Received | Processing | Processed | Ignored | Failed

  /** States the claim function takes work from. */
  predicate Waiting(s: DeliveryState) { s == Received || s == Failed }

  /** States that are final. */
  predicate Final(s: DeliveryState) { s == Processed || s == Ignored }

  datatype EventType = Push | PullRequest | Installation | InstallationRepositories | UnlistedEvent

  datatype Action = Opened | Reopened | Synchronize | Added | Removed | BlankAction | OtherAction(text: string)

  datatype Delivery = Delivery(
    publicId: string,
    organization: nat,
    connection: string,
    externalId: string,
    event: EventType,
    action: Option<Action>,
    digest: string,
    state: DeliveryState,
    repository: Option<string>,
    gitRef: Option<string>,
    commit: Option<string>,
    baseCommit: Option<string>,
    pullRequest: Option<int>,
    forced: bool,
    deleted: bool,
    processedAt: Option<int>,
    attempts: nat,
    token: Option<string>,
    startedAt: Option<int>,
    lastError: Option<string>,
    createdAt: int,
    updatedAt: int)

  datatype ConnectionStatus = Active | Suspended | Revoked

  /** Elements of a jsonb array of names, as text; `None` is a JSON null. */
  type Names = seq<Option<string>>

  datatype Connection = Connection(
    organization: nat,
    status: ConnectionStatus,
    login: string,
    accountId: Option<int>,
    allRepositories: bool,
    repositories: Names,
    revokedAt: Option<int>,
    lastWebhookAt: Option<int>,
    updatedAt: int)

  datatype Binding = Binding(
    project: nat,
    connection: string,
    repository: string,
    branch: string,
    automatic: bool,
    generation: nat,
    currentFetch: Option<nat>,
    lastDelivery: Option<nat>,
    currentRef: Option<string>,
    requestedCommit: Option<string>,
    updatedAt: int)

  datatype OutboxRow = OutboxRow(
    publicId: string,
    organization: nat,
    connection: string,
    event: EventType,
    requestId: string,
    deliveryId: string,
    action: Option<Action>,
    repository: Option<string>,
    gitRef: Option<string>,
    commit: Option<string>,
    baseCommit: Option<string>,
    pullRequest: Option<int>,
    forced: bool,
    deleted: bool,
    occurredAt: int)

  datatype AuditRow = AuditRow(
    publicId: string,
    organization: nat,
    connection: string,
    requestId: string,
    deliveryId: string,
    event: EventType,
    occurredAt: int)

  /** Connections are keyed by their unique installation id; the other tables grow at the end, so a
      row's position is its primary key. */
  datatype Tables = Tables(
    connections: map<string, Connection>,
    bindings: seq<Binding>,
    deliveries: seq<Delivery>,
    outbox: seq<OutboxRow>,
    audit: seq<AuditRow>)

  function FindExternal(ds: seq<Delivery>, id: Option<string>): (r: Option<nat>)
    ensures r.Some? ==> r.value < |ds| && Some(ds[r.value].externalId) == id
    ensures r == None ==> forall i :: 0 <= i < |ds| ==> Some(ds[i].externalId) != id
  {
    if ds == [] then None
    else if Some(ds[|ds| - 1].externalId) == id then Some(|ds| - 1)
    else FindExternal(ds[..|ds| - 1], id)
  }

  function FindPublic(ds: seq<Delivery>, id: Option<string>): (r: Option<nat>)
    ensures r.Some? ==> r.value < |ds| && Some(ds[r.value].publicId) == id
    ensures r == None ==> forall i :: 0 <= i < |ds| ==> Some(ds[i].publicId) != id
  {
    if ds == [] then None
    else if Some(ds[|ds| - 1].publicId) == id then Some(|ds| - 1)
    else FindPublic(ds[..|ds| - 1], id)
  }

  // ----- Recording a webhook delivery

  datatype StateArgument = ToReceived | ToProcessed | ToIgnored | UnlistedState
  datatype StatusArgument = KeepStatus | ToActive | ToSuspended | ToRevoked | UnlistedStatus
  datatype SelectionArgument = KeepSelection | SelectAll | SelectSome | UnlistedSelection
  datatype Mode = NoChange | Replace | Add | Remove | UnlistedMode
  datatype NamesArgument = NotAnArray | Array(names: Names)

  /** The arguments of one call; every one of them may be NULL. `actor` is the active member the
      function elects for the connection's organization, if there is one. */
  datatype Call = Call(
    installationId: Option<string>,
    deliveryId: Option<string>,
    event: Option<EventType>,
    action: Option<Action>,
    digest: Option<string>,
    repository: Option<string>,
    gitRef: Option<string>,
    headCommit: Option<string>,
    baseCommit: Option<string>,
    pullRequest: Option<int>,
    forced: Option<bool>,
    deleted: Option<bool>,
    state: Option<StateArgument>,
    nextStatus: Option<StatusArgument>,
    login: Option<string>,
    accountId: Option<int>,
    selection: Option<SelectionArgument>,
    mode: Option<Mode>,
    names: Option<NamesArgument>,
    publicId: Option<string>,
    eventId: Option<string>,
    auditId: Option<string>,
    requestId: Option<string>,
    actor: Option<string>,
    now: int)

  datatype Outcome =
    | Raised
    | UnknownInstallation
    | Repeated(sameContent: bool, publicId: string, organization: nat, actor: string, workPending: Bool3)
    | Recorded(state: DeliveryState, publicId: string, organization: nat, actor: string, workPending: Bool3)

  predicate Blank(text: Option<string>) {
    text == None || text == Some("")
  }

  // `text !~ pattern` and `x <> y` are TRUE only for a value that is not NULL.

  predicate BadPublicId(text: Option<string>) { text.Some? && !Patterns.PublicId(text.value) }
  predicate BadToken(text: Option<string>) { text.Some? && !Patterns.Token(text.value) }
  predicate BadCommit(text: Option<string>) { text.Some? && !Patterns.Commit(text.value) }
  predicate BadRepository(text: Option<string>) { text.Some? && !Patterns.Repository(text.value) }

  predicate Differs<T(==)>(x: Option<T>, y: T) { x.Some? && x.value != y }

  function ActionLength(a: Option<Action>): nat {
    match a
    case Some(OtherAction(text)) => |text|
    case _ => 0
  }

  predicate BadCommon(c: Call) {
    || c.event == Some(UnlistedEvent)
    || c.state == Some(UnlistedState)
    || (c.installationId.Some? && !Patterns.InstallationId(c.installationId.value))
    || BadToken(c.deliveryId)
    || (c.digest.Some? && !Patterns.Digest(c.digest.value))
    || BadPublicId(c.publicId) || BadPublicId(c.eventId) || BadPublicId(c.auditId)
    || (c.requestId.Some? && !Patterns.RequestId(c.requestId.value))
    || ActionLength(c.action) > 64
    || (c.login.Some? && |c.login.value| > 255)
    || (c.accountId.Some? && c.accountId.value < 1)
    || BadCommit(c.headCommit) || BadCommit(c.baseCommit)
    || (c.repository != Some("") && BadRepository(c.repository))
    || (c.gitRef.Some? && |c.gitRef.value| > 512)
    || (c.pullRequest.Some? && c.pullRequest.value < 1)
    || c.nextStatus == Some(UnlistedStatus)
    || c.selection == Some(UnlistedSelection)
    || c.mode == Some(UnlistedMode)
    || c.names == Some(NotAnArray)
    || (exists i :: 0 <= i < |GivenNames(c)| && BadRepository(GivenNames(c)[i]))
  }

  predicate BadPush(c: Call) {
    || Blank(c.repository) || Blank(c.gitRef)
    || c.pullRequest.Some? || Differs(c.mode, NoChange)
    || (c.deleted == Some(true) && c.headCommit.Some?)
    || (c.deleted == Some(false) && c.headCommit == None)
    || (c.deleted == Some(true) && Differs(c.state, ToIgnored))
    || (c.deleted == Some(false) && Differs(c.state, ToReceived))
  }

  predicate Relevant(a: Action) {
    a == Opened || a == Reopened || a == Synchronize
  }

  predicate BadPullRequest(c: Call) {
    || Blank(c.repository) || Blank(c.gitRef)
    || c.headCommit == None || c.baseCommit == None || c.pullRequest == None
    || c.forced == Some(true) || Differs(c.mode, NoChange)
    || (c.action.Some? && Relevant(c.action.value) && Differs(c.state, ToReceived))
    || (c.action.Some? && !Relevant(c.action.value) && Differs(c.state, ToIgnored))
  }

  predicate CarriesGitFields(c: Call) {
    || c.repository.Some? || c.gitRef.Some? || c.headCommit.Some?
    || c.baseCommit.Some? || c.pullRequest.Some? || c.forced == Some(true) || c.deleted == Some(true)
  }

  predicate BadInstallation(c: Call) {
    || c.action == None || c.action == Some(BlankAction) || Blank(c.login) || c.accountId == None
    || (Differs(c.state, ToProcessed) && Differs(c.state, ToIgnored))
    || CarriesGitFields(c)
  }

  predicate BadInstallationRepositories(c: Call) {
    || (Differs(c.action, Added) && Differs(c.action, Removed))
    || (Differs(c.selection, SelectAll) && Differs(c.selection, SelectSome))
    || (Differs(c.mode, Add) && Differs(c.mode, Remove))
    || Differs(c.state, ToProcessed)
    || CarriesGitFields(c)
  }

  /** The validation at the head of the function is TRUE, so it raises. */
  predicate Rejected(c: Call) {
    || BadCommon(c)
    || (c.event == Some(Push) && BadPush(c))
    || (c.event == Some(PullRequest) && BadPullRequest(c))
    || (c.event == Some(Installation) && BadInstallation(c))
    || (c.event == Some(InstallationRepositories) && BadInstallationRepositories(c))
  }

  /** `COALESCE(repository_values, '[]')`. */
  function GivenNames(c: Call): Names {
    match c.names
    case Some(Array(names)) => names
    case _ => []
  }

  /** Deactivating calls are those whose `next_connection_status IN ('suspended', 'revoked')`. */
  predicate Deactivates(c: Call) {
    c.nextStatus == Some(ToSuspended) || c.nextStatus == Some(ToRevoked)
  }

  /** The state the new row gets: work for an inactive connection is ignored. */
  function StateFor(status: ConnectionStatus, c: Call): (r: Option<DeliveryState>) {
    if (c.event == Some(Push) || c.event == Some(PullRequest)) && status != Active then Some(Ignored)
    else match c.state
      case Some(ToReceived) => Some(Received)
      case Some(ToProcessed) => Some(Processed)
      case Some(ToIgnored) => Some(Ignored)
      case _ => None
  }

  /** Text order with SQL's NULLS LAST. */
  predicate NameBelow(a: Option<string>, b: Option<string>) {
    a.Some? && (b == None || Below(a.value, b.value))
  }

  /** The names of `xs` that are not JSON null and not among `given`. */
  function Without(xs: Names, given: Names): (r: Names)
    ensures forall x :: x in r <==> x in xs && x.Some? && x !in given
  {
    if xs == [] then []
    else (if xs[0].Some? && xs[0] !in given then [xs[0]] else []) + Without(xs[1..], given)
  }

  function NextNames(current: Names, mode: Option<Mode>, given: Names): Names {
    match mode
    case Some(Replace) => given
    case Some(Add) => Sort(NameBelow, Distinct(current + given))
    case Some(Remove) => Sort(NameBelow, Without(current, given))
    case _ => current
  }

  function NextStatus(status: ConnectionStatus, next: Option<StatusArgument>): ConnectionStatus {
    match next
    case Some(ToActive) => Active
    case Some(ToSuspended) => Suspended
    case Some(ToRevoked) => Revoked
    case _ => status
  }

  function UpdatedConnection(k: Connection, c: Call): Connection {
    Connection(
      k.organization,
      NextStatus(k.status, c.nextStatus),
      Coalesce(NullIf(c.login, ""), k.login),
      if c.accountId.Some? then c.accountId else k.accountId,
      (match c.selection case Some(SelectAll) => true case Some(SelectSome) => false case _ => k.allRepositories),
      NextNames(k.repositories, c.mode, GivenNames(c)),
      (match c.nextStatus case Some(ToRevoked) => Some(c.now) case Some(ToActive) => None case _ => k.revokedAt),
      Some(c.now),
      c.now)
  }

  function DetachedBinding(b: Binding, now: int): Binding {
    b.(automatic := false, generation := b.generation + 1, updatedAt := now)
  }

  function UpdatedBinding(b: Binding, connection: string, c: Call): Binding {
    var afterRemoval :=
      if c.mode == Some(Remove) && b.connection == connection && Some(b.repository) in GivenNames(c)
      then DetachedBinding(b, c.now) else b;
    if Deactivates(c) && b.connection == connection && afterRemoval.automatic
    then DetachedBinding(afterRemoval, c.now) else afterRemoval
  }

  function UpdatedBindings(bs: seq<Binding>, connection: string, c: Call): (r: seq<Binding>)
    ensures |r| == |bs|
    ensures forall i :: 0 <= i < |bs| ==> r[i] == UpdatedBinding(bs[i], connection, c)
  {
    seq(|bs|, i requires 0 <= i < |bs| => UpdatedBinding(bs[i], connection, c))
  }

  /** The update that takes waiting work off a deactivated connection. */
  function DrainedDelivery(d: Delivery, connection: string, now: int): Delivery {
    if d.connection == connection && Waiting(d.state)
    then d.(state := Ignored, processedAt := Some(now), token := None, startedAt := None,
            lastError := None, updatedAt := now)
    else d
  }

  function DrainedDeliveries(ds: seq<Delivery>, connection: string, now: int): (r: seq<Delivery>)
    ensures |r| == |ds|
    ensures forall i :: 0 <= i < |ds| ==> r[i] == DrainedDelivery(ds[i], connection, now)
  {
    seq(|ds|, i requires 0 <= i < |ds| => DrainedDelivery(ds[i], connection, now))
  }

  /** The NOT NULL columns of the three inserted rows have values. */
  predicate DeliveryColumns(status: ConnectionStatus, c: Call) {
    && c.publicId.Some? && c.deliveryId.Some? && c.event.Some? && c.digest.Some?
    && StateFor(status, c).Some? && c.forced.Some? && c.deleted.Some?
  }

  predicate EventColumns(c: Call) {
    && c.deliveryId.Some? && c.event.Some? && c.forced.Some? && c.deleted.Some?
    && c.eventId.Some? && c.requestId.Some?
  }

  predicate AuditColumns(c: Call) {
    c.deliveryId.Some? && c.event.Some? && c.auditId.Some? && c.requestId.Some?
  }

  predicate Complete(status: ConnectionStatus, c: Call) {
    DeliveryColumns(status, c) && EventColumns(c) && AuditColumns(c)
  }

  /** None of the three unique public ids is taken. */
  predicate FreshIds(t: Tables, c: Call) {
    && (forall i :: 0 <= i < |t.deliveries| ==> Some(t.deliveries[i].publicId) != c.publicId)
    && (forall i :: 0 <= i < |t.outbox| ==> Some(t.outbox[i].publicId) != c.eventId)
    && (forall i :: 0 <= i < |t.audit| ==> Some(t.audit[i].publicId) != c.auditId)
  }

  function NewDelivery(k: Connection, connection: string, c: Call): Delivery
    requires DeliveryColumns(k.status, c)
  {
    var state := StateFor(k.status, c).value;
    Delivery(
      c.publicId.value, k.organization, connection, c.deliveryId.value, c.event.value,
      NullIf(c.action, BlankAction), c.digest.value, state,
      NullIf(c.repository, ""), NullIf(c.gitRef, ""), c.headCommit, c.baseCommit, c.pullRequest,
      c.forced.value, c.deleted.value,
      if Final(state) then Some(c.now) else None,
      0, None, None, None, c.now, c.now)
  }

  function NewOutboxRow(k: Connection, connection: string, c: Call): OutboxRow
    requires EventColumns(c)
  {
    OutboxRow(
      c.eventId.value, k.organization, connection, c.event.value, c.requestId.value, c.deliveryId.value,
      NullIf(c.action, BlankAction), NullIf(c.repository, ""), NullIf(c.gitRef, ""),
      c.headCommit, c.baseCommit, c.pullRequest, c.forced.value, c.deleted.value, c.now)
  }

  function NewAuditRow(k: Connection, connection: string, c: Call): AuditRow
    requires AuditColumns(c)
  {
    AuditRow(c.auditId.value, k.organization, connection, c.requestId.value, c.deliveryId.value,
             c.event.value, c.now)
  }

  /** The installation is known and its organization has an active member. */
  predicate Known(t: Tables, c: Call) {
    c.installationId.Some? && c.installationId.value in t.connections && c.actor.Some?
  }

  /** A call that reaches the end of the function and commits. */
  predicate Commits(t: Tables, c: Call) {
    && !Rejected(c) && Known(t, c)
    && FindExternal(t.deliveries, c.deliveryId) == None
    && Complete(t.connections[c.installationId.value].status, c)
    && FreshIds(t, c)
  }

  /** The tables after a call that commits. */
  function Committed(t: Tables, c: Call): Tables
    requires Commits(t, c)
  {
    var key := c.installationId.value;
    var k := t.connections[key];
    var inserted := t.deliveries + [NewDelivery(k, key, c)];
    Tables(
      t.connections[key := UpdatedConnection(k, c)],
      UpdatedBindings(t.bindings, key, c),
      if Deactivates(c) then DrainedDeliveries(inserted, key, c.now) else inserted,
      t.outbox + [NewOutboxRow(k, key, c)],
      t.audit + [NewAuditRow(k, key, c)])
  }

  function Stale(startedAt: Option<int>, now: int): Bool3 {
    match startedAt
    case Some(at) => Some(at < now - LEASE_TIMEOUT)
    case None => None
  }

  /** The `work_pending` hint given for a delivery that is already recorded. */
  function PendingHint(status: ConnectionStatus, d: Delivery, digest: Option<string>, now: int): Bool3 {
    And3(
      And3(Some(status == Active), Equals3(Some(d.digest), digest)),
      Or3(Some(Waiting(d.state)), And3(Some(d.state == Processing), Stale(d.startedAt, now))))
  }

  function ApplyOutcome(t: Tables, c: Call): Outcome {
    if Rejected(c) then Raised
    else if !Known(t, c) then UnknownInstallation
    else
      var k := t.connections[c.installationId.value];
      match FindExternal(t.deliveries, c.deliveryId)
      case Some(i) =>
        var d := t.deliveries[i];
        Repeated(IsTrue(Equals3(Some(d.digest), c.digest)), d.publicId, k.organization, c.actor.value,
                 PendingHint(k.status, d, c.digest, c.now))
      case None =>
        if !Commits(t, c) then Raised
        else
          var state := StateFor(k.status, c).value;
          Recorded(state, c.publicId.value, k.organization, c.actor.value, Some(state == Received))
  }

  function Apply(t: Tables, c: Call): Tables {
    if Commits(t, c) then Committed(t, c) else t
  }

  // ----- Leasing a delivery

  /** The session settings a call runs under: the selected organization, and the organizations the
      session's account is an active member of. */
  datatype Context = Context(organization: Option<nat>, memberOf: set<nat>) {
    predicate Sees(id: nat) {
      organization == Some(id) && id in memberOf
    }
  }

  datatype ClaimResult = ClaimRaised | Claimed | Busy | AlreadyComplete | Unknown
  datatype FinishResult = FinishRaised | FinishReturned(updated: bool)

  predicate BadLease(publicId: Option<string>, token: Option<string>) {
    BadPublicId(publicId) || BadToken(token)
  }

  function FindVisible(ds: seq<Delivery>, publicId: Option<string>, ctx: Context): (r: Option<nat>)
    ensures r.Some? ==> r.value < |ds| && FindPublic(ds, publicId) == r && ctx.Sees(ds[r.value].organization)
  {
    match FindPublic(ds, publicId)
    case Some(i) => if ctx.Sees(ds[i].organization) then Some(i) else None
    case None => None
  }

  /** `processing_token = lease_token` is TRUE on a row being processed. */
  predicate Holds(d: Delivery, token: Option<string>) {
    d.state == Processing && IsTrue(Equals3(d.token, token))
  }

  predicate MayClaim(d: Delivery, token: Option<string>, now: int) {
    Waiting(d.state) || Holds(d, token) || (d.state == Processing && IsTrue(Stale(d.startedAt, now)))
  }

  function ClaimedRow(d: Delivery, token: Option<string>, now: int): Delivery {
    d.(state := Processing,
       attempts := if Holds(d, token) then d.attempts else d.attempts + 1,
       token := token, startedAt := Some(now), lastError := None, updatedAt := now)
  }

  function ClaimResultFor(t: Tables, publicId: Option<string>, token: Option<string>, ctx: Context,
                          now: int): ClaimResult {
    if BadLease(publicId, token) then ClaimRaised
    else match FindVisible(t.deliveries, publicId, ctx)
      case None => Unknown
      case Some(i) =>
        if MayClaim(t.deliveries[i], token, now) then Claimed
        else if Final(t.deliveries[i].state) then AlreadyComplete
        else if t.deliveries[i].state == Processing then Busy
        else Unknown
  }

  function Claim(t: Tables, publicId: Option<string>, token: Option<string>, ctx: Context, now: int): Tables {
    if ClaimResultFor(t, publicId, token, ctx, now) != Claimed then t
    else
      var i := FindVisible(t.deliveries, publicId, ctx).value;
      t.(deliveries := t.deliveries[i := ClaimedRow(t.deliveries[i], token, now)])
  }

  function FinishedRow(d: Delivery, succeeded: Option<bool>, error: Option<string>, now: int): Delivery {
    var ok := IsTrue(succeeded);
    d.(state := if ok then Processed else Failed,
       processedAt := if ok then Some(now) else None,
       token := None, startedAt := None,
       lastError := if ok then None else NullIf(error, ""),
       updatedAt := now)
  }

  function FinishResultFor(t: Tables, publicId: Option<string>, token: Option<string>, error: Option<string>,
                           ctx: Context): FinishResult {
    if BadLease(publicId, token) || (error.Some? && |error.value| > 128) then FinishRaised
    else match FindVisible(t.deliveries, publicId, ctx)
      case None => FinishReturned(false)
      case Some(i) => FinishReturned(Holds(t.deliveries[i], token))
  }

  function Finish(t: Tables, publicId: Option<string>, token: Option<string>, succeeded: Option<bool>,
                  error: Option<string>, ctx: Context, now: int): Tables {
    if FinishResultFor(t, publicId, token, error, ctx) != FinishReturned(true) then t
    else
      var i := FindVisible(t.deliveries, publicId, ctx).value;
      t.(deliveries := t.deliveries[i := FinishedRow(t.deliveries[i], succeeded, error, now)])
  }

  // ----- Connecting installations and projects

  function AsNames(names: seq<string>): (r: Names)
    ensures |r| == |names| && forall i :: 0 <= i < |names| ==> r[i] == Some(names[i])
  {
    seq(|names|, i requires 0 <= i < |names| => Some(names[i]))
  }

  /** The names given when connecting, without repeats and in order. */
  function SortedNames(names: seq<string>): Names {
    Sort(NameBelow, Distinct(AsNames(names)))
  }

  /** Connecting an installation: activates it and replaces its repository list. An installation
      already owned by another organization is refused. */
  function Connect(t: Tables, installation: string, organization: nat, login: string, accountId: int,
                   all: bool, names: seq<string>, now: int): Tables {
    if installation in t.connections && t.connections[installation].organization != organization then t
    else
      var webhookAt := if installation in t.connections then t.connections[installation].lastWebhookAt else None;
      t.(connections := t.connections[installation :=
           Connection(organization, Active, login, Some(accountId), all, SortedNames(names), None, webhookAt, now)])
  }

  predicate Authorizes(k: Connection, repository: string) {
    k.allRepositories || Some(repository) in k.repositories
  }

  function FindProject(bs: seq<Binding>, project: nat): (r: Option<nat>)
    ensures r.Some? ==> r.value < |bs| && bs[r.value].project == project
  {
    if bs == [] then None
    else if bs[|bs| - 1].project == project then Some(|bs| - 1)
    else FindProject(bs[..|bs| - 1], project)
  }

  /** Binding a project to a repository of an active connection; a project has one binding. */
  function Bind(t: Tables, project: nat, connection: string, organization: nat, repository: string,
                branch: string, automatic: bool, now: int): Tables {
    if connection !in t.connections || t.connections[connection].organization != organization
       || t.connections[connection].status != Active || !Authorizes(t.connections[connection], repository)
    then t
    else match FindProject(t.bindings, project)
      case Some(i) =>
        var b := t.bindings[i];
        t.(bindings := t.bindings[i := b.(connection := connection, repository := repository, branch := branch,
             automatic := automatic, generation := b.generation + 1, updatedAt := now)])
      case None =>
        t.(bindings := t.bindings +
             [Binding(project, connection, repository, branch, automatic, 1, None, None, None, None, now)])
  }
}
