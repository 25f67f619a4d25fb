/** A connection's row, read off the webhooks and reconnections of a run: every column holds what was written to it
    last. */
module ConnectionHistory {
  import opened Sql
  import opened ProviderTables
  import opened ProviderRuns

  /** What one step writes to a connection's columns; `None` leaves a column as it is. */
  datatype Writes = Writes(
    status: Option<ConnectionStatus>,
    all: Option<bool>,
    login: Option<string>,
    accountId: Option<Option<int>>,
    revokedAt: Option<Option<int>>,
    webhookAt: Option<Option<int>>,
    updatedAt: Option<int>)

  const NOTHING := Writes(None, None, None, None, None, None, None)

  /** A webhook of the installation that commits. */
  predicate IsWebhook(t: Tables, s: Step, key: string) {
    s.ApplyStep? && s.call.installationId == Some(key) && Commits(t, s.call)
  }

  /** A reconnection by the organization that owns the installation. */
  predicate IsReconnection(t: Tables, s: Step, key: string)
    requires key in t.connections
  {
    s.ConnectStep? && s.installation == key && s.organization == t.connections[key].organization
  }

  function StatusOf(c: Call): Option<ConnectionStatus> {
    if c.nextStatus == Some(ToActive) then Some(Active)
    else if c.nextStatus == Some(ToSuspended) then Some(Suspended)
    else if c.nextStatus == Some(ToRevoked) then Some(Revoked)
    else None
  }

  function SelectionOf(c: Call): Option<bool> {
    if c.selection == Some(SelectAll) then Some(true)
    else if c.selection == Some(SelectSome) then Some(false)
    else None
  }

  /** Reactivation forgets when the installation was revoked; suspension does not. */
  function RevocationOf(c: Call): Option<Option<int>> {
    if StatusOf(c) == Some(Revoked) then Some(Some(c.now))
    else if StatusOf(c) == Some(Active) then Some(None)
    else None
  }

  function Written(t: Tables, s: Step, key: string): Writes
    requires key in t.connections
  {
    if IsReconnection(t, s, key) then
      Writes(Some(Active), Some(s.all), Some(s.login), Some(Some(s.accountId)), Some(None), None, Some(s.now))
    else if IsWebhook(t, s, key) then
      var c := s.call;
      Writes(StatusOf(c), SelectionOf(c), if Blank(c.login) then None else c.login,
             if c.accountId == None then None else Some(c.accountId), RevocationOf(c), Some(Some(c.now)), Some(c.now))
    else NOTHING
  }

  lemma {:induction false} ConnectionStays(t: Tables, steps: seq<Step>, key: string)
    requires key in t.connections
    ensures key in Run(t, steps).connections
  {
    if steps != [] { ConnectionStays(t, steps[..|steps| - 1], key); }
  }

  ghost function History(t: Tables, steps: seq<Step>, key: string): seq<Writes>
    requires key in t.connections
  {
    if steps == [] then []
    else
      var init := steps[..|steps| - 1];
      ConnectionStays(t, init, key);
      History(t, init, key) + [Written(Run(t, init), steps[|steps| - 1], key)]
  }

  /** The last value written to a column, or the one it had. */
  function Last<T>(before: T, history: seq<Writes>, column: Writes -> Option<T>): T {
    if history == [] then before
    else match column(history[|history| - 1])
      case Some(value) => value
      case None => Last(before, history[..|history| - 1], column)
  }

  lemma LastSnoc<T>(before: T, history: seq<Writes>, w: Writes, column: Writes -> Option<T>)
    ensures Last(before, history + [w], column) ==
      match column(w) case Some(value) => value case None => Last(before, history, column)
  {
    assert (history + [w])[..|history|] == history;
  }

  function Status(w: Writes): Option<ConnectionStatus> { w.status }
  function All(w: Writes): Option<bool> { w.all }
  function Login(w: Writes): Option<string> { w.login }
  function Account(w: Writes): Option<Option<int>> { w.accountId }
  function Revocation(w: Writes): Option<Option<int>> { w.revokedAt }
  function WebhookTime(w: Writes): Option<Option<int>> { w.webhookAt }
  function UpdateTime(w: Writes): Option<int> { w.updatedAt }

  /** The row after the writes of a history. */
  ghost predicate Reads(k: Connection, history: seq<Writes>, now: Connection) {
    && now.organization == k.organization
    && now.status == Last(k.status, history, Status)
    && now.allRepositories == Last(k.allRepositories, history, All)
    && now.login == Last(k.login, history, Login)
    && now.accountId == Last(k.accountId, history, Account)
    && now.revokedAt == Last(k.revokedAt, history, Revocation)
    && now.lastWebhookAt == Last(k.lastWebhookAt, history, WebhookTime)
    && now.updatedAt == Last(k.updatedAt, history, UpdateTime)
  }

  /** The row after one set of writes. */
  predicate Wrote(k: Connection, w: Writes, n: Connection) {
    && n.organization == k.organization
    && n.status == Coalesce(w.status, k.status) && n.allRepositories == Coalesce(w.all, k.allRepositories)
    && n.login == Coalesce(w.login, k.login) && n.accountId == Coalesce(w.accountId, k.accountId)
    && n.revokedAt == Coalesce(w.revokedAt, k.revokedAt)
    && n.lastWebhookAt == Coalesce(w.webhookAt, k.lastWebhookAt) && n.updatedAt == Coalesce(w.updatedAt, k.updatedAt)
  }

  lemma WebhookWrites(t: Tables, c: Call, key: string)
    requires key in t.connections && IsWebhook(t, ApplyStep(c), key)
    ensures key in Committed(t, c).connections
    ensures Wrote(t.connections[key], Written(t, ApplyStep(c), key), Committed(t, c).connections[key])
  {
    assert Committed(t, c).connections[key] == UpdatedConnection(t.connections[key], c);
  }

  lemma StepWrites(t: Tables, s: Step, key: string)
    requires key in t.connections
    ensures key in Next(t, s).connections
    ensures Wrote(t.connections[key], Written(t, s, key), Next(t, s).connections[key])
  {
    if IsWebhook(t, s, key) { WebhookWrites(t, s.call, key); }
  }

  /** On every run each column of a connection holds what was last written to it, by a webhook that committed or by a
      reconnection. */
  lemma {:induction false} ConnectionFollows(t: Tables, steps: seq<Step>, key: string)
    requires key in t.connections
    ensures key in Run(t, steps).connections
    ensures Reads(t.connections[key], History(t, steps, key), Run(t, steps).connections[key])
  {
    if steps != [] {
      var init, s := steps[..|steps| - 1], steps[|steps| - 1];
      ConnectionFollows(t, init, key);
      var k, h, w := t.connections[key], History(t, init, key), Written(Run(t, init), s, key);
      StepWrites(Run(t, init), s, key);
      LastSnoc(k.status, h, w, Status);
      LastSnoc(k.allRepositories, h, w, All);
      LastSnoc(k.login, h, w, Login);
      LastSnoc(k.accountId, h, w, Account);
      LastSnoc(k.revokedAt, h, w, Revocation);
      LastSnoc(k.lastWebhookAt, h, w, WebhookTime);
      LastSnoc(k.updatedAt, h, w, UpdateTime);
    }
  }

  /** Pushes, and pull requests that were opened, reopened or pushed to. */
  predicate OffersWork(c: Call) {
    (c.event == Some(Push) || c.event == Some(PullRequest)) && c.state == Some(ToReceived)
  }

  /** Work is taken exactly while the last status written is active: in particular again after a suspension is
      lifted. */
  lemma WorkIsTakenIff(t: Tables, steps: seq<Step>, key: string, c: Call)
    requires key in t.connections && c.installationId == Some(key) && OffersWork(c) && Commits(Run(t, steps), c)
    ensures var active := Last(t.connections[key].status, History(t, steps, key), Status) == Active;
      && ApplyOutcome(Run(t, steps), c).Recorded?
      && ApplyOutcome(Run(t, steps), c).workPending == Some(active)
      && ApplyOutcome(Run(t, steps), c).state == if active then Received else Ignored
  {
    ConnectionFollows(t, steps, key);
  }

  /** A call that lifts the suspension is enough for the next push to be work. */
  lemma WorkResumes(t: Tables, lifted: Call, c: Call)
    requires Commits(t, lifted) && lifted.nextStatus == Some(ToActive)
    requires c.installationId == lifted.installationId && OffersWork(c) && Commits(Apply(t, lifted), c)
    ensures ApplyOutcome(Apply(t, lifted), c).Recorded? && ApplyOutcome(Apply(t, lifted), c).workPending == Some(true)
    ensures !Deactivates(c) ==> Apply(Apply(t, lifted), c).deliveries[|t.deliveries| + 1].state == Received
  {
    CommitAppends(t, lifted);
    CommitAppends(Apply(t, lifted), c);
  }
}
