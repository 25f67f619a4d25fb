/** The rows a webhook leaves: which call every row tells of, and whose rows no call touches. */
module WebhookRows {
  import opened Sql
  import opened ProviderTables
  import opened ProviderRuns
  import Patterns
  import Sorting

  // ----- Every row tells of one call

  /** The text, unless there is none or it is empty. */
  function Filled(text: Option<string>): Option<string> {
    if text == Some("") then None else text
  }

  /** A delivery row with the content of a call. */
  predicate Tells(d: Delivery, c: Call) {
    && Some(d.connection) == c.installationId && Some(d.publicId) == c.publicId && Some(d.externalId) == c.deliveryId
    && Some(d.event) == c.event && Some(d.digest) == c.digest
    && d.action == (if c.action == Some(BlankAction) then None else c.action)
    && d.repository == Filled(c.repository) && d.gitRef == Filled(c.gitRef)
    && d.commit == c.headCommit && d.baseCommit == c.baseCommit && d.pullRequest == c.pullRequest
    && Some(d.forced) == c.forced && Some(d.deleted) == c.deleted && d.createdAt == c.now
  }

  predicate TellsToo(o: OutboxRow, a: AuditRow, c: Call) {
    && Some(o.publicId) == c.eventId && Some(a.publicId) == c.auditId
    && Some(o.requestId) == c.requestId && Some(a.requestId) == c.requestId
    && Some(o.connection) == c.installationId && Some(a.connection) == c.installationId
    && Some(o.event) == c.event && Some(a.event) == c.event
    && Some(o.deliveryId) == c.deliveryId && Some(a.deliveryId) == c.deliveryId
    && o.action == (if c.action == Some(BlankAction) then None else c.action)
    && o.repository == Filled(c.repository) && o.gitRef == Filled(c.gitRef)
    && o.commit == c.headCommit && o.baseCommit == c.baseCommit && o.pullRequest == c.pullRequest
    && Some(o.forced) == c.forced && Some(o.deleted) == c.deleted && o.occurredAt == c.now && a.occurredAt == c.now
  }

  /** The three rows at one position tell of the call. */
  predicate RowsTell(t: Tables, i: nat, c: Call) {
    && i < |t.deliveries| && i < |t.outbox| && i < |t.audit|
    && Tells(t.deliveries[i], c) && TellsToo(t.outbox[i], t.audit[i], c)
  }

  lemma CommitTells(t: Tables, c: Call)
    requires Commits(t, c) && |t.outbox| == |t.deliveries| == |t.audit|
    ensures RowsTell(Committed(t, c), |t.deliveries|, c)
  {
    CommitAppends(t, c);
  }

  lemma StepKeepsEvents(t: Tables, s: Step)
    ensures t.outbox <= Next(t, s).outbox && t.audit <= Next(t, s).audit
  {
  }

  lemma StepStillTells(t: Tables, s: Step, i: nat, c: Call)
    requires RowsTell(t, i, c)
    ensures RowsTell(Next(t, s), i, c)
  {
    RowsPersist(t, s);
    StepKeepsEvents(t, s);
    assert SameWebhook(Next(t, s).deliveries[i], t.deliveries[i]);
  }

  lemma OnlyCallsRecord(t: Tables, s: Step, i: nat)
    requires |t.deliveries| <= i < |Next(t, s).deliveries|
    ensures s.ApplyStep? && Commits(t, s.call) && i == |t.deliveries|
  {
    RowsPersist(t, s);
  }

  /** Every row tells of exactly the call that recorded it: the one that committed when there were as many rows before
      it. */
  lemma {:induction false} RowTellsCall(t: Tables, steps: seq<Step>, i: nat) returns (n: nat)
    requires Fresh(t) && i < |Run(t, steps).deliveries|
    ensures n < |steps| && steps[n].ApplyStep? && Commits(Run(t, steps[..n]), steps[n].call)
    ensures |Run(t, steps[..n]).deliveries| == i && RowsTell(Run(t, steps), i, steps[n].call)
  {
    var init, s := steps[..|steps| - 1], steps[|steps| - 1];
    var u := Run(t, init);
    RunKeepsInv(t, init);
    if i < |u.deliveries| {
      n := RowTellsCall(t, init, i);
      assert init[..n] == steps[..n];
      StepStillTells(u, s, i, steps[n].call);
    } else {
      n := |init|;
      OnlyCallsRecord(u, s, i);
      CommitTells(u, s.call);
    }
  }

  /** What the checks on a call guarantee of every recorded row, whatever its event and state: the formats of its
      columns; no pull request is forced; installation events carry nothing of a repository. */
  predicate Shaped(d: Delivery) {
    && Patterns.PublicId(d.publicId) && Patterns.Token(d.externalId) && Patterns.Digest(d.digest)
    && (d.commit.Some? ==> Patterns.Commit(d.commit.value))
    && (d.baseCommit.Some? ==> Patterns.Commit(d.baseCommit.value))
    && (d.repository.Some? ==> Patterns.Repository(d.repository.value))
    && (d.gitRef.Some? ==> 0 < |d.gitRef.value| <= 512) && (d.pullRequest.Some? ==> d.pullRequest.value >= 1)
    && (d.action.Some? && d.action.value.OtherAction? ==> |d.action.value.text| <= 64)
    && d.event != UnlistedEvent
    && (d.event == Push ==>
          d.repository.Some? && d.gitRef.Some? && d.pullRequest == None && (d.commit.Some? <==> !d.deleted))
    && (d.event == PullRequest ==>
          && d.repository.Some? && d.gitRef.Some? && d.commit.Some? && d.baseCommit.Some? && d.pullRequest.Some?
          && !d.forced)
    && (d.event == Installation || d.event == InstallationRepositories ==>
          && d.repository == None && d.gitRef == None && d.commit == None && d.baseCommit == None
          && d.pullRequest == None && !d.forced && !d.deleted)
    && (d.event == Installation ==> d.action.Some?)
    && (d.event == InstallationRepositories && d.action.Some? ==> d.action == Some(Added) || d.action == Some(Removed))
  }

  predicate ShapedToo(o: OutboxRow, a: AuditRow) {
    && Patterns.PublicId(o.publicId) && Patterns.PublicId(a.publicId)
    && Patterns.RequestId(o.requestId) && a.requestId == o.requestId
  }

  lemma ToldIsShaped(d: Delivery, o: OutboxRow, a: AuditRow, c: Call)
    requires Tells(d, c) && TellsToo(o, a, c) && !Rejected(c)
    ensures Shaped(d) && ShapedToo(o, a)
  {
  }

  /** On every run, every row has the shape its constraints and its event ask for. */
  lemma RowsAreShaped(t: Tables, steps: seq<Step>, i: nat)
    requires Fresh(t) && i < |Run(t, steps).deliveries|
    ensures var u := Run(t, steps);
      && i < |u.outbox| && i < |u.audit|
      && Shaped(u.deliveries[i]) && ShapedToo(u.outbox[i], u.audit[i])
  {
    var n := RowTellsCall(t, steps, i);
    var u := Run(t, steps);
    ToldIsShaped(u.deliveries[i], u.outbox[i], u.audit[i], steps[n].call);
  }

  // ----- Whose rows are left alone

  /** A webhook or a reconnection of another installation. */
  predicate OfAnother(s: Step, key: string) {
    || (s.ApplyStep? && s.call.installationId != Some(key))
    || (s.ConnectStep? && s.installation != key)
  }

  /** The connection, its bindings and its deliveries are the same, row by row. */
  ghost predicate SameFor(t: Tables, u: Tables, key: string) {
    && (key in u.connections <==> key in t.connections)
    && (key in t.connections ==> u.connections[key] == t.connections[key])
    && |u.bindings| == |t.bindings| && |t.deliveries| <= |u.deliveries|
    && (forall b :: 0 <= b < |t.bindings| && t.bindings[b].connection == key ==> u.bindings[b] == t.bindings[b])
    && (forall b :: 0 <= b < |t.bindings| ==> u.bindings[b].connection == t.bindings[b].connection)
    && (forall i :: 0 <= i < |t.deliveries| && t.deliveries[i].connection == key ==> u.deliveries[i] == t.deliveries[i])
    && (forall i :: 0 <= i < |t.deliveries| ==> u.deliveries[i].connection == t.deliveries[i].connection)
    && (forall i :: |t.deliveries| <= i < |u.deliveries| ==> u.deliveries[i].connection != key)
  }

  lemma CallLeavesOthers(t: Tables, c: Call, key: string)
    requires Commits(t, c) && c.installationId != Some(key)
    ensures SameFor(t, Committed(t, c), key)
  {
    CommitAppends(t, c);
  }

  lemma StepLeavesOthers(t: Tables, s: Step, key: string)
    requires OfAnother(s, key)
    ensures SameFor(t, Next(t, s), key)
  {
    if s.ApplyStep? && Commits(t, s.call) { CallLeavesOthers(t, s.call, key); }
  }

  lemma SameForTransitive(t: Tables, u: Tables, v: Tables, key: string)
    requires SameFor(t, u, key) && SameFor(u, v, key)
    ensures SameFor(t, v, key)
  {
  }

  /** Whatever happens to other installations, a connection and its bindings and deliveries stay as they are. */
  lemma {:induction false} InstallationsAreApart(t: Tables, steps: seq<Step>, key: string)
    requires forall k :: 0 <= k < |steps| ==> OfAnother(steps[k], key)
    ensures SameFor(t, Run(t, steps), key)
  {
    if steps != [] {
      var init := steps[..|steps| - 1];
      InstallationsAreApart(t, init, key);
      StepLeavesOthers(Run(t, init), steps[|steps| - 1], key);
      SameForTransitive(t, Run(t, init), Run(t, steps), key);
    }
  }

  /** Pushes and pull requests leave the repository list of their connection alone. */
  lemma WorkLeavesList(t: Tables, c: Call, key: string)
    requires Commits(t, c) && (c.event == Some(Push) || c.event == Some(PullRequest)) && key in t.connections
    ensures key in Committed(t, c).connections
    ensures Committed(t, c).connections[key].repositories == t.connections[key].repositories
  {
  }

  /** A delivery id reused for other content is answered as such, and is never work. */
  lemma MismatchIsNoWork(t: Tables, c: Call, i: nat)
    requires !Rejected(c) && Known(t, c) && FindExternal(t.deliveries, c.deliveryId) == Some(i)
    requires c.digest.Some? && c.digest != Some(t.deliveries[i].digest)
    ensures ApplyOutcome(t, c).Repeated? && !ApplyOutcome(t, c).sameContent
    ensures ApplyOutcome(t, c).workPending == Some(false) && Apply(t, c) == t
  {
  }

  /** A delivery row that a step changes carries the time of that step. */
  lemma ChangedRowIsStamped(t: Tables, s: Step, i: nat)
    requires i < |t.deliveries| && i < |Next(t, s).deliveries| && Next(t, s).deliveries[i] != t.deliveries[i]
    ensures (s.ApplyStep? && Next(t, s).deliveries[i].updatedAt == s.call.now)
      || ((s.ClaimStep? || s.FinishStep?) && Next(t, s).deliveries[i].updatedAt == s.now)
  {
    if s.ApplyStep? && Commits(t, s.call) { CommitAppends(t, s.call); }
  }

  // ----- Lists

  /** Names of the right form; the login fits its column. */
  ghost predicate Presentable(k: Connection) {
    && |k.login| <= 255
    && forall x :: x in k.repositories && x.Some? ==> Patterns.Repository(x.value)
  }

  lemma NamesStayGood(current: Names, mode: Option<Mode>, given: Names, x: Option<string>)
    requires x in NextNames(current, mode, given)
    ensures x in current || x in given
  {
    match mode
    case Some(Add) => SortedHas(Sorting.Distinct(current + given), x);
    case Some(Remove) => SortedHas(Without(current, given), x);
    case _ =>
  }

  lemma SortedHas(xs: Names, x: Option<string>)
    requires x in Sorting.Sort(NameBelow, xs)
    ensures x in xs
  {
    Sorting.SortPermutes(NameBelow, xs);
    Sorting.SameElements(Sorting.Sort(NameBelow, xs), xs);
  }

  /** What webhooks write to a connection is of the right form. */
  lemma WebhooksKeepPresentable(t: Tables, c: Call, key: string)
    requires Commits(t, c) && key in t.connections && Presentable(t.connections[key])
    ensures key in Committed(t, c).connections && Presentable(Committed(t, c).connections[key])
  {
    if c.installationId == Some(key) {
      var k, given := t.connections[key], GivenNames(c);
      var n := UpdatedConnection(k, c);
      forall x | x in n.repositories && x.Some? ensures Patterns.Repository(x.value) {
        NamesStayGood(k.repositories, c.mode, given, x);
        if x in given {
          var j :| 0 <= j < |given| && given[j] == x;
          assert !BadRepository(given[j]);
        }
      }
    }
  }

  // ----- Binding a project

  predicate IsBound(b: Binding, project: nat, connection: string, repository: string, branch: string, automatic: bool) {
    && b.project == project && b.connection == connection && b.repository == repository && b.branch == branch
    && b.automatic == automatic
  }

  predicate Has(bs: seq<Binding>, project: nat, connection: string, repository: string, branch: string,
                automatic: bool) {
    exists i :: 0 <= i < |bs| && IsBound(bs[i], project, connection, repository, branch, automatic)
  }

  /** No project has two bindings. */
  ghost predicate OneEach(bs: seq<Binding>) {
    forall i, j :: 0 <= i < j < |bs| ==> bs[i].project != bs[j].project
  }

  lemma {:induction false} NoProject(bs: seq<Binding>, project: nat)
    requires FindProject(bs, project) == None
    ensures forall i :: 0 <= i < |bs| ==> bs[i].project != project
  {
    if bs != [] { NoProject(bs[..|bs| - 1], project); }
  }

  /** A project is bound exactly if the connection is one of the organization, is active and lists the repository;
      then it has one binding, as asked for, and every other binding is as it was. */
  lemma BindsIff(t: Tables, project: nat, connection: string, organization: nat, repository: string, branch: string,
                 automatic: bool, now: int)
    requires OneEach(t.bindings)
    ensures var u := Bind(t, project, connection, organization, repository, branch, automatic, now);
      var may := connection in t.connections && t.connections[connection].organization == organization
        && t.connections[connection].status == Active
        && (t.connections[connection].allRepositories || Some(repository) in t.connections[connection].repositories);
      && u == t.(bindings := u.bindings) && OneEach(u.bindings) && (!may ==> u == t)
      && (may ==> Has(u.bindings, project, connection, repository, branch, automatic))
      && |t.bindings| <= |u.bindings|
      && (forall i :: 0 <= i < |t.bindings| && t.bindings[i].project != project ==> u.bindings[i] == t.bindings[i])
  {
    var u := Bind(t, project, connection, organization, repository, branch, automatic, now);
    var found := FindProject(t.bindings, project);
    if u != t {
      if found == None {
        NoProject(t.bindings, project);
        assert IsBound(u.bindings[|t.bindings|], project, connection, repository, branch, automatic);
      } else {
        assert IsBound(u.bindings[found.value], project, connection, repository, branch, automatic);
      }
    }
  }

  /** On every run a project has at most one binding. */
  lemma {:induction false} OneBindingEach(t: Tables, steps: seq<Step>)
    requires OneEach(t.bindings)
    ensures OneEach(Run(t, steps).bindings)
  {
    if steps != [] {
      var init, s := steps[..|steps| - 1], steps[|steps| - 1];
      OneBindingEach(t, init);
      if s.BindStep? {
        BindsIff(Run(t, init), s.project, s.connection, s.organization, s.repository, s.branch, s.automatic, s.now);
      }
    }
  }
}
