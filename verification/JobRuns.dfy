/** Any interleaving of jobs, webhooks and reconnections, and what it promises. */
module JobRuns {
  import opened Sql
  import opened ProviderTables
  import opened ProviderRuns
  import opened DeliveryJobs
  import opened FetchOrder
  import Patterns

  ghost predicate InOrder(w: World) {
    Ordered(w.tables.deliveries, w.fetches, w.tables.bindings)
  }

  // ----- What a transaction never undoes

  /** Fetches stay, and complete ones stay complete. */
  ghost predicate Advances(fs: seq<Fetch>, gs: seq<Fetch>) {
    && |fs| <= |gs|
    && forall f :: 0 <= f < |fs| ==>
         && gs[f].binding == fs[f].binding && gs[f].delivery == fs[f].delivery
         && (fs[f].state == Complete ==> gs[f].state == Complete)
  }

  lemma StartEffect(w: World, f: nat)
    requires f < |w.fetches|
    ensures Start(w, f).world == w.(fetches := Start(w, f).world.fetches)
    ensures OnlyStates(w.fetches, Start(w, f).world.fetches) && Advances(w.fetches, Start(w, f).world.fetches)
  {
  }

  lemma TakeUpAdvances(w: World, d: nat, b: nat, permitted: bool, previous: Option<nat>)
    requires TakeUp(w, d, b, permitted).Some?
    ensures var taken := TakeUp(w, d, b, permitted).value;
      && Advances(w.fetches, taken.fetches)
      && Advances(w.fetches, Supersede(taken.fetches, previous, taken.fetch))
  {
  }

  lemma PushAdvances(w: World, d: nat, b: nat, permitted: bool)
    requires d < |w.tables.deliveries| && b < |w.tables.bindings|
    ensures Advances(w.fetches, PreparePush(w, d, b, permitted).world.fetches)
  {
    var taken := TakeUp(w, d, b, permitted);
    if taken.Some? {
      TakeUpAdvances(w, d, b, permitted, w.tables.bindings[b].currentFetch);
      var v := MakeCurrent(w.(fetches := taken.value.fetches), d, b, taken.value.fetch);
      assert Advances(w.fetches, v.fetches);
      StartEffect(v, taken.value.fetch);
      AdvancesTransitive(w.fetches, v.fetches, Start(v, taken.value.fetch).world.fetches);
    }
  }

  lemma PullRequestAdvances(w: World, d: nat, b: nat, permitted: bool)
    requires d < |w.tables.deliveries| && b < |w.tables.bindings|
    ensures Advances(w.fetches, PreparePullRequest(w, d, b, permitted).world.fetches)
  {
    var taken := TakeUp(w, d, b, permitted);
    if taken.Some? {
      var latest := LatestPrior(w.tables.deliveries, w.fetches, b, d);
      var v := w.(fetches := Supersede(taken.value.fetches, latest, taken.value.fetch));
      assert Advances(w.fetches, v.fetches);
      StartEffect(v, taken.value.fetch);
    }
  }

  // ----- Preparation

  lemma PushKeepsOrder(w: World, d: nat, b: nat, permitted: bool)
    requires InOrder(w) && Chronological(w.tables.deliveries)
    requires d < |w.tables.deliveries| && b < |w.tables.bindings|
    requires Target(w.tables.deliveries[d]) && w.tables.deliveries[d].event == Push && Concerns(w.tables, d, b)
    ensures InOrder(PreparePush(w, d, b, permitted).world)
    ensures var r := PreparePush(w, d, b, permitted);
      r.result.Use? ==> r.result.fetch < |r.world.fetches| && r.world.fetches[r.result.fetch].binding == b
  {
    var ds, fs, bs := w.tables.deliveries, w.fetches, w.tables.bindings;
    var bound, r := bs[b], PreparePush(w, d, b, permitted);
    assert BindingFits(ds, fs, b, bs[b]);
    if bound.lastDelivery.Some? { NewerIsLater(ds, bound.lastDelivery.value, d); }
    if r.result.Skipped? {
    } else if AlreadyCurrent(w, d, b) {
      NoteKeepsOrder(ds, fs, bs, b, bound.(lastDelivery := Some(d), currentRef := ds[d].gitRef), d);
    } else {
      var taken := TakeUp(w, d, b, permitted);
      if taken.Some? {
        PushMayUpdate(w, d, b, permitted);
        TakenUpPush(w, d, b, permitted);
        var v := MakeCurrent(w.(fetches := taken.value.fetches), d, b, taken.value.fetch);
        StartEffect(v, taken.value.fetch);
        StatesKeepOrder(ds, v.fetches, v.tables.bindings, Start(v, taken.value.fetch).world.fetches);
      }
    }
  }

  /** A new fetch was just authorized, and so may the binding be updated; an existing one is current already. */
  lemma PushMayUpdate(w: World, d: nat, b: nat, permitted: bool)
    requires InOrder(w) && d < |w.tables.deliveries| && b < |w.tables.bindings|
    requires w.tables.deliveries[d].event == Push && Concerns(w.tables, d, b) && TakeUp(w, d, b, permitted).Some?
    requires w.tables.bindings[b].lastDelivery.Some? ==> w.tables.bindings[b].lastDelivery.value <= d
    ensures var bound := w.tables.bindings[b];
      bound.currentFetch == Some(TakeUp(w, d, b, permitted).value.fetch) || MayUpdate(w.tables, bound)
  {
    PushFetchIsCurrent(w.tables.deliveries, w.fetches, w.tables.bindings, d, b);
  }

  lemma TakenUpPush(w: World, d: nat, b: nat, permitted: bool)
    requires InOrder(w) && d < |w.tables.deliveries| && b < |w.tables.bindings|
    requires Target(w.tables.deliveries[d]) && w.tables.deliveries[d].event == Push
    requires w.tables.bindings[b].lastDelivery.Some? ==> w.tables.bindings[b].lastDelivery.value <= d
    requires TakeUp(w, d, b, permitted).Some?
    ensures var taken := TakeUp(w, d, b, permitted).value;
      var v := MakeCurrent(w.(fetches := taken.fetches), d, b, taken.fetch);
      && InOrder(v) && |v.fetches| == |taken.fetches| && v.fetches[taken.fetch].binding == b
      && v.tables.deliveries == w.tables.deliveries
  {
    var ds, fs, bs := w.tables.deliveries, w.fetches, w.tables.bindings;
    var taken := TakeUp(w, d, b, permitted).value;
    PushFetchIsCurrent(ds, fs, bs, d, b);
    if FetchFor(fs, b, d) == None {
      var v := MakeCurrent(w.(fetches := taken.fetches), d, b, taken.fetch);
      PushHeads(ds, fs, bs, b, d, Fetch(b, d, Authorized, None, 0));
      assert Adds(fs, b, d, bs[b].currentFetch, v.fetches);
      AddedPushKeepsOrder(ds, fs, bs, b, d, v.fetches, v.tables.bindings[b]);
    }
  }

  lemma PullRequestKeepsOrder(w: World, d: nat, b: nat, permitted: bool)
    requires InOrder(w) && Chronological(w.tables.deliveries)
    requires d < |w.tables.deliveries| && b < |w.tables.bindings|
    requires Target(w.tables.deliveries[d]) && w.tables.deliveries[d].event == PullRequest
    ensures InOrder(PreparePullRequest(w, d, b, permitted).world)
    ensures var r := PreparePullRequest(w, d, b, permitted);
      r.result.Use? ==> r.result.fetch < |r.world.fetches| && r.world.fetches[r.result.fetch].binding == b
  {
    var ds, fs, bs := w.tables.deliveries, w.fetches, w.tables.bindings;
    var latest, r := LatestPrior(ds, fs, b, d), PreparePullRequest(w, d, b, permitted);
    var taken := TakeUp(w, d, b, permitted);
    if latest.Some? { NewerIsLater(ds, fs[latest.value].delivery, d); }
    if taken.Some? && (latest.Some? ==> fs[latest.value].delivery < d) {
      TakenUpPullRequest(w, d, b, permitted);
      var v := w.(fetches := Supersede(taken.value.fetches, latest, taken.value.fetch));
      StartEffect(v, taken.value.fetch);
      StatesKeepOrder(ds, v.fetches, bs, Start(v, taken.value.fetch).world.fetches);
    }
  }

  lemma TakenUpPullRequest(w: World, d: nat, b: nat, permitted: bool)
    requires InOrder(w) && Chronological(w.tables.deliveries) && d < |w.tables.deliveries| && b < |w.tables.bindings|
    requires Target(w.tables.deliveries[d]) && w.tables.deliveries[d].event == PullRequest
    requires var latest := LatestPrior(w.tables.deliveries, w.fetches, b, d);
      latest.Some? ==> w.fetches[latest.value].delivery < d
    requires TakeUp(w, d, b, permitted).Some?
    ensures var taken := TakeUp(w, d, b, permitted).value;
      var gs := Supersede(taken.fetches, LatestPrior(w.tables.deliveries, w.fetches, b, d), taken.fetch);
      Ordered(w.tables.deliveries, gs, w.tables.bindings) && gs[taken.fetch].binding == b
  {
    var ds, fs, bs := w.tables.deliveries, w.fetches, w.tables.bindings;
    var taken, latest := TakeUp(w, d, b, permitted).value, LatestPrior(ds, fs, b, d);
    if FetchFor(fs, b, d) == None {
      var gs := Supersede(taken.fetches, latest, taken.fetch);
      PullRequestHeads(ds, fs, bs, b, d, Fetch(b, d, Authorized, None, 0));
      assert Adds(fs, b, d, latest, gs);
      AddedPullRequestKeepsOrder(ds, fs, bs, b, d, latest, gs);
    } else if latest.Some? {
      PriorAlreadySuperseded(ds, fs, bs, b, d);
    }
  }

  lemma PrepareBindingFits(w: World, d: nat, b: nat, permitted: bool)
    requires InOrder(w) && Chronological(w.tables.deliveries)
    requires d < |w.tables.deliveries| && b < |w.tables.bindings| && Target(w.tables.deliveries[d])
    ensures var r := PrepareBinding(w, d, b, permitted);
      && InOrder(r.world) && Advances(w.fetches, r.world.fetches)
      && (r.result.Use? ==> r.world.fetches[r.result.fetch].binding == b)
  {
    if !Concerns(w.tables, d, b) {
    } else if w.tables.deliveries[d].event == Push {
      PushKeepsOrder(w, d, b, permitted);
      PushAdvances(w, d, b, permitted);
    } else {
      PullRequestKeepsOrder(w, d, b, permitted);
      PullRequestAdvances(w, d, b, permitted);
    }
  }

  /** The items of a job are distinct fetches, and those to be skipped are complete. */
  ghost predicate ItemsFit(fs: seq<Fetch>, items: seq<Item>) {
    && (forall k :: 0 <= k < |items| ==>
          items[k].fetch < |fs| && (items[k].skip ==> fs[items[k].fetch].state == Complete))
    && (forall k, l :: 0 <= k < l < |items| ==> items[k].fetch != items[l].fetch)
  }

  lemma ItemsStayFit(fs: seq<Fetch>, gs: seq<Fetch>, items: seq<Item>)
    requires ItemsFit(fs, items) && Advances(fs, gs)
    ensures ItemsFit(gs, items)
  {
  }

  ghost predicate FitFrom(fs: seq<Fetch>, items: seq<Item>, b: nat) {
    ItemsFit(fs, items) && forall k :: 0 <= k < |items| ==> fs[items[k].fetch].binding >= b
  }

  lemma FirstItemFits(fs: seq<Fetch>, gs: seq<Fetch>, item: Item, items: seq<Item>, b: nat)
    requires Advances(fs, gs) && FitFrom(gs, items, b + 1)
    requires item.fetch < |fs| && fs[item.fetch].binding == b && (item.skip ==> fs[item.fetch].state == Complete)
    ensures FitFrom(gs, [item] + items, b)
  {
  }

  lemma AdvancesTransitive(fs: seq<Fetch>, gs: seq<Fetch>, hs: seq<Fetch>)
    requires Advances(fs, gs) && Advances(gs, hs)
    ensures Advances(fs, hs)
  {
  }

  /** Preparing from binding `b` on keeps the order and yields fitting items, all of bindings from `b` on. */
  lemma {:induction false} PrepareFromFits(w: World, d: nat, b: nat, permitted: set<nat>)
    requires InOrder(w) && Chronological(w.tables.deliveries)
    requires d < |w.tables.deliveries| && Target(w.tables.deliveries[d])
    ensures var r := PrepareFrom(w, d, b, permitted);
      && InOrder(r.world) && Advances(w.fetches, r.world.fetches)
      && (r.items.Some? ==> FitFrom(r.world.fetches, r.items.value, b))
    decreases |w.tables.bindings| - b
  {
    if b < |w.tables.bindings| {
      var p := PrepareBinding(w, d, b, b in permitted);
      PrepareBindingFits(w, d, b, b in permitted);
      if p.result != Refused {
        var rest := PrepareFrom(p.world, d, b + 1, permitted);
        PrepareFromFits(p.world, d, b + 1, permitted);
        AdvancesTransitive(w.fetches, p.world.fetches, rest.world.fetches);
        if p.result.Use? && rest.items.Some? {
          var item := Item(p.result.fetch, p.world.fetches[p.result.fetch].state == Complete);
          FirstItemFits(p.world.fetches, rest.world.fetches, item, rest.items.value, b);
        }
      }
    }
  }

  // ----- Completion

  /** The fetch is complete, and deployed unless it is not to be. */
  predicate Done(w: World, f: nat) {
    f < |w.fetches| && w.fetches[f].state == Complete && (HasDeployment(w, f) || !Deployable(w, f))
  }

  /** `v` differs from `w` only by fetch states, which advanced, and by added deployments. */
  ghost predicate Works(w: World, v: World) {
    && v == w.(fetches := v.fetches, deployments := v.deployments)
    && OnlyStates(w.fetches, v.fetches) && Advances(w.fetches, v.fetches)
    && w.deployments <= v.deployments
  }

  lemma DoneStays(w: World, v: World, f: nat)
    requires Works(w, v) && Done(w, f)
    ensures Done(v, f)
  {
    if HasDeployment(w, f) {
      var k :| 0 <= k < |w.deployments| && w.deployments[k].fetch == f;
      assert v.deployments[k] == w.deployments[k];
    }
  }

  lemma CreateDeploymentEffect(w: World, f: nat, created: bool)
    requires f < |w.fetches| && w.fetches[f].state == Complete
    ensures Works(w, CreateDeployment(w, f, created).world)
    ensures CreateDeployment(w, f, created).ok ==> Done(CreateDeployment(w, f, created).world, f)
  {
    var v := CreateDeployment(w, f, created).world;
    if |v.deployments| > |w.deployments| { assert v.deployments[|w.deployments|].fetch == f; }
  }

  lemma CompleteItemEffect(w: World, item: Item, a: Answers)
    ensures Works(w, CompleteItem(w, item, a).world)
    ensures CompleteItem(w, item, a).ok ==> Done(CompleteItem(w, item, a).world, item.fetch)
  {
    if item.fetch < |w.fetches| {
      if w.fetches[item.fetch].state == Complete {
        CreateDeploymentEffect(w, item.fetch, a.created);
      } else {
        CreateDeploymentEffect(SetFetchState(w, item.fetch, Complete), item.fetch, a.created);
      }
    }
  }

  /** The loop succeeds only if, for every item, the fetch is complete and the deployment call returned
      normally: the deployment exists or is not due. */
  lemma {:induction false} CompleteAllEffect(w: World, items: seq<Item>, answers: seq<Answers>)
    requires |answers| == |items|
    ensures Works(w, CompleteAll(w, items, answers).world)
    ensures CompleteAll(w, items, answers).ok ==>
      forall k :: 0 <= k < |items| ==> Done(CompleteAll(w, items, answers).world, items[k].fetch)
  {
    if items != [] {
      var n := |items| - 1;
      var before := CompleteAll(w, items[..n], answers[..n]);
      CompleteAllEffect(w, items[..n], answers[..n]);
      CompleteItemEffect(before.world, items[n], answers[n]);
      if before.ok {
        forall k | 0 <= k < n ensures Done(CompleteItem(before.world, items[n], answers[n]).world, items[k].fetch) {
          assert items[..n][k] == items[k];
          DoneStays(before.world, CompleteItem(before.world, items[n], answers[n]).world, items[k].fetch);
        }
      }
    }
  }

  /** Of a complete fetch, and to production exactly if that was made for a push. */
  predicate DeploymentFits(w: World, x: Deployment) {
    && x.fetch < |w.fetches| && w.fetches[x.fetch].state == Complete
    && (x.production <==> EventOf(w.tables.deliveries, w.fetches[x.fetch]) == Push)
  }

  /** One deployment per fetch. */
  ghost predicate DeploymentsFit(w: World) {
    && (forall k :: 0 <= k < |w.deployments| ==> DeploymentFits(w, w.deployments[k]))
    && (forall k, l :: 0 <= k < l < |w.deployments| ==> w.deployments[k].fetch != w.deployments[l].fetch)
  }

  lemma CompleteItemDeploys(w: World, item: Item, a: Answers)
    requires DeploymentsFit(w)
    ensures DeploymentsFit(CompleteItem(w, item, a).world)
  {
    var v := CompleteItem(w, item, a).world;
    forall k | 0 <= k < |v.deployments| ensures DeploymentFits(v, v.deployments[k]) {
      if k < |w.deployments| { assert DeploymentFits(w, w.deployments[k]); }
    }
  }

  lemma {:induction false} CompleteAllDeploys(w: World, items: seq<Item>, answers: seq<Answers>)
    requires |answers| == |items| && DeploymentsFit(w)
    ensures DeploymentsFit(CompleteAll(w, items, answers).world)
  {
    if items != [] {
      var n := |items| - 1;
      CompleteAllDeploys(w, items[..n], answers[..n]);
      CompleteItemDeploys(CompleteAll(w, items[..n], answers[..n]).world, items[n], answers[n]);
    }
  }

  // ----- The invariant

  ghost predicate JobFits(w: World, j: Job) {
    && j.delivery < |w.tables.deliveries| && w.tables.deliveries[j.delivery].publicId == j.publicId
    && Patterns.Token(j.token) && ItemsFit(w.fetches, j.items)
  }

  ghost predicate JobsFit(w: World) {
    forall j :: j in w.jobs ==> JobFits(w, w.jobs[j])
  }

  /** A reported delivery is processed, and all the fetches it was reported for are complete. */
  ghost predicate ReportFits(w: World, r: Report) {
    && r.delivery < |w.tables.deliveries| && w.tables.deliveries[r.delivery].state == Processed
    && forall k :: 0 <= k < |r.items| ==>
         r.items[k].fetch < |w.fetches| && w.fetches[r.items[k].fetch].state == Complete
  }

  ghost predicate ReportsFit(w: World) {
    && (forall k :: 0 <= k < |w.reports| ==> ReportFits(w, w.reports[k]))
    && (forall k, l :: 0 <= k < l < |w.reports| ==> w.reports[k].delivery != w.reports[l].delivery)
  }

  predicate Reported(reports: seq<Report>, d: nat) {
    exists k :: 0 <= k < |reports| && reports[k].delivery == d
  }

  /** Deliveries that are recorded as waiting or ignored but never as processed: pushes, and pull requests whose
      action was stored. */
  predicate IsWork(d: Delivery) {
    d.event == Push || (d.event == PullRequest && d.action.Some?)
  }

  predicate ProcessedWork(d: Delivery) {
    IsWork(d) && d.state == Processed
  }

  /** No such delivery is processed unless a job reported it. */
  ghost predicate WorkReported(ds: seq<Delivery>, reports: seq<Report>) {
    forall d :: 0 <= d < |ds| && ProcessedWork(ds[d]) ==> Reported(reports, d)
  }

  ghost predicate Arrived(ds: seq<Delivery>, clock: int) {
    Chronological(ds) && forall i :: 0 <= i < |ds| ==> ds[i].createdAt <= clock
  }

  ghost predicate JobInv(w: World, clock: int) {
    && Inv(w.tables) && Arrived(w.tables.deliveries, clock) && InOrder(w)
    && JobsFit(w) && DeploymentsFit(w) && ReportsFit(w) && WorkReported(w.tables.deliveries, w.reports)
  }

  // ----- Changes to the tables

  /** Stored deliveries stay the same webhooks, final ones stay as they are, and bindings keep their
      current fetch and last delivery; new bindings have neither. */
  ghost predicate Follows(t: Tables, u: Tables) {
    && |t.deliveries| <= |u.deliveries| && |t.bindings| <= |u.bindings|
    && (forall i :: 0 <= i < |t.deliveries| ==> SameWebhook(u.deliveries[i], t.deliveries[i]))
    && (forall i :: 0 <= i < |t.deliveries| && Final(t.deliveries[i].state) ==> u.deliveries[i] == t.deliveries[i])
    && (forall b :: 0 <= b < |t.bindings| ==>
          && u.bindings[b].currentFetch == t.bindings[b].currentFetch
          && u.bindings[b].lastDelivery == t.bindings[b].lastDelivery)
    && (forall b :: |t.bindings| <= b < |u.bindings| ==>
          u.bindings[b].currentFetch == None && u.bindings[b].lastDelivery == None)
  }

  lemma FollowsKeepsOrder(t: Tables, u: Tables, fs: seq<Fetch>)
    requires Follows(t, u) && Ordered(t.deliveries, fs, t.bindings)
    ensures Ordered(u.deliveries, fs, u.bindings)
  {
    var ds, bs, es, cs := t.deliveries, t.bindings, u.deliveries, u.bindings;
    forall f | 0 <= f < |fs| ensures FetchFits(es, fs, cs, fs[f]) {
      assert FetchFits(ds, fs, bs, fs[f]);
      if fs[f].supersededBy.Some? { assert FetchFits(ds, fs, bs, fs[fs[f].supersededBy.value]); }
    }
    forall f, g | 0 <= f < |fs| && 0 <= g < |fs| && f != g ensures PairFits(es, fs[f], fs[g]) {
      assert PairFits(ds, fs[f], fs[g]) && FetchFits(ds, fs, bs, fs[f]) && FetchFits(ds, fs, bs, fs[g]);
    }
    forall b | 0 <= b < |cs| ensures BindingFits(es, fs, b, cs[b]) {
      if b < |bs| {
        assert BindingFits(ds, fs, b, bs[b]);
        if bs[b].currentFetch.Some? { assert FetchFits(ds, fs, bs, fs[bs[b].currentFetch.value]); }
      }
    }
  }

  lemma FetchOfDelivery(w: World, f: nat)
    requires InOrder(w) && f < |w.fetches|
    ensures w.fetches[f].delivery < |w.tables.deliveries|
  {
    assert FetchFits(w.tables.deliveries, w.fetches, w.tables.bindings, w.fetches[f]);
  }

  lemma FollowsKeepsJobs(w: World, u: Tables)
    requires Follows(w.tables, u) && InOrder(w) && JobsFit(w) && ReportsFit(w) && DeploymentsFit(w)
    ensures JobsFit(w.(tables := u)) && ReportsFit(w.(tables := u)) && DeploymentsFit(w.(tables := u))
  {
    var v := w.(tables := u);
    forall k | 0 <= k < |v.deployments| ensures DeploymentFits(v, v.deployments[k]) {
      assert DeploymentFits(w, w.deployments[k]);
      FetchOfDelivery(w, w.deployments[k].fetch);
    }
    forall j | j in v.jobs ensures JobFits(v, v.jobs[j]) { assert JobFits(w, w.jobs[j]); }
    forall k | 0 <= k < |v.reports| ensures ReportFits(v, v.reports[k]) { assert ReportFits(w, w.reports[k]); }
  }

  /** A change of the tables that adds no processed work keeps the invariant. */
  lemma FollowsKeepsInv(w: World, u: Tables, clock: int, later: int)
    requires JobInv(w, clock) && Follows(w.tables, u) && Inv(u) && Arrived(u.deliveries, later)
    requires NoNewProcessedWork(w.tables.deliveries, u.deliveries)
    ensures JobInv(w.(tables := u), later)
  {
    FollowsKeepsOrder(w.tables, u, w.fetches);
    FollowsKeepsJobs(w, u);
  }

  // ----- Webhooks, connections and bindings

  function StepTime(s: Step): int {
    match s
    case ApplyStep(c) => c.now
    case ClaimStep(_, _, _, now) => now
    case FinishStep(_, _, _, _, _, now) => now
    case ConnectStep(_, _, _, _, _, _, now) => now
    case BindStep(_, _, _, _, _, _, now) => now
  }

  lemma NewWorkNotProcessed(k: Connection, key: string, c: Call)
    requires !Rejected(c) && DeliveryColumns(k.status, c)
    ensures !ProcessedWork(NewDelivery(k, key, c))
  {
  }

  /** `es` has no processed work that `ds` does not have. */
  ghost predicate NoNewProcessedWork(ds: seq<Delivery>, es: seq<Delivery>) {
    forall i :: 0 <= i < |es| && ProcessedWork(es[i]) ==> i < |ds| && ProcessedWork(ds[i])
  }

  lemma AppendArrives(t: Tables, u: Tables, key: string, d: Delivery, drained: bool, now: int, clock: int)
    requires Appends(t, u, key, d, drained, now) && Arrived(t.deliveries, clock) && clock <= now && d.createdAt == now
    requires !ProcessedWork(d)
    ensures Arrived(u.deliveries, now) && NoNewProcessedWork(t.deliveries, u.deliveries)
  {
    forall i | 0 <= i < |t.deliveries| ensures u.deliveries[i].createdAt == t.deliveries[i].createdAt {
    }
  }

  lemma CommitFollows(t: Tables, c: Call)
    requires Commits(t, c)
    ensures Follows(t, Committed(t, c))
  {
    CommitPersists(t, c);
  }

  lemma CommitArrives(t: Tables, c: Call, clock: int)
    requires Commits(t, c) && Arrived(t.deliveries, clock) && clock <= c.now
    ensures Arrived(Committed(t, c).deliveries, c.now) && NoNewProcessedWork(t.deliveries, Committed(t, c).deliveries)
  {
    var key := c.installationId.value;
    CommitAppends(t, c);
    NewWorkNotProcessed(t.connections[key], key, c);
    AppendArrives(t, Committed(t, c), key, NewDelivery(t.connections[key], key, c), Deactivates(c), c.now, clock);
  }

  lemma BindFollows(t: Tables, project: nat, k: string, organization: nat, repository: string, branch: string,
                    automatic: bool, now: int)
    ensures Follows(t, Bind(t, project, k, organization, repository, branch, automatic, now))
    ensures Bind(t, project, k, organization, repository, branch, automatic, now).deliveries == t.deliveries
  {
  }

  lemma OutsideFollows(t: Tables, s: Step, clock: int)
    requires External(s) && Arrived(t.deliveries, clock) && clock <= StepTime(s)
    ensures Follows(t, Next(t, s)) && Arrived(Next(t, s).deliveries, StepTime(s))
    ensures NoNewProcessedWork(t.deliveries, Next(t, s).deliveries)
  {
    match s
    case ApplyStep(c) =>
      if Commits(t, c) {
        CommitFollows(t, c);
        CommitArrives(t, c, clock);
      }
    case BindStep(project, k, organization, repository, branch, automatic, now) =>
      BindFollows(t, project, k, organization, repository, branch, automatic, now);
    case ConnectStep(_, _, _, _, _, _, _) =>
  }

  lemma OutsideKeepsInv(w: World, s: Step, clock: int)
    requires JobInv(w, clock) && External(s) && clock <= StepTime(s)
    ensures JobInv(w.(tables := Next(w.tables, s)), StepTime(s))
  {
    NextKeepsInv(w.tables, s);
    OutsideFollows(w.tables, s, clock);
    FollowsKeepsInv(w, Next(w.tables, s), clock, StepTime(s));
  }

  // ----- Claims and finishes

  lemma RowFollows(t: Tables, i: nat, d: Delivery)
    requires i < |t.deliveries| && SameWebhook(d, t.deliveries[i]) && !Final(t.deliveries[i].state)
    ensures Follows(t, t.(deliveries := t.deliveries[i := d]))
  {
  }

  lemma RowArrived(ds: seq<Delivery>, i: nat, d: Delivery, clock: int)
    requires Arrived(ds, clock) && i < |ds| && d.createdAt == ds[i].createdAt
    ensures Arrived(ds[i := d], clock)
  {
  }

  lemma ClaimKeepsJobInv(w: World, id: Option<string>, token: Option<string>, ctx: Context, clock: int, now: int)
    requires JobInv(w, clock)
    ensures JobInv(w.(tables := Claim(w.tables, id, token, ctx, now)), clock)
  {
    var t := w.tables;
    if ClaimResultFor(t, id, token, ctx, now) == Claimed {
      var i := FindVisible(t.deliveries, id, ctx).value;
      var d := ClaimedRow(t.deliveries[i], token, now);
      ClaimKeepsInv(t, id, token, ctx, now);
      RowFollows(t, i, d);
      RowArrived(t.deliveries, i, d, clock);
      FollowsKeepsInv(w, t.(deliveries := t.deliveries[i := d]), clock, clock);
    }
  }

  lemma FailKeepsJobInv(w: World, id: Option<string>, token: Option<string>, error: Option<string>, ctx: Context,
                        clock: int, now: int)
    requires JobInv(w, clock)
    ensures JobInv(w.(tables := Finish(w.tables, id, token, Some(false), error, ctx, now)), clock)
  {
    var t := w.tables;
    if FinishResultFor(t, id, token, error, ctx) == FinishReturned(true) {
      var i := FindVisible(t.deliveries, id, ctx).value;
      var d := FinishedRow(t.deliveries[i], Some(false), error, now);
      FinishKeepsInv(t, id, token, Some(false), error, ctx, now);
      RowFollows(t, i, d);
      RowArrived(t.deliveries, i, d, clock);
      FollowsKeepsInv(w, t.(deliveries := t.deliveries[i := d]), clock, clock);
    }
  }

  // ----- The first transaction

  lemma PrepareKeepsJobInv(w: World, d: nat, permitted: set<nat>, clock: int)
    requires JobInv(w, clock) && d < |w.tables.deliveries| && Live(w.tables.deliveries[d].state)
    ensures JobInv(PrepareFrom(w, d, 0, permitted).world, clock)
    ensures PrepareFrom(w, d, 0, permitted).items.Some? ==>
      ItemsFit(PrepareFrom(w, d, 0, permitted).world.fetches, PrepareFrom(w, d, 0, permitted).items.value)
  {
    assert WellFormed(w.tables.deliveries[d]);
    PrepareFromFits(w, d, 0, permitted);
    var v := PrepareFrom(w, d, 0, permitted).world;
    BindingsDoNotMatter(w.tables, v.tables.bindings);
    forall j | j in v.jobs ensures JobFits(v, v.jobs[j]) {
      assert JobFits(w, w.jobs[j]);
      ItemsStayFit(w.fetches, v.fetches, w.jobs[j].items);
    }
    forall k | 0 <= k < |v.reports| ensures ReportFits(v, v.reports[k]) { assert ReportFits(w, w.reports[k]); }
    forall k | 0 <= k < |v.deployments| ensures DeploymentFits(v, v.deployments[k]) {
      assert DeploymentFits(w, w.deployments[k]);
    }
  }

  lemma BindingsDoNotMatter(t: Tables, bs: seq<Binding>)
    requires Inv(t)
    ensures Inv(t.(bindings := bs))
  {
  }

  lemma BeginKeepsInv(w: World, job: nat, publicId: string, token: string, ctx: Context, permitted: set<nat>, now: int,
                      clock: int)
    requires JobInv(w, clock)
    ensures JobInv(BeginJob(w, job, publicId, token, ctx, permitted, now), clock)
  {
    var t := w.tables;
    if ClaimResultFor(t, Some(publicId), Some(token), ctx, now) == Claimed {
      var d := FindVisible(t.deliveries, Some(publicId), ctx).value;
      ClaimKeepsJobInv(w, Some(publicId), Some(token), ctx, clock, now);
      var claimed := w.(tables := Claim(t, Some(publicId), Some(token), ctx, now));
      PrepareKeepsJobInv(claimed, d, permitted, clock);
      var p := PrepareFrom(claimed, d, 0, permitted);
      if p.items == None {
        FailKeepsJobInv(p.world, Some(publicId), Some(token), Some(ERROR), ctx, clock, now);
      } else {
        NewJobFits(p.world, job, Job(publicId, token, d, p.items.value), clock);
      }
    }
  }

  lemma NewJobFits(w: World, job: nat, j: Job, clock: int)
    requires JobInv(w, clock) && JobFits(w, j)
    ensures JobInv(w.(jobs := w.jobs[job := j]), clock)
  {
    SameReports(w, w.(jobs := w.jobs[job := j]));
    var v := w.(jobs := w.jobs[job := j]);
    forall k | k in v.jobs ensures JobFits(v, v.jobs[k]) { assert k != job ==> JobFits(w, w.jobs[k]); }
  }

  lemma SameReports(w: World, v: World)
    requires ReportsFit(w) && DeploymentsFit(w) && v.tables == w.tables && v.fetches == w.fetches
    requires v.reports == w.reports && v.deployments == w.deployments
    ensures ReportsFit(v) && DeploymentsFit(v)
  {
    forall k | 0 <= k < |v.deployments| ensures DeploymentFits(v, v.deployments[k]) {
      assert DeploymentFits(w, w.deployments[k]);
    }
    forall k | 0 <= k < |v.reports| ensures ReportFits(v, v.reports[k]) { assert ReportFits(w, w.reports[k]); }
  }

  // ----- The second transaction

  lemma WorkKeepsJobInv(w: World, items: seq<Item>, answers: seq<Answers>, clock: int)
    requires JobInv(w, clock) && |answers| == |items|
    ensures JobInv(CompleteAll(w, items, answers).world, clock)
  {
    CompleteAllEffect(w, items, answers);
    CompleteAllDeploys(w, items, answers);
    var v := CompleteAll(w, items, answers).world;
    StatesKeepOrder(w.tables.deliveries, w.fetches, w.tables.bindings, v.fetches);
    forall j | j in v.jobs ensures JobFits(v, v.jobs[j]) {
      assert JobFits(w, w.jobs[j]);
      ItemsStayFit(w.fetches, v.fetches, w.jobs[j].items);
    }
    forall k | 0 <= k < |v.reports| ensures ReportFits(v, v.reports[k]) { assert ReportFits(w, w.reports[k]); }
  }

  /** What an accepted finish of a job's delivery does to the tables. */
  lemma AcceptedFinish(w: World, j: Job, ctx: Context, clock: int, now: int)
    requires JobInv(w, clock) && JobFits(w, j)
    requires FinishResultFor(w.tables, Some(j.publicId), Some(j.token), Some(""), ctx) == FinishReturned(true)
    ensures var t, u := w.tables, Finish(w.tables, Some(j.publicId), Some(j.token), Some(true), Some(""), ctx, now);
      && Inv(u) && Follows(t, u) && Arrived(u.deliveries, clock) && u.bindings == t.bindings
      && |u.deliveries| == |t.deliveries| && u.deliveries[j.delivery].state == Processed
      && Holds(t.deliveries[j.delivery], Some(j.token))
      && forall i :: 0 <= i < |u.deliveries| && i != j.delivery ==> u.deliveries[i] == t.deliveries[i]
  {
    var t, i := w.tables, j.delivery;
    assert FindVisible(t.deliveries, Some(j.publicId), ctx) == Some(i);
    var d := FinishedRow(t.deliveries[i], Some(true), Some(""), now);
    FinishKeepsInv(t, Some(j.publicId), Some(j.token), Some(true), Some(""), ctx, now);
    RowFollows(t, i, d);
    RowArrived(t.deliveries, i, d, clock);
  }

  lemma ReportKeepsJobInv(w: World, j: Job, ctx: Context, clock: int, now: int)
    requires JobInv(w, clock) && JobFits(w, j)
    requires FinishResultFor(w.tables, Some(j.publicId), Some(j.token), Some(""), ctx) == FinishReturned(true)
    requires forall k :: 0 <= k < |j.items| ==> Done(w, j.items[k].fetch)
    ensures var v := w.(
        tables := Finish(w.tables, Some(j.publicId), Some(j.token), Some(true), Some(""), ctx, now),
        reports := w.reports + [Report(j.delivery, j.token, j.items)]);
      JobInv(v, clock)
  {
    AcceptedFinish(w, j, ctx, clock, now);
    AddReport(w, Finish(w.tables, Some(j.publicId), Some(j.token), Some(true), Some(""), ctx, now),
              Report(j.delivery, j.token, j.items), clock);
  }

  lemma AddReport(w: World, u: Tables, r: Report, clock: int)
    requires JobInv(w, clock) && Inv(u) && Follows(w.tables, u) && Arrived(u.deliveries, clock)
    requires |u.deliveries| == |w.tables.deliveries| && r.delivery < |u.deliveries|
    requires w.tables.deliveries[r.delivery].state == Processing && u.deliveries[r.delivery].state == Processed
    requires forall i :: 0 <= i < |u.deliveries| && i != r.delivery ==> u.deliveries[i] == w.tables.deliveries[i]
    requires forall k :: 0 <= k < |r.items| ==> Done(w, r.items[k].fetch)
    ensures JobInv(w.(tables := u, reports := w.reports + [r]), clock)
  {
    FollowsKeepsOrder(w.tables, u, w.fetches);
    FollowsKeepsJobs(w, u);
    ReportedAdds(w, u, r);
    var v := w.(tables := u, reports := w.reports + [r]);
    forall k | k in v.jobs ensures JobFits(v, v.jobs[k]) { assert JobFits(w.(tables := u), w.jobs[k]); }
    forall k | 0 <= k < |v.deployments| ensures DeploymentFits(v, v.deployments[k]) {
      assert DeploymentFits(w.(tables := u), w.deployments[k]);
    }
  }

  lemma ReportedAdds(w: World, u: Tables, r: Report)
    requires ReportsFit(w) && ReportsFit(w.(tables := u)) && WorkReported(w.tables.deliveries, w.reports)
    requires |u.deliveries| == |w.tables.deliveries| && r.delivery < |u.deliveries|
    requires w.tables.deliveries[r.delivery].state == Processing && u.deliveries[r.delivery].state == Processed
    requires forall i :: 0 <= i < |u.deliveries| && i != r.delivery ==> u.deliveries[i] == w.tables.deliveries[i]
    requires forall k :: 0 <= k < |r.items| ==> Done(w, r.items[k].fetch)
    ensures ReportsFit(w.(tables := u, reports := w.reports + [r]))
    ensures WorkReported(u.deliveries, w.reports + [r])
  {
    var v := w.(tables := u, reports := w.reports + [r]);
    forall k | 0 <= k < |v.reports|
      ensures ReportFits(v, v.reports[k]) && (k < |w.reports| ==> v.reports[k].delivery != r.delivery)
    {
      if k < |w.reports| { assert ReportFits(w, w.reports[k]) && ReportFits(w.(tables := u), w.reports[k]); }
    }
    forall i | 0 <= i < |u.deliveries| && ProcessedWork(u.deliveries[i]) ensures Reported(v.reports, i) {
      if i == r.delivery {
        assert v.reports[|w.reports|].delivery == i;
      } else {
        var k :| 0 <= k < |w.reports| && w.reports[k].delivery == i;
        assert v.reports[k].delivery == i;
      }
    }
  }

  lemma ForgetJob(w: World, job: nat, clock: int)
    requires JobInv(w, clock)
    ensures JobInv(w.(jobs := w.jobs - {job}), clock)
  {
    SameReports(w, w.(jobs := w.jobs - {job}));
    var v := w.(jobs := w.jobs - {job});
    forall k | k in v.jobs ensures JobFits(v, v.jobs[k]) { assert JobFits(w, w.jobs[k]); }
  }

  lemma ConcludeKeepsInv(w: World, job: nat, ctx: Context, answers: seq<Answers>, now: int, clock: int)
    requires JobInv(w, clock)
    ensures JobInv(ConcludeJob(w, job, ctx, answers, now), clock)
  {
    if job in w.jobs && |answers| == |w.jobs[job].items| {
      var j := w.jobs[job];
      assert JobFits(w, j);
      CompleteAllEffect(w, j.items, answers);
      WorkKeepsJobInv(w, j.items, answers, clock);
      var c := CompleteAll(w, j.items, answers);
      ItemsStayFit(w.fetches, c.world.fetches, j.items);
      assert w.reports + [] == w.reports;
      FinishWork(c.world, job, j, c.ok, ctx, clock, now);
    }
  }

  /** Finishing after the work is done, successfully or not. */
  lemma FinishWork(v: World, job: nat, j: Job, ok: bool, ctx: Context, clock: int, now: int)
    requires JobInv(v, clock) && JobFits(v, j)
    requires ok ==> forall k :: 0 <= k < |j.items| ==> Done(v, j.items[k].fetch)
    ensures var error := if ok then "" else ERROR;
      var answer := FinishResultFor(v.tables, Some(j.publicId), Some(j.token), Some(""), ctx);
      var reported := ok && answer == FinishReturned(true);
      JobInv(v.(tables := Finish(v.tables, Some(j.publicId), Some(j.token), Some(ok), Some(error), ctx, now),
                jobs := v.jobs - {job},
                reports := if reported then v.reports + [Report(j.delivery, j.token, j.items)] else v.reports), clock)
  {
    var error := if ok then "" else ERROR;
    var t := Finish(v.tables, Some(j.publicId), Some(j.token), Some(ok), Some(error), ctx, now);
    if !ok {
      FailKeepsJobInv(v, Some(j.publicId), Some(j.token), Some(ERROR), ctx, clock, now);
      ForgetJob(v.(tables := t), job, clock);
    } else if FinishResultFor(v.tables, Some(j.publicId), Some(j.token), Some(""), ctx) == FinishReturned(true) {
      ReportKeepsJobInv(v, j, ctx, clock, now);
      ForgetJob(v.(tables := t, reports := v.reports + [Report(j.delivery, j.token, j.items)]), job, clock);
    } else {
      ForgetJob(v, job, clock);
    }
  }

  // ----- Runs

  function JobTime(s: JobStep): int {
    match s
    case Outside(step) => StepTime(step)
    case Begin(_, _, _, _, _, now) => now
    case Conclude(_, _, _, now) => now
  }

  function JobRun(w: World, steps: seq<JobStep>): World {
    if steps == [] then w else JobNext(JobRun(w, steps[..|steps| - 1]), steps[|steps| - 1])
  }

  /** The clock never runs backwards. */
  predicate Timed(clock: int, steps: seq<JobStep>) {
    steps == [] ||
    var init, s := steps[..|steps| - 1], steps[|steps| - 1];
    Timed(clock, init) && JobTime(s) >= if init == [] then clock else JobTime(init[|init| - 1])
  }

  function EndTime(clock: int, steps: seq<JobStep>): int {
    if steps == [] then clock else JobTime(steps[|steps| - 1])
  }

  ghost predicate FreshWorld(w: World) {
    && Fresh(w.tables) && w.fetches == [] && w.deployments == [] && w.jobs == map[] && w.reports == []
    && forall b :: 0 <= b < |w.tables.bindings| ==>
         w.tables.bindings[b].currentFetch == None && w.tables.bindings[b].lastDelivery == None
  }

  lemma ClockAdvances(w: World, clock: int, later: int)
    requires JobInv(w, clock) && clock <= later
    ensures JobInv(w, later)
  {
  }

  /** Every reachable world satisfies the invariant. */
  lemma {:induction false} JobRunKeepsInv(w: World, clock: int, steps: seq<JobStep>)
    requires FreshWorld(w) || JobInv(w, clock)
    requires Timed(clock, steps)
    ensures JobInv(JobRun(w, steps), EndTime(clock, steps))
  {
    if steps != [] {
      var init, s := steps[..|steps| - 1], steps[|steps| - 1];
      JobRunKeepsInv(w, clock, init);
      var v, at := JobRun(w, init), EndTime(clock, init);
      match s
      case Outside(step) =>
        if External(step) { OutsideKeepsInv(v, step, at); } else { ClockAdvances(v, at, JobTime(s)); }
      case Begin(job, publicId, token, ctx, permitted, now) =>
        BeginKeepsInv(v, job, publicId, token, ctx, permitted, now, at);
        ClockAdvances(JobNext(v, s), at, now);
      case Conclude(job, ctx, answers, now) =>
        ConcludeKeepsInv(v, job, ctx, answers, now, at);
        ClockAdvances(JobNext(v, s), at, now);
    }
  }
}
