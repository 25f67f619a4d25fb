/** What a job answers and does, told from the delivery's row and from what the gateway answered. */
module JobOutcomes {
  import opened Sql
  import opened ProviderTables
  import opened ProviderRuns
  import opened DeliveryJobs
  import opened FetchOrder
  import opened JobRuns

  // ----- The second transaction

  /** The source is there: it was before, or it was acquired and stored now. */
  predicate Arrives(w: World, item: Item, a: Answers)
    requires item.fetch < |w.fetches|
  {
    w.fetches[item.fetch].state == Complete || (a.acquired && a.stored)
  }

  /** A deployment of the fetch is due: nothing superseded it, its binding deploys automatically, and a push is the
      binding's current one. */
  predicate Due(w: World, f: nat)
    requires f < |w.fetches|
  {
    && w.fetches[f].supersededBy == None
    && w.fetches[f].binding < |w.tables.bindings| && w.tables.bindings[w.fetches[f].binding].automatic
    && (EventOf(w.tables.deliveries, w.fetches[f]) == Push ==>
          w.tables.bindings[w.fetches[f].binding].currentFetch == Some(f))
  }

  /** The call that creates the deployment is made, and goes through, or there is no need for it. */
  predicate Settles(w: World, item: Item, a: Answers)
    requires item.fetch < |w.fetches|
  {
    a.created || HasDeployment(w, item.fetch) || !Due(w, item.fetch)
  }

  lemma DueAlike(w: World, f: nat)
    requires InOrder(w) && f < |w.fetches|
    ensures Deployable(w, f) <==> Due(w, f)
  {
    assert FetchFits(w.tables.deliveries, w.fetches, w.tables.bindings, w.fetches[f]);
  }

  /** The world after one item: its fetch is complete or failed, it is deployed if due, and nothing else changed. */
  ghost predicate OneDone(w: World, v: World, item: Item, a: Answers)
    requires item.fetch < |w.fetches|
  {
    && |v.fetches| == |w.fetches|
    && (forall f :: 0 <= f < |w.fetches| && f != item.fetch ==> v.fetches[f] == w.fetches[f])
    && v.fetches[item.fetch] == w.fetches[item.fetch].(state := if Arrives(w, item, a) then Complete else FetchFailed)
    && (forall f :: f != item.fetch ==> (HasDeployment(v, f) <==> HasDeployment(w, f)))
    && (HasDeployment(v, item.fetch) <==>
          HasDeployment(w, item.fetch) || (Arrives(w, item, a) && a.created && Due(w, item.fetch)))
  }

  lemma DeploysOne(w: World, f: nat, created: bool)
    requires f < |w.fetches|
    ensures var c := CreateDeployment(w, f, created);
      && c.world == w.(deployments := c.world.deployments)
      && (forall g :: g != f ==> (HasDeployment(c.world, g) <==> HasDeployment(w, g)))
      && (HasDeployment(c.world, f) <==> HasDeployment(w, f) || (created && Deployable(w, f)))
      && (c.ok <==> created || HasDeployment(w, f) || !Deployable(w, f))
  {
    var v := CreateDeployment(w, f, created).world;
    forall g | HasDeployment(w, g) ensures HasDeployment(v, g) {
      var k :| 0 <= k < |w.deployments| && w.deployments[k].fetch == g;
      assert v.deployments[k] == w.deployments[k];
    }
    if |v.deployments| > |w.deployments| { assert v.deployments[|w.deployments|].fetch == f; }
  }

  lemma ItemDone(w: World, item: Item, a: Answers)
    requires InOrder(w) && item.fetch < |w.fetches| && (item.skip ==> w.fetches[item.fetch].state == Complete)
    ensures var c := CompleteItem(w, item, a);
      OneDone(w, c.world, item, a) && (c.ok <==> Arrives(w, item, a) && Settles(w, item, a))
  {
    var f := item.fetch;
    DueAlike(w, f);
    if w.fetches[f].state == Complete {
      DeploysOne(w, f, a.created);
    } else if a.acquired && a.stored {
      var v := SetFetchState(w, f, Complete);
      assert Deployable(v, f) <==> Deployable(w, f);
      assert forall g :: HasDeployment(v, g) <==> HasDeployment(w, g);
      DeploysOne(v, f, a.created);
    } else {
      assert forall g :: HasDeployment(SetFetchState(w, f, FetchFailed), g) <==> HasDeployment(w, g);
    }
  }

  predicate IsItem(items: seq<Item>, f: nat) {
    exists k :: 0 <= k < |items| && items[k].fetch == f
  }

  /** All items worked through: each as its own answers say, and nothing else changed. */
  ghost predicate AllDone(w: World, v: World, items: seq<Item>, answers: seq<Answers>)
    requires |answers| == |items| && ItemsFit(w.fetches, items)
  {
    && |v.fetches| == |w.fetches|
    && (forall f :: 0 <= f < |w.fetches| && !IsItem(items, f) ==> v.fetches[f] == w.fetches[f])
    && (forall f :: !IsItem(items, f) ==> (HasDeployment(v, f) <==> HasDeployment(w, f)))
    && (forall k :: 0 <= k < |items| ==> Worked(w, v, items[k], answers[k]))
  }

  predicate Worked(w: World, v: World, item: Item, a: Answers)
    requires item.fetch < |w.fetches|
  {
    var f := item.fetch;
    && f < |v.fetches|
    && v.fetches[f] == w.fetches[f].(state := if Arrives(w, item, a) then Complete else FetchFailed)
    && (HasDeployment(v, f) <==> HasDeployment(w, f) || (Arrives(w, item, a) && a.created && Due(w, f)))
  }

  ghost predicate AllWell(w: World, items: seq<Item>, answers: seq<Answers>)
    requires |answers| == |items| && ItemsFit(w.fetches, items)
  {
    forall k :: 0 <= k < |items| ==> Arrives(w, items[k], answers[k]) && Settles(w, items[k], answers[k])
  }

  lemma IsItemSnoc(items: seq<Item>, f: nat)
    requires items != []
    ensures IsItem(items, f) <==> items[|items| - 1].fetch == f || IsItem(items[..|items| - 1], f)
  {
    var init := items[..|items| - 1];
    if IsItem(items, f) && items[|items| - 1].fetch != f {
      var k :| 0 <= k < |items| && items[k].fetch == f;
      assert init[k].fetch == f;
    }
    if k :| 0 <= k < |init| && init[k].fetch == f { assert items[k].fetch == f; }
  }

  lemma ItemsFitInit(fs: seq<Fetch>, items: seq<Item>)
    requires ItemsFit(fs, items) && items != []
    ensures ItemsFit(fs, items[..|items| - 1]) && !IsItem(items[..|items| - 1], items[|items| - 1].fetch)
  {
    var init := items[..|items| - 1];
    assert forall k :: 0 <= k < |init| ==> init[k] == items[k];
  }

  /** A fetch not worked on yet looks as it did at the start. */
  lemma Untouched(w: World, u: World, item: Item, a: Answers)
    requires Works(w, u) && item.fetch < |w.fetches| && u.fetches[item.fetch] == w.fetches[item.fetch]
    requires HasDeployment(u, item.fetch) <==> HasDeployment(w, item.fetch)
    ensures Arrives(u, item, a) <==> Arrives(w, item, a)
    ensures Settles(u, item, a) <==> Settles(w, item, a)
    ensures Due(u, item.fetch) <==> Due(w, item.fetch)
  {
  }

  /** The completion loop does to every fetch exactly what its own answers call for, and is ok exactly if every source
      arrived and every deployment call made went through. */
  lemma {:induction false} CompletionIs(w: World, items: seq<Item>, answers: seq<Answers>)
    requires InOrder(w) && |answers| == |items| && ItemsFit(w.fetches, items)
    ensures AllDone(w, CompleteAll(w, items, answers).world, items, answers)
    ensures CompleteAll(w, items, answers).ok <==> AllWell(w, items, answers)
  {
    if items != [] {
      var n := |items| - 1;
      var before, item, a := CompleteAll(w, items[..n], answers[..n]), items[n], answers[n];
      var u, v := before.world, CompleteAll(w, items, answers).world;
      ItemsFitInit(w.fetches, items);
      CompletionIs(w, items[..n], answers[..n]);
      CompleteAllEffect(w, items[..n], answers[..n]);
      StatesKeepOrder(w.tables.deliveries, w.fetches, w.tables.bindings, u.fetches);
      ItemDone(u, item, a);
      Untouched(w, u, item, a);
      CompletionSnoc(w, u, v, items, answers);
      AllWellSnoc(w, items, answers);
    }
  }

  lemma AllWellSnoc(w: World, items: seq<Item>, answers: seq<Answers>)
    requires items != [] && |answers| == |items| && ItemsFit(w.fetches, items)
    requires ItemsFit(w.fetches, items[..|items| - 1])
    ensures var n := |items| - 1;
      AllWell(w, items, answers) <==>
        AllWell(w, items[..n], answers[..n]) && Arrives(w, items[n], answers[n]) && Settles(w, items[n], answers[n])
  {
    var n := |items| - 1;
    assert forall k :: 0 <= k < n ==> items[..n][k] == items[k] && answers[..n][k] == answers[k];
  }

  lemma CompletionSnoc(w: World, u: World, v: World, items: seq<Item>, answers: seq<Answers>)
    requires items != [] && |answers| == |items| && ItemsFit(w.fetches, items) && Works(w, u)
    requires var n := |items| - 1;
      && ItemsFit(w.fetches, items[..n]) && !IsItem(items[..n], items[n].fetch)
      && AllDone(w, u, items[..n], answers[..n]) && OneDone(u, v, items[n], answers[n])
    ensures AllDone(w, v, items, answers)
  {
    var n := |items| - 1;
    Untouched(w, u, items[n], answers[n]);
    forall f ensures IsItem(items, f) <==> items[n].fetch == f || IsItem(items[..n], f) { IsItemSnoc(items, f); }
    forall k | 0 <= k < |items| ensures Worked(w, v, items[k], answers[k]) {
      if k < n {
        assert items[..n][k] == items[k] && answers[..n][k] == answers[k];
        assert Worked(w, u, items[k], answers[k]);
      }
    }
  }

  /** The session of the call has selected the row's organization and is a member of it. */
  predicate Permits(ctx: Context, row: Delivery) {
    ctx.organization == Some(row.organization) && row.organization in ctx.memberOf
  }

  predicate HeldBy(row: Delivery, token: string) {
    row.state == Processing && row.token == Some(token)
  }

  lemma FinishReturnsIff(w: World, j: Job, error: string, ctx: Context)
    requires Inv(w.tables) && JobFits(w, j) && |error| <= 128
    ensures FinishResultFor(w.tables, Some(j.publicId), Some(j.token), Some(error), ctx) == FinishReturned(true) <==>
      Permits(ctx, w.tables.deliveries[j.delivery]) && HeldBy(w.tables.deliveries[j.delivery], j.token)
    ensures Permits(ctx, w.tables.deliveries[j.delivery]) ==>
      FindVisible(w.tables.deliveries, Some(j.publicId), ctx) == Some(j.delivery)
  {
    assert Named(w.tables.deliveries[j.delivery]);
    assert FindPublic(w.tables.deliveries, Some(j.publicId)) == Some(j.delivery);
  }

  /** The delivery's row after its job gave up the lease. */
  predicate Closed(row: Delivery, before: Delivery, ok: bool, now: int) {
    && row.state == (if ok then Processed else Failed) && row.token == None && row.startedAt == None
    && row.processedAt == (if ok then Some(now) else None) && row.lastError == (if ok then None else Some(ERROR))
    && row.attempts == before.attempts && SameWebhook(row, before)
  }

  lemma FinishOnRow(w: World, j: Job, ok: bool, ctx: Context, now: int)
    requires Inv(w.tables) && JobFits(w, j)
    ensures var t, error := w.tables, if ok then "" else ERROR;
      var u := Finish(t, Some(j.publicId), Some(j.token), Some(ok), Some(error), ctx, now);
      var row := t.deliveries[j.delivery];
      if Permits(ctx, row) && HeldBy(row, j.token)
      then
        && |u.deliveries| == |t.deliveries| && Closed(u.deliveries[j.delivery], row, ok, now)
        && forall i :: 0 <= i < |t.deliveries| && i != j.delivery ==> u.deliveries[i] == t.deliveries[i]
      else u == t
  {
    FinishReturnsIff(w, j, if ok then "" else ERROR, ctx);
  }

  /** What the second transaction of a job does, from the row and the answers: it reports success exactly if its token
      still holds the lease, every source arrived and every deployment call made went through; the row is closed
      accordingly, unless the lease was lost. */
  lemma ConcludeOnRow(u: World, clock: int, job: nat, ctx: Context, answers: seq<Answers>, now: int)
    requires JobInv(u, clock) && job in u.jobs && |answers| == |u.jobs[job].items|
    ensures var j, v := u.jobs[job], ConcludeJob(u, job, ctx, answers, now);
      && j.delivery < |u.tables.deliveries| && ItemsFit(u.fetches, j.items)
      && var row, well := u.tables.deliveries[j.delivery], AllWell(u, j.items, answers);
         var held := Permits(ctx, row) && HeldBy(row, j.token);
         && v.reports == u.reports + (if held && well then [Report(j.delivery, j.token, j.items)] else [])
         && AllDone(u, v, j.items, answers) && v.jobs == u.jobs - {job}
         && |v.tables.deliveries| == |u.tables.deliveries|
         && (held ==> Closed(v.tables.deliveries[j.delivery], row, well, now))
         && (!held ==> v.tables == u.tables)
         && (forall i :: 0 <= i < |u.tables.deliveries| && i != j.delivery ==>
               v.tables.deliveries[i] == u.tables.deliveries[i])
  {
    var j := u.jobs[job];
    assert JobFits(u, j);
    CompletionIs(u, j.items, answers);
    var c, v := CompleteAll(u, j.items, answers), ConcludeJob(u, job, ctx, answers, now);
    FinishOnRow(u, j, c.ok, ctx, now);
    FinishReturnsIff(u, j, "", ctx);
    SameWork(u, c.world, v, j.items, answers);
  }

  lemma SameWork(u: World, c: World, v: World, items: seq<Item>, answers: seq<Answers>)
    requires |answers| == |items| && ItemsFit(u.fetches, items) && AllDone(u, c, items, answers)
    requires v.fetches == c.fetches && v.deployments == c.deployments
    ensures AllDone(u, v, items, answers)
  {
    assert forall f :: HasDeployment(v, f) <==> HasDeployment(c, f);
    forall k | 0 <= k < |items| ensures Worked(u, v, items[k], answers[k]) {
      assert Worked(u, c, items[k], answers[k]);
    }
  }

  /** The same at any point of any run. */
  lemma SuccessIff(w: World, clock: int, steps: seq<JobStep>, job: nat, ctx: Context, answers: seq<Answers>, now: int)
    requires FreshWorld(w) && Timed(clock, steps)
    requires job in JobRun(w, steps).jobs && |answers| == |JobRun(w, steps).jobs[job].items|
    ensures var u, v := JobRun(w, steps), ConcludeJob(JobRun(w, steps), job, ctx, answers, now);
      var j := u.jobs[job];
      && j.delivery < |u.tables.deliveries| && ItemsFit(u.fetches, j.items)
      && (v.reports != u.reports <==>
            && Permits(ctx, u.tables.deliveries[j.delivery]) && HeldBy(u.tables.deliveries[j.delivery], j.token)
            && AllWell(u, j.items, answers))
      && AllDone(u, v, j.items, answers)
  {
    JobRunKeepsInv(w, clock, steps);
    ConcludeOnRow(JobRun(w, steps), EndTime(clock, steps), job, ctx, answers, now);
  }
}
