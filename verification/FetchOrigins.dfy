/** Where fetches and deployments come from, over whole runs. */
module FetchOrigins {
  import opened Sql
  import opened ProviderTables
  import opened ProviderRuns
  import opened DeliveryJobs
  import opened JobRuns
  import opened PullRequestOrder
  import opened PreparedFetches
  import opened JobBeginnings

  /** At this moment the fetch is wanted: its delivery suits the binding and no later one got there first, the source
      may be used, and the job is permitted to fetch it. */
  ghost predicate WantedNow(u: World, s: JobStep, f: Fetch) {
    && s.Begin? && f.binding in s.permitted
    && f.delivery < |u.tables.deliveries| && f.binding < |u.tables.bindings|
    && Wants(u, f.delivery, f.binding) && MaySource(u.tables, f.delivery)
  }

  lemma BeginMakesWanted(w: World, clock: int, s: JobStep, f: nat)
    requires JobInv(w, clock) && s.Begin? && |w.fetches| <= f < |JobNext(w, s).fetches|
    ensures WantedNow(w, s, JobNext(w, s).fetches[f])
  {
    RowIsVisible(w.tables, s.publicId, s.ctx);
    var found := FindVisible(w.tables.deliveries, Some(s.publicId), s.ctx);
    assert ClaimResultFor(w.tables, Some(s.publicId), Some(s.token), s.ctx, s.now) == Claimed;
    var i := found.value;
    assert IsRow(w.tables, s.publicId, s.ctx, i);
    BeginOnRow(w, clock, s.job, s.publicId, s.token, s.ctx, s.permitted, s.now, i);
    assert NewFetch(w, JobNext(w, s).fetches[f], i, 0, s.permitted);
  }

  lemma StepMakesWanted(w: World, clock: int, s: JobStep, f: nat)
    requires JobInv(w, clock) && |w.fetches| <= f < |JobNext(w, s).fetches|
    ensures WantedNow(w, s, JobNext(w, s).fetches[f])
  {
    if s.Begin? {
      BeginMakesWanted(w, clock, s, f);
    } else if s.Conclude? && s.job in w.jobs && |s.answers| == |w.jobs[s.job].items| {
      CompleteAllEffect(w, w.jobs[s.job].items, s.answers);
    }
  }

  /** Every fetch was wanted at the moment it was made. */
  lemma {:induction false} FetchWasWanted(w: World, clock: int, steps: seq<JobStep>, f: nat) returns (n: nat)
    requires FreshWorld(w) && Timed(clock, steps) && f < |JobRun(w, steps).fetches|
    ensures n < |steps| && WantedNow(JobRun(w, steps[..n]), steps[n], JobRun(w, steps).fetches[f])
  {
    var init, s := steps[..|steps| - 1], steps[|steps| - 1];
    var u, at := JobRun(w, init), EndTime(clock, init);
    JobRunKeepsInv(w, clock, init);
    if f < |u.fetches| {
      n := FetchWasWanted(w, clock, init, f);
      StepKeeps(u, s, at);
      assert init[..n] == steps[..n];
    } else {
      n := |init|;
      StepMakesWanted(u, at, s, f);
    }
  }

  /** Every production deployment is of a push to the branch its binding had at the moment the fetch was made, from the
      connection and repository it had, while it deployed automatically. */
  lemma ProductionWasPushed(w: World, clock: int, steps: seq<JobStep>, k: nat) returns (n: nat)
    requires FreshWorld(w) && Timed(clock, steps)
    requires k < |JobRun(w, steps).deployments| && JobRun(w, steps).deployments[k].production
    ensures var v := JobRun(w, steps);
      && n < |steps| && v.deployments[k].fetch < |v.fetches|
      && var f, u := v.fetches[v.deployments[k].fetch], JobRun(w, steps[..n]);
         && f.delivery < |u.tables.deliveries| && f.binding < |u.tables.bindings|
         && var row, bound := u.tables.deliveries[f.delivery], u.tables.bindings[f.binding];
            && row.event == Push && row.gitRef == Some("refs/heads/" + bound.branch)
            && bound.automatic && bound.connection == row.connection && row.repository == Some(bound.repository)
  {
    var v := JobRun(w, steps);
    JobRunKeepsInv(w, clock, steps);
    assert DeploymentFits(v, v.deployments[k]);
    n := FetchWasWanted(w, clock, steps, v.deployments[k].fetch);
    var u, f := JobRun(w, steps[..n]), v.fetches[v.deployments[k].fetch];
    WebhooksStay(w, clock, steps, n);
    assert SameWebhook(v.tables.deliveries[f.delivery], u.tables.deliveries[f.delivery]);
  }

  lemma {:induction false} WebhooksStay(w: World, clock: int, steps: seq<JobStep>, n: nat)
    requires FreshWorld(w) && Timed(clock, steps) && n <= |steps|
    ensures var u, v := JobRun(w, steps[..n]), JobRun(w, steps);
      && |u.tables.deliveries| <= |v.tables.deliveries|
      && forall i :: 0 <= i < |u.tables.deliveries| ==> SameWebhook(v.tables.deliveries[i], u.tables.deliveries[i])
  {
    if n == |steps| {
      assert steps[..n] == steps;
    } else {
      var init := steps[..|steps| - 1];
      assert init[..n] == steps[..n];
      WebhooksStay(w, clock, init, n);
      JobRunKeepsInv(w, clock, init);
      StepKeeps(JobRun(w, init), steps[|steps| - 1], EndTime(clock, init));
    }
  }
}
