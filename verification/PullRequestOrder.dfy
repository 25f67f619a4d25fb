/** When an older delivery of a pull request is passed over, and when it is not. */
module PullRequestOrder {
  import opened Sql
  import opened ProviderTables
  import opened ProviderRuns
  import opened DeliveryJobs
  import opened FetchOrder
  import opened JobRuns

  /** The binding has a fetch for a later delivery of the pull request that `d` belongs to. */
  predicate Overtaken(w: World, d: nat, b: nat) {
    exists g :: 0 <= g < |w.fetches| && LaterFetch(w.tables.deliveries, w.fetches[g], b, d)
  }

  predicate LaterFetch(ds: seq<Delivery>, g: Fetch, b: nat, d: nat) {
    SamePullRequest(ds, g, b, d) && g.delivery > d
  }

  /** A pull request delivery is passed over, without a trace, exactly when a later fetch of its lane exists. */
  lemma SkippedIff(w: World, d: nat, b: nat, permitted: bool)
    requires Chronological(w.tables.deliveries) && d < |w.tables.deliveries| && b < |w.tables.bindings|
    ensures PreparePullRequest(w, d, b, permitted).result == Skipped <==> Overtaken(w, d, b)
    ensures Overtaken(w, d, b) ==> PreparePullRequest(w, d, b, permitted) == Preparation(w, Skipped)
  {
    var ds, fs := w.tables.deliveries, w.fetches;
    var latest := LatestPrior(ds, fs, b, d);
    if latest.Some? { NewerIsLater(ds, fs[latest.value].delivery, d); }
    if g :| 0 <= g < |fs| && LaterFetch(ds, fs[g], b, d) {
      NewerIsLater(ds, fs[g].delivery, fs[latest.value].delivery);
    }
  }

  /** The latest other fetch of the lane is complete and has the delivery's commit, so it is used again. */
  predicate Reuses(w: World, d: nat, b: nat)
    requires d < |w.tables.deliveries|
  {
    var latest := LatestPrior(w.tables.deliveries, w.fetches, b, d);
    && latest.Some? && w.fetches[latest.value].state == Complete
    && CommitOf(w.tables.deliveries, w.fetches[latest.value]) == w.tables.deliveries[d].commit
  }

  predicate SameLane(ds: seq<Delivery>, older: nat, newest: nat) {
    && older < newest < |ds| && ds[newest].event == PullRequest
    && ds[newest].pullRequest.Some? && ds[older].pullRequest == ds[newest].pullRequest
  }

  /** A fetch later than `newest` is later than `older` too. */
  lemma LaterStill(w: World, older: nat, newest: nat, b: nat)
    requires SameLane(w.tables.deliveries, older, newest) && Overtaken(w, newest, b)
    ensures Overtaken(w, older, b)
  {
    var ds, fs := w.tables.deliveries, w.fetches;
    var g :| 0 <= g < |fs| && LaterFetch(ds, fs[g], b, newest);
    assert LaterFetch(ds, fs[g], b, older);
  }

  lemma OwnFetchOvertakes(w: World, older: nat, newest: nat, b: nat, g: nat)
    requires SameLane(w.tables.deliveries, older, newest) && g < |w.fetches|
    requires w.fetches[g].binding == b && w.fetches[g].delivery == newest
    ensures Overtaken(w, older, b)
  {
    assert LaterFetch(w.tables.deliveries, w.fetches[g], b, older);
  }

  /** Fetches stay, for the deliveries they were made for, and deliveries stay the webhooks they are. */
  ghost predicate Keeps(w: World, v: World) {
    && Advances(w.fetches, v.fetches) && |w.tables.deliveries| <= |v.tables.deliveries|
    && (forall i :: 0 <= i < |w.tables.deliveries| ==> SameWebhook(v.tables.deliveries[i], w.tables.deliveries[i]))
  }

  lemma OvertakenStays(w: World, v: World, d: nat, b: nat)
    requires Keeps(w, v) && Overtaken(w, d, b)
    ensures Overtaken(v, d, b)
  {
    var g :| 0 <= g < |w.fetches| && LaterFetch(w.tables.deliveries, w.fetches[g], b, d);
    assert LaterFetch(v.tables.deliveries, v.fetches[g], b, d);
  }

  /** Preparing the newest delivery either leaves the fetches of the lane as they were or takes up its own. */
  lemma NewestTakesUp(w: World, newest: nat, b: nat, permitted: bool)
    requires newest < |w.tables.deliveries| && b < |w.tables.bindings|
    requires PreparePullRequest(w, newest, b, permitted).result != Skipped && FetchFor(w.fetches, b, newest) == None
    ensures var v := PreparePullRequest(w, newest, b, permitted).world;
      && v.tables == w.tables
      && if !Reuses(w, newest, b) && permitted && StillAuthorized(w.tables, newest)
         then
           && |v.fetches| > |w.fetches|
           && v.fetches[|w.fetches|].binding == b && v.fetches[|w.fetches|].delivery == newest
         else v.fetches == w.fetches
  {
  }

  /** Preparing `newest` makes `older` be passed over if and only if it already was, or `newest` does not reuse a
      complete fetch and a fetch of its own is authorized. */
  lemma PassedOverIff(w: World, older: nat, newest: nat, b: nat, permitted: bool, again: bool)
    requires Chronological(w.tables.deliveries) && b < |w.tables.bindings|
    requires SameLane(w.tables.deliveries, older, newest)
    ensures var v := PreparePullRequest(w, newest, b, permitted).world;
      PreparePullRequest(v, older, b, again).result == Skipped <==>
        Overtaken(w, older, b) || (!Reuses(w, newest, b) && permitted && StillAuthorized(w.tables, newest))
  {
    var ds, v := w.tables.deliveries, PreparePullRequest(w, newest, b, permitted).world;
    SkippedIff(w, newest, b, permitted);
    PullRequestAdvances(w, newest, b, permitted);
    assert v.tables == w.tables;
    SkippedIff(v, older, b, again);
    assert Keeps(w, v) by { forall i | 0 <= i < |ds| ensures SameWebhook(ds[i], ds[i]) {} }
    if Overtaken(w, older, b) {
      OvertakenStays(w, v, older, b);
    } else {
      NotOvertaken(w, older, newest, b);
      NewestTakesUp(w, newest, b, permitted);
      if !Reuses(w, newest, b) && permitted && StillAuthorized(w.tables, newest) {
        OwnFetchOvertakes(v, older, newest, b, |w.fetches|);
      } else {
        assert v == w;
      }
    }
  }

  lemma NotOvertaken(w: World, older: nat, newest: nat, b: nat)
    requires SameLane(w.tables.deliveries, older, newest) && !Overtaken(w, older, b)
    ensures !Overtaken(w, newest, b) && FetchFor(w.fetches, b, newest) == None
  {
    if Overtaken(w, newest, b) { LaterStill(w, older, newest, b); }
    var own := FetchFor(w.fetches, b, newest);
    if own.Some? { OwnFetchOvertakes(w, older, newest, b, own.value); }
  }

  // ----- Over whole runs

  lemma SameFetchesKeep(w: World, v: World)
    requires v.fetches == w.fetches && Persists(w.tables, v.tables)
    ensures Keeps(w, v)
  {
  }

  lemma PrepareKeeps(w: World, d: nat, permitted: set<nat>)
    requires InOrder(w) && Chronological(w.tables.deliveries)
    requires d < |w.tables.deliveries| && Target(w.tables.deliveries[d])
    ensures Keeps(w, PrepareFrom(w, d, 0, permitted).world)
  {
    PrepareFromFits(w, d, 0, permitted);
    var ds := w.tables.deliveries;
    forall i | 0 <= i < |ds| ensures SameWebhook(ds[i], ds[i]) {}
  }

  lemma BeginKeeps(w: World, job: nat, publicId: string, token: string, ctx: Context, permitted: set<nat>, now: int,
                   clock: int)
    requires JobInv(w, clock)
    ensures Keeps(w, BeginJob(w, job, publicId, token, ctx, permitted, now))
    ensures |BeginJob(w, job, publicId, token, ctx, permitted, now).tables.bindings| == |w.tables.bindings|
  {
    var t := w.tables;
    if ClaimResultFor(t, Some(publicId), Some(token), ctx, now) == Claimed {
      var d := FindVisible(t.deliveries, Some(publicId), ctx).value;
      var claimed := w.(tables := Claim(t, Some(publicId), Some(token), ctx, now));
      ClaimPersists(t, Some(publicId), Some(token), ctx, now);
      SameFetchesKeep(w, claimed);
      ClaimKeepsJobInv(w, Some(publicId), Some(token), ctx, clock, now);
      assert WellFormed(claimed.tables.deliveries[d]);
      PrepareKeeps(claimed, d, permitted);
      var p := PrepareFrom(claimed, d, 0, permitted);
      KeepsTransitive(w, claimed, p.world);
      if p.items == None {
        var failed := p.world.(tables :=
          Finish(p.world.tables, Some(publicId), Some(token), Some(false), Some(ERROR), ctx, now));
        FinishPersists(p.world.tables, Some(publicId), Some(token), Some(false), Some(ERROR), ctx, now);
        SameFetchesKeep(p.world, failed);
        KeepsTransitive(w, p.world, failed);
      }
    } else {
      forall i | 0 <= i < |t.deliveries| ensures SameWebhook(t.deliveries[i], t.deliveries[i]) {}
    }
  }

  lemma ConcludeKeeps(w: World, job: nat, ctx: Context, answers: seq<Answers>, now: int)
    ensures Keeps(w, ConcludeJob(w, job, ctx, answers, now))
    ensures ConcludeJob(w, job, ctx, answers, now).tables.bindings == w.tables.bindings
  {
    if job in w.jobs && |answers| == |w.jobs[job].items| {
      var j := w.jobs[job];
      CompleteAllEffect(w, j.items, answers);
      var c := CompleteAll(w, j.items, answers);
      FinishPersists(w.tables, Some(j.publicId), Some(j.token), Some(c.ok), Some(if c.ok then "" else ERROR), ctx, now);
    }
  }

  lemma StepKeeps(w: World, s: JobStep, clock: int)
    requires JobInv(w, clock) && clock <= JobTime(s)
    ensures Keeps(w, JobNext(w, s)) && |w.tables.bindings| <= |JobNext(w, s).tables.bindings|
  {
    match s
    case Outside(step) =>
      if External(step) {
        RowsPersist(w.tables, step);
        OutsideFollows(w.tables, step, clock);
      }
    case Begin(job, publicId, token, ctx, permitted, now) =>
      BeginKeeps(w, job, publicId, token, ctx, permitted, now, clock);
    case Conclude(job, ctx, answers, now) =>
      ConcludeKeeps(w, job, ctx, answers, now);
  }

  lemma KeepsTransitive(u: World, v: World, w: World)
    requires Keeps(u, v) && Keeps(v, w)
    ensures Keeps(u, w)
  {
    AdvancesTransitive(u.fetches, v.fetches, w.fetches);
  }

  lemma {:induction false} RunKeeps(w: World, clock: int, steps: seq<JobStep>)
    requires JobInv(w, clock) && Timed(clock, steps)
    ensures Keeps(w, JobRun(w, steps)) && |w.tables.bindings| <= |JobRun(w, steps).tables.bindings|
  {
    if steps != [] {
      var init := steps[..|steps| - 1];
      RunKeeps(w, clock, init);
      JobRunKeepsInv(w, clock, init);
      StepKeeps(JobRun(w, init), steps[|steps| - 1], EndTime(clock, init));
      KeepsTransitive(w, JobRun(w, init), JobRun(w, steps));
    }
  }

  /** Once its lane holds a later fetch, an older delivery is passed over at every later point of every run. */
  lemma OlderPullRequestIsPassedOver(w: World, clock: int, steps: seq<JobStep>, b: nat, d: nat, permitted: bool)
    requires JobInv(w, clock) && Timed(clock, steps)
    requires d < |w.tables.deliveries| && b < |w.tables.bindings| && Overtaken(w, d, b)
    ensures var v := JobRun(w, steps);
      && d < |v.tables.deliveries| && b < |v.tables.bindings|
      && PreparePullRequest(v, d, b, permitted) == Preparation(v, Skipped)
  {
    RunKeeps(w, clock, steps);
    JobRunKeepsInv(w, clock, steps);
    OvertakenStays(w, JobRun(w, steps), d, b);
    SkippedIff(JobRun(w, steps), d, b, permitted);
  }
}
