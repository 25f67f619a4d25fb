/** What any interleaving of jobs promises. */
module JobPromises {
  import opened Sql
  import opened ProviderTables
  import opened ProviderRuns
  import opened DeliveryJobs
  import opened FetchOrder
  import opened JobRuns

  /** Exactly one effect. In every reachable world there is at most one fetch per binding and delivery, at most one
      deployment per fetch, to production exactly if that was made for a push, and at most one successful job per
      delivery; a push, or a pull request whose action was stored, is processed if and only if a job reported it, and
      then every fetch it was reported for is complete. */
  lemma ExactlyOneEffect(w: World, clock: int, steps: seq<JobStep>)
    requires FreshWorld(w) && Timed(clock, steps)
    ensures var v := JobRun(w, steps);
      && (forall f, g :: 0 <= f < g < |v.fetches| ==>
            v.fetches[f].binding != v.fetches[g].binding || v.fetches[f].delivery != v.fetches[g].delivery)
      && (forall k, l :: 0 <= k < l < |v.deployments| ==> v.deployments[k].fetch != v.deployments[l].fetch)
      && (forall k :: 0 <= k < |v.deployments| ==> DeploymentFits(v, v.deployments[k]))
      && (forall k, l :: 0 <= k < l < |v.reports| ==> v.reports[k].delivery != v.reports[l].delivery)
      && (forall k :: 0 <= k < |v.reports| ==> ReportFits(v, v.reports[k]))
      && (forall d :: 0 <= d < |v.tables.deliveries| && IsWork(v.tables.deliveries[d]) ==>
            (v.tables.deliveries[d].state == Processed <==> Reported(v.reports, d)))
  {
    JobRunKeepsInv(w, clock, steps);
    var v := JobRun(w, steps);
    var ds, fs, bs := v.tables.deliveries, v.fetches, v.tables.bindings;
    forall f, g | 0 <= f < g < |fs| ensures fs[f].binding != fs[g].binding || fs[f].delivery != fs[g].delivery {
      assert PairFits(ds, fs[f], fs[g]);
    }
    forall d | 0 <= d < |ds| && IsWork(ds[d]) ensures ds[d].state == Processed <==> Reported(v.reports, d) {
      if Reported(v.reports, d) {
        var k :| 0 <= k < |v.reports| && v.reports[k].delivery == d;
        assert ReportFits(v, v.reports[k]);
      } else {
        assert !ProcessedWork(ds[d]);
      }
    }
  }

  /** The lease of the job's own delivery decides whether its finish is accepted. */
  lemma FinishOfJob(w: World, j: Job, error: string, ctx: Context)
    requires Inv(w.tables) && JobFits(w, j) && |error| <= 128
    ensures FinishResultFor(w.tables, Some(j.publicId), Some(j.token), Some(error), ctx) == FinishReturned(true) ==>
      && Holds(w.tables.deliveries[j.delivery], Some(j.token))
      && FindVisible(w.tables.deliveries, Some(j.publicId), ctx) == Some(j.delivery)
  {
    assert FindPublic(w.tables.deliveries, Some(j.publicId)) == Some(j.delivery);
  }

  lemma FinishKeepsEvents(t: Tables, id: string, token: string, ok: bool, error: string, ctx: Context, now: int)
    ensures var u := Finish(t, Some(id), Some(token), Some(ok), Some(error), ctx, now);
      && u.bindings == t.bindings && |u.deliveries| == |t.deliveries|
      && forall i :: 0 <= i < |t.deliveries| ==> u.deliveries[i].event == t.deliveries[i].event
  {
  }

  lemma FinishProcesses(w: World, j: Job, ctx: Context, now: int)
    requires Inv(w.tables) && JobFits(w, j)
    requires FinishResultFor(w.tables, Some(j.publicId), Some(j.token), Some(""), ctx) == FinishReturned(true)
    ensures var u := Finish(w.tables, Some(j.publicId), Some(j.token), Some(true), Some(""), ctx, now);
      && Holds(w.tables.deliveries[j.delivery], Some(j.token))
      && j.delivery < |u.deliveries| && u.deliveries[j.delivery].state == Processed
  {
    FinishOfJob(w, j, "", ctx);
  }

  lemma SuccessDoes(u: World, clock: int, job: nat, ctx: Context, answers: seq<Answers>, now: int)
    requires JobInv(u, clock) && job in u.jobs && |answers| == |u.jobs[job].items|
    requires Succeeds(u, u.jobs[job], ctx, answers)
    ensures var j, v := u.jobs[job], ConcludeJob(u, job, ctx, answers, now);
      && j.delivery < |u.tables.deliveries| == |v.tables.deliveries|
      && Holds(u.tables.deliveries[j.delivery], Some(j.token)) && v.tables.deliveries[j.delivery].state == Processed
      && forall k :: 0 <= k < |j.items| ==> Done(v, j.items[k].fetch)
  {
    var j := u.jobs[job];
    assert JobFits(u, j);
    CompleteAllEffect(u, j.items, answers);
    FinishProcesses(u, j, ctx, now);
    FinishKeepsEvents(u.tables, j.publicId, j.token, true, "", ctx, now);
    var c, v := CompleteAll(u, j.items, answers).world, ConcludeJob(u, job, ctx, answers, now);
    forall k | 0 <= k < |j.items| ensures Done(v, j.items[k].fetch) {
      assert Done(c, j.items[k].fetch);
      SameEventsDone(c, v, j.items[k].fetch);
    }
  }

  /** A job reports success only in the step that finishes its delivery, holding the lease, with every
      prepared fetch complete and its deployment created or not due. */
  lemma SuccessMeansDone(w: World, clock: int, steps: seq<JobStep>, job: nat, ctx: Context, answers: seq<Answers>,
                         now: int)
    requires FreshWorld(w) && Timed(clock, steps)
    ensures var u := JobRun(w, steps);
      var v := ConcludeJob(u, job, ctx, answers, now);
      v.reports != u.reports ==>
        && job in u.jobs && u.jobs[job].delivery < |u.tables.deliveries| == |v.tables.deliveries|
        && v.reports == u.reports + [Report(u.jobs[job].delivery, u.jobs[job].token, u.jobs[job].items)]
        && Holds(u.tables.deliveries[u.jobs[job].delivery], Some(u.jobs[job].token))
        && v.tables.deliveries[u.jobs[job].delivery].state == Processed
        && forall k :: 0 <= k < |u.jobs[job].items| ==> Done(v, u.jobs[job].items[k].fetch)
  {
    JobRunKeepsInv(w, clock, steps);
    var u := JobRun(w, steps);
    assert u.reports + [] == u.reports;
    if job in u.jobs && |answers| == |u.jobs[job].items| && Succeeds(u, u.jobs[job], ctx, answers) {
      SuccessDoes(u, EndTime(clock, steps), job, ctx, answers, now);
    }
  }

  lemma SameEventsDone(w: World, v: World, f: nat)
    requires Done(w, f) && v.fetches == w.fetches && v.deployments == w.deployments
    requires v.tables.bindings == w.tables.bindings
    requires |v.tables.deliveries| == |w.tables.deliveries|
    requires forall i :: 0 <= i < |v.tables.deliveries| ==> v.tables.deliveries[i].event == w.tables.deliveries[i].event
    ensures Done(v, f)
  {
    assert EventOf(v.tables.deliveries, v.fetches[f]) == EventOf(w.tables.deliveries, w.fetches[f]);
    if HasDeployment(w, f) { assert HasDeployment(v, f); }
  }

  lemma LostLeaseDoesNothing(u: World, clock: int, job: nat, ctx: Context, answers: seq<Answers>, now: int)
    requires JobInv(u, clock) && job in u.jobs && u.jobs[job].delivery < |u.tables.deliveries|
    requires !Holds(u.tables.deliveries[u.jobs[job].delivery], Some(u.jobs[job].token))
    ensures ConcludeJob(u, job, ctx, answers, now).reports == u.reports
    ensures ConcludeJob(u, job, ctx, answers, now).tables == u.tables
  {
    var j := u.jobs[job];
    assert JobFits(u, j);
    FinishOfJob(u, j, "", ctx);
    FinishOfJob(u, j, ERROR, ctx);
    assert u.reports + [] == u.reports;
  }

  /** A job that lost its lease reports nothing and leaves all deliveries as they are, whatever its
      acquisitions achieved. */
  lemma LostLeaseReportsNothing(w: World, clock: int, steps: seq<JobStep>, job: nat, ctx: Context,
                                answers: seq<Answers>, now: int)
    requires FreshWorld(w) && Timed(clock, steps)
    requires var u := JobRun(w, steps);
      job in u.jobs && u.jobs[job].delivery < |u.tables.deliveries|
      && !Holds(u.tables.deliveries[u.jobs[job].delivery], Some(u.jobs[job].token))
    ensures ConcludeJob(JobRun(w, steps), job, ctx, answers, now).reports == JobRun(w, steps).reports
    ensures ConcludeJob(JobRun(w, steps), job, ctx, answers, now).tables == JobRun(w, steps).tables
  {
    JobRunKeepsInv(w, clock, steps);
    LostLeaseDoesNothing(JobRun(w, steps), EndTime(clock, steps), job, ctx, answers, now);
  }

  // ----- Only the latest is deployed

  lemma {:induction false} NewDeploymentsWereDue(w: World, items: seq<Item>, answers: seq<Answers>, k: nat)
    requires |answers| == |items|
    requires |w.deployments| <= k < |CompleteAll(w, items, answers).world.deployments|
    ensures Deployable(CompleteAll(w, items, answers).world, CompleteAll(w, items, answers).world.deployments[k].fetch)
  {
    var n := |items| - 1;
    var before := CompleteAll(w, items[..n], answers[..n]).world;
    var after := CompleteItem(before, items[n], answers[n]).world;
    CompleteItemEffect(before, items[n], answers[n]);
    if k < |before.deployments| {
      NewDeploymentsWereDue(w, items[..n], answers[..n], k);
      DueStays(before, after, before.deployments[k].fetch);
    }
  }

  lemma DueStays(w: World, v: World, f: nat)
    requires Works(w, v) && Deployable(w, f)
    ensures Deployable(v, f)
  {
  }

  lemma SameEventsDue(w: World, v: World, f: nat)
    requires v.fetches == w.fetches && v.tables.bindings == w.tables.bindings && Deployable(w, f)
    requires |v.tables.deliveries| == |w.tables.deliveries|
    requires forall i :: 0 <= i < |v.tables.deliveries| ==> v.tables.deliveries[i].event == w.tables.deliveries[i].event
    ensures Deployable(v, f)
  {
    assert EventOf(v.tables.deliveries, v.fetches[f]) == EventOf(w.tables.deliveries, w.fetches[f]);
  }

  /** What the second transaction deploys is still due when it ends. */
  lemma ConcludeDeploysDue(u: World, job: nat, ctx: Context, answers: seq<Answers>, now: int, k: nat)
    requires |u.deployments| <= k < |ConcludeJob(u, job, ctx, answers, now).deployments|
    ensures var v := ConcludeJob(u, job, ctx, answers, now); Deployable(v, v.deployments[k].fetch)
  {
    var j := u.jobs[job];
    var c := CompleteAll(u, j.items, answers);
    NewDeploymentsWereDue(u, j.items, answers, k);
    CompleteAllEffect(u, j.items, answers);
    FinishKeepsEvents(u.tables, j.publicId, j.token, c.ok, if c.ok then "" else ERROR, ctx, now);
    SameEventsDue(c.world, ConcludeJob(u, job, ctx, answers, now), c.world.deployments[k].fetch);
  }

  lemma DueIsLatest(v: World, f: nat)
    requires InOrder(v) && Deployable(v, f)
    ensures v.fetches[f].binding < |v.tables.bindings| && v.tables.bindings[v.fetches[f].binding].automatic
    ensures forall g :: 0 <= g < |v.fetches| ==> !Precedes(v.tables.deliveries, v.fetches[f], v.fetches[g])
    ensures EventOf(v.tables.deliveries, v.fetches[f]) == Push ==>
      v.tables.bindings[v.fetches[f].binding].currentFetch == Some(f)
  {
    LatestWins(v.tables.deliveries, v.fetches, v.tables.bindings, f);
  }

  /** A deployment is created only for a fetch that at that moment nothing later in its lane has
      replaced: for a push, the binding's current fetch. */
  lemma OnlyTheLatestIsDeployed(w: World, clock: int, steps: seq<JobStep>, job: nat, ctx: Context,
                                answers: seq<Answers>, now: int, k: nat)
    requires FreshWorld(w) && Timed(clock, steps)
    requires |JobRun(w, steps).deployments| <= k < |ConcludeJob(JobRun(w, steps), job, ctx, answers, now).deployments|
    ensures var v := ConcludeJob(JobRun(w, steps), job, ctx, answers, now);
      var f := v.deployments[k].fetch;
      && f < |v.fetches| && v.fetches[f].binding < |v.tables.bindings|
      && v.tables.bindings[v.fetches[f].binding].automatic
      && (forall g :: 0 <= g < |v.fetches| ==> !Precedes(v.tables.deliveries, v.fetches[f], v.fetches[g]))
      && (EventOf(v.tables.deliveries, v.fetches[f]) == Push ==>
            v.tables.bindings[v.fetches[f].binding].currentFetch == Some(f))
  {
    var u := JobRun(w, steps);
    JobRunKeepsInv(w, clock, steps);
    ConcludeKeepsInv(u, job, ctx, answers, now, EndTime(clock, steps));
    ConcludeDeploysDue(u, job, ctx, answers, now, k);
    var v := ConcludeJob(u, job, ctx, answers, now);
    DueIsLatest(v, v.deployments[k].fetch);
  }

  // ----- Pushes never go back

  /** `after` is `before` or later. */
  predicate NotBefore(before: Option<nat>, after: Option<nat>) {
    before.Some? ==> after.Some? && before.value <= after.value
  }

  ghost predicate NoneGoesBack(bs: seq<Binding>, cs: seq<Binding>) {
    |bs| <= |cs| && forall b :: 0 <= b < |bs| ==> NotBefore(bs[b].lastDelivery, cs[b].lastDelivery)
  }

  lemma PushGoesForward(w: World, d: nat, b: nat, permitted: bool)
    requires d < |w.tables.deliveries| && b < |w.tables.bindings|
    requires var last := w.tables.bindings[b].lastDelivery;
      last.Some? ==> (Newer(w.tables.deliveries, last.value, d) <==> last.value > d)
    ensures NoneGoesBack(w.tables.bindings, PreparePush(w, d, b, permitted).world.tables.bindings)
  {
    var bs, r := w.tables.bindings, PreparePush(w, d, b, permitted);
    assert NoneGoesBack(bs, bs);
    if !r.result.Skipped? && !AlreadyCurrent(w, d, b) {
      var taken := TakeUp(w, d, b, permitted);
      if taken.Some? {
        var v := MakeCurrent(w.(fetches := taken.value.fetches), d, b, taken.value.fetch);
        assert NoneGoesBack(bs, v.tables.bindings);
        StartEffect(v, taken.value.fetch);
      }
    }
  }

  lemma PrepareBindingGoesForward(w: World, d: nat, b: nat, permitted: bool)
    requires InOrder(w) && Chronological(w.tables.deliveries) && d < |w.tables.deliveries| && b < |w.tables.bindings|
    ensures NoneGoesBack(w.tables.bindings, PrepareBinding(w, d, b, permitted).world.tables.bindings)
  {
    assert BindingFits(w.tables.deliveries, w.fetches, b, w.tables.bindings[b]);
    var last := w.tables.bindings[b].lastDelivery;
    if last.Some? { NewerIsLater(w.tables.deliveries, last.value, d); }
    PushGoesForward(w, d, b, permitted);
    assert PreparePullRequest(w, d, b, permitted).world.tables == w.tables;
  }

  lemma {:induction false} PrepareGoesForward(w: World, d: nat, b: nat, permitted: set<nat>)
    requires InOrder(w) && Chronological(w.tables.deliveries)
    requires d < |w.tables.deliveries| && Target(w.tables.deliveries[d])
    ensures NoneGoesBack(w.tables.bindings, PrepareFrom(w, d, b, permitted).world.tables.bindings)
    decreases |w.tables.bindings| - b
  {
    if b < |w.tables.bindings| {
      var p := PrepareBinding(w, d, b, b in permitted);
      PrepareBindingGoesForward(w, d, b, b in permitted);
      PrepareBindingFits(w, d, b, b in permitted);
      PrepareFromWorld(w, d, b, permitted);
      if p.result != Refused {
        PrepareGoesForward(p.world, d, b + 1, permitted);
        NoneGoesBackTransitive(w.tables.bindings, p.world.tables.bindings,
                               PrepareFrom(p.world, d, b + 1, permitted).world.tables.bindings);
      }
    }
  }

  lemma PrepareFromWorld(w: World, d: nat, b: nat, permitted: set<nat>)
    requires d < |w.tables.deliveries| && b < |w.tables.bindings|
    ensures var p := PrepareBinding(w, d, b, b in permitted);
      PrepareFrom(w, d, b, permitted).world
      == if p.result == Refused then p.world else PrepareFrom(p.world, d, b + 1, permitted).world
  {
  }

  lemma NoneGoesBackTransitive(a: seq<Binding>, b: seq<Binding>, c: seq<Binding>)
    requires NoneGoesBack(a, b) && NoneGoesBack(b, c)
    ensures NoneGoesBack(a, c)
  {
  }

  lemma BeginGoesForward(w: World, job: nat, publicId: string, token: string, ctx: Context, permitted: set<nat>,
                         now: int, clock: int)
    requires JobInv(w, clock)
    ensures NoneGoesBack(w.tables.bindings, BeginJob(w, job, publicId, token, ctx, permitted, now).tables.bindings)
  {
    if ClaimResultFor(w.tables, Some(publicId), Some(token), ctx, now) == Claimed {
      var d := FindVisible(w.tables.deliveries, Some(publicId), ctx).value;
      var claimed := w.(tables := Claim(w.tables, Some(publicId), Some(token), ctx, now));
      ClaimKeepsJobInv(w, Some(publicId), Some(token), ctx, clock, now);
      assert WellFormed(claimed.tables.deliveries[d]);
      PrepareGoesForward(claimed, d, 0, permitted);
    }
  }

  lemma ConcludeGoesForward(w: World, job: nat, ctx: Context, answers: seq<Answers>, now: int)
    ensures NoneGoesBack(w.tables.bindings, ConcludeJob(w, job, ctx, answers, now).tables.bindings)
  {
  }

  lemma StepGoesForward(w: World, s: JobStep, clock: int)
    requires JobInv(w, clock) && clock <= JobTime(s)
    ensures NoneGoesBack(w.tables.bindings, JobNext(w, s).tables.bindings)
  {
    match s
    case Outside(step) =>
      if External(step) { OutsideFollows(w.tables, step, clock); }
    case Begin(job, publicId, token, ctx, permitted, now) =>
      BeginGoesForward(w, job, publicId, token, ctx, permitted, now, clock);
    case Conclude(job, ctx, answers, now) =>
      ConcludeGoesForward(w, job, ctx, answers, now);
  }

  /** On every run, the last push a binding took note of never goes back to an earlier one. */
  lemma {:induction false} BindingsGoForward(w: World, clock: int, steps: seq<JobStep>)
    requires (FreshWorld(w) || JobInv(w, clock)) && Timed(clock, steps)
    ensures NoneGoesBack(w.tables.bindings, JobRun(w, steps).tables.bindings)
  {
    if steps != [] {
      var init := steps[..|steps| - 1];
      BindingsGoForward(w, clock, init);
      JobRunKeepsInv(w, clock, init);
      StepGoesForward(JobRun(w, init), steps[|steps| - 1], EndTime(clock, init));
    }
  }

  /** So a push older than one its binding took note of is passed over, for good. */
  lemma OlderPushIsPassedOver(w: World, clock: int, steps: seq<JobStep>, b: nat, d: nat, permitted: bool)
    requires JobInv(w, clock) && Timed(clock, steps) && b < |w.tables.bindings|
    requires w.tables.bindings[b].lastDelivery.Some? && d < w.tables.bindings[b].lastDelivery.value
    ensures var v := JobRun(w, steps);
      && d < |v.tables.deliveries| && b < |v.tables.bindings|
      && PreparePush(v, d, b, permitted) == Preparation(v, Skipped)
  {
    BindingsGoForward(w, clock, steps);
    JobRunKeepsInv(w, clock, steps);
    var v := JobRun(w, steps);
    assert BindingFits(v.tables.deliveries, v.fetches, b, v.tables.bindings[b]);
    NewerIsLater(v.tables.deliveries, v.tables.bindings[b].lastDelivery.value, d);
  }
}
