/** What a binding notes about its pushes, and its generation, which tells whether what it deploys has changed. */
module BindingNotes {
  import opened Sql
  import opened ProviderTables
  import opened ProviderRuns
  import opened DeliveryJobs
  import opened JobRuns

  /** The ref is that of the last push noted, and the commit that of the current fetch. */
  predicate Noted(w: World, bound: Binding) {
    && (bound.lastDelivery.Some? ==>
          && bound.lastDelivery.value < |w.tables.deliveries|
          && bound.currentRef == w.tables.deliveries[bound.lastDelivery.value].gitRef)
    && (bound.currentFetch.Some? ==>
          && bound.currentFetch.value < |w.fetches|
          && w.fetches[bound.currentFetch.value].delivery < |w.tables.deliveries|
          && bound.requestedCommit == CommitOf(w.tables.deliveries, w.fetches[bound.currentFetch.value]))
  }

  /** The generation never falls, and as long as it stays the same so does what the binding deploys. */
  predicate Versioned(a: Binding, b: Binding) {
    && a.generation <= b.generation
    && (a.generation == b.generation ==>
          && b.connection == a.connection && b.repository == a.repository && b.branch == a.branch
          && b.automatic == a.automatic && b.currentFetch == a.currentFetch
          && b.requestedCommit == a.requestedCommit)
  }

  ghost predicate AllNoted(w: World) {
    forall b :: 0 <= b < |w.tables.bindings| ==> Noted(w, w.tables.bindings[b])
  }

  ghost predicate AllVersioned(bs: seq<Binding>, cs: seq<Binding>) {
    |bs| <= |cs| && forall b :: 0 <= b < |bs| ==> Versioned(bs[b], cs[b])
  }

  // ----- Preparation

  lemma NotesStay(w: World, v: World, bound: Binding)
    requires Noted(w, bound) && v.tables.deliveries == w.tables.deliveries && Advances(w.fetches, v.fetches)
    ensures Noted(v, bound)
  {
  }

  lemma MakeCurrentNotes(w: World, d: nat, b: nat, f: nat)
    requires d < |w.tables.deliveries| && b < |w.tables.bindings| && Noted(w, w.tables.bindings[b])
    requires f < |w.fetches| && w.fetches[f].delivery == d
    ensures var v := MakeCurrent(w, d, b, f);
      && |v.tables.bindings| == |w.tables.bindings| && v.tables.deliveries == w.tables.deliveries
      && Noted(v, v.tables.bindings[b]) && Versioned(w.tables.bindings[b], v.tables.bindings[b])
      && f < |v.fetches|
      && forall x :: 0 <= x < |w.tables.bindings| && x != b ==> v.tables.bindings[x] == w.tables.bindings[x]
  {
  }

  /** The binding is well noted, and the others are as they were. */
  ghost predicate NotesPush(w: World, v: World, b: nat)
    requires b < |w.tables.bindings| == |v.tables.bindings|
  {
    && Noted(v, v.tables.bindings[b]) && Versioned(w.tables.bindings[b], v.tables.bindings[b])
    && forall x :: 0 <= x < |w.tables.bindings| && x != b ==> v.tables.bindings[x] == w.tables.bindings[x]
  }

  lemma TakeUpNotes(w: World, d: nat, b: nat, permitted: bool)
    requires d < |w.tables.deliveries| && b < |w.tables.bindings| && Noted(w, w.tables.bindings[b])
    requires TakeUp(w, d, b, permitted).Some?
    ensures var taken := TakeUp(w, d, b, permitted).value;
      var v := Start(MakeCurrent(w.(fetches := taken.fetches), d, b, taken.fetch), taken.fetch).world;
      |v.tables.bindings| == |w.tables.bindings| && NotesPush(w, v, b)
  {
    var taken := TakeUp(w, d, b, permitted).value;
    TakeUpAdvances(w, d, b, permitted, None);
    var u := w.(fetches := taken.fetches);
    NotesStay(w, u, w.tables.bindings[b]);
    MakeCurrentNotes(u, d, b, taken.fetch);
    var v := MakeCurrent(u, d, b, taken.fetch);
    StartEffect(v, taken.fetch);
    NotesStay(v, Start(v, taken.fetch).world, v.tables.bindings[b]);
  }

  lemma PushNotes(w: World, d: nat, b: nat, permitted: bool)
    requires d < |w.tables.deliveries| && b < |w.tables.bindings| && Noted(w, w.tables.bindings[b])
    ensures NotesPush(w, PreparePush(w, d, b, permitted).world, b)
  {
    var r, bound := PreparePush(w, d, b, permitted), w.tables.bindings[b];
    PushAdvances(w, d, b, permitted);
    if !r.result.Skipped? && !AlreadyCurrent(w, d, b) {
      var taken := TakeUp(w, d, b, permitted);
      if taken == None || (bound.currentFetch != Some(taken.value.fetch) && !MayUpdate(w.tables, bound)) {
        NotesStay(w, r.world, bound);
      } else {
        TakeUpNotes(w, d, b, permitted);
      }
    }
  }

  lemma BindingPrepares(w: World, d: nat, b: nat, permitted: bool)
    requires d < |w.tables.deliveries| && b < |w.tables.bindings| && AllNoted(w)
    ensures var v := PrepareBinding(w, d, b, permitted).world;
      AllNoted(v) && AllVersioned(w.tables.bindings, v.tables.bindings)
  {
    var v := PrepareBinding(w, d, b, permitted).world;
    PushAdvances(w, d, b, permitted);
    PullRequestAdvances(w, d, b, permitted);
    PushNotes(w, d, b, permitted);
    assert Advances(w.fetches, v.fetches);
    forall x | 0 <= x < |w.tables.bindings|
      ensures Noted(v, v.tables.bindings[x]) && Versioned(w.tables.bindings[x], v.tables.bindings[x])
    {
      assert Noted(w, w.tables.bindings[x]);
    }
  }

  lemma VersionedTransitive(a: seq<Binding>, b: seq<Binding>, c: seq<Binding>)
    requires AllVersioned(a, b) && AllVersioned(b, c)
    ensures AllVersioned(a, c)
  {
    forall x | 0 <= x < |a| ensures Versioned(a[x], c[x]) { assert Versioned(a[x], b[x]) && Versioned(b[x], c[x]); }
  }

  lemma {:induction false} PreparationNotes(w: World, d: nat, b: nat, permitted: set<nat>)
    requires d < |w.tables.deliveries| && AllNoted(w)
    ensures var v := PrepareFrom(w, d, b, permitted).world;
      AllNoted(v) && AllVersioned(w.tables.bindings, v.tables.bindings)
    decreases |w.tables.bindings| - b
  {
    if b < |w.tables.bindings| {
      var p := PrepareBinding(w, d, b, b in permitted);
      BindingPrepares(w, d, b, b in permitted);
      if p.result != Refused {
        PreparationNotes(p.world, d, b + 1, permitted);
        VersionedTransitive(w.tables.bindings, p.world.tables.bindings,
                            PrepareFrom(p.world, d, b + 1, permitted).world.tables.bindings);
      }
    }
  }

  // ----- Steps

  /** A change of the deliveries that keeps their webhooks. */
  lemma SameWebhooksNoted(w: World, v: World)
    requires AllNoted(w) && v.tables.bindings == w.tables.bindings && Advances(w.fetches, v.fetches)
    requires |w.tables.deliveries| <= |v.tables.deliveries|
    requires forall i :: 0 <= i < |w.tables.deliveries| ==> SameWebhook(v.tables.deliveries[i], w.tables.deliveries[i])
    ensures AllNoted(v)
  {
    forall b | 0 <= b < |v.tables.bindings| ensures Noted(v, v.tables.bindings[b]) {
      assert Noted(w, w.tables.bindings[b]);
    }
  }

  lemma LeaseKeepsWebhooks(t: Tables, id: string, token: string, ctx: Context, now: int)
    ensures var u := Claim(t, Some(id), Some(token), ctx, now);
      && u.bindings == t.bindings && |u.deliveries| == |t.deliveries|
      && forall i :: 0 <= i < |t.deliveries| ==> SameWebhook(u.deliveries[i], t.deliveries[i])
    ensures var u := Finish(t, Some(id), Some(token), Some(false), Some(ERROR), ctx, now);
      && u.bindings == t.bindings && |u.deliveries| == |t.deliveries|
      && forall i :: 0 <= i < |t.deliveries| ==> SameWebhook(u.deliveries[i], t.deliveries[i])
  {
  }

  lemma BeginNotes(w: World, job: nat, publicId: string, token: string, ctx: Context, permitted: set<nat>, now: int)
    requires AllNoted(w)
    ensures var v := BeginJob(w, job, publicId, token, ctx, permitted, now);
      AllNoted(v) && AllVersioned(w.tables.bindings, v.tables.bindings)
  {
    var t := w.tables;
    if ClaimResultFor(t, Some(publicId), Some(token), ctx, now) == Claimed {
      var d := FindVisible(t.deliveries, Some(publicId), ctx).value;
      var claimed := w.(tables := Claim(t, Some(publicId), Some(token), ctx, now));
      LeaseKeepsWebhooks(t, publicId, token, ctx, now);
      SameWebhooksNoted(w, claimed);
      PreparationNotes(claimed, d, 0, permitted);
      var u := PrepareFrom(claimed, d, 0, permitted).world;
      LeaseKeepsWebhooks(u.tables, publicId, token, ctx, now);
      SameWebhooksNoted(u, BeginJob(w, job, publicId, token, ctx, permitted, now));
    }
  }

  lemma ConcludeNotes(w: World, job: nat, ctx: Context, answers: seq<Answers>, now: int)
    requires AllNoted(w)
    ensures var v := ConcludeJob(w, job, ctx, answers, now);
      AllNoted(v) && AllVersioned(w.tables.bindings, v.tables.bindings)
  {
    if job in w.jobs && |answers| == |w.jobs[job].items| {
      CompleteAllEffect(w, w.jobs[job].items, answers);
      SameWebhooksNoted(w, ConcludeJob(w, job, ctx, answers, now));
    }
  }

  /** Webhooks, connections and bindings: what a binding notes is left alone, and every other change raises its
      generation. */
  lemma OutsideVersions(t: Tables, s: Step)
    requires External(s)
    ensures AllVersioned(t.bindings, Next(t, s).bindings)
    ensures var cs := Next(t, s).bindings;
      && (forall b :: 0 <= b < |t.bindings| ==>
            && cs[b].lastDelivery == t.bindings[b].lastDelivery && cs[b].currentFetch == t.bindings[b].currentFetch
            && cs[b].currentRef == t.bindings[b].currentRef && cs[b].requestedCommit == t.bindings[b].requestedCommit)
      && (forall b :: |t.bindings| <= b < |cs| ==> cs[b].lastDelivery == None && cs[b].currentFetch == None)
  {
  }

  lemma StepNotes(w: World, s: JobStep, clock: int)
    requires JobInv(w, clock) && clock <= JobTime(s) && AllNoted(w)
    ensures AllNoted(JobNext(w, s)) && AllVersioned(w.tables.bindings, JobNext(w, s).tables.bindings)
  {
    match s
    case Outside(step) =>
      if External(step) {
        OutsideFollows(w.tables, step, clock);
        OutsideVersions(w.tables, step);
        var v := JobNext(w, s);
        forall b | 0 <= b < |v.tables.bindings| ensures Noted(v, v.tables.bindings[b]) {
          if b < |w.tables.bindings| { assert Noted(w, w.tables.bindings[b]); }
        }
      }
    case Begin(job, publicId, token, ctx, permitted, now) =>
      BeginNotes(w, job, publicId, token, ctx, permitted, now);
    case Conclude(job, ctx, answers, now) =>
      ConcludeNotes(w, job, ctx, answers, now);
  }

  /** On every run a binding's ref and commit are those of the last push it noted and of its current fetch. */
  lemma {:induction false} NotesAreTrue(w: World, clock: int, steps: seq<JobStep>)
    requires FreshWorld(w) && Timed(clock, steps)
    ensures AllNoted(JobRun(w, steps))
  {
    if steps != [] {
      var init := steps[..|steps| - 1];
      NotesAreTrue(w, clock, init);
      JobRunKeepsInv(w, clock, init);
      StepNotes(JobRun(w, init), steps[|steps| - 1], EndTime(clock, init));
    }
  }

  /** The generation is a version number: between any two points of a run at which it is the same, nothing that decides
      what the binding deploys has changed. */
  lemma {:induction false} GenerationIsVersion(w: World, clock: int, steps: seq<JobStep>, n: nat)
    requires FreshWorld(w) && Timed(clock, steps) && n <= |steps|
    ensures AllVersioned(JobRun(w, steps[..n]).tables.bindings, JobRun(w, steps).tables.bindings)
  {
    if n == |steps| {
      assert steps[..n] == steps;
    } else {
      var init := steps[..|steps| - 1];
      assert init[..n] == steps[..n];
      GenerationIsVersion(w, clock, init, n);
      NotesAreTrue(w, clock, init);
      JobRunKeepsInv(w, clock, init);
      StepNotes(JobRun(w, init), steps[|steps| - 1], EndTime(clock, init));
      VersionedTransitive(JobRun(w, steps[..n]).tables.bindings, JobRun(w, init).tables.bindings,
                          JobRun(w, steps).tables.bindings);
    }
  }
}
