/** The job's two transactions as they run, over stored rows. */
module JobStore {
  import opened Sql
  import opened ProviderTables
  import opened DeliveryJobs

  /** What the whole preparation yields, given what it found so far and what the rest will. */
  function Joined(found: seq<Item>, rest: PreparedAll): PreparedAll {
    rest.(items := if rest.items.Some? then Some(found + rest.items.value) else None)
  }

  lemma PrepareUnfolds(w: World, d: nat, b: nat, permitted: set<nat>, found: seq<Item>)
    requires d < |w.tables.deliveries| && b < |w.tables.bindings|
    ensures var p := PrepareBinding(w, d, b, b in permitted);
      var whole := Joined(found, PrepareFrom(w, d, b, permitted));
      && (p.result == Refused ==> whole == PreparedAll(p.world, None))
      && (p.result == Skipped ==> whole == Joined(found, PrepareFrom(p.world, d, b + 1, permitted)))
      && (p.result.Use? ==>
            var item := Item(p.result.fetch, p.world.fetches[p.result.fetch].state == Complete);
            whole == Joined(found + [item], PrepareFrom(p.world, d, b + 1, permitted)))
  {
    var p := PrepareBinding(w, d, b, b in permitted);
    if p.result.Use? {
      var item := Item(p.result.fetch, p.world.fetches[p.result.fetch].state == Complete);
      var rest := PrepareFrom(p.world, d, b + 1, permitted).items;
      assert rest.Some? ==> found + ([item] + rest.value) == (found + [item]) + rest.value;
    }
  }

  class Store {
    var tables: Tables
    var fetches: seq<Fetch>
    var deployments: seq<Deployment>
    var jobs: map<nat, Job>
    var reports: seq<Report>

    constructor (w: World)
      ensures Contents() == w
    {
      tables, fetches, deployments, jobs, reports := w.tables, w.fetches, w.deployments, w.jobs, w.reports;
    }

    function Contents(): (w: World)
      reads this
    {
      World(tables, fetches, deployments, jobs, reports)
    }

    method StartFetch(f: nat) returns (r: PrepareResult)
      requires f < |fetches|
      modifies this`fetches
      ensures Preparation(Contents(), r) == Start(old(Contents()), f)
    {
      if fetches[f].state == Complete { return Use(f); }
      if !StillAuthorized(tables, fetches[f].delivery) { return Refused; }
      fetches := fetches[f := fetches[f].(state := Fetching, attempts := fetches[f].attempts + 1)];
      return Use(f);
    }

    /** Finds or authorizes the fetch of this binding and delivery. */
    method FindOrAuthorize(d: nat, b: nat, permitted: bool) returns (f: Option<nat>)
      modifies this`fetches
      ensures Contents() == old(Contents()).(fetches := fetches)
      ensures f == None <==> TakeUp(old(Contents()), d, b, permitted) == None
      ensures f == None ==> fetches == old(fetches)
      ensures f.Some? ==> TakeUp(old(Contents()), d, b, permitted) == Some(TakenUp(fetches, f.value))
    {
      f := FetchFor(fetches, b, d);
      if f == None && permitted && StillAuthorized(tables, d) {
        f := Some(|fetches|);
        fetches := fetches + [Fetch(b, d, Authorized, None, 0)];
      }
    }

    method MarkSuperseded(previous: Option<nat>, f: nat)
      modifies this`fetches
      ensures fetches == Supersede(old(fetches), previous, f)
    {
      if previous.Some? && previous.value < |fetches| && previous.value != f &&
         fetches[previous.value].supersededBy == None {
        fetches := fetches[previous.value := fetches[previous.value].(supersededBy := Some(f))];
      }
    }

    method PreparePushBinding(d: nat, b: nat, permitted: bool) returns (r: PrepareResult)
      requires d < |tables.deliveries| && b < |tables.bindings|
      modifies this`fetches, this`tables
      ensures Preparation(Contents(), r) == PreparePush(old(Contents()), d, b, permitted)
    {
      var row, bound := tables.deliveries[d], tables.bindings[b];
      if bound.lastDelivery.Some? && Newer(tables.deliveries, bound.lastDelivery.value, d) { return Skipped; }
      if row.gitRef != Some("refs/heads/" + bound.branch) { return Skipped; }
      if AlreadyCurrent(Contents(), d, b) {
        if !MayUpdate(tables, bound) { return Refused; }
        tables := tables.(bindings := tables.bindings[b := bound.(lastDelivery := Some(d), currentRef := row.gitRef)]);
        return Use(bound.currentFetch.value);
      }
      var f := FindOrAuthorize(d, b, permitted);
      if f == None { return Refused; }
      if bound.currentFetch != f {
        MarkSuperseded(bound.currentFetch, f.value);
        if !MayUpdate(tables, bound) { return Refused; }
        tables := tables.(bindings := tables.bindings[b := bound.(
          currentFetch := f, lastDelivery := Some(d), currentRef := row.gitRef,
          requestedCommit := row.commit, generation := bound.generation + 1)]);
      }
      r := StartFetch(f.value);
    }

    method PreparePullRequestBinding(d: nat, b: nat, permitted: bool) returns (r: PrepareResult)
      requires d < |tables.deliveries| && b < |tables.bindings|
      modifies this`fetches
      ensures Preparation(Contents(), r) == PreparePullRequest(old(Contents()), d, b, permitted)
    {
      var latest := LatestPrior(tables.deliveries, fetches, b, d);
      if latest.Some? && Newer(tables.deliveries, fetches[latest.value].delivery, d) { return Skipped; }
      if latest.Some? && fetches[latest.value].state == Complete
         && CommitOf(tables.deliveries, fetches[latest.value]) == tables.deliveries[d].commit
      {
        return Use(latest.value);
      }
      var f := FindOrAuthorize(d, b, permitted);
      if f == None { return Refused; }
      MarkSuperseded(latest, f.value);
      r := StartFetch(f.value);
    }

    method PrepareOne(d: nat, b: nat, permitted: bool) returns (r: PrepareResult)
      requires d < |tables.deliveries| && b < |tables.bindings|
      modifies this`fetches, this`tables
      ensures Preparation(Contents(), r) == PrepareBinding(old(Contents()), d, b, permitted)
    {
      if !Concerns(tables, d, b) { return Skipped; }
      if tables.deliveries[d].event == Push {
        r := PreparePushBinding(d, b, permitted);
      } else {
        r := PreparePullRequestBinding(d, b, permitted);
      }
    }

    /** The preparation loop over the bindings; it stops at the first refusal. */
    method Prepare(d: nat, permitted: set<nat>) returns (items: Option<seq<Item>>)
      requires d < |tables.deliveries|
      modifies this`fetches, this`tables
      ensures PreparedAll(Contents(), items) == PrepareFrom(old(Contents()), d, 0, permitted)
    {
      var b, found := 0, [];
      ghost var whole := PrepareFrom(Contents(), d, 0, permitted);
      assert whole.items.Some? ==> found + whole.items.value == whole.items.value;
      while b < |tables.bindings|
        invariant d < |tables.deliveries| && whole == Joined(found, PrepareFrom(Contents(), d, b, permitted))
        decreases |tables.bindings| - b
      {
        PrepareUnfolds(Contents(), d, b, permitted, found);
        var r := PrepareOne(d, b, b in permitted);
        match r {
          case Refused => return None;
          case Skipped =>
          case Use(f) => found := found + [Item(f, fetches[f].state == Complete)];
        }
        b := b + 1;
      }
      assert found + [] == found;
      return Some(found);
    }

    method Deploy(f: nat, created: bool) returns (ok: bool)
      requires f < |fetches|
      modifies this`deployments
      ensures Completion(Contents(), ok) == CreateDeployment(old(Contents()), f, created)
    {
      if !Deployable(Contents(), f) || HasDeployment(Contents(), f) { return true; }
      if !created { return false; }
      deployments := deployments + [Deployment(f, EventOf(tables.deliveries, fetches[f]) == Push)];
      return true;
    }

    /** The completion loop: it goes on after an error and remembers that there was one. */
    method CompleteItems(items: seq<Item>, answers: seq<Answers>) returns (ok: bool)
      requires |answers| == |items|
      modifies this`fetches, this`deployments
      ensures Completion(Contents(), ok) == CompleteAll(old(Contents()), items, answers)
    {
      ok := true;
      var k := 0;
      while k < |items|
        invariant k <= |items|
        invariant Completion(Contents(), ok) == CompleteAll(old(Contents()), items[..k], answers[..k])
      {
        var f, a := items[k].fetch, answers[k];
        var good := false;
        if f < |fetches| {
          if fetches[f].state == Complete {
            good := Deploy(f, a.created);
          } else if items[k].skip || !a.acquired || !a.stored {
            fetches := fetches[f := fetches[f].(state := FetchFailed)];
          } else {
            fetches := fetches[f := fetches[f].(state := Complete)];
            good := Deploy(f, a.created);
          }
        }
        ok := ok && good;
        assert items[..k + 1][..k] == items[..k] && answers[..k + 1][..k] == answers[..k];
        k := k + 1;
      }
      assert items[..k] == items && answers[..k] == answers;
    }

    /** Claims the delivery and prepares its fetches; a failed preparation is finished as failed. */
    method BeginWork(job: nat, publicId: string, token: string, ctx: Context, permitted: set<nat>, now: int)
      returns (onward: Onward)
      modifies this
      ensures Contents() == BeginJob(old(Contents()), job, publicId, token, ctx, permitted, now)
      ensures onward == AfterBegin(old(Contents()), publicId, token, ctx, permitted, now)
    {
      var claim := ClaimResultFor(tables, Some(publicId), Some(token), ctx, now);
      if claim == ClaimRaised { return RaisesInvalid; }
      if claim == AlreadyComplete || claim == Unknown { return Returns; }
      if claim == Busy { return RaisesBusy; }
      var d := FindVisible(tables.deliveries, Some(publicId), ctx).value;
      tables := Claim(tables, Some(publicId), Some(token), ctx, now);
      var items := Prepare(d, permitted);
      if items == None {
        tables := Finish(tables, Some(publicId), Some(token), Some(false), Some(ERROR), ctx, now);
        return RaisesRetryable;
      }
      jobs := jobs[job := Job(publicId, token, d, items.value)];
      return Acquires(items.value);
    }

    /** Completes the items and finishes the delivery; reports success only if both went well, and otherwise raises the
        error the job is retried for. */
    method ConcludeWork(job: nat, ctx: Context, answers: seq<Answers>, now: int) returns (reported: bool)
      modifies this
      ensures Contents() == ConcludeJob(old(Contents()), job, ctx, answers, now)
      ensures reported <==> |reports| > |old(reports)|
    {
      if job !in jobs || |answers| != |jobs[job].items| { return false; }
      var j := jobs[job];
      ghost var before := Contents();
      var ok := CompleteItems(j.items, answers);
      var error := if ok then "" else ERROR;
      var finished := FinishResultFor(tables, Some(j.publicId), Some(j.token), Some(error), ctx);
      tables := Finish(tables, Some(j.publicId), Some(j.token), Some(ok), Some(error), ctx, now);
      jobs := jobs - {job};
      reported := ok && finished == FinishReturned(true);
      if reported { reports := reports + [Report(j.delivery, j.token, j.items)]; }
      assert reported <==> Succeeds(before, j, ctx, answers);
      assert before.reports + [] == before.reports;
    }
  }
}
