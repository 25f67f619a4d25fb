/** Processing a delivery: one transaction claims it and prepares source fetches, the sources are
    acquired outside any transaction, and a second transaction records the results, creates
    deployments and finishes the delivery. Other jobs, webhooks and reconnections run in between. */
module DeliveryJobs {
  import opened Sql
  import opened ProviderTables
  import opened ProviderRuns

  datatype FetchState = Authorized | Fetching | Complete | FetchFailed

  /** The commit, repository and connection of a fetch are those of its delivery. */
  datatype Fetch = Fetch(binding: nat, delivery: nat, state: FetchState, supersededBy: Option<nat>, attempts: nat)

  datatype Deployment = Deployment(fetch: nat, production: bool)

  /** A fetch a job is to acquire; those complete at preparation are not acquired again. */
  datatype Item = Item(fetch: nat, skip: bool)

  /** A job between its two transactions. */
  datatype Job = Job(publicId: string, token: string, delivery: nat, items: seq<Item>)

  /** A job that returned without error after finishing its delivery. */
  datatype Report = Report(delivery: nat, token: string, items: seq<Item>)

  datatype World = World(
    tables: Tables,
    fetches: seq<Fetch>,
    deployments: seq<Deployment>,
    jobs: map<nat, Job>,
    reports: seq<Report>)

  function CommitOf(ds: seq<Delivery>, f: Fetch): Option<string> {
    if f.delivery < |ds| then ds[f.delivery].commit else None
  }

  function EventOf(ds: seq<Delivery>, f: Fetch): EventType {
    if f.delivery < |ds| then ds[f.delivery].event else UnlistedEvent
  }

  /** `[a.created_at, a.id] <=> [b.created_at, b.id]` is 1. */
  predicate Newer(ds: seq<Delivery>, a: nat, b: nat) {
    && a < |ds| && b < |ds|
    && (ds[a].createdAt > ds[b].createdAt || (ds[a].createdAt == ds[b].createdAt && a > b))
  }

  // ----- Preparation

  datatype Preparation = Preparation(world: World, result: PrepareResult)
  datatype PrepareResult = Skipped | Use(fetch: nat) | Refused

  /** The fetch for this binding and delivery, if there is one. */
  function FetchFor(fs: seq<Fetch>, b: nat, d: nat): (r: Option<nat>)
    ensures r.Some? ==> r.value < |fs| && fs[r.value].binding == b && fs[r.value].delivery == d
    ensures r == None ==> forall f :: 0 <= f < |fs| ==> !(fs[f].binding == b && fs[f].delivery == d)
  {
    if fs == [] then None
    else if fs[|fs| - 1].binding == b && fs[|fs| - 1].delivery == d then Some(|fs| - 1)
    else FetchFor(fs[..|fs| - 1], b, d)
  }

  /** A fetch for another delivery of the pull request that `d` belongs to. */
  predicate SamePullRequest(ds: seq<Delivery>, g: Fetch, b: nat, d: nat) {
    && g.binding == b && g.delivery != d && g.delivery < |ds| && d < |ds|
    && ds[g.delivery].event == PullRequest
    && IsTrue(Equals3(ds[g.delivery].pullRequest, ds[d].pullRequest))
  }

  /** The newest of the binding's other fetches for the same pull request. */
  function LatestPrior(ds: seq<Delivery>, fs: seq<Fetch>, b: nat, d: nat): (r: Option<nat>)
    ensures r.Some? ==> r.value < |fs| && SamePullRequest(ds, fs[r.value], b, d)
    ensures r == None ==> forall g :: 0 <= g < |fs| ==> !SamePullRequest(ds, fs[g], b, d)
    ensures r.Some? ==> forall g :: 0 <= g < |fs| && SamePullRequest(ds, fs[g], b, d) ==>
      !Newer(ds, fs[g].delivery, fs[r.value].delivery)
  {
    if fs == [] then None
    else
      var f := |fs| - 1;
      var prior := LatestPrior(ds, fs[..f], b, d);
      assert forall g :: 0 <= g < f ==> fs[..f][g] == fs[g];
      if SamePullRequest(ds, fs[f], b, d) && (prior == None || Newer(ds, fs[f].delivery, fs[prior.value].delivery))
      then Some(f) else prior
  }

  /** The delivery's connection is active and still authorizes the repository. */
  predicate StillAuthorized(t: Tables, d: nat) {
    && d < |t.deliveries|
    && var row := t.deliveries[d];
       && row.connection in t.connections && t.connections[row.connection].status == Active
       && row.repository.Some? && Authorizes(t.connections[row.connection], row.repository.value)
  }

  /** `supersede(previous, with: f)`. */
  function Supersede(fs: seq<Fetch>, previous: Option<nat>, f: nat): (r: seq<Fetch>)
    ensures |r| == |fs|
  {
    if previous.Some? && previous.value < |fs| && previous.value != f && fs[previous.value].supersededBy == None
    then fs[previous.value := fs[previous.value].(supersededBy := Some(f))] else fs
  }

  /** Starting a fetch: complete ones stay complete; otherwise the connection must still authorize it. */
  function Start(w: World, f: nat): (r: Preparation)
    requires f < |w.fetches|
    ensures r.world == w.(fetches := r.world.fetches) && |r.world.fetches| == |w.fetches|
    ensures r.result == Use(f) || r.result == Refused
  {
    if w.fetches[f].state == Complete then Preparation(w, Use(f))
    else if !StillAuthorized(w.tables, w.fetches[f].delivery) then Preparation(w, Refused)
    else
      var started := w.fetches[f].(state := Fetching, attempts := w.fetches[f].attempts + 1);
      Preparation(w.(fetches := w.fetches[f := started]), Use(f))
  }

  /** The fetches with the one for this binding and delivery among them. */
  datatype TakenUp = TakenUp(fetches: seq<Fetch>, fetch: nat)

  /** Finds the fetch or authorizes a new one; `None` when authorization is refused. */
  function TakeUp(w: World, d: nat, b: nat, permitted: bool): (r: Option<TakenUp>)
    ensures r.Some? ==> r.value.fetch < |r.value.fetches| && |w.fetches| <= |r.value.fetches|
  {
    match FetchFor(w.fetches, b, d)
    case Some(f) => Some(TakenUp(w.fetches, f))
    case None =>
      if permitted && StillAuthorized(w.tables, d)
      then Some(TakenUp(w.fetches + [Fetch(b, d, Authorized, None, 0)], |w.fetches|)) else None
  }

  /** The binding's current fetch is complete and has the delivery's commit. */
  predicate AlreadyCurrent(w: World, d: nat, b: nat)
    requires d < |w.tables.deliveries| && b < |w.tables.bindings|
  {
    var current := w.tables.bindings[b].currentFetch;
    && current.Some? && current.value < |w.fetches| && w.fetches[current.value].state == Complete
    && CommitOf(w.tables.deliveries, w.fetches[current.value]) == w.tables.deliveries[d].commit
  }

  /** What every update of a binding validates: its connection still authorizes its repository. */
  predicate MayUpdate(t: Tables, bound: Binding) {
    bound.connection in t.connections && Authorizes(t.connections[bound.connection], bound.repository)
  }

  function SetBinding(w: World, b: nat, bound: Binding): World
    requires b < |w.tables.bindings|
  {
    w.(tables := w.tables.(bindings := w.tables.bindings[b := bound]))
  }

  /** Makes `f` the binding's current fetch, superseding the one it had. */
  function MakeCurrent(w: World, d: nat, b: nat, f: nat): World
    requires d < |w.tables.deliveries| && b < |w.tables.bindings|
  {
    var row, bound := w.tables.deliveries[d], w.tables.bindings[b];
    if bound.currentFetch == Some(f) then w
    else
      SetBinding(w.(fetches := Supersede(w.fetches, bound.currentFetch, f)), b,
                 bound.(currentFetch := Some(f), lastDelivery := Some(d), currentRef := row.gitRef,
                        requestedCommit := row.commit, generation := bound.generation + 1))
  }

  function PreparePush(w: World, d: nat, b: nat, permitted: bool): (r: Preparation)
    requires d < |w.tables.deliveries| && b < |w.tables.bindings|
    ensures r.world == w.(tables := w.tables.(bindings := r.world.tables.bindings), fetches := r.world.fetches)
    ensures |r.world.tables.bindings| == |w.tables.bindings| && |w.fetches| <= |r.world.fetches|
    ensures r.result.Use? ==> r.result.fetch < |r.world.fetches|
  {
    var row, bound := w.tables.deliveries[d], w.tables.bindings[b];
    if bound.lastDelivery.Some? && Newer(w.tables.deliveries, bound.lastDelivery.value, d) then Preparation(w, Skipped)
    else if row.gitRef != Some("refs/heads/" + bound.branch) then Preparation(w, Skipped)
    else if AlreadyCurrent(w, d, b) then
      if !MayUpdate(w.tables, bound) then Preparation(w, Refused)
      else
        var noted := bound.(lastDelivery := Some(d), currentRef := row.gitRef);
        Preparation(SetBinding(w, b, noted), Use(bound.currentFetch.value))
    else
      var taken := TakeUp(w, d, b, permitted);
      if taken == None then Preparation(w, Refused)
      else if bound.currentFetch != Some(taken.value.fetch) && !MayUpdate(w.tables, bound) then
        Preparation(w.(fetches := Supersede(taken.value.fetches, bound.currentFetch, taken.value.fetch)), Refused)
      else Start(MakeCurrent(w.(fetches := taken.value.fetches), d, b, taken.value.fetch), taken.value.fetch)
  }

  function PreparePullRequest(w: World, d: nat, b: nat, permitted: bool): (r: Preparation)
    requires d < |w.tables.deliveries| && b < |w.tables.bindings|
    ensures r.world == w.(tables := w.tables.(bindings := r.world.tables.bindings), fetches := r.world.fetches)
    ensures |r.world.tables.bindings| == |w.tables.bindings| && |w.fetches| <= |r.world.fetches|
    ensures r.result.Use? ==> r.result.fetch < |r.world.fetches|
  {
    var row, latest := w.tables.deliveries[d], LatestPrior(w.tables.deliveries, w.fetches, b, d);
    if latest.Some? && Newer(w.tables.deliveries, w.fetches[latest.value].delivery, d) then Preparation(w, Skipped)
    else if latest.Some? && w.fetches[latest.value].state == Complete
            && CommitOf(w.tables.deliveries, w.fetches[latest.value]) == row.commit
    then Preparation(w, Use(latest.value))
    else
      var taken := TakeUp(w, d, b, permitted);
      if taken == None then Preparation(w, Refused)
      else Start(w.(fetches := Supersede(taken.value.fetches, latest, taken.value.fetch)), taken.value.fetch)
  }

  /** The bindings a delivery concerns. */
  predicate Concerns(t: Tables, d: nat, b: nat)
    requires d < |t.deliveries| && b < |t.bindings|
  {
    var row, bound := t.deliveries[d], t.bindings[b];
    && bound.connection == row.connection && Some(bound.repository) == row.repository && bound.automatic
    && (row.event == Push || row.event == PullRequest) && row.commit.Some?
  }

  function PrepareBinding(w: World, d: nat, b: nat, permitted: bool): (r: Preparation)
    requires d < |w.tables.deliveries| && b < |w.tables.bindings|
    ensures r.world == w.(tables := w.tables.(bindings := r.world.tables.bindings), fetches := r.world.fetches)
    ensures |r.world.tables.bindings| == |w.tables.bindings| && |w.fetches| <= |r.world.fetches|
    ensures r.result.Use? ==> r.result.fetch < |r.world.fetches|
  {
    if !Concerns(w.tables, d, b) then Preparation(w, Skipped)
    else if w.tables.deliveries[d].event == Push then PreparePush(w, d, b, permitted)
    else PreparePullRequest(w, d, b, permitted)
  }

  /** The items a preparation yields, or none if it raised. */
  datatype PreparedAll = PreparedAll(world: World, items: Option<seq<Item>>)

  /** Prepares the bindings from `b` on, in order; the first refusal ends the preparation. */
  function PrepareFrom(w: World, d: nat, b: nat, permitted: set<nat>): (r: PreparedAll)
    requires d < |w.tables.deliveries|
    ensures r.world == w.(tables := w.tables.(bindings := r.world.tables.bindings), fetches := r.world.fetches)
    ensures |r.world.tables.bindings| == |w.tables.bindings| && |w.fetches| <= |r.world.fetches|
    decreases |w.tables.bindings| - b
  {
    if b >= |w.tables.bindings| then PreparedAll(w, Some([]))
    else
      var p := PrepareBinding(w, d, b, b in permitted);
      match p.result
      case Refused => PreparedAll(p.world, None)
      case Skipped => PrepareFrom(p.world, d, b + 1, permitted)
      case Use(f) =>
        var rest := PrepareFrom(p.world, d, b + 1, permitted);
        var item := Item(f, p.world.fetches[f].state == Complete);
        PreparedAll(rest.world, if rest.items.Some? then Some([item] + rest.items.value) else None)
  }

  // ----- Completion

  /** How the gateway, the result verifier and the deployment service answer for one fetch. */
  datatype Answers = Answers(acquired: bool, stored: bool, created: bool)

  predicate HasDeployment(w: World, f: nat) {
    exists k :: 0 <= k < |w.deployments| && w.deployments[k].fetch == f
  }

  predicate Deployable(w: World, f: nat) {
    && f < |w.fetches| && w.fetches[f].supersededBy == None
    && w.fetches[f].binding < |w.tables.bindings| && w.tables.bindings[w.fetches[f].binding].automatic
    && match EventOf(w.tables.deliveries, w.fetches[f])
       case Push => w.tables.bindings[w.fetches[f].binding].currentFetch == Some(f)
       case PullRequest => true
       case _ => false
  }

  datatype Completion = Completion(world: World, ok: bool)

  /** `Deployments::CreateFromSourceFetch.call` on a complete fetch. */
  function CreateDeployment(w: World, f: nat, created: bool): Completion
    requires f < |w.fetches|
  {
    if !Deployable(w, f) || HasDeployment(w, f) then Completion(w, true)
    else if !created then Completion(w, false)
    else
      var production := EventOf(w.tables.deliveries, w.fetches[f]) == Push;
      Completion(w.(deployments := w.deployments + [Deployment(f, production)]), true)
  }

  function SetFetchState(w: World, f: nat, state: FetchState): World
    requires f < |w.fetches|
  {
    w.(fetches := w.fetches[f := w.fetches[f].(state := state)])
  }

  /** One pass of the completion loop. */
  function CompleteItem(w: World, item: Item, a: Answers): Completion {
    if item.fetch >= |w.fetches| then Completion(w, false)
    else if w.fetches[item.fetch].state == Complete then CreateDeployment(w, item.fetch, a.created)
    else if item.skip || !a.acquired || !a.stored then Completion(SetFetchState(w, item.fetch, FetchFailed), false)
    else CreateDeployment(SetFetchState(w, item.fetch, Complete), item.fetch, a.created)
  }

  /** The completion loop: every item is worked through, and the result is ok if all were. */
  function CompleteAll(w: World, items: seq<Item>, answers: seq<Answers>): Completion
    requires |answers| == |items|
  {
    if items == [] then Completion(w, true)
    else
      var n := |items| - 1;
      var before := CompleteAll(w, items[..n], answers[..n]);
      var last := CompleteItem(before.world, items[n], answers[n]);
      Completion(last.world, before.ok && last.ok)
  }

  // ----- Steps

  /** The error text a failed job stores: a class name, well below the 128 character limit. */
  const ERROR := "StandardError"

  datatype JobStep =
    | Outside(step: Step)
    | Begin(job: nat, publicId: string, token: string, ctx: Context, permitted: set<nat>, now: int)
    | Conclude(job: nat, ctx: Context, answers: seq<Answers>, now: int)

  /** Steps of the provider boundary that are not part of a job. */
  predicate External(s: Step) {
    s.ApplyStep? || s.ConnectStep? || s.BindStep?
  }

  /** The first transaction. */
  function BeginJob(w: World, job: nat, publicId: string, token: string, ctx: Context, permitted: set<nat>,
                    now: int): World {
    var t := w.tables;
    if ClaimResultFor(t, Some(publicId), Some(token), ctx, now) != Claimed then w
    else
      var d := FindVisible(t.deliveries, Some(publicId), ctx).value;
      var p := PrepareFrom(w.(tables := Claim(t, Some(publicId), Some(token), ctx, now)), d, 0, permitted);
      match p.items
      case Some(items) => p.world.(jobs := p.world.jobs[job := Job(publicId, token, d, items)])
      case None =>
        p.world.(tables := Finish(p.world.tables, Some(publicId), Some(token), Some(false), Some(ERROR), ctx, now))
  }

  /** How a job goes on after its first transaction: it acquires the prepared fetches, is over, raises one of the two
      errors it is retried for, or lets the claim's own error through. */
  datatype Onward = Acquires(items: seq<Item>) | Returns | RaisesBusy | RaisesRetryable | RaisesInvalid

  function AfterBegin(w: World, publicId: string, token: string, ctx: Context, permitted: set<nat>, now: int): Onward {
    var t := w.tables;
    match ClaimResultFor(t, Some(publicId), Some(token), ctx, now)
    case ClaimRaised => RaisesInvalid
    case AlreadyComplete => Returns
    case Unknown => Returns
    case Busy => RaisesBusy
    case Claimed =>
      var d := FindVisible(t.deliveries, Some(publicId), ctx).value;
      var p := PrepareFrom(w.(tables := Claim(t, Some(publicId), Some(token), ctx, now)), d, 0, permitted);
      if p.items.Some? then Acquires(p.items.value) else RaisesRetryable
  }

  /** Did the second transaction end in success? */
  predicate Succeeds(w: World, j: Job, ctx: Context, answers: seq<Answers>)
    requires |answers| == |j.items|
  {
    && CompleteAll(w, j.items, answers).ok
    && FinishResultFor(w.tables, Some(j.publicId), Some(j.token), Some(""), ctx) == FinishReturned(true)
  }

  /** The second transaction. */
  function ConcludeJob(w: World, job: nat, ctx: Context, answers: seq<Answers>, now: int): World {
    if job !in w.jobs || |answers| != |w.jobs[job].items| then w
    else
      var j := w.jobs[job];
      var c := CompleteAll(w, j.items, answers);
      var error := if c.ok then "" else ERROR;
      c.world.(
        tables := Finish(w.tables, Some(j.publicId), Some(j.token), Some(c.ok), Some(error), ctx, now),
        jobs := w.jobs - {job},
        reports := w.reports + if Succeeds(w, j, ctx, answers) then [Report(j.delivery, j.token, j.items)] else [])
  }

  function JobNext(w: World, s: JobStep): World {
    match s
    case Outside(step) => if External(step) then w.(tables := Next(w.tables, step)) else w
    case Begin(job, publicId, token, ctx, permitted, now) => BeginJob(w, job, publicId, token, ctx, permitted, now)
    case Conclude(job, ctx, answers, now) => ConcludeJob(w, job, ctx, answers, now)
  }
}
