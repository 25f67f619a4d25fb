/** A run in which an older pull request delivery takes the lane over from a newer one. Three deliveries of one pull
    request go to a first commit, to a second, and back to the first. */
module JobExamples {
  import opened Sql
  import opened ProviderTables
  import opened ProviderRuns
  import opened ProviderExamples
  import opened DeliveryJobs
  import opened JobRuns
  import Patterns

  /** The digit the ids of the n-th delivery are made of. */
  function Mark(n: nat): char {
    if n == 0 then '0' else if n == 1 then '1' else '2'
  }

  function Commit(n: nat): string {
    Repeat(if n == 1 then 'b' else 'a', 40)
  }

  function DeliveryId(n: nat): string {
    "delivery-" + [Mark(n)]
  }

  function SamplePullRequest(n: nat): Call {
    Call(Some("1"), Some(DeliveryId(n)), Some(PullRequest), Some(Opened), Some("sha256:" + Repeat('0', 64)),
         Some("a/b"), Some("feature"), Some(Commit(n)), Some(Repeat('0', 40)), Some(1), Some(false), Some(false),
         Some(ToReceived), None, None, None, None, Some(NoChange), None,
         Some(SampleId(Mark(n))), Some(SampleId(Mark(n))), Some(SampleId(Mark(n))),
         Some("req_" + Repeat('0', 32)), Some("actor"), 0)
  }

  function SampleWorld(): World {
    World(SampleTables().(bindings := [Binding(0, "1", "a/b", "main", true, 1, None, None, None, None, 0)]),
          [], [], map[], [])
  }

  const CTX := Context(Some(1), {1})
  const TOKEN := "worker-token"

  predicate IsSample(d: Delivery, i: nat) {
    && d.publicId == SampleId(Mark(i)) && d.externalId == DeliveryId(i) && d.organization == 1 && d.connection == "1"
    && d.event == PullRequest && d.pullRequest == Some(1) && d.repository == Some("a/b")
    && d.commit == Some(Commit(i)) && d.createdAt == 0
  }

  /** The first `n` of the three deliveries have been recorded. */
  ghost predicate Scene(t: Tables, n: nat) {
    && n <= 3
    && "1" in t.connections && t.connections["1"].status == Active && t.connections["1"].organization == 1
    && t.connections["1"].allRepositories
    && |t.bindings| == 1 && t.bindings[0].connection == "1" && t.bindings[0].repository == "a/b"
    && t.bindings[0].automatic
    && |t.deliveries| == |t.outbox| == |t.audit| == n
    && (forall i :: 0 <= i < n ==> IsSample(t.deliveries[i], i))
    && (forall i :: 0 <= i < n ==> t.outbox[i].publicId == t.audit[i].publicId == SampleId(Mark(i)))
  }

  // ----- Recording

  lemma IdsDiffer(i: nat, j: nat)
    requires i < 3 && j < 3 && i != j
    ensures SampleId(Mark(i)) != SampleId(Mark(j)) && DeliveryId(i) != DeliveryId(j)
  {
    assert SampleId(Mark(i))[4] != SampleId(Mark(j))[4] && DeliveryId(i)[9] != DeliveryId(j)[9];
  }

  lemma SampleIsValid(n: nat)
    requires n < 3
    ensures !Rejected(SamplePullRequest(n))
  {
    SampleIdFits(Mark(n));
    SampleTextsFit();
    assert Patterns.Token(DeliveryId(n)) && Patterns.Commit(Commit(n)) && Patterns.Commit(Repeat('0', 40));
    assert Patterns.InstallationId("1");
    assert !BadCommon(SamplePullRequest(n));
  }

  lemma SampleCommits(t: Tables, n: nat)
    requires Scene(t, n) && n < 3
    ensures Commits(t, SamplePullRequest(n))
  {
    var c := SamplePullRequest(n);
    SampleIsValid(n);
    forall i | 0 <= i < n
      ensures Some(t.deliveries[i].externalId) != c.deliveryId && Some(t.deliveries[i].publicId) != c.publicId
      ensures Some(t.outbox[i].publicId) != c.eventId && Some(t.audit[i].publicId) != c.auditId
    {
      assert IsSample(t.deliveries[i], i);
      IdsDiffer(i, n);
    }
    assert FindExternal(t.deliveries, c.deliveryId) == None;
  }

  /** Recording the next delivery. */
  lemma Records(t: Tables, n: nat)
    requires Scene(t, n) && n < 3
    ensures var u := Apply(t, SamplePullRequest(n));
      && Scene(u, n + 1) && u.deliveries[..n] == t.deliveries && u.deliveries[n].state == Received
  {
    SampleCommits(t, n);
    var c := SamplePullRequest(n);
    var u := Committed(t, c);
    assert u.deliveries == t.deliveries + [NewDelivery(t.connections["1"], "1", c)];
    assert IsSample(u.deliveries[n], n);
    assert UpdatedBinding(t.bindings[0], "1", c) == t.bindings[0];
  }

  // ----- Beginning a job

  lemma SampleFound(t: Tables, n: nat, d: nat)
    requires Scene(t, n) && d < n
    ensures FindVisible(t.deliveries, Some(SampleId(Mark(d))), CTX) == Some(d)
    ensures !BadLease(Some(SampleId(Mark(d))), Some(TOKEN))
  {
    var id := Some(SampleId(Mark(d)));
    assert IsSample(t.deliveries[d], d);
    var r := FindPublic(t.deliveries, id);
    assert IsSample(t.deliveries[r.value], r.value);
    if r.value != d { IdsDiffer(r.value, d); }
    SampleIdFits(Mark(d));
    assert Patterns.Token(TOKEN);
  }

  function Claims(w: World, d: nat): World
    requires d < |w.tables.deliveries|
  {
    w.(tables := w.tables.(deliveries := w.tables.deliveries[d := ClaimedRow(w.tables.deliveries[d], Some(TOKEN), 0)]))
  }

  function BeginSample(d: nat): JobStep {
    Begin(d, SampleId(Mark(d)), TOKEN, CTX, {0}, 0)
  }

  /** Beginning the job of a waiting delivery prepares the one binding. */
  lemma Begins(w: World, n: nat, d: nat)
    requires Scene(w.tables, n) && d < n && Waiting(w.tables.deliveries[d].state)
    requires PreparePullRequest(Claims(w, d), d, 0, true).result.Use?
    ensures var p := PreparePullRequest(Claims(w, d), d, 0, true);
      var item := Item(p.result.fetch, p.world.fetches[p.result.fetch].state == Complete);
      JobNext(w, BeginSample(d)) == p.world.(jobs := p.world.jobs[d := Job(SampleId(Mark(d)), TOKEN, d, [item])])
  {
    SampleFound(w.tables, n, d);
    var claimed := Claims(w, d);
    assert IsSample(w.tables.deliveries[d], d);
    assert w.(tables := Claim(w.tables, Some(SampleId(Mark(d))), Some(TOKEN), CTX, 0)) == claimed;
    PrepareLast(claimed, d, PreparePullRequest(claimed, d, 0, true));
  }

  lemma PrepareDone(w: World, d: nat)
    requires d < |w.tables.deliveries| && |w.tables.bindings| == 1
    ensures PrepareFrom(w, d, 1, {0}) == PreparedAll(w, Some([]))
  {
  }

  lemma PrepareLast(w: World, d: nat, p: Preparation)
    requires d < |w.tables.deliveries| && |w.tables.bindings| == 1
    requires PrepareBinding(w, d, 0, true) == p && p.result.Use?
    ensures var item := Item(p.result.fetch, p.world.fetches[p.result.fetch].state == Complete);
      PrepareFrom(w, d, 0, {0}) == PreparedAll(p.world, Some([item]))
  {
    var item := Item(p.result.fetch, p.world.fetches[p.result.fetch].state == Complete);
    PrepareDone(p.world, d);
    assert (0 in {0}) && [item] + [] == [item];
  }

  // ----- The run

  const FETCHING := Fetch(0, 0, Fetching, None, 1)
  const DONE := Fetch(0, 0, Complete, None, 1)

  lemma ClaimsKeepScene(w: World, n: nat, d: nat)
    requires Scene(w.tables, n) && d < n
    ensures Scene(Claims(w, d).tables, n) && Concerns(Claims(w, d).tables, d, 0)
    ensures StillAuthorized(Claims(w, d).tables, d)
  {
    var ds := Claims(w, d).tables.deliveries;
    forall i | 0 <= i < n ensures IsSample(ds[i], i) { assert IsSample(w.tables.deliveries[i], i); }
  }

  lemma FirstFetch(w: World)
    requires Scene(w.tables, 1) && w.fetches == [] && w.jobs == map[] && w.tables.deliveries[0].state == Received
    ensures var v := JobNext(w, BeginSample(0));
      && Scene(v.tables, 1) && v.fetches == [FETCHING] && v.deployments == w.deployments
      && Holds(v.tables.deliveries[0], Some(TOKEN))
      && v.jobs == map[0 := Job(SampleId(Mark(0)), TOKEN, 0, [Item(0, false)])]
  {
    var claimed := Claims(w, 0);
    ClaimsKeepScene(w, 1, 0);
    assert [] + [Fetch(0, 0, Authorized, None, 0)] == [Fetch(0, 0, Authorized, None, 0)];
    assert TakeUp(claimed, 0, 0, true) == Some(TakenUp([Fetch(0, 0, Authorized, None, 0)], 0));
    assert PreparePullRequest(claimed, 0, 0, true) == Preparation(claimed.(fetches := [FETCHING]), Use(0));
    Begins(w, 1, 0);
  }

  function ConcludeFirst(): JobStep {
    Conclude(0, CTX, [Answers(true, true, true)], 0)
  }

  lemma FirstCompletes(w: World)
    requires |w.fetches| == 1 && w.fetches[0] == FETCHING
    ensures var c := CompleteAll(w, [Item(0, false)], [Answers(true, true, true)]);
      c.ok && c.world.fetches == [DONE] && c.world.tables == w.tables && c.world.jobs == w.jobs
  {
    var items, answers := [Item(0, false)], [Answers(true, true, true)];
    assert items[..0] == [] && answers[..0] == [];
    assert CompleteAll(w, items[..0], answers[..0]) == Completion(w, true);
    assert SetFetchState(w, 0, Complete).fetches == [DONE];
  }

  lemma FirstConcludes(w: World)
    requires Scene(w.tables, 1) && w.fetches == [FETCHING] && Holds(w.tables.deliveries[0], Some(TOKEN))
    requires w.jobs == map[0 := Job(SampleId(Mark(0)), TOKEN, 0, [Item(0, false)])]
    ensures var v := JobNext(w, ConcludeFirst());
      Scene(v.tables, 1) && v.fetches == [DONE] && v.jobs == map[] && v.tables.deliveries[0].state == Processed
  {
    FirstCompletes(w);
    SampleFound(w.tables, 1, 0);
    assert IsSample(w.tables.deliveries[0], 0);
  }

  function RecordSample(n: nat): JobStep {
    Outside(ApplyStep(SamplePullRequest(n)))
  }

  /** The newest delivery finds its commit fetched already, uses that fetch again and leaves the lane as it was. */
  lemma NewestReuses(w: World)
    requires Scene(w.tables, 3) && w.fetches == [DONE] && w.tables.deliveries[2].state == Received
    ensures var v := JobNext(w, BeginSample(2));
      && Scene(v.tables, 3) && v.fetches == [DONE] && v.tables.deliveries[1] == w.tables.deliveries[1]
      && 2 in v.jobs && v.jobs[2].delivery == 2 && v.jobs[2].items == [Item(0, true)]
  {
    var claimed := Claims(w, 2);
    ClaimsKeepScene(w, 3, 2);
    var ds := claimed.tables.deliveries;
    assert IsSample(ds[0], 0) && IsSample(ds[2], 2);
    assert SamePullRequest(ds, claimed.fetches[0], 0, 2);
    assert PreparePullRequest(claimed, 2, 0, true) == Preparation(claimed, Use(0));
    Begins(w, 3, 2);
  }

  /** The older delivery then makes a fetch of its own, which supersedes the one the newest relied on. */
  lemma OlderTakesOver(w: World)
    requires Scene(w.tables, 3) && w.fetches == [DONE] && w.tables.deliveries[1].state == Received
    ensures var v := JobNext(w, BeginSample(1));
      && Scene(v.tables, 3) && v.fetches == [DONE.(supersededBy := Some(1)), Fetch(0, 1, Fetching, None, 1)]
      && (2 in w.jobs ==> 2 in v.jobs && v.jobs[2] == w.jobs[2])
  {
    var claimed := Claims(w, 1);
    ClaimsKeepScene(w, 3, 1);
    var ds := claimed.tables.deliveries;
    assert IsSample(ds[0], 0) && IsSample(ds[1], 1);
    assert SamePullRequest(ds, claimed.fetches[0], 0, 1);
    assert Commit(0)[0] != Commit(1)[0];
    var both := [DONE, Fetch(0, 1, Authorized, None, 0)];
    assert [DONE] + [Fetch(0, 1, Authorized, None, 0)] == both;
    assert TakeUp(claimed, 1, 0, true) == Some(TakenUp(both, 1));
    var superseded := [DONE.(supersededBy := Some(1)), Fetch(0, 1, Authorized, None, 0)];
    assert Supersede(both, Some(0), 1) == superseded;
    assert Start(claimed.(fetches := superseded), 1).world.fetches
        == [DONE.(supersededBy := Some(1)), Fetch(0, 1, Fetching, None, 1)];
    Begins(w, 3, 1);
  }

  /** The first delivery is fetched and deployed, the two others arrive, the newest begins, then the older one. */
  function OvertakingRun(): seq<JobStep> {
    [RecordSample(0), BeginSample(0), ConcludeFirst(), RecordSample(1), RecordSample(2), BeginSample(2), BeginSample(1)]
  }

  lemma RunStep(w: World, steps: seq<JobStep>, k: nat)
    requires k < |steps|
    ensures JobRun(w, steps[..k + 1]) == JobNext(JobRun(w, steps[..k]), steps[k])
  {
    assert steps[..k + 1][..k] == steps[..k];
  }

  lemma {:induction false} AllAtOnce(steps: seq<JobStep>)
    requires forall k :: 0 <= k < |steps| ==> JobTime(steps[k]) == 0
    ensures Timed(0, steps)
  {
    if steps != [] { AllAtOnce(steps[..|steps| - 1]); }
  }

  lemma RecordsInWorld(w: World, n: nat)
    requires Scene(w.tables, n) && n < 3
    ensures var v := JobNext(w, RecordSample(n));
      && v == w.(tables := v.tables) && Scene(v.tables, n + 1)
      && v.tables.deliveries[..n] == w.tables.deliveries && v.tables.deliveries[n].state == Received
  {
    Records(w.tables, n);
  }

  // ----- Stage by stage

  ghost predicate Empty(w: World) {
    Scene(w.tables, 0) && w.fetches == [] && w.jobs == map[]
  }

  ghost predicate FirstArrived(w: World) {
    Scene(w.tables, 1) && w.fetches == [] && w.jobs == map[] && w.tables.deliveries[0].state == Received
  }

  ghost predicate FirstBegun(w: World) {
    && Scene(w.tables, 1) && w.fetches == [FETCHING] && Holds(w.tables.deliveries[0], Some(TOKEN))
    && w.jobs == map[0 := Job(SampleId(Mark(0)), TOKEN, 0, [Item(0, false)])]
  }

  ghost predicate FirstDone(w: World) {
    Scene(w.tables, 1) && w.fetches == [DONE]
  }

  ghost predicate SecondArrived(w: World) {
    Scene(w.tables, 2) && w.fetches == [DONE] && w.tables.deliveries[1].state == Received
  }

  ghost predicate ThirdArrived(w: World) {
    && Scene(w.tables, 3) && w.fetches == [DONE]
    && w.tables.deliveries[1].state == Received && w.tables.deliveries[2].state == Received
  }

  /** The job of the newest delivery relies on the first fetch. */
  ghost predicate NewestRelies(w: World) {
    2 in w.jobs && w.jobs[2].delivery == 2 && w.jobs[2].items == [Item(0, true)]
  }

  ghost predicate NewestBegun(w: World) {
    Scene(w.tables, 3) && w.fetches == [DONE] && w.tables.deliveries[1].state == Received && NewestRelies(w)
  }

  /** The older delivery's fetch has superseded the first one. */
  ghost predicate Overtaking(w: World) {
    && Scene(w.tables, 3) && NewestRelies(w)
    && w.fetches == [DONE.(supersededBy := Some(1)), Fetch(0, 1, Fetching, None, 1)]
  }

  lemma SecondArrives(u: World)
    requires FirstDone(u)
    ensures SecondArrived(JobNext(u, RecordSample(1)))
  {
    RecordsInWorld(u, 1);
  }

  lemma ThirdArrives(u: World)
    requires SecondArrived(u)
    ensures ThirdArrived(JobNext(u, RecordSample(2)))
  {
    RecordsInWorld(u, 2);
    var v := JobNext(u, RecordSample(2));
    assert v.tables.deliveries[..2][1] == v.tables.deliveries[1];
  }

  ghost predicate Stage(k: nat, w: World) {
    match k
    case 0 => Empty(w)
    case 1 => FirstArrived(w)
    case 2 => FirstBegun(w)
    case 3 => FirstDone(w)
    case 4 => SecondArrived(w)
    case 5 => ThirdArrived(w)
    case 6 => NewestBegun(w)
    case _ => Overtaking(w)
  }

  lemma NextStage(k: nat, u: World, v: World)
    requires k < 7 && Stage(k, u) && v == JobNext(u, OvertakingRun()[k])
    ensures Stage(k + 1, v)
  {
    match k
    case 0 => RecordsInWorld(u, 0);
    case 1 => FirstFetch(u);
    case 2 => FirstConcludes(u);
    case 3 => SecondArrives(u);
    case 4 => ThirdArrives(u);
    case 5 => NewestReuses(u);
    case 6 => OlderTakesOver(u);
  }

  lemma {:induction false} Stages(k: nat)
    requires k <= 7
    ensures Stage(k, JobRun(SampleWorld(), OvertakingRun()[..k]))
  {
    var w, run := SampleWorld(), OvertakingRun();
    if k == 0 {
      assert run[..0] == [];
    } else {
      Stages(k - 1);
      RunStep(w, run, k - 1);
      NextStage(k - 1, JobRun(w, run[..k - 1]), JobRun(w, run[..k]));
    }
  }

  /** Reachable: the job of the newest delivery relies on a fetch that the older delivery has meanwhile superseded, and
      the lane's last fetch is the older one's, of another commit. */
  lemma OlderPullRequestOvertakes()
    ensures var w, run := SampleWorld(), OvertakingRun();
      var v := JobRun(w, run);
      && FreshWorld(w) && Timed(0, run) && Overtaking(v)
      && CommitOf(v.tables.deliveries, v.fetches[1]) != v.tables.deliveries[2].commit
  {
    var w, run := SampleWorld(), OvertakingRun();
    AllAtOnce(run);
    Stages(7);
    assert run[..7] == run;
    var v := JobRun(w, run);
    assert IsSample(v.tables.deliveries[1], 1) && IsSample(v.tables.deliveries[2], 2) && Commit(1)[0] != Commit(2)[0];
  }
}
