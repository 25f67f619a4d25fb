/** Which bindings a delivery is prepared for, on whose authority, and what preparation leaves alone. */
module PreparedFetches {
  import opened Sql
  import opened ProviderTables
  import opened DeliveryJobs
  import opened FetchOrder
  import opened JobRuns
  import opened PullRequestOrder

  // ----- What a delivery is due for

  /** An automatic binding of the delivery's connection and repository and, for a push, of its branch. */
  predicate Suits(row: Delivery, bound: Binding) {
    && bound.automatic && bound.connection == row.connection && row.repository == Some(bound.repository)
    && row.commit.Some?
    && (row.event == PullRequest || (row.event == Push && row.gitRef == Some("refs/heads/" + bound.branch)))
  }

  /** A later delivery got there first. */
  predicate PassedOver(w: World, d: nat, b: nat)
    requires d < |w.tables.deliveries| && b < |w.tables.bindings|
  {
    if w.tables.deliveries[d].event == Push
    then w.tables.bindings[b].lastDelivery.Some? && w.tables.bindings[b].lastDelivery.value > d
    else Overtaken(w, d, b)
  }

  predicate Wants(w: World, d: nat, b: nat)
    requires d < |w.tables.deliveries| && b < |w.tables.bindings|
  {
    Suits(w.tables.deliveries[d], w.tables.bindings[b]) && !PassedOver(w, d, b)
  }

  /** The connection lists the delivery's repository, or all. */
  predicate Lists(t: Tables, d: nat)
    requires d < |t.deliveries|
  {
    var row := t.deliveries[d];
    && row.repository.Some? && row.connection in t.connections
    && (t.connections[row.connection].allRepositories || row.repository in t.connections[row.connection].repositories)
  }

  /** The delivery's source may be fetched: its connection is active and lists the repository. */
  predicate MaySource(t: Tables, d: nat)
    requires d < |t.deliveries|
  {
    Lists(t, d) && t.connections[t.deliveries[d].connection].status == Active
  }

  /** A complete fetch of the delivery's commit. */
  predicate HasCommit(w: World, d: nat, f: nat)
    requires d < |w.tables.deliveries|
  {
    && f < |w.fetches| && w.fetches[f].state == Complete
    && CommitOf(w.tables.deliveries, w.fetches[f]) == w.tables.deliveries[d].commit
  }

  predicate IsOwn(f: Fetch, d: nat, b: nat) { f.binding == b && f.delivery == d }

  predicate HasOwn(fs: seq<Fetch>, d: nat, b: nat) {
    exists f :: 0 <= f < |fs| && IsOwn(fs[f], d, b)
  }

  lemma OwnIsUnique(w: World, d: nat, b: nat, f: nat, g: nat)
    requires InOrder(w) && f < |w.fetches| && g < |w.fetches| && IsOwn(w.fetches[f], d, b) && IsOwn(w.fetches[g], d, b)
    ensures f == g
  {
    assert f == g || PairFits(w.tables.deliveries, w.fetches[f], w.fetches[g]);
  }

  /** The last fetch for another delivery of the same pull request. */
  predicate IsLatest(ds: seq<Delivery>, fs: seq<Fetch>, g: nat, b: nat, d: nat) {
    && g < |fs| && SamePullRequest(ds, fs[g], b, d)
    && forall h :: 0 <= h < |fs| && SamePullRequest(ds, fs[h], b, d) ==> fs[h].delivery <= fs[g].delivery
  }

  /** A complete fetch of the commit that is the delivery's own or the latest of its pull request. */
  predicate IsPick(w: World, d: nat, b: nat, g: nat)
    requires d < |w.tables.deliveries| && g < |w.fetches|
  {
    && HasCommit(w, d, g)
    && (IsOwn(w.fetches[g], d, b) || IsLatest(w.tables.deliveries, w.fetches, g, b, d))
  }

  /** There is a complete fetch to be used as it is. */
  predicate Reusable(w: World, d: nat, b: nat)
    requires d < |w.tables.deliveries| && b < |w.tables.bindings|
  {
    if w.tables.deliveries[d].event == Push then
      var current := w.tables.bindings[b].currentFetch;
      current.Some? && HasCommit(w, d, current.value) && Lists(w.tables, d)
    else
      exists g :: 0 <= g < |w.fetches| && IsPick(w, d, b, g)
  }

  /** A fetch can be used as it is or started; a new one needs permission besides. */
  predicate Available(w: World, d: nat, b: nat, permitted: bool)
    requires d < |w.tables.deliveries| && b < |w.tables.bindings|
  {
    Reusable(w, d, b) || (MaySource(w.tables, d) && (permitted || HasOwn(w.fetches, d, b)))
  }

  // ----- One binding

  predicate SameTarget(a: Binding, b: Binding) {
    && a.project == b.project && a.connection == b.connection && a.repository == b.repository
    && a.branch == b.branch && a.automatic == b.automatic
  }

  /** What preparing delivery `d` for binding `b` may touch: that binding's notes, its fetches, and one new fetch. */
  ghost predicate Touches(w: World, v: World, d: nat, b: nat, permitted: bool)
    requires d < |w.tables.deliveries|
  {
    && v == w.(tables := w.tables.(bindings := v.tables.bindings), fetches := v.fetches)
    && TouchesBindings(w.tables.bindings, v.tables.bindings, b)
    && TouchesFetches(w, v.fetches, d, b, permitted)
  }

  ghost predicate TouchesBindings(bs: seq<Binding>, cs: seq<Binding>, b: nat) {
    && |cs| == |bs|
    && (forall x :: 0 <= x < |bs| ==> SameTarget(cs[x], bs[x]) && (x != b ==> cs[x] == bs[x]))
  }

  /** A fetch is made only where permitted, and made or started only from a connection that is active and lists the
      repository. */
  ghost predicate TouchesFetches(w: World, gs: seq<Fetch>, d: nat, b: nat, permitted: bool)
    requires d < |w.tables.deliveries|
  {
    && |w.fetches| <= |gs| <= |w.fetches| + 1
    && (forall f :: 0 <= f < |w.fetches| ==> TouchedFetch(w, gs[f], w.fetches[f], d, b))
    && (|gs| > |w.fetches| ==> IsOwn(gs[|w.fetches|], d, b) && permitted && MaySource(w.tables, d))
  }

  predicate TouchedFetch(w: World, now: Fetch, before: Fetch, d: nat, b: nat)
    requires d < |w.tables.deliveries|
  {
    && now.binding == before.binding && now.delivery == before.delivery
    && (before.binding != b ==> now == before)
    && (now.state != before.state || now.attempts != before.attempts ==>
          && before.delivery == d && MaySource(w.tables, d)
          && now.state == Fetching && now.attempts == before.attempts + 1)
  }

  /** The fetch a preparation settled on is one of the binding, of the delivery's commit. */
  predicate Serves(w: World, d: nat, b: nat, f: nat)
    requires d < |w.tables.deliveries|
  {
    && f < |w.fetches| && w.fetches[f].binding == b
    && CommitOf(w.tables.deliveries, w.fetches[f]) == w.tables.deliveries[d].commit
    && (w.fetches[f].state == Complete || (w.fetches[f].state == Fetching && w.fetches[f].delivery == d))
  }

  /** A push is noted by its binding, and its fetch is the binding's current one. */
  predicate IsNoted(w: World, d: nat, b: nat, f: nat)
    requires d < |w.tables.deliveries|
  {
    w.tables.deliveries[d].event == Push ==>
      && b < |w.tables.bindings|
      && w.tables.bindings[b].lastDelivery == Some(d) && w.tables.bindings[b].currentFetch == Some(f)
  }

  lemma AuthorityAlike(t: Tables, d: nat)
    requires d < |t.deliveries|
    ensures StillAuthorized(t, d) <==> MaySource(t, d)
  {
  }

  lemma UpdateAlike(t: Tables, d: nat, b: nat)
    requires d < |t.deliveries| && b < |t.bindings| && Suits(t.deliveries[d], t.bindings[b])
    ensures MayUpdate(t, t.bindings[b]) <==> Lists(t, d)
  {
  }

  lemma StartTouches(w: World, v: World, d: nat, b: nat, permitted: bool, f: nat)
    requires d < |w.tables.deliveries| && Touches(w, v, d, b, permitted)
    requires f < |v.fetches| && IsOwn(v.fetches[f], d, b)
    requires f < |w.fetches| ==>
      v.fetches[f].state == w.fetches[f].state && v.fetches[f].attempts == w.fetches[f].attempts
    ensures var r := Start(v, f);
      && Touches(w, r.world, d, b, permitted)
      && (r.result.Use? <==> v.fetches[f].state == Complete || MaySource(w.tables, d))
      && (r.result.Use? ==> r.result.fetch == f && Serves(r.world, d, b, f))
  {
    AuthorityAlike(v.tables, d);
  }

  lemma PushSkipsWhere(w: World, d: nat, b: nat, permitted: bool)
    requires d < |w.tables.deliveries| && b < |w.tables.bindings|
    requires var last := w.tables.bindings[b].lastDelivery;
      last.Some? ==> (Newer(w.tables.deliveries, last.value, d) <==> last.value > d)
    ensures var r, row, bound := PreparePush(w, d, b, permitted), w.tables.deliveries[d], w.tables.bindings[b];
      && (r.result == Skipped <==>
            || (bound.lastDelivery.Some? && bound.lastDelivery.value > d)
            || row.gitRef != Some("refs/heads/" + bound.branch))
      && (r.result == Skipped ==> r.world == w)
  {
  }

  /** The two tests a push fails first. */
  lemma PushSkips(w: World, d: nat, b: nat, permitted: bool)
    requires InOrder(w) && Chronological(w.tables.deliveries)
    requires d < |w.tables.deliveries| && b < |w.tables.bindings|
    ensures var r, row, bound := PreparePush(w, d, b, permitted), w.tables.deliveries[d], w.tables.bindings[b];
      && (r.result == Skipped <==>
            || (bound.lastDelivery.Some? && bound.lastDelivery.value > d)
            || row.gitRef != Some("refs/heads/" + bound.branch))
      && (r.result == Skipped ==> r.world == w)
  {
    assert BindingFits(w.tables.deliveries, w.fetches, b, w.tables.bindings[b]);
    var last := w.tables.bindings[b].lastDelivery;
    if last.Some? { NewerIsLater(w.tables.deliveries, last.value, d); }
    PushSkipsWhere(w, d, b, permitted);
  }

  /** Taking up the delivery's own fetch and superseding one of the binding. */
  lemma TakesUp(w: World, d: nat, b: nat, permitted: bool, previous: Option<nat>)
    requires d < |w.tables.deliveries| && TakeUp(w, d, b, permitted).Some?
    requires previous.Some? ==> previous.value < |w.fetches| && w.fetches[previous.value].binding == b
    ensures var taken := TakeUp(w, d, b, permitted).value;
      var gs := Supersede(taken.fetches, previous, taken.fetch);
      && TouchesFetches(w, gs, d, b, permitted) && taken.fetch < |gs| && IsOwn(gs[taken.fetch], d, b)
      && (taken.fetch < |w.fetches| ==>
            && gs[taken.fetch].state == w.fetches[taken.fetch].state
            && gs[taken.fetch].attempts == w.fetches[taken.fetch].attempts)
      && (taken.fetch == |w.fetches| ==> gs[taken.fetch].state == Authorized)
  {
    AuthorityAlike(w.tables, d);
  }

  lemma PushTakesUp(w: World, d: nat, b: nat, permitted: bool)
    requires InOrder(w) && d < |w.tables.deliveries| && b < |w.tables.bindings|
    requires w.tables.deliveries[d].event == Push && TakeUp(w, d, b, permitted).Some?
    ensures var taken := TakeUp(w, d, b, permitted).value;
      var v := MakeCurrent(w.(fetches := taken.fetches), d, b, taken.fetch);
      && Touches(w, v, d, b, permitted) && taken.fetch < |v.fetches| && IsOwn(v.fetches[taken.fetch], d, b)
      && (taken.fetch < |w.fetches| ==>
            && v.fetches[taken.fetch].state == w.fetches[taken.fetch].state
            && v.fetches[taken.fetch].attempts == w.fetches[taken.fetch].attempts)
      && (taken.fetch == |w.fetches| ==> v.fetches[taken.fetch].state == Authorized)
  {
    assert BindingFits(w.tables.deliveries, w.fetches, b, w.tables.bindings[b]);
    var taken, current := TakeUp(w, d, b, permitted).value, w.tables.bindings[b].currentFetch;
    if current == Some(taken.fetch) {
      TakesUp(w, d, b, permitted, None);
    } else {
      TakesUp(w, d, b, permitted, current);
    }
  }

  /** Its own fetch is the binding's current one, so if complete it could have been used as it is. */
  lemma OwnPushIsCurrent(w: World, d: nat, b: nat, f: nat)
    requires InOrder(w) && d < |w.tables.deliveries| && b < |w.tables.bindings| && !PassedOver(w, d, b)
    requires w.tables.deliveries[d].event == Push && f < |w.fetches| && IsOwn(w.fetches[f], d, b)
    ensures w.tables.bindings[b].currentFetch == Some(f)
    ensures w.fetches[f].state == Complete ==> AlreadyCurrent(w, d, b)
  {
    PushFetchIsCurrent(w.tables.deliveries, w.fetches, w.tables.bindings, d, b);
    OwnIsUnique(w, d, b, f, FetchFor(w.fetches, b, d).value);
  }

  lemma PushDoes(w: World, d: nat, b: nat, permitted: bool)
    requires InOrder(w) && Chronological(w.tables.deliveries)
    requires d < |w.tables.deliveries| && b < |w.tables.bindings| && w.tables.deliveries[d].event == Push
    requires Wants(w, d, b)
    ensures var r := PreparePush(w, d, b, permitted);
      && (r.result.Use? <==> Available(w, d, b, permitted)) && r.result != Skipped
      && Touches(w, r.world, d, b, permitted)
      && (r.result.Use? ==> Serves(r.world, d, b, r.result.fetch))
  {
    PushSkips(w, d, b, permitted);
    UpdateAlike(w.tables, d, b);
    AuthorityAlike(w.tables, d);
    assert BindingFits(w.tables.deliveries, w.fetches, b, w.tables.bindings[b]);
    if AlreadyCurrent(w, d, b) {
    } else {
      var taken := TakeUp(w, d, b, permitted);
      var own := FetchFor(w.fetches, b, d);
      if own.Some? { OwnPushIsCurrent(w, d, b, own.value); }
      assert own.Some? <==> HasOwn(w.fetches, d, b);
      if taken.Some? {
        PushTakesUp(w, d, b, permitted);
        var v := MakeCurrent(w.(fetches := taken.value.fetches), d, b, taken.value.fetch);
        StartTouches(w, v, d, b, permitted, taken.value.fetch);
      }
    }
  }

  lemma PushIsNoted(w: World, d: nat, b: nat, permitted: bool)
    requires InOrder(w) && d < |w.tables.deliveries| && b < |w.tables.bindings|
    requires w.tables.deliveries[d].event == Push && !PassedOver(w, d, b)
    ensures var r := PreparePush(w, d, b, permitted); r.result.Use? ==> IsNoted(r.world, d, b, r.result.fetch)
  {
    var bound, taken := w.tables.bindings[b], TakeUp(w, d, b, permitted);
    assert BindingFits(w.tables.deliveries, w.fetches, b, bound);
    if !AlreadyCurrent(w, d, b) && taken.Some? {
      assert bound.currentFetch == Some(taken.value.fetch) ==> bound.lastDelivery == Some(d);
      var v := MakeCurrent(w.(fetches := taken.value.fetches), d, b, taken.value.fetch);
      assert IsNoted(v, d, b, taken.value.fetch);
    }
  }

  // ----- Pull requests

  lemma LatestAlike(w: World, d: nat, b: nat, g: nat)
    requires InOrder(w) && Chronological(w.tables.deliveries) && g < |w.fetches|
    ensures LatestPrior(w.tables.deliveries, w.fetches, b, d) == Some(g) <==>
      IsLatest(w.tables.deliveries, w.fetches, g, b, d)
  {
    var ds, fs := w.tables.deliveries, w.fetches;
    var latest := LatestPrior(ds, fs, b, d);
    forall h | 0 <= h < |fs| && SamePullRequest(ds, fs[h], b, d) && latest.Some?
      ensures fs[h].delivery <= fs[latest.value].delivery
    {
      NewerIsLater(ds, fs[h].delivery, fs[latest.value].delivery);
    }
    if IsLatest(ds, fs, g, b, d) {
      assert latest.value != g ==> PairFits(ds, fs[g], fs[latest.value]);
    }
  }

  /** The three ways a pull request goes. */
  lemma PullRequestGoes(w: World, d: nat, b: nat, permitted: bool)
    requires InOrder(w) && Chronological(w.tables.deliveries)
    requires d < |w.tables.deliveries| && b < |w.tables.bindings| && !Overtaken(w, d, b)
    ensures var r, latest := PreparePullRequest(w, d, b, permitted), LatestPrior(w.tables.deliveries, w.fetches, b, d);
      var taken := TakeUp(w, d, b, permitted);
      r == if latest.Some? && HasCommit(w, d, latest.value) then Preparation(w, Use(latest.value))
           else if taken == None then Preparation(w, Refused)
           else Start(w.(fetches := Supersede(taken.value.fetches, latest, taken.value.fetch)), taken.value.fetch)
  {
    SkippedIff(w, d, b, permitted);
  }

  lemma PullRequestStarts(w: World, d: nat, b: nat, permitted: bool, previous: Option<nat>)
    requires d < |w.tables.deliveries| && b < |w.tables.bindings|
    requires previous.Some? ==> previous.value < |w.fetches| && w.fetches[previous.value].binding == b
    requires TakeUp(w, d, b, permitted).Some?
    ensures var taken, own := TakeUp(w, d, b, permitted).value, FetchFor(w.fetches, b, d);
      var r := Start(w.(fetches := Supersede(taken.fetches, previous, taken.fetch)), taken.fetch);
      && Touches(w, r.world, d, b, permitted) && r.result != Skipped
      && (r.result.Use? <==> (own.Some? && w.fetches[own.value].state == Complete) || MaySource(w.tables, d))
      && (r.result.Use? ==> Serves(r.world, d, b, r.result.fetch))
  {
    var taken := TakeUp(w, d, b, permitted).value;
    TakesUp(w, d, b, permitted, previous);
    StartTouches(w, w.(fetches := Supersede(taken.fetches, previous, taken.fetch)), d, b, permitted, taken.fetch);
  }

  lemma PullRequestDoes(w: World, d: nat, b: nat, permitted: bool)
    requires InOrder(w) && Chronological(w.tables.deliveries)
    requires d < |w.tables.deliveries| && b < |w.tables.bindings| && w.tables.deliveries[d].event == PullRequest
    requires Wants(w, d, b)
    ensures var r := PreparePullRequest(w, d, b, permitted);
      && (r.result.Use? <==> Available(w, d, b, permitted)) && r.result != Skipped
      && Touches(w, r.world, d, b, permitted)
      && (r.result.Use? ==> Serves(r.world, d, b, r.result.fetch))
  {
    PullRequestGoes(w, d, b, permitted);
    var latest := LatestPrior(w.tables.deliveries, w.fetches, b, d);
    if latest.Some? && HasCommit(w, d, latest.value) {
      LatestAlike(w, d, b, latest.value);
      assert IsPick(w, d, b, latest.value);
    } else {
      PullRequestReuse(w, d, b);
      AuthorityAlike(w.tables, d);
      assert FetchFor(w.fetches, b, d).Some? <==> HasOwn(w.fetches, d, b);
      if TakeUp(w, d, b, permitted).Some? { PullRequestStarts(w, d, b, permitted, latest); }
    }
  }

  /** With nothing to take over, only its own fetch can be used as it is. */
  lemma PullRequestReuse(w: World, d: nat, b: nat)
    requires InOrder(w) && Chronological(w.tables.deliveries)
    requires d < |w.tables.deliveries| && b < |w.tables.bindings| && w.tables.deliveries[d].event == PullRequest
    requires var latest := LatestPrior(w.tables.deliveries, w.fetches, b, d);
      latest == None || !HasCommit(w, d, latest.value)
    ensures var own := FetchFor(w.fetches, b, d);
      Reusable(w, d, b) <==> own.Some? && w.fetches[own.value].state == Complete
  {
    var own := FetchFor(w.fetches, b, d);
    if own.Some? && w.fetches[own.value].state == Complete { assert IsPick(w, d, b, own.value); }
    if Reusable(w, d, b) {
      var g :| 0 <= g < |w.fetches| && IsPick(w, d, b, g);
      LatestAlike(w, d, b, g);
      OwnIsUnique(w, d, b, g, own.value);
    }
  }

  // ----- Any binding

  /** A delivery is prepared for exactly the bindings that want it, and refused there exactly when nothing is
      available. */
  lemma PrepareBindingDoes(w: World, d: nat, b: nat, permitted: bool)
    requires InOrder(w) && Chronological(w.tables.deliveries)
    requires d < |w.tables.deliveries| && b < |w.tables.bindings|
    ensures var r := PrepareBinding(w, d, b, permitted);
      && (r.result == Skipped <==> !Wants(w, d, b)) && (r.result == Skipped ==> r.world == w)
      && (r.result.Use? <==> Wants(w, d, b) && Available(w, d, b, permitted))
      && Touches(w, r.world, d, b, permitted)
      && (r.result.Use? ==> Serves(r.world, d, b, r.result.fetch) && IsNoted(r.world, d, b, r.result.fetch))
  {
    var row, bound := w.tables.deliveries[d], w.tables.bindings[b];
    if Wants(w, d, b) {
      if row.event == Push {
        PushDoes(w, d, b, permitted);
        PushIsNoted(w, d, b, permitted);
      } else {
        PullRequestDoes(w, d, b, permitted);
      }
    } else if Concerns(w.tables, d, b) {
      if row.event == Push { PushSkips(w, d, b, permitted); } else { SkippedIff(w, d, b, permitted); }
    }
  }

  // ----- All bindings

  lemma OvertakenAlike(w: World, v: World, d: nat, b: nat, permitted: bool, x: nat)
    requires d < |w.tables.deliveries| && Touches(w, v, d, b, permitted) && x != b
    ensures Overtaken(v, d, x) <==> Overtaken(w, d, x)
  {
    var ds := w.tables.deliveries;
    if g :| 0 <= g < |w.fetches| && LaterFetch(ds, w.fetches[g], x, d) {
      assert TouchedFetch(w, v.fetches[g], w.fetches[g], d, b) && LaterFetch(ds, v.fetches[g], x, d);
    }
    if g :| 0 <= g < |v.fetches| && LaterFetch(ds, v.fetches[g], x, d) {
      assert g < |w.fetches| && TouchedFetch(w, v.fetches[g], w.fetches[g], d, b) && LaterFetch(ds, w.fetches[g], x, d);
    }
  }

  lemma OwnAlike(w: World, v: World, d: nat, b: nat, permitted: bool, x: nat)
    requires d < |w.tables.deliveries| && Touches(w, v, d, b, permitted) && x != b
    ensures HasOwn(v.fetches, d, x) <==> HasOwn(w.fetches, d, x)
  {
    if f :| 0 <= f < |w.fetches| && IsOwn(w.fetches[f], d, x) {
      assert TouchedFetch(w, v.fetches[f], w.fetches[f], d, b) && IsOwn(v.fetches[f], d, x);
    }
    if f :| 0 <= f < |v.fetches| && IsOwn(v.fetches[f], d, x) {
      assert f < |w.fetches| && TouchedFetch(w, v.fetches[f], w.fetches[f], d, b) && IsOwn(w.fetches[f], d, x);
    }
  }

  /** A fetch of another binding is where and what it was. */
  lemma FetchAlike(w: World, v: World, d: nat, b: nat, permitted: bool, g: nat)
    requires d < |w.tables.deliveries| && Touches(w, v, d, b, permitted) && g < |v.fetches| && v.fetches[g].binding != b
    ensures g < |w.fetches| && v.fetches[g] == w.fetches[g]
    ensures HasCommit(v, d, g) <==> HasCommit(w, d, g)
    ensures IsLatest(v.tables.deliveries, v.fetches, g, v.fetches[g].binding, d) <==>
      IsLatest(w.tables.deliveries, w.fetches, g, w.fetches[g].binding, d)
  {
    assert g < |w.fetches| && TouchedFetch(w, v.fetches[g], w.fetches[g], d, b);
    var ds, x := w.tables.deliveries, w.fetches[g].binding;
    forall h | 0 <= h < |v.fetches|
      ensures SamePullRequest(ds, v.fetches[h], x, d) <==>
        h < |w.fetches| && SamePullRequest(ds, w.fetches[h], x, d)
    {
      if h < |w.fetches| { assert TouchedFetch(w, v.fetches[h], w.fetches[h], d, b); }
    }
  }

  lemma ReusableAlike(w: World, v: World, d: nat, b: nat, permitted: bool, x: nat)
    requires InOrder(w) && d < |w.tables.deliveries| && Touches(w, v, d, b, permitted)
    requires x != b && x < |w.tables.bindings|
    ensures Reusable(v, d, x) <==> Reusable(w, d, x)
  {
    var ds := w.tables.deliveries;
    assert v.tables.bindings[x] == w.tables.bindings[x] && BindingFits(ds, w.fetches, x, w.tables.bindings[x]);
    if ds[d].event == Push {
      var current := w.tables.bindings[x].currentFetch;
      if current.Some? {
        assert TouchedFetch(w, v.fetches[current.value], w.fetches[current.value], d, b);
        FetchAlike(w, v, d, b, permitted, current.value);
      }
    } else {
      if g :| 0 <= g < |w.fetches| && IsPick(w, d, x, g) {
        assert TouchedFetch(w, v.fetches[g], w.fetches[g], d, b);
        FetchAlike(w, v, d, b, permitted, g);
        assert IsPick(v, d, x, g);
      }
      if g :| 0 <= g < |v.fetches| && IsPick(v, d, x, g) {
        FetchAlike(w, v, d, b, permitted, g);
        assert IsPick(w, d, x, g);
      }
    }
  }

  /** Preparing one binding decides nothing for another. */
  lemma OthersAlike(w: World, v: World, d: nat, b: nat, permitted: bool, x: nat, allowed: bool)
    requires InOrder(w) && d < |w.tables.deliveries| && Touches(w, v, d, b, permitted)
    requires x != b && x < |w.tables.bindings|
    ensures Wants(v, d, x) <==> Wants(w, d, x)
    ensures Available(v, d, x, allowed) <==> Available(w, d, x, allowed)
  {
    assert v.tables.bindings[x] == w.tables.bindings[x];
    OvertakenAlike(w, v, d, b, permitted, x);
    ReusableAlike(w, v, d, b, permitted, x);
    OwnAlike(w, v, d, b, permitted, x);
  }

  ghost predicate AllAvailable(w: World, d: nat, b: nat, permitted: set<nat>)
    requires d < |w.tables.deliveries|
  {
    forall x :: b <= x < |w.tables.bindings| && Wants(w, d, x) ==> Available(w, d, x, x in permitted)
  }

  lemma RestAvailable(w: World, v: World, d: nat, b: nat, permitted: set<nat>)
    requires InOrder(w) && d < |w.tables.deliveries| && Touches(w, v, d, b, b in permitted)
    ensures AllAvailable(v, d, b + 1, permitted) <==> AllAvailable(w, d, b + 1, permitted)
  {
    forall x | b + 1 <= x < |w.tables.bindings|
      ensures Wants(v, d, x) <==> Wants(w, d, x)
      ensures Available(v, d, x, x in permitted) <==> Available(w, d, x, x in permitted)
    {
      OthersAlike(w, v, d, b, b in permitted, x, x in permitted);
    }
  }

  lemma FirstAvailable(w: World, d: nat, b: nat, permitted: set<nat>)
    requires d < |w.tables.deliveries| && b < |w.tables.bindings|
    ensures AllAvailable(w, d, b, permitted) <==>
      AllAvailable(w, d, b + 1, permitted) && (Wants(w, d, b) ==> Available(w, d, b, b in permitted))
  {
  }

  /** Preparation goes through exactly when every binding that wants the delivery has a fetch available. */
  lemma {:induction false} PreparedIff(w: World, d: nat, b: nat, permitted: set<nat>)
    requires InOrder(w) && Chronological(w.tables.deliveries)
    requires d < |w.tables.deliveries| && Target(w.tables.deliveries[d])
    ensures PrepareFrom(w, d, b, permitted).items.Some? <==> AllAvailable(w, d, b, permitted)
    decreases |w.tables.bindings| - b
  {
    if b < |w.tables.bindings| {
      var p := PrepareBinding(w, d, b, b in permitted);
      PrepareBindingDoes(w, d, b, b in permitted);
      FirstAvailable(w, d, b, permitted);
      if p.result != Refused {
        PrepareBindingFits(w, d, b, b in permitted);
        PreparedIff(p.world, d, b + 1, permitted);
        RestAvailable(w, p.world, d, b, permitted);
      }
    }
  }

  // ----- What the whole preparation changes and yields

  /** What preparing the bindings from `b` on changes: only bindings that want the delivery and their fetches, and new
      fetches for the delivery at such bindings, where permitted and from a source that may be used. */
  ghost predicate Spreads(w: World, v: World, d: nat, b: nat, permitted: set<nat>)
    requires d < |w.tables.deliveries|
  {
    && v == w.(tables := w.tables.(bindings := v.tables.bindings), fetches := v.fetches)
    && SpreadsOver(w, v, d, b, permitted)
  }

  ghost predicate SpreadsOver(w: World, v: World, d: nat, b: nat, permitted: set<nat>)
    requires d < |w.tables.deliveries|
  {
    && |v.tables.bindings| == |w.tables.bindings| && |w.fetches| <= |v.fetches|
    && (forall x :: 0 <= x < |w.tables.bindings| ==> KeptBinding(w, v, d, b, x))
    && (forall f :: 0 <= f < |w.fetches| ==> KeptFetch(w, v, d, b, f))
    && (forall f :: |w.fetches| <= f < |v.fetches| ==> NewFetch(w, v.fetches[f], d, b, permitted))
  }

  predicate Reached(w: World, d: nat, b: nat, x: nat)
    requires d < |w.tables.deliveries|
  {
    b <= x < |w.tables.bindings| && Wants(w, d, x)
  }

  predicate KeptBinding(w: World, v: World, d: nat, b: nat, x: nat)
    requires d < |w.tables.deliveries| && x < |w.tables.bindings| == |v.tables.bindings|
  {
    && SameTarget(v.tables.bindings[x], w.tables.bindings[x])
    && (!Reached(w, d, b, x) ==> v.tables.bindings[x] == w.tables.bindings[x])
  }

  predicate KeptFetch(w: World, v: World, d: nat, b: nat, f: nat)
    requires d < |w.tables.deliveries| && f < |w.fetches| <= |v.fetches|
  {
    && v.fetches[f].binding == w.fetches[f].binding && v.fetches[f].delivery == w.fetches[f].delivery
    && (!Reached(w, d, b, w.fetches[f].binding) ==> v.fetches[f] == w.fetches[f])
    && (v.fetches[f].state != w.fetches[f].state || v.fetches[f].attempts != w.fetches[f].attempts ==>
          && w.fetches[f].delivery == d && MaySource(w.tables, d)
          && v.fetches[f].state == Fetching && v.fetches[f].attempts == w.fetches[f].attempts + 1)
  }

  predicate NewFetch(w: World, f: Fetch, d: nat, b: nat, permitted: set<nat>)
    requires d < |w.tables.deliveries|
  {
    f.delivery == d && Reached(w, d, b, f.binding) && f.binding in permitted && MaySource(w.tables, d)
  }

  lemma ReachedAlike(w: World, u: World, d: nat, b: nat, permitted: bool, x: nat)
    requires InOrder(w) && d < |w.tables.deliveries| && Touches(w, u, d, b, permitted)
    ensures Reached(u, d, b + 1, x) ==> Reached(w, d, b, x) && x != b
  {
    if b + 1 <= x < |w.tables.bindings| { OthersAlike(w, u, d, b, permitted, x, false); }
  }

  lemma BindingThrough(w: World, u: World, v: World, d: nat, b: nat, permitted: set<nat>, x: nat)
    requires InOrder(w) && d < |w.tables.deliveries| && b < |w.tables.bindings| && Touches(w, u, d, b, b in permitted)
    requires Wants(w, d, b) || u == w
    requires Spreads(u, v, d, b + 1, permitted) && x < |w.tables.bindings|
    ensures KeptBinding(w, v, d, b, x)
  {
    ReachedAlike(w, u, d, b, b in permitted, x);
    assert KeptBinding(u, v, d, b + 1, x);
  }

  lemma FetchThrough(w: World, u: World, v: World, d: nat, b: nat, permitted: set<nat>, f: nat)
    requires InOrder(w) && d < |w.tables.deliveries| && b < |w.tables.bindings| && Touches(w, u, d, b, b in permitted)
    requires Wants(w, d, b) || u == w
    requires Spreads(u, v, d, b + 1, permitted) && f < |w.fetches|
    ensures KeptFetch(w, v, d, b, f)
  {
    ReachedAlike(w, u, d, b, b in permitted, w.fetches[f].binding);
    assert TouchedFetch(w, u.fetches[f], w.fetches[f], d, b) && KeptFetch(u, v, d, b + 1, f);
  }

  lemma NewThrough(w: World, u: World, v: World, d: nat, b: nat, permitted: set<nat>, f: nat)
    requires InOrder(w) && d < |w.tables.deliveries| && b < |w.tables.bindings| && Touches(w, u, d, b, b in permitted)
    requires Wants(w, d, b) || u == w
    requires Spreads(u, v, d, b + 1, permitted) && |w.fetches| <= f < |v.fetches|
    ensures NewFetch(w, v.fetches[f], d, b, permitted)
  {
    ReachedAlike(w, u, d, b, b in permitted, v.fetches[f].binding);
    if f < |u.fetches| {
      assert KeptFetch(u, v, d, b + 1, f);
    } else {
      assert NewFetch(u, v.fetches[f], d, b + 1, permitted);
    }
  }

  /** Preparation changes nothing else. */
  lemma {:induction false} PreparationSpreads(w: World, d: nat, b: nat, permitted: set<nat>)
    requires InOrder(w) && Chronological(w.tables.deliveries)
    requires d < |w.tables.deliveries| && Target(w.tables.deliveries[d])
    ensures Spreads(w, PrepareFrom(w, d, b, permitted).world, d, b, permitted)
    decreases |w.tables.bindings| - b
  {
    if b < |w.tables.bindings| {
      var p := PrepareBinding(w, d, b, b in permitted);
      PrepareBindingDoes(w, d, b, b in permitted);
      PrepareBindingFits(w, d, b, b in permitted);
      if p.result == Refused {
        StaysPut(p.world, d, b + 1, permitted);
      } else {
        PreparationSpreads(p.world, d, b + 1, permitted);
      }
      var v := PrepareFrom(w, d, b, permitted).world;
      assert Spreads(p.world, v, d, b + 1, permitted);
      forall x | 0 <= x < |w.tables.bindings| ensures KeptBinding(w, v, d, b, x) {
        BindingThrough(w, p.world, v, d, b, permitted, x);
      }
      forall f | 0 <= f < |w.fetches| ensures KeptFetch(w, v, d, b, f) {
        FetchThrough(w, p.world, v, d, b, permitted, f);
      }
      forall f | |w.fetches| <= f < |v.fetches| ensures NewFetch(w, v.fetches[f], d, b, permitted) {
        NewThrough(w, p.world, v, d, b, permitted, f);
      }
    } else {
      StaysPut(w, d, b, permitted);
    }
  }

  lemma StaysPut(w: World, d: nat, b: nat, permitted: set<nat>)
    requires d < |w.tables.deliveries|
    ensures Spreads(w, w, d, b, permitted)
  {
  }

  predicate HasItem(fs: seq<Fetch>, items: seq<Item>, x: nat) {
    exists k :: 0 <= k < |items| && items[k].fetch < |fs| && fs[items[k].fetch].binding == x
  }

  /** An item is a fetch of the delivery's commit for a binding that wants the delivery, and is skipped if complete. A
      push is noted by its binding. */
  predicate GoodItem(w: World, v: World, item: Item, d: nat, b: nat)
    requires d < |w.tables.deliveries| == |v.tables.deliveries|
  {
    && item.fetch < |v.fetches| && Serves(v, d, v.fetches[item.fetch].binding, item.fetch)
    && IsNoted(v, d, v.fetches[item.fetch].binding, item.fetch)
    && Reached(w, d, b, v.fetches[item.fetch].binding)
    && (item.skip <==> v.fetches[item.fetch].state == Complete)
  }

  /** The items are fetches of the delivery's commit, for exactly the bindings that want the delivery. */
  ghost predicate Yields(w: World, v: World, items: seq<Item>, d: nat, b: nat)
    requires d < |w.tables.deliveries| == |v.tables.deliveries|
  {
    && (forall k :: 0 <= k < |items| ==> GoodItem(w, v, items[k], d, b))
    && (forall x :: Reached(w, d, b, x) ==> HasItem(v.fetches, items, x))
  }

  lemma ReachedSplits(w: World, u: World, d: nat, b: nat, permitted: bool, x: nat)
    requires InOrder(w) && d < |w.tables.deliveries| && b < |w.tables.bindings| && Touches(w, u, d, b, permitted)
    ensures Reached(w, d, b, x) <==> (x == b && Wants(w, d, b)) || Reached(u, d, b + 1, x)
  {
    if b + 1 <= x < |w.tables.bindings| { OthersAlike(w, u, d, b, permitted, x, false); }
  }

  lemma FirstIsGood(w: World, u: World, v: World, d: nat, b: nat, permitted: set<nat>, item: Item)
    requires InOrder(w) && d < |w.tables.deliveries| && b < |w.tables.bindings| && Wants(w, d, b)
    requires Touches(w, u, d, b, b in permitted) && Spreads(u, v, d, b + 1, permitted)
    requires Serves(u, d, b, item.fetch) && (item.skip <==> u.fetches[item.fetch].state == Complete)
    requires IsNoted(u, d, b, item.fetch)
    ensures GoodItem(w, v, item, d, b) && v.fetches[item.fetch].binding == b
  {
    assert KeptFetch(u, v, d, b + 1, item.fetch) && v.fetches[item.fetch] == u.fetches[item.fetch];
    assert KeptBinding(u, v, d, b + 1, b) && v.tables.bindings[b] == u.tables.bindings[b];
  }

  lemma RestIsGood(w: World, u: World, v: World, d: nat, b: nat, permitted: bool, item: Item)
    requires InOrder(w) && d < |w.tables.deliveries| && b < |w.tables.bindings| && Touches(w, u, d, b, permitted)
    requires |v.tables.deliveries| == |w.tables.deliveries| && GoodItem(u, v, item, d, b + 1)
    ensures GoodItem(w, v, item, d, b)
  {
    ReachedSplits(w, u, d, b, permitted, v.fetches[item.fetch].binding);
  }

  lemma ItemsCons(fs: seq<Fetch>, item: Item, rest: seq<Item>, x: nat)
    ensures HasItem(fs, [item] + rest, x) <==>
      (item.fetch < |fs| && fs[item.fetch].binding == x) || HasItem(fs, rest, x)
  {
    var items := [item] + rest;
    if item.fetch < |fs| && fs[item.fetch].binding == x { assert items[0] == item; }
    if k :| 0 <= k < |rest| && rest[k].fetch < |fs| && fs[rest[k].fetch].binding == x {
      assert items[k + 1] == rest[k];
    }
  }

  lemma FirstYields(w: World, u: World, v: World, d: nat, b: nat, permitted: set<nat>, item: Item, rest: seq<Item>)
    requires InOrder(w) && d < |w.tables.deliveries| && b < |w.tables.bindings| && Wants(w, d, b)
    requires Touches(w, u, d, b, b in permitted) && Spreads(u, v, d, b + 1, permitted)
    requires Serves(u, d, b, item.fetch) && (item.skip <==> u.fetches[item.fetch].state == Complete)
    requires IsNoted(u, d, b, item.fetch)
    requires Yields(u, v, rest, d, b + 1)
    ensures Yields(w, v, [item] + rest, d, b)
  {
    var items := [item] + rest;
    FirstIsGood(w, u, v, d, b, permitted, item);
    forall k | 0 <= k < |items| ensures GoodItem(w, v, items[k], d, b) {
      if k > 0 {
        assert items[k] == rest[k - 1];
        RestIsGood(w, u, v, d, b, b in permitted, rest[k - 1]);
      }
    }
    forall x | Reached(w, d, b, x) ensures HasItem(v.fetches, items, x) {
      ReachedSplits(w, u, d, b, b in permitted, x);
      ItemsCons(v.fetches, item, rest, x);
    }
  }

  lemma SkippedYields(w: World, v: World, d: nat, b: nat, rest: seq<Item>)
    requires d < |w.tables.deliveries| == |v.tables.deliveries| && b < |w.tables.bindings| && !Wants(w, d, b)
    requires Yields(w, v, rest, d, b + 1)
    ensures Yields(w, v, rest, d, b)
  {
    forall k | 0 <= k < |rest| ensures GoodItem(w, v, rest[k], d, b) { assert GoodItem(w, v, rest[k], d, b + 1); }
    forall x | Reached(w, d, b, x) ensures HasItem(v.fetches, rest, x) { assert Reached(w, d, b + 1, x); }
  }

  /** A preparation that goes through yields exactly what the delivery is wanted for. */
  lemma {:induction false} PreparationYields(w: World, d: nat, b: nat, permitted: set<nat>)
    requires InOrder(w) && Chronological(w.tables.deliveries)
    requires d < |w.tables.deliveries| && Target(w.tables.deliveries[d])
    ensures var r := PrepareFrom(w, d, b, permitted); r.items.Some? ==> Yields(w, r.world, r.items.value, d, b)
    decreases |w.tables.bindings| - b
  {
    if b < |w.tables.bindings| {
      var p := PrepareBinding(w, d, b, b in permitted);
      PrepareBindingDoes(w, d, b, b in permitted);
      if p.result != Refused {
        PrepareBindingFits(w, d, b, b in permitted);
        PreparationYields(p.world, d, b + 1, permitted);
        PreparationSpreads(p.world, d, b + 1, permitted);
        var rest := PrepareFrom(p.world, d, b + 1, permitted);
        if rest.items.Some? {
          if p.result.Use? {
            var item := Item(p.result.fetch, p.world.fetches[p.result.fetch].state == Complete);
            FirstYields(w, p.world, rest.world, d, b, permitted, item, rest.items.value);
          } else {
            SkippedYields(w, rest.world, d, b, rest.items.value);
          }
        }
      }
    }
  }
}
