/** Which source fetch counts: what preparation keeps about the order of fetches. */
module FetchOrder {
  import opened Sql
  import opened ProviderTables
  import opened DeliveryJobs

  /** Fetches compete in lanes: the pushes of one binding, or the states of one of its pull requests.
      `a` precedes `b` when they share a lane and `b` is for a later delivery. */
  predicate Precedes(ds: seq<Delivery>, a: Fetch, b: Fetch) {
    && a.delivery < b.delivery < |ds|
    && a.binding == b.binding && ds[a.delivery].event == ds[b.delivery].event
    && (ds[a.delivery].event == PullRequest ==> ds[a.delivery].pullRequest == ds[b.delivery].pullRequest)
  }

  /** Pushes and pull requests with a commit. */
  predicate Target(d: Delivery) {
    d.commit.Some? && (d.event == Push || (d.event == PullRequest && d.pullRequest.Some?))
  }

  /** A superseded fetch precedes the one it names; a push is no later than its binding's current fetch. */
  predicate FetchFits(ds: seq<Delivery>, fs: seq<Fetch>, bs: seq<Binding>, x: Fetch) {
    && x.binding < |bs| && x.delivery < |ds| && Target(ds[x.delivery])
    && (x.supersededBy.Some? ==> x.supersededBy.value < |fs| && Precedes(ds, x, fs[x.supersededBy.value]))
    && (ds[x.delivery].event == Push ==>
          && bs[x.binding].currentFetch.Some? && bs[x.binding].currentFetch.value < |fs|
          && x.delivery <= fs[bs[x.binding].currentFetch.value].delivery)
  }

  /** The unique index `source_fetch_provider_effect`, and latest wins. */
  predicate PairFits(ds: seq<Delivery>, a: Fetch, b: Fetch) {
    && !(a.binding == b.binding && a.delivery == b.delivery)
    && (Precedes(ds, a, b) ==> a.supersededBy.Some?)
  }

  /** A binding's current fetch is a push of its own, not behind the last delivery it took note of. */
  predicate BindingFits(ds: seq<Delivery>, fs: seq<Fetch>, b: nat, bound: Binding) {
    && (bound.lastDelivery.Some? ==> bound.lastDelivery.value < |ds|)
    && (bound.currentFetch.Some? ==>
          && bound.currentFetch.value < |fs| && bound.lastDelivery.Some?
          && var x := fs[bound.currentFetch.value];
             x.binding == b && x.delivery <= bound.lastDelivery.value && ds[x.delivery].event == Push)
  }

  ghost predicate Ordered(ds: seq<Delivery>, fs: seq<Fetch>, bs: seq<Binding>) {
    && (forall f :: 0 <= f < |fs| ==> FetchFits(ds, fs, bs, fs[f]))
    && (forall f, g :: 0 <= f < |fs| && 0 <= g < |fs| && f != g ==> PairFits(ds, fs[f], fs[g]))
    && (forall b :: 0 <= b < |bs| ==> BindingFits(ds, fs, b, bs[b]))
  }

  /** Deliveries are numbered in the order they arrived. */
  ghost predicate Chronological(ds: seq<Delivery>) {
    forall i, j :: 0 <= i < j < |ds| ==> ds[i].createdAt <= ds[j].createdAt
  }

  lemma NewerIsLater(ds: seq<Delivery>, a: nat, b: nat)
    requires Chronological(ds) && a < |ds| && b < |ds|
    ensures Newer(ds, a, b) <==> a > b
  {
  }

  /** A fetch is superseded if and only if its lane holds one for a later delivery. */
  lemma LatestWins(ds: seq<Delivery>, fs: seq<Fetch>, bs: seq<Binding>, f: nat)
    requires Ordered(ds, fs, bs) && f < |fs|
    ensures fs[f].supersededBy.Some? <==> exists g :: 0 <= g < |fs| && Precedes(ds, fs[f], fs[g])
  {
    assert FetchFits(ds, fs, bs, fs[f]);
    if g :| 0 <= g < |fs| && Precedes(ds, fs[f], fs[g]) {
      assert PairFits(ds, fs[f], fs[g]);
    }
  }

  // ----- Changes that touch no order

  /** Only states and attempt counts of fetches differ. */
  predicate OnlyStates(fs: seq<Fetch>, gs: seq<Fetch>) {
    && |gs| == |fs|
    && forall f :: 0 <= f < |fs| ==>
         gs[f].binding == fs[f].binding && gs[f].delivery == fs[f].delivery && gs[f].supersededBy == fs[f].supersededBy
  }

  lemma StatesKeepOrder(ds: seq<Delivery>, fs: seq<Fetch>, bs: seq<Binding>, gs: seq<Fetch>)
    requires Ordered(ds, fs, bs) && OnlyStates(fs, gs)
    ensures Ordered(ds, gs, bs)
  {
    forall f | 0 <= f < |gs| ensures FetchFits(ds, gs, bs, gs[f]) {
      assert FetchFits(ds, fs, bs, fs[f]);
    }
    forall f, g | 0 <= f < |gs| && 0 <= g < |gs| && f != g ensures PairFits(ds, gs[f], gs[g]) {
      assert PairFits(ds, fs[f], fs[g]);
    }
    forall b | 0 <= b < |bs| ensures BindingFits(ds, gs, b, bs[b]) {
      assert BindingFits(ds, fs, b, bs[b]);
    }
  }

  /** The binding takes note of a later delivery. */
  lemma NoteKeepsOrder(ds: seq<Delivery>, fs: seq<Fetch>, bs: seq<Binding>, b: nat, bound: Binding, d: nat)
    requires Ordered(ds, fs, bs) && b < |bs| && d < |ds|
    requires bound.currentFetch == bs[b].currentFetch && bound.lastDelivery == Some(d)
    requires bs[b].lastDelivery.Some? ==> bs[b].lastDelivery.value <= d
    ensures Ordered(ds, fs, bs[b := bound])
  {
    var cs := bs[b := bound];
    forall f | 0 <= f < |fs| ensures FetchFits(ds, fs, cs, fs[f]) {
      assert FetchFits(ds, fs, bs, fs[f]);
    }
    forall c | 0 <= c < |cs| ensures BindingFits(ds, fs, c, cs[c]) {
      assert BindingFits(ds, fs, c, bs[c]);
    }
  }

  // ----- Pushes

  lemma CurrentIsOpen(ds: seq<Delivery>, fs: seq<Fetch>, bs: seq<Binding>, b: nat)
    requires Ordered(ds, fs, bs) && b < |bs| && bs[b].currentFetch.Some?
    ensures bs[b].currentFetch.value < |fs| && fs[bs[b].currentFetch.value].supersededBy == None
    ensures forall g | 0 <= g < |fs| && g != bs[b].currentFetch.value && fs[g].binding == b
      && ds[fs[g].delivery].event == Push ::
      Precedes(ds, fs[g], fs[bs[b].currentFetch.value])
  {
    var c := bs[b].currentFetch.value;
    assert BindingFits(ds, fs, b, bs[b]);
    assert FetchFits(ds, fs, bs, fs[c]);
    forall g | 0 <= g < |fs| && g != c && fs[g].binding == b && ds[fs[g].delivery].event == Push
      ensures Precedes(ds, fs[g], fs[c])
    {
      assert FetchFits(ds, fs, bs, fs[g]) && PairFits(ds, fs[g], fs[c]);
    }
    var g := Coalesce(fs[c].supersededBy, c);
    assert FetchFits(ds, fs, bs, fs[g]);
  }

  /** A push that is not behind its binding finds its own fetch current, or has none yet. */
  lemma PushFetchIsCurrent(ds: seq<Delivery>, fs: seq<Fetch>, bs: seq<Binding>, d: nat, b: nat)
    requires Ordered(ds, fs, bs) && d < |ds| && b < |bs| && ds[d].event == Push
    requires bs[b].lastDelivery.Some? ==> bs[b].lastDelivery.value <= d
    ensures FetchFor(fs, b, d).Some? ==> bs[b].currentFetch == FetchFor(fs, b, d)
    ensures FetchFor(fs, b, d) == None && bs[b].currentFetch.Some? ==>
      bs[b].currentFetch.value < |fs| && fs[bs[b].currentFetch.value].delivery < d
  {
    assert BindingFits(ds, fs, b, bs[b]);
    var own := FetchFor(fs, b, d);
    if own.Some? {
      assert FetchFits(ds, fs, bs, fs[own.value]);
      CurrentIsOpen(ds, fs, bs, b);
    }
  }

  /** `gs` is `fs` with `previous` superseded by a new fetch at the end. */
  predicate Adds(fs: seq<Fetch>, b: nat, d: nat, previous: Option<nat>, gs: seq<Fetch>) {
    var f := |fs|;
    && |gs| == f + 1 && gs[f] == Fetch(b, d, Authorized, None, 0)
    && (previous.Some? ==> previous.value < f)
    && (forall g :: 0 <= g < f ==>
          gs[g] == if previous == Some(g) && fs[g].supersededBy == None then fs[g].(supersededBy := Some(f)) else fs[g])
  }

  /** What a new fetch must meet to take the head of its lane. */
  ghost predicate Heads(ds: seq<Delivery>, fs: seq<Fetch>, x: Fetch, previous: Option<nat>) {
    && (previous.Some? ==> previous.value < |fs| && Precedes(ds, fs[previous.value], x))
    && (forall g :: 0 <= g < |fs| ==> !(fs[g].binding == x.binding && fs[g].delivery == x.delivery))
    && (forall g :: 0 <= g < |fs| ==> !Precedes(ds, x, fs[g]))
    && (forall g :: 0 <= g < |fs| && Precedes(ds, fs[g], x) ==> previous == Some(g) || fs[g].supersededBy.Some?)
  }

  lemma AddedPairsFit(ds: seq<Delivery>, fs: seq<Fetch>, bs: seq<Binding>, b: nat, d: nat, previous: Option<nat>,
                      gs: seq<Fetch>)
    requires Ordered(ds, fs, bs) && Adds(fs, b, d, previous, gs) && Heads(ds, fs, gs[|fs|], previous)
    ensures forall f, g :: 0 <= f < |gs| && 0 <= g < |gs| && f != g ==> PairFits(ds, gs[f], gs[g])
  {
    forall f, g | 0 <= f < |gs| && 0 <= g < |gs| && f != g ensures PairFits(ds, gs[f], gs[g]) {
      if f < |fs| && g < |fs| { assert PairFits(ds, fs[f], fs[g]); }
    }
  }

  lemma AddedPushKeepsOrder(ds: seq<Delivery>, fs: seq<Fetch>, bs: seq<Binding>, b: nat, d: nat, gs: seq<Fetch>,
                            bound: Binding)
    requires Ordered(ds, fs, bs) && b < |bs| && d < |ds| && ds[d].event == Push && Target(ds[d])
    requires Adds(fs, b, d, bs[b].currentFetch, gs) && Heads(ds, fs, gs[|fs|], bs[b].currentFetch)
    requires bound.currentFetch == Some(|fs|) && bound.lastDelivery == Some(d)
    ensures Ordered(ds, gs, bs[b := bound])
  {
    var cs := bs[b := bound];
    AddedPairsFit(ds, fs, bs, b, d, bs[b].currentFetch, gs);
    forall f | 0 <= f < |gs| ensures FetchFits(ds, gs, cs, gs[f]) {
      AddedPushFetchFits(ds, fs, bs, b, d, gs, bound, f);
    }
    forall c | 0 <= c < |cs| ensures BindingFits(ds, gs, c, cs[c]) {
      AddedPushBindingFits(ds, fs, bs, b, d, gs, bound, c);
    }
  }

  lemma AddedPushFetchFits(ds: seq<Delivery>, fs: seq<Fetch>, bs: seq<Binding>, b: nat, d: nat, gs: seq<Fetch>,
                           bound: Binding, f: nat)
    requires Ordered(ds, fs, bs) && b < |bs| && d < |ds| && ds[d].event == Push && Target(ds[d])
    requires Adds(fs, b, d, bs[b].currentFetch, gs) && Heads(ds, fs, gs[|fs|], bs[b].currentFetch)
    requires bound.currentFetch == Some(|fs|) && bound.lastDelivery == Some(d) && f < |gs|
    ensures FetchFits(ds, gs, bs[b := bound], gs[f])
  {
    if f < |fs| {
      assert FetchFits(ds, fs, bs, fs[f]);
      if fs[f].binding == b && bs[b].currentFetch.Some? { assert FetchFits(ds, fs, bs, fs[bs[b].currentFetch.value]); }
    }
  }

  lemma AddedPushBindingFits(ds: seq<Delivery>, fs: seq<Fetch>, bs: seq<Binding>, b: nat, d: nat, gs: seq<Fetch>,
                             bound: Binding, c: nat)
    requires Ordered(ds, fs, bs) && b < |bs| && d < |ds| && ds[d].event == Push
    requires Adds(fs, b, d, bs[b].currentFetch, gs) && c < |bs|
    requires bound.currentFetch == Some(|fs|) && bound.lastDelivery == Some(d)
    ensures BindingFits(ds, gs, c, bs[b := bound][c])
  {
    assert BindingFits(ds, fs, c, bs[c]);
  }

  lemma PushHeads(ds: seq<Delivery>, fs: seq<Fetch>, bs: seq<Binding>, b: nat, d: nat, x: Fetch)
    requires Ordered(ds, fs, bs) && b < |bs| && d < |ds| && ds[d].event == Push && x == Fetch(b, d, Authorized, None, 0)
    requires FetchFor(fs, b, d) == None
    requires bs[b].currentFetch.Some? ==> bs[b].currentFetch.value < |fs| && fs[bs[b].currentFetch.value].delivery < d
    ensures Heads(ds, fs, x, bs[b].currentFetch)
  {
    if bs[b].currentFetch.Some? {
      CurrentIsOpen(ds, fs, bs, b);
      assert BindingFits(ds, fs, b, bs[b]);
    }
    forall g | 0 <= g < |fs|
      ensures !Precedes(ds, x, fs[g])
      ensures Precedes(ds, fs[g], x) ==> bs[b].currentFetch == Some(g) || fs[g].supersededBy.Some?
    {
      assert FetchFits(ds, fs, bs, fs[g]);
      if bs[b].currentFetch.Some? && g != bs[b].currentFetch.value {
        assert PairFits(ds, fs[g], fs[bs[b].currentFetch.value]);
      }
    }
  }

  // ----- Pull requests

  lemma AddedPullRequestKeepsOrder(ds: seq<Delivery>, fs: seq<Fetch>, bs: seq<Binding>, b: nat, d: nat,
                                   previous: Option<nat>, gs: seq<Fetch>)
    requires Ordered(ds, fs, bs) && b < |bs| && d < |ds| && ds[d].event == PullRequest && Target(ds[d])
    requires Adds(fs, b, d, previous, gs) && Heads(ds, fs, gs[|fs|], previous)
    ensures Ordered(ds, gs, bs)
  {
    AddedPairsFit(ds, fs, bs, b, d, previous, gs);
    forall f | 0 <= f < |gs| ensures FetchFits(ds, gs, bs, gs[f]) {
      if f < |fs| { assert FetchFits(ds, fs, bs, fs[f]); }
    }
    forall c | 0 <= c < |bs| ensures BindingFits(ds, gs, c, bs[c]) {
      assert BindingFits(ds, fs, c, bs[c]);
    }
  }

  /** Any other fetch of the pull request is no later than the latest prior one. */
  lemma PriorIsLast(ds: seq<Delivery>, fs: seq<Fetch>, bs: seq<Binding>, b: nat, d: nat, g: nat)
    requires Ordered(ds, fs, bs) && Chronological(ds) && d < |ds| && g < |fs|
    requires fs[g].delivery < |ds| && SamePullRequest(ds, fs[g], b, d)
    ensures var latest := LatestPrior(ds, fs, b, d);
      latest.Some? && (latest == Some(g) || Precedes(ds, fs[g], fs[latest.value]))
  {
    var latest := LatestPrior(ds, fs, b, d).value;
    NewerIsLater(ds, fs[g].delivery, fs[latest].delivery);
    if g != latest { assert PairFits(ds, fs[g], fs[latest]); }
  }

  lemma PullRequestHeads(ds: seq<Delivery>, fs: seq<Fetch>, bs: seq<Binding>, b: nat, d: nat, x: Fetch)
    requires Ordered(ds, fs, bs) && Chronological(ds) && b < |bs| && d < |ds|
    requires ds[d].event == PullRequest && ds[d].pullRequest.Some? && x == Fetch(b, d, Authorized, None, 0)
    requires FetchFor(fs, b, d) == None
    requires var latest := LatestPrior(ds, fs, b, d); latest.Some? ==> fs[latest.value].delivery < d
    ensures Heads(ds, fs, x, LatestPrior(ds, fs, b, d))
  {
    var latest := LatestPrior(ds, fs, b, d);
    forall g | 0 <= g < |fs|
      ensures !Precedes(ds, x, fs[g])
      ensures Precedes(ds, fs[g], x) ==> latest == Some(g) || fs[g].supersededBy.Some?
    {
      assert FetchFits(ds, fs, bs, fs[g]);
      if SamePullRequest(ds, fs[g], b, d) {
        PriorIsLast(ds, fs, bs, b, d, g);
        if latest != Some(g) { assert PairFits(ds, fs[g], fs[latest.value]); }
      }
    }
  }

  /** A fetch that exists has already superseded everything before it. */
  lemma PriorAlreadySuperseded(ds: seq<Delivery>, fs: seq<Fetch>, bs: seq<Binding>, b: nat, d: nat)
    requires Ordered(ds, fs, bs) && d < |ds| && ds[d].event == PullRequest && FetchFor(fs, b, d).Some?
    requires var latest := LatestPrior(ds, fs, b, d); latest.Some? && fs[latest.value].delivery < d
    ensures fs[LatestPrior(ds, fs, b, d).value].supersededBy.Some?
  {
    assert PairFits(ds, fs[LatestPrior(ds, fs, b, d).value], fs[FetchFor(fs, b, d).value]);
  }
}
