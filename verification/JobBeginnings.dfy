/** How a job begins, told from the delivery's row: whether it goes on, is over or is retried, and with which
    fetches. */
module JobBeginnings {
  import opened Sql
  import opened ProviderTables
  import opened ProviderRuns
  import opened DeliveryJobs
  import opened FetchOrder
  import opened JobRuns
  import opened JobOutcomes
  import opened PullRequestOrder
  import opened PreparedFetches
  import opened ProviderEffects
  import Patterns

  /** The delivery's row, in an organization the session may see. */
  predicate IsRow(t: Tables, publicId: string, ctx: Context, i: nat) {
    i < |t.deliveries| && t.deliveries[i].publicId == publicId && Permits(ctx, t.deliveries[i])
  }

  /** The lease was not renewed for twenty minutes. */
  predicate Expired(row: Delivery, now: int) {
    row.startedAt.Some? && now - row.startedAt.value > LEASE_TIMEOUT
  }

  /** The row is there for the taking: it waits, or its lease is the job's own or has expired. */
  predicate Takeable(row: Delivery, token: string, now: int) {
    || row.state == Received || row.state == Failed
    || (row.state == Processing && (row.token == Some(token) || Expired(row, now)))
  }

  lemma RowIsVisible(t: Tables, publicId: string, ctx: Context)
    requires UniqueIds(t)
    ensures forall i: nat :: IsRow(t, publicId, ctx, i) ==>
      FindVisible(t.deliveries, Some(publicId), ctx) == Some(i)
    ensures FindVisible(t.deliveries, Some(publicId), ctx) == None <==> !exists i: nat :: IsRow(t, publicId, ctx, i)
  {
    var found := FindVisible(t.deliveries, Some(publicId), ctx);
    if found.Some? { assert IsRow(t, publicId, ctx, found.value); }
    forall i: nat | IsRow(t, publicId, ctx, i) ensures found == Some(i) {
      assert FindPublic(t.deliveries, Some(publicId)) == Some(i);
    }
  }

  /** What a claim answers, on the row. */
  lemma ClaimOnRow(t: Tables, publicId: string, token: string, ctx: Context, now: int, i: nat)
    requires Inv(t) && Patterns.Token(token) && IsRow(t, publicId, ctx, i)
    ensures FindVisible(t.deliveries, Some(publicId), ctx) == Some(i)
    ensures var r, row := ClaimResultFor(t, Some(publicId), Some(token), ctx, now), t.deliveries[i];
      && (r == Claimed <==> Takeable(row, token, now))
      && (r == AlreadyComplete <==> row.state == Processed || row.state == Ignored)
      && (r == Busy <==> row.state == Processing && row.token != Some(token) && !Expired(row, now))
      && (r == Claimed || r == AlreadyComplete || r == Busy)
  {
    RowIsVisible(t, publicId, ctx);
    assert Named(t.deliveries[i]) && Stamped(t.deliveries[i]);
  }

  lemma ClaimWithoutRow(t: Tables, publicId: string, token: string, ctx: Context, now: int)
    requires Inv(t) && Patterns.PublicId(publicId) && Patterns.Token(token)
    ensures ClaimResultFor(t, Some(publicId), Some(token), ctx, now) == Unknown <==>
      !exists i: nat :: IsRow(t, publicId, ctx, i)
  {
    RowIsVisible(t, publicId, ctx);
    if i: nat :| IsRow(t, publicId, ctx, i) { ClaimOnRow(t, publicId, token, ctx, now, i); }
  }

  // ----- A claim changes nothing preparation looks at

  ghost predicate SameWebhooks(ds: seq<Delivery>, es: seq<Delivery>) {
    |es| == |ds| && forall i :: 0 <= i < |ds| ==> SameWebhook(es[i], ds[i])
  }

  lemma WantsAlike(w: World, es: seq<Delivery>, d: nat, b: nat, permitted: bool)
    requires SameWebhooks(w.tables.deliveries, es) && d < |es| && b < |w.tables.bindings|
    ensures var v := w.(tables := w.tables.(deliveries := es));
      && (Wants(v, d, b) <==> Wants(w, d, b))
      && (Available(v, d, b, permitted) <==> Available(w, d, b, permitted))
  {
    var v, ds := w.(tables := w.tables.(deliveries := es)), w.tables.deliveries;
    forall g | 0 <= g < |w.fetches|
      ensures SamePullRequest(es, w.fetches[g], b, d) <==> SamePullRequest(ds, w.fetches[g], b, d)
      ensures LaterFetch(es, w.fetches[g], b, d) <==> LaterFetch(ds, w.fetches[g], b, d)
    {
      if w.fetches[g].delivery < |ds| { assert SameWebhook(es[w.fetches[g].delivery], ds[w.fetches[g].delivery]); }
    }
    forall g | 0 <= g < |w.fetches| ensures IsPick(v, d, b, g) <==> IsPick(w, d, b, g) {
      PickAlike(w, es, d, b, g);
    }
    assert SameWebhook(es[d], ds[d]);
    CurrentAlike(w, es, d, b);
  }

  lemma PickAlike(w: World, es: seq<Delivery>, d: nat, b: nat, g: nat)
    requires SameWebhooks(w.tables.deliveries, es) && d < |es| && g < |w.fetches|
    requires forall h :: 0 <= h < |w.fetches| ==>
      (SamePullRequest(es, w.fetches[h], b, d) <==> SamePullRequest(w.tables.deliveries, w.fetches[h], b, d))
    ensures var v := w.(tables := w.tables.(deliveries := es)); IsPick(v, d, b, g) <==> IsPick(w, d, b, g)
    ensures var v := w.(tables := w.tables.(deliveries := es)); HasCommit(v, d, g) <==> HasCommit(w, d, g)
  {
    assert SameWebhook(es[d], w.tables.deliveries[d]);
    if w.fetches[g].delivery < |es| {
      assert SameWebhook(es[w.fetches[g].delivery], w.tables.deliveries[w.fetches[g].delivery]);
    }
  }

  lemma CurrentAlike(w: World, es: seq<Delivery>, d: nat, b: nat)
    requires SameWebhooks(w.tables.deliveries, es) && d < |es| && b < |w.tables.bindings|
    ensures var v, current := w.(tables := w.tables.(deliveries := es)), w.tables.bindings[b].currentFetch;
      current.Some? ==> (HasCommit(v, d, current.value) <==> HasCommit(w, d, current.value))
  {
    var current := w.tables.bindings[b].currentFetch;
    assert SameWebhook(es[d], w.tables.deliveries[d]);
    if current.Some? && current.value < |w.fetches| && w.fetches[current.value].delivery < |es| {
      assert SameWebhook(es[w.fetches[current.value].delivery], w.tables.deliveries[w.fetches[current.value].delivery]);
    }
  }

  lemma AvailableAlike(w: World, es: seq<Delivery>, d: nat, permitted: set<nat>)
    requires SameWebhooks(w.tables.deliveries, es) && d < |es|
    ensures var v := w.(tables := w.tables.(deliveries := es));
      AllAvailable(v, d, 0, permitted) <==> AllAvailable(w, d, 0, permitted)
  {
    var v := w.(tables := w.tables.(deliveries := es));
    forall x | 0 <= x < |w.tables.bindings|
      ensures Wants(v, d, x) <==> Wants(w, d, x)
      ensures Available(v, d, x, x in permitted) <==> Available(w, d, x, x in permitted)
    {
      WantsAlike(w, es, d, x, x in permitted);
    }
  }

  lemma ReachedAnyway(w: World, es: seq<Delivery>, d: nat, x: nat)
    requires SameWebhooks(w.tables.deliveries, es) && d < |es|
    ensures Reached(w.(tables := w.tables.(deliveries := es)), d, 0, x) <==> Reached(w, d, 0, x)
  {
    if x < |w.tables.bindings| { WantsAlike(w, es, d, x, false); }
  }

  /** Preparing after the claim spreads and yields as preparing before it would. */
  lemma PreparedAnyway(w: World, es: seq<Delivery>, v: World, d: nat, permitted: set<nat>)
    requires SameWebhooks(w.tables.deliveries, es) && d < |es|
    requires SpreadsOver(w.(tables := w.tables.(deliveries := es)), v, d, 0, permitted)
    ensures SpreadsOver(w, v, d, 0, permitted)
  {
    var u := w.(tables := w.tables.(deliveries := es));
    assert SameWebhook(es[d], w.tables.deliveries[d]);
    forall x | 0 <= x < |w.tables.bindings| ensures KeptBinding(w, v, d, 0, x) {
      ReachedAnyway(w, es, d, x);
      assert KeptBinding(u, v, d, 0, x);
    }
    forall f | 0 <= f < |w.fetches| ensures KeptFetch(w, v, d, 0, f) {
      ReachedAnyway(w, es, d, w.fetches[f].binding);
      assert KeptFetch(u, v, d, 0, f);
    }
    forall f | |w.fetches| <= f < |v.fetches| ensures NewFetch(w, v.fetches[f], d, 0, permitted) {
      ReachedAnyway(w, es, d, v.fetches[f].binding);
      assert NewFetch(u, v.fetches[f], d, 0, permitted);
    }
  }

  lemma YieldedAnyway(w: World, es: seq<Delivery>, v: World, d: nat, items: seq<Item>)
    requires SameWebhooks(w.tables.deliveries, es) && d < |es| == |v.tables.deliveries|
    requires Yields(w.(tables := w.tables.(deliveries := es)), v, items, d, 0)
    ensures Yields(w, v, items, d, 0)
  {
    var u := w.(tables := w.tables.(deliveries := es));
    forall k | 0 <= k < |items| ensures GoodItem(w, v, items[k], d, 0) {
      assert GoodItem(u, v, items[k], d, 0);
      ReachedAnyway(w, es, d, v.fetches[items[k].fetch].binding);
    }
    forall x | Reached(w, d, 0, x) ensures HasItem(v.fetches, items, x) {
      ReachedAnyway(w, es, d, x);
      assert Reached(u, d, 0, x);
    }
  }

  // ----- The first transaction

  /** The row while the job works on it. */
  predicate Leased(row: Delivery, before: Delivery, token: string, now: int) {
    && HeldBy(row, token) && row.startedAt == Some(now) && SameWebhook(row, before)
    && row.attempts == before.attempts + if HeldBy(before, token) then 0 else 1
  }

  /** The row after a preparation that was refused. */
  predicate GivenBack(row: Delivery, before: Delivery) {
    row.state == Failed && row.token == None && row.startedAt == None && row.lastError == Some(ERROR)
    && SameWebhook(row, before)
  }

  /** Only row `i` differs. */
  ghost predicate OnlyRow(ds: seq<Delivery>, es: seq<Delivery>, i: nat) {
    |es| == |ds| && forall k :: 0 <= k < |ds| && k != i ==> es[k] == ds[k]
  }

  lemma ClaimLeases(t: Tables, publicId: string, token: string, ctx: Context, now: int, i: nat)
    requires Inv(t) && Patterns.Token(token) && IsRow(t, publicId, ctx, i) && Takeable(t.deliveries[i], token, now)
    ensures var u := Claim(t, Some(publicId), Some(token), ctx, now);
      && u == t.(deliveries := u.deliveries) && OnlyRow(t.deliveries, u.deliveries, i)
      && SameWebhooks(t.deliveries, u.deliveries) && Leased(u.deliveries[i], t.deliveries[i], token, now)
  {
    ClaimOnRow(t, publicId, token, ctx, now, i);
  }

  lemma RefusalGivesBack(t: Tables, publicId: string, token: string, ctx: Context, now: int, i: nat)
    requires UniqueIds(t) && AllNamed(t) && Patterns.Token(token) && IsRow(t, publicId, ctx, i)
    requires HeldBy(t.deliveries[i], token)
    ensures var u := Finish(t, Some(publicId), Some(token), Some(false), Some(ERROR), ctx, now);
      && u == t.(deliveries := u.deliveries) && OnlyRow(t.deliveries, u.deliveries, i)
      && GivenBack(u.deliveries[i], t.deliveries[i])
  {
    RowIsVisible(t, publicId, ctx);
    assert Named(t.deliveries[i]);
  }

  lemma SplitBegin(w: World, job: nat, publicId: string, token: string, ctx: Context, permitted: set<nat>, now: int,
                   i: nat)
    requires FindVisible(w.tables.deliveries, Some(publicId), ctx) == Some(i)
    requires ClaimResultFor(w.tables, Some(publicId), Some(token), ctx, now) == Claimed
    ensures var claimed := w.(tables := Claim(w.tables, Some(publicId), Some(token), ctx, now));
      i < |claimed.tables.deliveries| &&
      var p := PrepareFrom(claimed, i, 0, permitted);
      var v := BeginJob(w, job, publicId, token, ctx, permitted, now);
      var a, u := AfterBegin(w, publicId, token, ctx, permitted, now), p.world;
      && (p.items.Some? ==>
            && a == Acquires(p.items.value)
            && v == u.(jobs := u.jobs[job := Job(publicId, token, i, p.items.value)]))
      && (p.items == None ==>
            && a == RaisesRetryable
            && v == u.(tables := Finish(u.tables, Some(publicId), Some(token), Some(false), Some(ERROR), ctx, now)))
  {
  }

  /** What a job that got the lease has done: it holds it, its items are exactly what the delivery is wanted for, and
      preparation touched nothing else. */
  ghost predicate Begun(w: World, v: World, job: nat, publicId: string, token: string, permitted: set<nat>, now: int,
                        i: nat, items: seq<Item>)
    requires i < |w.tables.deliveries|
  {
    && OnlyRow(w.tables.deliveries, v.tables.deliveries, i)
    && Leased(v.tables.deliveries[i], w.tables.deliveries[i], token, now)
    && v.jobs == w.jobs[job := Job(publicId, token, i, items)]
    && SpreadsOver(w, v, i, 0, permitted) && Yields(w, v, items, i, 0)
  }

  /** What a job whose preparation was refused has done: the delivery waits again, marked as failed. */
  ghost predicate Refusal(w: World, v: World, permitted: set<nat>, i: nat)
    requires i < |w.tables.deliveries|
  {
    && OnlyRow(w.tables.deliveries, v.tables.deliveries, i)
    && GivenBack(v.tables.deliveries[i], w.tables.deliveries[i])
    && v.jobs == w.jobs && SpreadsOver(w, v, i, 0, permitted)
  }

  /** Preparing the claimed delivery, told from the world before the claim. */
  lemma PreparesClaimed(w: World, es: seq<Delivery>, i: nat, permitted: set<nat>)
    requires SameWebhooks(w.tables.deliveries, es) && i < |es| && Target(es[i])
    requires var claimed := w.(tables := w.tables.(deliveries := es)); InOrder(claimed) && Chronological(es)
    ensures var p := PrepareFrom(w.(tables := w.tables.(deliveries := es)), i, 0, permitted);
      && (p.items.Some? <==> AllAvailable(w, i, 0, permitted))
      && p.world.tables == w.tables.(deliveries := es, bindings := p.world.tables.bindings)
      && p.world.jobs == w.jobs && SpreadsOver(w, p.world, i, 0, permitted)
      && (p.items.Some? ==> Yields(w, p.world, p.items.value, i, 0))
  {
    var claimed := w.(tables := w.tables.(deliveries := es));
    PreparedIff(claimed, i, 0, permitted);
    PreparationSpreads(claimed, i, 0, permitted);
    PreparationYields(claimed, i, 0, permitted);
    AvailableAlike(w, es, i, permitted);
    var p := PrepareFrom(claimed, i, 0, permitted);
    PreparedAnyway(w, es, p.world, i, permitted);
    if p.items.Some? { YieldedAnyway(w, es, p.world, i, p.items.value); }
  }

  lemma SameOver(w: World, u: World, v: World, i: nat, permitted: set<nat>)
    requires i < |w.tables.deliveries| && SpreadsOver(w, u, i, 0, permitted)
    requires v.tables.bindings == u.tables.bindings && v.fetches == u.fetches
    ensures SpreadsOver(w, v, i, 0, permitted)
  {
    forall x | 0 <= x < |w.tables.bindings| ensures KeptBinding(w, v, i, 0, x) { assert KeptBinding(w, u, i, 0, x); }
    forall f | 0 <= f < |w.fetches| ensures KeptFetch(w, v, i, 0, f) { assert KeptFetch(w, u, i, 0, f); }
  }

  lemma SameYields(w: World, u: World, v: World, items: seq<Item>, i: nat)
    requires i < |w.tables.deliveries| == |u.tables.deliveries| && Yields(w, u, items, i, 0)
    requires v.tables == u.tables && v.fetches == u.fetches
    ensures Yields(w, v, items, i, 0)
  {
    forall k | 0 <= k < |items| ensures GoodItem(w, v, items[k], i, 0) { assert GoodItem(w, u, items[k], i, 0); }
  }

  /** The refused row, in tables that differ from those of the claim by bindings only. */
  lemma RefusalOn(t: Tables, claimed: Tables, u: Tables, publicId: string, token: string, ctx: Context, now: int,
                  i: nat)
    requires Inv(claimed) && u == claimed.(bindings := u.bindings) && Patterns.Token(token)
    requires IsRow(t, publicId, ctx, i) && OnlyRow(t.deliveries, claimed.deliveries, i)
    requires Leased(claimed.deliveries[i], t.deliveries[i], token, now)
    ensures var v := Finish(u, Some(publicId), Some(token), Some(false), Some(ERROR), ctx, now);
      && OnlyRow(t.deliveries, v.deliveries, i) && GivenBack(v.deliveries[i], t.deliveries[i])
      && v.bindings == u.bindings
  {
    BindingsDoNotMatter(claimed, u.bindings);
    RefusalGivesBack(u, publicId, token, ctx, now, i);
  }

  lemma BeginTakes(w: World, clock: int, job: nat, publicId: string, token: string, ctx: Context, permitted: set<nat>,
                   now: int, i: nat)
    requires JobInv(w, clock) && Patterns.Token(token) && IsRow(w.tables, publicId, ctx, i)
    requires Takeable(w.tables.deliveries[i], token, now)
    ensures var v := BeginJob(w, job, publicId, token, ctx, permitted, now);
      var a := AfterBegin(w, publicId, token, ctx, permitted, now);
      if AllAvailable(w, i, 0, permitted)
      then a.Acquires? && Begun(w, v, job, publicId, token, permitted, now, i, a.items)
      else a == RaisesRetryable && Refusal(w, v, permitted, i)
  {
    var t := w.tables;
    var claimed := Claim(t, Some(publicId), Some(token), ctx, now);
    ClaimOnRow(t, publicId, token, ctx, now, i);
    ClaimLeases(t, publicId, token, ctx, now, i);
    ClaimKeepsJobInv(w, Some(publicId), Some(token), ctx, clock, now);
    SplitBegin(w, job, publicId, token, ctx, permitted, now, i);
    assert WellFormed(claimed.deliveries[i]) && w.(tables := claimed).tables == claimed;
    PreparesClaimed(w, claimed.deliveries, i, permitted);
    var p := PrepareFrom(w.(tables := claimed), i, 0, permitted);
    var v := BeginJob(w, job, publicId, token, ctx, permitted, now);
    if AllAvailable(w, i, 0, permitted) {
      SameYields(w, p.world, v, p.items.value, i);
    } else {
      RefusalOn(t, claimed, p.world.tables, publicId, token, ctx, now, i);
    }
    SameOver(w, p.world, v, i, permitted);
  }

  /** How a job goes on, told from the row: it is retried if another token's lease has not expired, is over if the
      delivery is, and otherwise takes the lease and acquires, or gives the delivery back and is retried, depending on
      whether every binding that wants the delivery has a fetch available. */
  lemma BeginOnRow(w: World, clock: int, job: nat, publicId: string, token: string, ctx: Context, permitted: set<nat>,
                   now: int, i: nat)
    requires JobInv(w, clock) && Patterns.Token(token) && IsRow(w.tables, publicId, ctx, i)
    ensures var v := BeginJob(w, job, publicId, token, ctx, permitted, now);
      var a, row := AfterBegin(w, publicId, token, ctx, permitted, now), w.tables.deliveries[i];
      && (a == RaisesBusy <==> row.state == Processing && row.token != Some(token) && !Expired(row, now))
      && (a == Returns <==> row.state == Processed || row.state == Ignored)
      && (a.Acquires? <==> Takeable(row, token, now) && AllAvailable(w, i, 0, permitted))
      && (a == RaisesRetryable <==> Takeable(row, token, now) && !AllAvailable(w, i, 0, permitted))
      && (a.Acquires? ==> Begun(w, v, job, publicId, token, permitted, now, i, a.items))
      && (a == RaisesRetryable ==> Refusal(w, v, permitted, i))
      && (a == RaisesBusy || a == Returns ==> v == w)
  {
    ClaimOnRow(w.tables, publicId, token, ctx, now, i);
    if Takeable(w.tables.deliveries[i], token, now) {
      BeginTakes(w, clock, job, publicId, token, ctx, permitted, now, i);
    }
  }

  /** Without a row the session may see, the job is over; it raises on ids of the wrong form. */
  lemma BeginWithoutRow(w: World, clock: int, job: nat, publicId: string, token: string, ctx: Context,
                        permitted: set<nat>, now: int)
    requires JobInv(w, clock) && !exists i: nat :: IsRow(w.tables, publicId, ctx, i)
    ensures BeginJob(w, job, publicId, token, ctx, permitted, now) == w
    ensures AfterBegin(w, publicId, token, ctx, permitted, now) ==
      if Patterns.PublicId(publicId) && Patterns.Token(token) then Returns else RaisesInvalid
  {
    RowIsVisible(w.tables, publicId, ctx);
  }

  /** So a job refused by a dead lease raises the error it is retried for, at every attempt until it is granted. */
  lemma RefusedAttemptIsRetried(t: Tables, steps: seq<Step>, i: nat, since: int, token: string, ctx: Context,
                                attempts: seq<nat>, at: seq<int>, n: nat, w: World, permitted: set<nat>)
    requires DeadLease(t, steps, i, since, Some(token), ctx, attempts, at) && n < |attempts|
    requires forall a :: 0 <= a <= n ==> !Granted(t, steps, i, Some(token), ctx, attempts[a], at[a])
    requires w.tables == Run(t, steps[..attempts[n]])
    ensures AfterBegin(w, t.deliveries[i].publicId, token, ctx, permitted, at[n]) == RaisesBusy
  {
    RefusedIsBusy(t, steps, i, since, Some(token), ctx, attempts, at, n);
  }
}
