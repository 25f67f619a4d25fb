/** The lease a delivery is processed under, told as the history of calls that succeeded on it. */
module LeaseHistory {
  import opened Sql
  import opened ProviderTables
  import opened ProviderRuns
  import Patterns

  /** What can be observed of one delivery: a claim answered `claimed`, a finish answered true, or the
      deactivation of its connection put it aside. */
  datatype LeaseEvent =
    | Taken(token: Option<string>, at: int)
    | Ended(holder: Option<string>, ok: bool, at: int)
    | Drained(at: int)

  function Observed(t: Tables, s: Step, i: nat): seq<LeaseEvent> {
    if i >= |t.deliveries| then []
    else match s
      case ClaimStep(id, token, ctx, now) =>
        if id == Some(t.deliveries[i].publicId) && ClaimResultFor(t, id, token, ctx, now) == Claimed
        then [Taken(token, now)] else []
      case FinishStep(id, token, ok, error, ctx, now) =>
        if id == Some(t.deliveries[i].publicId) && FinishResultFor(t, id, token, error, ctx) == FinishReturned(true)
        then [Ended(token, IsTrue(ok), now)] else []
      case ApplyStep(c) =>
        if t.deliveries[i].state != Ignored && |Next(t, s).deliveries| > i && Next(t, s).deliveries[i].state == Ignored
        then [Drained(c.now)] else []
      case _ => []
  }

  function History(t: Tables, steps: seq<Step>, i: nat): seq<LeaseEvent> {
    if steps == [] then []
    else
      var init := steps[..|steps| - 1];
      History(t, init, i) + Observed(Run(t, init), steps[|steps| - 1], i)
  }

  // ----- The reference: which histories a lease allows

  /** A claim by the token that already holds the lease. */
  predicate Renewal(history: seq<LeaseEvent>, token: Option<string>) {
    history != [] && history[|history| - 1].Taken? && token.Some? && history[|history| - 1].token == token
  }

  /** May `e` be the next thing observed? */
  predicate Allowed(history: seq<LeaseEvent>, e: LeaseEvent) {
    if history == [] then !e.Ended?
    else match (history[|history| - 1], e)
      case (Taken(holder, since), Taken(token, at)) => (token.Some? && token == holder) || at - since > LEASE_TIMEOUT
      case (Taken(holder, _), Ended(token, _, _)) => token.Some? && token == holder
      case (Ended(_, ok, _), Taken(_, _)) => !ok
      case (Ended(_, ok, _), Drained(_)) => !ok
      case _ => false
  }

  predicate Legal(history: seq<LeaseEvent>) {
    history == [] ||
    (Legal(history[..|history| - 1]) && Allowed(history[..|history| - 1], history[|history| - 1]))
  }

  /** Claims that start a tenure rather than renew one. */
  function Tenures(history: seq<LeaseEvent>): nat {
    if history == [] then 0
    else
      var init, e := history[..|history| - 1], history[|history| - 1];
      Tenures(init) + if e.Taken? && !Renewal(init, e.token) then 1 else 0
  }

  /** The lease columns of a row, read off its history. */
  predicate Explains(history: seq<LeaseEvent>, d: Delivery) {
    && d.attempts == Tenures(history)
    && if history == [] then
         (d.state == Received || Final(d.state)) && d.token == None && d.startedAt == None
       else match history[|history| - 1]
         case Taken(token, at) => d.state == Processing && d.token == token && d.startedAt == Some(at)
         case Ended(_, ok, _) => d.state == (if ok then Processed else Failed) && d.token == None && d.startedAt == None
         case Drained(_) => d.state == Ignored && d.token == None && d.startedAt == None
  }

  lemma ExtendHistory(history: seq<LeaseEvent>, e: LeaseEvent)
    requires Legal(history) && Allowed(history, e)
    ensures Legal(history + [e])
    ensures Tenures(history + [e]) == Tenures(history) + if e.Taken? && !Renewal(history, e.token) then 1 else 0
  {
    assert (history + [e])[..|history + [e]| - 1] == history;
  }

  /** What one event does to a row. */
  predicate Evolves(d: Delivery, seen: seq<LeaseEvent>, e: Delivery) {
    if seen == [] then
      e.state == d.state && e.token == d.token && e.startedAt == d.startedAt && e.attempts == d.attempts
    else match seen[0]
      case Taken(token, at) =>
        && MayClaim(d, token, at) && e.state == Processing && e.token == token && e.startedAt == Some(at)
        && e.attempts == if Holds(d, token) then d.attempts else d.attempts + 1
      case Ended(token, ok, at) =>
        && Holds(d, token) && e.state == (if ok then Processed else Failed)
        && e.token == None && e.startedAt == None && e.attempts == d.attempts
      case Drained(at) =>
        && Waiting(d.state) && e.state == Ignored && e.token == None && e.startedAt == None && e.attempts == d.attempts
  }

  lemma CommitEvolves(t: Tables, c: Call, i: nat)
    requires Commits(t, c) && i < |t.deliveries|
    ensures i < |Committed(t, c).deliveries|
    ensures Evolves(t.deliveries[i], Observed(t, ApplyStep(c), i), Committed(t, c).deliveries[i])
  {
    CommitAppends(t, c);
  }

  lemma ClaimEvolves(t: Tables, id: Option<string>, token: Option<string>, ctx: Context, now: int, i: nat)
    requires UniqueIds(t) && i < |t.deliveries|
    ensures var u := Claim(t, id, token, ctx, now);
      && |u.deliveries| == |t.deliveries|
      && Evolves(t.deliveries[i], Observed(t, ClaimStep(id, token, ctx, now), i), u.deliveries[i])
  {
  }

  lemma FinishEvolves(t: Tables, id: Option<string>, token: Option<string>, ok: Option<bool>, error: Option<string>,
                      ctx: Context, now: int, i: nat)
    requires UniqueIds(t) && i < |t.deliveries|
    ensures var u := Finish(t, id, token, ok, error, ctx, now);
      && |u.deliveries| == |t.deliveries|
      && Evolves(t.deliveries[i], Observed(t, FinishStep(id, token, ok, error, ctx, now), i), u.deliveries[i])
  {
  }

  /** Every step changes the lease of a stored delivery exactly as observed. */
  lemma StepEvolves(t: Tables, s: Step, i: nat)
    requires UniqueIds(t) && i < |t.deliveries|
    ensures i < |Next(t, s).deliveries| && |Observed(t, s, i)| <= 1
    ensures Evolves(t.deliveries[i], Observed(t, s, i), Next(t, s).deliveries[i])
  {
    match s
    case ApplyStep(c) => if Commits(t, c) { CommitEvolves(t, c, i); }
    case ClaimStep(id, token, ctx, now) => ClaimEvolves(t, id, token, ctx, now, i);
    case FinishStep(id, token, ok, error, ctx, now) => FinishEvolves(t, id, token, ok, error, ctx, now, i);
    case _ =>
  }

  lemma TakenExtends(d: Delivery, token: Option<string>, at: int, e: Delivery, history: seq<LeaseEvent>)
    requires Legal(history) && Explains(history, d) && Evolves(d, [Taken(token, at)], e)
    ensures Legal(history + [Taken(token, at)]) && Explains(history + [Taken(token, at)], e)
  {
    assert Holds(d, token) <==> Renewal(history, token);
    assert Allowed(history, Taken(token, at));
    ExtendHistory(history, Taken(token, at));
  }

  lemma ReleaseExtends(d: Delivery, seen: LeaseEvent, e: Delivery, history: seq<LeaseEvent>)
    requires Legal(history) && Explains(history, d) && !seen.Taken? && Evolves(d, [seen], e)
    ensures Legal(history + [seen]) && Explains(history + [seen], e)
  {
    assert Allowed(history, seen);
    ExtendHistory(history, seen);
  }

  lemma EvolveExtends(d: Delivery, seen: seq<LeaseEvent>, e: Delivery, history: seq<LeaseEvent>)
    requires Legal(history) && Explains(history, d) && |seen| <= 1 && Evolves(d, seen, e)
    ensures Legal(history + seen) && Explains(history + seen, e)
  {
    if seen == [] {
      assert history + seen == history;
    } else {
      assert seen == [seen[0]];
      if seen[0].Taken? {
        TakenExtends(d, seen[0].token, seen[0].at, e, history);
      } else {
        ReleaseExtends(d, seen[0], e, history);
      }
    }
  }

  /** One step extends a row's history legally, and the longer history explains the new row. */
  lemma StepExtends(t: Tables, s: Step, i: nat, history: seq<LeaseEvent>)
    requires UniqueIds(t) && i < |t.deliveries|
    requires Legal(history) && Explains(history, t.deliveries[i])
    ensures i < |Next(t, s).deliveries|
    ensures Legal(history + Observed(t, s, i))
    ensures Explains(history + Observed(t, s, i), Next(t, s).deliveries[i])
  {
    StepEvolves(t, s, i);
    EvolveExtends(t.deliveries[i], Observed(t, s, i), Next(t, s).deliveries[i], history);
  }

  lemma {:induction false} NoHistoryBefore(t: Tables, steps: seq<Step>, i: nat)
    requires |Run(t, steps).deliveries| <= i
    ensures History(t, steps, i) == []
  {
    if steps != [] {
      RowsPersist(Run(t, steps[..|steps| - 1]), steps[|steps| - 1]);
      NoHistoryBefore(t, steps[..|steps| - 1], i);
    }
  }

  lemma NewRowUnleased(t: Tables, s: Step)
    ensures |Next(t, s).deliveries| <= |t.deliveries| + 1
    ensures |Next(t, s).deliveries| > |t.deliveries| ==> Explains([], Next(t, s).deliveries[|t.deliveries|])
  {
  }

  /** On every run and for every delivery, the observed history is one the lease allows, and the row's
      state, token, start time and attempt count are exactly what that history says. */
  lemma {:induction false} HistoryIsLegal(t: Tables, steps: seq<Step>, i: nat)
    requires Fresh(t) && i < |Run(t, steps).deliveries|
    ensures Legal(History(t, steps, i))
    ensures Explains(History(t, steps, i), Run(t, steps).deliveries[i])
  {
    var init, s := steps[..|steps| - 1], steps[|steps| - 1];
    RunUnique(t, init);
    if i < |Run(t, init).deliveries| {
      HistoryIsLegal(t, init, i);
    } else {
      NoHistoryBefore(t, init, i);
    }
    StepTells(Run(t, init), s, i, History(t, init, i));
  }

  lemma StepTells(u: Tables, s: Step, i: nat, history: seq<LeaseEvent>)
    requires UniqueIds(u) && i < |Next(u, s).deliveries|
    requires if i < |u.deliveries| then Legal(history) && Explains(history, u.deliveries[i]) else history == []
    ensures Legal(history + Observed(u, s, i)) && Explains(history + Observed(u, s, i), Next(u, s).deliveries[i])
  {
    if i < |u.deliveries| {
      StepExtends(u, s, i, history);
    } else {
      NewRowUnleased(u, s);
      assert history + Observed(u, s, i) == [];
    }
  }

  // ----- What legal histories imply

  lemma {:induction false} LegalAt(history: seq<LeaseEvent>, k: nat)
    requires Legal(history) && k < |history|
    ensures Legal(history[..k]) && Allowed(history[..k], history[k])
  {
    if k < |history| - 1 {
      LegalAt(history[..|history| - 1], k);
      assert history[..|history| - 1][..k] == history[..k];
    }
  }

  /** A different token takes over only more than twenty minutes after the last claim or renewal; only
      the current holder can finish; nothing is observed of a delivery once it is finished for good. */
  lemma LeaseSafety(t: Tables, steps: seq<Step>, i: nat, k: nat)
    requires Fresh(t) && i < |Run(t, steps).deliveries| && k + 1 < |History(t, steps, i)|
    ensures var h := History(t, steps, i);
      && (h[k].Taken? && h[k + 1].Taken? && h[k].token != h[k + 1].token ==> h[k + 1].at - h[k].at > LEASE_TIMEOUT)
      && (h[k + 1].Ended? ==> h[k].Taken? && h[k + 1].holder.Some? && h[k].token == h[k + 1].holder)
      && (h[k].Ended? ==> !h[k].ok)
      && !h[k].Drained?
  {
    var h := History(t, steps, i);
    HistoryIsLegal(t, steps, i);
    LegalAt(h, k + 1);
    assert h[..k + 1][|h[..k + 1]| - 1] == h[k];
  }

  /** Does some step of the run answer `claimed` to `token` for delivery `i`? */
  predicate Reclaims(t: Tables, steps: seq<Step>, i: nat, token: Option<string>) {
    steps != [] &&
    var init, s := steps[..|steps| - 1], steps[|steps| - 1];
    Reclaims(t, init, i, token) || (s.ClaimStep? && s.token == token && Observed(Run(t, init), s, i) != [])
  }

  /** A token that does not hold the lease stays without it until it claims again, whatever happens. */
  lemma {:induction false} DisplacedStaysDisplaced(t: Tables, steps: seq<Step>, i: nat, token: Option<string>)
    requires Inv(t) && i < |t.deliveries| && !Holds(t.deliveries[i], token)
    requires !Reclaims(t, steps, i, token)
    ensures |Run(t, steps).deliveries| > i && !Holds(Run(t, steps).deliveries[i], token)
  {
    RunKeepsRows(t, steps);
    if steps != [] {
      var init := steps[..|steps| - 1];
      DisplacedStaysDisplaced(t, init, i, token);
      RunUnique(t, init);
      OnlyClaimsGrant(Run(t, init), steps[|steps| - 1], i, token);
    }
  }

  lemma OnlyClaimsGrant(t: Tables, s: Step, i: nat, token: Option<string>)
    requires UniqueIds(t) && i < |t.deliveries| && !Holds(t.deliveries[i], token)
    requires s.ClaimStep? && s.token == token ==> Observed(t, s, i) == []
    ensures |Next(t, s).deliveries| > i && !Holds(Next(t, s).deliveries[i], token)
  {
    StepEvolves(t, s, i);
  }

  lemma RefusedUnlessHeld(t: Tables, i: nat, id: Option<string>, token: Option<string>, succeeded: Option<bool>,
                          error: Option<string>, ctx: Context, now: int)
    requires UniqueIds(t) && i < |t.deliveries| && id == Some(t.deliveries[i].publicId)
    requires !Holds(t.deliveries[i], token)
    ensures FinishResultFor(t, id, token, error, ctx) != FinishReturned(true)
    ensures Finish(t, id, token, succeeded, error, ctx, now) == t
  {
  }

  /** Fencing: from the moment a token has been displaced, its finish is refused and writes nothing, at
      every point of every run, until a claim by that token succeeds again. */
  lemma DisplacedFinishIsRefused(t: Tables, steps: seq<Step>, i: nat, token: Option<string>, succeeded: Option<bool>,
                                 error: Option<string>, ctx: Context, now: int)
    requires Inv(t) && i < |t.deliveries| && !Holds(t.deliveries[i], token)
    requires !Reclaims(t, steps, i, token)
    ensures var u := Run(t, steps);
      var id := Some(t.deliveries[i].publicId);
      && FinishResultFor(u, id, token, error, ctx) != FinishReturned(true)
      && Finish(u, id, token, succeeded, error, ctx, now) == u
  {
    DisplacedStaysDisplaced(t, steps, i, token);
    assert Run(t, steps).deliveries[i].publicId == t.deliveries[i].publicId by { RunKeepsRows(t, steps); }
    RunUnique(t, steps);
    RefusedUnlessHeld(Run(t, steps), i, Some(t.deliveries[i].publicId), token, succeeded, error, ctx, now);
  }

  // ----- Leases without a token

  /** A lease is complete when being processed, having a token and having a start time coincide. */
  predicate WellLeased(d: Delivery) {
    (d.state == Processing <==> d.token.Some?) && (d.state == Processing <==> d.startedAt.Some?)
  }

  ghost predicate AllWellLeased(t: Tables) {
    forall i :: 0 <= i < |t.deliveries| ==> WellLeased(t.deliveries[i])
  }

  /** The id is well formed and names, within the caller's organization, a delivery that waits or whose lease
      is stale. */
  predicate UpForTaking(t: Tables, id: Option<string>, ctx: Context, now: int) {
    && !BadPublicId(id) && FindVisible(t.deliveries, id, ctx).Some?
    && var d := t.deliveries[FindVisible(t.deliveries, id, ctx).value];
       Waiting(d.state) || (d.state == Processing && IsTrue(Stale(d.startedAt, now)))
  }

  /** A claim keeps all leases complete exactly when it carries a token or its delivery is not up for taking. */
  lemma ClaimKeepsLeases(t: Tables, id: Option<string>, token: Option<string>, ctx: Context, now: int)
    requires AllWellLeased(t)
    ensures AllWellLeased(Claim(t, id, token, ctx, now)) <==> token.Some? || !UpForTaking(t, id, ctx, now)
  {
    var u := Claim(t, id, token, ctx, now);
    if ClaimResultFor(t, id, token, ctx, now) == Claimed {
      var i := FindVisible(t.deliveries, id, ctx).value;
      assert u.deliveries[i] == ClaimedRow(t.deliveries[i], token, now);
    }
  }

  predicate CarriesToken(s: Step) {
    s.ClaimStep? ==> s.token.Some?
  }

  /** As long as claims carry tokens, every reachable lease is complete. */
  lemma {:induction false} LeasesStayComplete(t: Tables, steps: seq<Step>)
    requires Fresh(t) && forall k :: 0 <= k < |steps| ==> CarriesToken(steps[k])
    ensures AllWellLeased(Run(t, steps))
  {
    if steps != [] {
      var init, s := steps[..|steps| - 1], steps[|steps| - 1];
      LeasesStayComplete(t, init);
      assert CarriesToken(s);
      if s.ClaimStep? {
        ClaimKeepsLeases(Run(t, init), s.publicId, s.token, s.ctx, s.now);
      } else {
        OtherStepsKeepLeases(Run(t, init), s);
      }
    }
  }

  lemma OtherStepsKeepLeases(t: Tables, s: Step)
    requires AllWellLeased(t) && !s.ClaimStep?
    ensures AllWellLeased(Next(t, s))
  {
    var u := Next(t, s);
    forall i | 0 <= i < |u.deliveries| ensures WellLeased(u.deliveries[i]) {
      if i < |t.deliveries| { assert WellLeased(t.deliveries[i]); }
    }
  }

  /** A delivery claimed without a token cannot be finished by anyone, whatever token they present. */
  lemma TokenlessLeaseCannotFinish(t: Tables, i: nat, id: Option<string>, token: Option<string>, error: Option<string>,
                                   ctx: Context)
    requires UniqueIds(t) && i < |t.deliveries| && id == Some(t.deliveries[i].publicId)
    requires t.deliveries[i].state == Processing && t.deliveries[i].token == None
    ensures FinishResultFor(t, id, token, error, ctx) != FinishReturned(true)
  {
    if FindVisible(t.deliveries, id, ctx).Some? {
      assert FindVisible(t.deliveries, id, ctx).value == i;
    }
  }

  // ----- Every legal history happens

  /** The call that makes `e` happen; a drain takes a webhook that deactivates the connection. */
  function Acted(e: LeaseEvent, id: string, ctx: Context, suspension: Call): Step {
    match e
    case Taken(token, at) => ClaimStep(Some(id), token, ctx, at)
    case Ended(token, ok, at) => FinishStep(Some(id), token, Some(ok), None, ctx, at)
    case Drained(at) => ApplyStep(suspension.(now := at))
  }

  /** Calls that act out a history on one delivery. */
  function Script(history: seq<LeaseEvent>, id: string, ctx: Context, suspension: Call): seq<Step> {
    if history == [] then []
    else Script(history[..|history| - 1], id, ctx, suspension) + [Acted(history[|history| - 1], id, ctx, suspension)]
  }

  /** The token, if the event has one, is one the functions accept. */
  predicate Presentable(e: LeaseEvent) {
    match e
    case Taken(token, _) => token.Some? ==> Patterns.Token(token.value)
    case Ended(token, _, _) => token.Some? && Patterns.Token(token.value)
    case Drained(_) => true
  }

  /** A webhook that would be recorded in `t` and deactivates the connection of delivery `i`. */
  predicate Suspends(t: Tables, c: Call, i: nat) {
    && i < |t.deliveries| && Commits(t, c) && Deactivates(c) && c.installationId == Some(t.deliveries[i].connection)
  }

  /** The steps give the delivery this history. */
  ghost predicate Enacts(t: Tables, steps: seq<Step>, i: nat, history: seq<LeaseEvent>) {
    && i < |Run(t, steps).deliveries|
    && History(t, steps, i) == history
    && Explains(history, Run(t, steps).deliveries[i])
  }

  /** Conversely, every history the rules allow is the history of some run of calls on a waiting delivery: the
      rules in `Allowed` allow nothing that cannot happen. */
  lemma {:induction false} LegalHistoriesHappen(t: Tables, i: nat, history: seq<LeaseEvent>, ctx: Context,
                                                suspension: Call)
    requires Inv(t) && Suspends(t, suspension, i)
    requires t.deliveries[i].state == Received && t.deliveries[i].attempts == 0
    requires ctx.Sees(t.deliveries[i].organization)
    requires Legal(history) && forall k :: 0 <= k < |history| ==> Presentable(history[k])
    ensures Enacts(t, Script(history, t.deliveries[i].publicId, ctx, suspension), i, history)
  {
    var id := t.deliveries[i].publicId;
    if history == [] {
      EnactsNothing(t, i);
    } else {
      var init, e := history[..|history| - 1], history[|history| - 1];
      LegalHistoriesHappen(t, i, init, ctx, suspension);
      assert Presentable(e);
      LegalIsOpen(history);
      OpenScriptKeepsTables(t, init, id, ctx, suspension);
      EnactsNext(t, Script(init, id, ctx, suspension), i, init, e, ctx, suspension);
      ScriptSnoc(history, id, ctx, suspension);
    }
  }

  lemma ScriptSnoc(history: seq<LeaseEvent>, id: string, ctx: Context, suspension: Call)
    requires history != []
    ensures var init, e := history[..|history| - 1], history[|history| - 1];
      && Script(init, id, ctx, suspension) + [Acted(e, id, ctx, suspension)] == Script(history, id, ctx, suspension)
      && init + [e] == history
  {
  }

  /** Nothing has been drained yet. */
  predicate Open(history: seq<LeaseEvent>) {
    forall k :: 0 <= k < |history| ==> !history[k].Drained?
  }

  /** A drain comes last. */
  lemma {:induction false} LegalIsOpen(history: seq<LeaseEvent>)
    requires Legal(history) && history != []
    ensures Open(history[..|history| - 1])
  {
    var init := history[..|history| - 1];
    if init != [] {
      LegalIsOpen(init);
      assert !init[|init| - 1].Drained?;
    }
  }

  /** `u` differs from `t` only in the leases of deliveries. */
  ghost predicate OnlyLeases(t: Tables, u: Tables) {
    && u == t.(deliveries := u.deliveries) && |u.deliveries| == |t.deliveries|
    && forall k :: 0 <= k < |t.deliveries| ==> SameWebhook(u.deliveries[k], t.deliveries[k])
  }

  lemma {:induction false} OpenScriptKeepsTables(t: Tables, history: seq<LeaseEvent>, id: string, ctx: Context,
                                                 suspension: Call)
    requires Open(history)
    ensures OnlyLeases(t, Run(t, Script(history, id, ctx, suspension)))
  {
    if history != [] {
      var init, e := history[..|history| - 1], history[|history| - 1];
      OpenScriptKeepsTables(t, init, id, ctx, suspension);
      ScriptSnoc(history, id, ctx, suspension);
      RunSnoc(t, Script(init, id, ctx, suspension), Acted(e, id, ctx, suspension), 0);
      LeaseStepOnlyLeases(Run(t, Script(init, id, ctx, suspension)), Acted(e, id, ctx, suspension));
    }
  }

  lemma LeaseStepOnlyLeases(t: Tables, s: Step)
    requires s.ClaimStep? || s.FinishStep?
    ensures OnlyLeases(t, Next(t, s))
  {
    RowsPersist(t, s);
  }

  lemma StillCommits(t: Tables, u: Tables, c: Call, at: int)
    requires OnlyLeases(t, u) && Commits(t, c)
    ensures Commits(u, c.(now := at))
  {
    var e := c.(now := at);
    assert GivenNames(e) == GivenNames(c);
    assert BadCommon(e) == BadCommon(c);
    assert FindExternal(u.deliveries, c.deliveryId) == None;
  }

  lemma EnactsNothing(t: Tables, i: nat)
    requires Inv(t) && i < |t.deliveries| && t.deliveries[i].state == Received && t.deliveries[i].attempts == 0
    ensures Enacts(t, [], i, [])
  {
    assert Stamped(t.deliveries[i]);
  }

  lemma EnactsNext(t: Tables, steps: seq<Step>, i: nat, init: seq<LeaseEvent>, e: LeaseEvent, ctx: Context,
                   suspension: Call)
    requires Inv(t) && Suspends(t, suspension, i) && OnlyLeases(t, Run(t, steps))
    requires t.deliveries[i].state == Received && ctx.Sees(t.deliveries[i].organization)
    requires Enacts(t, steps, i, init) && Legal(init) && Allowed(init, e) && Presentable(e)
    requires init == [] ==> steps == []
    ensures Enacts(t, steps + [Acted(e, t.deliveries[i].publicId, ctx, suspension)], i, init + [e])
  {
    var id, u := t.deliveries[i].publicId, Run(t, steps);
    RunKeepsRow(t, steps, i);
    assert Named(t.deliveries[i]);
    if e.Drained? {
      StillCommits(t, u, suspension, e.at);
      DrainHappens(u, i, init, e.at, suspension.(now := e.at));
    } else {
      PresentableHappens(u, i, init, e, id, ctx, Acted(e, id, ctx, suspension));
    }
    EnactsSnoc(t, steps, i, init, e, Acted(e, id, ctx, suspension));
  }

  lemma EnactsSnoc(t: Tables, steps: seq<Step>, i: nat, init: seq<LeaseEvent>, e: LeaseEvent, s: Step)
    requires Enacts(t, steps, i, init) && Legal(init) && UniqueIds(Run(t, steps))
    requires Observed(Run(t, steps), s, i) == [e]
    ensures Enacts(t, steps + [s], i, init + [e])
  {
    StepExtends(Run(t, steps), s, i, init);
    RunSnoc(t, steps, s, i);
  }

  lemma RunSnoc(t: Tables, steps: seq<Step>, s: Step, i: nat)
    ensures Run(t, steps + [s]) == Next(Run(t, steps), s)
    ensures History(t, steps + [s], i) == History(t, steps, i) + Observed(Run(t, steps), s, i)
  {
    assert (steps + [s])[..|steps|] == steps;
  }

  lemma RunKeepsRow(t: Tables, steps: seq<Step>, i: nat)
    requires Inv(t) && i < |t.deliveries|
    ensures UniqueIds(Run(t, steps)) && i < |Run(t, steps).deliveries|
    ensures SameWebhook(Run(t, steps).deliveries[i], t.deliveries[i])
  {
    RunUnique(t, steps);
    RunKeepsRows(t, steps);
  }

  /** A deactivating webhook drains a delivery that waits. */
  lemma DrainHappens(u: Tables, i: nat, init: seq<LeaseEvent>, at: int, c: Call)
    requires Suspends(u, c, i) && c.now == at && Explains(init, u.deliveries[i]) && Allowed(init, Drained(at))
    requires init == [] ==> u.deliveries[i].state == Received
    ensures Observed(u, ApplyStep(c), i) == [Drained(at)]
  {
    CommitAppends(u, c);
  }

  lemma PresentableHappens(u: Tables, i: nat, init: seq<LeaseEvent>, e: LeaseEvent, id: string, ctx: Context, s: Step)
    requires UniqueIds(u) && i < |u.deliveries| && u.deliveries[i].publicId == id && Patterns.PublicId(id)
    requires ctx.Sees(u.deliveries[i].organization)
    requires Explains(init, u.deliveries[i]) && Allowed(init, e) && Presentable(e)
    requires init == [] ==> u.deliveries[i].state == Received
    requires match e
      case Taken(token, at) => s == ClaimStep(Some(id), token, ctx, at)
      case Ended(token, ok, at) => s == FinishStep(Some(id), token, Some(ok), None, ctx, at)
      case Drained(_) => false
    ensures Observed(u, s, i) == [e]
  {
    assert FindPublic(u.deliveries, Some(id)) == Some(i);
    assert FindVisible(u.deliveries, Some(id), ctx) == Some(i);
  }
}
