/** What runs promise about connections, bindings and the hints given to webhook senders. */
module ProviderEffects {
  import opened Sql
  import opened Sorting
  import opened ProviderTables
  import opened ProviderRuns
  import opened LeaseHistory
  import Patterns

  // ----- Deactivation drains

  ghost function LiveOn(t: Tables, key: string): set<nat> {
    set i: nat | i < |t.deliveries| && t.deliveries[i].connection == key && Live(t.deliveries[i].state)
  }

  predicate Inactive(t: Tables, key: string) {
    key in t.connections && t.connections[key].status != Active
  }

  /** The connection is inactive before every step. */
  predicate StaysInactive(t: Tables, steps: seq<Step>, key: string) {
    steps == [] ||
    (StaysInactive(t, steps[..|steps| - 1], key) && Inactive(Run(t, steps[..|steps| - 1]), key))
  }

  lemma InactiveGainsNothing(t: Tables, s: Step, key: string)
    requires Inactive(t, key)
    ensures LiveOn(Next(t, s), key) <= LiveOn(t, key)
  {
    if s.ApplyStep? {
      if Commits(t, s.call) { InactiveGainsNoDelivery(t, s.call, key); }
    } else {
      var u := Next(t, s);
      forall i | i in LiveOn(u, key) ensures i in LiveOn(t, key) {
      }
    }
  }

  lemma InactiveGainsNoDelivery(t: Tables, c: Call, key: string)
    requires Inactive(t, key) && Commits(t, c)
    ensures LiveOn(Committed(t, c), key) <= LiveOn(t, key)
  {
    var u, k := Committed(t, c), c.installationId.value;
    CommitAppends(t, c);
    WellFormedInsert(t.connections[k], k, c);
    forall i | i in LiveOn(u, key) ensures i in LiveOn(t, key) {
    }
  }

  lemma {:induction false} InactiveNeverGrows(t: Tables, steps: seq<Step>, key: string)
    requires StaysInactive(t, steps, key)
    ensures LiveOn(Run(t, steps), key) <= LiveOn(t, key)
  {
    if steps != [] {
      InactiveNeverGrows(t, steps[..|steps| - 1], key);
      InactiveGainsNothing(Run(t, steps[..|steps| - 1]), steps[|steps| - 1], key);
    }
  }

  lemma DeactivationKeepsLeasedOnly(t: Tables, c: Call)
    requires Commits(t, c) && Deactivates(c)
    ensures Inactive(Committed(t, c), c.installationId.value)
    ensures LiveOn(Committed(t, c), c.installationId.value) ==
      set i: nat | i < |t.deliveries| && t.deliveries[i].connection == c.installationId.value &&
        t.deliveries[i].state == Processing
  {
    var key := c.installationId.value;
    var k := t.connections[key];
    CommitAppends(t, c);
    WellFormedInsert(k, key, c);
    var u := Committed(t, c);
    forall i: nat ensures i in LiveOn(u, key) <==>
      i < |t.deliveries| && t.deliveries[i].connection == key && t.deliveries[i].state == Processing
    {
    }
  }

  /** After a suspension or revocation, and for as long as the connection stays inactive, the only work
      left alive on it is what was being processed at that moment. */
  lemma DeactivationDrains(t: Tables, c: Call, steps: seq<Step>)
    requires Commits(t, c) && Deactivates(c)
    requires StaysInactive(Committed(t, c), steps, c.installationId.value)
    ensures forall i :: i in LiveOn(Run(Committed(t, c), steps), c.installationId.value) ==>
      i < |t.deliveries| && t.deliveries[i].state == Processing
  {
    DeactivationKeepsLeasedOnly(t, c);
    InactiveNeverGrows(Committed(t, c), steps, c.installationId.value);
  }

  // ----- The hint given to a redelivery

  lemma HintForRow(status: ConnectionStatus, d: Delivery, token: Option<string>, now: int)
    requires Stamped(d) && !Holds(d, token)
    ensures PendingHint(status, d, Some(d.digest), now) == Some(status == Active && MayClaim(d, token, now))
  {
  }

  lemma ClaimOnRow(t: Tables, i: nat, token: Option<string>, ctx: Context, now: int)
    requires Inv(t) && i < |t.deliveries| && token.Some? && Patterns.Token(token.value)
    ensures ClaimResultFor(t, Some(t.deliveries[i].publicId), token, ctx, now) ==
      var d := t.deliveries[i];
      if !ctx.Sees(d.organization) then Unknown
      else if MayClaim(d, token, now) then Claimed
      else if Final(d.state) then AlreadyComplete else Busy
  {
    assert Named(t.deliveries[i]);
    assert FindPublic(t.deliveries, Some(t.deliveries[i].publicId)) == Some(i);
  }

  /** For an identical redelivery, the hint says true exactly when the connection is active and a claim
      by a token that does not hold the lease would be granted at that instant to a member of the
      delivery's own organization; under an active connection the alternative answers are `busy` and
      `complete`. A claim made in another organization's context finds nothing. */
  lemma HintAgreesWithLease(t: Tables, c: Call, i: nat, token: Option<string>, ctx: Context)
    requires Inv(t) && !Rejected(c) && Known(t, c) && FindExternal(t.deliveries, c.deliveryId) == Some(i)
    requires c.digest == Some(t.deliveries[i].digest)
    requires token.Some? && Patterns.Token(token.value) && !Holds(t.deliveries[i], token)
    requires ctx.Sees(t.connections[c.installationId.value].organization)
    ensures var k := t.connections[c.installationId.value];
      var d := t.deliveries[i];
      var claim := ClaimResultFor(t, Some(d.publicId), token, ctx, c.now);
      && ApplyOutcome(t, c) == Repeated(true, d.publicId, k.organization, c.actor.value, ApplyOutcome(t, c).workPending)
      && ApplyOutcome(t, c).workPending.Some?
      && (d.organization == k.organization ==>
            && (ApplyOutcome(t, c).workPending == Some(true) <==> k.status == Active && claim == Claimed)
            && claim in {Claimed, Busy, AlreadyComplete})
      && (d.organization != k.organization ==> claim == Unknown)
      && (c.installationId == Some(d.connection) ==> d.organization == k.organization)
  {
    var d := t.deliveries[i];
    assert Stamped(d);
    HintForRow(t.connections[c.installationId.value].status, d, token, c.now);
    ClaimOnRow(t, i, token, ctx, c.now);
  }

  /** For a delivery recorded by this call, the hint says whether the stored row waits, except when the
      same call deactivates the connection: then the row is put aside although the hint says true. */
  lemma HintForNewDelivery(t: Tables, c: Call)
    requires Commits(t, c)
    ensures var row := Committed(t, c).deliveries[|t.deliveries|];
      var hinted := StateFor(t.connections[c.installationId.value].status, c) == Some(Received);
      && ApplyOutcome(t, c).Recorded? && ApplyOutcome(t, c).workPending == Some(hinted)
      && ((hinted <==> row.state == Received) <==> !(hinted && Deactivates(c)))
      && (hinted && Deactivates(c) ==> row.state == Ignored)
  {
    CommitAppends(t, c);
  }

  // ----- The repository list

  datatype ListChange = Replaced(names: Names) | Added(names: Names) | Removed(names: Names)

  /** The change a step makes to the list of one connection, if it makes one. */
  function Change(t: Tables, s: Step, key: string): seq<ListChange> {
    match s
    case ApplyStep(c) =>
      if !Commits(t, c) || c.installationId.value != key then []
      else (match c.mode
        case Some(Replace) => [Replaced(GivenNames(c))]
        case Some(Add) => [ListChange.Added(GivenNames(c))]
        case Some(Remove) => [ListChange.Removed(GivenNames(c))]
        case _ => [])
    case ConnectStep(k, organization, _, _, _, names, _) =>
      if k != key || key !in t.connections || t.connections[key].organization != organization then []
      else [Replaced(SortedNames(names))]
    case _ => []
  }

  function Changes(t: Tables, steps: seq<Step>, key: string): seq<ListChange> {
    if steps == [] then []
    else Changes(t, steps[..|steps| - 1], key) + Change(Run(t, steps[..|steps| - 1]), steps[|steps| - 1], key)
  }

  /** The reference: repositories as a set. A removal also drops JSON nulls. */
  ghost function Fold(names: set<Option<string>>, changes: seq<ListChange>): set<Option<string>> {
    if changes == [] then names
    else Effect(Fold(names, changes[..|changes| - 1]), changes[|changes| - 1])
  }

  ghost function Effect(names: set<Option<string>>, change: ListChange): set<Option<string>> {
    match change
    case Replaced(given) => Elements(given)
    case Added(given) => names + Elements(given)
    case Removed(given) => names - Elements(given) - {None}
  }

  lemma NameBelowIsTotal()
    ensures StrictTotal(NameBelow)
  {
    BelowIsTotal();
    assert StrictWeak(Below);
  }

  lemma WithoutNoRepeats(xs: Names, given: Names)
    requires NoRepeats(xs)
    ensures NoRepeats(Without(xs, given))
  {
    if xs != [] {
      WithoutNoRepeats(xs[1..], given);
      assert xs[0] !in xs[1..];
    }
  }

  lemma StrictNoRepeats(xs: Names)
    requires StrictlySorted(NameBelow, xs)
    ensures NoRepeats(xs)
  {
    NameBelowIsTotal();
    forall i, j | 0 <= i < j < |xs| ensures xs[i] != xs[j] {
      assert NameBelow(xs[i], xs[j]);
    }
  }

  /** A list installed by connecting an installation always meets the sortedness condition. */
  lemma ConnectedNamesSorted(names: seq<string>)
    ensures StrictlySorted(NameBelow, SortedNames(names))
  {
    NameBelowIsTotal();
    SortStrict(NameBelow, Distinct(AsNames(names)));
  }

  lemma FoldSnoc(names: set<Option<string>>, changes: seq<ListChange>, change: ListChange)
    ensures Fold(names, changes + [change]) == Effect(Fold(names, changes), change)
  {
    assert (changes + [change])[..|changes|] == changes;
  }

  lemma AddRefines(current: Names, given: Names)
    ensures Elements(NextNames(current, Some(Add), given)) == Elements(current) + Elements(given)
    ensures StrictlySorted(NameBelow, NextNames(current, Some(Add), given))
  {
    var union := Distinct(current + given);
    assert StrictlySorted(NameBelow, Sort(NameBelow, union)) by {
      NameBelowIsTotal();
      SortStrict(NameBelow, union);
    }
    SortElements(union);
  }

  lemma SortElements(xs: Names)
    ensures Elements(Sort(NameBelow, xs)) == Elements(xs)
  {
    var sorted := Sort(NameBelow, xs);
    SortPermutes(NameBelow, xs);
    forall x ensures x in Elements(sorted) <==> x in Elements(xs) {
      assert x in sorted <==> x in multiset(sorted);
      assert x in xs <==> x in multiset(xs);
    }
  }

  lemma RemoveRefines(current: Names, given: Names)
    ensures Elements(NextNames(current, Some(Remove), given)) == Elements(current) - Elements(given) - {None}
    ensures StrictlySorted(NameBelow, current) ==> StrictlySorted(NameBelow, NextNames(current, Some(Remove), given))
  {
    var kept := Without(current, given);
    SortElements(kept);
    if StrictlySorted(NameBelow, current) {
      assert StrictlySorted(NameBelow, Sort(NameBelow, kept)) by {
        StrictNoRepeats(current);
        WithoutNoRepeats(current, given);
        NameBelowIsTotal();
        SortStrict(NameBelow, kept);
      }
    }
  }

  /** Removal is set difference exactly when no JSON null is stored, or one is among the names removed. */
  lemma RemoveIsDifferenceIff(current: Names, given: Names)
    ensures Elements(NextNames(current, Some(Remove), given)) == Elements(current) - Elements(given) <==>
      None !in current || None in given
  {
    RemoveRefines(current, given);
    assert None in Elements(current) - Elements(given) <==> None in current && None !in given;
  }

  ghost predicate SortedIfReplaced(change: ListChange) {
    change.Replaced? ==> StrictlySorted(NameBelow, change.names)
  }

  ghost predicate SortedReplacements(changes: seq<ListChange>) {
    forall k :: 0 <= k < |changes| ==> SortedIfReplaced(changes[k])
  }

  /** `after` is `before` with the change applied, as a set and as a sorted list. */
  ghost predicate Refines(before: Names, change: ListChange, after: Names) {
    && Elements(after) == Effect(Elements(before), change)
    && (SortedIfReplaced(change) && StrictlySorted(NameBelow, before) ==> StrictlySorted(NameBelow, after))
  }

  lemma ListRefines(before: Names, mode: Option<Mode>, given: Names)
    ensures mode == Some(Replace) ==> Refines(before, Replaced(given), NextNames(before, mode, given))
    ensures mode == Some(Add) ==> Refines(before, ListChange.Added(given), NextNames(before, mode, given))
    ensures mode == Some(Remove) ==> Refines(before, ListChange.Removed(given), NextNames(before, mode, given))
  {
    match mode
    case Some(Add) => AddRefines(before, given);
    case Some(Remove) => RemoveRefines(before, given);
    case _ =>
  }

  lemma CommitRefinesNames(t: Tables, c: Call, key: string)
    requires key in t.connections && Commits(t, c)
    ensures key in Committed(t, c).connections && |Change(t, ApplyStep(c), key)| <= 1
    ensures Change(t, ApplyStep(c), key) == [] ==>
      Committed(t, c).connections[key].repositories == t.connections[key].repositories
    ensures Change(t, ApplyStep(c), key) != [] ==>
      Refines(t.connections[key].repositories, Change(t, ApplyStep(c), key)[0],
              Committed(t, c).connections[key].repositories)
  {
    ListRefines(t.connections[key].repositories, c.mode, GivenNames(c));
  }

  lemma StepRefinesNames(t: Tables, s: Step, key: string)
    requires key in t.connections
    ensures key in Next(t, s).connections && |Change(t, s, key)| <= 1
    ensures Change(t, s, key) == [] ==> Next(t, s).connections[key].repositories == t.connections[key].repositories
    ensures Change(t, s, key) != [] ==>
      Refines(t.connections[key].repositories, Change(t, s, key)[0], Next(t, s).connections[key].repositories)
  {
    if s.ApplyStep? && Commits(t, s.call) { CommitRefinesNames(t, s.call, key); }
  }

  lemma SortedReplacementsSplit(a: seq<ListChange>, b: seq<ListChange>)
    requires SortedReplacements(a + b)
    ensures SortedReplacements(a) && SortedReplacements(b)
  {
    assert forall k :: 0 <= k < |a| ==> (a + b)[k] == a[k];
    assert forall k :: 0 <= k < |b| ==> (a + b)[|a| + k] == b[k];
  }

  /** On every run the stored list is the set its updates fold to. */
  lemma {:induction false} RepositoriesRefineSet(t: Tables, steps: seq<Step>, key: string)
    requires key in t.connections
    ensures key in Run(t, steps).connections
    ensures Elements(Run(t, steps).connections[key].repositories) ==
      Fold(Elements(t.connections[key].repositories), Changes(t, steps, key))
  {
    if steps != [] {
      var init, s := steps[..|steps| - 1], steps[|steps| - 1];
      RepositoriesRefineSet(t, init, key);
      StepRefinesNames(Run(t, init), s, key);
      var earlier, change := Changes(t, init, key), Change(Run(t, init), s, key);
      if change == [] {
        assert earlier + change == earlier;
      } else {
        assert change == [change[0]];
        FoldSnoc(Elements(t.connections[key].repositories), earlier, change[0]);
      }
    }
  }

  /** The stored list stays strictly sorted, hence without repeats, as long as replacements are. */
  lemma {:induction false} RepositoriesStaySorted(t: Tables, steps: seq<Step>, key: string)
    requires key in t.connections && StrictlySorted(NameBelow, t.connections[key].repositories)
    requires SortedReplacements(Changes(t, steps, key))
    ensures key in Run(t, steps).connections
    ensures StrictlySorted(NameBelow, Run(t, steps).connections[key].repositories)
  {
    if steps != [] {
      var init, s := steps[..|steps| - 1], steps[|steps| - 1];
      var earlier, change := Changes(t, init, key), Change(Run(t, init), s, key);
      SortedReplacementsSplit(earlier, change);
      RepositoriesStaySorted(t, init, key);
      StepRefinesNames(Run(t, init), s, key);
      if change != [] { assert SortedIfReplaced(change[0]); }
    }
  }

  // ----- Binding generations

  /** A delivery detaches a binding at most once, and exactly when it removes the binding's repository
      or deactivates the connection of an automatic binding. */
  lemma DetachedAtMostOnce(b: Binding, key: string, c: Call)
    ensures UpdatedBinding(b, key, c) ==
      if b.connection == key &&
         ((c.mode == Some(Remove) && Some(b.repository) in GivenNames(c)) || (Deactivates(c) && b.automatic))
      then DetachedBinding(b, c.now) else b
  {
  }

  lemma {:induction false} GenerationsNeverDecrease(t: Tables, steps: seq<Step>, i: nat)
    requires i < |t.bindings|
    ensures |Run(t, steps).bindings| >= |t.bindings|
    ensures Run(t, steps).bindings[i].project == t.bindings[i].project
    ensures Run(t, steps).bindings[i].generation >= t.bindings[i].generation
    ensures Run(t, steps).bindings[i].generation == t.bindings[i].generation ==>
      Run(t, steps).bindings[i] == t.bindings[i]
  {
    if steps != [] {
      var init, s := steps[..|steps| - 1], steps[|steps| - 1];
      GenerationsNeverDecrease(t, init, i);
      var u := Run(t, init);
      if s.ApplyStep? && Commits(u, s.call) {
        DetachedAtMostOnce(u.bindings[i], s.call.installationId.value, s.call);
      }
    }
  }

  // ----- Retrying a busy delivery

  /** `retry_on Busy, wait: 30.seconds, attempts: 50`, in microseconds. */
  const BUSY_WAIT := 30 * 1_000_000
  const BUSY_ATTEMPTS := 50

  /** Nothing is observed of delivery `i` in the first `n` steps. */
  predicate Quiet(t: Tables, steps: seq<Step>, i: nat, n: nat)
    requires n <= |steps|
  {
    forall q :: 0 <= q < n ==> Observed(Run(t, steps[..q]), steps[q], i) == []
  }

  lemma UnobservedKeepsLease(t: Tables, s: Step, i: nat)
    requires UniqueIds(t) && i < |t.deliveries| && t.deliveries[i].state == Processing && Observed(t, s, i) == []
    ensures i < |Next(t, s).deliveries| && Next(t, s).deliveries[i].state == Processing
    ensures Next(t, s).deliveries[i].startedAt == t.deliveries[i].startedAt
  {
    StepEvolves(t, s, i);
  }

  lemma {:induction false} QuietKeepsLease(t: Tables, steps: seq<Step>, i: nat, n: nat)
    requires Inv(t) && i < |t.deliveries| && t.deliveries[i].state == Processing
    requires n <= |steps| && Quiet(t, steps, i, n)
    ensures var u := Run(t, steps[..n]);
      && i < |u.deliveries| && u.deliveries[i].state == Processing
      && u.deliveries[i].startedAt == t.deliveries[i].startedAt
  {
    if n > 0 {
      QuietKeepsLease(t, steps, i, n - 1);
      assert steps[..n][..n - 1] == steps[..n - 1];
      RunUnique(t, steps[..n - 1]);
      assert Observed(Run(t, steps[..n - 1]), steps[n - 1], i) == [];
      UnobservedKeepsLease(Run(t, steps[..n - 1]), steps[n - 1], i);
    }
  }

  ghost predicate Spaced(at: seq<int>) {
    forall k :: 0 < k < |at| ==> at[k] - at[k - 1] >= BUSY_WAIT
  }

  lemma {:induction false} SpacedGap(at: seq<int>, k: nat)
    requires Spaced(at) && k < |at|
    ensures at[k] - at[0] >= k * BUSY_WAIT
  {
    if k > 0 { SpacedGap(at, k - 1); }
  }

  lemma StaleClaimGranted(t: Tables, i: nat, since: int, token: Option<string>, ctx: Context, now: int)
    requires Inv(t) && i < |t.deliveries|
    requires t.deliveries[i].state == Processing && t.deliveries[i].startedAt == Some(since)
    requires ctx.Sees(t.deliveries[i].organization) && (token.Some? ==> Patterns.Token(token.value))
    requires since < now - LEASE_TIMEOUT
    ensures ClaimResultFor(t, Some(t.deliveries[i].publicId), token, ctx, now) == Claimed
  {
    assert Named(t.deliveries[i]);
    assert FindPublic(t.deliveries, Some(t.deliveries[i].publicId)) == Some(i);
  }

  /** Somebody's lease on delivery `i`, taken or last renewed at `since`, that only this job's claims could still
      change: `attempts` are the positions of those claims among the steps and `at` their times. */
  ghost predicate DeadLease(t: Tables, steps: seq<Step>, i: nat, since: int, token: Option<string>, ctx: Context,
                            attempts: seq<nat>, at: seq<int>) {
    && Inv(t) && i < |t.deliveries| && t.deliveries[i].state == Processing && t.deliveries[i].startedAt == Some(since)
    && ctx.Sees(t.deliveries[i].organization) && (token.Some? ==> Patterns.Token(token.value))
    && |attempts| == |at| && Spaced(at) && (at != [] ==> since <= at[0])
    && (forall a :: 0 <= a < |attempts| ==>
          attempts[a] < |steps| && steps[attempts[a]] == ClaimStep(Some(t.deliveries[i].publicId), token, ctx, at[a]))
    && (forall a, b :: 0 <= a < b < |attempts| ==> attempts[a] < attempts[b])
    && (forall q :: 0 <= q < |steps| && q !in attempts ==> Observed(Run(t, steps[..q]), steps[q], i) == [])
  }

  ghost predicate Granted(t: Tables, steps: seq<Step>, i: nat, token: Option<string>, ctx: Context, q: nat, now: int)
    requires i < |t.deliveries| && q <= |steps|
  {
    ClaimResultFor(Run(t, steps[..q]), Some(t.deliveries[i].publicId), token, ctx, now) == Claimed
  }

  lemma RefusalsAreQuiet(t: Tables, steps: seq<Step>, i: nat, since: int, token: Option<string>, ctx: Context,
                         attempts: seq<nat>, at: seq<int>, n: nat)
    requires DeadLease(t, steps, i, since, token, ctx, attempts, at) && n < |attempts|
    requires forall a :: 0 <= a < n ==> !Granted(t, steps, i, token, ctx, attempts[a], at[a])
    ensures forall q :: 0 <= q < attempts[n] ==> Observed(Run(t, steps[..q]), steps[q], i) == []
  {
    forall q | 0 <= q < attempts[n] ensures Observed(Run(t, steps[..q]), steps[q], i) == [] {
      if q in attempts {
        var a :| 0 <= a < |attempts| && attempts[a] == q;
        assert a < n;
        RefusedClaimUnobserved(Run(t, steps[..q]), i, Some(t.deliveries[i].publicId), token, ctx, at[a]);
      }
    }
  }

  /** Once forty-one attempts thirty seconds apart have been refused, the next is granted. */
  lemma FortySecondIsGranted(t: Tables, steps: seq<Step>, i: nat, since: int, token: Option<string>, ctx: Context,
                             attempts: seq<nat>, at: seq<int>)
    requires DeadLease(t, steps, i, since, token, ctx, attempts, at) && |attempts| >= 42
    requires forall a :: 0 <= a < 41 ==> !Granted(t, steps, i, token, ctx, attempts[a], at[a])
    ensures Granted(t, steps, i, token, ctx, attempts[41], at[41])
  {
    RefusalsAreQuiet(t, steps, i, since, token, ctx, attempts, at, 41);
    SpacedGap(at, 41);
    QuietLeaseGranted(t, steps, i, since, token, ctx, attempts[41], at[41]);
  }

  /** An attempt refused after refusals only is answered busy. */
  lemma RefusedIsBusy(t: Tables, steps: seq<Step>, i: nat, since: int, token: Option<string>, ctx: Context,
                      attempts: seq<nat>, at: seq<int>, n: nat)
    requires DeadLease(t, steps, i, since, token, ctx, attempts, at) && n < |attempts|
    requires forall a :: 0 <= a <= n ==> !Granted(t, steps, i, token, ctx, attempts[a], at[a])
    ensures var u := Run(t, steps[..attempts[n]]);
      && i < |u.deliveries| && u.deliveries[i].publicId == t.deliveries[i].publicId
      && u.deliveries[i].organization == t.deliveries[i].organization
      && ClaimResultFor(u, Some(t.deliveries[i].publicId), token, ctx, at[n]) == Busy
  {
    RefusalsAreQuiet(t, steps, i, since, token, ctx, attempts, at, n);
    QuietKeepsLease(t, steps, i, attempts[n]);
    RunKeepsInv(t, steps[..attempts[n]]);
    RunKeepsRows(t, steps[..attempts[n]]);
    BusyOnRow(Run(t, steps[..attempts[n]]), i, token, ctx, at[n]);
  }

  lemma BusyOnRow(t: Tables, i: nat, token: Option<string>, ctx: Context, now: int)
    requires Inv(t) && i < |t.deliveries| && t.deliveries[i].state == Processing
    requires ctx.Sees(t.deliveries[i].organization)
    requires token.Some? ==> Patterns.Token(token.value)
    requires ClaimResultFor(t, Some(t.deliveries[i].publicId), token, ctx, now) != Claimed
    ensures ClaimResultFor(t, Some(t.deliveries[i].publicId), token, ctx, now) == Busy
  {
    assert Named(t.deliveries[i]);
    assert FindPublic(t.deliveries, Some(t.deliveries[i].publicId)) == Some(i);
  }

  /** A job that keeps retrying against a dead lease is granted the delivery by its forty-second attempt, well
      inside its fifty: if every attempt so far was refused, at most forty-one were made, and each was answered busy. */
  lemma RetryOutlastsDeadLease(t: Tables, steps: seq<Step>, i: nat, since: int, token: Option<string>, ctx: Context,
                               attempts: seq<nat>, at: seq<int>)
    requires DeadLease(t, steps, i, since, token, ctx, attempts, at)
    ensures |attempts| >= 42 ==> exists a :: 0 <= a < 42 && Granted(t, steps, i, token, ctx, attempts[a], at[a])
    ensures (forall a :: 0 <= a < |attempts| ==> !Granted(t, steps, i, token, ctx, attempts[a], at[a])) ==>
      && |attempts| <= 41 < BUSY_ATTEMPTS
      && forall n :: 0 <= n < |attempts| ==>
           ClaimResultFor(Run(t, steps[..attempts[n]]), Some(t.deliveries[i].publicId), token, ctx, at[n]) == Busy
  {
    if forall a :: 0 <= a < |attempts| ==> !Granted(t, steps, i, token, ctx, attempts[a], at[a]) {
      forall n | 0 <= n < |attempts|
        ensures ClaimResultFor(Run(t, steps[..attempts[n]]), Some(t.deliveries[i].publicId), token, ctx, at[n]) == Busy
      {
        RefusedIsBusy(t, steps, i, since, token, ctx, attempts, at, n);
      }
    }
    if |attempts| >= 42 && forall a :: 0 <= a < 41 ==> !Granted(t, steps, i, token, ctx, attempts[a], at[a]) {
      FortySecondIsGranted(t, steps, i, since, token, ctx, attempts, at);
    }
  }

  lemma QuietLeaseGranted(t: Tables, steps: seq<Step>, i: nat, since: int, token: Option<string>, ctx: Context,
                          n: nat, now: int)
    requires Inv(t) && i < |t.deliveries|
    requires t.deliveries[i].state == Processing && t.deliveries[i].startedAt == Some(since)
    requires ctx.Sees(t.deliveries[i].organization) && (token.Some? ==> Patterns.Token(token.value))
    requires n <= |steps| && forall q :: 0 <= q < n ==> Observed(Run(t, steps[..q]), steps[q], i) == []
    requires since < now - LEASE_TIMEOUT
    ensures ClaimResultFor(Run(t, steps[..n]), Some(t.deliveries[i].publicId), token, ctx, now) == Claimed
  {
    QuietKeepsLease(t, steps, i, n);
    RunKeepsInv(t, steps[..n]);
    RunKeepsRows(t, steps[..n]);
    StaleClaimGranted(Run(t, steps[..n]), i, since, token, ctx, now);
  }

  lemma RefusedClaimUnobserved(t: Tables, i: nat, id: Option<string>, token: Option<string>, ctx: Context, now: int)
    requires ClaimResultFor(t, id, token, ctx, now) != Claimed
    ensures Observed(t, ClaimStep(id, token, ctx, now), i) == []
  {
  }

  /** Forty-one attempts would not do: thirty seconds apart, the first at the moment the lease was taken,
      all of them find the delivery busy. */
  lemma FortyOneAttemptsMayFail(t: Tables, i: nat, since: int, token: Option<string>, ctx: Context, k: nat)
    requires Inv(t) && i < |t.deliveries|
    requires t.deliveries[i].state == Processing && t.deliveries[i].startedAt == Some(since)
    requires ctx.Sees(t.deliveries[i].organization) && (token.Some? ==> Patterns.Token(token.value))
    requires !Holds(t.deliveries[i], token) && k < 41
    ensures ClaimResultFor(t, Some(t.deliveries[i].publicId), token, ctx, since + k * BUSY_WAIT) == Busy
  {
    assert Named(t.deliveries[i]);
    assert FindPublic(t.deliveries, Some(t.deliveries[i].publicId)) == Some(i);
  }
}
