/** Concrete runs that show where the promises of the provider functions stop. */
module ProviderExamples {
  import opened Sql
  import opened ProviderTables
  import opened ProviderRuns
  import opened LeaseHistory
  import opened ProviderReplay
  import Patterns
  import Sorting

  function Repeat(c: char, n: nat): (s: string)
    ensures |s| == n && forall i :: 0 <= i < n ==> s[i] == c
  {
    seq(n, i => c)
  }

  /** A public id; different digits give different ids. */
  function SampleId(digit: char): string {
    "evt_" + Repeat(digit, 36)
  }

  /** A push to a known installation, recorded under ids made of `digit`. */
  function SamplePush(digit: char, now: int): Call {
    Call(Some("1"), Some("delivery"), Some(Push), None, Some("sha256:" + Repeat('0', 64)), Some("a/b"),
         Some("refs/heads/main"), Some(Repeat('0', 40)), None, None, Some(false), Some(false), Some(ToReceived), None,
         None, None, None, Some(NoChange), None, Some(SampleId(digit)), Some(SampleId(digit)), Some(SampleId(digit)),
         Some("req_" + Repeat('0', 32)), Some("actor"), now)
  }

  function SampleTables(): Tables {
    Tables(map["1" := Connection(1, Active, "owner", None, true, [], None, None, 0)], [], [], [], [])
  }

  lemma SampleIdFits(digit: char)
    requires Patterns.Digit(digit)
    ensures Patterns.PublicId(SampleId(digit))
  {
    var id := SampleId(digit);
    assert id[|id| - 37] == '_' && id[..|id| - 37] == "evt" && id[|id| - 36..] == Repeat(digit, 36);
  }

  lemma SampleTextsFit()
    ensures Patterns.Digest("sha256:" + Repeat('0', 64)) && Patterns.RequestId("req_" + Repeat('0', 32))
    ensures Patterns.Repository("a/b")
  {
    var digest, request := "sha256:" + Repeat('0', 64), "req_" + Repeat('0', 32);
    assert digest[7..] == Repeat('0', 64) && digest[..7] == "sha256:";
    assert request[4..] == Repeat('0', 32) && request[..4] == "req_";
    assert "a/b"[1] == '/' && "a/b"[2..] == "b" && "a/b"[1..1] == "";
  }

  lemma SamplePushAcceptable(digit: char, now: int)
    requires Patterns.Digit(digit)
    ensures Acceptable(SampleTables(), SamplePush(digit, now))
  {
    SampleIdFits(digit);
    SampleTextsFit();
    assert Patterns.Token("delivery");
    assert !BadCommon(SamplePush(digit, now));
  }

  lemma RunOne(t: Tables, s: Step)
    ensures Run(t, [s]) == Next(t, s)
  {
    assert [s][..0] == [] && Run(t, [s][..0]) == t;
  }

  lemma TwoCallsGenerated(t: Tables, a: Call, b: Call)
    requires FreshIds(t, a) && FreshIds(t, b)
    requires a.publicId != b.publicId && a.eventId != b.eventId && a.auditId != b.auditId
    ensures Generated(t, [ApplyStep(a), ApplyStep(b)])
  {
    var steps := [ApplyStep(a), ApplyStep(b)];
    var one := steps[..1];
    assert one == [ApplyStep(a)] && one[..0] == [] && Generated(t, one[..0]);
    assert Generated(t, one);
  }

  /** The same push twice, first while the organization has no active member: that call is turned away, the
      second is recorded, and dropping the repeat would lose it. */
  lemma UnacceptableFirstCallMatters(now: int)
    ensures var t := SampleTables();
      var early, again := SamplePush('0', now).(actor := None), SamplePush('1', now);
      var steps := [ApplyStep(early), ApplyStep(again)];
      Fresh(t) && Generated(t, steps) && Run(t, Dedupe(steps)) != Run(t, steps)
  {
    var t, early, again := SampleTables(), SamplePush('0', now).(actor := None), SamplePush('1', now);
    var steps, id := [ApplyStep(early), ApplyStep(again)], again.deliveryId;
    SamplePushAcceptable('1', now);
    assert SampleId('0')[4] != SampleId('1')[4];
    TwoCallsGenerated(t, early, again);
    assert steps[..1] == [ApplyStep(early)] && steps[..1][..0] == [];
    assert Run(t, steps[..1]) == t by { RunOne(t, ApplyStep(early)); }
    assert Seen(steps[..1], id) && !FirstAcceptable(t, steps[..1], id) && Offered(t, steps, id);
    ReplayRefinement(t, steps);
  }

  /** A claim without a token is granted on a reachable delivery and leaves it processing with no token. */
  lemma TokenlessClaimIsGranted(now: int)
    ensures var t, push := SampleTables(), SamplePush('0', now);
      var recorded := Run(t, [ApplyStep(push)]);
      var claimed := Claim(recorded, push.publicId, None, Context(Some(1), {1}), now);
      && Fresh(t) && AllWellLeased(recorded)
      && ClaimResultFor(recorded, push.publicId, None, Context(Some(1), {1}), now) == Claimed
      && !AllWellLeased(claimed)
  {
    var t, push := SampleTables(), SamplePush('0', now);
    var steps, ctx := [ApplyStep(push)], Context(Some(1), {1});
    SamplePushAcceptable('0', now);
    RunOne(t, ApplyStep(push));
    LeasesStayComplete(t, steps);
    var recorded := Apply(t, push);
    assert |recorded.deliveries| == 1 && recorded.deliveries[0].state == Received;
    ClaimKeepsLeases(recorded, push.publicId, None, ctx, now);
  }

  /** A push that suspends its own connection is told there is work although its row is put aside at once. The
      webhook handler sets a connection status on installation events only, so it never makes such a call. */
  lemma SuspendingPushIsMisled(now: int)
    ensures var t, push := SampleTables(), SamplePush('0', now).(nextStatus := Some(ToSuspended));
      && Commits(t, push) && ApplyOutcome(t, push).Recorded? && ApplyOutcome(t, push).workPending == Some(true)
      && Apply(t, push).deliveries[0].state == Ignored
  {
    var t, push := SampleTables(), SamplePush('0', now).(nextStatus := Some(ToSuspended));
    SamplePushAcceptable('0', now);
    assert !BadCommon(SamplePush('0', now)) && !Rejected(push);
    assert Commits(t, push);
    CommitAppends(t, push);
  }

  /** A change of the repositories of a known installation, recorded under ids made of `digit`. */
  function SampleChange(digit: char, mode: Mode, names: Names, now: int): Call {
    SamplePush(digit, now).(
      deliveryId := Some("delivery" + [digit]), event := Some(InstallationRepositories),
      action := Some(if mode == Add then Added else Removed), repository := None, gitRef := None, headCommit := None,
      state := Some(ToProcessed), selection := Some(SelectSome), mode := Some(mode), names := Some(Array(names)))
  }

  lemma SampleChangeAcceptable(t: Tables, digit: char, mode: Mode, names: Names, now: int)
    requires Patterns.Digit(digit) && (mode == Add || mode == Remove) && "1" in t.connections
    requires forall i :: 0 <= i < |names| ==> !BadRepository(names[i])
    ensures Acceptable(t, SampleChange(digit, mode, names, now))
  {
    SampleIdFits(digit);
    SampleTextsFit();
    assert Patterns.Token("delivery" + [digit]);
    assert GivenNames(SampleChange(digit, mode, names, now)) == names;
    assert !BadCommon(SampleChange(digit, mode, names, now));
  }

  /** One delivery is recorded, under ids made of '0', and the list of names holds a JSON null only. */
  ghost predicate HoldsNull(u: Tables) {
    && "1" in u.connections && u.connections["1"].repositories == [None]
    && |u.deliveries| == |u.outbox| == |u.audit| == 1
    && u.deliveries[0].externalId == "delivery0" && u.deliveries[0].publicId == SampleId('0')
    && u.outbox[0].publicId == SampleId('0') && u.audit[0].publicId == SampleId('0')
  }

  lemma NullNameLists()
    ensures NextNames([], Some(Add), [None]) == [None]
    ensures NextNames([None], Some(Remove), [Some("a/b")]) == []
  {
    var none: Names, given: Names := [], [None];
    assert none + given == given && given[..0] == none;
    assert Sorting.Distinct(given) == given && Sorting.Sort(NameBelow, given) == given;
    assert Without(given, [Some("a/b")]) == [];
  }

  lemma FirstCommits(t: Tables, c: Call)
    requires Acceptable(t, c) && t.deliveries == [] && t.outbox == [] && t.audit == []
    ensures Commits(t, c)
  {
  }

  lemma FirstStoresNull(t: Tables, c: Call)
    requires Commits(t, c) && !Deactivates(c) && t.deliveries == [] && t.outbox == [] && t.audit == []
    requires c.installationId == Some("1") && t.connections["1"].repositories == []
    requires c.mode == Some(Add) && c.names == Some(Array([None])) && c.deliveryId == Some("delivery0")
    requires c.publicId == c.eventId == c.auditId == Some(SampleId('0'))
    ensures HoldsNull(Committed(t, c))
  {
    NullNameLists();
  }

  lemma NullNameIsStored(now: int)
    ensures var t, add := SampleTables(), SampleChange('0', Add, [None], now);
      Commits(t, add) && HoldsNull(Committed(t, add))
  {
    var t, add := SampleTables(), SampleChange('0', Add, [None], now);
    SampleChangeAcceptable(t, '0', Add, [None], now);
    FirstCommits(t, add);
    assert "delivery" + ['0'] == "delivery0";
    FirstStoresNull(t, add);
  }

  lemma SecondChangeIsNew(u: Tables, mode: Mode, names: Names, now: int)
    requires HoldsNull(u)
    ensures var c := SampleChange('1', mode, names, now);
      FreshIds(u, c) && FindExternal(u.deliveries, c.deliveryId) == None
  {
    assert SampleId('0')[4] != SampleId('1')[4];
    assert "delivery0"[8] != ("delivery" + ['1'])[8];
  }

  lemma NullNameIsDropped(u: Tables, now: int)
    requires HoldsNull(u)
    ensures var remove := SampleChange('1', Remove, [Some("a/b")], now);
      && Commits(u, remove) && "1" in Committed(u, remove).connections
      && Committed(u, remove).connections["1"].repositories == []
  {
    var remove := SampleChange('1', Remove, [Some("a/b")], now);
    assert Commits(u, remove) by {
      assert !BadRepository(Some("a/b")) by { SampleTextsFit(); }
      SampleChangeAcceptable(u, '1', Remove, [Some("a/b")], now);
      SecondChangeIsNew(u, Remove, [Some("a/b")], now);
    }
    assert Committed(u, remove).connections["1"].repositories == [] by { NullNameLists(); }
  }

  /** A JSON null among the added names is stored, and removing another name then takes it away as well. The webhook
      handler checks every name it passes on, so it never makes such a call. */
  lemma NullNameIsStoredAndDropped(now: int)
    ensures var t, add := SampleTables(), SampleChange('0', Add, [None], now);
      var u, remove := Apply(t, add), SampleChange('1', Remove, [Some("a/b")], now);
      && Commits(t, add) && "1" in u.connections && u.connections["1"].repositories == [None]
      && Commits(u, remove) && "1" in Apply(u, remove).connections
      && Apply(u, remove).connections["1"].repositories == []
  {
    NullNameIsStored(now);
    NullNameIsDropped(Apply(SampleTables(), SampleChange('0', Add, [None], now)), now);
  }
}
