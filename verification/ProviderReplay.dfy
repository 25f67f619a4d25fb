/** Redeliveries: running a list of webhook calls equals running it with every repeated delivery id
    removed, and exactly when. */
module ProviderReplay {
  import opened Sql
  import opened ProviderTables
  import opened ProviderRuns

  /** Some call of `steps` carries delivery id `id`. */
  predicate Seen(steps: seq<Step>, id: Option<string>) {
    steps != [] &&
    (Seen(steps[..|steps| - 1], id) || (steps[|steps| - 1].ApplyStep? && steps[|steps| - 1].call.deliveryId == id))
  }

  /** The run without the calls whose delivery id an earlier call already carried. */
  function Dedupe(steps: seq<Step>): (r: seq<Step>)
    ensures forall s :: s in r ==> s in steps
  {
    if steps == [] then []
    else
      var init, s := steps[..|steps| - 1], steps[|steps| - 1];
      if s.ApplyStep? && Seen(init, s.call.deliveryId) then Dedupe(init) else Dedupe(init) + [s]
  }

  /** A call that will be recorded, as the tables stand, unless its id already is: it passes validation,
      names a known installation with an active member, and fills every NOT NULL column. */
  predicate Acceptable(u: Tables, c: Call) {
    !Rejected(c) && Known(u, c) && Complete(u.connections[c.installationId.value].status, c)
  }

  predicate IsRecorded(t: Tables, id: Option<string>) {
    FindExternal(t.deliveries, id).Some?
  }

  /** The public ids of `c` are used neither in the tables nor by the calls of `steps`. */
  ghost predicate FreshCall(t: Tables, steps: seq<Step>, c: Call) {
    && FreshIds(t, c)
    && forall s :: s in steps && s.ApplyStep? ==>
         (c.publicId == None || s.call.publicId != c.publicId) &&
         (c.eventId == None || s.call.eventId != c.eventId) && (c.auditId == None || s.call.auditId != c.auditId)
  }

  /** Public ids are generated once. */
  ghost predicate Generated(t: Tables, steps: seq<Step>) {
    steps == [] ||
    var init, s := steps[..|steps| - 1], steps[|steps| - 1];
    Generated(t, init) && (s.ApplyStep? ==> FreshCall(t, init, s.call))
  }

  /** Some call with delivery id `id` was acceptable when it was made. */
  predicate Offered(t: Tables, steps: seq<Step>, id: Option<string>) {
    steps != [] &&
    var init, s := steps[..|steps| - 1], steps[|steps| - 1];
    Offered(t, init, id) || (s.ApplyStep? && s.call.deliveryId == id && Acceptable(Run(t, init), s.call))
  }

  /** The first call with delivery id `id` was acceptable when it was made. */
  predicate FirstAcceptable(t: Tables, steps: seq<Step>, id: Option<string>) {
    steps != [] &&
    var init, s := steps[..|steps| - 1], steps[|steps| - 1];
    if Seen(init, id) then FirstAcceptable(t, init, id)
    else s.ApplyStep? && s.call.deliveryId == id && Acceptable(Run(t, init), s.call)
  }

  /** The condition: for every delivery id that is not recorded yet, if any call for it is acceptable
      when it is made then already the first one is. */
  ghost predicate FirstCallDecides(t: Tables, steps: seq<Step>) {
    forall id :: !IsRecorded(t, id) && Offered(t, steps, id) ==> FirstAcceptable(t, steps, id)
  }

  // ----- Recorded exactly when acceptable

  /** The ids in `u` come from `t` or from a call of `steps`. */
  ghost predicate IdsFrom(t: Tables, steps: seq<Step>, u: Tables) {
    && (forall i :: 0 <= i < |u.deliveries| ==>
          || (i < |t.deliveries| && u.deliveries[i].publicId == t.deliveries[i].publicId)
          || exists s :: s in steps && s.ApplyStep? && s.call.publicId == Some(u.deliveries[i].publicId))
    && (forall i :: 0 <= i < |u.outbox| ==>
          || (i < |t.outbox| && u.outbox[i].publicId == t.outbox[i].publicId)
          || exists s :: s in steps && s.ApplyStep? && s.call.eventId == Some(u.outbox[i].publicId))
    && (forall i :: 0 <= i < |u.audit| ==>
          || (i < |t.audit| && u.audit[i].publicId == t.audit[i].publicId)
          || exists s :: s in steps && s.ApplyStep? && s.call.auditId == Some(u.audit[i].publicId))
  }

  lemma IdsFromMonotone(t: Tables, steps: seq<Step>, s: Step, u: Tables)
    requires IdsFrom(t, steps, u)
    ensures IdsFrom(t, steps + [s], u)
  {
    assert forall x :: x in steps ==> x in steps + [s];
  }

  lemma CommitIdsFrom(t: Tables, steps: seq<Step>, u: Tables, c: Call)
    requires IdsFrom(t, steps, u) && ApplyStep(c) in steps && Commits(u, c)
    ensures IdsFrom(t, steps, Committed(u, c))
  {
    CommitAppends(u, c);
    var v, n := Committed(u, c), |u.deliveries|;
    assert v.deliveries[n].publicId == c.publicId.value;
    forall i | 0 <= i < n ensures v.deliveries[i].publicId == u.deliveries[i].publicId {
    }
  }

  lemma SameIdsFrom(t: Tables, steps: seq<Step>, u: Tables, v: Tables)
    requires IdsFrom(t, steps, u) && |v.deliveries| == |u.deliveries| && v.outbox == u.outbox && v.audit == u.audit
    requires forall i :: 0 <= i < |u.deliveries| ==> v.deliveries[i].publicId == u.deliveries[i].publicId
    ensures IdsFrom(t, steps, v)
  {
    forall i | 0 <= i < |v.deliveries|
      ensures
        || (i < |t.deliveries| && v.deliveries[i].publicId == t.deliveries[i].publicId)
        || exists s :: s in steps && s.ApplyStep? && s.call.publicId == Some(v.deliveries[i].publicId)
    {
      assert v.deliveries[i].publicId == u.deliveries[i].publicId;
    }
  }

  lemma OthersKeepIds(u: Tables, s: Step)
    requires s.ApplyStep? ==> !Commits(u, s.call)
    ensures |Next(u, s).deliveries| == |u.deliveries| && Next(u, s).outbox == u.outbox && Next(u, s).audit == u.audit
    ensures forall i :: 0 <= i < |u.deliveries| ==> SameWebhook(Next(u, s).deliveries[i], u.deliveries[i])
  {
  }

  lemma StepIdsFrom(t: Tables, steps: seq<Step>, u: Tables, s: Step)
    requires IdsFrom(t, steps, u) && s in steps
    ensures IdsFrom(t, steps, Next(u, s))
  {
    if s.ApplyStep? && Commits(u, s.call) {
      CommitIdsFrom(t, steps, u, s.call);
    } else {
      OthersKeepIds(u, s);
      SameIdsFrom(t, steps, u, Next(u, s));
    }
  }

  lemma {:induction false} RunIdsFrom(t: Tables, steps: seq<Step>)
    ensures IdsFrom(t, steps, Run(t, steps))
  {
    if steps != [] {
      var init, s := steps[..|steps| - 1], steps[|steps| - 1];
      RunIdsFrom(t, init);
      IdsFromMonotone(t, init, s, Run(t, init));
      assert init + [s] == steps;
      StepIdsFrom(t, steps, Run(t, init), s);
    }
  }

  lemma FreshForRun(t: Tables, steps: seq<Step>, c: Call)
    requires FreshCall(t, steps, c) && c.publicId.Some? && c.eventId.Some? && c.auditId.Some?
    ensures FreshIds(Run(t, steps), c)
  {
    RunIdsFrom(t, steps);
  }

  /** A call commits exactly when it is acceptable and its id is new. */
  lemma CommitsIff(t: Tables, steps: seq<Step>, c: Call)
    requires Generated(t, steps) && FreshCall(t, steps, c)
    ensures Commits(Run(t, steps), c) <==> Acceptable(Run(t, steps), c) && !IsRecorded(Run(t, steps), c.deliveryId)
  {
    if Acceptable(Run(t, steps), c) { FreshForRun(t, steps, c); }
  }

  lemma CommitRecords(u: Tables, c: Call, id: Option<string>)
    requires Commits(u, c)
    ensures IsRecorded(Committed(u, c), id) <==> IsRecorded(u, id) || c.deliveryId == id
  {
    CommitAppends(u, c);
    var v, n := Committed(u, c), |u.deliveries|;
    assert Some(v.deliveries[n].externalId) == c.deliveryId;
    assert forall i :: 0 <= i < n ==> v.deliveries[i].externalId == u.deliveries[i].externalId;
  }

  lemma OthersRecordNothing(u: Tables, s: Step, id: Option<string>)
    requires s.ApplyStep? ==> !Commits(u, s.call)
    ensures IsRecorded(Next(u, s), id) <==> IsRecorded(u, id)
  {
    OthersKeepIds(u, s);
  }

  /** A step records no id but that of its own call, and forgets none. */
  lemma StepRecords(u: Tables, s: Step, id: Option<string>)
    ensures IsRecorded(Next(u, s), id) <==>
      IsRecorded(u, id) || (s.ApplyStep? && Commits(u, s.call) && s.call.deliveryId == id)
  {
    if s.ApplyStep? && Commits(u, s.call) {
      CommitRecords(u, s.call, id);
    } else {
      OthersRecordNothing(u, s, id);
    }
  }

  /** An id is recorded at the end exactly when it was before or some call for it was acceptable. */
  lemma {:induction false} RecordedIff(t: Tables, steps: seq<Step>, id: Option<string>)
    requires Generated(t, steps)
    ensures IsRecorded(Run(t, steps), id) <==> IsRecorded(t, id) || Offered(t, steps, id)
  {
    if steps != [] {
      var init, s := steps[..|steps| - 1], steps[|steps| - 1];
      RecordedIff(t, init, id);
      StepRecords(Run(t, init), s, id);
      if s.ApplyStep? { CommitsIff(t, init, s.call); }
    }
  }

  // ----- Removing repeats

  lemma {:induction false} OfferedIsSeen(t: Tables, steps: seq<Step>, id: Option<string>)
    requires Offered(t, steps, id)
    ensures Seen(steps, id)
  {
    var init := steps[..|steps| - 1];
    if Offered(t, init, id) { OfferedIsSeen(t, init, id); }
  }

  lemma {:induction false} FirstIsOffered(t: Tables, steps: seq<Step>, id: Option<string>)
    requires FirstAcceptable(t, steps, id)
    ensures Offered(t, steps, id)
  {
    var init := steps[..|steps| - 1];
    if Seen(init, id) { FirstIsOffered(t, init, id); }
  }

  lemma FirstCallDecidesPrefix(t: Tables, steps: seq<Step>)
    requires steps != [] && FirstCallDecides(t, steps)
    ensures FirstCallDecides(t, steps[..|steps| - 1])
  {
    var init := steps[..|steps| - 1];
    forall id | !IsRecorded(t, id) && Offered(t, init, id) ensures FirstAcceptable(t, init, id) {
      assert Offered(t, steps, id);
      OfferedIsSeen(t, init, id);
    }
  }

  /** A repeated call changes nothing once the first call for its id decided. */
  lemma RepeatIsSilent(t: Tables, init: seq<Step>, c: Call)
    requires Generated(t, init) && FreshCall(t, init, c)
    requires Acceptable(Run(t, init), c) && !IsRecorded(t, c.deliveryId) ==> FirstAcceptable(t, init, c.deliveryId)
    ensures Apply(Run(t, init), c) == Run(t, init)
  {
    CommitsIff(t, init, c);
    RecordedIff(t, init, c.deliveryId);
    if FirstAcceptable(t, init, c.deliveryId) { FirstIsOffered(t, init, c.deliveryId); }
  }

  /** If the first call for every id decides, removing repeats changes no table. */
  lemma {:induction false} DedupeKeepsRun(t: Tables, steps: seq<Step>)
    requires Generated(t, steps) && FirstCallDecides(t, steps)
    ensures Run(t, Dedupe(steps)) == Run(t, steps)
  {
    if steps != [] {
      var init, s := steps[..|steps| - 1], steps[|steps| - 1];
      FirstCallDecidesPrefix(t, steps);
      DedupeKeepsRun(t, init);
      if s.ApplyStep? && Seen(init, s.call.deliveryId) {
        assert Acceptable(Run(t, init), s.call) ==> Offered(t, steps, s.call.deliveryId);
        RepeatIsSilent(t, init, s.call);
      } else {
        var r := Dedupe(init) + [s];
        assert r[..|r| - 1] == Dedupe(init);
      }
    }
  }

  lemma {:induction false} RecordedStays(t: Tables, steps: seq<Step>, id: Option<string>)
    requires IsRecorded(t, id)
    ensures IsRecorded(Run(t, steps), id)
  {
    if steps != [] {
      RecordedStays(t, steps[..|steps| - 1], id);
      StepRecords(Run(t, steps[..|steps| - 1]), steps[|steps| - 1], id);
    }
  }

  /** The delivery that is lost when the step that breaks the condition is dropped as a repeat. */
  lemma LateCallIsLost(t: Tables, init: seq<Step>, s: Step) returns (id: Option<string>)
    requires Generated(t, init + [s]) && FirstCallDecides(t, init) && !FirstCallDecides(t, init + [s])
    ensures s.ApplyStep? && s.call.deliveryId == id && Seen(init, id)
    ensures Commits(Run(t, init), s.call) && !IsRecorded(Run(t, init), id)
  {
    var steps := init + [s];
    assert steps[..|steps| - 1] == init;
    id :| !IsRecorded(t, id) && Offered(t, steps, id) && !FirstAcceptable(t, steps, id);
    if Offered(t, init, id) { OfferedIsSeen(t, init, id); }
    RecordedIff(t, init, id);
    CommitsIff(t, init, s.call);
  }

  /** If the first call for some id does not decide, removing repeats loses a delivery. */
  lemma {:induction false} DedupeLosesDelivery(t: Tables, steps: seq<Step>) returns (id: Option<string>)
    requires Generated(t, steps) && !FirstCallDecides(t, steps)
    ensures IsRecorded(Run(t, steps), id) && !IsRecorded(Run(t, Dedupe(steps)), id)
  {
    var init, s := steps[..|steps| - 1], steps[|steps| - 1];
    assert steps == init + [s];
    if FirstCallDecides(t, init) {
      id := LateCallIsLost(t, init, s);
      StepRecords(Run(t, init), s, id);
      DedupeKeepsRun(t, init);
    } else {
      id := DedupeLosesDelivery(t, init);
      StepRecords(Run(t, init), s, id);
      LostIsSeen(t, init, id);
      if !(s.ApplyStep? && Seen(init, s.call.deliveryId)) {
        var r := Dedupe(init) + [s];
        assert r[..|r| - 1] == Dedupe(init);
        StepRecords(Run(t, Dedupe(init)), s, id);
      }
    }
  }

  lemma LostIsSeen(t: Tables, steps: seq<Step>, id: Option<string>)
    requires Generated(t, steps) && IsRecorded(Run(t, steps), id) && !IsRecorded(Run(t, Dedupe(steps)), id)
    ensures Seen(steps, id)
  {
    RecordedIff(t, steps, id);
    if IsRecorded(t, id) {
      RecordedStays(t, Dedupe(steps), id);
    } else {
      OfferedIsSeen(t, steps, id);
    }
  }

  /** Replay refinement. A run of calls interleaved with claims, finishes, connections and bindings ends in
      exactly the tables of the run without repeated delivery ids if and only if the first call for every
      id decides. */
  lemma ReplayRefinement(t: Tables, steps: seq<Step>)
    requires Generated(t, steps)
    ensures Run(t, Dedupe(steps)) == Run(t, steps) <==> FirstCallDecides(t, steps)
  {
    if FirstCallDecides(t, steps) {
      DedupeKeepsRun(t, steps);
    } else {
      var id := DedupeLosesDelivery(t, steps);
    }
  }

  /** Every call was acceptable when it was made. */
  predicate AllAcceptable(t: Tables, steps: seq<Step>) {
    steps == [] ||
    var init, s := steps[..|steps| - 1], steps[|steps| - 1];
    AllAcceptable(t, init) && (s.ApplyStep? ==> Acceptable(Run(t, init), s.call))
  }

  lemma {:induction false} AcceptableFirst(t: Tables, steps: seq<Step>, id: Option<string>)
    requires AllAcceptable(t, steps) && Seen(steps, id)
    ensures FirstAcceptable(t, steps, id) && Offered(t, steps, id)
  {
    var init := steps[..|steps| - 1];
    if Seen(init, id) { AcceptableFirst(t, init, id); }
  }

  /** In particular, a sender whose every call is acceptable may repeat itself freely, and the tables
      hold one delivery, one outbox row and one audit row per distinct id. */
  lemma AcceptableCallsMayRepeat(t: Tables, steps: seq<Step>)
    requires Fresh(t) && Generated(t, steps) && AllAcceptable(t, steps)
    ensures Run(t, Dedupe(steps)) == Run(t, steps)
    ensures |Run(t, steps).outbox| == |Run(t, steps).deliveries| == |Run(t, steps).audit|
    ensures forall id :: Seen(steps, id) <==> IsRecorded(Run(t, steps), id)
  {
    forall id | Offered(t, steps, id) ensures FirstAcceptable(t, steps, id) {
      OfferedIsSeen(t, steps, id);
      AcceptableFirst(t, steps, id);
    }
    ReplayRefinement(t, steps);
    RunKeepsInv(t, steps);
    forall id ensures Seen(steps, id) <==> IsRecorded(Run(t, steps), id) {
      RecordedIff(t, steps, id);
      if Seen(steps, id) { AcceptableFirst(t, steps, id); }
      if Offered(t, steps, id) { OfferedIsSeen(t, steps, id); }
    }
  }
}
