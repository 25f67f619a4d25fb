/** The deployment state machine: how every promoted run ends, and how long a run can be. */
module Deployments {

  datatype State =
    | Created | Sourcing | Detecting | Queued | Building | Scanning | Publishing | ArtifactReady | Scheduling
    | Starting | Verifying | Ready | Promoted | Canceling | Canceled | Failed | Retrying

  /** `TRANSITIONS`, in the order it lists them. */
  function Targets(s: State): seq<State> {
    match s
    case Created => [Sourcing, Retrying, Canceling, Failed]
    case Sourcing => [Detecting, Retrying, Canceling, Failed]
    case Detecting => [Queued, Retrying, Canceling, Failed]
    case Queued => [Building, Retrying, Canceling, Failed]
    case Building => [Scanning, Retrying, Canceling, Failed]
    case Scanning => [Publishing, Retrying, Canceling, Failed]
    case Publishing => [ArtifactReady, Retrying, Canceling, Failed]
    case ArtifactReady => [Scheduling, Canceling, Failed]
    case Scheduling => [Starting, Canceling, Failed]
    case Starting => [Verifying, Canceling, Failed]
    case Verifying => [Ready, Canceling, Failed]
    case Ready => [Promoted]
    case Canceling => [Canceled, Failed]
    case Failed => [Retrying]
    case Retrying => [Sourcing, Detecting, Queued, Building, Canceling, Failed]
    case Promoted => []
    case Canceled => []
  }

  predicate CanTransitionTo(s: State, target: State) {
    target in Targets(s)
  }

  /** How far a deployment has come on its way to promotion. */
  function Stage(s: State): int {
    match s
    case Created => 0
    case Sourcing => 1
    case Detecting => 2
    case Queued => 3
    case Building => 4
    case Scanning => 5
    case Publishing => 6
    case ArtifactReady => 7
    case Scheduling => 8
    case Starting => 9
    case Verifying => 10
    case Ready => 11
    case Promoted => 12
    case _ => -1
  }

  /** The table in words: a deployment goes on to the next stage; until it is ready it can be canceled or fail; until
      there is an artifact, and after it failed, it can be retried; a retry resumes at one of the stages from sourcing
      to building, or is canceled or fails; a cancellation completes or fails. */
  predicate Foreseen(s: State, t: State) {
    || (Stage(s) >= 0 && Stage(t) == Stage(s) + 1)
    || (t == Canceling && (0 <= Stage(s) < 11 || s == Retrying))
    || (t == Failed && (0 <= Stage(s) < 11 || s == Retrying || s == Canceling))
    || (t == Retrying && (0 <= Stage(s) < 7 || s == Failed))
    || (s == Retrying && 1 <= Stage(t) <= 4)
    || (s == Canceling && t == Canceled)
  }

  lemma OnlyForeseen(s: State, i: nat)
    requires i < |Targets(s)|
    ensures Foreseen(s, Targets(s)[i])
  {
  }

  lemma ForeseenIsTarget(s: State, t: State)
    requires Foreseen(s, t)
    ensures t in Targets(s)
  {
    match t {
      case Canceling => case Failed => case Retrying => case Canceled => case _ =>
    }
  }

  /** There is no other way, and each of these is one. */
  lemma TransitionIff(s: State, t: State)
    ensures CanTransitionTo(s, t) <==> Foreseen(s, t)
  {
    if CanTransitionTo(s, t) {
      var i :| 0 <= i < |Targets(s)| && Targets(s)[i] == t;
      OnlyForeseen(s, i);
    }
    if Foreseen(s, t) { ForeseenIsTarget(s, t); }
  }

  /** The states a deployment went through, each reached from the one before. */
  predicate IsRun(run: seq<State>) {
    run != [] && forall i :: 0 <= i < |run| - 1 ==> CanTransitionTo(run[i], run[i + 1])
  }

  // ----- The way to promotion

  const LAST_STRETCH :=
    [Building, Scanning, Publishing, ArtifactReady, Scheduling, Starting, Verifying, Ready, Promoted]

  /** Each state of the last stretch is entered only from the one before it. */
  lemma OnlyFrom(s: State, i: nat)
    requires 0 < i < 9 && CanTransitionTo(s, LAST_STRETCH[i])
    ensures s == LAST_STRETCH[i - 1]
  {
  }

  lemma {:induction false} EndsWithStretch(run: seq<State>, i: nat)
    requires IsRun(run) && run[0] == Created && run[|run| - 1] == Promoted && i < 9
    ensures |run| > i && run[|run| - 1 - i] == LAST_STRETCH[8 - i]
  {
    if i > 0 {
      EndsWithStretch(run, i - 1);
      var at := |run| - i;
      assert at > 0;
      assert CanTransitionTo(run[at - 1], run[at]);
      OnlyFrom(run[at - 1], 9 - i);
    }
  }

  /** Every run that is promoted ends with the whole stretch from building on. */
  lemma PromotionPath(run: seq<State>)
    requires IsRun(run) && run[0] == Created && run[|run| - 1] == Promoted
    ensures |run| >= 9 && run[|run| - 9..] == LAST_STRETCH
  {
    EndsWithStretch(run, 8);
    forall i | 0 <= i < 9 ensures run[|run| - 9 + i] == LAST_STRETCH[i] { EndsWithStretch(run, 8 - i); }
  }

  // ----- The length of a run

  function Retries(run: seq<State>): nat {
    if run == [] then 0 else Retries(run[..|run| - 1]) + if run[|run| - 1] == Retrying then 1 else 0
  }

  /** The most transitions that can follow without entering `Retrying` again. */
  function Budget(s: State): nat {
    match s
    case Created => 12
    case Retrying => 12
    case Sourcing => 11
    case Detecting => 10
    case Queued => 9
    case Building => 8
    case Scanning => 7
    case Publishing => 6
    case ArtifactReady => 5
    case Scheduling => 4
    case Starting => 3
    case Verifying => 2
    case Ready => 1
    case Canceling => 1
    case Promoted => 0
    case Canceled => 0
    case Failed => 0
  }

  lemma StepSpends(s: State, t: State)
    requires CanTransitionTo(s, t)
    ensures if t == Retrying then Budget(t) <= Budget(s) + 12 else Budget(t) + 1 <= Budget(s)
  {
  }

  lemma {:induction false} RunSpends(run: seq<State>)
    requires IsRun(run) && run[0] == Created
    ensures |run| - 1 + Budget(run[|run| - 1]) <= 13 * Retries(run) + 12
  {
    if |run| > 1 {
      var init := run[..|run| - 1];
      RunSpends(init);
      assert CanTransitionTo(run[|run| - 2], run[|run| - 1]);
      StepSpends(run[|run| - 2], run[|run| - 1]);
    } else {
      assert run[..0] == [];
    }
  }

  /** A run from `created` that enters `retrying` k times has at most 13k + 12 transitions. */
  lemma RunLengthBound(run: seq<State>)
    requires IsRun(run) && run[0] == Created
    ensures |run| - 1 <= 13 * Retries(run) + 12
  {
    RunSpends(run);
  }

  const BUILD_PART := [Sourcing, Detecting, Queued, Building, Scanning, Publishing]

  const ROLLOUT_PART := [ArtifactReady, Scheduling, Starting, Verifying, Canceling, Failed]

  const FULL_ATTEMPT := BUILD_PART + ROLLOUT_PART

  /** Fails as late as it can, `k` times over. */
  function LongestRun(k: nat): seq<State> {
    if k == 0 then [Created] + FULL_ATTEMPT else LongestRun(k - 1) + ([Retrying] + FULL_ATTEMPT)
  }

  lemma {:induction false} RetriesAppend(a: seq<State>, b: seq<State>)
    ensures Retries(a + b) == Retries(a) + Retries(b)
  {
    if b == [] {
      assert a + b == a;
    } else {
      assert (a + b)[..|a + b| - 1] == a + b[..|b| - 1];
      RetriesAppend(a, b[..|b| - 1]);
    }
  }

  lemma RunAppend(a: seq<State>, b: seq<State>)
    requires IsRun(a) && IsRun(b) && CanTransitionTo(a[|a| - 1], b[0])
    ensures IsRun(a + b)
  {
    forall i | 0 <= i < |a + b| - 1 ensures CanTransitionTo((a + b)[i], (a + b)[i + 1]) {
      if i >= |a| { assert (a + b)[i] == b[i - |a|] && (a + b)[i + 1] == b[i + 1 - |a|]; }
    }
  }

  lemma AttemptRuns()
    ensures IsRun(FULL_ATTEMPT) && IsRun([Retrying] + FULL_ATTEMPT) && IsRun([Created] + FULL_ATTEMPT)
  {
    BuildRuns();
    RolloutRuns();
    RunAppend(BUILD_PART, ROLLOUT_PART);
    RunAppend([Retrying], FULL_ATTEMPT);
    RunAppend([Created], FULL_ATTEMPT);
  }

  lemma BuildRuns()
    ensures IsRun(BUILD_PART)
  {
  }

  lemma RolloutRuns()
    ensures IsRun(ROLLOUT_PART)
  {
  }

  lemma AttemptRetries()
    ensures Retries([Retrying] + FULL_ATTEMPT) == 1 && Retries([Created] + FULL_ATTEMPT) == 0
  {
    NoRetries(FULL_ATTEMPT);
    RetriesAppend([Retrying], FULL_ATTEMPT);
    RetriesAppend([Created], FULL_ATTEMPT);
    assert [Retrying][..0] == [] && [Created][..0] == [];
  }

  lemma {:induction false} NoRetries(run: seq<State>)
    requires Retrying !in run
    ensures Retries(run) == 0
  {
    if run != [] { NoRetries(run[..|run| - 1]); }
  }

  /** A run that fails after `k` retries and is as long as the bound allows. */
  ghost predicate IsTight(run: seq<State>, k: nat) {
    && IsRun(run) && run[0] == Created && run[|run| - 1] == Failed
    && Retries(run) == k && |run| - 1 == 13 * k + 12
  }

  lemma LongerRun(run: seq<State>, k: nat)
    requires IsTight(run, k)
    ensures IsTight(run + ([Retrying] + FULL_ATTEMPT), k + 1)
  {
    AttemptRuns();
    AttemptRetries();
    RunAppend(run, [Retrying] + FULL_ATTEMPT);
    RetriesAppend(run, [Retrying] + FULL_ATTEMPT);
  }

  lemma FirstRun()
    ensures IsTight([Created] + FULL_ATTEMPT, 0)
  {
    AttemptRuns();
    AttemptRetries();
  }

  /** The bound is reached for every k. */
  lemma {:induction false} BoundIsTight(k: nat)
    ensures IsTight(LongestRun(k), k)
  {
    if k == 0 {
      FirstRun();
    } else {
      BoundIsTight(k - 1);
      LongerRun(LongestRun(k - 1), k - 1);
    }
  }
}
