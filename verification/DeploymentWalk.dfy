/** How a build event moves a deployment: a search for a way to the target, and a walk along it. */
module DeploymentWalk {
  import opened Sql
  import opened Deployments

  /** Where the search does not pass through. */
  predicate Blocked(s: State) {
    s == Canceling || s == Canceled || s == Failed || s == ArtifactReady || s == Ready || s == Promoted
  }

  const ALL: set<State> := {
    Created, Sourcing, Detecting, Queued, Building, Scanning, Publishing, ArtifactReady, Scheduling, Starting,
    Verifying, Ready, Promoted, Canceling, Canceled, Failed, Retrying}

  /** `path_to?`: a depth-first search that does not go in circles. */
  predicate PathTo(from: State, target: State, seen: set<State>)
    decreases |ALL - seen|
  {
    || from == target
    || (from !in seen && !Blocked(from) &&
        (Smaller(seen, from);
         exists c :: c in Targets(from) && PathTo(c, target, seen + {from})))
  }

  lemma Smaller(seen: set<State>, from: State)
    requires from !in seen
    ensures |ALL - (seen + {from})| < |ALL - seen|
  {
    assert from in ALL;
    assert ALL - (seen + {from}) == (ALL - seen) - {from};
  }

  /** A path along transitions whose states before the last are neither blocked nor excluded. */
  predicate OpenPath(p: seq<State>, target: State, seen: set<State>) {
    && IsRun(p) && p[|p| - 1] == target
    && forall i :: 0 <= i < |p| - 1 ==> !Blocked(p[i]) && p[i] !in seen
  }

  lemma {:induction false} SearchFinds(p: seq<State>, target: State, seen: set<State>)
    requires OpenPath(p, target, seen)
    ensures PathTo(p[0], target, seen)
    decreases |p|
  {
    var from := p[0];
    if from != target {
      if k :| 0 < k < |p| - 1 && p[k] == from {
        SearchFinds(p[k..], target, seen);
      } else {
        assert CanTransitionTo(p[0], p[1]);
        SearchFinds(p[1..], target, seen + {from});
      }
    }
  }

  lemma {:induction false} SearchIsSound(from: State, target: State, seen: set<State>) returns (p: seq<State>)
    requires PathTo(from, target, seen)
    ensures OpenPath(p, target, seen) && p[0] == from
    decreases |ALL - seen|
  {
    if from == target {
      p := [from];
    } else {
      Smaller(seen, from);
      var c :| c in Targets(from) && PathTo(c, target, seen + {from});
      var rest := SearchIsSound(c, target, seen + {from});
      PathCons(from, rest, target, seen);
      p := [from] + rest;
    }
  }

  lemma PathCons(s: State, p: seq<State>, target: State, seen: set<State>)
    requires OpenPath(p, target, seen + {s}) && CanTransitionTo(s, p[0]) && !Blocked(s) && s !in seen
    ensures OpenPath([s] + p, target, seen)
  {
    RunAppend([s], p);
    forall i | 0 <= i < |p| ensures !Blocked(([s] + p)[i]) && ([s] + p)[i] !in seen {
      if i > 0 { assert ([s] + p)[i] == p[i - 1]; }
    }
  }

  /** The search succeeds exactly when there is an open path. */
  lemma PathToIff(from: State, target: State)
    ensures PathTo(from, target, {}) <==> exists p :: OpenPath(p, target, {}) && p[0] == from
  {
    if PathTo(from, target, {}) {
      var p := SearchIsSound(from, target, {});
    }
    forall p | OpenPath(p, target, {}) && p[0] == from ensures PathTo(from, target, {}) {
      SearchFinds(p, target, {});
    }
  }

  // ----- The walk

  function FirstWay(candidates: seq<State>, target: State): Option<State> {
    if candidates == [] then None
    else if candidates[0] == target || PathTo(candidates[0], target, {}) then Some(candidates[0])
    else FirstWay(candidates[1..], target)
  }

  /** Where the next turn of the loop goes, if anywhere. */
  function Chosen(s: State, target: State): Option<State> {
    FirstWay(Targets(s), target)
  }

  predicate Stopped(s: State, target: State) {
    s == target || Chosen(s, target) == None
  }

  /** `transition_to!` after at most `n` turns. */
  function Walk(s: State, target: State, n: nat): State
    decreases n
  {
    if n == 0 || Stopped(s, target) then s else Walk(Chosen(s, target).value, target, n - 1)
  }

  /** The targets build events name. */
  predicate StageTarget(t: State) {
    || t == Sourcing || t == Detecting || t == Queued || t == Building || t == Publishing || t == Retrying
    || t == Canceling
  }

  /** The states from which a retry is one step away, in the order the walk visits them. */
  predicate OnRing(s: State) {
    s == Retrying || s == Sourcing || s == Detecting || s == Queued || s == Building || s == Scanning || s == Publishing
  }

  function Place(s: State): nat
    requires OnRing(s)
  {
    match s
    case Retrying => 0
    case Sourcing => 1
    case Detecting => 2
    case Queued => 3
    case Building => 4
    case Scanning => 5
    case Publishing => 6
  }

  function Succ(s: State): (r: State)
    requires OnRing(s)
    ensures OnRing(r)
  {
    match s
    case Retrying => Sourcing
    case Sourcing => Detecting
    case Detecting => Queued
    case Queued => Building
    case Building => Scanning
    case Scanning => Publishing
    case Publishing => Retrying
  }

  function Distance(s: State, t: State): nat
    requires OnRing(s) && OnRing(t)
  {
    if Place(s) <= Place(t) then Place(t) - Place(s) else Place(t) + 7 - Place(s)
  }

  /** The next `d` places. */
  function Ahead(s: State, d: nat): (p: seq<State>)
    requires OnRing(s)
    ensures p != [] && p[0] == s
    decreases d
  {
    if d == 0 then [s] else [s] + Ahead(Succ(s), d - 1)
  }

  lemma RingEdge(s: State)
    requires OnRing(s)
    ensures !Blocked(s) && CanTransitionTo(s, Succ(s))
  {
  }

  lemma {:induction false} RingPath(s: State, t: State, d: nat)
    requires OnRing(s) && OnRing(t) && d == Distance(s, t)
    ensures OpenPath(Ahead(s, d), t, {})
    decreases d
  {
    if d > 0 {
      Closer(s, t);
      RingPath(Succ(s), t, d - 1);
      RingEdge(s);
      OpenCons(s, Ahead(Succ(s), d - 1), t);
    }
  }

  lemma OpenCons(s: State, p: seq<State>, target: State)
    requires OpenPath(p, target, {}) && CanTransitionTo(s, p[0]) && !Blocked(s)
    ensures OpenPath([s] + p, target, {})
  {
    RunAppend([s], p);
    forall i | 0 <= i < |p| ensures !Blocked(([s] + p)[i]) {
      if i > 0 { assert ([s] + p)[i] == p[i - 1]; }
    }
  }

  lemma Closer(s: State, t: State)
    requires OnRing(s) && OnRing(t) && s != t
    ensures Distance(Succ(s), t) == Distance(s, t) - 1
  {
  }

  lemma RingReaches(s: State, t: State)
    requires OnRing(s) && (OnRing(t) || t == Canceling)
    ensures PathTo(s, t, {})
  {
    if t == Canceling {
      assert OpenPath([s, Canceling], t, {});
      SearchFinds([s, Canceling], t, {});
    } else {
      RingPath(s, t, Distance(s, t));
      SearchFinds(Ahead(s, Distance(s, t)), t, {});
    }
  }

  lemma FirstIsChosen(s: State, t: State)
    requires Targets(s) != [] && PathTo(Targets(s)[0], t, {})
    ensures Chosen(s, t) == Some(Targets(s)[0])
  {
  }

  lemma SecondIsChosen(s: State, t: State)
    requires |Targets(s)| > 1 && Blocked(Targets(s)[0]) && Targets(s)[0] != t && PathTo(Targets(s)[1], t, {})
    ensures Chosen(s, t) == Some(Targets(s)[1])
  {
    assert Targets(s)[1..][0] == Targets(s)[1];
    assert FirstWay(Targets(s)[1..], t) == Some(Targets(s)[1]);
  }

  /** On the ring the walk always goes to the next place, for a target on the ring and for `canceling` alike. */
  lemma RingChoice(s: State, t: State)
    requires OnRing(s) && s != t && (OnRing(t) || t == Canceling)
    ensures Chosen(s, t) == Some(Succ(s))
  {
    RingReaches(Succ(s), t);
    RingTarget(s);
    if s == Publishing {
      SecondIsChosen(s, t);
    } else {
      FirstIsChosen(s, t);
    }
  }

  lemma RingTarget(s: State)
    requires OnRing(s)
    ensures |Targets(s)| > 1
    ensures s != Publishing ==> Targets(s)[0] == Succ(s)
    ensures s == Publishing ==> Targets(s)[0] == ArtifactReady && Targets(s)[1] == Succ(s)
  {
  }

  /** Where the walk can enter the ring from. */
  predicate Outset(s: State) {
    OnRing(s) || s == Created || s == Failed
  }

  // ----- Past the ring

  predicate Late(s: State) {
    !OnRing(s) && s != Created
  }

  lemma {:induction false} NoWayBack(s: State, t: State, seen: set<State>)
    requires Late(s) && OnRing(t)
    ensures !PathTo(s, t, seen)
    decreases |ALL - seen|
  {
    if s !in seen && !Blocked(s) {
      Smaller(seen, s);
      forall c | c in Targets(s) ensures !PathTo(c, t, seen + {s}) { NoWayBack(c, t, seen + {s}); }
    }
  }

  lemma {:induction false} NoWay(candidates: seq<State>, t: State)
    requires forall c :: c in candidates ==> c != t && !PathTo(c, t, {})
    ensures FirstWay(candidates, t) == None
  {
    if candidates != [] {
      assert candidates[0] in candidates;
      forall c | c in candidates[1..] ensures c != t && !PathTo(c, t, {}) { assert c in candidates; }
      NoWay(candidates[1..], t);
    }
  }

  lemma LateStays(s: State, t: State)
    requires Late(s) && s != Failed && OnRing(t)
    ensures Chosen(s, t) == None
  {
    forall c | c in Targets(s) ensures c != t && !PathTo(c, t, {}) { NoWayBack(c, t, {}); }
    NoWay(Targets(s), t);
  }

  /** The states between the artifact and readiness. */
  predicate Rollout(s: State) {
    s == ArtifactReady || s == Scheduling || s == Starting || s == Verifying
  }

  lemma RolloutChoice(s: State)
    requires Rollout(s)
    ensures Chosen(s, Canceling) == Some(if s == Verifying then Canceling else Targets(s)[0])
  {
    if s == Verifying {
      SecondIsChosen(s, Canceling);
    } else {
      var c := Targets(s)[0];
      assert OpenPath([c, Canceling], Canceling, {});
      SearchFinds([c, Canceling], Canceling, {});
      FirstIsChosen(s, Canceling);
    }
  }

  lemma OverIsOver(s: State)
    requires s == Ready || s == Promoted || s == Canceled
    ensures Chosen(s, Canceling) == None
  {
    forall c | c in Targets(s) ensures c != Canceling && !PathTo(c, Canceling, {}) {}
    NoWay(Targets(s), Canceling);
  }

  // ----- Where it ends

  /** The choice in closed form. */
  function Turn(s: State, t: State): Option<State> {
    match s
    case Created => Some(Sourcing)
    case Failed => Some(Retrying)
    case ArtifactReady => if t == Canceling then Some(Scheduling) else None
    case Scheduling => if t == Canceling then Some(Starting) else None
    case Starting => if t == Canceling then Some(Verifying) else None
    case Verifying => if t == Canceling then Some(Canceling) else None
    case _ => if OnRing(s) then Some(Succ(s)) else None
  }

  lemma ChosenIsTurn(s: State, t: State)
    requires StageTarget(t) && s != t
    ensures Chosen(s, t) == Turn(s, t)
  {
    if OnRing(s) {
      RingChoice(s, t);
    } else if Outset(s) {
      RingReaches(Targets(s)[0], t);
      FirstIsChosen(s, t);
    } else if OnRing(t) {
      LateStays(s, t);
    } else if Rollout(s) {
      RolloutChoice(s);
    } else {
      OverIsOver(s);
    }
  }

  predicate AtRest(s: State, t: State) {
    s == t || Turn(s, t) == None
  }

  function Turns(s: State, t: State, n: nat): State
    decreases n
  {
    if n == 0 || AtRest(s, t) then s else Turns(Turn(s, t).value, t, n - 1)
  }

  lemma StoppedIsAtRest(s: State, t: State)
    requires StageTarget(t)
    ensures Stopped(s, t) <==> AtRest(s, t)
  {
    if s != t { ChosenIsTurn(s, t); }
  }

  lemma {:induction false} WalkIsTurns(s: State, t: State, n: nat)
    requires StageTarget(t)
    ensures Walk(s, t, n) == Turns(s, t, n)
    decreases n
  {
    StoppedIsAtRest(s, t);
    if AtRest(s, t) {
      WalkHalts(s, t, n);
    } else if n > 0 {
      var next := Turn(s, t).value;
      ChosenIsTurn(s, t);
      WalkOn(s, t, next, n - 1);
      TurnOn(s, t, n - 1);
      WalkIsTurns(next, t, n - 1);
    }
  }

  lemma WalkHalts(s: State, t: State, n: nat)
    requires Stopped(s, t)
    ensures Walk(s, t, n) == s
  {
  }

  lemma WalkOn(s: State, t: State, next: State, n: nat)
    requires s != t && Chosen(s, t) == Some(next)
    ensures Walk(s, t, n + 1) == Walk(next, t, n)
  {
  }

  /** Where the walk comes to rest, when it does. */
  function Rest(s: State, t: State): State {
    if OnRing(t) && Outset(s) then t else if t == Canceling && Rollout(s) then t else s
  }

  lemma TurnOn(s: State, t: State, n: nat)
    requires s != t && Turn(s, t).Some?
    ensures Turns(s, t, n + 1) == Turns(Turn(s, t).value, t, n)
  {
  }

  lemma RingTurns(s: State, t: State)
    requires OnRing(s) && OnRing(t) && s != t
    ensures Turn(s, t) == Some(Succ(s))
  {
  }

  lemma {:induction false} RingArrives(s: State, t: State, d: nat)
    requires OnRing(s) && OnRing(t) && d == Distance(s, t)
    ensures Turns(s, t, d) == t
    decreases d
  {
    if d > 0 {
      Closer(s, t);
      RingTurns(s, t);
      RingArrives(Succ(s), t, d - 1);
      TurnOn(s, t, d - 1);
    }
  }

  lemma RolloutArrives()
    ensures Turns(Verifying, Canceling, 1) == Turns(Starting, Canceling, 2) == Canceling
    ensures Turns(Scheduling, Canceling, 3) == Turns(ArtifactReady, Canceling, 4) == Canceling
  {
    TurnOn(Verifying, Canceling, 0);
    TurnOn(Starting, Canceling, 1);
    TurnOn(Scheduling, Canceling, 2);
    TurnOn(ArtifactReady, Canceling, 3);
  }

  lemma TurnsArrive(s: State, t: State) returns (n: nat)
    requires StageTarget(t) && !(t == Canceling && Outset(s))
    ensures Turns(s, t, n) == Rest(s, t) && AtRest(Rest(s, t), t)
  {
    if OnRing(t) && OnRing(s) {
      n := Distance(s, t);
      RingArrives(s, t, n);
    } else if OnRing(t) && Outset(s) {
      var next := Turn(s, t).value;
      n := Distance(next, t) + 1;
      RingArrives(next, t, n - 1);
      TurnOn(s, t, n - 1);
    } else if t == Canceling && Rollout(s) {
      RolloutArrives();
      n := if s == Verifying then 1 else if s == Starting then 2 else if s == Scheduling then 3 else 4;
    } else {
      n := 0;
    }
  }

  lemma {:induction false} CancelingNeverReached(s: State, n: nat)
    requires Outset(s)
    ensures Outset(Turns(s, Canceling, n))
    decreases n
  {
    if n > 0 { CancelingNeverReached(Turn(s, Canceling).value, n - 1); }
  }

  ghost predicate RestsAt(s: State, t: State, end: State) {
    exists n :: Walk(s, t, n) == end && Stopped(end, t)
  }

  lemma WalkRests(s: State, t: State)
    requires StageTarget(t) && !(t == Canceling && Outset(s))
    ensures RestsAt(s, t, Rest(s, t))
  {
    var n := TurnsArrive(s, t);
    WalkIsTurns(s, t, n);
    StoppedIsAtRest(Rest(s, t), t);
    assert Walk(s, t, n) == Rest(s, t);
  }

  lemma CancelingNeverRests(s: State, end: State)
    requires Outset(s)
    ensures !RestsAt(s, Canceling, end)
  {
    forall n ensures !(Walk(s, Canceling, n) == end && Stopped(end, Canceling)) {
      WalkIsTurns(s, Canceling, n);
      CancelingNeverReached(s, n);
      StoppedIsAtRest(Walk(s, Canceling, n), Canceling);
    }
  }

  /** For a target build events name, the loop ends unless it is to cancel a deployment that has no artifact yet
      or has failed; then it goes round through `retrying` for ever. Where it ends, it rests at the target if a way
      leads there and has not moved otherwise. */
  lemma WalkEndsIff(s: State, t: State)
    requires StageTarget(t)
    ensures (exists end :: RestsAt(s, t, end)) <==> !(t == Canceling && Outset(s))
    ensures !(t == Canceling && Outset(s)) ==> RestsAt(s, t, Rest(s, t))
  {
    if t == Canceling && Outset(s) {
      forall end ensures !RestsAt(s, t, end) { CancelingNeverRests(s, end); }
    } else {
      WalkRests(s, t);
    }
  }
}
