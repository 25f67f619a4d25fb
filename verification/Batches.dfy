/** How a worker's batch is chosen: the first few rows that are ready, oldest first. */
module Batches {
  import opened Sql
  import opened Sorting

  /** `GREATEST(1, LEAST(COALESCE(requested_limit, 1), 100))`. */
  function BatchSize(limit: Option<int>): nat {
    var n := Coalesce(limit, 1);
    if n < 1 then 1 else if n > 100 then 100 else n
  }

  /** The order of rows by time and then id, a row's id being its position. */
  function Earlier(at: seq<int>): (nat, nat) -> bool {
    (a: nat, b: nat) =>
      var x, y := if a < |at| then at[a] else 0, if b < |at| then at[b] else 0;
      x < y || (x == y && a < b)
  }

  function ReadyIds(ready: seq<bool>): seq<nat> {
    if ready == [] then []
    else
      var n := |ready| - 1;
      ReadyIds(ready[..n]) + if ready[n] then [n] else []
  }

  /** All ready rows, oldest first. */
  function Backlog(ready: seq<bool>, at: seq<int>): seq<nat> {
    Sort(Earlier(at), ReadyIds(ready))
  }

  /** The first `n` elements. */
  function Until(ids: seq<nat>, n: nat): seq<nat> {
    if |ids| <= n then ids else ids[..n]
  }

  /** The rows one claim hands out. */
  function Batch(ready: seq<bool>, at: seq<int>, limit: Option<int>): seq<nat> {
    Until(Backlog(ready, at), BatchSize(limit))
  }

  lemma EarlierIsTotal(at: seq<int>)
    ensures StrictTotal(Earlier(at))
  {
  }

  lemma {:induction false} ReadyIdsAre(ready: seq<bool>, i: nat)
    ensures i in ReadyIds(ready) <==> i < |ready| && ready[i]
  {
    if ready != [] { ReadyIdsAre(ready[..|ready| - 1], i); }
  }

  lemma {:induction false} ReadyIdsOnce(ready: seq<bool>)
    ensures NoRepeats(ReadyIds(ready))
  {
    if ready != [] {
      var n := |ready| - 1;
      ReadyIdsOnce(ready[..n]);
      ReadyIdsAre(ready[..n], n);
    }
  }

  lemma BacklogSorted(ready: seq<bool>, at: seq<int>)
    ensures StrictlySorted(Earlier(at), Backlog(ready, at))
  {
    EarlierIsTotal(at);
    ReadyIdsOnce(ready);
    SortStrict(Earlier(at), ReadyIds(ready));
  }

  lemma BacklogHas(ready: seq<bool>, at: seq<int>, i: nat)
    ensures i in Backlog(ready, at) <==> i < |ready| && ready[i]
  {
    SortPermutes(Earlier(at), ReadyIds(ready));
    assert i in multiset(Backlog(ready, at)) <==> i in multiset(ReadyIds(ready));
    ReadyIdsAre(ready, i);
  }

  /** A batch holds ready rows only, and each once. */
  lemma BatchIsReady(ready: seq<bool>, at: seq<int>, limit: Option<int>, i: nat)
    requires i in Batch(ready, at, limit)
    ensures i < |ready| && ready[i]
  {
    assert i in Backlog(ready, at);
    BacklogHas(ready, at, i);
  }

  lemma BatchHasNoRepeats(ready: seq<bool>, at: seq<int>, limit: Option<int>)
    ensures NoRepeats(Batch(ready, at, limit))
  {
    BacklogSorted(ready, at);
  }

  /** A batch is the earliest of the ready rows, as many as asked for but one at least and a hundred at most. */
  lemma BatchIsEarliest(ready: seq<bool>, at: seq<int>, limit: Option<int>, y: nat)
    requires |at| == |ready| && y < |ready| && ready[y] && y !in Batch(ready, at, limit)
    ensures var batch := Batch(ready, at, limit);
      && 1 <= |batch| <= 100 && (limit == None || limit.value < 1 ==> |batch| == 1)
      && (limit.Some? && 1 <= limit.value <= 100 ==> |batch| == limit.value)
      && (limit.Some? && limit.value > 100 ==> |batch| == 100)
      && forall x :: x in batch ==> x < |at| && (at[x] < at[y] || (at[x] == at[y] && x < y))
  {
    var batch, backlog := Batch(ready, at, limit), Backlog(ready, at);
    BacklogHas(ready, at, y);
    BacklogSorted(ready, at);
    var j :| 0 <= j < |backlog| && backlog[j] == y;
    assert forall i :: 0 <= i < |batch| ==> backlog[i] in batch;
    assert j >= |batch|;
    forall x | x in batch ensures x < |at| && (at[x] < at[y] || (at[x] == at[y] && x < y)) {
      BatchIsReady(ready, at, limit, x);
      var i :| 0 <= i < |batch| && batch[i] == x;
      assert backlog[i] == x && Earlier(at)(backlog[i], backlog[j]);
    }
  }

  // ----- Over the rows of a table

  function Flags<T>(rows: seq<T>, ready: T -> bool): seq<bool> {
    if rows == [] then [] else Flags(rows[..|rows| - 1], ready) + [ready(rows[|rows| - 1])]
  }

  function Column<T>(rows: seq<T>, at: T -> int): seq<int> {
    if rows == [] then [] else Column(rows[..|rows| - 1], at) + [at(rows[|rows| - 1])]
  }

  /** Changes the given rows, one after the other. */
  function Mark<T>(rows: seq<T>, ids: seq<nat>, change: T -> T): seq<T> {
    if ids == [] then rows
    else
      var init, last := ids[..|ids| - 1], ids[|ids| - 1];
      var r := Mark(rows, init, change);
      if last < |r| then r[last := change(r[last])] else r
  }

  lemma {:induction false} FlagsAre<T>(rows: seq<T>, ready: T -> bool)
    ensures |Flags(rows, ready)| == |rows|
    ensures forall i :: 0 <= i < |rows| ==> Flags(rows, ready)[i] == ready(rows[i])
  {
    if rows != [] { FlagsAre(rows[..|rows| - 1], ready); }
  }

  lemma {:induction false} SameColumn<T>(rows: seq<T>, others: seq<T>, at: T -> int)
    requires |rows| == |others| && forall i :: 0 <= i < |rows| ==> at(rows[i]) == at(others[i])
    ensures Column(rows, at) == Column(others, at)
  {
    if rows != [] { SameColumn(rows[..|rows| - 1], others[..|others| - 1], at); }
  }

  lemma {:induction false} MarkKeepsCount<T>(rows: seq<T>, ids: seq<nat>, change: T -> T)
    ensures |Mark(rows, ids, change)| == |rows|
  {
    if ids != [] { MarkKeepsCount(rows, ids[..|ids| - 1], change); }
  }

  lemma {:induction false} MarkEffect<T>(rows: seq<T>, ids: seq<nat>, change: T -> T, i: nat)
    requires NoRepeats(ids) && i < |rows|
    ensures |Mark(rows, ids, change)| == |rows|
    ensures Mark(rows, ids, change)[i] == if i in ids then change(rows[i]) else rows[i]
  {
    MarkKeepsCount(rows, ids, change);
    if ids != [] {
      var init, last := ids[..|ids| - 1], ids[|ids| - 1];
      MarkEffect(rows, init, change, i);
      assert ids == init + [last];
    }
  }
}
