/** Stable sorting by a strict weak order, and the order of texts by their characters. */
module Sorting {

  ghost predicate StrictWeak<T(!new)>(lt: (T, T) -> bool) {
    && (forall x, y :: lt(x, y) ==> !lt(y, x))
    && (forall x, y, z :: lt(x, z) ==> lt(x, y) || lt(y, z))
  }

  ghost predicate StrictTotal<T(!new)>(lt: (T, T) -> bool) {
    StrictWeak(lt) && forall x, y :: x != y ==> lt(x, y) || lt(y, x)
  }

  ghost predicate Sorted<T>(lt: (T, T) -> bool, xs: seq<T>) {
    forall i, j :: 0 <= i < j < |xs| ==> !lt(xs[j], xs[i])
  }

  ghost predicate StrictlySorted<T>(lt: (T, T) -> bool, xs: seq<T>) {
    forall i, j :: 0 <= i < j < |xs| ==> lt(xs[i], xs[j])
  }

  predicate NoRepeats<T(==)>(xs: seq<T>) {
    forall i, j :: 0 <= i < j < |xs| ==> xs[i] != xs[j]
  }

  ghost function Elements<T>(xs: seq<T>): set<T> {
    set x | x in xs
  }

  /** Inserts `x` after every element that does not have to follow it. */
  function Insert<T>(lt: (T, T) -> bool, x: T, xs: seq<T>): seq<T> {
    if xs == [] then [x]
    else if lt(x, xs[0]) then [x] + xs
    else [xs[0]] + Insert(lt, x, xs[1..])
  }

  function Sort<T>(lt: (T, T) -> bool, xs: seq<T>): seq<T> {
    if xs == [] then [] else Insert(lt, xs[|xs| - 1], Sort(lt, xs[..|xs| - 1]))
  }

  /** Keeps the first occurrence of every element. */
  function Distinct<T(==,!new)>(xs: seq<T>): (r: seq<T>)
    ensures forall x :: x in r <==> x in xs
    ensures NoRepeats(r)
  {
    if xs == [] then []
    else
      var init, last := xs[..|xs| - 1], xs[|xs| - 1];
      assert xs == init + [last];
      if last in init then Distinct(init) else Distinct(init) + [last]
  }

  lemma SameElements<T>(xs: seq<T>, ys: seq<T>)
    requires multiset(xs) == multiset(ys)
    ensures |xs| == |ys|
    ensures forall x :: x in xs <==> x in ys
  {
    assert |multiset(xs)| == |multiset(ys)|;
    forall x ensures x in xs <==> x in ys {
      assert x in xs <==> x in multiset(xs);
      assert x in ys <==> x in multiset(ys);
    }
  }

  lemma {:induction false} InsertAdds<T>(lt: (T, T) -> bool, x: T, xs: seq<T>)
    ensures multiset(Insert(lt, x, xs)) == multiset(xs) + multiset{x}
  {
    if xs != [] {
      InsertAdds(lt, x, xs[1..]);
      assert xs == [xs[0]] + xs[1..];
    }
  }

  /** Sorting permutes. */
  lemma {:induction false} SortPermutes<T>(lt: (T, T) -> bool, xs: seq<T>)
    ensures multiset(Sort(lt, xs)) == multiset(xs)
  {
    if xs != [] {
      SortPermutes(lt, xs[..|xs| - 1]);
      InsertAdds(lt, xs[|xs| - 1], Sort(lt, xs[..|xs| - 1]));
      assert xs == xs[..|xs| - 1] + [xs[|xs| - 1]];
    }
  }

  lemma {:induction false} InsertHas<T>(lt: (T, T) -> bool, x: T, xs: seq<T>, y: T)
    ensures y in Insert(lt, x, xs) <==> y == x || y in xs
  {
    if xs != [] {
      InsertHas(lt, x, xs[1..], y);
      assert xs == [xs[0]] + xs[1..];
    }
  }

  lemma ConsSorted<T>(lt: (T, T) -> bool, x: T, xs: seq<T>)
    requires Sorted(lt, xs) && forall y :: y in xs ==> !lt(y, x)
    ensures Sorted(lt, [x] + xs)
  {
  }

  lemma {:induction false} InsertSorted<T(!new)>(lt: (T, T) -> bool, x: T, xs: seq<T>)
    requires StrictWeak(lt) && Sorted(lt, xs)
    ensures Sorted(lt, Insert(lt, x, xs))
  {
    if xs == [] {
    } else if lt(x, xs[0]) {
      forall y | y in xs ensures !lt(y, x) {
        var j :| 0 <= j < |xs| && xs[j] == y;
        assert j == 0 || !lt(xs[j], xs[0]);
      }
      ConsSorted(lt, x, xs);
    } else {
      InsertSorted(lt, x, xs[1..]);
      forall y | y in Insert(lt, x, xs[1..]) ensures !lt(y, xs[0]) {
        InsertHas(lt, x, xs[1..], y);
        if y in xs[1..] {
          var j :| 0 < j < |xs| && xs[j] == y;
          assert !lt(xs[j], xs[0]);
        }
      }
      ConsSorted(lt, xs[0], Insert(lt, x, xs[1..]));
    }
  }

  lemma {:induction false} SortSorted<T(!new)>(lt: (T, T) -> bool, xs: seq<T>)
    requires StrictWeak(lt)
    ensures Sorted(lt, Sort(lt, xs))
  {
    if xs != [] {
      SortSorted(lt, xs[..|xs| - 1]);
      InsertSorted(lt, xs[|xs| - 1], Sort(lt, xs[..|xs| - 1]));
    }
  }

  lemma {:induction false} NoRepeatsCounts<T>(xs: seq<T>)
    requires NoRepeats(xs)
    ensures forall x :: multiset(xs)[x] <= 1
  {
    if xs != [] {
      var init, last := xs[..|xs| - 1], xs[|xs| - 1];
      NoRepeatsCounts(init);
      assert xs == init + [last];
      assert last !in init;
    }
  }

  lemma CountsNoRepeats<T>(xs: seq<T>)
    requires forall x :: multiset(xs)[x] <= 1
    ensures NoRepeats(xs)
  {
    forall i, j | 0 <= i < j < |xs| ensures xs[i] != xs[j] {
      assert xs == xs[..j] + [xs[j]] + xs[j + 1..];
      assert multiset(xs)[xs[j]] >= multiset(xs[..j])[xs[j]] + 1;
      assert xs[i] in xs[..j] && xs[i] in multiset(xs[..j]);
    }
  }

  /** Sorting a list without repeats by a total order arranges it strictly. */
  lemma SortStrict<T(!new)>(lt: (T, T) -> bool, xs: seq<T>)
    requires StrictTotal(lt) && NoRepeats(xs)
    ensures StrictlySorted(lt, Sort(lt, xs))
    ensures forall x :: x in Sort(lt, xs) <==> x in xs
  {
    var r := Sort(lt, xs);
    SortSorted(lt, xs);
    SortPermutes(lt, xs);
    SameElements(r, xs);
    NoRepeatsCounts(xs);
    CountsNoRepeats(r);
  }

  lemma FirstIsLeast<T>(lt: (T, T) -> bool, xs: seq<T>, x: T)
    requires StrictlySorted(lt, xs) && x in xs
    ensures x == xs[0] || lt(xs[0], x)
  {
  }

  /** A strictly sorted list is determined by its elements. */
  lemma {:induction false} StrictlySortedUnique<T(!new)>(lt: (T, T) -> bool, xs: seq<T>, ys: seq<T>)
    requires StrictTotal(lt) && StrictlySorted(lt, xs) && StrictlySorted(lt, ys)
    requires forall x :: x in xs <==> x in ys
    ensures xs == ys
  {
    assert forall i :: 0 <= i < |xs| ==> xs[i] in ys;
    assert forall i :: 0 <= i < |ys| ==> ys[i] in xs;
    if xs != [] && ys != [] {
      FirstIsLeast(lt, xs, ys[0]);
      FirstIsLeast(lt, ys, xs[0]);
      forall x ensures x in xs[1..] <==> x in ys[1..] {
        if x in xs[1..] {
          var i :| 0 < i < |xs| && xs[i] == x;
          assert lt(xs[0], x) && x in ys;
        }
        if x in ys[1..] {
          var i :| 0 < i < |ys| && ys[i] == x;
          assert lt(ys[0], x) && x in xs;
        }
      }
      StrictlySortedUnique(lt, xs[1..], ys[1..]);
    }
  }

  // ----- Texts ordered by their characters

  /** Strict lexicographic order. */
  predicate Below(a: string, b: string) {
    b != [] && (a == [] || a[0] < b[0] || (a[0] == b[0] && Below(a[1..], b[1..])))
  }

  lemma {:induction false} BelowAsymmetric(a: string, b: string)
    requires Below(a, b)
    ensures !Below(b, a) && a != b
  {
    if a != [] && a[0] == b[0] { BelowAsymmetric(a[1..], b[1..]); }
  }

  lemma {:induction false} BelowSplits(a: string, b: string, c: string)
    requires Below(a, c)
    ensures Below(a, b) || Below(b, c)
  {
    if a != [] && b != [] && a[0] == b[0] == c[0] { BelowSplits(a[1..], b[1..], c[1..]); }
  }

  lemma {:induction false} BelowConnected(a: string, b: string)
    requires a != b
    ensures Below(a, b) || Below(b, a)
  {
    if a != [] && b != [] && a[0] == b[0] {
      assert a == [a[0]] + a[1..] && b == [b[0]] + b[1..];
      BelowConnected(a[1..], b[1..]);
    }
  }

  lemma BelowIsTotal()
    ensures StrictTotal(Below)
  {
    forall a, b | Below(a, b) ensures !Below(b, a) { BelowAsymmetric(a, b); }
    forall a, b, c | Below(a, c) ensures Below(a, b) || Below(b, c) { BelowSplits(a, b, c); }
    forall a: string, b: string | a != b ensures Below(a, b) || Below(b, a) { BelowConnected(a, b); }
  }
}
