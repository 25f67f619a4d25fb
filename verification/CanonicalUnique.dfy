/** The canonical dump decides equality of JSON values. */
module CanonicalUnique {
  import opened Patterns
  import opened JsonText
  import opened CanonicalJson
  import opened JsonReader

  // ----- A text has one reading

  lemma IntUnique(n: int, m: int, x: string, y: string)
    requires IntText(n) + x == IntText(m) + y
    requires (x == [] || !Digit(x[0])) && (y == [] || !Digit(y[0]))
    ensures n == m && x == y
  {
    ReadsInt(n, x);
    ReadsInt(m, y);
  }

  lemma QuoteUnique(s: string, t: string, x: string, y: string)
    requires Quote(s) + x == Quote(t) + y
    ensures s == t && x == y
  {
    assert (Quote(s) + x)[1..] == Inside(s, x) && (Quote(t) + y)[1..] == Inside(t, y);
    ReadsInside(s, x);
    ReadsInside(t, y);
  }

  lemma DumpUnique(j: Json, k: Json, u: string, v: string)
    requires Dump(j) + u == Dump(k) + v && Follow(u) && Follow(v)
    ensures Meaning(j) == Meaning(k) && u == v
  {
    ReadsDump(j, u);
    ReadsDump(k, v);
  }

  // ----- Equal values have one text

  lemma {:induction false} SameMeaningSameDump(j: Json, k: Json)
    requires Meaning(j) == Meaning(k)
    ensures Dump(j) == Dump(k)
    decreases j, 2
  {
    if j.Arr? {
      SameItems(j, j.items, k, k.items);
    } else if j.Obj? {
      ArrangeSpells(j);
      ArrangeSpells(k);
      ArrangeSorted(j.members);
      ArrangeSorted(k.members);
      SpellsAlike(Arrange(j.members), Arrange(k.members), Fields(j, j.members));
      SameMembers(j, Arrange(j.members), k, Arrange(k.members));
    }
  }

  lemma {:induction false} SameItems(j: Json, a: seq<Json>, k: Json, b: seq<Json>)
    requires j.Arr? && k.Arr? && (forall x :: x in a ==> x in j.items) && (forall x :: x in b ==> x in k.items)
    requires Meanings(j, a) == Meanings(k, b)
    ensures DumpItems(j, a) == DumpItems(k, b)
    decreases j, 1, |a|
  {
    MeaningsUnfold(j, a);
    MeaningsUnfold(k, b);
    if a != [] {
      assert a[0] in j.items;
      SameMeaningSameDump(a[0], b[0]);
      SameItems(j, a[1..], k, b[1..]);
    }
  }

  lemma {:induction false} MeaningsUnfold(j: Json, a: seq<Json>)
    requires j.Arr? && forall x :: x in a ==> x in j.items
    ensures |Meanings(j, a)| == |a|
    ensures a != [] ==> Meanings(j, a)[0] == Meaning(a[0]) && Meanings(j, a)[1..] == Meanings(j, a[1..])
  {
    if a != [] { MeaningsUnfold(j, a[1..]); }
  }

  lemma {:induction false} SameMembers(j: Json, a: seq<Member>, k: Json, b: seq<Member>)
    requires j.Obj? && k.Obj? && Within(a, j.members) && Within(b, k.members) && Alike(a, b)
    ensures DumpMembers(j, a) == DumpMembers(k, b)
    decreases j, 1, |a|
  {
    if a != [] {
      assert a[0] in j.members;
      SameMeaningSameDump(a[0].value, b[0].value);
      SameMembers(j, a[1..], k, b[1..]);
    }
  }

  /** Two values dump to the same text exactly when they are equal as JSON values: whatever the order their keys
      were inserted in, and whatever a key held before it was written last. */
  lemma DumpDecidesEquality(j: Json, k: Json)
    ensures Dump(j) == Dump(k) <==> Meaning(j) == Meaning(k)
  {
    if Dump(j) == Dump(k) {
      DumpUnique(j, k, [], []);
    }
    if Meaning(j) == Meaning(k) {
      SameMeaningSameDump(j, k);
    }
  }
}
