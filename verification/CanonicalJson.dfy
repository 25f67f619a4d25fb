/** The canonical dump: objects sorted by key, no spaces. Two values dump to one text exactly when they are
    equal as JSON values. */
module CanonicalJson {
  import opened Sorting
  import opened JsonText

  // ----- stringify_keys and sort

  /** A key written again keeps its place and takes the new value. */
  function Put(ms: seq<Member>, m: Member): seq<Member> {
    if ms == [] then [m] else if ms[0].key == m.key then [m] + ms[1..] else [ms[0]] + Put(ms[1..], m)
  }

  function Stringify(ms: seq<Member>): seq<Member> {
    if ms == [] then [] else Put(Stringify(ms[..|ms| - 1]), ms[|ms| - 1])
  }

  predicate KeyBelow(a: Member, b: Member) {
    Below(a.key, b.key)
  }

  function Arrange(ms: seq<Member>): seq<Member> {
    Sort(KeyBelow, Stringify(ms))
  }

  predicate Within(list: seq<Member>, ms: seq<Member>) {
    forall m :: m in list ==> m in ms
  }

  lemma {:induction false} PutWithin(ms: seq<Member>, m: Member, x: Member)
    requires x in Put(ms, m)
    ensures x == m || x in ms
  {
    if ms != [] && ms[0].key != m.key && x != ms[0] { PutWithin(ms[1..], m, x); }
  }

  lemma {:induction false} StringifyWithin(ms: seq<Member>, x: Member)
    requires x in Stringify(ms)
    ensures x in ms
  {
    var init, m := ms[..|ms| - 1], ms[|ms| - 1];
    PutWithin(Stringify(init), m, x);
    if x != m { StringifyWithin(init, x); }
  }

  lemma ArrangeWithin(ms: seq<Member>)
    ensures Within(Arrange(ms), ms)
  {
    SortPermutes(KeyBelow, Stringify(ms));
    SameElements(Arrange(ms), Stringify(ms));
    forall x | x in Arrange(ms) ensures x in ms { StringifyWithin(ms, x); }
  }

  // ----- The dump

  function Dump(j: Json): string
    decreases j, 2
  {
    match j
    case Null => "null"
    case Bool(b) => if b then "true" else "false"
    case Int(n) => IntText(n)
    case Str(s) => Quote(s)
    case Arr(items) => "[" + DumpItems(j, items) + "]"
    case Obj(ms) =>
      ArrangeWithin(ms);
      "{" + DumpMembers(j, Arrange(ms)) + "}"
  }

  function DumpItems(j: Json, items: seq<Json>): string
    requires j.Arr? && forall x :: x in items ==> x in j.items
    decreases j, 1, |items|
  {
    if items == [] then ""
    else
      assert items[0] in j.items;
      if |items| == 1 then Dump(items[0]) else Dump(items[0]) + "," + DumpItems(j, items[1..])
  }

  function DumpMember(m: Member): string
    decreases m.value, 3
  {
    Quote(m.key) + ":" + Dump(m.value)
  }

  function DumpMembers(j: Json, ms: seq<Member>): string
    requires j.Obj? && Within(ms, j.members)
    decreases j, 1, |ms|
  {
    if ms == [] then ""
    else
      assert ms[0] in j.members;
      if |ms| == 1 then DumpMember(ms[0]) else DumpMember(ms[0]) + "," + DumpMembers(j, ms[1..])
  }

  // ----- What a value means

  datatype Value =
    | NullValue | BoolValue(b: bool) | IntValue(n: int) | StrValue(s: string)
    | ArrValue(items: seq<Value>) | ObjValue(fields: map<string, Value>)

  function Meaning(j: Json): Value
    decreases j, 2
  {
    match j
    case Null => NullValue
    case Bool(b) => BoolValue(b)
    case Int(n) => IntValue(n)
    case Str(s) => StrValue(s)
    case Arr(items) => ArrValue(Meanings(j, items))
    case Obj(ms) => ObjValue(Fields(j, ms))
  }

  function Meanings(j: Json, items: seq<Json>): seq<Value>
    requires j.Arr? && forall x :: x in items ==> x in j.items
    decreases j, 1, |items|
  {
    if items == [] then []
    else
      assert items[0] in j.items;
      [Meaning(items[0])] + Meanings(j, items[1..])
  }

  /** The last value written for each key. */
  function Fields(j: Json, ms: seq<Member>): map<string, Value>
    requires j.Obj? && Within(ms, j.members)
    decreases j, 1, |ms|
  {
    if ms == [] then map[]
    else
      var m := ms[|ms| - 1];
      assert m in j.members;
      Fields(j, ms[..|ms| - 1])[m.key := Meaning(m.value)]
  }

  // ----- Objects: one member for each key, in key order

  predicate UniqueKeys(ms: seq<Member>) {
    forall i, j :: 0 <= i < j < |ms| ==> ms[i].key != ms[j].key
  }

  ghost predicate HasKey(ms: seq<Member>, key: string) {
    exists m :: m in ms && m.key == key
  }

  /** The list spells the map. */
  ghost predicate Spells(ms: seq<Member>, fields: map<string, Value>) {
    && (forall m :: m in ms ==> m.key in fields && fields[m.key] == Meaning(m.value))
    && (forall key :: key in fields ==> HasKey(ms, key))
  }

  lemma {:induction false} PutHas(ms: seq<Member>, m: Member, x: Member)
    requires UniqueKeys(ms)
    ensures x in Put(ms, m) <==> x == m || (x in ms && x.key != m.key)
  {
    if ms != [] {
      assert ms == [ms[0]] + ms[1..];
      PutHas(ms[1..], m, x);
    }
  }

  lemma {:induction false} PutUnique(ms: seq<Member>, m: Member)
    requires UniqueKeys(ms)
    ensures UniqueKeys(Put(ms, m))
  {
    if ms != [] && ms[0].key != m.key {
      var rest := Put(ms[1..], m);
      PutUnique(ms[1..], m);
      forall j | 0 <= j < |rest| ensures rest[j].key != ms[0].key { PutHas(ms[1..], m, rest[j]); }
    }
  }

  lemma {:induction false} StringifyUnique(ms: seq<Member>)
    ensures UniqueKeys(Stringify(ms))
  {
    if ms != [] {
      StringifyUnique(ms[..|ms| - 1]);
      PutUnique(Stringify(ms[..|ms| - 1]), ms[|ms| - 1]);
    }
  }

  lemma {:induction false} StringifySpells(j: Json, ms: seq<Member>)
    requires j.Obj? && Within(ms, j.members)
    ensures Spells(Stringify(ms), Fields(j, ms))
  {
    if ms != [] {
      var init, m := ms[..|ms| - 1], ms[|ms| - 1];
      var was, now := Stringify(init), Stringify(ms);
      StringifySpells(j, init);
      StringifyUnique(init);
      forall x ensures x in now <==> x == m || (x in was && x.key != m.key) { PutHas(was, m, x); }
      forall key | key in Fields(j, ms) ensures HasKey(now, key) {
        if key == m.key {
          assert m in now;
        } else {
          assert HasKey(was, key);
        }
      }
    }
  }

  lemma ArrangeSpells(j: Json)
    requires j.Obj?
    ensures Within(Arrange(j.members), j.members)
    ensures Spells(Arrange(j.members), Fields(j, j.members))
  {
    var list, arranged := Stringify(j.members), Arrange(j.members);
    ArrangeWithin(j.members);
    StringifySpells(j, j.members);
    SortPermutes(KeyBelow, list);
    SameElements(arranged, list);
    forall key | key in Fields(j, j.members) ensures HasKey(arranged, key) {
      var m :| m in list && m.key == key;
      assert m in arranged;
    }
  }

  function Keys(ms: seq<Member>): seq<string> {
    seq(|ms|, i requires 0 <= i < |ms| => ms[i].key)
  }

  lemma KeyDetermines(ms: seq<Member>, x: Member, y: Member)
    requires UniqueKeys(ms) && x in ms && y in ms && x.key == y.key
    ensures x == y
  {
  }

  lemma KeyBelowIsWeak()
    ensures StrictWeak(KeyBelow)
  {
    BelowIsTotal();
    forall x, y | KeyBelow(x, y) ensures !KeyBelow(y, x) { BelowAsymmetric(x.key, y.key); }
    forall x, y, z | KeyBelow(x, z) ensures KeyBelow(x, y) || KeyBelow(y, z) { BelowSplits(x.key, y.key, z.key); }
  }

  lemma ArrangeSorted(ms: seq<Member>)
    ensures StrictlySorted(Below, Keys(Arrange(ms)))
  {
    var list, arranged := Stringify(ms), Arrange(ms);
    StringifyUnique(ms);
    KeyBelowIsWeak();
    SortSorted(KeyBelow, list);
    SortPermutes(KeyBelow, list);
    SameElements(arranged, list);
    NoRepeatsCounts(list);
    CountsNoRepeats(arranged);
    forall i, j | 0 <= i < j < |arranged| ensures Below(arranged[i].key, arranged[j].key) {
      assert !KeyBelow(arranged[j], arranged[i]);
      if arranged[i].key == arranged[j].key { KeyDetermines(list, arranged[i], arranged[j]); }
      BelowConnected(arranged[i].key, arranged[j].key);
    }
  }

  /** Same keys in the same places, with values that mean the same. */
  ghost predicate Alike(a: seq<Member>, b: seq<Member>) {
    && |a| == |b|
    && forall i :: 0 <= i < |a| ==> a[i].key == b[i].key && Meaning(a[i].value) == Meaning(b[i].value)
  }

  lemma SpellsAlike(a: seq<Member>, b: seq<Member>, f: map<string, Value>)
    requires Spells(a, f) && Spells(b, f)
    requires StrictlySorted(Below, Keys(a)) && StrictlySorted(Below, Keys(b))
    ensures Alike(a, b)
  {
    BelowIsTotal();
    forall key ensures key in Keys(a) <==> key in Keys(b) {
      KeyIsField(a, f, key);
      KeyIsField(b, f, key);
    }
    StrictlySortedUnique(Below, Keys(a), Keys(b));
    assert |Keys(a)| == |Keys(b)|;
    forall i | 0 <= i < |a| ensures a[i].key == b[i].key && Meaning(a[i].value) == Meaning(b[i].value) {
      assert Keys(a)[i] == Keys(b)[i];
      assert a[i] in a && b[i] in b;
    }
  }

  lemma KeyIsField(a: seq<Member>, f: map<string, Value>, key: string)
    requires Spells(a, f)
    ensures key in Keys(a) <==> key in f
  {
    if key in f {
      var m :| m in a && m.key == key;
      var i :| 0 <= i < |a| && a[i] == m;
      assert Keys(a)[i] == key;
    }
    if key in Keys(a) {
      var i :| 0 <= i < |a| && Keys(a)[i] == key;
      assert a[i] in a;
    }
  }
}
