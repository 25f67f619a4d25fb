/** A reader for JSON texts without spaces, fractions or exponents, as RFC 8259 spells values, and the proof that it
    reads back every dumped value. */
module JsonReader {
  import opened Patterns
  import opened HexText
  import opened JsonText
  import opened CanonicalJson

  /** What was read and what follows it. */
  datatype Parse<T> = Got(value: T, rest: string) | Bad

  // ----- The reader

  function DigitCount(s: string): (n: nat)
    ensures n <= |s| && AllDigits(s[..n])
  {
    if s == [] || !Digit(s[0]) then 0
    else
      var n := DigitCount(s[1..]);
      assert s[..n + 1] == [s[0]] + s[1..][..n];
      n + 1
  }

  function ReadNat(s: string): (r: Parse<nat>)
    ensures r.Got? ==> |r.rest| < |s|
  {
    var n := DigitCount(s);
    if n == 0 then Bad else Got(NatValue(s[..n]), s[n..])
  }

  function ReadInt(s: string): (r: Parse<int>)
    ensures r.Got? ==> |r.rest| < |s|
  {
    if s != [] && s[0] == '-' then
      match ReadNat(s[1..])
      case Got(n, rest) => (var m: int := n; Got(-m, rest))
      case Bad => Bad
    else match ReadNat(s)
      case Got(n, rest) => Got(n, rest)
      case Bad => Bad
  }

  /** What follows a backslash. */
  function ReadEscape(s: string): (r: Parse<char>)
    ensures r.Got? ==> |r.rest| < |s|
  {
    if s == [] then Bad
    else if s[0] == '"' || s[0] == '\\' || s[0] == '/' then Got(s[0], s[1..])
    else if s[0] == 'b' then Got('\U{0008}', s[1..])
    else if s[0] == 'f' then Got('\U{000C}', s[1..])
    else if s[0] == 'n' then Got('\n', s[1..])
    else if s[0] == 'r' then Got('\r', s[1..])
    else if s[0] == 't' then Got('\t', s[1..])
    else if s[0] == 'u' && |s| >= 5 && AllHex(s[1..5]) && ParseHex(s[1..5]) < 0xD800 then
      Got(ParseHex(s[1..5]) as char, s[5..])
    else Bad
  }

  /** What follows an opening quote, up to the closing one. */
  function ReadText(s: string): (r: Parse<string>)
    ensures r.Got? ==> |r.rest| < |s|
  {
    if s == [] || s[0] < ' ' then Bad
    else if s[0] == '"' then Got("", s[1..])
    else
      var first := if s[0] == '\\' then ReadEscape(s[1..]) else Got(s[0], s[1..]);
      if first == Bad then Bad
      else match ReadText(first.rest)
        case Got(text, rest) => Got([first.value] + text, rest)
        case Bad => Bad
  }

  predicate Starts(s: string, word: string) {
    |word| <= |s| && s[..|word|] == word
  }

  function ReadValue(s: string): (r: Parse<Value>)
    ensures r.Got? ==> |r.rest| < |s|
    decreases |s|, 1
  {
    if s == [] then Bad
    else if s[0] == 'n' then if Starts(s, "null") then Got(NullValue, s[4..]) else Bad
    else if s[0] == 't' then if Starts(s, "true") then Got(BoolValue(true), s[4..]) else Bad
    else if s[0] == 'f' then if Starts(s, "false") then Got(BoolValue(false), s[5..]) else Bad
    else if s[0] == '"' then
      match ReadText(s[1..]) case Got(text, rest) => Got(StrValue(text), rest) case Bad => Bad
    else if s[0] == '[' then
      if |s| > 1 && s[1] == ']' then Got(ArrValue([]), s[2..])
      else match ReadItems(s[1..]) case Got(items, rest) => Got(ArrValue(items), rest) case Bad => Bad
    else if s[0] == '{' then
      if |s| > 1 && s[1] == '}' then Got(ObjValue(map[]), s[2..])
      else match ReadMembers(s[1..]) case Got(fields, rest) => Got(ObjValue(fields), rest) case Bad => Bad
    else match ReadInt(s) case Got(n, rest) => Got(IntValue(n), rest) case Bad => Bad
  }

  /** The items of an array, one at least, and the closing bracket. */
  function ReadItems(s: string): (r: Parse<seq<Value>>)
    ensures r.Got? ==> |r.rest| < |s|
    decreases |s|, 2
  {
    match ReadValue(s)
    case Bad => Bad
    case Got(item, rest) =>
      if rest == [] then Bad
      else if rest[0] == ']' then Got([item], rest[1..])
      else if rest[0] != ',' then Bad
      else match ReadItems(rest[1..])
        case Got(items, last) => Got([item] + items, last)
        case Bad => Bad
  }

  /** The members of an object, one at least, and the closing brace. A key that occurs again takes its last value. */
  function ReadMembers(s: string): (r: Parse<map<string, Value>>)
    ensures r.Got? ==> |r.rest| < |s|
    decreases |s|, 2
  {
    if s == [] || s[0] != '"' then Bad
    else match ReadText(s[1..])
      case Bad => Bad
      case Got(key, after) =>
        if after == [] || after[0] != ':' then Bad
        else match ReadValue(after[1..])
          case Bad => Bad
          case Got(value, rest) =>
            if rest == [] then Bad
            else if rest[0] == '}' then Got(map[key := value], rest[1..])
            else if rest[0] != ',' then Bad
            else match ReadMembers(rest[1..])
              case Got(fields, last) => Got(map[key := value] + fields, last)
              case Bad => Bad
  }

  // ----- Scalars are read back

  lemma {:induction false} CountsDigits(a: string, x: string)
    requires AllDigits(a) && (x == [] || !Digit(x[0]))
    ensures DigitCount(a + x) == |a|
  {
    if a == [] {
      assert a + x == x;
    } else {
      assert (a + x)[1..] == a[1..] + x;
      CountsDigits(a[1..], x);
    }
  }

  lemma ReadsNat(n: nat, x: string)
    requires x == [] || !Digit(x[0])
    ensures ReadNat(NatText(n) + x) == Got(n, x)
  {
    CountsDigits(NatText(n), x);
    NatRoundTrip(n);
    assert (NatText(n) + x)[..|NatText(n)|] == NatText(n) && (NatText(n) + x)[|NatText(n)|..] == x;
  }

  /** A number is read back, and ends at the first character that is not a digit. */
  lemma ReadsInt(n: int, x: string)
    requires x == [] || !Digit(x[0])
    ensures ReadInt(IntText(n) + x) == Got(n, x)
  {
    IntHead(n, x);
    if n < 0 { ReadsNat(-n, x); } else { ReadsNat(n, x); }
  }

  lemma ReadsNumber(c: char, t: string)
    requires ByNumber(c)
    ensures ReadEscape("u" + PaddedHex(c as int, 4) + t) == Got(c, t)
  {
    var s := "u" + PaddedHex(c as int, 4) + t;
    assert s[1..5] == PaddedHex(c as int, 4) && s[5..] == t;
    assert Pow(16, 4) == 0x1_0000;
    ParsePadded(c as int, 4);
  }

  /** The three kinds of escapes: the character itself, a backslash and a letter, and a number. */
  lemma EscapeShapes(c: char)
    ensures Escape(c) == [c] ==> c >= ' ' && c != '"' && c != '\\'
    ensures Escape(c) != [c] && !(ByNumber(c) && Escape(c) == "\\u" + PaddedHex(c as int, 4)) ==>
      |Escape(c)| == 2 && Escape(c)[0] == '\\' && ReadEscape([Escape(c)[1]]) == Got(c, [])
  {
    if |Escape(c)| == 2 { assert [Escape(c)[1]][1..] == []; }
  }

  lemma ReadsLetter(x: char, c: char, t: string)
    requires ReadEscape([x]) == Got(c, [])
    ensures ReadEscape([x] + t) == Got(c, t)
  {
    assert ([x] + t)[1..] == t && [x][1..] == [];
  }

  lemma ReadsSelf(c: char, t: string)
    requires ReadText(t).Got? && c >= ' ' && c != '"' && c != '\\'
    ensures ReadText([c] + t) == Got([c] + ReadText(t).value, ReadText(t).rest)
  {
    assert ([c] + t)[1..] == t;
  }

  /** After a backslash comes what the escape stands for. */
  lemma ReadsBackslash(rest: string, c: char, t: string)
    requires ReadEscape(rest) == Got(c, t) && ReadText(t).Got?
    ensures ReadText("\\" + rest) == Got([c] + ReadText(t).value, ReadText(t).rest)
  {
    assert ("\\" + rest)[1..] == rest;
  }

  lemma ReadsEscape(c: char, t: string)
    requires ReadText(t).Got?
    ensures ReadText(Escape(c) + t) == Got([c] + ReadText(t).value, ReadText(t).rest)
  {
    EscapeShapes(c);
    ReadsEscaped(c, Escape(c), t);
  }

  lemma ReadsEscaped(c: char, e: string, t: string)
    requires ReadText(t).Got?
    requires e == [c] ==> c >= ' ' && c != '"' && c != '\\'
    requires e != [c] && !(ByNumber(c) && e == "\\u" + PaddedHex(c as int, 4)) ==>
      |e| == 2 && e[0] == '\\' && ReadEscape([e[1]]) == Got(c, [])
    ensures ReadText(e + t) == Got([c] + ReadText(t).value, ReadText(t).rest)
  {
    if e == [c] {
      ReadsSelf(c, t);
    } else if ByNumber(c) && e == "\\u" + PaddedHex(c as int, 4) {
      var rest := "u" + PaddedHex(c as int, 4) + t;
      ReadsNumber(c, t);
      ReadsBackslash(rest, c, t);
      assert e + t == "\\" + rest;
    } else {
      ReadsLetter(e[1], c, t);
      ReadsBackslash([e[1]] + t, c, t);
      assert e + t == "\\" + ([e[1]] + t);
    }
  }

  /** A quoted text is read back, and ends at its closing quote. */
  lemma {:induction false} ReadsInside(s: string, x: string)
    ensures ReadText(Inside(s, x)) == Got(s, x)
  {
    InsideHead(s, x);
    if s == [] {
      assert Inside(s, x)[0] == '"';
    } else {
      ReadsInside(s[1..], x);
      ReadsEscape(s[0], Inside(s[1..], x));
      assert s == [s[0]] + s[1..];
    }
  }

  // ----- The first character tells what kind of value follows

  function Kind(j: Json): nat {
    match j
    case Null => 0
    case Bool(_) => 1
    case Int(_) => 2
    case Str(_) => 3
    case Arr(_) => 4
    case Obj(_) => 5
  }

  function KindOf(c: char): nat {
    if c == 'n' then 0
    else if c == 't' || c == 'f' then 1
    else if c == '-' || Digit(c) then 2
    else if c == '"' then 3
    else if c == '[' then 4
    else if c == '{' then 5
    else 6
  }

  lemma DumpHead(j: Json, u: string)
    ensures Dump(j) != [] && (Dump(j) + u)[0] == Dump(j)[0] && KindOf(Dump(j)[0]) == Kind(j)
  {
    if j.Int? { IntHead(j.n, u); }
  }

  /** What may come after a value: nothing, a comma or a closing bracket. */
  predicate Follow(u: string) {
    u == [] || u[0] == ',' || u[0] == ']' || u[0] == '}'
  }

  // ----- Lists

  ghost function ItemsText(j: Json, a: seq<Json>, u: string): string
    requires j.Arr? && forall x :: x in a ==> x in j.items
  {
    DumpItems(j, a) + "]" + u
  }

  ghost function ItemsRest(j: Json, a: seq<Json>, u: string): string
    requires j.Arr? && a != [] && forall x :: x in a ==> x in j.items
  {
    if |a| == 1 then "]" + u else "," + ItemsText(j, a[1..], u)
  }

  lemma ItemsUnfold(j: Json, a: seq<Json>, u: string)
    requires j.Arr? && forall x :: x in a ==> x in j.items
    ensures var t := ItemsText(j, a, u);
      && t != []
      && (a == [] ==> t == "]" + u)
      && (a != [] ==> t == Dump(a[0]) + ItemsRest(j, a, u) && t[0] != ']' && Follow(ItemsRest(j, a, u)))
  {
    if a != [] {
      DumpHead(a[0], ItemsRest(j, a, u));
      assert ItemsText(j, a, u) == Dump(a[0]) + ItemsRest(j, a, u);
    }
  }

  lemma RestUnfold(j: Json, a: seq<Json>, u: string)
    requires j.Arr? && a != [] && forall x :: x in a ==> x in j.items
    ensures var t := ItemsRest(j, a, u);
      && t != [] && (t[0] == ']' <==> |a| == 1)
      && (|a| == 1 ==> t[1..] == u)
      && (|a| > 1 ==> t[1..] == ItemsText(j, a[1..], u))
  {
  }

  ghost function MembersText(j: Json, a: seq<Member>, u: string): string
    requires j.Obj? && Within(a, j.members)
  {
    DumpMembers(j, a) + "}" + u
  }

  ghost function MembersRest(j: Json, a: seq<Member>, u: string): string
    requires j.Obj? && a != [] && Within(a, j.members)
  {
    if |a| == 1 then "}" + u else "," + MembersText(j, a[1..], u)
  }

  lemma Regroup(a: string, b: string, c: string, d: string)
    ensures a + b + c + d == a + (b + (c + d))
  {
  }

  lemma Joined(first: string, rest: string, u: string)
    ensures first + "," + rest + "}" + u == first + ("," + (rest + "}" + u))
    ensures first + "}" + u == first + ("}" + u)
  {
  }

  lemma MembersSplit(j: Json, a: seq<Member>, u: string)
    requires j.Obj? && a != [] && Within(a, j.members)
    ensures MembersText(j, a, u) == DumpMember(a[0]) + MembersRest(j, a, u)
  {
    var first := DumpMember(a[0]);
    if |a| > 1 {
      var rest := DumpMembers(j, a[1..]);
      assert DumpMembers(j, a) == first + "," + rest;
      Joined(first, rest, u);
    } else {
      Joined(first, [], u);
    }
  }

  lemma MembersUnfold(j: Json, a: seq<Member>, u: string)
    requires j.Obj? && Within(a, j.members)
    ensures var t := MembersText(j, a, u);
      && t != []
      && (a == [] ==> t == "}" + u)
      && (a != [] ==> t == Quote(a[0].key) + (":" + (Dump(a[0].value) + MembersRest(j, a, u)))
                      && t[0] == '"' && Follow(MembersRest(j, a, u)))
  {
    if a != [] {
      MembersSplit(j, a, u);
      Regroup(Quote(a[0].key), ":", Dump(a[0].value), MembersRest(j, a, u));
    }
  }

  lemma MembersRestUnfold(j: Json, a: seq<Member>, u: string)
    requires j.Obj? && a != [] && Within(a, j.members)
    ensures var t := MembersRest(j, a, u);
      && t != [] && (t[0] == '}' <==> |a| == 1)
      && (|a| == 1 ==> t[1..] == u)
      && (|a| > 1 ==> t[1..] == MembersText(j, a[1..], u))
  {
  }

  lemma ArrText(j: Json, u: string)
    requires j.Arr?
    ensures (Dump(j) + u)[1..] == ItemsText(j, j.items, u)
  {
  }

  lemma ObjText(j: Json, u: string)
    requires j.Obj?
    ensures Within(Arrange(j.members), j.members) && (Dump(j) + u)[1..] == MembersText(j, Arrange(j.members), u)
  {
    ArrangeWithin(j.members);
  }

  // ----- Values are read back

  lemma ReadsScalar(j: Json, u: string)
    requires Follow(u) && !j.Arr? && !j.Obj?
    ensures ReadValue(Dump(j) + u) == Got(Meaning(j), u)
  {
    var s := Dump(j) + u;
    DumpHead(j, u);
    match j
    case Null => assert s[..4] == "null" && s[4..] == u;
    case Bool(b) => assert s[..|Dump(j)|] == Dump(j) && s[|Dump(j)|..] == u;
    case Int(n) =>
      IntHead(n, u);
      ReadsInt(n, u);
    case Str(text) =>
      assert s[1..] == Inside(text, u);
      ReadsInside(text, u);
  }

  /** Every dumped value is read back as what it means, whatever may follow it. */
  lemma {:induction false} ReadsDump(j: Json, u: string)
    requires Follow(u)
    ensures ReadValue(Dump(j) + u) == Got(Meaning(j), u)
    decreases j, 3
  {
    if j.Arr? {
      ReadsArr(j, u);
    } else if j.Obj? {
      ReadsObj(j, u);
    } else {
      ReadsScalar(j, u);
    }
  }

  lemma {:induction false} ReadsArr(j: Json, u: string)
    requires j.Arr?
    ensures ReadValue(Dump(j) + u) == Got(Meaning(j), u)
    decreases j, 2
  {
    var s, t := Dump(j) + u, ItemsText(j, j.items, u);
    DumpHead(j, u);
    ArrText(j, u);
    ItemsUnfold(j, j.items, u);
    assert s[0] == '[' && s[1..] == t && s[1] == t[0];
    if j.items == [] {
      assert s[2..] == s[1..][1..] == t[1..] == u;
    } else {
      ReadsItems(j, j.items, u);
    }
  }

  lemma {:induction false} ReadsObj(j: Json, u: string)
    requires j.Obj?
    ensures ReadValue(Dump(j) + u) == Got(Meaning(j), u)
    decreases j, 2
  {
    ObjText(j, u);
    var s, ms := Dump(j) + u, Arrange(j.members);
    var t := MembersText(j, ms, u);
    DumpHead(j, u);
    MembersUnfold(j, ms, u);
    ArrangeSpells(j);
    ReadIsSpelled(j, ms, Fields(j, j.members));
    assert s[0] == '{' && s[1..] == t && s[1] == t[0];
    if ms == [] {
      assert s[2..] == s[1..][1..] == t[1..] == u;
    } else {
      ReadsMembers(j, ms, u);
    }
  }

  lemma {:induction false} ReadsItems(j: Json, a: seq<Json>, u: string)
    requires j.Arr? && a != [] && forall x :: x in a ==> x in j.items
    ensures ReadItems(ItemsText(j, a, u)) == Got(Meanings(j, a), u)
    decreases j, 1, |a|
  {
    assert a[0] in j.items;
    ItemsUnfold(j, a, u);
    ReadsDump(a[0], ItemsRest(j, a, u));
    RestUnfold(j, a, u);
    if |a| > 1 {
      ReadsItems(j, a[1..], u);
    } else {
      assert a[1..] == [] && Meanings(j, a) == [Meaning(a[0])];
    }
  }

  /** The members of a list as a map; a later one overrides. */
  function Collected(j: Json, ms: seq<Member>): map<string, Value>
    requires j.Obj? && Within(ms, j.members)
  {
    if ms == [] then map[] else map[ms[0].key := Meaning(ms[0].value)] + Collected(j, ms[1..])
  }

  /** One member and what follows it. */
  lemma ReadsMember(key: string, text: string, value: Value, rest: string)
    requires ReadValue(text + rest) == Got(value, rest) && rest != []
    ensures ReadMembers(Quote(key) + (":" + (text + rest))) ==
      if rest[0] == '}' then Got(map[key := value], rest[1..])
      else if rest[0] != ',' then Bad
      else match ReadMembers(rest[1..])
        case Got(fields, last) => Got(map[key := value] + fields, last)
        case Bad => Bad
  {
    var after := ":" + (text + rest);
    var s := Quote(key) + after;
    assert s[0] == '"' && s[1..] == Inside(key, after);
    ReadsInside(key, after);
    assert after[0] == ':' && after[1..] == text + rest;
  }

  lemma {:induction false} ReadsMembers(j: Json, a: seq<Member>, u: string)
    requires j.Obj? && a != [] && Within(a, j.members)
    ensures ReadMembers(MembersText(j, a, u)) == Got(Collected(j, a), u)
    decreases j, 1, |a|
  {
    assert a[0] in j.members;
    var rest := MembersRest(j, a, u);
    MembersUnfold(j, a, u);
    ReadsDump(a[0].value, rest);
    MembersRestUnfold(j, a, u);
    ReadsMember(a[0].key, Dump(a[0].value), Meaning(a[0].value), rest);
    if |a| > 1 {
      ReadsMembers(j, a[1..], u);
      assert rest[0] == ',';
    } else {
      assert Collected(j, a[1..]) == map[];
      assert Collected(j, a) == map[a[0].key := Meaning(a[0].value)];
    }
  }

  lemma {:induction false} CollectedHas(j: Json, ms: seq<Member>, key: string)
    requires j.Obj? && Within(ms, j.members)
    ensures key in Collected(j, ms) <==> HasKey(ms, key)
    ensures key in Collected(j, ms) ==> exists m :: m in ms && m.key == key && Meaning(m.value) == Collected(j, ms)[key]
  {
    if ms != [] {
      CollectedHas(j, ms[1..], key);
      assert ms == [ms[0]] + ms[1..];
      if key in Collected(j, ms[1..]) {
        var m :| m in ms[1..] && m.key == key && Meaning(m.value) == Collected(j, ms[1..])[key];
        assert m in ms && Collected(j, ms)[key] == Meaning(m.value);
      } else if key == ms[0].key {
        assert ms[0] in ms && Collected(j, ms)[key] == Meaning(ms[0].value);
      }
    }
  }

  lemma ReadIsSpelled(j: Json, ms: seq<Member>, fields: map<string, Value>)
    requires j.Obj? && Within(ms, j.members) && Spells(ms, fields)
    ensures Collected(j, ms) == fields
  {
    forall key ensures key in Collected(j, ms) <==> key in fields { CollectedHas(j, ms, key); }
    forall key | key in fields ensures Collected(j, ms)[key] == fields[key] { CollectedHas(j, ms, key); }
  }

  // ----- A dump is plain

  predicate IsPlain(c: char) {
    c >= ' ' && c != '<' && c != '>' && c != '&' && c != '\U{2028}' && c != '\U{2029}'
  }

  /** Neither a control character nor a line separator, nor one that HTML reads. */
  predicate Plain(s: string) {
    forall i :: 0 <= i < |s| ==> IsPlain(s[i])
  }

  lemma PlainText(s: string)
    requires forall i :: 0 <= i < |s| ==> Hex(s[i])
    ensures Plain(s)
  {
  }

  lemma {:induction false} EscapedIsPlain(s: string)
    ensures Plain(EscapeAll(s))
  {
    if s != [] {
      if ByNumber(s[0]) { PlainText(PaddedHex(s[0] as int, 4)); }
      assert Plain(Escape(s[0]));
      EscapedIsPlain(s[1..]);
    }
  }

  lemma IntIsPlain(n: int)
    ensures Plain(IntText(n))
  {
    PlainText(NatText(if n < 0 then -n else n));
  }

  /** No dump holds a character that would have to be escaped again inside a page or a line. */
  lemma {:induction false} DumpIsPlain(j: Json)
    ensures Plain(Dump(j))
    decreases j, 2
  {
    match j
    case Null =>
    case Bool(_) =>
    case Int(n) => IntIsPlain(n);
    case Str(s) => EscapedIsPlain(s);
    case Arr(items) => ItemsArePlain(j, items);
    case Obj(ms) =>
      ArrangeWithin(ms);
      MembersArePlain(j, Arrange(ms));
  }

  lemma {:induction false} ItemsArePlain(j: Json, items: seq<Json>)
    requires j.Arr? && forall x :: x in items ==> x in j.items
    ensures Plain(DumpItems(j, items))
    decreases j, 1, |items|
  {
    if items != [] {
      assert items[0] in j.items;
      DumpIsPlain(items[0]);
      ItemsArePlain(j, items[1..]);
    }
  }

  lemma {:induction false} MembersArePlain(j: Json, ms: seq<Member>)
    requires j.Obj? && Within(ms, j.members)
    ensures Plain(DumpMembers(j, ms))
    decreases j, 1, |ms|
  {
    if ms != [] {
      assert ms[0] in j.members;
      EscapedIsPlain(ms[0].key);
      DumpIsPlain(ms[0].value);
      MembersArePlain(j, ms[1..]);
    }
  }
}
