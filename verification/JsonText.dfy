/** JSON values as Ruby holds them, and the text of their scalars. */
module JsonText {
  import opened Patterns
  import opened HexText

  /** A hash keeps insertion order, and a symbol and a string key may read the same. */
  datatype Json =
    | Null | Bool(b: bool) | Int(n: int) | Str(s: string) | Arr(items: seq<Json>) | Obj(members: seq<Member>)

  datatype Member = Member(key: string, value: Json)

  // ----- Integers

  function DigitChar(d: int): (c: char)
    requires 0 <= d < 10
    ensures Digit(c)
  {
    ('0' as int + d) as char
  }

  function NatText(n: nat): (s: string)
    ensures |s| > 0 && AllDigits(s)
  {
    if n < 10 then [DigitChar(n)] else NatText(n / 10) + [DigitChar(n % 10)]
  }

  function IntText(n: int): string {
    if n < 0 then "-" + NatText(-n) else NatText(n)
  }

  function NatValue(s: string): nat
    requires AllDigits(s)
  {
    if s == [] then 0 else 10 * NatValue(s[..|s| - 1]) + (s[|s| - 1] as int - '0' as int)
  }

  lemma {:induction false} NatRoundTrip(n: nat)
    ensures NatValue(NatText(n)) == n
  {
    if n >= 10 {
      NatRoundTrip(n / 10);
      assert NatText(n)[..|NatText(n)| - 1] == NatText(n / 10);
    } else {
      assert NatText(n)[..0] == [];
    }
  }

  lemma IntHead(n: int, x: string)
    ensures |IntText(n)| > 0 && IntText(n)[0] == (IntText(n) + x)[0]
    ensures IntText(n)[0] == '-' || Digit(IntText(n)[0])
    ensures IntText(n)[0] == '-' <==> n < 0
    ensures n < 0 ==> (IntText(n) + x)[1..] == NatText(-n) + x
  {
  }

  // ----- Strings

  /** Control characters, the HTML characters and the two line separators are written by number. */
  predicate ByNumber(c: char) {
    c < ' ' || c == '<' || c == '>' || c == '&' || c == '\U{2028}' || c == '\U{2029}'
  }

  function Escape(c: char): (s: string)
    ensures |s| > 0
  {
    if c == '"' then "\\\""
    else if c == '\\' then "\\\\"
    else if c == '\U{0008}' then "\\b"
    else if c == '\U{000C}' then "\\f"
    else if c == '\n' then "\\n"
    else if c == '\r' then "\\r"
    else if c == '\t' then "\\t"
    else if ByNumber(c) then "\\u" + PaddedHex(c as int, 4)
    else [c]
  }

  function EscapeAll(s: string): string {
    if s == [] then [] else Escape(s[0]) + EscapeAll(s[1..])
  }

  function Quote(s: string): string {
    "\"" + EscapeAll(s) + "\""
  }

  /** What follows an opening quote. */
  function Inside(s: string, x: string): string {
    EscapeAll(s) + "\"" + x
  }

  lemma InsideHead(s: string, x: string)
    ensures Inside(s, x) != [] && (Inside(s, x)[0] == '"' <==> s == [])
    ensures s != [] ==> Inside(s, x) == Escape(s[0]) + Inside(s[1..], x)
    ensures s == [] ==> Inside(s, x)[1..] == x
  {
  }
}
