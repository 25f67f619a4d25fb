/** SQL values that may be NULL, and the three-valued logic PostgreSQL evaluates over them.
    A WHERE or IF condition acts only when it is TRUE; FALSE and UNKNOWN behave alike. */
module Sql {

  datatype Option<+T> = None | Some(value: T)

  /** A boolean that may be UNKNOWN (`None`). */
  type Bool3 = Option<bool>

  function And3(a: Bool3, b: Bool3): Bool3 {
    if a == Some(false) || b == Some(false) then Some(false)
    else if a == None || b == None then None
    else Some(true)
  }

  function Or3(a: Bool3, b: Bool3): Bool3 {
    if a == Some(true) || b == Some(true) then Some(true)
    else if a == None || b == None then None
    else Some(false)
  }

  /** `a = b`, UNKNOWN as soon as one side is NULL. */
  function Equals3<T(==)>(a: Option<T>, b: Option<T>): Bool3 {
    if a == None || b == None then None else Some(a == b)
  }

  predicate IsTrue(b: Bool3) {
    b == Some(true)
  }

  /** `COALESCE(a, fallback)`. */
  function Coalesce<T>(a: Option<T>, fallback: T): T {
    match a
    case Some(v) => v
    case None => fallback
  }

  /** `NULLIF(a, nothing)`. */
  function NullIf<T(==)>(a: Option<T>, nothing: T): Option<T> {
    if a == Some(nothing) then None else a
  }

  /** `left(text, n)`. */
  function Left(text: Option<string>, n: nat): Option<string> {
    match text
    case Some(s) => Some(if |s| <= n then s else s[..n])
    case None => None
  }
}
