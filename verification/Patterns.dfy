/** The text patterns the provider functions check their arguments against. */
module Patterns {

  predicate Lower(c: char) { 'a' <= c <= 'z' }
  predicate Digit(c: char) { '0' <= c <= '9' }
  predicate Hex(c: char) { Digit(c) || 'a' <= c <= 'f' }
  predicate Alphanumeric(c: char) { Digit(c) || Lower(c) || 'A' <= c <= 'Z' }
  predicate NameChar(c: char) { Alphanumeric(c) || c == '_' || c == '.' || c == '-' }

  predicate AllLower(s: string) { forall i :: 0 <= i < |s| ==> Lower(s[i]) }
  predicate AllDigits(s: string) { forall i :: 0 <= i < |s| ==> Digit(s[i]) }
  predicate AllHex(s: string) { forall i :: 0 <= i < |s| ==> Hex(s[i]) }
  predicate AllHexOrDash(s: string) { forall i :: 0 <= i < |s| ==> Hex(s[i]) || s[i] == '-' }
  predicate AllTokenChars(s: string) { forall i :: 0 <= i < |s| ==> Alphanumeric(s[i]) || s[i] == '-' }
  predicate AllNameChars(s: string) { forall i :: 0 <= i < |s| ==> NameChar(s[i]) }

  /** `^[a-z]{2,5}_[0-9a-f-]{36}$` */
  predicate PublicId(s: string) {
    && 39 <= |s| <= 42
    && s[|s| - 37] == '_'
    && AllLower(s[..|s| - 37])
    && AllHexOrDash(s[|s| - 36..])
  }

  /** `^sha256:[0-9a-f]{64}$` */
  predicate Digest(s: string) {
    |s| == 71 && s[..7] == "sha256:" && AllHex(s[7..])
  }

  /** `^[0-9a-f]{40}([0-9a-f]{24})?$` */
  predicate Commit(s: string) {
    (|s| == 40 || |s| == 64) && AllHex(s)
  }

  /** `^[1-9][0-9]{0,19}$` */
  predicate InstallationId(s: string) {
    1 <= |s| <= 20 && AllDigits(s) && s[0] != '0'
  }

  /** `^[0-9A-Za-z-]{8,128}$`: external delivery ids and lease tokens. */
  predicate Token(s: string) {
    8 <= |s| <= 128 && AllTokenChars(s)
  }

  /** `^req_[0-9a-f]{32}$` */
  predicate RequestId(s: string) {
    |s| == 36 && s[..4] == "req_" && AllHex(s[4..])
  }

  /** `^[A-Za-z0-9][A-Za-z0-9_.-]{0,99}/[A-Za-z0-9_.-]{1,100}$` */
  predicate Repository(s: string) {
    exists k ::
      && 1 <= k <= 100 && k + 2 <= |s| <= k + 101
      && s[k] == '/'
      && Alphanumeric(s[0])
      && AllNameChars(s[1..k])
      && AllNameChars(s[k + 1..])
  }
}
