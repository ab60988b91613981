/** The handler's flag test: str(x).lower() in ("1", "true", "yes", "on"). */
module Truthiness {
  import opened Decimal
  import opened JsonValues

  const TruthyWords: set<string> := {"1", "true", "yes", "on"}

  function LowerChar(c: char): char {
    if 'A' <= c <= 'Z' then (c as int + ('a' as int - 'A' as int)) as char else c
  }

  /** str.lower() restricted to ASCII letters. */
  function AsciiLower(s: string): string {
    seq(|s|, i requires 0 <= i < |s| => LowerChar(s[i]))
  }

  /** str(x) for the scalar JSON values. */
  function Str(x: Json): string
    requires !x.JArr? && !x.JObj?
  {
    match x
    case JNull => "None"
    case JBool(b) => if b then "True" else "False"
    case JInt(n) => IntToString(n)
    case JStr(s) => s
  }

  /** The flag test. str() of a list or dict starts with '[' or '{', which
      begins none of the truthy words, so containers are never truthy. */
  predicate IsTruthy(x: Json) {
    if x.JArr? || x.JObj? then false else AsciiLower(Str(x)) in TruthyWords
  }

  lemma AsciiLowerOfDigits(s: string)
    requires AllDigits(s)
    ensures AsciiLower(s) == s
  {
  }

  /** Lowering twice changes nothing more than lowering once. */
  lemma AsciiLowerIdempotent(s: string)
    ensures AsciiLower(AsciiLower(s)) == AsciiLower(s)
  {
  }

  /** The flag test by kind of value: only true, the integer 1, and the
      strings that lower to one of the words pass. */
  lemma IsTruthyCases(x: Json)
    ensures IsTruthy(x) <==>
      || x == JBool(true)
      || x == JInt(1)
      || (x.JStr? && AsciiLower(x.s) in TruthyWords)
  {
    match x
    case JNull =>
      assert AsciiLower("None") == "none";
    case JBool(b) =>
      assert AsciiLower("True") == "true";
      assert AsciiLower("False") == "false";
    case JInt(n) =>
      var s := IntToString(n);
      var l := AsciiLower(s);
      assert l[0] == LowerChar(s[0]);
      if n < 0 {
        assert l[0] == '-';
      } else {
        AsciiLowerOfDigits(s);
        assert NatToString(1) == "1";
        NatToStringInjective(n, 1);
        assert IsDigit(l[0]);
      }
    case JStr(s) =>
    case JArr(_) =>
    case JObj(_) =>
  }

  /** Flag tests do not depend on letter case. */
  lemma IsTruthyIgnoresCase(s: string)
    ensures IsTruthy(JStr(s)) == IsTruthy(JStr(AsciiLower(s)))
  {
    AsciiLowerIdempotent(s);
  }
}
