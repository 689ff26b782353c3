/** Decimal numerals as the server reads and writes them: fmt.Sprintf("%d"), fmt.Sscanf("%d")
    and strconv.ParseUint(_, 10, _). */
module Decimal {
  import opened Common

  predicate IsDigit(c: char) { '0' <= c <= '9' }

  predicate AllDigits(s: string) {
    forall i :: 0 <= i < |s| ==> IsDigit(s[i])
  }

  function DigitChar(d: nat): char
    requires d < 10
  {
    '0' + d as char
  }

  function DigitValue(c: char): nat
    requires IsDigit(c)
  {
    (c - '0') as nat
  }

  function Value(s: string): nat
    requires AllDigits(s)
  {
    if s == "" then 0 else Value(Init(s)) * 10 + DigitValue(Last(s))
  }

  /** fmt.Sprintf("%d", n). */
  function Format(n: nat): string {
    if n < 10 then [DigitChar(n)] else Format(n / 10) + [DigitChar(n % 10)]
  }

  /** strconv.ParseUint(s, 10, bits) where limit is 2 to the power bits. */
  function ParseUint(s: string, limit: nat): Option<nat> {
    if s == "" || !AllDigits(s) || Value(s) >= limit then None else Some(Value(s))
  }

  /** The longest prefix made of digits only. */
  function DigitPrefix(s: string): (p: string)
    ensures p <= s && AllDigits(p)
    ensures |p| < |s| ==> !IsDigit(s[|p|])
  {
    if s == "" || !IsDigit(s[0]) then "" else [s[0]] + DigitPrefix(s[1..])
  }

  /** The characters that Sscanf skips in front of a number; it stops with an error at a new line. */
  predicate IsBlank(c: char) {
    c in {' ', '\t', '\r', '\U{000B}', '\U{000C}', '\U{0085}', '\U{00A0}', '\U{1680}', '\U{2028}', '\U{2029}',
          '\U{202F}', '\U{205F}', '\U{3000}'}
    || '\U{2000}' <= c <= '\U{200A}'
  }

  function AfterBlanks(s: string): Option<string> {
    if s == "" || !(IsBlank(s[0]) || s[0] == '\n') then Some(s)
    else if s[0] == '\n' then None
    else AfterBlanks(s[1..])
  }

  /** fmt.Sscanf(s, "%d", &x) into an unsigned integer below limit: blanks are skipped, what follows the digits is
      ignored, and a sign is not accepted. */
  function Scan(s: string, limit: nat): Option<nat> {
    match AfterBlanks(s)
    case None => None
    case Some(rest) => ParseUint(DigitPrefix(rest), limit)
  }

  /** What Sprintf writes, both ParseUint and Sscanf read back, exactly when it fits the width. */
  lemma {:induction false} FormatParses(n: nat, limit: nat)
    ensures AllDigits(Format(n)) && Format(n) != "" && Value(Format(n)) == n
    ensures ParseUint(Format(n), limit) == if n < limit then Some(n) else None
    ensures Scan(Format(n), limit) == ParseUint(Format(n), limit)
  {
    if n >= 10 {
      FormatParses(n / 10, limit);
      assert Init(Format(n)) == Format(n / 10);
    } else {
      assert Init(Format(n)) == "";
    }
    assert DigitPrefix(Format(n)) == Format(n);
    assert IsDigit(Format(n)[0]);
  }

  lemma FormatInjective(m: nat, n: nat)
    requires Format(m) == Format(n)
    ensures m == n
  {
    FormatParses(m, 0);
    FormatParses(n, 0);
  }
}
