/** The string renderings the workflow performs: decimal numbers and template interpolation. */
module Text {
  import opened Wrappers

  /** The decimal digit character for d. */
  function Digit(d: nat): (c: char)
    requires d < 10
    ensures '0' <= c <= '9' && c as int - '0' as int == d
  {
    ('0' as int + d) as char
  }

  predicate IsDigits(s: string)
  {
    forall i :: 0 <= i < |s| ==> '0' <= s[i] <= '9'
  }

  /** How a template literal prints a non-negative integer (an array length, the version number). */
  function NatToString(n: nat): (s: string)
    ensures |s| >= 1 && IsDigits(s)
    ensures n < 10 <==> |s| == 1
  {
    if n < 10 then [Digit(n)] else NatToString(n / 10) + [Digit(n % 10)]
  }

  /** The reference reading of a decimal numeral; the inverse of NatToString. */
  function ParseDecimal(s: string): nat
    requires IsDigits(s)
  {
    if s == [] then 0 else 10 * ParseDecimal(s[..|s| - 1]) + (s[|s| - 1] as int - '0' as int)
  }

  /** Printing a number and reading it back yields the number. */
  lemma {:induction false} ParseNatToString(n: nat)
    ensures ParseDecimal(NatToString(n)) == n
  {
    if n >= 10 {
      var p := NatToString(n / 10);
      ParseNatToString(n / 10);
      assert NatToString(n)[..|NatToString(n)| - 1] == p;
    }
  }

  /** Distinct numbers print differently, so a printed count identifies the count. */
  lemma NatToStringInjective(a: nat, b: nat)
    ensures NatToString(a) == NatToString(b) ==> a == b
  {
    ParseNatToString(a);
    ParseNatToString(b);
  }

  /** `${v}` in a template literal: the string itself, or "undefined" when v is absent. */
  function Template(v: Option<string>): string
  {
    match v
    case Some(s) => s
    case None => "undefined"
  }

  /** JSON.stringify of a string: the string between double quotes (escaping is not modelled). */
  function JsonQuote(s: string): (r: string)
    ensures |r| == |s| + 2 && r[0] == '"' && r[|r| - 1] == '"' && r[1..|r| - 1] == s
  {
    "\"" + s + "\""
  }
}
