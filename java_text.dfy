/** The pieces of `java.lang.String` behaviour the engine relies on:
    `equalsIgnoreCase`, string concatenation of a possibly-null reference,
    and `toString` of a stored variable. Case mapping covers ASCII only. */
module JavaText {
  import opened Types

  function UpperAscii(c: char): char
  {
    if 'a' <= c <= 'z' then (c as int - 32) as char else c
  }

  function LowerAscii(c: char): char
  {
    if 'A' <= c <= 'Z' then (c as int + 32) as char else c
  }

  /** One character step of `regionMatches(true, ...)`: equal, or equal
      after upper-casing, or equal after upper- then lower-casing. */
  predicate CharEqualsIgnoreCase(a: char, b: char)
  {
    a == b || UpperAscii(a) == UpperAscii(b) || LowerAscii(UpperAscii(a)) == LowerAscii(UpperAscii(b))
  }

  /** `s.equalsIgnoreCase(t)` for a non-null `t`: same length and every
      position matches ignoring case. */
  predicate EqualsIgnoreCase(s: string, t: string)
  {
    |s| == |t| && forall i :: 0 <= i < |s| ==> CharEqualsIgnoreCase(s[i], t[i])
  }

  /** The string with every ASCII capital replaced by its small letter. */
  function Lower(s: string): (r: string)
    ensures |r| == |s|
    ensures forall i :: 0 <= i < |s| ==> r[i] == LowerAscii(s[i])
  {
    if s == [] then [] else [LowerAscii(s[0])] + Lower(s[1..])
  }

  lemma CharEqualsIgnoreCaseIsLowerEquality(a: char, b: char)
    ensures CharEqualsIgnoreCase(a, b) <==> LowerAscii(a) == LowerAscii(b)
  {
  }

  /** Reference definition: `equalsIgnoreCase` holds exactly when the two
      strings agree once both are lower-cased. */
  lemma EqualsIgnoreCaseIsLowerEquality(s: string, t: string)
    ensures EqualsIgnoreCase(s, t) <==> Lower(s) == Lower(t)
  {
  }

  /** Matching a literal that is already lower case: the input lower-cases
      to that literal. */
  lemma EqualsIgnoreCaseLiteral(s: string, lit: string)
    requires Lower(lit) == lit
    ensures EqualsIgnoreCase(s, lit) <==> Lower(s) == lit
  {
    EqualsIgnoreCaseIsLowerEquality(s, lit);
  }

  /** What `"" + o` yields for a String reference `o`: its text, or "null". */
  function StringOf(o: Option<string>): string
  {
    if o.Some? then o.value else "null"
  }

  function DigitChar(d: nat): (c: char)
    requires d < 10
    ensures '0' <= c <= '9'
  {
    ('0' as int + d) as char
  }

  /** Decimal digits of a natural number, most significant first. */
  function NatDecimal(n: nat): (r: string)
    ensures |r| >= 1
    ensures forall i :: 0 <= i < |r| ==> '0' <= r[i] <= '9'
    decreases n
  {
    if n < 10 then [DigitChar(n)] else NatDecimal(n / 10) + [DigitChar(n % 10)]
  }

  /** `Integer.toString`. */
  function IntDecimal(n: int32): string
  {
    if n < 0 then "-" + NatDecimal(-(n as int)) else NatDecimal(n as nat)
  }

  /** `toString()` of a stored variable: a String's own text, an Integer's
      decimal digits; a payload object renders as the empty string. */
  function TextOf(v: Value): string
  {
    match v
    case Str(s) => s
    case Num(n) => IntDecimal(n)
    case Data(_) => ""
  }
}
