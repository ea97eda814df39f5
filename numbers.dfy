/**
 * The JavaScript number conversions the core relies on: decimal text of a
 * non-negative integer (template literals), `Number(s)` and `parseFloat(s)`
 * restricted to plain decimal literals, with `None` standing for `NaN`.
 */
module JsNumbers {
  import opened Wrappers
  import opened JsStrings

  predicate IsDigit(c: char) {
    '0' <= c <= '9'
  }

  predicate AllDigits(s: string) {
    forall k :: 0 <= k < |s| ==> IsDigit(s[k])
  }

  function DigitValue(c: char): (d: nat)
    requires IsDigit(c)
    ensures d < 10
  {
    c as int - '0' as int
  }

  function DigitChar(d: nat): (c: char)
    requires d < 10
    ensures IsDigit(c) && DigitValue(c) == d
  {
    ('0' as int + d) as char
  }

  /** The value of a string of decimal digits, most significant first. */
  function DigitsValue(s: string): nat
    requires AllDigits(s)
  {
    if s == [] then 0 else DigitsValue(s[..|s| - 1]) * 10 + DigitValue(s[|s| - 1])
  }

  /** `${n}` for a non-negative integer: its shortest decimal text. */
  function DecimalText(n: nat): (s: string)
    ensures |s| >= 1 && AllDigits(s)
    ensures |s| > 1 ==> s[0] != '0'
  {
    if n < 10 then [DigitChar(n)]
    else
      var prefix := DecimalText(n / 10);
      assert (prefix + [DigitChar(n % 10)])[0] == prefix[0];
      prefix + [DigitChar(n % 10)]
  }

  /** Reading back the decimal text of `n` gives `n`. */
  lemma {:induction false} DecimalTextRoundTrip(n: nat)
    ensures DigitsValue(DecimalText(n)) == n
  {
    if n >= 10 {
      var s := DecimalText(n);
      DecimalTextRoundTrip(n / 10);
      assert s[..|s| - 1] == DecimalText(n / 10);
    }
  }

  /** Different numbers have different decimal texts. */
  lemma DecimalTextInjective(m: nat, n: nat)
    requires DecimalText(m) == DecimalText(n)
    ensures m == n
  {
    DecimalTextRoundTrip(m);
    DecimalTextRoundTrip(n);
  }

  /**
   * What may follow a prefix of an unsigned decimal literal that has or has
   * not shown its point and a digit yet: digits, at most one `.` in all, and
   * at least one digit in all (`12`, `12.`, `12.5`, `.5`).
   */
  predicate DecimalRest(s: string, seenPoint: bool, seenDigit: bool) {
    if s == [] then seenDigit
    else if IsDigit(s[0]) then DecimalRest(s[1..], seenPoint, true)
    else s[0] == '.' && !seenPoint && DecimalRest(s[1..], true, seenDigit)
  }

  /** An unsigned decimal literal. */
  predicate IsUnsignedDecimal(s: string) {
    DecimalRest(s, false, false)
  }

  /** The value of the digits after the point: `d1 d2 ...` reads as `(d1 + (d2 + ...) / 10) / 10`. */
  function FractionValue(s: string): (v: real)
    ensures 0.0 <= v <= 1.0
  {
    if s == [] || !IsDigit(s[0]) then 0.0 else (DigitValue(s[0]) as real + FractionValue(s[1..])) / 10.0
  }

  /** The value of the rest `s` of an unsigned decimal literal whose integer digits so far read `acc`. */
  function UnsignedValueFrom(s: string, acc: nat): (v: real)
    ensures v >= 0.0
  {
    if s == [] then acc as real
    else if IsDigit(s[0]) then UnsignedValueFrom(s[1..], acc * 10 + DigitValue(s[0]))
    else acc as real + FractionValue(s[1..])
  }

  function UnsignedDecimalValue(s: string): (v: real)
    requires IsUnsignedDecimal(s)
    ensures v >= 0.0
  {
    UnsignedValueFrom(s, 0)
  }

  predicate HasSign(s: string) {
    |s| > 0 && (s[0] == '+' || s[0] == '-')
  }

  /** A plain decimal literal with an optional sign, as `Number` and `parseFloat` read it. */
  predicate IsDecimalLiteral(s: string) {
    if HasSign(s) then IsUnsignedDecimal(s[1..]) else IsUnsignedDecimal(s)
  }

  function DecimalLiteralValue(s: string): real
    requires IsDecimalLiteral(s)
  {
    if HasSign(s) then
      (if s[0] == '-' then -UnsignedDecimalValue(s[1..]) else UnsignedDecimalValue(s[1..]))
    else UnsignedDecimalValue(s)
  }

  /**
   * `Number(s)` for a string with no surrounding whitespace and no exponent,
   * hexadecimal, binary, octal or `Infinity` form; `None` is `NaN`. The empty
   * string is 0.
   */
  function Number(s: string): (r: Option<real>)
    ensures r.Some? <==> s == "" || IsDecimalLiteral(s)
    ensures s == "" ==> r == Some(0.0)
  {
    if s == "" then Some(0.0)
    else if IsDecimalLiteral(s) then Some(DecimalLiteralValue(s))
    else None
  }

  /**
   * The longest unsigned decimal literal at the start of `t`, whose integer
   * digits so far read `acc` (`seenDigit` once there was one of them).
   */
  function UnsignedPrefixFrom(t: string, acc: nat, seenDigit: bool): (r: Option<real>)
    ensures r.Some? ==> r.value >= 0.0
  {
    if t != [] && IsDigit(t[0]) then UnsignedPrefixFrom(t[1..], acc * 10 + DigitValue(t[0]), true)
    else if t != [] && t[0] == '.' && (seenDigit || (|t| > 1 && IsDigit(t[1]))) then Some(acc as real + FractionValue(t[1..]))
    else if seenDigit then Some(acc as real)
    else None
  }

  /** The longest decimal literal, with an optional sign, at the start of `t`. */
  function LiteralPrefixValue(t: string): Option<real> {
    if HasSign(t) then
      match UnsignedPrefixFrom(t[1..], 0, false)
      case None => None
      case Some(v) => Some(if t[0] == '-' then -v else v)
    else UnsignedPrefixFrom(t, 0, false)
  }

  /**
   * `parseFloat(s)`: skip leading whitespace, then read the longest prefix
   * that is a decimal literal; `None` is `NaN`.
   */
  function ParseFloat(s: string): Option<real> {
    if s != [] && IsWhitespace(s[0]) then ParseFloat(s[1..]) else LiteralPrefixValue(s)
  }

  /** A literal starts here: an optional sign, then a digit, or a point and a digit. */
  predicate StartsLiteral(t: string) {
    var u := if HasSign(t) then t[1..] else t;
    |u| > 0 && (IsDigit(u[0]) || (u[0] == '.' && |u| > 1 && IsDigit(u[1])))
  }

  /** Once a digit has been read, the prefix read always yields a number. */
  lemma {:induction false} DigitSeenReads(t: string, acc: nat)
    ensures UnsignedPrefixFrom(t, acc, true).Some?
  {
    if t != [] && IsDigit(t[0]) {
      DigitSeenReads(t[1..], acc * 10 + DigitValue(t[0]));
    }
  }

  /** `parseFloat` reads what follows the leading whitespace. */
  lemma {:induction false} ParseFloatSkipsWhitespace(s: string)
    ensures ParseFloat(s) == LiteralPrefixValue(TrimStart(s))
  {
    if s != [] && IsWhitespace(s[0]) {
      ParseFloatSkipsWhitespace(s[1..]);
    }
  }

  /** A literal is read at the start of `t` exactly when one starts there. */
  lemma LiteralPrefixDefined(t: string)
    ensures LiteralPrefixValue(t).Some? <==> StartsLiteral(t)
  {
    var u := if HasSign(t) then t[1..] else t;
    if |u| > 0 && IsDigit(u[0]) {
      DigitSeenReads(u[1..], DigitValue(u[0]));
    }
  }

  /** `parseFloat(s)` is a number exactly when, after leading whitespace, a literal starts. */
  lemma ParseFloatDefined(s: string)
    ensures ParseFloat(s).Some? <==> StartsLiteral(TrimStart(s))
  {
    ParseFloatSkipsWhitespace(s);
    LiteralPrefixDefined(TrimStart(s));
  }

  /** On a whole unsigned literal the prefix read takes all of it, with the same value. */
  lemma {:induction false} PrefixReadsWholeLiteral(u: string, acc: nat, seenDigit: bool)
    requires DecimalRest(u, false, seenDigit)
    ensures UnsignedPrefixFrom(u, acc, seenDigit) == Some(UnsignedValueFrom(u, acc))
  {
    if u != [] && IsDigit(u[0]) {
      PrefixReadsWholeLiteral(u[1..], acc * 10 + DigitValue(u[0]), true);
    }
  }

  /** A whole decimal literal is read by `parseFloat` as `Number` reads it. */
  lemma ParseFloatOfLiteral(s: string)
    requires IsDecimalLiteral(s) && !IsWhitespace(s[0])
    ensures ParseFloat(s) == Number(s)
  {
    if HasSign(s) {
      PrefixReadsWholeLiteral(s[1..], 0, false);
    } else {
      PrefixReadsWholeLiteral(s, 0, false);
    }
  }
}
