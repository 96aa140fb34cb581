/** `parseNumber`, the coercion the calculator's form applies to every input
    value (src/retirement/index.tsx:214-222), with `parseInt(text, 10)` modelled
    as ECMAScript's decimal-prefix parser over integers. */
module NumberInput {
  import opened Wrappers

  /** A JavaScript number: a finite value or NaN. */
  datatype JsNumber = Finite(value: real) | NaN

  /** What `parseNumber` accepts: a string or a number. */
  datatype Input = Text(text: string) | Number(number: JsNumber)

  /** JavaScript truthiness: the empty string, 0 and NaN are falsy. */
  predicate IsFalsy(input: Input) {
    match input
    case Text(t) => t == ""
    case Number(n) => n == NaN || n == Finite(0.0)
  }

  predicate IsDigit(c: char) {
    '0' <= c <= '9'
  }

  function DigitValue(c: char): nat
    requires IsDigit(c)
  {
    c as int - '0' as int
  }

  function DigitChar(d: nat): (c: char)
    requires d < 10
    ensures IsDigit(c) && DigitValue(c) == d
  {
    ('0' as int + d) as char
  }

  predicate AllDigits(ds: string) {
    forall i :: 0 <= i < |ds| ==> IsDigit(ds[i])
  }

  /** The white space and line terminators `parseInt` skips before the number
      (ECMAScript's StrWhiteSpaceChar: WhiteSpace and LineTerminator). */
  predicate IsWhiteSpace(c: char) {
    var u := c as int;
    || u == 0x09 || u == 0x0A || u == 0x0B || u == 0x0C || u == 0x0D || u == 0x20
    || u == 0xA0 || u == 0x1680 || (0x2000 <= u <= 0x200A) || u == 0x2028 || u == 0x2029
    || u == 0x202F || u == 0x205F || u == 0x3000 || u == 0xFEFF
  }

  predicate AllWhiteSpace(ws: string) {
    forall i :: 0 <= i < |ws| ==> IsWhiteSpace(ws[i])
  }

  /** `s` without its leading white space. */
  function TrimStart(s: string): (t: string)
    ensures |t| <= |s| && t == s[|s| - |t|..]
    ensures t == [] || !IsWhiteSpace(t[0])
    ensures AllWhiteSpace(s[..|s| - |t|])
  {
    if |s| > 0 && IsWhiteSpace(s[0]) then TrimStart(s[1..]) else s
  }

  /** Length of the run of decimal digits that `s` starts with. */
  function DigitRun(s: string): (n: nat)
    ensures n <= |s| && AllDigits(s[..n])
    ensures n < |s| ==> !IsDigit(s[n])
  {
    if |s| > 0 && IsDigit(s[0]) then 1 + DigitRun(s[1..]) else 0
  }

  /** The value of a string of decimal digits, most significant first. */
  function DecimalValue(ds: string): nat
    requires AllDigits(ds)
  {
    if ds == [] then 0 else DecimalValue(ds[..|ds| - 1]) * 10 + DigitValue(ds[|ds| - 1])
  }

  /** The value of the digit run `u` starts with, if it starts with a digit. */
  function LeadingDigits(u: string): Option<nat> {
    var n := DigitRun(u);
    if n == 0 then None else Some(DecimalValue(u[..n]))
  }

  /** The number at the start of `t`: an optional sign, then digits. */
  function SignedPrefix(t: string): JsNumber {
    var negative := |t| > 0 && t[0] == '-';
    var unsigned := if |t| > 0 && (t[0] == '-' || t[0] == '+') then t[1..] else t;
    match LeadingDigits(unsigned)
    case None => NaN
    case Some(m) => Finite(if negative then -(m as real) else m as real)
  }

  /** `parseInt(s, 10)`: skip leading white space, read an optional sign and
      the longest run of decimal digits; NaN when that run is empty. */
  function ParseInt(s: string): JsNumber {
    SignedPrefix(TrimStart(s))
  }

  /** `parseNumber`: 0 for a falsy input, a number unchanged, and `parseInt`
      of any other string. */
  function ParseNumber(input: Input): (r: JsNumber)
    ensures IsFalsy(input) ==> r == Finite(0.0)
    ensures input.Number? ==> r.Finite?
    ensures input.Number? && input.number.Finite? ==> r == input.number
    ensures input.Text? && input.text != "" ==> r == ParseInt(input.text)
  {
    if IsFalsy(input) then Finite(0.0)
    else
      match input
      case Number(n) => n
      case Text(t) => ParseInt(t)
  }

  /** The decimal digits of a natural number, as `String(n)` writes them. */
  function Digits(n: nat): (ds: string)
    ensures |ds| > 0 && AllDigits(ds)
  {
    if n < 10 then [DigitChar(n)] else Digits(n / 10) + [DigitChar(n % 10)]
  }

  /** The decimal text of an integer, with a leading '-' when it is negative. */
  function Decimal(n: int): string {
    if n < 0 then "-" + Digits(-n) else Digits(n)
  }

  lemma {:induction false} DecimalValueOfDigits(n: nat)
    ensures DecimalValue(Digits(n)) == n
  {
    if n >= 10 {
      var ds := Digits(n);
      assert ds[..|ds| - 1] == Digits(n / 10);
      DecimalValueOfDigits(n / 10);
    }
  }

  lemma {:induction false} DigitRunStopsAfterDigits(ds: string, rest: string)
    requires AllDigits(ds)
    requires rest == [] || !IsDigit(rest[0])
    ensures DigitRun(ds + rest) == |ds|
  {
    if ds != [] {
      assert (ds + rest)[1..] == ds[1..] + rest;
      DigitRunStopsAfterDigits(ds[1..], rest);
    }
  }

  lemma LeadingDigitsOfDigits(m: nat, rest: string)
    requires rest == [] || !IsDigit(rest[0])
    ensures LeadingDigits(Digits(m) + rest) == Some(m)
  {
    var ds := Digits(m);
    DigitRunStopsAfterDigits(ds, rest);
    assert (ds + rest)[..|ds|] == ds;
    DecimalValueOfDigits(m);
  }

  lemma TrimStartKeepsNumber(s: string)
    requires |s| > 0 && (s[0] == '-' || IsDigit(s[0]))
    ensures TrimStart(s) == s
  {
    assert !IsWhiteSpace(s[0]);
  }

  lemma SignedPrefixOfNegative(m: nat, u: string)
    requires LeadingDigits(u) == Some(m)
    ensures SignedPrefix(['-'] + u) == Finite(-(m as real))
  {
    assert (['-'] + u)[0] == '-' && (['-'] + u)[1..] == u;
  }

  lemma SignedPrefixOfUnsigned(m: nat, u: string)
    requires |u| > 0 && IsDigit(u[0]) && LeadingDigits(u) == Some(m)
    ensures SignedPrefix(u) == Finite(m as real)
  {
  }

  lemma ParseIntOfMinus(m: nat, u: string)
    requires LeadingDigits(u) == Some(m)
    ensures ParseInt(['-'] + u) == Finite(-(m as real))
  {
    TrimStartKeepsNumber(['-'] + u);
    SignedPrefixOfNegative(m, u);
  }

  lemma DecimalOfNegative(m: nat, rest: string)
    requires m > 0
    ensures Decimal(-(m as int)) + rest == ['-'] + (Digits(m) + rest)
  {
    assert Decimal(-(m as int)) == ['-'] + Digits(m);
  }

  lemma ParseIntOfNegative(m: nat, rest: string)
    requires m > 0 && (rest == [] || !IsDigit(rest[0]))
    ensures ParseInt(Decimal(-(m as int)) + rest) == Finite(-(m as real))
  {
    DecimalOfNegative(m, rest);
    LeadingDigitsOfDigits(m, rest);
    ParseIntOfMinus(m, Digits(m) + rest);
  }

  lemma ParseIntOfNonNegative(n: int, rest: string)
    requires n >= 0 && (rest == [] || !IsDigit(rest[0]))
    ensures ParseInt(Decimal(n) + rest) == Finite(n as real)
  {
    var u := Digits(n) + rest;
    LeadingDigitsOfDigits(n, rest);
    assert u[0] == Digits(n)[0];
    SignedPrefixOfUnsigned(n, u);
    assert Decimal(n) + rest == u;
    TrimStartKeepsNumber(u);
  }

  /** `parseInt` reads back the integer `Decimal` writes, and ignores any text
      after it that does not start with a digit (as in "42px"). */
  lemma ParseIntOfDecimal(n: int, rest: string)
    requires rest == [] || !IsDigit(rest[0])
    ensures ParseInt(Decimal(n) + rest) == Finite(n as real)
  {
    if n < 0 {
      ParseIntOfNegative(-n, rest);
      assert Decimal(-(-n)) == Decimal(n);
    } else {
      ParseIntOfNonNegative(n, rest);
    }
  }

  lemma {:induction false} TrimStartSkipsWhiteSpace(ws: string, s: string)
    requires AllWhiteSpace(ws)
    ensures TrimStart(ws + s) == TrimStart(s)
  {
    if ws != [] {
      assert (ws + s)[0] == ws[0];
      assert (ws + s)[1..] == ws[1..] + s;
      TrimStartSkipsWhiteSpace(ws[1..], s);
    } else {
      assert ws + s == s;
    }
  }

  /** Leading white space does not change what `parseInt` reads. */
  lemma ParseIntSkipsWhiteSpace(ws: string, s: string)
    requires AllWhiteSpace(ws)
    ensures ParseInt(ws + s) == ParseInt(s)
  {
    TrimStartSkipsWhiteSpace(ws, s);
  }

  /** A field holding the decimal text of an integer coerces to that integer;
      "0" is a non-empty, truthy string and also yields 0. */
  lemma ParseNumberOfDecimal(n: int)
    ensures ParseNumber(Text(Decimal(n))) == Finite(n as real)
  {
    ParseIntOfDecimal(n, []);
    assert Decimal(n) + [] == Decimal(n);
  }
}
