/** The JavaScript built-ins the components rely on, on Dafny strings:
    `String(n)` for integers, `Number(text)`, `String.prototype.trim`,
    `padStart`, `Array.prototype.join` and `Array.prototype.indexOf`. */
module JsString {

  // ---------------------------------------------------------------- digits

  predicate IsDigit(c: char) { '0' <= c <= '9' }

  predicate AllDigits(s: string) { forall i :: 0 <= i < |s| ==> IsDigit(s[i]) }

  function DigitChar(d: nat): (c: char)
    requires d < 10
    ensures IsDigit(c)
  {
    ('0' as int + d) as char
  }

  function DigitValue(c: char): (d: nat)
    requires IsDigit(c)
    ensures d < 10 && DigitChar(d) == c
  {
    c as int - '0' as int
  }

  /** The number a (possibly empty) run of decimal digits denotes. */
  function DigitsValue(s: string): nat
    requires AllDigits(s)
  {
    if s == [] then 0 else DigitsValue(s[..|s| - 1]) * 10 + DigitValue(s[|s| - 1])
  }

  // ------------------------------------------------------- String(n), n >= 0

  /** `String(n)` for a non-negative integer: its shortest decimal numeral. */
  function NatToString(n: nat): (r: string)
    ensures 1 <= |r| && AllDigits(r)
    ensures |r| > 1 ==> r[0] != '0'
  {
    if n < 10 then [DigitChar(n)] else NatToString(n / 10) + [DigitChar(n % 10)]
  }

  /** Reading back the numeral `String(n)` gives `n`. */
  lemma {:induction false} NatToStringValue(n: nat)
    ensures DigitsValue(NatToString(n)) == n
  {
    if n >= 10 {
      var s := NatToString(n);
      assert s[..|s| - 1] == NatToString(n / 10);
      NatToStringValue(n / 10);
    }
  }

  /** One digit below 10, two below 100. */
  lemma {:induction false} NatToStringLength(n: nat)
    ensures n < 10 ==> |NatToString(n)| == 1
    ensures 10 <= n < 100 ==> |NatToString(n)| == 2
  {
    if n >= 10 { NatToStringLength(n / 10); }
  }

  /** A leading zero does not change the value of a run of digits. */
  lemma {:induction false} LeadingZeroValue(s: string)
    requires AllDigits(s)
    ensures AllDigits("0" + s) && DigitsValue("0" + s) == DigitsValue(s)
  {
    if s != [] {
      var t := "0" + s;
      assert t[..|t| - 1] == "0" + s[..|s| - 1];
      LeadingZeroValue(s[..|s| - 1]);
    }
  }

  // ------------------------------------------------------ String(n), any n

  /** `String(n)` for an integer: a minus sign in front of negatives. */
  function IntToString(n: int): (r: string)
    ensures |r| >= 1
  {
    if n < 0 then "-" + NatToString(-n) else NatToString(n)
  }

  // --------------------------------------------------------------- Number()

  /** What `Number(text)` yields, as far as the model distinguishes it. */
  datatype NumberValue = Integer(value: int) | NaN

  /** `Number(text)`: surrounding white space is ignored, the empty text is 0,
      an optionally signed run of decimal digits is that integer; every other
      text is NaN in this model. */
  function ParseNumber(text: string): (v: NumberValue)
  {
    var t := Trim(text);
    if t == "" then Integer(0)
    else if AllDigits(t) then Integer(DigitsValue(t))
    else if (t[0] == '-' || t[0] == '+') && |t| > 1 && AllDigits(t[1..]) then
      var magnitude: int := DigitsValue(t[1..]);
      Integer(if t[0] == '-' then -magnitude else magnitude)
    else NaN
  }

  /** `String` of a number value; NaN prints as "NaN". */
  function NumberToString(v: NumberValue): string
  {
    match v
    case Integer(n) => IntToString(n)
    case NaN => "NaN"
  }

  /** `Number(String(v)) == v` for every number value of the model. */
  lemma NumberRoundTrip(v: NumberValue)
    ensures ParseNumber(NumberToString(v)) == v
  {
    match v
    case Integer(n) =>
      var digits := NatToString(if n < 0 then -n else n);
      NoWhitespaceInDigits(digits);
      NatToStringValue(if n < 0 then -n else n);
      if n < 0 {
        var t := "-" + digits;
        assert !IsJsWhitespace(t[0]);
        assert forall i :: 0 <= i < |t| ==> !IsJsWhitespace(t[i]);
        TrimOfNonBlankEnds(t);
        assert t[1..] == digits;
        assert !AllDigits(t);
      } else {
        TrimOfNonBlankEnds(digits);
      }
    case NaN =>
      TrimOfNonBlankEnds("NaN");
  }

  lemma NoWhitespaceInDigits(s: string)
    requires AllDigits(s)
    ensures forall i :: 0 <= i < |s| ==> !IsJsWhitespace(s[i])
  {
  }

  // ------------------------------------------------------------------ trim

  /** ECMAScript's WhiteSpace and LineTerminator code points, the ones
      `String.prototype.trim` removes. */
  predicate IsJsWhitespace(c: char)
  {
    c == '\t' || c == '\n' || c == '\r' || c == ' ' ||
    c as int == 0x0B || c as int == 0x0C || c as int == 0xA0 ||
    c as int == 0x1680 || (0x2000 <= c as int <= 0x200A) ||
    c as int == 0x2028 || c as int == 0x2029 || c as int == 0x202F ||
    c as int == 0x205F || c as int == 0x3000 || c as int == 0xFEFF
  }

  /** Leading white space removed. */
  function TrimStart(s: string): string
  {
    if s != "" && IsJsWhitespace(s[0]) then TrimStart(s[1..]) else s
  }

  /** Trailing white space removed. */
  function TrimEnd(s: string): string
  {
    if s != "" && IsJsWhitespace(s[|s| - 1]) then TrimEnd(s[..|s| - 1]) else s
  }

  /** `String.prototype.trim`. */
  function Trim(s: string): string
  {
    TrimEnd(TrimStart(s))
  }

  /** `TrimStart` drops a white-space prefix and stops at a non-white
      character. */
  lemma {:induction false} TrimStartIsSuffix(s: string)
    ensures var r := TrimStart(s);
      |r| <= |s| && r == s[|s| - |r|..] && (r != "" ==> !IsJsWhitespace(r[0]))
  {
    if s != "" && IsJsWhitespace(s[0]) {
      TrimStartIsSuffix(s[1..]);
    }
  }

  /** `TrimEnd` drops a white-space suffix and stops at a non-white
      character. */
  lemma {:induction false} TrimEndIsPrefix(s: string)
    ensures var r := TrimEnd(s);
      |r| <= |s| && r == s[..|r|] && (r != "" ==> !IsJsWhitespace(r[|r| - 1]))
  {
    if s != "" && IsJsWhitespace(s[|s| - 1]) {
      TrimEndIsPrefix(s[..|s| - 1]);
    }
  }

  /** A text with non-blank ends is its own trim. */
  lemma TrimOfNonBlankEnds(s: string)
    requires s != "" ==> !IsJsWhitespace(s[0]) && !IsJsWhitespace(s[|s| - 1])
    ensures Trim(s) == s
  {
  }

  /** `s.trim()` is non-empty exactly when `s` holds a non-white-space
      character. */
  lemma {:induction false} TrimNonEmpty(s: string)
    ensures Trim(s) != "" <==> exists i :: 0 <= i < |s| && !IsJsWhitespace(s[i])
  {
    TrimStartNonEmpty(s);
    TrimStartIsSuffix(s);
    var t := TrimStart(s);
    TrimEndNonEmpty(t);
    if t != "" {
      assert !IsJsWhitespace(s[|s| - |t|]);
    }
  }

  lemma {:induction false} TrimStartNonEmpty(s: string)
    ensures TrimStart(s) == "" <==> forall i :: 0 <= i < |s| ==> IsJsWhitespace(s[i])
  {
    if s != "" && IsJsWhitespace(s[0]) {
      TrimStartNonEmpty(s[1..]);
      assert forall i :: 1 <= i < |s| ==> s[i] == s[1..][i - 1];
    }
  }

  lemma {:induction false} TrimEndNonEmpty(s: string)
    ensures TrimEnd(s) == "" <==> forall i :: 0 <= i < |s| ==> IsJsWhitespace(s[i])
  {
    if s != "" && IsJsWhitespace(s[|s| - 1]) {
      TrimEndNonEmpty(s[..|s| - 1]);
      assert forall i :: 0 <= i < |s| - 1 ==> s[i] == s[..|s| - 1][i];
    }
  }

  // -------------------------------------------------------------- padStart

  /** `s.padStart(width, fill)` for a one-character fill. */
  function PadStart(s: string, width: nat, fill: char): (r: string)
    ensures |r| == if |s| >= width then |s| else width
    ensures r[|r| - |s|..] == s
    ensures forall i :: 0 <= i < |r| - |s| ==> r[i] == fill
  {
    if |s| >= width then s else Repeat(fill, width - |s|) + s
  }

  /** `n` copies of `c`. */
  function Repeat(c: char, n: nat): (r: string)
    ensures |r| == n && forall i :: 0 <= i < n ==> r[i] == c
  {
    if n == 0 then [] else [c] + Repeat(c, n - 1)
  }

  /** Padding a run of digits with zeros keeps it a run of digits of the
      same value. */
  lemma {:induction false} PadZerosValue(s: string, width: nat)
    requires AllDigits(s)
    ensures AllDigits(PadStart(s, width, '0'))
    ensures DigitsValue(PadStart(s, width, '0')) == DigitsValue(s)
  {
    if |s| < width {
      var r := PadStart(s, width, '0');
      var shorter := PadStart(s, width - 1, '0');
      assert r == "0" + shorter;
      PadZerosValue(s, width - 1);
      LeadingZeroValue(shorter);
    }
  }

  // ------------------------------------------------------------------ join

  /** `xs.join(sep)`. */
  function Join(xs: seq<string>, sep: string): string
  {
    if |xs| == 0 then ""
    else if |xs| == 1 then xs[0]
    else Join(xs[..|xs| - 1], sep) + sep + xs[|xs| - 1]
  }

  // --------------------------------------------------------------- indexOf

  /** `xs.indexOf(x)`: the first position holding `x`, or -1. */
  function IndexOf(xs: seq<string>, x: string): (i: int)
    ensures -1 <= i < |xs|
    ensures i >= 0 ==> xs[i] == x && forall j :: 0 <= j < i ==> xs[j] != x
    ensures i == -1 <==> x !in xs
  {
    if |xs| == 0 then -1
    else if xs[0] == x then 0
    else var k := IndexOf(xs[1..], x); if k == -1 then -1 else k + 1
  }

  /** JavaScript's `%` on integers: the remainder takes the sign of the
      dividend (Dafny's `%` is Euclidean). */
  function JsRem(a: int, n: int): (r: int)
    requires n > 0
    ensures -n < r < n
    ensures a >= 0 ==> r == a % n
    ensures a < 0 ==> r <= 0 && -r == (-a) % n
  {
    if a >= 0 then a % n else -((-a) % n)
  }
}
