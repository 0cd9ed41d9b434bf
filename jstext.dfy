/**
 * The small pieces of JavaScript string and number behaviour the application
 * relies on: truthiness of strings, `trim`, `includes`, `startsWith`,
 * `Array.prototype.join`, an ASCII `toUpperCase`, `Number#toString` for
 * integers and `parseInt` with no radix argument.
 */
module JsText {
  import opened Wrappers

  /** The characters matched by `\s` in a regular expression and removed by
      `String.prototype.trim`: the WhiteSpace and LineTerminator code points
      of ECMAScript. */
  predicate IsWhitespace(c: char) {
    c == '\t' || c == '\n' || c == '\U{000B}' || c == '\U{000C}' || c == '\r' || c == ' '
    || c == '\U{00A0}' || c == '\U{1680}' || ('\U{2000}' <= c <= '\U{200A}')
    || c == '\U{2028}' || c == '\U{2029}' || c == '\U{202F}' || c == '\U{205F}'
    || c == '\U{3000}' || c == '\U{FEFF}'
  }

  predicate Blank(s: string) {
    forall i :: 0 <= i < |s| ==> IsWhitespace(s[i])
  }

  /** Leading whitespace removed (`trimStart`). */
  function TrimStart(s: string): (r: string)
    ensures |r| <= |s| && r == s[|s| - |r|..]
    ensures r == [] || !IsWhitespace(r[0])
  {
    if s == [] || !IsWhitespace(s[0]) then s else TrimStart(s[1..])
  }

  /** Trailing whitespace removed (`trimEnd`). */
  function TrimEnd(s: string): (r: string)
    ensures |r| <= |s| && r == s[..|r|]
    ensures r == [] || !IsWhitespace(r[|r| - 1])
  {
    if s == [] || !IsWhitespace(s[|s| - 1]) then s else TrimEnd(s[..|s| - 1])
  }

  function Trim(s: string): string {
    TrimStart(TrimEnd(s))
  }

  /** `s.trim()` is the empty (falsy) string exactly when every character of `s` is whitespace. */
  lemma {:induction false} TrimEmptyIffBlank(s: string)
    ensures Trim(s) == "" <==> Blank(s)
  {
    TrimEndEmptyIffBlank(s);
    var e := TrimEnd(s);
    if e != "" {
      assert !IsWhitespace(e[|e| - 1]);
      TrimStartKeepsLast(e);
    }
  }

  lemma {:induction false} TrimEndEmptyIffBlank(s: string)
    ensures TrimEnd(s) == "" <==> Blank(s)
  {
    if s != [] && IsWhitespace(s[|s| - 1]) {
      TrimEndEmptyIffBlank(s[..|s| - 1]);
      assert Blank(s) <==> Blank(s[..|s| - 1]) by {
        if Blank(s[..|s| - 1]) {
          forall i | 0 <= i < |s| ensures IsWhitespace(s[i]) {
            if i < |s| - 1 { assert s[i] == s[..|s| - 1][i]; }
          }
        }
      }
    } else if s != [] {
      assert !Blank(s);
    }
  }

  /** A string ending in a non-whitespace character keeps it under `trimStart`. */
  lemma {:induction false} TrimStartKeepsLast(e: string)
    requires e != [] && !IsWhitespace(e[|e| - 1])
    ensures TrimStart(e) != []
  {
    if IsWhitespace(e[0]) {
      var rest := e[1..];
      assert rest[|rest| - 1] == e[|e| - 1];
      TrimStartKeepsLast(rest);
    }
  }

  /** `s.startsWith(p)` */
  predicate StartsWith(s: string, p: string) {
    |p| <= |s| && s[..|p|] == p
  }

  /** `s.includes(sub)` */
  predicate Includes(s: string, sub: string)
    decreases |s|
  {
    StartsWith(s, sub) || (s != [] && Includes(s[1..], sub))
  }

  /** `parts.join(sep)` */
  function Join(parts: seq<string>, sep: string): string {
    if |parts| == 0 then ""
    else if |parts| == 1 then parts[0]
    else parts[0] + sep + Join(parts[1..], sep)
  }

  /** When no part is empty, the joined text is empty exactly when there are no parts. */
  lemma JoinEmptyIff(parts: seq<string>, sep: string)
    requires forall i :: 0 <= i < |parts| ==> parts[i] != ""
    ensures Join(parts, sep) == "" <==> parts == []
  {
    if |parts| > 1 {
      assert |Join(parts, sep)| >= |parts[0]|;
    }
  }

  function ToUpperAscii(c: char): char {
    if 'a' <= c <= 'z' then (c as int - 'a' as int + 'A' as int) as char else c
  }

  /** `s.toUpperCase()` restricted to the ASCII letters. */
  function UpperAscii(s: string): (r: string)
    ensures |r| == |s|
    ensures forall i :: 0 <= i < |s| ==> r[i] == ToUpperAscii(s[i])
  {
    if s == [] then [] else [ToUpperAscii(s[0])] + UpperAscii(s[1..])
  }

  predicate IsDigit(c: char) { '0' <= c <= '9' }

  predicate AllDigits(s: string) {
    forall i :: 0 <= i < |s| ==> IsDigit(s[i])
  }

  function DigitChar(d: nat): char
    requires d < 10
  {
    ('0' as int + d) as char
  }

  /** `String(n)` for a non-negative integer: its decimal digits, no leading zero. */
  function DecimalString(n: nat): (r: string)
    ensures r != [] && AllDigits(r)
  {
    if n < 10 then [DigitChar(n)] else DecimalString(n / 10) + [DigitChar(n % 10)]
  }

  /** The value of a sequence of decimal digits, first digit most significant. */
  function DigitsValue(ds: string): nat
    requires AllDigits(ds)
  {
    if ds == [] then 0 else DigitsValue(ds[..|ds| - 1]) * 10 + (ds[|ds| - 1] as int - '0' as int)
  }

  predicate IsHexDigit(c: char) {
    IsDigit(c) || ('a' <= c <= 'f') || ('A' <= c <= 'F')
  }

  function HexDigitValue(c: char): nat
    requires IsHexDigit(c)
  {
    if IsDigit(c) then c as int - '0' as int
    else if 'a' <= c <= 'f' then c as int - 'a' as int + 10
    else c as int - 'A' as int + 10
  }

  function HexValue(hs: string): nat
    requires forall i :: 0 <= i < |hs| ==> IsHexDigit(hs[i])
  {
    if hs == [] then 0 else HexValue(hs[..|hs| - 1]) * 16 + HexDigitValue(hs[|hs| - 1])
  }

  /** The longest prefix made of decimal digits. */
  function DigitPrefix(s: string): (r: string)
    ensures AllDigits(r) && StartsWith(s, r)
  {
    if s == [] || !IsDigit(s[0]) then [] else [s[0]] + DigitPrefix(s[1..])
  }

  /** The longest prefix made of hexadecimal digits. */
  function HexPrefix(s: string): (r: string)
    ensures forall i :: 0 <= i < |r| ==> IsHexDigit(r[i])
    ensures StartsWith(s, r)
  {
    if s == [] || !IsHexDigit(s[0]) then [] else [s[0]] + HexPrefix(s[1..])
  }

  /** The value of the digits at the head of an unsigned text: a `0x`/`0X`
      prefix selects base 16; `None` when no digit follows. */
  function Magnitude(u: string): Option<nat> {
    if |u| >= 2 && u[0] == '0' && (u[1] == 'x' || u[1] == 'X') then
      var hs := HexPrefix(u[2..]);
      if hs == [] then None else Some(HexValue(hs))
    else
      var ds := DigitPrefix(u);
      if ds == [] then None else Some(DigitsValue(ds))
  }

  /** `parseInt(s)` with no radix, over integers: leading whitespace is skipped,
      one sign is read, and the magnitude follows. `None` stands for `NaN`. */
  function ParseInt(s: string): (r: Option<int>)
  {
    var t := TrimStart(s);
    var negative := |t| > 0 && t[0] == '-';
    var u := if |t| > 0 && (t[0] == '-' || t[0] == '+') then t[1..] else t;
    match Magnitude(u)
    case None => None
    case Some(m) => Some(if negative then 0 - m as int else m as int)
  }

  lemma DigitIsNotWhitespace(c: char)
    requires IsDigit(c)
    ensures !IsWhitespace(c)
  {
  }

  lemma {:induction false} DigitPrefixOfDigits(s: string)
    requires AllDigits(s)
    ensures DigitPrefix(s) == s
  {
    if s != [] {
      DigitPrefixOfDigits(s[1..]);
    }
  }

  lemma {:induction false} DigitsValueOfDecimal(n: nat)
    ensures DigitsValue(DecimalString(n)) == n
  {
    var d := DecimalString(n);
    if n >= 10 {
      DigitsValueOfDecimal(n / 10);
      assert d[..|d| - 1] == DecimalString(n / 10);
    }
  }

  /** The digit prefix of digits followed by a non-digit is those digits. */
  lemma {:induction false} DigitPrefixStops(d: string, rest: string)
    requires AllDigits(d) && rest != [] && !IsDigit(rest[0])
    ensures DigitPrefix(d + rest) == d
  {
    if d != [] {
      assert (d + rest)[1..] == d[1..] + rest;
      DigitPrefixStops(d[1..], rest);
    } else {
      assert d + rest == rest;
    }
  }

  /** An unsigned run of decimal digits is read as its decimal value. */
  lemma MagnitudeOfDigits(d: string)
    requires d != [] && AllDigits(d)
    ensures Magnitude(d) == Some(DigitsValue(d))
  {
    DigitPrefixOfDigits(d);
    if |d| >= 2 {
      assert IsDigit(d[1]);
    }
  }

  /** Digits followed by a non-digit that does not make a `0x` prefix are read
      as the value of the digits. */
  lemma MagnitudeOfDigitsThen(d: string, rest: string)
    requires d != [] && AllDigits(d)
    requires rest != [] && !IsDigit(rest[0]) && rest[0] != 'x' && rest[0] != 'X'
    ensures Magnitude(d + rest) == Some(DigitsValue(d))
  {
    var u := d + rest;
    DigitPrefixStops(d, rest);
    if |d| >= 2 {
      assert u[1] == d[1] && IsDigit(d[1]);
    } else {
      assert u[1] == rest[0];
    }
  }

  /** `parseInt` stops at the first character that is not a digit: the decimal
      text of `n` followed by anything that starts with a non-digit other than
      `x` or `X` is still read as `n`. */
  lemma ParseIntOfDecimalThen(n: nat, rest: string)
    requires rest != [] && !IsDigit(rest[0]) && rest[0] != 'x' && rest[0] != 'X'
    ensures ParseInt(DecimalString(n) + rest) == Some(n)
  {
    var d := DecimalString(n);
    var s := d + rest;
    assert s[0] == d[0];
    DigitIsNotWhitespace(d[0]);
    assert TrimStart(s) == s;
    assert s[0] != '-' && s[0] != '+';
    MagnitudeOfDigitsThen(d, rest);
    DigitsValueOfDecimal(n);
  }

  /** Number-to-text and `parseInt` are inverse on non-negative integers. */
  lemma ParseIntOfDecimal(n: nat)
    ensures ParseInt(DecimalString(n)) == Some(n)
  {
    var d := DecimalString(n);
    DigitIsNotWhitespace(d[0]);
    assert TrimStart(d) == d;
    assert d[0] != '-' && d[0] != '+';
    MagnitudeOfDigits(d);
    DigitsValueOfDecimal(n);
  }

  /** `String(n)` for an integer: the decimal digits, after a minus sign when negative. */
  function NumberString(i: int): (r: string)
    ensures r != [] && (i >= 0 <==> IsDigit(r[0]))
  {
    if i < 0 then "-" + DecimalString(0 - i) else DecimalString(i)
  }

  /** `parseInt` reads back every integer that `String` writes. */
  lemma ParseIntOfNumberString(i: int)
    ensures ParseInt(NumberString(i)) == Some(i)
  {
    if i >= 0 {
      ParseIntOfDecimal(i);
    } else {
      var d := DecimalString(0 - i);
      var s := "-" + d;
      assert TrimStart(s) == s;
      assert s[1..] == d;
      MagnitudeOfDigits(d);
      DigitsValueOfDecimal(0 - i);
    }
  }
}
