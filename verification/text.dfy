/**
 * The JavaScript string and number conversions that the pages rely on:
 * printing a non-negative integer inside a template literal, `parseFloat`,
 * `String.prototype.trim` and the UTF-16 `length` of a string.
 */
module Text {
  import opened Wrappers

  predicate IsDigit(c: char) {
    '0' <= c <= '9'
  }

  predicate AllDigits(s: string) {
    forall i :: 0 <= i < |s| ==> IsDigit(s[i])
  }

  function DigitChar(d: nat): (c: char)
    requires d < 10
    ensures IsDigit(c) && c as int - '0' as int == d
  {
    ('0' as int + d) as char
  }

  /** The decimal text of a non-negative integer, as `${n}` prints it. */
  function NatToString(n: nat): (s: string)
    ensures |s| >= 1 && AllDigits(s)
    ensures s[0] != '0' || n == 0
  {
    if n < 10 then [DigitChar(n)] else NatToString(n / 10) + [DigitChar(n % 10)]
  }

  /** The value of a string of decimal digits, most significant digit first. */
  function DigitsValue(s: string): nat
    requires AllDigits(s)
  {
    if s == [] then 0 else DigitsValue(s[..|s| - 1]) * 10 + (s[|s| - 1] as int - '0' as int)
  }

  /** Reading back the digits that NatToString prints gives the number again. */
  lemma {:induction false} NatToStringRoundTrip(n: nat)
    ensures DigitsValue(NatToString(n)) == n
    decreases n
  {
    if n >= 10 {
      var s := NatToString(n);
      assert s[..|s| - 1] == NatToString(n / 10);
      NatToStringRoundTrip(n / 10);
    }
  }

  /** Different numbers print differently, so labels built from distinct ids are distinct. */
  lemma NatToStringInjective(a: nat, b: nat)
    ensures NatToString(a) == NatToString(b) ==> a == b
  {
    NatToStringRoundTrip(a);
    NatToStringRoundTrip(b);
  }

  /**
   * The characters ECMAScript counts as white space or line terminators
   * (WhiteSpace and LineTerminator in ECMA-262): what `trim` removes and
   * what `parseFloat` skips at the start.
   */
  predicate IsJsWhitespace(c: char) {
    c == '\t' || c == '\n' || c == '\U{000B}' || c == '\U{000C}' || c == '\r' || c == ' ' ||
    c == '\U{00A0}' || c == '\U{1680}' || ('\U{2000}' <= c <= '\U{200A}') ||
    c == '\U{2028}' || c == '\U{2029}' || c == '\U{202F}' || c == '\U{205F}' ||
    c == '\U{3000}' || c == '\U{FEFF}'
  }

  predicate AllWhitespace(s: string) {
    forall i :: 0 <= i < |s| ==> IsJsWhitespace(s[i])
  }

  /** `s` without its leading white space; always a suffix of `s` (`TrimStartDropsWhitespace` shows only white space is dropped). */
  function TrimStart(s: string): (r: string)
    ensures |r| <= |s| && r == s[|s| - |r|..]
  {
    if s != [] && IsJsWhitespace(s[0]) then TrimStart(s[1..]) else s
  }

  /** `s` without its trailing white space: a prefix of `s`, and only white space is dropped. */
  function TrimEnd(s: string): (r: string)
    ensures r <= s
    ensures r != [] ==> !IsJsWhitespace(r[|r| - 1])
    ensures AllWhitespace(s[|r|..])
  {
    if s != [] && IsJsWhitespace(s[|s| - 1]) then TrimEnd(s[..|s| - 1]) else s
  }

  /** `r` is `s[k..]` cut to the length of `r`, with only white space around it. */
  predicate Surrounded(s: string, k: int, r: string) {
    0 <= k <= |s| - |r| && r == s[k..k + |r|] && AllWhitespace(s[..k]) && AllWhitespace(s[k + |r|..])
  }

  /**
   * `String.prototype.trim`: `s` with its leading and trailing white space
   * removed; what is left starts and ends with a character that is not white space.
   */
  function Trim(s: string): (r: string)
    ensures |r| <= |s|
    ensures r != [] ==> !IsJsWhitespace(r[0]) && !IsJsWhitespace(r[|r| - 1])
    ensures exists k :: Surrounded(s, k, r)
  {
    TrimStartShape(s);
    TrimSurrounded(s);
    TrimEnd(TrimStart(s))
  }

  /** Trimming the start and then the end drops white space only, at both ends. */
  lemma TrimSurrounded(s: string)
    ensures Surrounded(s, |s| - |TrimStart(s)|, TrimEnd(TrimStart(s)))
  {
    TrimStartDropsWhitespace(s);
    InnerPiece(s, TrimStart(s), TrimEnd(TrimStart(s)));
  }

  /** A prefix `r` of a suffix `t` of `s`, with white space cut on both sides, sits in `s` where `t` starts. */
  lemma InnerPiece(s: string, t: string, r: string)
    requires |t| <= |s| && t == s[|s| - |t|..] && AllWhitespace(s[..|s| - |t|])
    requires r <= t && AllWhitespace(t[|r|..])
    ensures Surrounded(s, |s| - |t|, r)
  {
    var k := |s| - |t|;
    assert s[k..k + |r|] == t[..|r|] == r;
    assert s[k + |r|..] == t[|r|..];
  }

  lemma {:induction false} TrimStartShape(s: string)
    ensures TrimStart(s) == [] <==> AllWhitespace(s)
    ensures TrimStart(s) != [] ==> !IsJsWhitespace(TrimStart(s)[0])
  {
    if s != [] && IsJsWhitespace(s[0]) {
      TrimStartShape(s[1..]);
      assert AllWhitespace(s[1..]) ==> AllWhitespace(s) by {
        if AllWhitespace(s[1..]) {
          forall i | 0 <= i < |s| ensures IsJsWhitespace(s[i]) {
            if i > 0 { assert s[i] == s[1..][i - 1]; }
          }
        }
      }
    }
  }

  /** Trimming the start drops white space only. */
  lemma {:induction false} TrimStartDropsWhitespace(s: string)
    ensures AllWhitespace(s[..|s| - |TrimStart(s)|])
  {
    if s != [] && IsJsWhitespace(s[0]) {
      TrimStartDropsWhitespace(s[1..]);
      var k := |s| - |TrimStart(s)|;
      assert s[..k] == [s[0]] + s[1..][..k - 1];
    }
  }

  lemma {:induction false} TrimEndKeepsFirst(t: string)
    requires t != [] && !IsJsWhitespace(t[0])
    ensures TrimEnd(t) != []
  {
    if IsJsWhitespace(t[|t| - 1]) {
      TrimEndKeepsFirst(t[..|t| - 1]);
    }
  }

  /** A string trims to nothing exactly when every character of it is white space. */
  lemma TrimEmptyIff(s: string)
    ensures Trim(s) == [] <==> AllWhitespace(s)
  {
    TrimStartShape(s);
    if TrimStart(s) != [] {
      TrimEndKeepsFirst(TrimStart(s));
    }
  }

  /** The number of UTF-16 code units a character takes: two outside the Basic Multilingual Plane. */
  function CodeUnits(c: char): nat {
    if c as int > 0xFFFF then 2 else 1
  }

  /** JavaScript's `length` of a string, which counts UTF-16 code units, not characters. */
  function Utf16Length(s: string): (n: nat)
    ensures |s| <= n <= 2 * |s|
  {
    if s == [] then 0 else CodeUnits(s[0]) + Utf16Length(s[1..])
  }

  /** On text made only of Basic Multilingual Plane characters the two lengths agree. */
  lemma {:induction false} Utf16LengthBmp(s: string)
    requires forall i :: 0 <= i < |s| ==> s[i] as int <= 0xFFFF
    ensures Utf16Length(s) == |s|
  {
    if s != [] {
      Utf16LengthBmp(s[1..]);
    }
  }

  /** The longest prefix of `s` made of decimal digits. */
  function DigitPrefix(s: string): (p: string)
    ensures AllDigits(p) && p <= s
    ensures |p| < |s| ==> !IsDigit(s[|p|])
  {
    if s != [] && IsDigit(s[0]) then [s[0]] + DigitPrefix(s[1..]) else []
  }

  function Pow10(k: nat): (p: nat)
    ensures p >= 1
  {
    if k == 0 then 1 else 10 * Pow10(k - 1)
  }

  /**
   * `parseFloat` on decimal notation: leading white space is skipped, then an
   * optional sign, the integer digits and an optional `.` followed by fraction
   * digits are read, and whatever follows is ignored. `None` stands for NaN,
   * the result when neither integer nor fraction digits are present.
   */
  function ParseFloat(s: string): (r: Option<real>)
    ensures r.Some? ==> exists i :: 0 <= i < |s| && IsDigit(s[i])
  {
    ParseSignedNeedsDigit(s);
    ParseSigned(TrimStart(s))
  }

  function ParseSigned(t: string): Option<real> {
    if t != [] && t[0] == '-' then
      match ParseUnsigned(t[1..])
      case None => None
      case Some(v) => Some(-v)
    else if t != [] && t[0] == '+' then ParseUnsigned(t[1..])
    else ParseUnsigned(t)
  }

  /** The number written by integer digits `whole` and fraction digits `fraction`. */
  function DecimalValue(whole: string, fraction: string): real
    requires AllDigits(whole) && AllDigits(fraction)
  {
    DigitsValue(whole) as real + FractionValue(fraction)
  }

  /** The value of fraction digits: `"50"` is 50/100. */
  function FractionValue(fraction: string): real
    requires AllDigits(fraction)
  {
    DigitsValue(fraction) as real / Pow10(|fraction|) as real
  }

  function ParseUnsigned(body: string): Option<real> {
    var whole := DigitPrefix(body);
    var rest := body[|whole|..];
    var fraction := if rest != [] && rest[0] == '.' then DigitPrefix(rest[1..]) else [];
    if whole == [] && fraction == [] then None
    else Some(DecimalValue(whole, fraction))
  }

  lemma {:induction false} DigitPrefixOfDigits(s: string)
    requires AllDigits(s)
    ensures DigitPrefix(s) == s
  {
    if s != [] {
      DigitPrefixOfDigits(s[1..]);
    }
  }

  lemma ParseUnsignedOfDigits(s: string)
    requires s != [] && AllDigits(s)
    ensures ParseUnsigned(s) == Some(DigitsValue(s) as real)
  {
    DigitPrefixOfDigits(s);
    assert s[|s|..] == [];
    assert DigitsValue([]) == 0 && Pow10(0) == 1;
  }

  /** A plain run of digits parses to its value. */
  lemma ParseFloatOfDigits(s: string)
    requires s != [] && AllDigits(s)
    ensures ParseFloat(s) == Some(DigitsValue(s) as real)
  {
    ParseFloatOfDigitStart(s);
    ParseUnsignedOfDigits(s);
  }

  /** A minus sign followed by a run of digits parses to the negated value. */
  lemma ParseFloatOfNegatedDigits(s: string)
    requires s != [] && AllDigits(s)
    ensures ParseFloat("-" + s) == Some(-(DigitsValue(s) as real))
  {
    ParseUnsignedOfDigits(s);
    ParseSignedOfMinus(s, DigitsValue(s) as real);
    ParseFloatNoSpace("-" + s);
  }

  lemma ParseSignedOfMinus(s: string, v: real)
    requires ParseUnsigned(s) == Some(v)
    ensures ParseSigned("-" + s) == Some(-v)
  {
    assert ("-" + s)[1..] == s;
  }

  /** Text that does not start with white space is read by the sign step directly. */
  lemma ParseFloatNoSpace(t: string)
    requires t != [] && !IsJsWhitespace(t[0])
    ensures ParseFloat(t) == ParseSigned(t)
  {
    TrimStartNoSpace(t);
  }

  /** The digit run at the start of `w + rest` is `w` when `rest` starts with a non-digit. */
  lemma {:induction false} DigitPrefixStops(w: string, rest: string)
    requires AllDigits(w) && rest != [] && !IsDigit(rest[0])
    ensures DigitPrefix(w + rest) == w
  {
    if w == [] {
      assert w + rest == rest;
    } else {
      assert (w + rest)[0] == w[0];
      assert (w + rest)[1..] == w[1..] + rest;
      DigitPrefixStops(w[1..], rest);
    }
  }

  lemma ParseUnsignedOfDecimal(w: string, d: string)
    requires w != [] && AllDigits(w) && AllDigits(d)
    ensures ParseUnsigned(w + "." + d) == Some(DecimalValue(w, d))
  {
    var rest := "." + d;
    var body := w + rest;
    assert w + "." + d == body;
    assert DigitPrefix(body) == w by {
      assert rest[0] == '.';
      DigitPrefixStops(w, rest);
    }
    assert body[|w|..] == rest;
    assert DigitPrefix(rest[1..]) == d by {
      assert rest[1..] == d;
      DigitPrefixOfDigits(d);
    }
  }

  /** `k` digits spell a number below 10 to the `k`. */
  lemma {:induction false} DigitsValueBelowPow10(s: string)
    requires AllDigits(s)
    ensures DigitsValue(s) < Pow10(|s|)
  {
    if s != [] {
      var init := s[..|s| - 1];
      DigitsValueBelowPow10(init);
      assert DigitsValue(s) <= DigitsValue(init) * 10 + 9;
    }
  }

  lemma QuotientBelowOne(v: real, p: real)
    requires 0.0 <= v < p
    ensures 0.0 <= v / p < 1.0
  {
    var q := v / p;
    assert q * p == v;
    assert (1.0 - q) * p == p - v;
  }

  /** A fraction part adds at least 0 and less than 1. */
  lemma FractionBelowOne(fraction: string)
    requires AllDigits(fraction)
    ensures 0.0 <= FractionValue(fraction) < 1.0
  {
    DigitsValueBelowPow10(fraction);
    QuotientBelowOne(DigitsValue(fraction) as real, Pow10(|fraction|) as real);
  }

  /**
   * A whole part, a point and a fraction part, as a price is typed:
   * `parseFloat` reads the whole part plus the fraction digits over the
   * matching power of ten (so `"12.50"` is 12 + 50/100).
   */
  lemma ParseFloatOfDecimal(w: string, d: string)
    requires w != [] && AllDigits(w) && AllDigits(d)
    ensures ParseFloat(w + "." + d) == Some(DecimalValue(w, d))
  {
    var s := w + "." + d;
    assert s[0] == w[0];
    ParseFloatOfDigitStart(s);
    ParseUnsignedOfDecimal(w, d);
  }

  /** The decimal value of a whole number's own digits and a fraction. */
  lemma DecimalValueOfNat(a: nat, d: string)
    requires AllDigits(d)
    ensures DecimalValue(NatToString(a), d) == a as real + FractionValue(d)
  {
    NatToStringRoundTrip(a);
  }

  /** Text that starts with a digit has no leading space and no sign. */
  lemma ParseFloatOfDigitStart(s: string)
    requires s != [] && IsDigit(s[0])
    ensures ParseFloat(s) == ParseUnsigned(s)
  {
    TrimStartNoSpace(s);
  }

  lemma TrimStartNoSpace(s: string)
    requires s != [] && !IsJsWhitespace(s[0])
    ensures TrimStart(s) == s
  {
  }

  /** `parseFloat` reads back the decimal text of every non-negative integer. */
  lemma ParseFloatOfNat(n: nat)
    ensures ParseFloat(NatToString(n)) == Some(n as real)
  {
    ParseFloatOfDigits(NatToString(n));
    NatToStringRoundTrip(n);
  }

  /** With a leading minus sign, `parseFloat` reads the negated number. */
  lemma ParseFloatOfNegatedNat(n: nat)
    ensures ParseFloat("-" + NatToString(n)) == Some(-(n as real))
  {
    ParseFloatOfNegatedDigits(NatToString(n));
    NatToStringRoundTrip(n);
  }

  /** Text with no decimal digit in it parses to NaN. */
  lemma ParseFloatWithoutDigits(s: string)
    requires forall i :: 0 <= i < |s| ==> !IsDigit(s[i])
    ensures ParseFloat(s) == None
  {
  }

  lemma ParseSignedNeedsDigit(s: string)
    ensures ParseSigned(TrimStart(s)).Some? ==> exists i :: 0 <= i < |s| && IsDigit(s[i])
  {
    if forall i :: 0 <= i < |s| ==> !IsDigit(s[i]) {
      ParseSignedWithoutDigits(s);
    }
  }

  lemma ParseSignedWithoutDigits(s: string)
    requires forall i :: 0 <= i < |s| ==> !IsDigit(s[i])
    ensures ParseSigned(TrimStart(s)) == None
  {
    var t := TrimStart(s);
    var k := |s| - |t|;
    assert t == s[k..];
    forall i | 0 <= i < |t| ensures !IsDigit(t[i]) {
      assert t[i] == s[k + i];
    }
    NoDigitsParseSigned(t);
  }

  lemma NoDigitsParseSigned(t: string)
    requires forall i :: 0 <= i < |t| ==> !IsDigit(t[i])
    ensures ParseSigned(t) == None
  {
    if t != [] && (t[0] == '-' || t[0] == '+') {
      NoDigitsParseUnsigned(t[1..]);
    } else {
      NoDigitsParseUnsigned(t);
    }
  }

  lemma NoDigitsParseUnsigned(body: string)
    requires forall i :: 0 <= i < |body| ==> !IsDigit(body[i])
    ensures ParseUnsigned(body) == None
  {
    assert DigitPrefix(body) == [];
    if body != [] && body[0] == '.' {
      assert body[1..] == [] || !IsDigit(body[1..][0]);
    }
  }
}
