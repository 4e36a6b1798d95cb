/**
 * The JavaScript built-ins the core leans on for text and numbers:
 * `parseInt(text)` without a radix (the quantity input of the sale forms),
 * `String(value)` (the id normalisation of the product table) and the `||`
 * fallback on a falsy string or number.
 * Only integers are modelled; see the README for what that leaves out.
 */
module JsText {
  import opened Wrappers

  /**
   * The characters `parseInt` skips before the number: ECMAScript's WhiteSpace
   * (tab, vertical tab, form feed, the byte order mark and every space
   * separator of Unicode category Zs) and LineTerminator.
   */
  predicate IsJsSpace(c: char) {
    c == '\t' || c == '\U{000B}' || c == '\U{000C}' || c == '\U{FEFF}'
    || c == ' ' || c == '\U{00A0}' || c == '\U{1680}' || '\U{2000}' <= c <= '\U{200A}'
    || c == '\U{202F}' || c == '\U{205F}' || c == '\U{3000}'
    || c == '\n' || c == '\r' || c == '\U{2028}' || c == '\U{2029}'
  }

  /** The text with its leading white space removed. */
  function TrimStart(s: string): (r: string)
    ensures |r| <= |s| && r == s[|s| - |r|..]
    ensures r == [] || !IsJsSpace(r[0])
  {
    if s != [] && IsJsSpace(s[0]) then TrimStart(s[1..]) else s
  }

  /** The value of one digit in the given radix (10 or 16), if it is one. */
  function DigitValue(c: char, radix: nat): (r: Option<nat>)
    requires radix == 10 || radix == 16
    ensures r.Some? ==> r.value < radix
  {
    if '0' <= c <= '9' then Some(c as nat - '0' as nat)
    else if radix == 16 && 'a' <= c <= 'f' then Some(c as nat - 'a' as nat + 10)
    else if radix == 16 && 'A' <= c <= 'F' then Some(c as nat - 'A' as nat + 10)
    else None
  }

  /** How many characters at the front of `s` are digits in the radix. */
  function DigitRun(s: string, radix: nat): (n: nat)
    requires radix == 10 || radix == 16
    ensures n <= |s|
    ensures forall k :: 0 <= k < n ==> DigitValue(s[k], radix).Some?
    ensures n < |s| ==> DigitValue(s[n], radix).None?
  {
    if s != [] && DigitValue(s[0], radix).Some? then 1 + DigitRun(s[1..], radix) else 0
  }

  /** The number a run of digits spells, most significant first. */
  function DigitsValue(digits: string, radix: nat): nat
    requires radix == 10 || radix == 16
    requires forall k :: 0 <= k < |digits| ==> DigitValue(digits[k], radix).Some?
  {
    if digits == [] then 0
    else DigitsValue(digits[..|digits| - 1], radix) * radix + DigitValue(digits[|digits| - 1], radix).value
  }

  /** Whether the text starts with a `0x` or `0X` prefix. */
  predicate HexPrefixed(u: string) {
    |u| >= 2 && u[0] == '0' && (u[1] == 'x' || u[1] == 'X')
  }

  /** Reads the longest run of digits at the front of `v`; `None` when there is none. */
  function ReadDigits(v: string, radix: nat): (r: Option<nat>)
    requires radix == 10 || radix == 16
    ensures r.None? <==> DigitRun(v, radix) == 0
  {
    var n := DigitRun(v, radix);
    if n == 0 then None else Some(DigitsValue(v[..n], radix))
  }

  /**
   * The unsigned part of `parseInt`: a `0x`/`0X` prefix selects hexadecimal,
   * then the longest run of digits is read. `None` when there is no digit.
   */
  function ParseUnsigned(u: string): (r: Option<nat>)
    ensures r.None? <==> DigitRun(if HexPrefixed(u) then u[2..] else u, if HexPrefixed(u) then 16 else 10) == 0
  {
    if HexPrefixed(u) then ReadDigits(u[2..], 16) else ReadDigits(u, 10)
  }

  /**
   * `parseInt(text)` without a radix: skip leading white space, read an
   * optional sign, then the unsigned part. `None` stands for NaN.
   */
  function ParseInt(text: string): (r: Option<int>)
    ensures TrimStart(text) == [] ==> r.None?
    ensures r.Some? ==> TrimStart(text) != [] && (r.value < 0 ==> TrimStart(text)[0] == '-')
  {
    ParseSigned(TrimStart(text))
  }

  /** What `parseInt` reads once the white space is gone: an optional sign, then the unsigned part. */
  function ParseSigned(t: string): (r: Option<int>)
    ensures t == [] ==> r.None?
    ensures r.Some? && r.value < 0 ==> t != [] && t[0] == '-'
  {
    var negative := t != [] && t[0] == '-';
    var u := if t != [] && (t[0] == '-' || t[0] == '+') then t[1..] else t;
    match ParseUnsigned(u)
    case None => None
    case Some(m) =>
      var value: int := if negative then -(m as int) else m;
      Some(value)
  }

  /** The decimal spelling of a natural number, as `String(n)` gives it. */
  function NatToString(n: nat): (s: string)
    ensures s != []
    ensures forall k :: 0 <= k < |s| ==> '0' <= s[k] <= '9'
    ensures n >= 10 ==> |s| >= 2
  {
    var d := ['0' + (n % 10) as char];
    if n < 10 then d else NatToString(n / 10) + d
  }

  /** `String(n)` for an integer: a minus sign before a negative one. */
  function IntToString(n: int): (s: string)
    ensures s != []
    ensures (s[0] == '-') <==> n < 0
  {
    if n < 0 then "-" + NatToString(-n) else NatToString(n)
  }

  /** A value as it arrives in JSON from the API, as far as the core cares. */
  datatype JsValue = JsNumber(n: int) | JsString(s: string) | JsNull | JsUndefined

  /** `String(value)`. */
  function ToJsString(v: JsValue): (r: string)
    ensures v.JsString? ==> r == v.s
  {
    match v
    case JsNumber(n) => IntToString(n)
    case JsString(s) => s
    case JsNull => "null"
    case JsUndefined => "undefined"
  }

  /** `s || fallback` on a string: only the empty string is falsy. */
  function StringOr(s: string, fallback: string): string {
    if s == "" then fallback else s
  }

  /** `v || fallback` on an optional string: absent and the empty string are falsy. */
  function OptionalOr(v: Option<string>, fallback: string): string {
    if v.Some? && v.value != "" then v.value else fallback
  }

  /** `n || fallback` on a number: only zero is falsy (NaN is not modelled). */
  function NumberOr(n: int, fallback: int): int {
    if n == 0 then fallback else n
  }

  // ---------------------------------------------------------------------------

  /** The digits of a natural number read back give that number. */
  lemma {:induction false} DigitsOfNat(n: nat)
    ensures DigitsValue(NatToString(n), 10) == n
  {
    if n >= 10 {
      var s := NatToString(n);
      DigitsOfNat(n / 10);
      assert s == NatToString(n / 10) + ['0' + (n % 10) as char];
      assert s[..|s| - 1] == NatToString(n / 10);
    }
  }

  /** A text made only of digits is one run of digits. */
  lemma DigitRunAll(s: string, radix: nat)
    requires radix == 10 || radix == 16
    requires forall k :: 0 <= k < |s| ==> DigitValue(s[k], radix).Some?
    ensures DigitRun(s, radix) == |s|
  {
  }

  /** Only zero is spelled with a leading 0. */
  lemma {:induction false} LeadingZeroOnlyForZero(n: nat)
    ensures NatToString(n)[0] == '0' ==> n == 0
  {
    if n >= 10 {
      LeadingZeroOnlyForZero(n / 10);
      assert NatToString(n)[0] == NatToString(n / 10)[0];
    }
  }

  /** `parseInt(String(n)) === n`: what `String` writes, `parseInt` reads back. */
  lemma ParseIntRoundTrip(n: int)
    ensures ParseInt(IntToString(n)) == Some(n)
  {
    if n < 0 {
      ParseIntOfNegative(-n, IntToString(n));
    } else {
      ParseIntOfDigits(n, IntToString(n));
    }
  }

  /** The space separators beyond ASCII are skipped like a plain space: a number after one reads back. */
  lemma WideSpacesSkipped(c: char, n: int)
    requires c == '\U{1680}' || '\U{2000}' <= c <= '\U{200A}' || c == '\U{202F}' || c == '\U{205F}' || c == '\U{3000}'
    ensures ParseInt([c] + IntToString(n)) == Some(n)
  {
    ParseIntSkipsSpace(c, IntToString(n));
    ParseIntRoundTrip(n);
  }

  /** A leading white-space character does not change what `parseInt` reads. */
  lemma ParseIntSkipsSpace(c: char, s: string)
    requires IsJsSpace(c)
    ensures ParseInt([c] + s) == ParseInt(s)
  {
    TrimSkipsSpace(c, s);
    assert ParseInt([c] + s) == ParseSigned(TrimStart(s));
  }

  /** A leading white-space character is dropped by the trim. */
  lemma TrimSkipsSpace(c: char, s: string)
    requires IsJsSpace(c)
    ensures TrimStart([c] + s) == TrimStart(s)
  {
    assert ([c] + s)[1..] == s;
  }

  /** The decimal spelling of a natural number parses back to it. */
  lemma ParseIntOfDigits(m: nat, text: string)
    requires text == NatToString(m)
    ensures ParseInt(text) == Some(m)
  {
    assert '0' <= text[0] <= '9';
    assert TrimStart(text) == text;
    assert !(text[0] == '-' || text[0] == '+');
    ParseDigitsOfNat(m);
  }

  /** A minus sign before the spelling of a positive number parses back to its negation. */
  lemma ParseIntOfNegative(m: nat, text: string)
    requires m > 0 && text == "-" + NatToString(m)
    ensures ParseInt(text) == Some(-(m as int))
  {
    assert text[0] == '-';
    assert TrimStart(text) == text;
    assert text[1..] == NatToString(m);
    ParseDigitsOfNat(m);
  }

  /** The unsigned parse reads back the decimal spelling of any natural number. */
  lemma ParseDigitsOfNat(m: nat)
    ensures ParseUnsigned(NatToString(m)) == Some(m)
  {
    var u := NatToString(m);
    LeadingZeroOnlyForZero(m);
    if m == 0 {
      assert u == "0";
    }
    assert !HexPrefixed(u);
    ReadAllDigits(u);
    DigitsOfNat(m);
  }

  /** A non-empty text made only of decimal digits is read whole. */
  lemma ReadAllDigits(u: string)
    requires u != [] && forall k :: 0 <= k < |u| ==> '0' <= u[k] <= '9'
    ensures ReadDigits(u, 10) == Some(DigitsValue(u, 10))
  {
    DigitRunAll(u, 10);
    assert u[..|u|] == u;
  }

  /** A text whose first non-blank character is neither a sign nor a digit parses to NaN. */
  lemma NoDigitIsNaN(text: string)
    requires var t := TrimStart(text); t == [] || (t[0] != '-' && t[0] != '+' && !('0' <= t[0] <= '9'))
    ensures ParseInt(text).None?
  {
  }
}
