/**
 * The JavaScript string built-ins the list pipeline relies on:
 * Number.prototype.toString on integers (query-string values and flex
 * widths), String.prototype.trim and String.prototype.toLowerCase
 * (normalisation of the search keyword).
 */
module JsText {
  import opened Wrappers

  predicate IsDigit(c: char) {
    '0' <= c <= '9'
  }

  predicate AllDigits(s: string) {
    forall i :: 0 <= i < |s| ==> IsDigit(s[i])
  }

  function DigitChar(d: nat): (c: char)
    requires d < 10
    ensures IsDigit(c) && c as int - '0' as int == d
  {
    ('0' as int + d) as char
  }

  function DigitValue(c: char): nat
    requires IsDigit(c)
  {
    c as int - '0' as int
  }

  /** Decimal digits of n, most significant first, with no leading zero. */
  function NatDigits(n: nat): (s: string)
    ensures |s| > 0 && AllDigits(s)
    ensures s[0] == '0' ==> n == 0 && |s| == 1
    decreases n
  {
    if n < 10 then [DigitChar(n)] else NatDigits(n / 10) + [DigitChar(n % 10)]
  }

  /** `n.toString()` for an integer n that JavaScript writes in plain decimal digits (below 10^21 in magnitude). */
  function DecimalString(n: int): (s: string)
    ensures |s| > 0
    ensures s[0] == '-' <==> n < 0
  {
    if n < 0 then "-" + NatDigits(-n) else NatDigits(n)
  }

  /** The value of a string of decimal digits. */
  function ParseNat(s: string): nat
    requires AllDigits(s)
    decreases |s|
  {
    if s == [] then 0 else 10 * ParseNat(s[..|s| - 1]) + DigitValue(s[|s| - 1])
  }

  /** The integer a query-string value denotes, read as a server reads it; None if it is no integer. */
  function ParseDecimal(s: string): Option<int> {
    if |s| > 1 && s[0] == '-' && AllDigits(s[1..]) then Some(-(ParseNat(s[1..]) as int))
    else if |s| > 0 && AllDigits(s) then Some(ParseNat(s))
    else None
  }

  lemma {:induction false} NatDigitsRoundTrip(n: nat)
    ensures ParseNat(NatDigits(n)) == n
    decreases n
  {
    if n >= 10 {
      var s := NatDigits(n);
      NatDigitsRoundTrip(n / 10);
      assert s[..|s| - 1] == NatDigits(n / 10);
    } else {
      assert NatDigits(n)[..0] == [];
    }
  }

  /** Decimal strings are read back as the number that produced them. */
  lemma DecimalRoundTrip(n: int)
    ensures ParseDecimal(DecimalString(n)) == Some(n)
  {
    var s := DecimalString(n);
    if n < 0 {
      assert s[1..] == NatDigits(-n);
      NatDigitsRoundTrip(-n);
    } else {
      NatDigitsRoundTrip(n);
    }
  }

  /** Distinct integers have distinct decimal strings. */
  lemma DecimalInjective(m: int, n: int)
    requires DecimalString(m) == DecimalString(n)
    ensures m == n
  {
    DecimalRoundTrip(m);
    DecimalRoundTrip(n);
  }

  /** The code points ECMAScript calls WhiteSpace or LineTerminator: what `trim` removes. */
  predicate IsWhitespace(c: char) {
    || c == '\t' || c == '\n' || c == '\U{B}' || c == '\U{C}' || c == '\r' || c == ' '
    || c == '\U{A0}' || c == '\U{1680}' || ('\U{2000}' <= c <= '\U{200A}')
    || c == '\U{2028}' || c == '\U{2029}' || c == '\U{202F}' || c == '\U{205F}'
    || c == '\U{3000}' || c == '\U{FEFF}'
  }

  predicate AllWhitespace(s: string) {
    forall i :: 0 <= i < |s| ==> IsWhitespace(s[i])
  }

  /** The index of the first code point at or after `from` that is not white space (|s| if none). */
  function SkipSpace(s: string, from: nat): (n: nat)
    requires from <= |s|
    ensures from <= n <= |s|
    ensures forall i :: from <= i < n ==> IsWhitespace(s[i])
    ensures n < |s| ==> !IsWhitespace(s[n])
    decreases |s| - from
  {
    if from < |s| && IsWhitespace(s[from]) then SkipSpace(s, from + 1) else from
  }

  /** The index just after the last code point before `upto`, and at or after `lo`, that is not white space (lo if none). */
  function BackSpace(s: string, lo: nat, upto: nat): (n: nat)
    requires lo <= upto <= |s|
    ensures lo <= n <= upto
    ensures forall i :: n <= i < upto ==> IsWhitespace(s[i])
    ensures n > lo ==> !IsWhitespace(s[n - 1])
    decreases upto - lo
  {
    if upto > lo && IsWhitespace(s[upto - 1]) then BackSpace(s, lo, upto - 1) else upto
  }

  /** s[a..b] is s with its leading and trailing white space cut off. */
  predicate TrimmedAt(s: string, a: int, b: int) {
    && 0 <= a <= b <= |s|
    && (forall i :: 0 <= i < a ==> IsWhitespace(s[i]))
    && (forall i :: b <= i < |s| ==> IsWhitespace(s[i]))
    && (a < b ==> !IsWhitespace(s[a]) && !IsWhitespace(s[b - 1]))
  }

  /** `s.trim()`: the infix of s left once its leading and trailing white space is removed. */
  function Trim(s: string): (r: string)
    ensures var a := SkipSpace(s, 0);
      var b := BackSpace(s, a, |s|);
      TrimmedAt(s, a, b) && r == s[a..b]
  {
    var a := SkipSpace(s, 0);
    var b := BackSpace(s, a, |s|);
    assert forall i :: b <= i < |s| ==> IsWhitespace(s[i]);
    s[a..b]
  }

  /** Cutting white space off both ends has one outcome: any two such cuts leave the same infix. */
  lemma TrimmedAtUnique(s: string, a: int, b: int, c: int, d: int)
    requires TrimmedAt(s, a, b) && TrimmedAt(s, c, d)
    ensures s[a..b] == s[c..d]
  {
    if a < b {
      assert !IsWhitespace(s[a]) && !IsWhitespace(s[b - 1]);
    }
    if c < d {
      assert !IsWhitespace(s[c]) && !IsWhitespace(s[d - 1]);
    }
  }

  /** The trimmed string neither starts nor ends with white space, and is no longer than its input. */
  lemma TrimTrimmedEnds(s: string)
    ensures var r := Trim(s);
      && |r| <= |s|
      && (r == [] || (!IsWhitespace(r[0]) && !IsWhitespace(r[|r| - 1])))
  {
    var a := SkipSpace(s, 0);
    var b := BackSpace(s, a, |s|);
    var r := Trim(s);
    if r != [] {
      assert r[0] == s[a] && r[|r| - 1] == s[b - 1];
    }
  }

  /** Trimming yields the empty string exactly when the input is all white space. */
  lemma TrimEmptyIffBlank(s: string)
    ensures Trim(s) == [] <==> AllWhitespace(s)
  {
    var a := SkipSpace(s, 0);
    var b := BackSpace(s, a, |s|);
    if Trim(s) == [] {
      assert a == b;
    }
    if AllWhitespace(s) {
      assert a == |s|;
    }
  }

  /** A string without leading or trailing white space is its own trim. */
  lemma TrimTrimmed(s: string)
    requires s == [] || (!IsWhitespace(s[0]) && !IsWhitespace(s[|s| - 1]))
    ensures Trim(s) == s
  {
    var a := SkipSpace(s, 0);
    var b := BackSpace(s, a, |s|);
    assert TrimmedAt(s, 0, |s|);
    TrimmedAtUnique(s, a, b, 0, |s|);
    assert s[0..|s|] == s;
  }

  /**
   * Lower-case mapping of one code point: ASCII A-Z and the Latin-1
   * capitals U+00C0..U+00DE (except the multiplication sign U+00D7).
   */
  function LowerChar(c: char): char {
    if IsUpper(c) then (c as int + 32) as char else c
  }

  predicate IsUpper(c: char) {
    'A' <= c <= 'Z' || ('\U{C0}' <= c <= '\U{DE}' && c != '\U{D7}')
  }

  /**
   * `s.toLowerCase()`, for the code points LowerChar covers: each capital
   * becomes the letter 32 code points further on, every other code point stays.
   * (The lambda is total so that the comprehension needs no precondition; its
   * `else` branch is never taken.)
   */
  function ToLower(s: string): (r: string)
    ensures |r| == |s|
    ensures forall i :: 0 <= i < |s| ==> (IsUpper(s[i]) ==> r[i] as int == s[i] as int + 32)
    ensures forall i :: 0 <= i < |s| ==> (!IsUpper(s[i]) ==> r[i] == s[i])
  {
    seq(|s|, i => if 0 <= i < |s| then LowerChar(s[i]) else ' ')
  }

  /** Whether a code point is written as a surrogate pair in UTF-16 (it lies above U+FFFF). */
  predicate Astral(c: char) {
    c as int > 0xFFFF
  }

  /**
   * `s.length` in JavaScript: the number of UTF-16 code units, two for each
   * code point above U+FFFF and one for every other.
   */
  function Utf16Length(s: string): (n: nat)
    ensures |s| <= n <= 2 * |s|
    ensures n == 0 <==> s == []
  {
    if s == [] then 0 else (if Astral(s[0]) then 2 else 1) + Utf16Length(s[1..])
  }

  /** Text with no code point above U+FFFF has as many UTF-16 code units as code points. */
  lemma {:induction false} Utf16LengthBasic(s: string)
    requires forall i :: 0 <= i < |s| ==> !Astral(s[i])
    ensures Utf16Length(s) == |s|
  {
    if s != [] {
      assert forall i :: 0 <= i < |s[1..]| ==> s[1..][i] == s[i + 1];
      Utf16LengthBasic(s[1..]);
    }
  }

  /** Lower-casing leaves no capital, keeps white space where it was and is idempotent. */
  lemma ToLowerProperties(s: string)
    ensures |ToLower(s)| == |s|
    ensures forall i :: 0 <= i < |s| ==> !IsUpper(ToLower(s)[i])
    ensures forall i :: 0 <= i < |s| ==> (IsWhitespace(ToLower(s)[i]) <==> IsWhitespace(s[i]))
    ensures ToLower(ToLower(s)) == ToLower(s)
  {
  }
}
