/** The pieces of the JavaScript runtime that the task board's logic leans on:
    optional values (`undefined`), `String.prototype.trim` and the decimal text
    that `toString()` gives an integer-valued number. */
module Builtins {

  datatype Option<+T> = None | Some(value: T) {
    function GetOr(default: T): T
    {
      if Some? then value else default
    }
  }

  /** The characters `trim` strips: ECMAScript WhiteSpace (tab, vertical tab,
      form feed, space, no-break space, byte-order mark and the Unicode space
      separators) and LineTerminator (line feed, carriage return, line and
      paragraph separators). */
  predicate IsWhitespace(c: char)
  {
    c == '\t' || c == '\n' || c == '\U{000B}' || c == '\U{000C}' || c == '\r' || c == ' '
    || c == '\U{00A0}' || c == '\U{1680}' || ('\U{2000}' <= c <= '\U{200A}')
    || c == '\U{2028}' || c == '\U{2029}' || c == '\U{202F}' || c == '\U{205F}'
    || c == '\U{3000}' || c == '\U{FEFF}'
  }

  predicate AllWhitespace(s: string)
  {
    forall i | 0 <= i < |s| :: IsWhitespace(s[i])
  }

  /** Drops leading white space: the result is the suffix of `s` that starts
      at its first non-white character. */
  function TrimStart(s: string): (r: string)
    ensures |r| <= |s| && r == s[|s| - |r|..]
    ensures AllWhitespace(s[..|s| - |r|])
    ensures r == [] || !IsWhitespace(r[0])
  {
    if |s| > 0 && IsWhitespace(s[0]) then
      var r := TrimStart(s[1..]);
      assert s[..|s| - |r|] == [s[0]] + s[1..][..|s| - 1 - |r|];
      r
    else s
  }

  /** Drops trailing white space: the result is the prefix of `s` that ends
      at its last non-white character. */
  function TrimEnd(s: string): (r: string)
    ensures |r| <= |s| && r == s[..|r|]
    ensures AllWhitespace(s[|r|..])
    ensures r == [] || !IsWhitespace(r[|r| - 1])
  {
    if |s| > 0 && IsWhitespace(s[|s| - 1]) then
      var r := TrimEnd(s[..|s| - 1]);
      assert s[|r|..] == s[..|s| - 1][|r|..] + [s[|s| - 1]];
      r
    else s
  }

  /** `s.trim()`: empty exactly when `s` holds nothing but white space; never
      starts or ends with white space; leaves a string that neither starts nor
      ends with white space as it is. */
  function Trim(s: string): (r: string)
    ensures |r| <= |s|
    ensures r == [] <==> AllWhitespace(s)
    ensures r != [] ==> !IsWhitespace(r[0]) && !IsWhitespace(r[|r| - 1])
    ensures s == [] || (!IsWhitespace(s[0]) && !IsWhitespace(s[|s| - 1])) ==> r == s
  {
    TrimEmptyExactlyWhenBlank(s);
    TrimEnd(TrimStart(s))
  }

  /** What trim keeps: a prefix of the text after the leading white space. */
  lemma TrimIsSlice(s: string)
    ensures var r, k := Trim(s), |s| - |TrimStart(s)|;
      k + |r| <= |s| && r == s[k..][..|r|]
  {
    var t := TrimStart(s);
    assert t == s[|s| - |t|..];
  }

  /** What trim drops: only white space, before and after the part it
      keeps. */
  lemma TrimDropsWhitespace(s: string)
    ensures var r, k := Trim(s), |s| - |TrimStart(s)|;
      k + |r| <= |s| && AllWhitespace(s[..k]) && AllWhitespace(s[k + |r|..])
  {
    WhitespaceAfterPrefix(s, TrimStart(s), Trim(s));
  }

  /** White space that follows `r` in a suffix `t` of `s` follows it in `s`. */
  lemma WhitespaceAfterPrefix(s: string, t: string, r: string)
    requires |t| <= |s| && t == s[|s| - |t|..]
    requires |r| <= |t| && AllWhitespace(t[|r|..])
    ensures AllWhitespace(s[|s| - |t| + |r|..])
  {
    assert t[|r|..] == s[|s| - |t| + |r|..];
  }

  lemma TrimEmptyExactlyWhenBlank(s: string)
    ensures TrimEnd(TrimStart(s)) == [] <==> AllWhitespace(s)
  {
    if AllWhitespace(s) {
      TrimStartOfBlank(s);
    }
    if TrimEnd(TrimStart(s)) == [] {
      assert s[..|s|] == s;
    }
  }

  lemma {:induction false} TrimStartOfBlank(s: string)
    requires AllWhitespace(s)
    ensures TrimStart(s) == []
  {
    if s != [] {
      TrimStartOfBlank(s[1..]);
    }
  }

  function DigitChar(d: nat): (c: char)
    requires d < 10
    ensures '0' <= c <= '9' && c as int - '0' as int == d
  {
    (d + '0' as int) as char
  }

  predicate IsDigits(s: string)
  {
    forall i | 0 <= i < |s| :: '0' <= s[i] <= '9'
  }

  /** Decimal text of a non-negative integer, without leading zeros. */
  function NatToString(n: nat): (r: string)
    ensures r != [] && IsDigits(r)
    ensures r[0] == '0' ==> r == "0" && n == 0
  {
    if n < 10 then [DigitChar(n)] else NatToString(n / 10) + [DigitChar(n % 10)]
  }

  /** The value that decimal digits denote: the reading partner of NatToString. */
  function DecimalValue(s: string): nat
    requires IsDigits(s)
  {
    if s == [] then 0 else DecimalValue(s[..|s| - 1]) * 10 + (s[|s| - 1] as int - '0' as int)
  }

  lemma {:induction false} DecimalRoundTrip(n: nat)
    ensures DecimalValue(NatToString(n)) == n
  {
    if n >= 10 {
      var s := NatToString(n);
      assert s[..|s| - 1] == NatToString(n / 10);
      DecimalRoundTrip(n / 10);
    }
  }

  /** `String(n)` for an integer-valued number: a minus sign before the digits
      of a negative number. The text is never empty and neither starts nor
      ends with white space. */
  function IntToString(n: int): (r: string)
    ensures r != [] && !IsWhitespace(r[0]) && !IsWhitespace(r[|r| - 1])
    ensures n >= 0 ==> IsDigits(r) && DecimalValue(r) == n
    ensures n < 0 ==> r[0] == '-' && IsDigits(r[1..]) && DecimalValue(r[1..]) == -n
    ensures var d := if n < 0 then r[1..] else r; d != [] && (d[0] == '0' ==> d == "0" && n == 0)
  {
    var digits := NatToString(if n < 0 then -n else n);
    DecimalRoundTrip(if n < 0 then -n else n);
    var r := if n < 0 then "-" + digits else digits;
    assert r[1..] == digits || n >= 0;
    assert !IsWhitespace(r[0]) && !IsWhitespace(digits[|digits| - 1]);
    assert r[|r| - 1] == digits[|digits| - 1];
    r
  }

  /** Trimming the text of a number changes nothing, so it is never blank. */
  lemma IntToStringTrimmed(n: int)
    ensures Trim(IntToString(n)) == IntToString(n) != []
  {
    var r := IntToString(n);
    assert !IsWhitespace(r[0]) && !IsWhitespace(r[|r| - 1]);
  }
}
