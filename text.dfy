/** The JavaScript string operations the core relies on: `trim`, case mapping and decimal digits. */
module Text {

  import opened Common

  /** ECMAScript WhiteSpace and LineTerminator code points: what `String.prototype.trim` strips. */
  predicate IsJsSpace(c: char) {
    c == '\t' || c == '\n' || c == '\r' || c == ' ' || c == '\U{000B}' || c == '\U{000C}'
    || c == '\U{00A0}' || c == '\U{1680}' || ('\U{2000}' <= c <= '\U{200A}')
    || c == '\U{2028}' || c == '\U{2029}' || c == '\U{202F}' || c == '\U{205F}'
    || c == '\U{3000}' || c == '\U{FEFF}'
  }

  function TrimStart(s: string): (r: string)
    ensures |r| <= |s| && r == s[|s| - |r|..]
    ensures r == [] || !IsJsSpace(r[0])
    ensures forall i :: 0 <= i < |s| - |r| ==> IsJsSpace(s[i])
  {
    if s != [] && IsJsSpace(s[0]) then TrimStart(s[1..]) else s
  }

  function TrimEnd(s: string): (r: string)
    ensures |r| <= |s| && r == s[..|r|]
    ensures r == [] || !IsJsSpace(r[|r| - 1])
    ensures forall i :: |r| <= i < |s| ==> IsJsSpace(s[i])
  {
    if s != [] && IsJsSpace(s[|s| - 1]) then TrimEnd(s[..|s| - 1]) else s
  }

  /** `s.trim()`: the longest infix that neither starts nor ends with white space. */
  function Trim(s: string): string {
    TrimEnd(TrimStart(s))
  }

  /** Padding a string with white space on either side does not change its trim. */
  lemma {:induction false} TrimPadded(pre: string, s: string, post: string)
    requires forall i :: 0 <= i < |pre| ==> IsJsSpace(pre[i])
    requires forall i :: 0 <= i < |post| ==> IsJsSpace(post[i])
    requires s != [] && !IsJsSpace(s[0]) && !IsJsSpace(s[|s| - 1])
    ensures Trim(pre + s + post) == s
  {
    assert pre + s + post == pre + (s + post);
    TrimStartPadded(pre, s + post);
    assert TrimStart(pre + s + post) == s + post;
    TrimEndPadded(s, post);
  }

  lemma {:induction false} TrimStartPadded(pre: string, s: string)
    requires forall i :: 0 <= i < |pre| ==> IsJsSpace(pre[i])
    requires s != [] && !IsJsSpace(s[0])
    ensures TrimStart(pre + s) == s
  {
    if pre != [] {
      assert (pre + s)[1..] == pre[1..] + s;
      TrimStartPadded(pre[1..], s);
    }
  }

  lemma {:induction false} TrimEndPadded(s: string, post: string)
    requires forall i :: 0 <= i < |post| ==> IsJsSpace(post[i])
    requires s != [] && !IsJsSpace(s[|s| - 1])
    ensures TrimEnd(s + post) == s
  {
    if post != [] {
      assert (s + post)[..|s + post| - 1] == s + post[..|post| - 1];
      TrimEndPadded(s, post[..|post| - 1]);
    } else {
      assert s + post == s;
    }
  }

  predicate IsUpperAscii(c: char) {
    'A' <= c <= 'Z'
  }

  /** The ASCII letter offset between the two cases. */
  const CaseGap: int := 'a' as int - 'A' as int

  function LowerChar(c: char): (r: char)
    ensures !IsUpperAscii(r)
    ensures IsUpperAscii(c) ==> r as int == c as int + CaseGap
    ensures !IsUpperAscii(c) ==> r == c
  {
    if IsUpperAscii(c) then (c as int + CaseGap) as char else c
  }

  function UpperChar(c: char): (r: char)
    ensures 'a' <= c <= 'z' ==> IsUpperAscii(r) && LowerChar(r) == c
    ensures !('a' <= c <= 'z') ==> r == c
  {
    if 'a' <= c <= 'z' then (c as int - CaseGap) as char else c
  }

  /** `s.toLowerCase()` on the ASCII letters. */
  function ToLower(s: string): (r: string)
    ensures |r| == |s|
    ensures forall i :: 0 <= i < |s| ==> r[i] == LowerChar(s[i])
  {
    seq(|s|, i requires 0 <= i < |s| => LowerChar(s[i]))
  }

  /** `s.toUpperCase()` on the ASCII letters. */
  function ToUpper(s: string): (r: string)
    ensures |r| == |s|
    ensures forall i :: 0 <= i < |s| ==> r[i] == UpperChar(s[i])
  {
    seq(|s|, i requires 0 <= i < |s| => UpperChar(s[i]))
  }

  /** Lower-cased text has no upper-case letter left, so lower-casing it again changes nothing. */
  lemma ToLowerIdempotent(s: string)
    ensures forall i :: 0 <= i < |s| ==> !IsUpperAscii(ToLower(s)[i])
    ensures ToLower(ToLower(s)) == ToLower(s)
  {
    var once := ToLower(s);
    forall i | 0 <= i < |s| ensures ToLower(once)[i] == once[i] {
      assert !IsUpperAscii(once[i]);
    }
  }

  /** On text without upper-case letters, lower-casing undoes upper-casing. */
  lemma LowerUndoesUpper(w: string)
    requires forall i :: 0 <= i < |w| ==> !IsUpperAscii(w[i])
    ensures ToLower(ToUpper(w)) == w
  {
    var up := ToUpper(w);
    forall i | 0 <= i < |w| ensures ToLower(up)[i] == w[i] {
      assert up[i] == UpperChar(w[i]);
    }
  }

  /** `s.slice(-n)` for n > 0: the last n characters, or all of s when it is shorter. */
  function TakeLast(s: string, n: nat): (r: string)
    ensures |r| == if |s| < n then |s| else n
    ensures r == s[|s| - |r|..]
  {
    if |s| < n then s else s[|s| - n..]
  }

  predicate IsDigit(c: char) {
    '0' <= c <= '9'
  }

  function DigitChar(d: nat): (c: char)
    requires d < 10
    ensures IsDigit(c) && c as int - '0' as int == d
  {
    ('0' as int + d) as char
  }

  function DigitValue(c: char): (d: nat)
    requires IsDigit(c)
    ensures d < 10
  {
    c as int - '0' as int
  }

  /** Decimal rendering of a natural number, without leading zeros ("0" for zero). */
  function NatToString(n: nat): (s: string)
    ensures s != []
    ensures forall i :: 0 <= i < |s| ==> IsDigit(s[i])
    ensures |s| > 1 ==> s[0] != '0'
  {
    if n < 10 then [DigitChar(n)] else NatToString(n / 10) + [DigitChar(n % 10)]
  }

  /** The value of a string of decimal digits. */
  function DigitsValue(s: string): nat
    requires forall i :: 0 <= i < |s| ==> IsDigit(s[i])
  {
    if s == [] then 0 else DigitsValue(s[..|s| - 1]) * 10 + DigitValue(s[|s| - 1])
  }

  /** Reading back a rendered number gives the number. */
  lemma {:induction false} NatToStringRoundTrip(n: nat)
    ensures DigitsValue(NatToString(n)) == n
  {
    var s := NatToString(n);
    if n >= 10 {
      var prefix := NatToString(n / 10);
      assert s[..|s| - 1] == prefix;
      NatToStringRoundTrip(n / 10);
    } else {
      assert s[..|s| - 1] == [];
    }
  }

  // ----- parseInt -----

  predicate IsHexDigit(c: char) {
    IsDigit(c) || 'a' <= c <= 'f' || 'A' <= c <= 'F'
  }

  function HexDigitValue(c: char): (d: nat)
    requires IsHexDigit(c)
    ensures d < 16
  {
    if IsDigit(c) then DigitValue(c)
    else if 'a' <= c <= 'f' then c as int - 'a' as int + 10
    else c as int - 'A' as int + 10
  }

  /** The value of a string of hexadecimal digits. */
  function HexValue(s: string): nat
    requires forall i :: 0 <= i < |s| ==> IsHexDigit(s[i])
  {
    if s == [] then 0 else HexValue(s[..|s| - 1]) * 16 + HexDigitValue(s[|s| - 1])
  }

  /** The longest prefix of decimal digits. */
  function DecimalPrefix(s: string): (r: string)
    ensures |r| <= |s| && r == s[..|r|]
    ensures forall i :: 0 <= i < |r| ==> IsDigit(r[i])
    ensures |r| < |s| ==> !IsDigit(s[|r|])
  {
    if s != [] && IsDigit(s[0]) then [s[0]] + DecimalPrefix(s[1..]) else []
  }

  /** The longest prefix of hexadecimal digits. */
  function HexPrefix(s: string): (r: string)
    ensures |r| <= |s| && r == s[..|r|]
    ensures forall i :: 0 <= i < |r| ==> IsHexDigit(r[i])
    ensures |r| < |s| ==> !IsHexDigit(s[|r|])
  {
    if s != [] && IsHexDigit(s[0]) then [s[0]] + HexPrefix(s[1..]) else []
  }

  /** After leading white space and an optional sign, whether a `0x` / `0X` prefix selects base 16. */
  predicate HasHexPrefix(s: string) {
    |s| >= 2 && s[0] == '0' && (s[1] == 'x' || s[1] == 'X')
  }

  /**
   * `parseInt(s)` without a radix: leading white space is skipped, an
   * optional sign is read, a `0x` prefix switches to base 16, and the
   * longest run of digits is read; None stands for NaN (no digits).
   */
  function ParseInt(s: string): (r: Option<int>)
  {
    var t := TrimStart(s);
    var negative := t != [] && t[0] == '-';
    var body := if t != [] && (t[0] == '-' || t[0] == '+') then t[1..] else t;
    var magnitude: Option<nat> :=
      if HasHexPrefix(body) then
        var h := HexPrefix(body[2..]);
        if h == [] then None else Some(HexValue(h))
      else
        var d := DecimalPrefix(body);
        if d == [] then None else Some(DigitsValue(d));
    match magnitude
    case None => None
    case Some(m) =>
      var v: int := if negative then 0 - m as int else m as int;
      Some(v)
  }

  /** A prefix of digits followed by a non-digit reads as the prefix. */
  lemma {:induction false} DecimalPrefixOfDigits(s: string, rest: string)
    requires forall i :: 0 <= i < |s| ==> IsDigit(s[i])
    requires rest == [] || !IsDigit(rest[0])
    ensures DecimalPrefix(s + rest) == s
  {
    if s != [] {
      assert (s + rest)[1..] == s[1..] + rest;
      DecimalPrefixOfDigits(s[1..], rest);
      assert s == [s[0]] + s[1..];
    } else {
      assert s + rest == rest;
    }
  }

  /** Without white space, sign or `0x` in front, `parseInt` reads the leading decimal digits. */
  lemma ParseIntUnsignedDecimal(s: string)
    requires TrimStart(s) == s
    requires s != [] && s[0] != '-' && s[0] != '+'
    requires !HasHexPrefix(s)
    ensures var d := DecimalPrefix(s);
      ParseInt(s) == if d == [] then None else Some(DigitsValue(d))
  {
  }

  /** A digit string is read in base 10, as its digits' value. */
  lemma ParseIntOfDigits(s: string)
    requires s != [] && forall i :: 0 <= i < |s| ==> IsDigit(s[i])
    requires !HasHexPrefix(s)
    ensures ParseInt(s) == Some(DigitsValue(s))
  {
    assert !IsJsSpace(s[0]);
    assert TrimStart(s) == s;
    ParseIntUnsignedDecimal(s);
    DecimalPrefixOfDigits(s, []);
    assert s + [] == s;
  }

  /** `parseInt` reads back every rendered natural number. */
  lemma ParseIntRoundTrip(n: nat)
    ensures ParseInt(NatToString(n)) == Some(n)
  {
    var s := NatToString(n);
    assert !HasHexPrefix(s) by {
      if |s| >= 2 { assert IsDigit(s[1]); }
    }
    ParseIntOfDigits(s);
    NatToStringRoundTrip(n);
  }

  lemma Regroup(a: string, b: string, c: string, d: string)
    ensures a + b + c + d == a + (b + (c + d))
  {
  }

  /** Trimming white space in front of a sign leaves the sign and all that follows it. */
  lemma TrimBeforeSign(pre: string, digits: string, rest: string)
    requires forall i :: 0 <= i < |pre| ==> IsJsSpace(pre[i])
    ensures TrimStart(pre + ['-'] + digits + rest) == ['-'] + (digits + rest)
  {
    Regroup(pre, ['-'], digits, rest);
    TrimStartPadded(pre, ['-'] + (digits + rest));
  }

  /** After white space, a minus sign negates the leading decimal digits of what follows it. */
  lemma ParseIntNegativeDecimal(s: string, body: string)
    requires TrimStart(s) == ['-'] + body
    requires !HasHexPrefix(body)
    requires DecimalPrefix(body) != []
    ensures ParseInt(s) == Some(-(DigitsValue(DecimalPrefix(body)) as int))
  {
    assert (['-'] + body)[1..] == body;
  }

  /**
   * Leading white space is skipped, a minus sign negates, and whatever
   * follows the digits is ignored: white space, '-', digits, then any text
   * not starting with a digit reads as minus the digits' value (unless the
   * text reads as a `0x` prefix, which switches to base 16).
   */
  lemma ParseIntNegativePrefix(pre: string, digits: string, rest: string)
    requires forall i :: 0 <= i < |pre| ==> IsJsSpace(pre[i])
    requires digits != [] && forall i :: 0 <= i < |digits| ==> IsDigit(digits[i])
    requires rest == [] || !IsDigit(rest[0])
    requires !HasHexPrefix(digits + rest)
    ensures var r := ParseInt(pre + ['-'] + digits + rest);
      r.Some? && r.value == -(DigitsValue(digits) as int)
  {
    TrimBeforeSign(pre, digits, rest);
    DecimalPrefixOfDigits(digits, rest);
    ParseIntNegativeDecimal(pre + ['-'] + digits + rest, digits + rest);
  }

  /** Trailing text after the digits is ignored and a leading minus negates: " -12 baths" reads as -12. */
  lemma ParseIntExample()
    ensures ParseInt(" -12 baths").Some? && ParseInt(" -12 baths").value == -12
  {
    assert " -12 baths" == [' '] + ['-'] + "12" + " baths";
    assert DigitsValue("12") == 12 by {
      assert "12"[..1] == "1";
      assert "1"[..0] == [];
    }
    ParseIntNegativePrefix([' '], "12", " baths");
  }

  /** A string with no digits (or only a bare `0x`) is NaN. */
  lemma ParseIntNaN()
    ensures ParseInt("").None?
    ensures ParseInt("two").None?
    ensures ParseInt("0x").None?
    ensures ParseInt("0x1A") == Some(26)
  {
    assert !IsJsSpace('t') && !IsJsSpace('0');
    assert TrimStart("two") == "two";
    assert TrimStart("0x") == "0x";
    assert HexPrefix("0x"[2..]) == [];
    assert TrimStart("0x1A") == "0x1A";
    assert "0x1A"[2..] == "1A";
    assert HexPrefix("1A") == "1A" by {
      assert "1A"[1..] == "A";
      assert "A"[1..] == [];
    }
    assert HexValue("1A") == 26 by {
      assert "1A"[..1] == "1";
      assert "1"[..0] == [];
    }
  }
}
