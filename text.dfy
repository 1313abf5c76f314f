/**
 * The JavaScript string primitives the services rely on: the white-space class
 * shared by `\s` and `String.prototype.trim`, `toLowerCase`, `includes`,
 * `replace` with a literal global pattern, `String(number)` and `parseInt(s, 10)`.
 */
module Text {
  import opened Wrappers

  /** The characters JavaScript treats as white space in `\s` and in `trim()`. */
  predicate IsWhitespace(c: char) {
    c == ' ' || c == '\t' || c == '\n' || c == '\r' || c == '\U{B}' || c == '\U{C}'
    || c == '\U{A0}' || c == '\U{1680}' || ('\U{2000}' <= c <= '\U{200A}')
    || c == '\U{2028}' || c == '\U{2029}' || c == '\U{202F}' || c == '\U{205F}'
    || c == '\U{3000}' || c == '\U{FEFF}'
  }

  /** The ASCII digits, JavaScript's `\d` without the `u` flag. */
  predicate IsDigit(c: char) {
    '0' <= c <= '9'
  }

  /** Whether a character lies outside the Basic Multilingual Plane, where UTF-16 needs two code units. */
  predicate IsAstral(c: char) {
    c as int >= 0x1_0000
  }

  /**
   * `s.length` in JavaScript: the number of UTF-16 code units, one per character of
   * the Basic Multilingual Plane and two per character beyond it.
   */
  function Utf16Length(s: string): (n: nat)
    ensures |s| <= n <= 2 * |s|
    ensures n == |s| <==> forall i :: 0 <= i < |s| ==> !IsAstral(s[i])
    ensures n == 2 * |s| <==> forall i :: 0 <= i < |s| ==> IsAstral(s[i])
    decreases |s|
  {
    if s == [] then 0
    else
      var rest := Utf16Length(s[1..]);
      assert forall i :: 1 <= i < |s| ==> s[i] == s[1..][i - 1];
      (if IsAstral(s[0]) then 2 else 1) + rest
  }

  /** `toLowerCase` on one character, for the ASCII and Latin-1 capital letters. */
  function LowerChar(c: char): (r: char)
    ensures 'A' <= c <= 'Z' ==> r as int == c as int + 32
    ensures !('A' <= c <= 'Z') && !('\U{C0}' <= c <= '\U{DE}') ==> r == c
    ensures IsWhitespace(r) == IsWhitespace(c)
  {
    if 'A' <= c <= 'Z' || ('\U{C0}' <= c <= '\U{DE}' && c != '\U{D7}') then (c as int + 32) as char else c
  }

  /** `toLowerCase` on a string, character by character. */
  function Lower(s: string): (r: string)
    ensures |r| == |s|
    ensures forall i :: 0 <= i < |s| ==> r[i] == LowerChar(s[i])
  {
    seq(|s|, i requires 0 <= i < |s| => LowerChar(s[i]))
  }

  /** `s.includes(pat)`: `pat` occurs somewhere in `s` as a contiguous piece. */
  predicate Contains(s: string, pat: string)
    ensures Contains(s, pat) ==> |pat| <= |s|
    decreases |s|
  {
    pat <= s || (|s| > 0 && Contains(s[1..], pat))
  }

  /** `Contains` agrees with the positional reading of `includes`. */
  lemma {:induction false} ContainsAt(s: string, pat: string, k: nat)
    requires k + |pat| <= |s| && s[k..k + |pat|] == pat
    ensures Contains(s, pat)
    decreases k
  {
    if k == 0 {
      assert pat == s[..|pat|];
    } else {
      assert s[1..][k - 1..k - 1 + |pat|] == s[k..k + |pat|];
      ContainsAt(s[1..], pat, k - 1);
    }
  }

  /** `trimStart()`: drops the leading run of white space. */
  function TrimStart(s: string): (r: string)
    ensures |r| <= |s| && r == s[|s| - |r|..]
    ensures |r| > 0 ==> !IsWhitespace(r[0])
    ensures forall i :: 0 <= i < |s| - |r| ==> IsWhitespace(s[i])
    ensures |s| > 0 && IsWhitespace(s[0]) ==> |r| < |s|
    decreases |s|
  {
    if |s| > 0 && IsWhitespace(s[0]) then
      var r := TrimStart(s[1..]);
      assert forall i :: 1 <= i < |s| - |r| ==> s[i] == s[1..][i - 1];
      r
    else s
  }

  /** `trimEnd()`: drops the trailing run of white space. */
  function TrimEnd(s: string): (r: string)
    ensures |r| <= |s| && r == s[..|r|]
    ensures |r| > 0 ==> !IsWhitespace(r[|r| - 1])
    ensures forall i :: |r| <= i < |s| ==> IsWhitespace(s[i])
    decreases |s|
  {
    if |s| > 0 && IsWhitespace(s[|s| - 1]) then TrimEnd(s[..|s| - 1]) else s
  }

  /** `trim()`: white space removed at both ends. */
  function Trim(s: string): (r: string)
    ensures |r| > 0 ==> !IsWhitespace(r[0]) && !IsWhitespace(r[|r| - 1])
  {
    TrimEnd(TrimStart(s))
  }

  /** `replace(/\s+/g, ' ')`: every maximal run of white space becomes one space. */
  function CollapseWhitespace(s: string): (r: string)
    ensures |s| == 0 <==> |r| == 0
    ensures |s| > 0 ==> IsWhitespace(r[0]) == IsWhitespace(s[0])
    ensures forall i :: 0 <= i < |r| && IsWhitespace(r[i]) ==> r[i] == ' '
    ensures forall i, j {:trigger r[i], r[j]} :: 0 <= i && j == i + 1 && j < |r| ==> !IsWhitespace(r[i]) || !IsWhitespace(r[j])
    decreases |s|
  {
    if s == [] then []
    else if IsWhitespace(s[0]) then [' '] + CollapseWhitespace(TrimStart(s))
    else [s[0]] + CollapseWhitespace(s[1..])
  }

  /**
   * `s.replace(/pat/g, rep)` for a literal pattern: occurrences are found left to
   * right and do not overlap.
   */
  function ReplaceAll(s: string, pat: string, rep: string): (r: string)
    requires |pat| > 0
    ensures !Contains(s, pat) ==> r == s
    ensures |pat| <= |rep| ==> |s| <= |r|
    decreases |s|
  {
    if |s| < |pat| then s
    else if pat <= s then rep + ReplaceAll(s[|pat|..], pat, rep)
    else
      var rest := ReplaceAll(s[1..], pat, rep);
      assert !Contains(s, pat) ==> [s[0]] + rest == s by {
        if !Contains(s, pat) { assert s == [s[0]] + s[1..]; }
      }
      [s[0]] + rest
  }

  /** Replacing a pattern by itself changes nothing. */
  lemma {:induction false} ReplaceAllSelf(s: string, pat: string)
    requires |pat| > 0
    ensures ReplaceAll(s, pat, pat) == s
    decreases |s|
  {
    if |s| < |pat| {
    } else if pat <= s {
      ReplaceAllSelf(s[|pat|..], pat);
      assert s == pat + s[|pat|..];
    } else {
      ReplaceAllSelf(s[1..], pat);
      assert s == [s[0]] + s[1..];
    }
  }

  /** The character of a decimal digit value. */
  function DigitChar(d: nat): (c: char)
    requires d < 10
    ensures IsDigit(c) && c as int - '0' as int == d
  {
    ('0' as int + d) as char
  }

  /** The decimal digits of a natural number, most significant first. */
  function NatToString(n: nat): (r: string)
    ensures |r| > 0
    ensures forall i :: 0 <= i < |r| ==> IsDigit(r[i])
  {
    if n < 10 then [DigitChar(n)] else NatToString(n / 10) + [DigitChar(n % 10)]
  }

  /** 10^21: from this magnitude on, `String(n)` writes a number in exponent notation. */
  const ExponentFrom: int := 1_000_000_000_000_000_000_000

  /** The most significant decimal digit of a natural number. */
  function LeadingDigit(n: nat): (d: nat)
    ensures d < 10
    ensures n > 0 ==> d > 0
  {
    if n < 10 then n else LeadingDigit(n / 10)
  }

  /** A positive number without its trailing decimal zeros. */
  function StripZeros(n: nat): (r: nat)
    requires n > 0
    ensures r > 0 && r % 10 != 0
  {
    if n % 10 == 0 then StripZeros(n / 10) else n
  }

  /**
   * `String(n)` for a natural number, as Number::toString (section 6.1.6.1.20 of
   * ECMA-262) writes an integral value: its decimal digits below 10^21; from 10^21
   * on, the first significant digit, then a point and the other significant digits
   * when there are any, then "e+" and the decimal exponent.
   */
  function NumberToString(n: nat): (r: string)
    ensures |r| > 1 || n < 10
    ensures |r| > 0 && IsDigit(r[0])
    ensures (forall i :: 0 <= i < |r| ==> IsDigit(r[i])) <==> n < ExponentFrom
    ensures n >= ExponentFrom ==> DigitValue(r[0]) == LeadingDigit(n) && !IsDigit(r[1])
  {
    if n < ExponentFrom then
      assert n >= 10 ==> |NatToString(n)| > 1;
      NatToString(n)
    else
      var significand := NatToString(StripZeros(n));
      var mantissa := if |significand| == 1 then significand else [significand[0], '.'] + significand[1..];
      var r := mantissa + "e+" + NatToString(|NatToString(n)| - 1);
      assert r[|mantissa|] == 'e';
      assert r[0] == significand[0] && (r[1] == 'e' || r[1] == '.');
      NatToStringLeads(StripZeros(n));
      StripZerosLeads(n);
      r
  }

  /** The first character of the digits of `n` is its leading digit. */
  lemma {:induction false} NatToStringLeads(n: nat)
    ensures NatToString(n)[0] == DigitChar(LeadingDigit(n))
  {
    if n >= 10 {
      NatToStringLeads(n / 10);
    }
  }

  /** Dropping trailing zeros keeps the leading digit. */
  lemma {:induction false} StripZerosLeads(n: nat)
    requires n > 0
    ensures LeadingDigit(StripZeros(n)) == LeadingDigit(n)
  {
    if n % 10 == 0 {
      StripZerosLeads(n / 10);
    }
  }

  /** `String(n)` for an integer: a minus sign before the magnitude of a negative number. */
  function IntToString(n: int): (r: string)
    ensures |r| > 0
    ensures n < 0 <==> r[0] == '-'
    ensures -ExponentFrom < n < ExponentFrom <==> forall i :: 0 < i < |r| ==> IsDigit(r[i])
  {
    if n < 0 then
      var r := "-" + NumberToString(-n);
      assert forall i :: 0 < i < |r| ==> r[i] == NumberToString(-n)[i - 1];
      assert -n >= ExponentFrom ==> !IsDigit(r[2]);
      r
    else
      NumberToString(n)
  }

  /** The longest prefix of `s` made of digits. */
  function DigitPrefix(s: string): (r: string)
    ensures r <= s
    ensures forall i :: 0 <= i < |r| ==> IsDigit(r[i])
    ensures |r| < |s| ==> !IsDigit(s[|r|])
  {
    if |s| > 0 && IsDigit(s[0]) then [s[0]] + DigitPrefix(s[1..]) else []
  }

  /** The value of a string of decimal digits. */
  function DigitsValue(d: string): nat
    requires forall i :: 0 <= i < |d| ==> IsDigit(d[i])
  {
    if d == [] then 0 else DigitsValue(d[..|d| - 1]) * 10 + DigitValue(d[|d| - 1])
  }

  /** The value of one decimal digit. */
  function DigitValue(c: char): (d: nat)
    requires IsDigit(c)
    ensures d < 10
  {
    c as int - '0' as int
  }

  /** The number `parseInt` reads after an optional sign, or `None` (NaN) if no digit follows. */
  function ParseSigned(s: string): (r: Option<int>)
    ensures r.Some? ==> |s| > 0
    ensures r.Some? && r.value < 0 ==> s[0] == '-'
    ensures |s| > 0 && IsDigit(s[0]) ==> r.Some? && r.value >= 0
  {
    var negative := |s| > 0 && s[0] == '-';
    var body := if |s| > 0 && (s[0] == '-' || s[0] == '+') then s[1..] else s;
    var digits := DigitPrefix(body);
    if digits == [] then None
    else if negative then Some(-(DigitsValue(digits) as int))
    else Some(DigitsValue(digits))
  }

  /**
   * `parseInt(s, 10)`: leading white space is skipped, an optional sign is read, then
   * the longest run of digits; anything after it is ignored. `None` stands for NaN.
   */
  function ParseInt(s: string): (r: Option<int>)
    ensures r.None? <==> DigitPrefix(
      var t := TrimStart(s); if |t| > 0 && (t[0] == '-' || t[0] == '+') then t[1..] else t) == []
  {
    ParseSigned(TrimStart(s))
  }

  lemma {:induction false} DigitPrefixOfDigits(d: string)
    requires forall i :: 0 <= i < |d| ==> IsDigit(d[i])
    ensures DigitPrefix(d) == d
    decreases |d|
  {
    if |d| > 0 {
      DigitPrefixOfDigits(d[1..]);
    }
  }

  lemma {:induction false} NatToStringValue(n: nat)
    ensures DigitsValue(NatToString(n)) == n
  {
    if n >= 10 {
      var s := NatToString(n);
      assert s[..|s| - 1] == NatToString(n / 10);
      NatToStringValue(n / 10);
    }
  }

  lemma ParseSignedOfDigits(d: string, negative: bool)
    requires |d| > 0 && forall i :: 0 <= i < |d| ==> IsDigit(d[i])
    ensures ParseSigned(if negative then "-" + d else d)
      == Some(if negative then -(DigitsValue(d) as int) else DigitsValue(d))
  {
    DigitPrefixOfDigits(d);
    if negative {
      var s := "-" + d;
      assert s[0] == '-' && s[1..] == d;
    } else {
      assert d[0] != '-' && d[0] != '+';
    }
  }

  /**
   * Reading back what `String(n)` wrote, `parseInt(String(n), 10)`: `n` itself below
   * 10^21 in magnitude; from there on only the signed leading digit, since
   * `parseInt` stops at the point or the "e" of the exponent notation.
   */
  lemma ParseIntOfIntToString(n: int)
    ensures -ExponentFrom < n < ExponentFrom ==> ParseInt(IntToString(n)) == Some(n)
    ensures n >= ExponentFrom ==> ParseInt(IntToString(n)) == Some(LeadingDigit(n))
    ensures n <= -ExponentFrom ==> ParseInt(IntToString(n)) == Some(-(LeadingDigit(-n) as int))
  {
    var m: nat := if n < 0 then -n else n;
    var s := IntToString(n);
    assert !IsWhitespace(s[0]);
    if m < ExponentFrom {
      NatToStringValue(m);
      ParseSignedOfDigits(NatToString(m), n < 0);
    } else {
      ParseSignedOfLeadingDigit(NumberToString(m), n < 0);
    }
  }

  /** `parseInt` of a digit followed by a non-digit reads that one digit, with its sign. */
  lemma ParseSignedOfLeadingDigit(d: string, negative: bool)
    requires |d| > 1 && IsDigit(d[0]) && !IsDigit(d[1])
    ensures ParseSigned(if negative then "-" + d else d)
      == Some(if negative then -(DigitValue(d[0]) as int) else DigitValue(d[0]))
  {
    assert DigitPrefix(d) == [d[0]] by {
      assert DigitPrefix(d[1..]) == [];
    }
    assert DigitsValue([d[0]]) == DigitValue(d[0]) by {
      assert [d[0]][..0] == [];
    }
    if negative {
      var s := "-" + d;
      assert s[0] == '-' && s[1..] == d;
    } else {
      assert d[0] != '-' && d[0] != '+';
    }
  }
}
