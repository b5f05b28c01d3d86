/** The string operations the screens call: `toLowerCase` restricted to ASCII,
    `parseInt` of a decimal answer, and `toString` of a non-negative integer. */
module Text {
  import opened Common

  predicate IsUpper(c: char) { 'A' <= c <= 'Z' }

  predicate IsDigit(c: char) { '0' <= c <= '9' }

  /** The white space `parseInt` skips before the number (the ASCII part of it). */
  predicate IsSpace(c: char)
  {
    c == ' ' || c == '\t' || c == '\n' || c == '\r' || c == '\U{000B}' || c == '\U{000C}'
  }

  predicate AllDigits(s: string)
  {
    forall i :: 0 <= i < |s| ==> IsDigit(s[i])
  }

  // ---------------------------------------------------------------------------
  // Case mapping

  /** ASCII lower-casing of one character: capitals move up by 32 code
      points, to their small letters; every other character is left alone. */
  function LowerChar(c: char): (r: char)
    ensures !IsUpper(r)
    ensures IsUpper(c) ==> r as int == c as int + 32
    ensures !IsUpper(c) ==> r == c
  {
    if IsUpper(c) then (c as int + 32) as char else c
  }

  /** ASCII upper-casing of one character, the inverse direction. */
  function UpperChar(c: char): (r: char)
    ensures 'a' <= c <= 'z' ==> IsUpper(r) && LowerChar(r) == c
    ensures !('a' <= c <= 'z') ==> r == c
  {
    if 'a' <= c <= 'z' then (c as int - 32) as char else c
  }

  /** `s.toLowerCase()` on ASCII: lower-cases every character in place. */
  function Lower(s: string): (r: string)
    ensures |r| == |s|
    ensures forall i :: 0 <= i < |s| ==> r[i] == LowerChar(s[i])
  {
    if s == [] then [] else [LowerChar(s[0])] + Lower(s[1..])
  }

  predicate IsLowerCase(s: string)
  {
    forall i :: 0 <= i < |s| ==> !IsUpper(s[i])
  }

  /** Lower-casing leaves a string without capitals as it is. */
  lemma LowerOfLowerCase(s: string)
    requires IsLowerCase(s)
    ensures Lower(s) == s
  {
    assert forall i :: 0 <= i < |s| ==> Lower(s)[i] == s[i];
  }

  /** Two strings have the same lower-case form exactly when they have the
      same length and agree position by position up to ASCII case. */
  lemma {:induction false} LowerEqualIff(a: string, b: string)
    ensures Lower(a) == Lower(b)
        <==> |a| == |b| && forall i :: 0 <= i < |a| ==> LowerChar(a[i]) == LowerChar(b[i])
  {
    var la, lb := Lower(a), Lower(b);
    if |a| == |b| && forall i :: 0 <= i < |a| ==> LowerChar(a[i]) == LowerChar(b[i]) {
      assert forall i :: 0 <= i < |la| ==> la[i] == lb[i];
    }
  }

  /** Upper-casing any characters of a string does not change its lower-case form. */
  lemma {:induction false} LowerIgnoresUpperCasing(s: string, t: string)
    requires |s| == |t|
    requires forall i :: 0 <= i < |s| ==> t[i] == s[i] || t[i] == UpperChar(s[i])
    ensures Lower(t) == Lower(s)
  {
    forall i | 0 <= i < |s|
      ensures LowerChar(t[i]) == LowerChar(s[i])
    {
      var c := s[i];
      if t[i] != c {
        assert 'a' <= c <= 'z';
      }
    }
    LowerEqualIff(t, s);
  }

  // ---------------------------------------------------------------------------
  // Decimal numbers

  function DigitValue(c: char): (d: nat)
    requires IsDigit(c)
    ensures d < 10
  {
    c as int - '0' as int
  }

  function DigitChar(d: nat): (c: char)
    requires d < 10
    ensures IsDigit(c) && DigitValue(c) == d
  {
    ('0' as int + d) as char
  }

  /** The value of a string of decimal digits, most significant first. */
  function DigitsValue(s: string): nat
    requires AllDigits(s)
  {
    if s == [] then 0 else 10 * DigitsValue(s[..|s| - 1]) + DigitValue(s[|s| - 1])
  }

  /** The longest prefix of `s` made of decimal digits. */
  function LeadingDigits(s: string): (r: string)
    ensures |r| <= |s| && r == s[..|r|]
    ensures AllDigits(r)
    ensures |r| < |s| ==> !IsDigit(s[|r|])
  {
    if s != [] && IsDigit(s[0]) then [s[0]] + LeadingDigits(s[1..]) else []
  }

  /** `s` without its leading white space. */
  function SkipSpaces(s: string): (r: string)
    ensures |r| <= |s| && r == s[|s| - |r|..]
    ensures forall i :: 0 <= i < |s| - |r| ==> IsSpace(s[i])
    ensures r != [] ==> !IsSpace(r[0])
  {
    if s != [] && IsSpace(s[0]) then SkipSpaces(s[1..]) else s
  }

  /** `parseInt(s)` in base 10: skip leading white space, read an optional
      sign and then as many digits as follow; no digit at all is `NaN`,
      modelled as `None`. Whatever follows the digits is ignored. */
  function ParseInt(s: string): Option<int>
  {
    var t := SkipSpaces(s);
    var negative := t != [] && t[0] == '-';
    var body := if t != [] && (t[0] == '-' || t[0] == '+') then t[1..] else t;
    var digits := LeadingDigits(body);
    if digits == [] then None
    else
      var value: int := DigitsValue(digits);
      Some(if negative then -value else value)
  }

  /** `n.toString()` for a non-negative integer: its shortest decimal form,
      which reads back as `n`. */
  function NatToString(n: nat): (r: string)
    ensures |r| > 0 && AllDigits(r)
    ensures DigitsValue(r) == n
    ensures |r| > 1 ==> r[0] != '0'
  {
    if n < 10 then [DigitChar(n)]
    else
      var r := NatToString(n / 10) + [DigitChar(n % 10)];
      assert r[..|r| - 1] == NatToString(n / 10);
      r
  }

  /** The leading digits of a digit string followed by a non-digit are that string. */
  lemma {:induction false} LeadingDigitsOfDigits(d: string, rest: string)
    requires AllDigits(d)
    requires rest == [] || !IsDigit(rest[0])
    ensures LeadingDigits(d + rest) == d
  {
    if d != [] {
      assert (d + rest)[1..] == d[1..] + rest;
      LeadingDigitsOfDigits(d[1..], rest);
    }
  }

  /** `parseInt` reads back what `toString` wrote, even with a non-digit
      tail after it (`parseInt("7abc")` is 7). */
  lemma {:induction false} ParseIntOfNatToString(n: nat, rest: string)
    requires rest == [] || !IsDigit(rest[0])
    ensures ParseInt(NatToString(n) + rest) == Some(n)
  {
    var d := NatToString(n);
    var s := d + rest;
    assert s[0] == d[0] && IsDigit(d[0]);
    assert !IsSpace(s[0]) && s[0] != '-' && s[0] != '+';
    assert SkipSpaces(s) == s;
    LeadingDigitsOfDigits(d, rest);
    assert LeadingDigits(s) == d;
  }

  /** A minus sign followed by decimal digits reads as the negated value. */
  lemma ParseIntOfNegative(s: string)
    requires |s| > 1 && s[0] == '-' && AllDigits(s[1..])
    ensures ParseInt(s) == Some(0 - DigitsValue(s[1..]))
  {
    assert !IsSpace(s[0]);
    assert SkipSpaces(s) == s;
    LeadingDigitsOfDigits(s[1..], []);
    assert s[1..] + [] == s[1..];
  }

  /** An answer with no digit in front, the empty answer among them, is `NaN`. */
  lemma ParseIntNoDigits(s: string)
    requires s == [] || !(IsDigit(s[0]) || IsSpace(s[0]) || s[0] == '-' || s[0] == '+')
    ensures ParseInt(s) == None
  {
  }
}
