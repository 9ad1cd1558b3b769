/**
 * Characters, strings and decimal numbers as the JavaScript code of the UI uses them:
 * ASCII case mapping, the regular-expression classes \w and \s, substring tests,
 * String(n) for integers and Number(s) for integer literals.
 */
module Text {
  import opened Wrappers

  predicate IsDigit(c: char) { '0' <= c <= '9' }

  predicate IsAsciiUpper(c: char) { 'A' <= c <= 'Z' }

  predicate IsAsciiLower(c: char) { 'a' <= c <= 'z' }

  /** The regular-expression class \w (without the unicode flag): [A-Za-z0-9_]. */
  predicate IsWordChar(c: char) { IsAsciiUpper(c) || IsAsciiLower(c) || IsDigit(c) || c == '_' }

  /** The regular-expression class \s, which is also the set of characters Number() trims. */
  predicate IsSpace(c: char) {
    c == '\t' || c == '\n' || c == '\U{B}' || c == '\U{C}' || c == '\r' || c == ' ' ||
    c == '\U{A0}' || c == '\U{1680}' || ('\U{2000}' <= c <= '\U{200A}') ||
    c == '\U{2028}' || c == '\U{2029}' || c == '\U{202F}' || c == '\U{205F}' ||
    c == '\U{3000}' || c == '\U{FEFF}'
  }

  function LowerChar(c: char): (r: char)
    ensures IsAsciiUpper(c) ==> IsAsciiLower(r) && r as int == c as int + 32
    ensures !IsAsciiUpper(c) ==> r == c
  {
    if IsAsciiUpper(c) then (c as int + 32) as char else c
  }

  function UpperChar(c: char): (r: char)
    ensures IsAsciiLower(c) ==> IsAsciiUpper(r) && r as int == c as int - 32
    ensures !IsAsciiLower(c) ==> r == c
  {
    if IsAsciiLower(c) then (c as int - 32) as char else c
  }

  /** String.prototype.toLowerCase on the ASCII range. */
  function Lower(s: string): (r: string)
    ensures |r| == |s|
    ensures forall i :: 0 <= i < |r| ==> !IsAsciiUpper(r[i])
    ensures forall i :: 0 <= i < |s| && !IsAsciiUpper(s[i]) ==> r[i] == s[i]
    ensures forall i :: 0 <= i < |s| && IsAsciiUpper(s[i]) ==> IsAsciiLower(r[i]) && r[i] as int == s[i] as int + 32
  {
    seq(|s|, i requires 0 <= i < |s| => LowerChar(s[i]))
  }

  /** Lower-casing twice is lower-casing once. */
  lemma LowerIdempotent(s: string)
    ensures Lower(Lower(s)) == Lower(s)
  {
    var r := Lower(s);
    forall i | 0 <= i < |r| ensures Lower(r)[i] == r[i] {
      assert !IsAsciiUpper(r[i]);
    }
  }

  predicate StartsWith(s: string, prefix: string) {
    |prefix| <= |s| && s[..|prefix|] == prefix
  }

  predicate EndsWith(s: string, suffix: string) {
    |suffix| <= |s| && s[|s| - |suffix|..] == suffix
  }

  /** String.prototype.includes: some position of s starts an occurrence of part. */
  predicate Contains(s: string, part: string)
    decreases |s|
  {
    StartsWith(s, part) || (|s| > 0 && Contains(s[1..], part))
  }

  /** A string that ends with part contains it. */
  lemma {:induction false} EndsWithContains(s: string, part: string)
    requires EndsWith(s, part)
    ensures Contains(s, part)
    decreases |s|
  {
    if |s| > |part| {
      assert s[1..][|s[1..]| - |part|..] == s[|s| - |part|..];
      EndsWithContains(s[1..], part);
    } else {
      assert s[..|part|] == s[|s| - |part|..];
    }
  }

  /** part occurs in s at position i. */
  predicate OccursAt(s: string, part: string, i: int) {
    0 <= i <= |s| - |part| && s[i..i + |part|] == part
  }

  lemma OccursAtChars(s: string, part: string, i: int)
    requires OccursAt(s, part, i)
    ensures forall k :: 0 <= k < |part| ==> s[i + k] == part[k]
    ensures |part| >= 2 ==> s[i] == part[0] && s[i + 1] == part[1]
  {
    forall k | 0 <= k < |part|
      ensures s[i + k] == part[k]
    {
      assert s[i..i + |part|][k] == s[i + k];
    }
  }

  /** An occurrence found by includes() sits at some position of s. */
  lemma {:induction false} ContainsWitness(s: string, part: string)
    requires Contains(s, part)
    ensures exists i :: OccursAt(s, part, i)
    decreases |s|
  {
    if StartsWith(s, part) {
      assert OccursAt(s, part, 0);
    } else {
      ContainsWitness(s[1..], part);
      var i :| OccursAt(s[1..], part, i);
      assert s[i + 1..i + 1 + |part|] == s[1..][i..i + |part|];
      assert OccursAt(s, part, i + 1);
    }
  }

  function DigitChar(d: nat): (c: char)
    requires d < 10
    ensures IsDigit(c)
  {
    ('0' as int + d) as char
  }

  function DigitValue(c: char): (d: nat)
    requires IsDigit(c)
    ensures d < 10 && DigitChar(d) == c
  {
    c as int - '0' as int
  }

  predicate AllDigits(s: string) {
    forall i :: 0 <= i < |s| ==> IsDigit(s[i])
  }

  /** The decimal digits of n, most significant first, without leading zeros. */
  function NatToString(n: nat): (r: string)
    ensures |r| > 0 && AllDigits(r)
  {
    if n < 10 then [DigitChar(n)] else NatToString(n / 10) + [DigitChar(n % 10)]
  }

  /** String(n) for an integer n. */
  function IntToString(n: int): string {
    if n < 0 then "-" + NatToString(-n) else NatToString(n)
  }

  /** The value of a run of decimal digits. */
  function DigitsValue(ds: string): nat
    requires AllDigits(ds)
  {
    if ds == [] then 0 else DigitsValue(ds[..|ds| - 1]) * 10 + DigitValue(ds[|ds| - 1])
  }

  function TrimStart(s: string): (r: string)
    ensures |r| <= |s|
  {
    if |s| > 0 && IsSpace(s[0]) then TrimStart(s[1..]) else s
  }

  function TrimEnd(s: string): (r: string)
    ensures |r| <= |s|
  {
    if |s| > 0 && IsSpace(s[|s| - 1]) then TrimEnd(s[..|s| - 1]) else s
  }

  /**
   * Number(s) where s holds an integer literal: white space around it is ignored, the empty
   * string is 0, an optional sign is followed by one or more decimal digits. Any other text is
   * NaN, written None here.
   */
  function ParseInteger(s: string): Option<int> {
    var t := TrimEnd(TrimStart(s));
    if t == [] then Some(0)
    else if (t[0] == '-' || t[0] == '+') && |t| > 1 && AllDigits(t[1..]) then
      var magnitude: int := DigitsValue(t[1..]);
      Some(if t[0] == '-' then -magnitude else magnitude)
    else if AllDigits(t) then Some(DigitsValue(t))
    else None
  }

  lemma {:induction false} DigitsValueOfNatToString(n: nat)
    ensures DigitsValue(NatToString(n)) == n
  {
    var s := NatToString(n);
    if n >= 10 {
      DigitsValueOfNatToString(n / 10);
      assert s[..|s| - 1] == NatToString(n / 10);
    }
  }

  lemma NoSpaceInDigits(s: string)
    requires AllDigits(s)
    ensures TrimEnd(TrimStart(s)) == s
  {
    if |s| > 0 {
      assert !IsSpace(s[0]) && !IsSpace(s[|s| - 1]);
    }
  }

  /** Number(String(n)) == n: writing an integer into a text field and reading it back is lossless. */
  lemma {:induction false} ParseIntegerOfIntToString(n: int)
    ensures ParseInteger(IntToString(n)) == Some(n)
  {
    var s := IntToString(n);
    if n < 0 {
      DigitsValueOfNatToString(-n);
      NegativeUntrimmed(n);
      assert s[1..] == NatToString(-n);
    } else {
      DigitsValueOfNatToString(n);
      NoSpaceInDigits(s);
    }
  }

  lemma NegativeUntrimmed(n: int)
    requires n < 0
    ensures TrimStart(IntToString(n)) == IntToString(n) && TrimEnd(IntToString(n)) == IntToString(n)
  {
    var s := IntToString(n);
    var m := NatToString(-n);
    DigitsValueOfNatToString(-n);
    assert s == "-" + m;
    assert !IsSpace(s[0]);
    assert !IsSpace(s[|s| - 1]) by { assert s[|s| - 1] == m[|m| - 1]; }
  }
}
