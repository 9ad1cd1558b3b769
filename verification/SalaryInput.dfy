/**
 * The salary field's display formatter and input parser in the add-employee form
 * (src/containers/employees/add-employee/add-employee.jsx). The formatter prefixes "$ " and
 * then applies the global replacement of /\B(?=(\d{3})+(?!\d))/ by ","; the parser applies the
 * global replacement of /\$\s?|(,*)/ by "". Both regular expressions are modelled by their
 * match positions, as a global replace of zero-width and non-empty matches finds them.
 */
module SalaryInput {
  import Text

  /** The length of the run of decimal digits at the start of s. */
  function DigitRun(s: string): (n: nat)
    ensures n <= |s|
  {
    if s != [] && Text.IsDigit(s[0]) then 1 + DigitRun(s[1..]) else 0
  }

  /**
   * The formatter's regular expression matches (with zero width) just before t[p]: \B needs
   * t[p - 1] and t[p] on the same side of a word boundary, and the look-ahead needs the digit run
   * starting at p to have a length that is a positive multiple of three.
   */
  predicate CommaAt(t: string, p: int) {
    0 < p < |t| && Text.IsWordChar(t[p - 1]) && Text.IsDigit(t[p]) && DigitRun(t[p..]) % 3 == 0
  }

  /** t[p..] with a comma inserted at every match position. */
  function Commas(t: string, p: nat): string
    requires p <= |t|
    decreases |t| - p
  {
    if p == |t| then "" else (if CommaAt(t, p) then "," else "") + [t[p]] + Commas(t, p + 1)
  }

  /**
   * formatter(value), as written: "$ " first, then the value with commas inserted; no character
   * is dropped.
   */
  function Format(value: string): (r: string)
    ensures |r| >= |value| + 2 && r[..2] == "$ "
  {
    var t := "$ " + value;
    CommasAfterPrefix(value);
    CommasLength(t, 2);
    Commas(t, 0)
  }

  /** No comma goes before the "$ " prefix's two characters, which never precede a digit run. */
  lemma CommasAfterPrefix(value: string)
    ensures Commas("$ " + value, 0) == "$ " + Commas("$ " + value, 2)
  {
    var t := "$ " + value;
    assert t[0] == '$' && t[1] == ' ' && !Text.IsDigit(t[1]);
    assert Commas(t, 1) == [t[1]] + Commas(t, 2);
    assert Commas(t, 0) == [t[0]] + Commas(t, 1);
    assert [t[0]] + ([t[1]] + Commas(t, 2)) == "$ " + Commas(t, 2);
  }

  lemma {:induction false} CommasLength(t: string, p: nat)
    requires p <= |t|
    ensures |Commas(t, p)| >= |t| - p
    decreases |t| - p
  {
    if p < |t| {
      CommasLength(t, p + 1);
    }
  }

  /**
   * parser(value): each "$" goes together with one white-space character after it, when there
   * is one, and every comma goes; every other character stays.
   */
  function Parse(s: string): (r: string)
    ensures |r| <= |s|
    ensures Plain(r)
  {
    if s == [] then ""
    else if s[0] == '$' then (if |s| > 1 && Text.IsSpace(s[1]) then Parse(s[2..]) else Parse(s[1..]))
    else if s[0] == ',' then Parse(s[1..])
    else [s[0]] + Parse(s[1..])
  }

  predicate Plain(s: string) {
    forall i :: 0 <= i < |s| ==> s[i] != '$' && s[i] != ','
  }

  lemma {:induction false} ParseCommas(t: string, p: nat)
    requires p <= |t| && Plain(t[p..])
    ensures Parse(Commas(t, p)) == t[p..]
    decreases |t| - p
  {
    if p < |t| {
      assert t[p..][0] == t[p];
      assert t[p + 1..] == t[p..][1..];
      PlainSuffix(t[p..], 1);
      ParseCommas(t, p + 1);
      var rest := [t[p]] + Commas(t, p + 1);
      assert Parse(rest) == [t[p]] + Parse(Commas(t, p + 1));
      if CommaAt(t, p) {
        assert ("," + rest)[1..] == rest;
      } else {
        assert (if CommaAt(t, p) then "," else "") + rest == rest;
      }
      assert t[p..] == [t[p]] + t[p + 1..];
    }
  }

  lemma PlainSuffix(s: string, k: nat)
    requires Plain(s) && k <= |s|
    ensures Plain(s[k..])
  {
    forall i | 0 <= i < |s| - k
      ensures s[k..][i] != '$' && s[k..][i] != ','
    {
      assert s[k..][i] == s[k + i];
    }
  }

  lemma FormatPrefix(value: string)
    ensures Format(value) == "$ " + Commas("$ " + value, 2)
  {
    CommasAfterPrefix(value);
  }

  /** Inserting commas keeps the last character last. */
  lemma {:induction false} CommasLast(t: string, p: nat)
    requires p < |t|
    ensures |Commas(t, p)| > 0 && Commas(t, p)[|Commas(t, p)| - 1] == t[|t| - 1]
    decreases |t| - p
  {
    if p + 1 < |t| {
      CommasLast(t, p + 1);
    }
  }

  /**
   * parser(formatter(v)) == v for every v without "$" and ",", in particular for every digit
   * string: the parser undoes the formatter.
   */
  lemma ParseFormat(value: string)
    requires Plain(value)
    ensures Parse(Format(value)) == value
  {
    var t := "$ " + value;
    FormatPrefix(value);
    assert t[2..] == value;
    ParseCommas(t, 2);
    assert ("$ " + Commas(t, 2))[2..] == Commas(t, 2);
  }

  /** The conventional thousands grouping of a digit string: a comma before each group of three from the right. */
  function GroupDigits(ds: string): string
    decreases |ds|
  {
    if |ds| <= 3 then ds else GroupDigits(ds[..|ds| - 3]) + "," + ds[|ds| - 3..]
  }

  /** In a run of n digits, a comma goes before digit j > 0 when a multiple of three digits follow from j on. */
  predicate CommaBefore(n: int, j: int) {
    j > 0 && (n - j) % 3 == 0
  }

  /** ds[j..] with a comma before every digit j' that CommaBefore(n, j') selects. */
  function Grouped(ds: string, n: int, j: nat): string
    requires j <= |ds|
    decreases |ds| - j
  {
    if j == |ds| then "" else (if CommaBefore(n, j) then "," else "") + [ds[j]] + Grouped(ds, n, j + 1)
  }

  lemma {:induction false} CommasAsGrouped(value: string, j: nat)
    requires Text.AllDigits(value) && j <= |value|
    ensures Commas("$ " + value, j + 2) == Grouped(value, |value|, j)
    decreases |value| - j
  {
    var t := "$ " + value;
    if j < |value| {
      CommasAsGrouped(value, j + 1);
      CommaAtDigits(value, j);
      assert t[j + 2] == value[j];
    }
  }

  /** Inside "$ " + digits, a comma goes before digit j exactly when j > 0 and a multiple of three digits follow from j on. */
  lemma CommaAtDigits(value: string, j: nat)
    requires Text.AllDigits(value) && j < |value|
    ensures CommaAt("$ " + value, j + 2) <==> CommaBefore(|value|, j)
  {
    var t := "$ " + value;
    assert t[j + 2] == value[j];
    assert t[j + 2..] == value[j..];
    DigitRunAll(value[j..]);
    assert t[j + 1] == (if j == 0 then ' ' else value[j - 1]);
  }

  lemma {:induction false} DigitRunAll(s: string)
    requires Text.AllDigits(s)
    ensures DigitRun(s) == |s|
    decreases |s|
  {
    if s != [] {
      DigitRunAll(s[1..]);
    }
  }

  /** Grouping a concatenation from inside its first part: the first part, then the second. */
  lemma {:induction false} GroupedAppend(a: string, b: string, n: int, j: nat)
    requires j <= |a|
    ensures Grouped(a + b, n, j) == Grouped(a, n, j) + Grouped(a + b, n, |a|)
    decreases |a| - j
  {
    if j < |a| {
      GroupedAppend(a, b, n, j + 1);
      assert (a + b)[j] == a[j];
      var head := (if CommaBefore(n, j) then "," else "") + [a[j]];
      var rest, last := Grouped(a, n, j + 1), Grouped(a + b, n, |a|);
      assert head + (rest + last) == (head + rest) + last;
    }
  }

  /** Three digits fewer in the run select the same commas. */
  lemma {:induction false} GroupedShift(ds: string, n: int, j: nat)
    requires j <= |ds|
    ensures Grouped(ds, n, j) == Grouped(ds, n - 3, j)
    decreases |ds| - j
  {
    if j < |ds| {
      GroupedShift(ds, n, j + 1);
      assert (n - 3 - j) % 3 == (n - j) % 3;
    }
  }

  lemma {:induction false} GroupedTail(ds: string)
    requires |ds| >= 3
    ensures Grouped(ds, |ds|, |ds| - 3) == (if |ds| > 3 then "," else "") + ds[|ds| - 3..]
  {
    var n := |ds|;
    assert Grouped(ds, n, n) == "";
    assert Grouped(ds, n, n - 1) == [ds[n - 1]];
    assert Grouped(ds, n, n - 2) == [ds[n - 2], ds[n - 1]];
    assert ds[n - 3..] == [ds[n - 3], ds[n - 2], ds[n - 1]];
  }

  lemma {:induction false} GroupedIsGroupDigits(ds: string)
    ensures Grouped(ds, |ds|, 0) == GroupDigits(ds)
    decreases |ds|
  {
    var n := |ds|;
    if n <= 3 {
      if n == 3 {
        GroupedTail(ds);
      } else if n == 2 {
        assert Grouped(ds, n, 1) == [ds[1]];
        assert ds == [ds[0], ds[1]];
      } else if n == 1 {
        assert ds == [ds[0]];
      }
    } else {
      var pre, last := ds[..n - 3], ds[n - 3..];
      assert pre + last == ds;
      GroupedAppend(pre, last, n, 0);
      GroupedShift(pre, n, 0);
      GroupedTail(ds);
      GroupedIsGroupDigits(pre);
    }
  }

  /** On a digit string the formatter is "$ " followed by the conventional thousands grouping. */
  lemma FormatDigits(value: string)
    requires Text.AllDigits(value)
    ensures Format(value) == "$ " + GroupDigits(value)
  {
    FormatPrefix(value);
    CommasAsGrouped(value, 0);
    GroupedIsGroupDigits(value);
  }

  /**
   * As written, the look-ahead also fires inside the fraction of a decimal amount: with four or
   * more fraction digits the last three are split off by a comma ("1234.5678" is shown as
   * "$ 1,234.5,678").
   */
  lemma FractionGetsCommas(whole: string, fraction: string)
    requires Text.AllDigits(whole) && Text.AllDigits(fraction) && |fraction| >= 4
    ensures Text.EndsWith(Format(whole + "." + fraction), "," + fraction[|fraction| - 3..])
  {
    var t := "$ " + (whole + "." + fraction);
    var n := |t|;
    assert t[n - 4..] == fraction[|fraction| - 4..];
    assert Text.IsDigit(t[n - 4]) && Text.IsDigit(t[n - 3]) && Text.IsDigit(t[n - 2]) && Text.IsDigit(t[n - 1]);
    assert DigitRun(t[n - 1..]) == 1 by { assert t[n - 1..][1..] == []; }
    assert DigitRun(t[n - 2..]) == 2 by { assert t[n - 2..][1..] == t[n - 1..]; }
    assert DigitRun(t[n - 3..]) == 3 by { assert t[n - 3..][1..] == t[n - 2..]; }
    assert CommaAt(t, n - 3) && !CommaAt(t, n - 2) && !CommaAt(t, n - 1);
    assert Commas(t, n - 1) == [t[n - 1]];
    assert Commas(t, n - 3) == "," + t[n - 3..];
    assert t[n - 3..] == fraction[|fraction| - 3..];
    CommasEndsWith(t, 0, n - 3);
  }

  /** The commas inserted from p on end with those inserted from q on. */
  lemma {:induction false} CommasEndsWith(t: string, p: nat, q: nat)
    requires p <= q <= |t|
    ensures Text.EndsWith(Commas(t, p), Commas(t, q))
    decreases q - p
  {
    if p < q {
      CommasEndsWith(t, p + 1, q);
      var head := (if CommaAt(t, p) then "," else "") + [t[p]];
      assert Commas(t, p) == head + Commas(t, p + 1);
      var whole, tail := Commas(t, p + 1), Commas(t, q);
      assert (head + whole)[|head + whole| - |tail|..] == whole[|whole| - |tail|..];
    }
  }

  /** The position of the first '.', or |s| when there is none. */
  function PointIndex(s: string): (k: nat)
    ensures k <= |s|
    ensures forall i :: 0 <= i < k ==> s[i] != '.'
    ensures k < |s| ==> s[k] == '.'
  {
    if s == [] || s[0] == '.' then 0 else 1 + PointIndex(s[1..])
  }

  /** The formatter as evidently intended: only the integer part is grouped. */
  function FormatFixed(value: string): string {
    var k := PointIndex(value);
    Format(value[..k]) + value[k..]
  }

  lemma PlainSplit(value: string, k: nat)
    requires Plain(value) && k <= |value|
    ensures Plain(value[..k]) && Plain(value[k..])
  {
    forall i | 0 <= i < k ensures value[..k][i] != '$' && value[..k][i] != ',' {
      assert value[..k][i] == value[i];
    }
    forall i | 0 <= i < |value| - k ensures value[k..][i] != '$' && value[k..][i] != ',' {
      assert value[k..][i] == value[k + i];
    }
  }

  /** The corrected formatter, which leaves the fraction as typed, still round-trips through the parser. */
  lemma FormatFixedRoundTrip(value: string)
    requires Plain(value)
    ensures Parse(FormatFixed(value)) == value
  {
    var k := PointIndex(value);
    PlainSplit(value, k);
    ParseFormat(value[..k]);
    CommasLast("$ " + value[..k], 0);
    if k > 0 {
      assert ("$ " + value[..k])[k + 1] == value[k - 1];
    }
    ParseAppend(Format(value[..k]), value[k..]);
    assert value[..k] + value[k..] == value;
  }

  /** On a digit string the corrected formatter is the thousands grouping. */
  lemma FormatFixedDigits(value: string)
    requires Text.AllDigits(value)
    ensures FormatFixed(value) == "$ " + GroupDigits(value)
  {
    var k := PointIndex(value);
    assert value[..k] == value && value[k..] == "";
    FormatDigits(value);
  }

  /** The corrected formatter groups the integer part and leaves the fraction as typed. */
  lemma FormatFixedKeepsFraction(whole: string, fraction: string)
    requires Text.AllDigits(whole)
    ensures FormatFixed(whole + "." + fraction) == "$ " + GroupDigits(whole) + "." + fraction
  {
    var value := whole + "." + fraction;
    var k := PointIndex(value);
    assert value[|whole|] == '.';
    assert forall i :: 0 <= i < |whole| ==> value[i] == whole[i];
    assert k == |whole|;
    assert value[..k] == whole && value[k..] == "." + fraction;
    FormatDigits(whole);
  }

  /** Parsing distributes over a suffix without "$" and "," after a text that does not end in "$". */
  lemma {:induction false} ParseAppend(s: string, u: string)
    requires Plain(u)
    requires s == [] || s[|s| - 1] != '$'
    ensures Parse(s + u) == Parse(s) + u
    decreases |s|
  {
    if s == [] {
      assert s + u == u;
      ParsePlain(u);
    } else if s[0] == '$' && |s| > 1 && Text.IsSpace(s[1]) {
      assert (s + u)[2..] == s[2..] + u;
      ParseAppend(s[2..], u);
    } else if s[0] == '$' {
      assert |s| > 1;
      assert (s + u)[1..] == s[1..] + u;
      ParseAppend(s[1..], u);
    } else {
      assert (s + u)[1..] == s[1..] + u;
      ParseAppend(s[1..], u);
    }
  }

  lemma {:induction false} ParsePlain(u: string)
    requires Plain(u)
    ensures Parse(u) == u
    decreases |u|
  {
    if u != [] {
      assert Plain(u[1..]) by {
        forall i | 0 <= i < |u[1..]| ensures u[1..][i] != '$' && u[1..][i] != ',' {
          assert u[1..][i] == u[i + 1];
        }
      }
      ParsePlain(u[1..]);
      assert u == [u[0]] + u[1..];
    }
  }
}
