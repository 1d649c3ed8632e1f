/** The string handling the source relies on: `String.prototype.split` on one
    character, `parseInt`, `Number` and `parseFloat` on unsigned decimal text,
    ASCII `toLowerCase`, `includes`, and the decimal rendering of a number.
 */
module Text {
  import opened Options

  predicate IsDigit(c: char)
  {
    '0' <= c <= '9'
  }

  function DigitValue(c: char): (n: nat)
    requires IsDigit(c)
    ensures n < 10
  {
    c as int - '0' as int
  }

  function DigitChar(n: nat): (c: char)
    requires n < 10
    ensures IsDigit(c) && DigitValue(c) == n
  {
    ('0' as int + n) as char
  }

  predicate AllDigits(s: string)
  {
    forall i :: 0 <= i < |s| ==> IsDigit(s[i])
  }

  /** The value of a run of decimal digits ("" is 0). */
  function DigitsValue(s: string): nat
    requires AllDigits(s)
  {
    if s == [] then 0 else 10 * DigitsValue(s[..|s| - 1]) + DigitValue(s[|s| - 1])
  }

  /** The decimal rendering of a natural number, as a template literal prints it. */
  function NatToString(n: nat): (s: string)
    ensures |s| >= 1 && AllDigits(s)
    ensures DigitsValue(s) == n
  {
    if n < 10 then [DigitChar(n)]
    else
      var s := NatToString(n / 10) + [DigitChar(n % 10)];
      assert s[..|s| - 1] == NatToString(n / 10);
      s
  }

  /** Two digits with a leading zero, the `2-digit` day and month of a date. */
  function PadTwo(n: nat): (s: string)
    requires n < 100
    ensures |s| == 2 && AllDigits(s) && DigitsValue(s) == n
  {
    var s := [DigitChar(n / 10), DigitChar(n % 10)];
    assert s[..1] == [s[0]] && [s[0]][..0] == [];
    assert DigitsValue(s[..1]) == n / 10;
    s
  }

  /** Four digits with leading zeros, the year of an ISO date. */
  function PadFour(n: nat): (s: string)
    requires n < 10000
    ensures |s| == 4 && AllDigits(s) && DigitsValue(s) == n
  {
    var s := PadTwo(n / 100) + PadTwo(n % 100);
    assert s[..3] == PadTwo(n / 100) + [s[2]];
    assert s[..3][..2] == PadTwo(n / 100);
    assert DigitsValue(s[..3]) == 10 * (n / 100) + DigitValue(s[2]);
    s
  }

  /** Length of the run of digits that starts `s`. */
  function LeadingDigits(s: string): (k: nat)
    ensures k <= |s| && AllDigits(s[..k])
    ensures k < |s| ==> !IsDigit(s[k])
  {
    if s == [] || !IsDigit(s[0]) then 0
    else
      var k := 1 + LeadingDigits(s[1..]);
      assert s[..k] == [s[0]] + s[1..][..k - 1];
      k
  }

  lemma LeadingDigitsOfDigits(s: string)
    requires AllDigits(s)
    ensures LeadingDigits(s) == |s|
  {
    if s != [] {
      LeadingDigitsOfDigits(s[1..]);
    }
  }

  /** `s.split(sep)`: the maximal pieces between separators; "" gives [""]. */
  function Split(s: string, sep: char): (parts: seq<string>)
    ensures |parts| >= 1
  {
    if s == [] then [""]
    else
      var rest := Split(s[1..], sep);
      if s[0] == sep then [""] + rest else [[s[0]] + rest[0]] + rest[1..]
  }

  /** A piece without the separator splits to itself. */
  lemma {:induction false} SplitNoSeparator(s: string, sep: char)
    requires sep !in s
    ensures Split(s, sep) == [s]
  {
    if s != [] {
      SplitNoSeparator(s[1..], sep);
      assert [s[0]] + s[1..] == s;
    }
  }

  /** Splitting `a + [sep] + b`, with no separator in `a`, gives `a` and then the pieces of `b`. */
  lemma {:induction false} SplitAtSeparator(a: string, sep: char, b: string)
    requires sep !in a
    ensures Split(a + [sep] + b, sep) == [a] + Split(b, sep)
  {
    var s := a + [sep] + b;
    if a == [] {
      assert s[1..] == b;
    } else {
      assert s[1..] == a[1..] + [sep] + b;
      SplitAtSeparator(a[1..], sep, b);
      assert [a[0]] + a[1..] == a;
    }
  }

  /** `parseInt(s, 10)`: the leading run of digits, NaN (None) when there is none. */
  function ParseInt(s: string): (r: Option<nat>)
    ensures r.Some? <==> s != [] && IsDigit(s[0])
  {
    var k := LeadingDigits(s);
    if k == 0 then None else Some(DigitsValue(s[..k]))
  }

  lemma ParseIntOfDigits(s: string)
    requires AllDigits(s) && s != []
    ensures ParseInt(s) == Some(DigitsValue(s))
  {
    LeadingDigitsOfDigits(s);
    assert s[..|s|] == s;
  }

  /** `Number(s)` on text made only of digits: "" is 0, anything else with a
      non-digit is NaN (None). */
  function NumberOfDigits(s: string): (r: Option<nat>)
    ensures r.Some? <==> AllDigits(s)
  {
    if AllDigits(s) then Some(DigitsValue(s)) else None
  }

  function Pow10(n: nat): (p: real)
    ensures p >= 1.0
  {
    if n == 0 then 1.0 else 10.0 * Pow10(n - 1)
  }

  /** How much of `s` a decimal literal `digits [. digits]` covers. */
  function DecimalPrefix(s: string): (k: nat)
    ensures k <= |s|
  {
    var i := LeadingDigits(s);
    if i < |s| && s[i] == '.' then i + 1 + LeadingDigits(s[i + 1..]) else i
  }

  /** `parseFloat(s)` on unsigned decimal text: the value of the longest leading
      decimal literal, NaN (None) when that literal has no digit. */
  function ParseFloat(s: string): (r: Option<real>)
    ensures r.Some? ==> r.value >= 0.0
  {
    var i := LeadingDigits(s);
    var whole := DigitsValue(s[..i]) as real;
    if i < |s| && s[i] == '.' then
      var f := LeadingDigits(s[i + 1..]);
      if i == 0 && f == 0 then None
      else Some(whole + DigitsValue(s[i + 1..][..f]) as real / Pow10(f))
    else if i == 0 then None
    else Some(whole)
  }

  /** `Number(s)` on unsigned decimal text: "" is 0, a string that is exactly
      a decimal literal has its value, anything else is NaN (None). */
  function NumberOf(s: string): (r: Option<real>)
    ensures s == "" ==> r == Some(0.0)
    ensures s != "" ==> r == if DecimalPrefix(s) == |s| then ParseFloat(s) else None
  {
    if s == "" then Some(0.0)
    else if DecimalPrefix(s) == |s| then ParseFloat(s)
    else None
  }

  /** `Number` and `parseFloat` agree on every non-empty string `Number` accepts;
      on "" they differ, `Number` giving 0 and `parseFloat` NaN. */
  lemma NumberAndParseFloat(s: string)
    ensures s != "" && NumberOf(s).Some? ==> ParseFloat(s) == NumberOf(s)
    ensures NumberOf("") == Some(0.0) && ParseFloat("") == None
  {
  }

  lemma {:induction false} ParseFloatOfNat(n: nat)
    ensures ParseFloat(NatToString(n)) == Some(n as real)
    ensures NumberOf(NatToString(n)) == Some(n as real)
  {
    var s := NatToString(n);
    LeadingDigitsOfDigits(s);
    assert s[..|s|] == s;
  }

  /** ASCII `toLowerCase` (characters outside A-Z are left as they are). */
  function LowerChar(c: char): (r: char)
    ensures 'A' <= c <= 'Z' ==> 'a' <= r <= 'z' && r as int == c as int + 32
    ensures !('A' <= c <= 'Z') ==> r == c
  {
    if 'A' <= c <= 'Z' then (c as int + 32) as char else c
  }

  function ToLower(s: string): (r: string)
    ensures |r| == |s|
    ensures forall i :: 0 <= i < |s| ==> r[i] == LowerChar(s[i])
  {
    seq(|s|, i requires 0 <= i < |s| => LowerChar(s[i]))
  }

  /** `s.includes(sub)`: `sub` occurs in `s` at some position. */
  predicate Contains(s: string, sub: string)
    decreases |s|
  {
    sub <= s || (s != [] && Contains(s[1..], sub))
  }

  predicate OccursAt(s: string, sub: string, i: int)
  {
    0 <= i <= |s| - |sub| && s[i..i + |sub|] == sub
  }

  /** `includes` succeeds only when `sub` occurs at some index ... */
  lemma {:induction false} ContainsOccurs(s: string, sub: string)
    requires Contains(s, sub)
    ensures exists i :: OccursAt(s, sub, i)
  {
    if sub <= s {
      assert OccursAt(s, sub, 0);
    } else {
      ContainsOccurs(s[1..], sub);
      var i :| OccursAt(s[1..], sub, i);
      assert s[i + 1..i + 1 + |sub|] == s[1..][i..i + |sub|];
      assert OccursAt(s, sub, i + 1);
    }
  }

  /** ... and whenever it does. */
  lemma {:induction false} OccursContains(s: string, sub: string, i: int)
    requires OccursAt(s, sub, i)
    ensures Contains(s, sub)
    decreases i
  {
    if i == 0 {
      assert s[..|sub|] == sub;
    } else {
      assert s[1..][i - 1..i - 1 + |sub|] == s[i..i + |sub|];
      OccursContains(s[1..], sub, i - 1);
    }
  }

  /** The empty string is part of every string. */
  lemma ContainsEmpty(s: string)
    ensures Contains(s, "")
  {
  }
}
