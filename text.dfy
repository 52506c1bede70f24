/** String helpers: decimal rendering of integers (JavaScript's String(n) on an integral number),
    single-character join and split, substring search, and character-wise rewriting. */
module Text {
  import opened Wrappers

  predicate IsDigit(c: char) {
    '0' <= c <= '9'
  }

  function DigitValue(c: char): (d: nat)
    requires IsDigit(c)
    ensures d < 10
  {
    c as int - '0' as int
  }

  function DigitChar(d: nat): (c: char)
    requires d < 10
    ensures IsDigit(c) && DigitValue(c) == d
  {
    ('0' as int + d) as char
  }

  /** The decimal digits of `n`, most significant first, with no leading zero. */
  function NatToString(n: nat): (s: string)
    ensures |s| >= 1
    ensures forall i :: 0 <= i < |s| ==> IsDigit(s[i])
    decreases n
  {
    if n < 10 then [DigitChar(n)] else NatToString(n / 10) + [DigitChar(n % 10)]
  }

  function IntToString(i: int): string {
    if i < 0 then "-" + NatToString(-i) else NatToString(i)
  }

  /** Reads a non-empty string of decimal digits back into a number. */
  function ParseNat(s: string): Option<nat>
    decreases |s|
  {
    if |s| == 0 || !IsDigit(s[|s| - 1]) then None
    else if |s| == 1 then Some(DigitValue(s[0]))
    else match ParseNat(s[..|s| - 1])
      case None => None
      case Some(p) => Some(10 * p + DigitValue(s[|s| - 1]))
  }

  /** Decimal rendering and parsing are inverse, so the rendering is injective. */
  lemma {:induction false} ParseNatToString(n: nat)
    ensures ParseNat(NatToString(n)) == Some(n)
    decreases n
  {
    if n >= 10 {
      var s := NatToString(n);
      assert s[..|s| - 1] == NatToString(n / 10);
      ParseNatToString(n / 10);
    }
  }

  lemma NatToStringInjective(a: nat, b: nat)
    requires NatToString(a) == NatToString(b)
    ensures a == b
  {
    ParseNatToString(a);
    ParseNatToString(b);
  }

  /** ParseNat accepts every non-empty string of digits. */
  lemma {:induction false} ParseNatDigits(s: string)
    requires |s| >= 1 && forall i :: 0 <= i < |s| ==> IsDigit(s[i])
    ensures ParseNat(s).Some?
    decreases |s|
  {
    if |s| > 1 {
      ParseNatDigits(s[..|s| - 1]);
    }
  }

  /** JavaScript's white space and line terminators, the characters `parseInt`, `Number` and `trim`
      skip: tab, line tabulation, form feed, space, no-break space, the byte order mark, the other
      space separators, and the four line terminators. */
  predicate IsSpace(c: char) {
    || c == '\t' || c == '\U{000B}' || c == '\U{000C}' || c == ' ' || c == '\U{00A0}' || c == '\U{FEFF}'
    || c == '\U{1680}' || ('\U{2000}' <= c <= '\U{200A}') || c == '\U{202F}' || c == '\U{205F}' || c == '\U{3000}'
    || c == '\n' || c == '\r' || c == '\U{2028}' || c == '\U{2029}'
  }

  /** `s` without its leading white space. */
  function TrimStart(s: string): (r: string)
    ensures |r| <= |s| && r == s[|s| - |r|..]
    ensures r == [] || !IsSpace(r[0])
    decreases |s|
  {
    if s != [] && IsSpace(s[0]) then TrimStart(s[1..]) else s
  }

  /** `s` without its trailing white space. */
  function TrimEnd(s: string): (r: string)
    ensures |r| <= |s| && r == s[..|r|]
    ensures r == [] || !IsSpace(r[|r| - 1])
    decreases |s|
  {
    if s != [] && IsSpace(s[|s| - 1]) then TrimEnd(s[..|s| - 1]) else s
  }

  /** The length of the run of digits `s` starts with. */
  function DigitRun(s: string): (n: nat)
    ensures n <= |s|
    ensures forall i :: 0 <= i < n ==> IsDigit(s[i])
    ensures n < |s| ==> !IsDigit(s[n])
    decreases |s|
  {
    if s != [] && IsDigit(s[0]) then 1 + DigitRun(s[1..]) else 0
  }

  /** The value of the longest run of decimal digits `u` starts with; None when there is none. */
  function LeadingNumber(u: string): (r: Option<nat>)
    ensures r.None? <==> (u == [] || !IsDigit(u[0]))
  {
    var n := DigitRun(u);
    if n == 0 then None
    else
      ParseNatDigits(u[..n]);
      Some(ParseNat(u[..n]).value)
  }

  /** `parseInt(s, 10)`: leading white space, an optional sign, then the longest run of decimal
      digits; None stands for NaN, when no digit follows. */
  function ParseIntPrefix(s: string): Option<int> {
    var t := TrimStart(s);
    if |t| > 0 && t[0] == '-' then
      match LeadingNumber(t[1..])
      case None => None
      case Some(v) => Some(-(v as int))
    else if |t| > 0 && t[0] == '+' then
      match LeadingNumber(t[1..])
      case None => None
      case Some(v) => Some(v as int)
    else
      match LeadingNumber(t)
      case None => None
      case Some(v) => Some(v as int)
  }

  lemma {:induction false} DigitRunAll(u: string)
    requires forall i :: 0 <= i < |u| ==> IsDigit(u[i])
    ensures DigitRun(u) == |u|
    decreases |u|
  {
    if u != [] {
      DigitRunAll(u[1..]);
    }
  }

  lemma LeadingNumberOfDigits(n: nat)
    ensures LeadingNumber(NatToString(n)) == Some(n)
  {
    var u := NatToString(n);
    DigitRunAll(u);
    assert u[..|u|] == u;
    ParseNatToString(n);
  }

  /** parseInt reads back what decimal rendering writes. */
  lemma ParseIntToString(i: int)
    ensures ParseIntPrefix(IntToString(i)) == Some(i)
  {
    var u := NatToString(if i < 0 then -i else i);
    LeadingNumberOfDigits(if i < 0 then -i else i);
    var s := IntToString(i);
    assert !IsSpace(s[0]);
    assert TrimStart(s) == s;
    if i < 0 {
      assert s[1..] == u;
    } else {
      assert s == u && IsDigit(s[0]);
    }
  }

  /** `Number(s)` for a string, on the integral numerals: white space is trimmed, the empty string
      is 0, and an optionally signed run of decimal digits is its value. None stands for NaN and for
      the numerals that are not modelled (fractions, exponents, `0x`/`0o`/`0b` and `Infinity`). */
  function NumericString(s: string): (r: Option<int>)
    ensures TrimEnd(TrimStart(s)) == [] ==> r == Some(0)
  {
    var t := TrimEnd(TrimStart(s));
    if t == [] then Some(0) else SignedDigits(t)
  }

  /** An optionally signed run of decimal digits that fills all of `t`. */
  function SignedDigits(t: string): (r: Option<int>)
    ensures r.Some? ==> exists k :: 0 <= k < |t| && IsDigit(t[k])
  {
    var u := if t != [] && (t[0] == '-' || t[0] == '+') then t[1..] else t;
    if u == [] || DigitRun(u) != |u| then None
    else
      assert IsDigit(t[|t| - |u|]);
      match LeadingNumber(u)
      case None => None
      case Some(v) => Some(if t[0] == '-' then -(v as int) else v as int)
  }

  /** Number() reads back what decimal rendering writes. */
  lemma NumericStringOfInt(i: int)
    ensures NumericString(IntToString(i)) == Some(i)
  {
    var s := IntToString(i);
    assert !IsSpace(s[0]) && !IsSpace(s[|s| - 1]);
    assert TrimStart(s) == s;
    assert TrimEnd(s) == s;
    SignedDigitsOfInt(i);
  }

  lemma SignedDigitsOfInt(i: int)
    ensures SignedDigits(IntToString(i)) == Some(i)
  {
    var n: nat := if i < 0 then -i else i;
    var u := NatToString(n);
    LeadingNumberOfDigits(n);
    DigitRunAll(u);
    var s := IntToString(i);
    if i < 0 {
      assert s[1..] == u;
    } else {
      assert s == u && IsDigit(s[0]);
    }
  }

  /** A string holding anything but white space, a sign and digits is NaN. */
  lemma NumericStringRejects(s: string, k: nat)
    requires k < |s| && !IsDigit(s[k]) && !IsSpace(s[k]) && s[k] != '-' && s[k] != '+'
    ensures NumericString(s) == None
  {
    var t0 := TrimStart(s);
    var t := TrimEnd(t0);
    TrimKeeps(s, k);
    var j := k - (|s| - |t0|);
    assert t0[j] == s[k];
    assert t[j] == s[k];
    SignedDigitsRejects(t, j);
  }

  lemma SignedDigitsRejects(t: string, j: nat)
    requires j < |t| && !IsDigit(t[j]) && t[j] != '-' && t[j] != '+'
    ensures SignedDigits(t) == None
  {
    var u := if t[0] == '-' || t[0] == '+' then t[1..] else t;
    var i := if t[0] == '-' || t[0] == '+' then j - 1 else j;
    assert 0 <= i < |u| && u[i] == t[j];
    assert DigitRun(u) <= i;
  }

  /** A character that is not white space lies inside the trimmed string. */
  lemma TrimKeeps(s: string, k: nat)
    requires k < |s| && !IsSpace(s[k])
    ensures var t0 := TrimStart(s);
      && |s| - |t0| <= k
      && k - (|s| - |t0|) < |TrimEnd(t0)|
  {
    TrimStartBefore(s, k);
    var t0 := TrimStart(s);
    var j := k - (|s| - |t0|);
    assert t0[j] == s[k];
    TrimEndAfter(t0, j);
  }

  lemma {:induction false} TrimStartBefore(s: string, k: nat)
    requires k < |s| && !IsSpace(s[k])
    ensures |s| - |TrimStart(s)| <= k
    decreases |s|
  {
    if s != [] && IsSpace(s[0]) {
      assert k >= 1;
      TrimStartBefore(s[1..], k - 1);
    }
  }

  lemma {:induction false} TrimEndAfter(s: string, k: nat)
    requires k < |s| && !IsSpace(s[k])
    ensures k < |TrimEnd(s)|
    decreases |s|
  {
    if s != [] && IsSpace(s[|s| - 1]) {
      assert k < |s| - 1;
      TrimEndAfter(s[..|s| - 1], k);
    }
  }

  predicate StartsWith(s: string, prefix: string) {
    |prefix| <= |s| && s[..|prefix|] == prefix
  }

  /** JavaScript's `s.includes(p)`. */
  predicate Contains(s: string, p: string)
    decreases |s|
  {
    StartsWith(s, p) || (|s| > 0 && Contains(s[1..], p))
  }

  /** `parts.join(sep)` for a one-character separator. */
  function Join(parts: seq<string>, sep: char): string
    decreases |parts|
  {
    if |parts| == 0 then ""
    else if |parts| == 1 then parts[0]
    else parts[0] + [sep] + Join(parts[1..], sep)
  }

  function IndexOf(s: string, c: char): (i: nat)
    requires c in s
    ensures i < |s| && s[i] == c && c !in s[..i]
  {
    if s[0] == c then 0 else 1 + IndexOf(s[1..], c)
  }

  /** `s.split(sep)` for a one-character separator. */
  function Split(s: string, sep: char): (parts: seq<string>)
    ensures |parts| >= 1
    decreases |s|
  {
    if sep !in s then [s]
    else
      var i := IndexOf(s, sep);
      [s[..i]] + Split(s[i + 1..], sep)
  }

  lemma IndexOfAfterPrefix(a: string, c: char, t: string)
    requires c !in a
    ensures IndexOf(a + [c] + t, c) == |a|
  {
    var s := a + [c] + t;
    assert s[|a|] == c;
    assert forall j :: 0 <= j < |a| ==> s[j] == a[j];
  }

  /** A split at the first separator. */
  lemma SplitAfterPrefix(a: string, c: char, t: string)
    requires c !in a
    ensures Split(a + [c] + t, c) == [a] + Split(t, c)
  {
    var s := a + [c] + t;
    assert s[|a|] == c;
    IndexOfAfterPrefix(a, c, t);
    assert s[..|a|] == a;
    assert s[|a| + 1..] == t;
  }

  /** Splitting a join recovers the parts when no part contains the separator. */
  lemma {:induction false} SplitJoin(parts: seq<string>, sep: char)
    requires |parts| >= 1
    requires forall i :: 0 <= i < |parts| ==> sep !in parts[i]
    ensures Split(Join(parts, sep), sep) == parts
    decreases |parts|
  {
    if |parts| > 1 {
      var rest := Join(parts[1..], sep);
      SplitAfterPrefix(parts[0], sep, rest);
      SplitJoin(parts[1..], sep);
      assert parts == [parts[0]] + parts[1..];
    }
  }


  /** Every occurrence of `from` replaced by `to` (JavaScript's `s.replace(/from/g, to)`). */
  function ReplaceChar(s: string, from: char, to: char): (r: string)
    ensures |r| == |s|
    ensures forall i :: 0 <= i < |s| ==> r[i] == (if s[i] == from then to else s[i])
    decreases |s|
  {
    if s == [] then []
    else [if s[0] == from then to else s[0]] + ReplaceChar(s[1..], from, to)
  }

  function UpperChar(c: char): char {
    if 'a' <= c <= 'z' then (c as int - 32) as char else c
  }

  /** `s.toUpperCase()` restricted to ASCII letters. */
  function ToUpper(s: string): (r: string)
    ensures |r| == |s|
    ensures forall i :: 0 <= i < |s| ==> r[i] == UpperChar(s[i])
    decreases |s|
  {
    if s == [] then [] else [UpperChar(s[0])] + ToUpper(s[1..])
  }
}
