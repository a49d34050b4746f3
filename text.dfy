// The handful of Python string operations the core relies on: ASCII case
// mapping, whitespace stripping and splitting, splitting on a separator,
// joining, and decimal printing and parsing of integers.
module Text {
  import opened Wrappers

  /** Python's whitespace test restricted to ASCII: space, \t, \n, \v, \f, \r
    * and the four separators 0x1C..0x1F. */
  predicate IsSpace(c: char) {
    c == ' ' || (9 <= c as int <= 13) || (28 <= c as int <= 31)
  }

  predicate NoSpace(s: string) {
    forall i :: 0 <= i < |s| ==> !IsSpace(s[i])
  }

  function LowerChar(c: char): char {
    if 'A' <= c <= 'Z' then (c as int + 32) as char else c
  }

  function UpperChar(c: char): char {
    if 'a' <= c <= 'z' then (c as int - 32) as char else c
  }

  /** str.lower() on ASCII letters. */
  function Lower(s: string): (r: string)
    ensures |r| == |s|
    ensures forall i :: 0 <= i < |s| ==> r[i] == LowerChar(s[i])
  {
    seq(|s|, i requires 0 <= i < |s| => LowerChar(s[i]))
  }

  /** str.upper() on ASCII letters. */
  function Upper(s: string): (r: string)
    ensures |r| == |s|
    ensures forall i :: 0 <= i < |s| ==> r[i] == UpperChar(s[i])
  {
    seq(|s|, i requires 0 <= i < |s| => UpperChar(s[i]))
  }

  lemma LowerIdempotent(s: string)
    ensures Lower(Lower(s)) == Lower(s)
  {
  }

  lemma UpperIdempotent(s: string)
    ensures Upper(Upper(s)) == Upper(s)
  {
  }

  /** str.lstrip(): the suffix left after dropping leading whitespace. */
  function TrimStart(s: string): (r: string)
    ensures |r| <= |s| && r == s[|s| - |r|..]
    ensures r == [] || !IsSpace(r[0])
    ensures forall i :: 0 <= i < |s| - |r| ==> IsSpace(s[i])
  {
    if |s| > 0 && IsSpace(s[0]) then TrimStart(s[1..]) else s
  }

  /** str.rstrip(): the prefix left after dropping trailing whitespace. */
  function TrimEnd(s: string): (r: string)
    ensures |r| <= |s| && r == s[..|r|]
    ensures r == [] || !IsSpace(r[|r| - 1])
    ensures forall i :: |r| <= i < |s| ==> IsSpace(s[i])
  {
    if |s| > 0 && IsSpace(s[|s| - 1]) then TrimEnd(s[..|s| - 1]) else s
  }

  /** str.strip(). */
  function Strip(s: string): (r: string)
    ensures r == [] || (!IsSpace(r[0]) && !IsSpace(r[|r| - 1]))
    ensures |r| <= |s|
  {
    TrimEnd(TrimStart(s))
  }

  lemma StripNoSpace(s: string)
    requires NoSpace(s)
    ensures Strip(s) == s
  {
  }

  /** str.rstrip(c) for a single character c. */
  function RStripChar(s: string, c: char): (r: string)
    ensures |r| <= |s| && r == s[..|r|]
    ensures r == [] || r[|r| - 1] != c
    ensures forall i :: |r| <= i < |s| ==> s[i] == c
  {
    if |s| > 0 && s[|s| - 1] == c then RStripChar(s[..|s| - 1], c) else s
  }

  /** The longest prefix of s holding no whitespace. */
  function Word(s: string): (w: string)
    ensures |w| <= |s| && w == s[..|w|] && NoSpace(w)
    ensures |w| == |s| || IsSpace(s[|w|])
  {
    if |s| == 0 || IsSpace(s[0]) then [] else [s[0]] + Word(s[1..])
  }

  /** str.split() with no argument: the maximal runs of non-whitespace. */
  function SplitWs(s: string): (parts: seq<string>)
    ensures forall p :: p in parts ==> |p| > 0 && NoSpace(p)
    decreases |s|
  {
    var t := TrimStart(s);
    if t == [] then [] else
    var w := Word(t);
    assert |w| > 0;
    [w] + SplitWs(t[|w|..])
  }

  /** A run of non-whitespace ended by whitespace (or by the end) is the
    * first word. */
  lemma {:induction false} WordOf(w: string, rest: string)
    requires NoSpace(w) && (rest == [] || IsSpace(rest[0]))
    ensures Word(w + rest) == w
  {
    if |w| > 0 {
      assert (w + rest)[1..] == w[1..] + rest;
      WordOf(w[1..], rest);
    }
  }

  /** One space and a word split into that word. */
  lemma {:induction false} SplitSpacedWord(b: string)
    requires |b| > 0 && NoSpace(b)
    ensures SplitWs(" " + b) == [b]
  {
    var s := " " + b;
    assert s[0] == ' ' && s[1..] == b;
    assert !IsSpace(b[0]);
    assert TrimStart(b) == b;
    assert TrimStart(s) == b;
    assert b == b + [];
    WordOf(b, []);
    assert b[|b|..] == [];
    assert SplitWs(b[|b|..]) == [];
  }

  /** Two words separated by one space split back into those two words. */
  lemma {:induction false} SplitTwoWords(a: string, b: string)
    requires |a| > 0 && |b| > 0 && NoSpace(a) && NoSpace(b)
    ensures SplitWs(a + " " + b) == [a, b]
  {
    var s := a + " " + b;
    assert TrimStart(s) == s by {
      assert s[0] == a[0];
    }
    assert Word(s) == a by {
      assert s == a + (" " + b);
      WordOf(a, " " + b);
    }
    assert s[|a|..] == " " + b;
    SplitSpacedWord(b);
  }

  /** Stripping leaves a string alone when it neither starts nor ends with
    * whitespace. */
  lemma StripUntrimmed(s: string)
    requires |s| > 0 && !IsSpace(s[0]) && !IsSpace(s[|s| - 1])
    ensures Strip(s) == s
  {
    assert TrimStart(s) == s;
  }

  /** The position of the first c in s. */
  function IndexOf(s: string, c: char): (k: nat)
    requires c in s
    ensures k < |s| && s[k] == c && c !in s[..k]
  {
    if s[0] == c then 0 else IndexOf(s[1..], c) + 1
  }

  /** str.split(sep) for a one-character separator: every piece, empty ones included. */
  function SplitOn(s: string, sep: char): (parts: seq<string>)
    ensures |parts| >= 1
    ensures forall k :: 0 <= k < |parts| ==> sep !in parts[k]
    decreases |s|
  {
    if sep !in s then [s] else
    var k := IndexOf(s, sep);
    [s[..k]] + SplitOn(s[k + 1..], sep)
  }

  /** sep.join(parts). */
  function Join(sep: string, parts: seq<string>): string {
    if |parts| == 0 then ""
    else if |parts| == 1 then parts[0]
    else parts[0] + sep + Join(sep, parts[1..])
  }

  /** Joining the pieces of a split with the separator gives back the original. */
  lemma {:induction false} JoinSplitOn(s: string, sep: char)
    ensures Join([sep], SplitOn(s, sep)) == s
    decreases |s|
  {
    if sep in s {
      var k := IndexOf(s, sep);
      var rest := SplitOn(s[k + 1..], sep);
      JoinSplitOn(s[k + 1..], sep);
      assert SplitOn(s, sep) == [s[..k]] + rest;
      assert Join([sep], SplitOn(s, sep)) == s[..k] + [sep] + Join([sep], rest);
      assert s == s[..k] + [sep] + s[k + 1..];
    }
  }

  function DigitChar(d: nat): (c: char)
    requires d < 10
    ensures '0' <= c <= '9' && c as int - '0' as int == d
  {
    ('0' as int + d) as char
  }

  predicate IsDigit(c: char) {
    '0' <= c <= '9'
  }

  predicate AllDigits(s: string) {
    forall i :: 0 <= i < |s| ==> IsDigit(s[i])
  }

  /** str(n) for a non-negative int. */
  function NatToString(n: nat): (s: string)
    ensures |s| > 0 && AllDigits(s)
  {
    if n < 10 then [DigitChar(n)] else NatToString(n / 10) + [DigitChar(n % 10)]
  }

  /** str(i) for any int. */
  function IntToString(i: int): string {
    if i < 0 then "-" + NatToString(-i) else NatToString(i)
  }

  /** The value of a run of decimal digits. */
  function DigitsValue(s: string): nat
    requires AllDigits(s)
  {
    if |s| == 0 then 0 else DigitsValue(s[..|s| - 1]) * 10 + (s[|s| - 1] as int - '0' as int)
  }

  /** int(s) for a string: surrounding whitespace, an optional sign and at
    * least one decimal digit; anything else is the ValueError case. */
  function ParseInt(s: string): Option<int> {
    var t := Strip(s);
    if |t| > 0 && (t[0] == '-' || t[0] == '+') then
      var body := t[1..];
      if |body| > 0 && AllDigits(body) then
        Some(if t[0] == '-' then 0 - DigitsValue(body) as int else DigitsValue(body) as int)
      else None
    else if |t| > 0 && AllDigits(t) then Some(DigitsValue(t))
    else None
  }

  lemma {:induction false} DigitsOfNat(n: nat)
    ensures DigitsValue(NatToString(n)) == n
  {
    var s := NatToString(n);
    if n >= 10 {
      DigitsOfNat(n / 10);
      assert s[..|s| - 1] == NatToString(n / 10);
    }
  }

  lemma NoSpaceDigits(s: string)
    requires AllDigits(s)
    ensures NoSpace(s)
  {
  }

  /** Printing an int and parsing it back gives the same int. */
  lemma ParseIntToString(i: int)
    ensures ParseInt(IntToString(i)) == Some(i)
  {
    if i < 0 {
      ParseNegative(-i);
    } else {
      ParseNatural(i);
    }
  }

  /** The digits of n parse back to n. */
  lemma ParseNatural(n: nat)
    ensures ParseInt(NatToString(n)) == Some(n)
  {
    var d := NatToString(n);
    DigitsOfNat(n);
    NoSpaceDigits(d);
    StripNoSpace(d);
    assert IsDigit(d[0]);
  }

  /** A minus sign before the digits of n parses back to -n. */
  lemma ParseNegative(n: nat)
    ensures ParseInt("-" + NatToString(n)) == Some(-(n as int))
  {
    var d := NatToString(n);
    var s := "-" + d;
    DigitsOfNat(n);
    NoSpaceDigits(d);
    assert NoSpace(s);
    StripNoSpace(s);
    assert s[1..] == d;
  }
}
