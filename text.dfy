/**
 * The string operations the organizer relies on: `ToLower`, `TrimStart(char)`,
 * `Trim()` and the decimal rendering of an `int` inside an interpolated string.
 * Case mapping and white space are the ASCII subset of what .NET does.
 */
module Text {

  // ---------------------------------------------------------------- case

  function LowerChar(c: char): char {
    if 'A' <= c <= 'Z' then (c as int + 32) as char else c
  }

  function UpperChar(c: char): char {
    if 'a' <= c <= 'z' then (c as int - 32) as char else c
  }

  /** `string.ToLower()`, restricted to ASCII letters. */
  function ToLower(s: string): (r: string)
    ensures |r| == |s|
  {
    if s == [] then [] else [LowerChar(s[0])] + ToLower(s[1..])
  }

  /** `string.ToUpper()`, restricted to ASCII letters. */
  function ToUpper(s: string): (r: string)
    ensures |r| == |s|
  {
    if s == [] then [] else [UpperChar(s[0])] + ToUpper(s[1..])
  }

  /** Lower-casing forgets how a string was cased: upper-casing first changes nothing. */
  lemma {:induction false} LowerOfUpper(s: string)
    ensures ToLower(ToUpper(s)) == ToLower(s)
  {
    if s != [] {
      LowerOfUpper(s[1..]);
      assert ToUpper(s)[1..] == ToUpper(s[1..]);
    }
  }

  lemma {:induction false} LowerAppend(a: string, b: string)
    ensures ToLower(a + b) == ToLower(a) + ToLower(b)
  {
    if a != [] {
      assert (a + b)[0] == a[0] && (a + b)[1..] == a[1..] + b;
      calc {
        ToLower(a + b);
        [LowerChar(a[0])] + ToLower(a[1..] + b);
        { LowerAppend(a[1..], b); }
        [LowerChar(a[0])] + (ToLower(a[1..]) + ToLower(b));
        ([LowerChar(a[0])] + ToLower(a[1..])) + ToLower(b);
      }
    } else {
      assert a + b == b;
    }
  }

  // ---------------------------------------------------------------- trimming

  /** `s.TrimStart(c)`: every leading occurrence of `c` is removed. */
  function TrimStart(s: string, c: char): (r: string)
    ensures |r| <= |s|
  {
    if s != [] && s[0] == c then TrimStart(s[1..], c) else s
  }

  /** `TrimStart` keeps a suffix, removes only copies of `c`, and leaves none in front. */
  lemma {:induction false} TrimStartSpec(s: string, c: char)
    ensures var r := TrimStart(s, c);
      && r == s[|s| - |r|..]
      && (forall i :: 0 <= i < |s| - |r| ==> s[i] == c)
      && (r == [] || r[0] != c)
  {
    if s != [] && s[0] == c {
      TrimStartSpec(s[1..], c);
    }
  }

  /** A string made of `n` copies of `c`. */
  function Repeat(c: char, n: nat): (r: string)
    ensures |r| == n
  {
    if n == 0 then [] else [c] + Repeat(c, n - 1)
  }

  lemma TrimStartCons(c: char, s: string)
    ensures TrimStart([c] + s, c) == TrimStart(s, c)
  {
    assert ([c] + s)[1..] == s;
  }

  /** Leading copies of `c`, however many, make no difference to `TrimStart`. */
  lemma {:induction false} TrimStartRepeat(c: char, n: nat, s: string)
    ensures TrimStart(Repeat(c, n) + s, c) == TrimStart(s, c)
  {
    if n == 0 {
      assert Repeat(c, n) + s == s;
    } else {
      var rest := Repeat(c, n - 1) + s;
      assert Repeat(c, n) + s == [c] + rest;
      TrimStartCons(c, rest);
      TrimStartRepeat(c, n - 1, s);
    }
  }

  /** The characters `char.IsWhiteSpace` accepts in the ASCII range. */
  predicate IsWhiteSpace(c: char) {
    c == ' ' || c == '\t' || c == '\n' || c == '\r' || c == '\U{B}' || c == '\U{C}'
  }

  predicate AllWhiteSpace(s: string) {
    forall i :: 0 <= i < |s| ==> IsWhiteSpace(s[i])
  }

  function TrimWhiteSpaceStart(s: string): (r: string)
    ensures |r| <= |s|
  {
    if s != [] && IsWhiteSpace(s[0]) then TrimWhiteSpaceStart(s[1..]) else s
  }

  /** Leading white space, and only white space, is removed. */
  lemma {:induction false} TrimWhiteSpaceStartSpec(s: string)
    ensures var r := TrimWhiteSpaceStart(s);
      && r == s[|s| - |r|..]
      && (forall i :: 0 <= i < |s| - |r| ==> IsWhiteSpace(s[i]))
      && (r == [] || !IsWhiteSpace(r[0]))
  {
    if s != [] && IsWhiteSpace(s[0]) {
      TrimWhiteSpaceStartSpec(s[1..]);
    }
  }

  function TrimWhiteSpaceEnd(s: string): (r: string)
    ensures |r| <= |s|
  {
    if s != [] && IsWhiteSpace(s[|s| - 1]) then TrimWhiteSpaceEnd(s[..|s| - 1]) else s
  }

  /** Trailing white space, and only white space, is removed. */
  lemma {:induction false} TrimWhiteSpaceEndSpec(s: string)
    ensures var r := TrimWhiteSpaceEnd(s);
      && r == s[..|r|]
      && (forall i :: |r| <= i < |s| ==> IsWhiteSpace(s[i]))
      && (r == [] || !IsWhiteSpace(r[|r| - 1]))
  {
    if s != [] && IsWhiteSpace(s[|s| - 1]) {
      TrimWhiteSpaceEndSpec(s[..|s| - 1]);
    }
  }

  /** `string.Trim()`: white space is removed from both ends. */
  function Trim(s: string): string {
    TrimWhiteSpaceEnd(TrimWhiteSpaceStart(s))
  }

  /** What `Trim` keeps starts and ends with a character that is not white space. */
  lemma TrimEnds(s: string)
    ensures var r := Trim(s); r == [] || (!IsWhiteSpace(r[0]) && !IsWhiteSpace(r[|r| - 1]))
  {
    var t := TrimWhiteSpaceStart(s);
    TrimWhiteSpaceStartSpec(s);
    TrimWhiteSpaceEndSpec(t);
  }

  /** A string trims to the empty string exactly when it is all white space. */
  lemma TrimEmptyIffBlank(s: string)
    ensures Trim(s) == [] <==> AllWhiteSpace(s)
  {
    var t := TrimWhiteSpaceStart(s);
    TrimWhiteSpaceStartSpec(s);
    TrimWhiteSpaceEndSpec(t);
    if Trim(s) == [] {
      assert t == [];
    }
  }

  /** Trimming twice is trimming once. */
  lemma TrimIdempotent(s: string)
    ensures Trim(Trim(s)) == Trim(s)
  {
    var r := Trim(s);
    TrimEnds(s);
    assert TrimWhiteSpaceStart(r) == r;
    assert TrimWhiteSpaceEnd(r) == r;
  }

  // ---------------------------------------------------------------- decimal numbers

  predicate IsDigit(c: char) {
    '0' <= c <= '9'
  }

  predicate AllDigits(s: string) {
    forall i :: 0 <= i < |s| ==> IsDigit(s[i])
  }

  function DigitChar(d: nat): (c: char)
    requires d < 10
    ensures IsDigit(c)
  {
    ('0' as int + d) as char
  }

  function DigitValue(c: char): nat
    requires IsDigit(c)
  {
    c as int - '0' as int
  }

  /** How C# renders a non-negative `int` in an interpolated string: plain decimal digits. */
  function NatToString(n: nat): (r: string)
    ensures |r| >= 1
  {
    if n < 10 then [DigitChar(n)] else NatToString(n / 10) + [DigitChar(n % 10)]
  }

  lemma {:induction false} NatToStringDigits(n: nat)
    ensures AllDigits(NatToString(n))
  {
    if n >= 10 {
      NatToStringDigits(n / 10);
    }
  }

  /** The number a string of decimal digits denotes. */
  function DigitsValue(s: string): nat
    requires AllDigits(s)
  {
    if s == [] then 0 else 10 * DigitsValue(s[..|s| - 1]) + DigitValue(s[|s| - 1])
  }

  /** Reading back what `NatToString` wrote gives the number again. */
  lemma {:induction false} NatToStringRoundTrip(n: nat)
    ensures AllDigits(NatToString(n)) && DigitsValue(NatToString(n)) == n
  {
    NatToStringDigits(n);
    if n >= 10 {
      NatToStringRoundTrip(n / 10);
      var s := NatToString(n);
      assert s[..|s| - 1] == NatToString(n / 10);
    }
  }

  /** Different numbers are rendered differently. */
  lemma NatToStringInjective(a: nat, b: nat)
    ensures NatToString(a) == NatToString(b) ==> a == b
  {
    NatToStringRoundTrip(a);
    NatToStringRoundTrip(b);
  }
}
