/** The two pieces of .NET text handling the cue builder depends on:
    `String.ToLowerInvariant` (restricted to ASCII letters) and the "D2"
    standard numeric format used for track numbers, with a decimal reader
    that inverts it. */
module DotNetText {

  predicate IsUpper(c: char) { 'A' <= c <= 'Z' }

  predicate IsDigit(c: char) { '0' <= c <= '9' }

  /** Invariant-culture lower-casing of one character (ASCII letters only):
      an upper-case letter becomes the lower-case letter at the same place in
      the alphabet, and every other character is kept. */
  function LowerChar(c: char): (r: char)
    ensures !IsUpper(r)
    ensures IsUpper(c) ==> 'a' <= r <= 'z' && r as int - 'a' as int == c as int - 'A' as int
    ensures !IsUpper(c) ==> r == c
  {
    if IsUpper(c) then (c as int + 32) as char else c
  }

  /** `s.ToLowerInvariant()`: the same string with every upper-case letter lowered. */
  function ToLowerInvariant(s: string): string
  {
    seq(|s|, i requires 0 <= i < |s| => LowerChar(s[i]))
  }

  function DigitChar(d: nat): (c: char)
    requires d < 10
    ensures IsDigit(c)
  {
    ('0' as int + d) as char
  }

  function DigitValue(c: char): (d: nat)
    requires IsDigit(c)
    ensures d < 10
  {
    c as int - '0' as int
  }

  predicate AllDigits(s: string) { forall i :: 0 <= i < |s| ==> IsDigit(s[i]) }

  /** Shortest decimal rendering of `n`. */
  function Decimal(n: nat): (r: string)
    ensures 1 <= |r|
    ensures AllDigits(r)
    ensures r[0] == '0' ==> n == 0
    decreases n
  {
    if n < 10 then [DigitChar(n)] else Decimal(n / 10) + [DigitChar(n % 10)]
  }

  /** Left-pads a rendering of at least one digit with zeros to two digits. */
  function PadTwo(digits: string): (r: string)
    requires 1 <= |digits|
    ensures 2 <= |r|
  {
    if |digits| < 2 then "0" + digits else digits
  }

  /** `n.ToString("D2")`: at least two digits, zero-padded on the left,
      preceded by '-' for a negative value. */
  function FormatD2(n: int): string
  {
    if n < 0 then "-" + PadTwo(Decimal(-n)) else PadTwo(Decimal(n))
  }

  /** A "D2" rendering is at least two digits, zero-padded only up to two,
      after a '-' for a negative value, and never holds a space. */
  lemma FormatD2Shape(n: int)
    ensures var r := FormatD2(n);
      && (n >= 0 ==> 2 <= |r| && AllDigits(r))
      && (n >= 0 && |r| > 2 ==> r[0] != '0')
      && (n < 0 ==> 3 <= |r| && r[0] == '-' && AllDigits(r[1..]))
      && (n < 0 && |r| > 3 ==> r[1] != '0')
      && (forall i :: 0 <= i < |r| ==> r[i] != ' ')
  {
    var r := FormatD2(n);
    if n < 0 {
      assert r[1..] == PadTwo(Decimal(-n));
    }
  }

  /** Value of a string of decimal digits (leading zeros allowed). */
  function ParseDigits(s: string): nat
    requires AllDigits(s)
    decreases |s|
  {
    if s == [] then 0 else ParseDigits(s[..|s| - 1]) * 10 + DigitValue(s[|s| - 1])
  }

  predicate IsIntText(s: string)
  {
    (1 <= |s| && s[0] == '-' && AllDigits(s[1..])) || AllDigits(s)
  }

  /** Reads back an optionally negative decimal integer. */
  function ParseInt(s: string): int
    requires IsIntText(s)
  {
    if 1 <= |s| && s[0] == '-' then -(ParseDigits(s[1..]) as int) else ParseDigits(s)
  }

  lemma {:induction false} DecimalRoundTrip(n: nat)
    ensures ParseDigits(Decimal(n)) == n
    decreases n
  {
    if n >= 10 {
      var prefix := Decimal(n / 10);
      var r := prefix + [DigitChar(n % 10)];
      assert r[..|r| - 1] == prefix;
      DecimalRoundTrip(n / 10);
    }
  }

  /** Reading a "D2" rendering back gives the number that was formatted. */
  lemma FormatD2RoundTrip(n: int)
    ensures IsIntText(FormatD2(n)) && ParseInt(FormatD2(n)) == n
  {
    var m := if n < 0 then -n else n;
    var d := Decimal(m);
    DecimalRoundTrip(m);
    var p := PadTwo(d);
    if |d| < 2 {
      assert p[..1] == "0" && p[1..] == d;
      assert ParseDigits(p) == ParseDigits(p[..1]) * 10 + DigitValue(p[1]);
      assert ParseDigits(p[..1]) == ParseDigits(p[..0]) * 10 + DigitValue(p[0]);
    }
    assert ParseDigits(p) == m;
    if n < 0 {
      assert FormatD2(n)[1..] == p;
    }
  }

  /** Distinct track numbers always get distinct "D2" renderings. */
  lemma FormatD2Injective(a: int, b: int)
    requires FormatD2(a) == FormatD2(b)
    ensures a == b
  {
    FormatD2RoundTrip(a);
    FormatD2RoundTrip(b);
  }

  /** Lower-casing twice is lower-casing once. */
  lemma ToLowerInvariantIdempotent(s: string)
    ensures ToLowerInvariant(ToLowerInvariant(s)) == ToLowerInvariant(s)
  {
  }
}
