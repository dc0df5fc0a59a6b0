/**
 * Positional numerals over the alphabet 0-9, a-f: how JavaScript renders an
 * integer-valued number in a template literal (base 10) and with
 * `toString(16)` (base 16, lowercase, no padding), and how such a numeral is
 * read back.
 */
module Numerals {

  /** A radix that the alphabet 0-9, a-f can spell. */
  type Base = b: nat | 2 <= b <= 16 witness 10

  /** The character of digit `d`: lowercase letters above nine. */
  function DigitChar(d: nat): (c: char)
    requires d < 16
    ensures DigitValue(c) == d
  {
    if d < 10 then ('0' as int + d) as char else ('a' as int + d - 10) as char
  }

  /** The value of a digit character, or 16 for any other character. */
  function DigitValue(c: char): nat
  {
    if '0' <= c <= '9' then c as int - '0' as int
    else if 'a' <= c <= 'f' then c as int - 'a' as int + 10
    else 16
  }

  predicate IsDigit(c: char, base: Base)
  {
    DigitValue(c) < base
  }

  predicate AllDigits(s: string, base: Base)
  {
    forall i :: 0 <= i < |s| ==> IsDigit(s[i], base)
  }

  /** The shortest numeral of `n`: most significant digit first, no padding. */
  function Digits(n: nat, base: Base): (s: string)
    ensures 1 <= |s| && AllDigits(s, base)
    decreases n
  {
    if n < base then [DigitChar(n)] else Digits(n / base, base) + [DigitChar(n % base)]
  }

  /** The number a numeral denotes, most significant digit first. */
  function Value(s: string, base: Base): nat
    requires AllDigits(s, base)
    decreases |s|
  {
    if s == [] then 0 else Value(s[..|s| - 1], base) * base + DigitValue(s[|s| - 1])
  }

  /** Appending a digit shifts the value up one place. */
  lemma {:induction false} ValueSnoc(s: string, c: char, base: Base)
    requires AllDigits(s, base) && IsDigit(c, base)
    ensures AllDigits(s + [c], base)
    ensures Value(s + [c], base) == Value(s, base) * base + DigitValue(c)
  {
    assert (s + [c])[..|s|] == s;
  }

  /** A single digit reads back as itself. */
  lemma ValueOfDigit(n: nat, base: Base)
    requires n < base
    ensures Value(Digits(n, base), base) == n
  {
    var s := Digits(n, base);
    assert s == [DigitChar(n)];
    assert s[..0] == [];
    assert Value(s, base) == Value([], base) * base + DigitValue(s[0]);
  }

  /** One digit more: if the leading digits read back, so does the whole numeral. */
  lemma {:induction false} ValueOfDigitsStep(n: nat, base: Base)
    requires n >= base
    requires Value(Digits(n / base, base), base) == n / base
    ensures Value(Digits(n, base), base) == n
  {
    var q, r := n / base, n % base;
    assert Digits(n, base) == Digits(q, base) + [DigitChar(r)];
    ValueSnoc(Digits(q, base), DigitChar(r), base);
    DivMod(n, base);
  }

  lemma DivMod(n: nat, base: Base)
    ensures (n / base) * base + n % base == n
  {
  }

  /** Reading a rendered numeral gives the number back. */
  lemma {:induction false} ValueOfDigits(n: nat, base: Base)
    ensures Value(Digits(n, base), base) == n
  {
    if n < base {
      ValueOfDigit(n, base);
    } else {
      ValueOfDigits(n / base, base);
      ValueOfDigitsStep(n, base);
    }
  }

  /** A rendered numeral starts with '0' only when it is the numeral of zero. */
  lemma {:induction false} DigitsNoLeadingZero(n: nat, base: Base)
    ensures Digits(n, base)[0] == '0' <==> n == 0
  {
    if n >= base {
      DigitsNoLeadingZero(n / base, base);
    }
  }

  /** The length of the longest prefix of `s` made of digits. */
  function Span(s: string, base: Base): (k: nat)
    ensures k <= |s| && AllDigits(s[..k], base)
    ensures k < |s| ==> !IsDigit(s[k], base)
    decreases |s|
  {
    if s == [] || !IsDigit(s[0], base) then 0
    else
      var k := 1 + Span(s[1..], base);
      assert forall i :: 1 <= i < k ==> s[..k][i] == s[1..][..k - 1][i - 1];
      k
  }

  /** The digit run of a numeral ends where the numeral ends. */
  lemma {:induction false} SpanStops(a: string, rest: string, base: Base)
    requires AllDigits(a, base)
    requires rest == [] || !IsDigit(rest[0], base)
    ensures Span(a + rest, base) == |a|
  {
    if a != [] {
      assert (a + rest)[1..] == a[1..] + rest;
      SpanStops(a[1..], rest, base);
    }
  }

  /** An integer as a JavaScript template literal renders it. */
  function Decimal(n: int): (s: string)
    ensures |s| >= 1 && (s[0] == '-' <==> n < 0)
  {
    if n < 0 then "-" + Digits(-n, 10) else Digits(n, 10)
  }

  /** `n.toString(16)` for a non-negative integer: lowercase hex digits, no leading zero, reading back as n. */
  function Hex(n: nat): (s: string)
    ensures AllDigits(s, 16) && Value(s, 16) == n
    ensures |s| >= 1 && (s[0] == '0' <==> n == 0)
  {
    ValueOfDigits(n, 16);
    DigitsNoLeadingZero(n, 16);
    Digits(n, 16)
  }

  /** A byte renders as one lowercase hex digit below 16 and two from 16 on, never padded. */
  lemma HexOfByte(n: nat)
    requires n < 256
    ensures AllDigits(Hex(n), 16) && Value(Hex(n), 16) == n
    ensures |Hex(n)| == if n < 16 then 1 else 2
    ensures Hex(n)[0] == '0' ==> n == 0
  {
    ValueOfDigits(n, 16);
    DigitsNoLeadingZero(n, 16);
    if n >= 16 {
      assert Digits(n / 16, 16) == [DigitChar(n / 16)];
    }
  }
}
