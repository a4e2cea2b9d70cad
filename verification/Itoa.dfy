/** `itoa` of the runbook retriever, on 64-bit integers: negation wraps at the minimum. */
module Itoa {

  const MIN: int := -0x8000_0000_0000_0000
  const MAX: int := 0x7FFF_FFFF_FFFF_FFFF

  predicate Is64(n: int) { MIN <= n <= MAX }

  /** -n as the machine computes it. */
  function Negated(n: int): int {
    if n == MIN then MIN else -n
  }

  function Digit(d: nat): char
    requires d < 10
  {
    '0' + d as char
  }

  function Digits(n: nat): string {
    if n == 0 then "" else Digits(n / 10) + [Digit(n % 10)]
  }

  function Decimal(n: int): string {
    if n == 0 then "0" else if n < 0 then "-" + Digits(-n) else Digits(n)
  }

  function Pow10(e: nat): nat {
    if e == 0 then 1 else 10 * Pow10(e - 1)
  }

  lemma {:induction false} MachineRange()
    ensures MAX < Pow10(19)
  {
    assert Pow10(5) == 100000;
    assert Pow10(10) == 10000000000;
    assert Pow10(15) == 1000000000000000;
  }

  /** With n still to be written in front of s, the digits of start come out, and below index i - 1
      there is room for them. */
  predicate Spells(start: int, n: int, i: int, s: string) {
    && 1 <= i && n < Pow10(i - 1)
    && if start <= 0 then n == start && s == "" else n >= 0 && Digits(start) == Digits(n) + s
  }

  lemma DigitStep(start: int, n: int, i: int, s: string)
    requires n > 0 && Spells(start, n, i, s)
    ensures i > 1 && Spells(start, n / 10, i - 1, [Digit(n % 10)] + s)
  {
    assert Pow10(i - 1) == 10 * Pow10(i - 2);
    assert Digits(n / 10) + ([Digit(n % 10)] + s) == Digits(n) + s;
  }

  method PutDigit(buf: array<char>, i: nat, d: nat)
    requires i < buf.Length && d < 10
    modifies buf
    ensures buf[i..] == [Digit(d)] + old(buf[i + 1..])
  {
    buf[i] := Digit(d);
  }

  /** One turn of the loop. */
  method NextDigit(ghost start: int, n: int, buf: array<char>, i: nat) returns (rest: int, j: nat)
    requires n > 0 && i <= buf.Length && Spells(start, n, i, buf[i..])
    modifies buf
    ensures j < i && Spells(start, rest, j, buf[j..]) && rest < n
  {
    DigitStep(start, n, i, buf[i..]);
    j := i - 1;
    PutDigit(buf, j, n % 10);
    rest := n / 10;
  }

  /** Writes the digits of start leftwards from the end; the write index stays above 0, which leaves
      room for a sign. */
  method WriteDigits(start: int, buf: array<char>) returns (i: nat)
    requires buf.Length > 0 && start < Pow10(buf.Length - 1)
    modifies buf
    ensures 1 <= i <= buf.Length && buf[i..] == if start > 0 then Digits(start) else ""
  {
    var n := start;
    i := buf.Length;
    assert buf[i..] == "";
    while n > 0
      invariant i <= buf.Length && Spells(start, n, i, buf[i..])
      decreases n
    {
      n, i := NextDigit(start, n, buf, i);
    }
    assert start > 0 ==> Digits(n) == "";
  }

  /** The decimal numeral, except for the minimum, which comes out as a lone minus sign. */
  method ToText(input: int) returns (s: string)
    requires Is64(input)
    ensures s == if input == MIN then "-" else Decimal(input)
  {
    if input == 0 {
      return "0";
    }
    var n := input;
    var neg := n < 0;
    if neg {
      n := Negated(n);
    }
    var buf := new char[20](_ => '\0');
    MachineRange();
    var i := WriteDigits(n, buf);
    if neg {
      ghost var written := buf[i..];
      i := i - 1;
      buf[i] := '-';
      assert buf[i..] == "-" + written;
    }
    s := buf[i..];
  }

  // ---------------------------------------------------------------------------------------
  // Reading it back
  // ---------------------------------------------------------------------------------------

  predicate AllDigits(s: string) {
    forall i :: 0 <= i < |s| ==> '0' <= s[i] <= '9'
  }

  function DigitValue(c: char): nat
    requires '0' <= c <= '9'
  {
    c as nat - '0' as nat
  }

  lemma DigitBack(d: nat)
    requires d < 10
    ensures '0' <= Digit(d) <= '9' && DigitValue(Digit(d)) == d && (Digit(d) == '0' ==> d == 0)
  {
  }

  function Value(s: string): nat
    requires AllDigits(s)
  {
    if s == "" then 0 else 10 * Value(s[..|s| - 1]) + DigitValue(s[|s| - 1])
  }

  /** A canonical decimal numeral: an optional minus sign before digits without a leading zero. */
  predicate Canonical(s: string) {
    s == "0" || (s != "" && AllDigits(s) && s[0] != '0')
    || (|s| > 1 && s[0] == '-' && AllDigits(s[1..]) && s[1] != '0')
  }

  function Parsed(s: string): int
    requires Canonical(s)
  {
    if s[0] == '-' then 0 - Value(s[1..]) else Value(s)
  }

  lemma ValueSnoc(s: string, c: char)
    requires AllDigits(s) && '0' <= c <= '9'
    ensures AllDigits(s + [c]) && Value(s + [c]) == 10 * Value(s) + DigitValue(c)
  {
    assert (s + [c])[..|s|] == s;
  }

  lemma {:induction false} DigitsValue(n: nat)
    ensures AllDigits(Digits(n)) && Value(Digits(n)) == n
    ensures n > 0 ==> Digits(n) != "" && Digits(n)[0] != '0'
  {
    if n == 0 {
    } else {
      var q, d := n / 10, n % 10;
      assert n == 10 * q + d;
      DigitsValue(q);
      DigitBack(d);
      ValueSnoc(Digits(q), Digit(d));
      assert Digits(n) == Digits(q) + [Digit(d)];
    }
  }

  lemma SignedRoundTrip(s: string)
    requires s != "" && AllDigits(s) && s[0] != '0'
    ensures Canonical(s) && Parsed(s) == Value(s)
    ensures Canonical("-" + s) && Parsed("-" + s) == 0 - Value(s)
  {
    assert ("-" + s)[1..] == s;
  }

  /** Parsing what `itoa` prints gives the number back, for every number but the minimum. */
  lemma DecimalRoundTrip(n: int)
    ensures Canonical(Decimal(n)) && Parsed(Decimal(n)) == n
  {
    if n == 0 {
      assert "0"[..0] == "" && Value("0") == 0;
    } else {
      var m: nat := if n < 0 then -n else n;
      DigitsValue(m);
      SignedRoundTrip(Digits(m));
    }
  }

  /** So the output reads back as the input if and only if the input is not the minimum. */
  lemma RoundTripIff(n: int, s: string)
    requires Is64(n) && s == if n == MIN then "-" else Decimal(n)
    ensures Canonical(s) && Parsed(s) == n <==> n != MIN
  {
    if n != MIN {
      DecimalRoundTrip(n);
    } else {
      assert s[0] == '-' && !AllDigits(s);
    }
  }
}
