/**
 * Digit strings of non-negative integers, as Ruby's Integer#to_s(base) prints
 * them (most significant digit first, lower-case letters, no padding), and
 * the value such a string denotes.
 */
module Numerals {

  type Base = b: nat | 2 <= b <= 16 witness 10

  /** The value of a digit character in either case; 16 for any other character. */
  function CharValue(c: char): (v: nat)
    ensures v <= 16
  {
    if '0' <= c <= '9' then c as int - '0' as int
    else if 'a' <= c <= 'f' then c as int - 'a' as int + 10
    else if 'A' <= c <= 'F' then c as int - 'A' as int + 10
    else 16
  }

  /** The lower-case digit character of `d`. */
  function DigitChar(d: nat): (c: char)
    requires d < 16
    ensures CharValue(c) == d
  {
    if d < 10 then ('0' as int + d) as char else ('a' as int + d - 10) as char
  }

  predicate IsDigits(s: string, base: Base)
  {
    forall i :: 0 <= i < |s| ==> CharValue(s[i]) < base
  }

  /** Euclidean division by a base, in the form the proofs below use it. */
  lemma DivMod(n: nat, base: Base)
    ensures n == (n / base) * base + n % base && n % base < base
    ensures n >= base ==> 1 <= n / base < n
  {
  }

  /** Integer#to_s(base): the digits of `n` without leading zeros. */
  function Digits(n: nat, base: Base): (s: string)
    ensures |s| >= 1
    decreases n
  {
    if n < base then [DigitChar(n)]
    else
      DivMod(n, base);
      Digits(n / base, base) + [DigitChar(n % base)]
  }

  /** The number a digit string denotes, read most significant digit first. */
  function Value(s: string, base: Base): nat
    decreases |s|
  {
    if s == [] then 0 else Value(s[..|s| - 1], base) * base + CharValue(s[|s| - 1])
  }

  /** Every character Integer#to_s(base) prints is a digit of the base. */
  lemma {:induction false} DigitsAreDigits(n: nat, base: Base)
    ensures IsDigits(Digits(n, base), base)
    decreases n
  {
    if n >= base {
      DivMod(n, base);
      DigitsAreDigits(n / base, base);
    }
  }

  /** Only zero is printed with a leading '0'. */
  lemma {:induction false} DigitsNoLeadingZero(n: nat, base: Base)
    ensures Digits(n, base)[0] == '0' ==> n == 0
    decreases n
  {
    if n >= base {
      DivMod(n, base);
      DigitsNoLeadingZero(n / base, base);
    }
  }

  /** `x` shifted left by `k` digits of the base, that is x * base^k. */
  function Scale(x: nat, k: nat, base: Base): nat
  {
    if k == 0 then x else Scale(x, k - 1, base) * base
  }

  /** Reading back the digits of `n` gives `n`. */
  lemma {:induction false} DigitsRoundTrip(n: nat, base: Base)
    ensures Value(Digits(n, base), base) == n
    decreases n
  {
    if n >= base {
      var s := Digits(n, base);
      DivMod(n, base);
      assert s[..|s| - 1] == Digits(n / base, base);
      DigitsRoundTrip(n / base, base);
    }
  }

  /** Different numbers have different digit strings. */
  lemma DigitsInjective(m: nat, n: nat, base: Base)
    requires Digits(m, base) == Digits(n, base)
    ensures m == n
  {
    DigitsRoundTrip(m, base);
    DigitsRoundTrip(n, base);
  }

  /** A one-digit string exactly for the numbers below the base, two digits up to its square. */
  lemma DigitsLength(n: nat, base: Base)
    ensures |Digits(n, base)| == 1 <==> n < base
    ensures base <= n < base * base ==> |Digits(n, base)| == 2
  {
    if base <= n < base * base {
      DivMod(n, base);
      assert n / base < base by {
        if n / base >= base {
          MulMonotone(n / base, base, base);
        }
      }
    }
  }

  lemma MulMonotone(x: nat, y: nat, k: nat)
    requires x >= y
    ensures x * k >= y * k
  {
  }

  lemma Distribute(x: nat, y: nat, base: nat)
    ensures (x + y) * base == x * base + y * base
  {
  }

  /** Reading a concatenation: the left part is shifted by the length of the right part. */
  lemma {:induction false} ValueAppend(a: string, b: string, base: Base)
    ensures Value(a + b, base) == Scale(Value(a, base), |b|, base) + Value(b, base)
    decreases |b|
  {
    if b == [] {
      assert a + b == a;
    } else {
      var b' := b[..|b| - 1];
      assert (a + b)[..|a + b| - 1] == a + b';
      ValueAppend(a, b', base);
      Distribute(Scale(Value(a, base), |b'|, base), Value(b', base), base);
    }
  }
}
