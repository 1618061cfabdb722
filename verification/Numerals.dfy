/** Decimal numerals, printed independently of how `JsonModel.Atoi` reads them. */
module Numerals {
  import opened Basics
  import opened JsonModel

  function Digit(d: nat): (ch: char)
    requires d < 10
    ensures '0' <= ch <= '9' && ch as int - '0' as int == d
  {
    "0123456789"[d]
  }

  function Printed(m: nat): string {
    if m < 10 then [Digit(m)] else Printed(m / 10) + [Digit(m % 10)]
  }

  function Zeros(k: nat): string {
    if k == 0 then "" else Zeros(k - 1) + ['0']
  }

  /** The digits of `m` after any number of zeros. */
  ghost predicate Unsigned(s: string, m: nat) {
    exists k: nat :: s == Zeros(k) + Printed(m)
  }

  /** A numeral for `n`: digits, with or without a sign in front. */
  ghost predicate Denotes(s: string, n: int) {
    || (n >= 0 && Unsigned(s, n))
    || (n >= 0 && s != "" && s[0] == '+' && Unsigned(s[1..], n))
    || (n <= 0 && s != "" && s[0] == '-' && Unsigned(s[1..], -n))
  }

  /** The usual printed form of an integer. */
  function Text(n: int): string {
    if n < 0 then "-" + Printed(-n) else Printed(n)
  }

  lemma DigitsLast(t: string, s: string, ch: char)
    requires |t| == |s| + 1 && t[..|t| - 1] == s && t[|t| - 1] == ch && '0' <= ch <= '9'
    ensures Digits(t) == if Digits(s).Some? then Some(10 * Digits(s).value + (ch as int - '0' as int)) else None
  {
  }

  lemma DigitsSnoc(s: string, ch: char)
    requires '0' <= ch <= '9'
    ensures Digits(s + [ch]) == if Digits(s).Some? then Some(10 * Digits(s).value + (ch as int - '0' as int)) else None
  {
    DigitsLast(s + [ch], s, ch);
  }

  lemma {:induction false} DigitsZeros(k: nat)
    ensures Digits(Zeros(k)) == Some(0)
  {
    if k > 0 {
      DigitsZeros(k - 1);
      DigitsSnoc(Zeros(k - 1), '0');
    }
  }

  lemma {:induction false} DigitsPrinted(z: string, m: nat)
    requires Digits(z) == Some(0)
    ensures Digits(z + Printed(m)) == Some(m)
  {
    if m < 10 {
      DigitsSnoc(z, Digit(m));
    } else {
      DigitsPrinted(z, m / 10);
      DigitsSnoc(z + Printed(m / 10), Digit(m % 10));
      assert z + Printed(m) == (z + Printed(m / 10)) + [Digit(m % 10)];
    }
  }

  lemma LastDigit(s: string) returns (front: string, d: nat)
    requires s != "" && Digits(s).Some?
    ensures d < 10 && s == front + [Digit(d)] && |front| < |s| && Digits(front).Some? && Digits(s).value == 10 * Digits(front).value + d
  {
    front, d := s[..|s| - 1], s[|s| - 1] as int - '0' as int;
    assert s == front + [s[|s| - 1]];
  }

  /** Whatever is read as digits was printed so, up to leading zeros. */
  lemma {:induction false} DigitsArePrinted(s: string) returns (k: nat)
    requires s != "" && Digits(s).Some?
    ensures s == Zeros(k) + Printed(Digits(s).value)
    decreases |s|
  {
    var front, d := LastDigit(s);
    if front == "" {
      k := 0;
    } else {
      k := DigitsArePrinted(front);
      k := OneMoreDigit(front, k, Digits(front).value, d);
    }
  }

  lemma OneMoreDigit(front: string, k: nat, m: nat, d: nat) returns (k': nat)
    requires d < 10 && front == Zeros(k) + Printed(m)
    ensures front + [Digit(d)] == Zeros(k') + Printed(10 * m + d)
  {
    if m == 0 {
      k' := k + 1;
      assert Printed(0) == ['0'];
      assert front == Zeros(k');
    } else {
      k' := k;
      PrintedSnoc(m, d);
      assert front + [Digit(d)] == Zeros(k) + (Printed(m) + [Digit(d)]);
    }
  }

  lemma PrintedSnoc(m: nat, d: nat)
    requires m > 0 && d < 10
    ensures Printed(10 * m + d) == Printed(m) + [Digit(d)]
  {
    var n := 10 * m + d;
    assert n / 10 == m && n % 10 == d;
  }

  lemma UnsignedIff(s: string, m: nat)
    ensures Unsigned(s, m) <==> s != "" && Digits(s) == Some(m)
  {
    if k: nat :| s == Zeros(k) + Printed(m) {
      DigitsZeros(k);
      DigitsPrinted(Zeros(k), m);
    }
    if s != "" && Digits(s) == Some(m) {
      var k := DigitsArePrinted(s);
    }
  }

  lemma {:induction false} DigitsFirst(s: string)
    requires s != "" && Digits(s).Some?
    ensures '0' <= s[0] <= '9'
  {
    if |s| > 1 {
      DigitsFirst(s[..|s| - 1]);
    }
  }

  /** strconv.Atoi reads exactly the numerals of 64-bit integers, and each as the integer it denotes. */
  lemma AtoiIff(s: string, n: int)
    ensures Atoi(s) == Some(n) <==> Denotes(s, n) && -9223372036854775808 <= n <= 9223372036854775807
  {
    UnsignedIff(s, Abs(n));
    if s != "" {
      UnsignedIff(s[1..], Abs(n));
      if Digits(s).Some? {
        DigitsFirst(s);
      }
    }
  }

  /** Every printed integer denotes itself, also with a plus sign in front when it has no other. */
  lemma TextDenotes(n: int)
    ensures Denotes(Text(n), n)
    ensures n >= 0 ==> Denotes("+" + Text(n), n)
  {
    var digits := Printed(if n < 0 then -n else n);
    assert Zeros(0) + digits == digits;
    assert ("-" + digits)[1..] == digits && ("+" + digits)[1..] == digits;
  }
}
