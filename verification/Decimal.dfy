/** Decimal text of integers: how both programs print ids, and how the CLI reads turn ids back. */
module Decimal {
  import opened Wrappers

  const MIN_I64: int := -0x8000_0000_0000_0000
  const MAX_I64: int := 0x7fff_ffff_ffff_ffff

  predicate IsDigit(c: char) { '0' <= c <= '9' }

  function Digit(d: nat): (c: char)
    requires d < 10
    ensures IsDigit(c) && DigitValue(c) == d
  {
    ('0' as int + d) as char
  }

  function DigitValue(c: char): nat
    requires IsDigit(c)
  {
    c as int - '0' as int
  }

  predicate AllDigits(s: string) { forall i | 0 <= i < |s| :: IsDigit(s[i]) }

  /** The number a string of digits denotes. */
  function ValueOf(s: string): nat
    requires AllDigits(s)
  {
    if s == [] then 0 else 10 * ValueOf(s[..|s| - 1]) + DigitValue(s[|s| - 1])
  }

  function PrintNat(n: nat): (s: string)
    ensures s != [] && AllDigits(s) && ValueOf(s) == n
  {
    if n < 10 then [Digit(n)] else PrintNat(n / 10) + [Digit(n % 10)]
  }

  function Print(n: int): string {
    if n < 0 then "-" + PrintNat(-n) else PrintNat(n)
  }

  /** `str::parse::<i64>`: an optional sign, then one or more digits, within the 64-bit range. */
  function ParseI64(s: string): Option<int> {
    var signed := s != [] && (s[0] == '-' || s[0] == '+');
    var digits := if signed then s[1..] else s;
    if digits == [] || !AllDigits(digits) then None
    else
      var n: int := if s[0] == '-' then 0 - ValueOf(digits) else ValueOf(digits);
      if MIN_I64 <= n <= MAX_I64 then Some(n) else None
  }

  predicate InI64(n: int) { -0x8000_0000_0000_0000 <= n <= 0x7fff_ffff_ffff_ffff }

  /** `s` is these digits, perhaps with a sign, and denotes `n`. */
  predicate Denotes(s: string, digits: string, n: int) {
    && digits != [] && AllDigits(digits)
    && var value: int := ValueOf(digits);
       (s == digits && n == value) || (s == "+" + digits && n == value) || (s == "-" + digits && n == 0 - value)
  }

  /** Exactly the digits of a number in range, with or without a sign, are read, and as that number. */
  lemma ParsesExactly(s: string, n: int)
    ensures ParseI64(s) == Some(n) <==> InI64(n) && exists digits :: Denotes(s, digits, n)
  {
    if ParseI64(s) == Some(n) {
      var signed := s[0] == '-' || s[0] == '+';
      var digits := if signed then s[1..] else s;
      assert s == if signed then [s[0]] + digits else digits;
      assert Denotes(s, digits, n);
    }
    if digits :| Denotes(s, digits, n) {
      assert IsDigit(digits[0]);
      if s != digits {
        assert s[1..] == digits;
      }
    }
  }

  /** Reading back a printed integer gives that integer exactly when it fits 64 bits. */
  lemma ParseOfPrint(n: int)
    ensures ParseI64(Print(n)) == if MIN_I64 <= n <= MAX_I64 then Some(n) else None
  {
    var s := Print(n);
    if n < 0 {
      assert s[1..] == PrintNat(-n);
    } else {
      assert IsDigit(s[0]);
    }
  }

  /** Printing is injective over all integers. */
  lemma PrintInjective(a: int, b: int)
    requires Print(a) == Print(b)
    ensures a == b
  {
    assert (Print(a)[0] == '-') == (a < 0) && (Print(b)[0] == '-') == (b < 0);
    if a < 0 {
      assert Print(a)[1..] == PrintNat(-a) && Print(b)[1..] == PrintNat(-b);
    }
  }

  /** The same, after a fixed prefix (`req-1`, `client-7`). */
  lemma PrefixedPrintInjective(prefix: string, a: int, b: int)
    requires prefix + Print(a) == prefix + Print(b)
    ensures a == b
  {
    assert (prefix + Print(a))[|prefix|..] == Print(a);
    assert (prefix + Print(b))[|prefix|..] == Print(b);
    PrintInjective(a, b);
  }
}
