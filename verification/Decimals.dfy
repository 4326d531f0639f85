/** Decimal numerals, as printed by Go's `%d` and strconv.Itoa. */
module Decimals {

  predicate IsDigit(c: char) {
    '0' <= c <= '9'
  }

  predicate AllDigits(s: string) {
    forall i | 0 <= i < |s| :: IsDigit(s[i])
  }

  function DigitValue(c: char): nat
    requires IsDigit(c)
  {
    c as int - '0' as int
  }

  function DigitChar(d: nat): (c: char)
    requires d < 10
    ensures IsDigit(c) && DigitValue(c) == d
  {
    ('0' as int + d) as char
  }

  /** The number a string of digits denotes; leading zeros are allowed. */
  function Value(s: string): nat
    requires AllDigits(s)
  {
    if s == [] then 0 else 10 * Value(s[..|s| - 1]) + DigitValue(s[|s| - 1])
  }

  /** The numeral of n: it denotes n again, and it has no superfluous leading zero. */
  function Print(n: nat): (s: string)
    ensures s != [] && AllDigits(s) && Value(s) == n
    ensures n != 0 ==> s[0] != '0'
    ensures n == 0 ==> s == "0"
  {
    if n < 10 then
      var s := [DigitChar(n)];
      assert s[..0] == [];
      assert Value(s[..0]) == 0;
      s
    else
      var s := Print(n / 10) + [DigitChar(n % 10)];
      assert s[..|s| - 1] == Print(n / 10);
      s
  }

  /** A numeral is canonical when it is "0" or does not start with a zero. */
  predicate Canonical(s: string) {
    s != [] && AllDigits(s) && (|s| == 1 || s[0] != '0')
  }

  lemma {:induction false} PrintValue(s: string)
    requires Canonical(s)
    ensures Print(Value(s)) == s
    ensures |s| > 1 ==> Value(s) >= 10
  {
    var front, last := s[..|s| - 1], s[|s| - 1];
    if |s| == 1 {
      assert front == [];
      assert s == [DigitChar(DigitValue(last))];
    } else {
      assert front[0] == s[0];
      PrintValue(front);
      if |front| == 1 {
        assert front[..0] == [];
        assert Value(front) == DigitValue(front[0]) > 0;
      }
      assert Value(s) / 10 == Value(front) && Value(s) % 10 == DigitValue(last);
      assert s == front + [DigitChar(DigitValue(last))];
    }
  }

  /** Below 1000 a numeral has at most three digits. */
  lemma ShortNumeral(n: nat)
    requires n < 1000
    ensures |Print(n)| <= 3
  {
    if n >= 10 {
      assert |Print(n)| == |Print(n / 10)| + 1;
      if n >= 100 {
        assert |Print(n / 10)| == |Print(n / 10 / 10)| + 1;
        assert n / 10 / 10 < 10;
      }
    }
  }
}
