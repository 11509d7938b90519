/** Decimal printing and bounded parsing, as Go's strconv does them in base 10. */
module Decimal {
  import opened Wrappers

  const UINT64_LIMIT := 0x1_0000_0000_0000_0000
  const INT32_LIMIT := 0x8000_0000

  predicate IsDigit(c: char) {
    '0' <= c <= '9'
  }

  predicate AllDigits(s: string) {
    forall i | 0 <= i < |s| :: IsDigit(s[i])
  }

  function DigitValue(c: char): nat
    requires IsDigit(c)
  {
    c as int - '0' as int
  }

  function DigitOf(d: nat): char
    requires d < 10
  {
    ('0' as int + d) as char
  }

  function PrintNat(n: nat): string {
    if n < 10 then [DigitOf(n)] else PrintNat(n / 10) + [DigitOf(n % 10)]
  }

  /** The value of a string of digits; leading zeros do not matter. */
  function ValueOf(s: string): nat
    requires AllDigits(s)
  {
    if s == [] then 0 else ValueOf(s[..|s| - 1]) * 10 + DigitValue(s[|s| - 1])
  }

  /** `ParseUint(s, 10, bits)` for the limit 2 to the power of `bits`: no sign, no empty string, no overflow. */
  function ParseUint(s: string, limit: nat): Option<nat> {
    if s == [] || !AllDigits(s) || ValueOf(s) >= limit then None else Some(ValueOf(s))
  }

  function PrintInt(n: int): string {
    if n < 0 then ['-'] + PrintNat(-n) else PrintNat(n)
  }

  /** `ParseInt(s, 10, 32)`: an optional sign, then digits, within the range of 32 bits. */
  function ParseInt32(s: string): Option<int> {
    if s == [] then None
    else
      var negative := s[0] == '-';
      var digits := if s[0] == '-' || s[0] == '+' then s[1..] else s;
      match ParseUint(digits, 2 * INT32_LIMIT)
      case None => None
      case Some(n) =>
        var magnitude: int := n;
        var value := if negative then -magnitude else magnitude;
        if -INT32_LIMIT <= value < INT32_LIMIT then Some(value) else None
  }

  lemma {:induction false} PrintedDigits(n: nat)
    ensures PrintNat(n) != [] && AllDigits(PrintNat(n)) && ValueOf(PrintNat(n)) == n
  {
    var s := PrintNat(n);
    if n < 10 {
      assert s[..0] == [];
    } else {
      PrintedDigits(n / 10);
      assert s[..|s| - 1] == PrintNat(n / 10);
      assert DigitValue(s[|s| - 1]) == n % 10;
    }
  }

  /** Parsing undoes printing exactly for the numbers in range. */
  lemma ParseUndoesPrint(n: nat, limit: nat)
    ensures ParseUint(PrintNat(n), limit) == if n < limit then Some(n) else None
  {
    PrintedDigits(n);
  }

  function Zeros(k: nat): string {
    seq(k, i => '0')
  }

  /** What parses to a number is its print behind leading zeros, so prints are the only canonical inputs. */
  lemma {:induction false} ParsedIsPrinted(s: string) returns (zeros: nat)
    requires s != [] && AllDigits(s)
    ensures s == Zeros(zeros) + PrintNat(ValueOf(s))
    decreases |s|
  {
    var front, last := s[..|s| - 1], s[|s| - 1];
    assert s == front + [last];
    if front == [] {
      zeros := 0;
      assert s == [last] && ValueOf(s) == DigitValue(last);
    } else {
      zeros := ParsedIsPrinted(front);
      var v := ValueOf(front);
      if v == 0 {
        assert PrintNat(0) == "0" && Zeros(zeros) + "0" == Zeros(zeros + 1);
        zeros := zeros + 1;
      } else {
        PrintShifted(v, DigitValue(last));
        assert Zeros(zeros) + PrintNat(v) + [last] == Zeros(zeros) + (PrintNat(v) + [last]);
      }
    }
  }

  lemma PrintShifted(v: nat, d: nat)
    requires 0 < v && d < 10
    ensures PrintNat(v * 10 + d) == PrintNat(v) + [DigitOf(d)]
  {
    assert (v * 10 + d) / 10 == v && (v * 10 + d) % 10 == d;
  }

  lemma {:induction false} ZerosAreZero(k: nat)
    ensures AllDigits(Zeros(k)) && ValueOf(Zeros(k)) == 0
  {
    if k > 0 {
      ZerosAreZero(k - 1);
      assert Zeros(k)[..k - 1] == Zeros(k - 1);
    }
  }

  lemma {:induction false} ZerosDoNotCount(k: nat, s: string)
    requires AllDigits(s)
    ensures AllDigits(Zeros(k) + s) && ValueOf(Zeros(k) + s) == ValueOf(s)
    decreases |s|
  {
    var n := |s| - 1;
    if s == [] {
      ZerosAreZero(k);
      assert Zeros(k) + s == Zeros(k);
    } else {
      ZerosDoNotCount(k, s[..n]);
      assert (Zeros(k) + s)[..k + n] == Zeros(k) + s[..n];
    }
  }

  /** Any zeros and then the print of the number. */
  ghost predicate IsPadded(s: string, n: nat) {
    exists zeros :: s == Zeros(zeros) + PrintNat(n)
  }

  /** What parses, and to what: the print of each number below the limit behind any zeros, and nothing else. */
  lemma ParsesExactly(s: string, limit: nat, n: nat)
    ensures ParseUint(s, limit) == Some(n) <==> n < limit && IsPadded(s, n)
  {
    if ParseUint(s, limit) == Some(n) {
      var zeros := ParsedIsPrinted(s);
    }
    if zeros :| s == Zeros(zeros) + PrintNat(n) {
      PrintedDigits(n);
      ZerosDoNotCount(zeros, PrintNat(n));
    }
  }

  /** The number without its sign, behind zeros and a sign; a plus sign may be left out. */
  ghost predicate Spells(s: string, n: int) {
    || (n >= 0 && IsPadded(s, n))
    || (n >= 0 && s != "" && s[0] == '+' && IsPadded(s[1..], n))
    || (n <= 0 && s != "" && s[0] == '-' && IsPadded(s[1..], -n))
  }

  lemma PaddedIsUnsigned(s: string, n: nat)
    requires IsPadded(s, n)
    ensures s != "" && s[0] != '+' && s[0] != '-'
  {
    var zeros :| s == Zeros(zeros) + PrintNat(n);
    PrintedDigits(n);
    ZerosDoNotCount(zeros, PrintNat(n));
  }

  /** The same with a sign, within 32 bits. */
  lemma ParsesIntExactly(s: string, n: int)
    ensures ParseInt32(s) == Some(n) <==> Spells(s, n) && -INT32_LIMIT <= n < INT32_LIMIT
  {
    hide ParseUint, IsPadded;
    var m := if n < 0 then -n else n;
    if s != "" {
      ParsesExactly(s, 2 * INT32_LIMIT, m);
      ParsesExactly(s[1..], 2 * INT32_LIMIT, m);
    }
    if IsPadded(s, m) {
      PaddedIsUnsigned(s, m);
    }
  }

  lemma ParseIntUndoesPrint(n: int)
    ensures ParseInt32(PrintInt(n)) == if -INT32_LIMIT <= n < INT32_LIMIT then Some(n) else None
  {
    var m := if n < 0 then -n else n;
    PrintedDigits(m);
    ParseUndoesPrint(m, 2 * INT32_LIMIT);
    if n < 0 {
      assert PrintInt(n)[1..] == PrintNat(m);
    } else {
      assert IsDigit(PrintNat(m)[0]);
    }
  }

  lemma PrintInjective(a: nat, b: nat)
    requires PrintNat(a) == PrintNat(b)
    ensures a == b
  {
    PrintedDigits(a);
    PrintedDigits(b);
  }

  lemma PrintNotEmpty(a: nat)
    ensures PrintNat(a) != ""
  {
    PrintedDigits(a);
  }
}
