/**
 * Decimal rendering of natural numbers, as JavaScript template literals
 * render a non-negative integer (`feature-${i}`, `rgba(${r}, ...)`).
 */
module Text {
  predicate IsDigit(c: char) { '0' <= c <= '9' }

  function DigitChar(d: nat): (c: char)
    requires d < 10
    ensures IsDigit(c)
  {
    ['0', '1', '2', '3', '4', '5', '6', '7', '8', '9'][d]
  }

  function DigitValue(c: char): (d: nat)
    requires IsDigit(c)
    ensures d < 10 && DigitChar(d) == c
  {
    (c as int - '0' as int) as nat
  }

  /** The shortest decimal numeral of `n`, without sign or leading zeros. */
  function NatToString(n: nat): (s: string)
    ensures |s| >= 1
    ensures forall i :: 0 <= i < |s| ==> IsDigit(s[i])
    decreases n
  {
    if n < 10 then [DigitChar(n)] else NatToString(n / 10) + [DigitChar(n % 10)]
  }

  /** Reads a numeral back; the inverse of NatToString. */
  function ParseDigits(s: string): nat
    requires forall i :: 0 <= i < |s| ==> IsDigit(s[i])
  {
    if s == [] then 0 else 10 * ParseDigits(s[..|s| - 1]) + DigitValue(s[|s| - 1])
  }

  lemma {:induction false} ParseNatToString(n: nat)
    ensures ParseDigits(NatToString(n)) == n
    decreases n
  {
    var s := NatToString(n);
    if n < 10 {
      assert s[..|s| - 1] == [];
    } else {
      ParseNatToString(n / 10);
      assert s[..|s| - 1] == NatToString(n / 10);
    }
  }

  /** Distinct numbers render as distinct numerals. */
  lemma NatToStringInjective(m: nat, n: nat)
    requires NatToString(m) == NatToString(n)
    ensures m == n
  {
    ParseNatToString(m);
    ParseNatToString(n);
  }

  /** `prefix + NatToString(m) == prefix + NatToString(n)` only when m == n. */
  lemma TaggedNumeralInjective(prefix: string, m: nat, n: nat)
    requires prefix + NatToString(m) == prefix + NatToString(n)
    ensures m == n
  {
    var a, b := prefix + NatToString(m), prefix + NatToString(n);
    assert NatToString(m) == a[|prefix|..];
    assert NatToString(n) == b[|prefix|..];
    NatToStringInjective(m, n);
  }
}
