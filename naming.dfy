/** Python's `str` on the unit numbers that appear in node and column
    names. */
module Naming {

  function DigitChar(d: nat): (c: char)
    requires d < 10
    ensures '0' <= c <= '9'
  {
    ('0' as int + d) as char
  }

  /** `str(n)`: the decimal digits of `n`, most significant first. */
  function NatToString(n: nat): string
  {
    if n < 10 then [DigitChar(n)] else NatToString(n / 10) + [DigitChar(n % 10)]
  }

  /** The decimal string of `n` is made of digits, has one digit exactly
      below 10, and has no leading zero. */
  lemma {:induction false} NatToStringDigits(n: nat)
    ensures |NatToString(n)| >= 1
    ensures n < 10 <==> |NatToString(n)| == 1
    ensures forall i :: 0 <= i < |NatToString(n)| ==> '0' <= NatToString(n)[i] <= '9'
    ensures n >= 10 ==> NatToString(n)[0] != '0'
  {
    if n >= 10 {
      NatToStringDigits(n / 10);
      var prefix := NatToString(n / 10);
      assert NatToString(n) == prefix + [DigitChar(n % 10)];
      assert NatToString(n)[0] == prefix[0];
      if n / 10 < 10 {
        assert prefix == [DigitChar(n / 10)];
      }
    }
  }

  /** Different numbers have different decimal strings. */
  lemma {:induction false} NatToStringInjective(m: nat, n: nat)
    requires NatToString(m) == NatToString(n)
    ensures m == n
  {
    NatToStringDigits(m);
    NatToStringDigits(n);
    if m >= 10 && n >= 10 {
      var sm, sn := NatToString(m), NatToString(n);
      assert sm[..|sm| - 1] == NatToString(m / 10);
      assert sn[..|sn| - 1] == NatToString(n / 10);
      NatToStringInjective(m / 10, n / 10);
      assert DigitChar(m % 10) == sm[|sm| - 1] == sn[|sn| - 1] == DigitChar(n % 10);
    }
  }
}
