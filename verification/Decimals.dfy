/** Whole numbers as the decimal texts that commands carry. */
module Decimals {
  import opened Digits
  import opened Types

  function Decimal(n: nat): (s: string)
    ensures s != ""
  {
    if n < 10 then [DigitChar(n)] else Decimal(n / 10) + [DigitChar(n % 10)]
  }

  function ValueOf(s: string): nat
    requires AllDigits(s)
  {
    if s == "" then 0 else ValueOf(s[..|s| - 1]) * 10 + (s[|s| - 1] as int - '0' as int)
  }

  function ParseDecimal(s: string): Option<nat> {
    if s != "" && AllDigits(s) then Some(ValueOf(s)) else None
  }

  lemma {:induction false} DecimalRoundTrip(n: nat)
    ensures ParseDecimal(Decimal(n)) == Some(n)
  {
    if n >= 10 {
      DecimalRoundTrip(n / 10);
      var s := Decimal(n);
      assert s[..|s| - 1] == Decimal(n / 10);
      assert forall i :: 0 <= i < |s| - 1 ==> s[i] == Decimal(n / 10)[i];
    } else {
      var s := Decimal(n);
      assert s[..0] == "" && ValueOf(s[..0]) == 0;
      assert s[0] as int - '0' as int == n;
    }
  }
}
