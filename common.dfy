/** Small value types shared by the rest of the model. */
module Common {

  /** `Some(v)` for a value that is present, `None` for JavaScript's `undefined`. */
  datatype Option<+T> = None | Some(value: T)

  /** A JavaScript number as the adapter uses it: either `NaN` (the "not set" sentinel of
      `expect()`) or an integer. Fractional and infinite numbers are not modelled. */
  datatype Number = NaN | Int(value: int)

  /** Decimal rendering of an integer, as a template literal prints a whole number. */
  function IntToString(n: int): (s: string)
    ensures |s| >= 1
    ensures s[0] == '-' <==> n < 0
    ensures forall i :: 0 <= i < |s| ==> s[i] == '-' || '0' <= s[i] <= '9'
  {
    if n < 0 then "-" + NatToString(-n) else NatToString(n)
  }

  function NatToString(n: nat): (s: string)
    ensures |s| >= 1
    ensures forall i :: 0 <= i < |s| ==> '0' <= s[i] <= '9'
  {
    if n < 10 then [Digit(n)] else NatToString(n / 10) + [Digit(n % 10)]
  }

  function Digit(d: nat): (c: char)
    requires d < 10
    ensures '0' <= c <= '9'
    ensures c as int - '0' as int == d
  {
    ['0', '1', '2', '3', '4', '5', '6', '7', '8', '9'][d]
  }

  /** The value of a string of decimal digits, read most significant digit first. */
  function DigitsValue(s: string): nat
    requires forall i :: 0 <= i < |s| ==> '0' <= s[i] <= '9'
  {
    if s == [] then 0 else DigitsValue(s[..|s| - 1]) * 10 + (s[|s| - 1] as int - '0' as int)
  }

  /** Reading back the decimal rendering of a natural number gives the number. */
  lemma {:induction false} NatToStringParses(n: nat)
    ensures DigitsValue(NatToString(n)) == n
  {
    if n >= 10 {
      var s := NatToString(n);
      assert s[..|s| - 1] == NatToString(n / 10);
      NatToStringParses(n / 10);
    }
  }

  /** Distinct integers have distinct renderings. */
  lemma IntToStringInjective(a: int, b: int)
    requires IntToString(a) == IntToString(b)
    ensures a == b
  {
    if a < 0 {
      IntToStringNegative(a);
      IntToStringNegative(b);
      NatsToStringInjective(-a, -b);
    } else {
      NatsToStringInjective(a, b);
    }
  }

  lemma IntToStringNegative(n: int)
    requires n < 0
    ensures IntToString(n)[1..] == NatToString(-n)
  {
  }

  lemma NatsToStringInjective(m: nat, n: nat)
    requires NatToString(m) == NatToString(n)
    ensures m == n
  {
    NatToStringParses(m);
    NatToStringParses(n);
  }
}
