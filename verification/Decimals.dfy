/** Numbers written in decimal. */
module Decimals {
  import opened Collections

  function Decimal(n: nat): (r: string)
    ensures r != []
  {
    var digit := ['0' + (n % 10) as char];
    if n < 10 then digit else Decimal(n / 10) + digit
  }

  /** The number a string of digits stands for. */
  function Parsed(s: string): Option<nat> {
    if s == [] then Some(0)
    else
      var c, front := s[|s| - 1], Parsed(s[..|s| - 1]);
      if front.Some? && '0' <= c <= '9' then Some(front.value * 10 + (c as int - '0' as int)) else None
  }

  /** Reading what was written gives the number back. */
  lemma {:induction false} DecimalParsed(n: nat)
    ensures Parsed(Decimal(n)) == Some(n)
    decreases n
  {
    var s := Decimal(n);
    if n < 10 {
      assert s[..0] == [];
    } else {
      assert s[..|s| - 1] == Decimal(n / 10);
      DecimalParsed(n / 10);
    }
  }

  lemma DecimalInjective(a: nat, b: nat)
    requires Decimal(a) == Decimal(b)
    ensures a == b
  {
    DecimalParsed(a);
    DecimalParsed(b);
  }

  lemma {:induction false} DecimalDigits(n: nat, k: nat)
    ensures k < |Decimal(n)| ==> Decimal(n)[k] != '_'
    decreases n
  {
    if n >= 10 { DecimalDigits(n / 10, k); }
  }
}
