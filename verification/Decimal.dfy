/** Decimal rendering of natural numbers, as the source's f-strings produce it. */
module Decimal {

  function Digit(d: nat): (c: char)
    requires d < 10
  {
    "0123456789"[d]
  }

  predicate IsDigit(c: char) {
    '0' <= c <= '9'
  }

  function Render(n: nat): (s: string)
    ensures s != [] && forall c :: c in s ==> IsDigit(c)
  {
    if n < 10 then [Digit(n)] else Render(n / 10) + [Digit(n % 10)]
  }

  function DigitValue(c: char): (d: nat)
    requires IsDigit(c)
  {
    c as int - '0' as int
  }

  function Parse(s: string): nat
    requires forall c :: c in s ==> IsDigit(c)
  {
    if s == [] then 0
    else
      assert s[|s| - 1] in s;
      Parse(s[..|s| - 1]) * 10 + DigitValue(s[|s| - 1])
  }

  lemma {:induction false} ParseRender(n: nat)
    ensures Parse(Render(n)) == n
  {
    if n >= 10 {
      ParseRender(n / 10);
      var s := Render(n);
      assert s[..|s| - 1] == Render(n / 10);
      assert s[|s| - 1] == Digit(n % 10);
    } else {
      assert Render(n)[..0] == [];
      assert Parse([]) == 0;
    }
  }
}
