/** Decimal rendering of natural numbers, as fmt prints them. */
module Decimal {

  function Digit(d: nat): (c: char)
    requires d < 10
    ensures '0' <= c <= '9' && c as int - '0' as int == d
  {
    '0' + d as char
  }

  predicate IsDigits(s: string) {
    forall i :: 0 <= i < |s| ==> '0' <= s[i] <= '9'
  }

  function Render(n: nat): (s: string)
    ensures |s| >= 1 && IsDigits(s) && (|s| == 1 <==> n < 10)
  {
    if n < 10 then [Digit(n)] else Render(n / 10) + [Digit(n % 10)]
  }

  lemma {:induction false} RenderInjective(m: nat, n: nat)
    requires Render(m) == Render(n)
    ensures m == n
    decreases m
  {
    var s := Render(m);
    assert s[|s| - 1] as int - '0' as int == m % 10 == n % 10;
    if m >= 10 && n >= 10 {
      assert s[..|s| - 1] == Render(m / 10) && s[..|s| - 1] == Render(n / 10);
      RenderInjective(m / 10, n / 10);
    }
  }

  /** A rendered number is cut off at the first character that is not a digit. */
  lemma SplitAtNonDigit(m: nat, n: nat, a: string, b: string)
    requires a != [] && b != [] && !('0' <= a[0] <= '9') && !('0' <= b[0] <= '9')
    requires Render(m) + a == Render(n) + b
    ensures m == n && a == b
  {
    var s := Render(m) + a;
    var i, j := |Render(m)|, |Render(n)|;
    assert s[i] == a[0] && s[j] == b[0];
    assert i <= j && j <= i;
    assert Render(m) == s[..i] && Render(n) == s[..j];
    assert a == s[i..] && b == s[j..];
    RenderInjective(m, n);
  }
}
