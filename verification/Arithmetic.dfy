// Facts about products and quotients that the modules share.
module Arithmetic {

  function Min(a: nat, b: nat): nat {
    if a < b then a else b
  }

  // x scaled by a / b, rounded down.
  function Scaled(x: nat, a: nat, b: nat): nat
    requires b > 0
  {
    x * a / b
  }

  // A conversion to a 32-bit unsigned keeps the low bits.
  const WORD: nat := 0x1_0000_0000

  function Low(x: nat): nat {
    x % WORD
  }

  lemma Division(x: nat, d: nat)
    requires d > 0
    ensures x / d * d <= x < x / d * d + d && x == x / d * d + x % d
  {
  }

  lemma AtMost(a: int, b: int, c: int)
    requires a <= b && c >= 0
    ensures a * c <= b * c
  {
  }

  lemma ScaledAtMost(x: nat, a: nat, b: nat, k: nat)
    requires b > 0 && a <= k * b
    ensures Scaled(x, a, b) <= k * x
  {
    Division(x * a, b);
    AtMost(a, k * b, x);
    assert x * a == a * x && k * b * x == k * x * b;
    Cancel(Scaled(x, a, b), k * x, b);
  }

  lemma Cancel(a: int, b: int, c: int)
    requires c > 0
    ensures a * c <= b * c ==> a <= b
    ensures a * c < b * c ==> a < b
  {
    if a > b {
      AtMost(b + 1, a, c);
    }
  }
}
