/** Bitwise exclusive-or on the unbounded non-negative integers, with the shifts it commutes
    with. Everything is stated by doubling and halving. */
module Bitwise {

  function Xor(a: nat, b: nat): nat
    decreases a + b
  {
    if a == 0 && b == 0 then 0
    else 2 * Xor(a / 2, b / 2) + (if a % 2 != b % 2 then 1 else 0)
  }

  /** a shifted left by k bits. */
  function Shl(a: nat, k: nat): nat {
    if k == 0 then a else 2 * Shl(a, k - 1)
  }

  lemma {:induction false} ShlOfSum(a: nat, j: nat, k: nat)
    ensures Shl(a, j + k) == Shl(Shl(a, j), k)
  {
    if k > 0 { ShlOfSum(a, j, k - 1); }
  }

  lemma ShlFive(a: nat)
    ensures Shl(a, 5) == 32 * a
  {
    assert Shl(a, 1) == 2 * a;
    assert Shl(a, 3) == 2 * Shl(a, 2);
    assert Shl(a, 4) == 2 * Shl(a, 3);
  }

  lemma ShlTwentyFive(a: nat)
    ensures Shl(a, 25) == 0x2000000 * a
    ensures Shl(a, 30) == 0x40000000 * a
  {
    ShlFive(a);
    ShlFive(32 * a);
    ShlFive(0x400 * a);
    ShlFive(0x8000 * a);
    ShlFive(0x100000 * a);
    ShlFive(0x2000000 * a);
    ShlOfSum(a, 5, 5);
    ShlOfSum(a, 10, 5);
    ShlOfSum(a, 15, 5);
    ShlOfSum(a, 20, 5);
    ShlOfSum(a, 25, 5);
  }

  lemma {:induction false} XorZero(a: nat)
    ensures Xor(a, 0) == a && Xor(0, a) == a
  {
    if a > 0 { XorZero(a / 2); }
  }

  lemma {:induction false} XorSelf(a: nat)
    ensures Xor(a, a) == 0
  {
    if a > 0 { XorSelf(a / 2); }
  }

  lemma {:induction false} XorCommutes(a: nat, b: nat)
    ensures Xor(a, b) == Xor(b, a)
    decreases a + b
  {
    if a > 0 || b > 0 { XorCommutes(a / 2, b / 2); }
  }

  lemma XorHalves(a: nat, b: nat)
    ensures Xor(a, b) / 2 == Xor(a / 2, b / 2)
    ensures Xor(a, b) % 2 == if a % 2 != b % 2 then 1 else 0
  {
  }

  lemma {:induction false} XorAssociates(a: nat, b: nat, c: nat)
    ensures Xor(Xor(a, b), c) == Xor(a, Xor(b, c))
    decreases a + b + c
  {
    if a > 0 || b > 0 || c > 0 {
      var ab, bc := Xor(a, b), Xor(b, c);
      XorAssociates(a / 2, b / 2, c / 2);
      XorHalves(a, b);
      XorHalves(b, c);
      XorHalves(ab, c);
      XorHalves(a, bc);
    } else {
      XorZero(0);
    }
  }

  lemma XorCancels(a: nat, b: nat)
    ensures Xor(Xor(a, b), b) == a
  {
    XorAssociates(a, b, b);
    XorSelf(b);
    XorZero(a);
  }

  lemma XorInjective(a: nat, b: nat, c: nat)
    requires Xor(a, c) == Xor(b, c)
    ensures a == b
  {
    XorCancels(a, c);
    XorCancels(b, c);
  }

  /** (a ^ b) ^ (c ^ d) == (a ^ c) ^ (b ^ d) */
  lemma XorInterchange(a: nat, b: nat, c: nat, d: nat)
    ensures Xor(Xor(a, b), Xor(c, d)) == Xor(Xor(a, c), Xor(b, d))
  {
    XorAssociates(Xor(a, b), c, d);
    XorAssociates(a, b, c);
    XorCommutes(b, c);
    XorAssociates(a, c, b);
    XorAssociates(Xor(a, c), b, d);
  }

  /** High and low parts of k bits are combined separately. */
  lemma {:induction false} XorSplits(a: nat, x: nat, b: nat, y: nat, k: nat)
    requires x < Shl(1, k) && y < Shl(1, k)
    ensures Xor(Shl(a, k) + x, Shl(b, k) + y) == Shl(Xor(a, b), k) + Xor(x, y)
    ensures Xor(x, y) < Shl(1, k)
  {
    if k == 0 {
      XorZero(0);
    } else {
      XorSplits(a, x / 2, b, y / 2, k - 1);
      var u, v := Shl(a, k) + x, Shl(b, k) + y;
      assert u / 2 == Shl(a, k - 1) + x / 2 && u % 2 == x % 2;
      assert v / 2 == Shl(b, k - 1) + y / 2 && v % 2 == y % 2;
      XorHalves(u, v);
      XorHalves(x, y);
    }
  }

  lemma XorBound(x: nat, y: nat, k: nat)
    requires x < Shl(1, k) && y < Shl(1, k)
    ensures Xor(x, y) < Shl(1, k)
  {
    XorSplits(0, x, 0, y, k);
  }
}
