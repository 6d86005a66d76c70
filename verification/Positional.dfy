/** Big-endian positional numerals in an arbitrary base, and the conversion between two
    bases that keeps leading zeros. Base58 decoding and encoding are both this conversion.

    The base is a variable, so products and quotients by it are defined here by repeated
    addition and subtraction: every proof below then stays within linear arithmetic. */
module Positional {
  import opened Common

  function Times(a: nat, b: nat): nat {
    if a == 0 then 0 else Times(a - 1, b) + b
  }

  function Quotient(n: nat, base: nat): (q: nat)
    requires base >= 1
    ensures base >= 2 && n > 0 ==> q < n
    ensures n < base <==> q == 0
    decreases n
  {
    if n < base then 0 else 1 + Quotient(n - base, base)
  }

  function Remainder(n: nat, base: nat): (r: nat)
    requires base >= 1
    ensures r < base
    ensures n < base ==> r == n
    decreases n
  {
    if n < base then n else Remainder(n - base, base)
  }

  function Pow(base: nat, exponent: nat): nat {
    if exponent == 0 then 1 else Times(Pow(base, exponent - 1), base)
  }

  ghost predicate AreDigits(ds: seq<nat>, base: nat) {
    forall i :: 0 <= i < |ds| ==> ds[i] < base
  }

  /** The number a digit sequence denotes, read left to right (Horner's rule). */
  function Value(ds: seq<nat>, base: nat): nat {
    if ds == [] then 0 else Times(Value(ds[..|ds| - 1], base), base) + ds[|ds| - 1]
  }

  /** The shortest digit sequence of a number; zero has none. */
  function Digits(n: nat, base: nat): (ds: seq<nat>)
    requires base >= 2
    ensures AreDigits(ds, base)
    ensures n == 0 <==> ds == []
    ensures n > 0 ==> ds[0] != 0
    decreases n
  {
    if n == 0 then [] else Digits(Quotient(n, base), base) + [Remainder(n, base)]
  }

  function Zeros(k: nat): (zs: seq<nat>)
    ensures |zs| == k && forall i :: 0 <= i < k ==> zs[i] == 0
  {
    seq(k, _ => 0)
  }

  function LeadingZeros(ds: seq<nat>): (k: nat)
    ensures k <= |ds|
    ensures forall i :: 0 <= i < k ==> ds[i] == 0
    ensures k < |ds| ==> ds[k] != 0
  {
    if ds == [] || ds[0] != 0 then 0 else 1 + LeadingZeros(ds[1..])
  }

  /** Rewrites a numeral from one base to another, one leading zero for each leading zero. */
  function Recode(ds: seq<nat>, from: nat, to: nat): (r: seq<nat>)
    requires to >= 2
    ensures AreDigits(r, to)
  {
    Zeros(LeadingZeros(ds)) + Digits(Value(ds, from), to)
  }

  // ---- arithmetic ----

  lemma {:induction false} TimesIsProduct(a: nat, b: nat)
    ensures Times(a, b) == a * b
  {
    if a > 0 { TimesIsProduct(a - 1, b); }
  }

  lemma {:induction false} TimesMonotone(a: nat, c: nat, b: nat)
    requires a <= c
    ensures Times(a, b) <= Times(c, b)
  {
    if a < c { TimesMonotone(a, c - 1, b); }
  }

  lemma {:induction false} TimesAtLeast(a: nat, b: nat)
    requires b >= 1
    ensures a <= Times(a, b)
  {
    if a > 0 { TimesAtLeast(a - 1, b); }
  }

  lemma {:induction false} DivMod(n: nat, base: nat)
    requires base >= 1
    ensures Times(Quotient(n, base), base) + Remainder(n, base) == n
    decreases n
  {
    if n >= base { DivMod(n - base, base); }
  }

  lemma {:induction false} DivModOfHorner(v: nat, d: nat, base: nat)
    requires d < base
    ensures Quotient(Times(v, base) + d, base) == v
    ensures Remainder(Times(v, base) + d, base) == d
  {
    if v > 0 {
      DivModOfHorner(v - 1, d, base);
      assert Times(v, base) + d - base == Times(v - 1, base) + d;
    }
  }

  lemma {:induction false} TimesSwap(a: nat, b: nat, c: nat)
    ensures Times(a, Times(b, c)) == Times(Times(a, b), c)
  {
    if a > 0 {
      TimesSwap(a - 1, b, c);
      TimesDistributes(Times(a - 1, b), b, c);
    }
  }

  lemma {:induction false} TimesDistributes(a: nat, b: nat, c: nat)
    ensures Times(a + b, c) == Times(a, c) + Times(b, c)
    decreases b
  {
    if b > 0 { TimesDistributes(a, b - 1, c); }
  }

  // ---- numerals ----

  lemma ValueOfAppend(ds: seq<nat>, d: nat, base: nat)
    ensures Value(ds + [d], base) == Times(Value(ds, base), base) + d
  {
    assert (ds + [d])[..|ds + [d]| - 1] == ds;
  }

  lemma {:induction false} ValueOfDigits(n: nat, base: nat)
    requires base >= 2
    ensures Value(Digits(n, base), base) == n
    decreases n
  {
    if n > 0 {
      var q, d := Quotient(n, base), Remainder(n, base);
      ValueOfAppend(Digits(q, base), d, base);
      ValueOfDigits(q, base);
      DivMod(n, base);
    }
  }

  lemma {:induction false} ValueOfZeros(k: nat, base: nat)
    ensures Value(Zeros(k), base) == 0
  {
    if k > 0 {
      assert Zeros(k) == Zeros(k - 1) + [0];
      ValueOfAppend(Zeros(k - 1), 0, base);
      ValueOfZeros(k - 1, base);
    }
  }

  lemma {:induction false} ValueOfPadded(k: nat, ds: seq<nat>, base: nat)
    ensures Value(Zeros(k) + ds, base) == Value(ds, base)
  {
    if ds == [] {
      assert Zeros(k) + ds == Zeros(k);
      ValueOfZeros(k, base);
    } else {
      var init, d := ds[..|ds| - 1], ds[|ds| - 1];
      ValueOfPadded(k, init, base);
      ValueOfAppend(init, d, base);
      ValueOfAppend(Zeros(k) + init, d, base);
      assert init + [d] == ds && Zeros(k) + ds == (Zeros(k) + init) + [d];
    }
  }

  lemma DigitsOfAppend(v: nat, d: nat, base: nat)
    requires base >= 2 && d < base && v + d > 0
    ensures Digits(Times(v, base) + d, base) == Digits(v, base) + [d]
  {
    DivModOfHorner(v, d, base);
    TimesAtLeast(v, base);
  }

  lemma {:induction false} LeadingZerosOfAppend(ds: seq<nat>, d: nat)
    ensures LeadingZeros(ds + [d]) ==
            if LeadingZeros(ds) == |ds| && d == 0 then |ds| + 1 else LeadingZeros(ds)
  {
    if ds != [] {
      assert (ds + [d])[1..] == ds[1..] + [d];
      LeadingZerosOfAppend(ds[1..], d);
    }
  }

  /** Every numeral is its leading zeros followed by the shortest digits of its value. */
  lemma {:induction false} Canonical(ds: seq<nat>, base: nat)
    requires base >= 2 && AreDigits(ds, base)
    ensures ds == Zeros(LeadingZeros(ds)) + Digits(Value(ds, base), base)
  {
    if ds != [] {
      Canonical(ds[..|ds| - 1], base);
      CanonicalAppend(ds[..|ds| - 1], ds[|ds| - 1], base);
      Snoc(ds);
    }
  }

  lemma CanonicalAppend(ds: seq<nat>, d: nat, base: nat)
    requires base >= 2 && AreDigits(ds, base) && d < base
    requires ds == Zeros(LeadingZeros(ds)) + Digits(Value(ds, base), base)
    ensures ds + [d] == Zeros(LeadingZeros(ds + [d])) + Digits(Value(ds + [d], base), base)
  {
    LeadingZerosOfAppend(ds, d);
    if Value(ds, base) + d > 0 {
      OneMoreDigit(ds, LeadingZeros(ds), d, base);
      assert Value(ds, base) > 0 ==> |Zeros(LeadingZeros(ds))| < |ds|;
    } else {
      OneMoreZero(ds, base);
    }
  }

  lemma OneMoreDigit(ds: seq<nat>, k: nat, d: nat, base: nat)
    requires base >= 2 && AreDigits(ds, base) && d < base && Value(ds, base) + d > 0
    requires ds == Zeros(k) + Digits(Value(ds, base), base)
    ensures ds + [d] == Zeros(k) + Digits(Value(ds + [d], base), base)
  {
    DigitsOfLonger(ds, d, base);
    Assoc(Zeros(k), Digits(Value(ds, base), base), [d]);
  }

  lemma DigitsOfLonger(ds: seq<nat>, d: nat, base: nat)
    requires base >= 2 && d < base && Value(ds, base) + d > 0
    ensures Digits(Value(ds + [d], base), base) == Digits(Value(ds, base), base) + [d]
  {
    ValueOfAppend(ds, d, base);
    DigitsOfAppend(Value(ds, base), d, base);
  }

  lemma OneMoreZero(ds: seq<nat>, base: nat)
    requires base >= 2 && Value(ds, base) == 0 && ds == Zeros(LeadingZeros(ds)) + Digits(0, base)
    ensures Value(ds + [0], base) == 0 && LeadingZeros(ds + [0]) == |ds| + 1
    ensures ds + [0] == Zeros(|ds| + 1) + Digits(0, base)
  {
    ValueOfAppend(ds, 0, base);
    LeadingZerosOfAppend(ds, 0);
    JustZeros(ds + [0], base);
  }

  lemma JustZeros(ds: seq<nat>, base: nat)
    requires base >= 2 && forall i :: 0 <= i < |ds| ==> ds[i] == 0
    ensures ds == Zeros(|ds|) + Digits(0, base)
  {
  }

  lemma {:induction false} LeadingZerosOfPadded(k: nat, ds: seq<nat>)
    requires ds == [] || ds[0] != 0
    ensures LeadingZeros(Zeros(k) + ds) == k
  {
    if k > 0 {
      assert (Zeros(k) + ds)[1..] == Zeros(k - 1) + ds;
      LeadingZerosOfPadded(k - 1, ds);
    }
  }

  /** Converting to another base and back gives the numeral that was started from. */
  lemma RecodeInverts(ds: seq<nat>, from: nat, to: nat)
    requires from >= 2 && to >= 2 && AreDigits(ds, from)
    ensures Recode(Recode(ds, from, to), to, from) == ds
  {
    var k, n := LeadingZeros(ds), Value(ds, from);
    LeadingZerosOfPadded(k, Digits(n, to));
    ValueOfPadded(k, Digits(n, to), to);
    ValueOfDigits(n, to);
    Canonical(ds, from);
  }

  /** A number between d*base^k and (d+1)*base^k, 0 < d < base, has k+1 digits, the first being d. */
  lemma {:induction false} LeadingDigit(n: nat, base: nat, d: nat, k: nat)
    requires base >= 2 && 0 < d < base
    requires Times(d, Pow(base, k)) <= n < Times(d + 1, Pow(base, k))
    ensures |Digits(n, base)| == k + 1 && Digits(n, base)[0] == d
    decreases k
  {
    if k == 0 {
      TimesIsProduct(d, 1);
      TimesIsProduct(d + 1, 1);
      assert Digits(n, base) == Digits(0, base) + [n];
    } else {
      var p := Pow(base, k - 1);
      TimesSwap(d, p, base);
      TimesSwap(d + 1, p, base);
      QuotientBetween(n, base, Times(d, p), Times(d + 1, p));
      PowPositive(base, k - 1);
      TimesAtLeast(d, p);
      LeadingDigit(Quotient(n, base), base, d, k - 1);
    }
  }

  lemma {:induction false} PowPositive(base: nat, k: nat)
    requires base >= 1
    ensures Pow(base, k) >= 1
  {
    if k > 0 {
      PowPositive(base, k - 1);
      TimesAtLeast(Pow(base, k - 1), base);
    }
  }

  lemma QuotientBetween(n: nat, base: nat, lo: nat, hi: nat)
    requires base >= 1 && Times(lo, base) <= n < Times(hi, base)
    ensures lo <= Quotient(n, base) < hi
  {
    var q := Quotient(n, base);
    DivMod(n, base);
    if q < lo { TimesMonotone(q + 1, lo, base); }
    if q >= hi { TimesMonotone(hi, q, base); }
  }
}
