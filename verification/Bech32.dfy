/** The Bech32 and Bech32m checksum (BIP-173 section "Checksum", BIP-350 section "Bech32m"):
    a recurrence over 30-bit states that is linear over exclusive-or. */
module Bech32 {
  import opened Bitwise

  const LOW25: nat := 0x2000000   // 2^25
  const STATES: nat := 0x40000000 // 2^30

  datatype Spec = Bech32 | Bech32m

  function Target(spec: Spec): (t: nat)
    ensures t < STATES
  {
    match spec
    case Bech32 => 1
    case Bech32m => 0x2BC830A3
  }

  ghost predicate AreSymbols(values: seq<nat>) {
    forall i :: 0 <= i < |values| ==> values[i] < 32
  }

  function Generator(i: nat): (g: nat)
    ensures g < STATES
  {
    if i == 0 then 0x3B6A57B2 else if i == 1 then 0x26508E6D else if i == 2 then 0x1EA119FA
    else if i == 3 then 0x3D4233DD else 0x2A1462B3
  }

  function Bit(top: nat, i: nat): bool {
    if i == 0 then top % 2 == 1 else Bit(top / 2, i - 1)
  }

  /** The exclusive-or of the generators selected by the lowest n bits of the symbol shifted out. */
  function Feedback(top: nat, n: nat): nat {
    if n == 0 then 0 else Xor(Feedback(top, n - 1), if Bit(top, n - 1) then Generator(n - 1) else 0)
  }

  function Step(chk: nat, v: nat): nat {
    Xor(Xor(chk % LOW25 * 32, v), Feedback(chk / LOW25, 5))
  }

  function PolymodFrom(chk: nat, values: seq<nat>): nat {
    if values == [] then chk
    else Step(PolymodFrom(chk, values[..|values| - 1]), values[|values| - 1])
  }

  function Polymod(values: seq<nat>): nat { PolymodFrom(1, values) }

  method PolymodLoop(values: seq<nat>) returns (chk: nat)
    ensures chk == Polymod(values)
  {
    chk := 1;
    for k := 0 to |values|
      invariant chk == Polymod(values[..k])
    {
      assert values[..k + 1][..k] == values[..k];
      var top := chk / LOW25;
      chk := Xor(chk % LOW25 * 32, values[k]);
      ghost var shifted := chk;
      XorZero(shifted);
      for i := 0 to 5
        invariant chk == Xor(shifted, Feedback(top, i))
      {
        var g := if Bit(top, i) then Generator(i) else 0;
        XorAssociates(shifted, Feedback(top, i), g);
        chk := Xor(chk, g);
      }
    }
    assert values[..|values|] == values;
  }

  // ---- one step of the recurrence ----

  lemma StepParts(chk: nat, v: nat, top: nat, low: nat)
    requires low < LOW25 && chk == LOW25 * top + low
    ensures Step(chk, v) == Xor(Xor(low * 32, v), Feedback(top, 5))
  {
    assert chk / LOW25 == top && chk % LOW25 == low;
  }

  lemma {:induction false} FeedbackBound(top: nat, n: nat)
    ensures Feedback(top, n) < STATES
  {
    if n > 0 {
      FeedbackBound(top, n - 1);
      ShlTwentyFive(1);
      XorBound(Feedback(top, n - 1), if Bit(top, n - 1) then Generator(n - 1) else 0, 30);
    }
  }

  /** The state never leaves 30 bits. */
  lemma StepBound(chk: nat, v: nat)
    requires v < 32
    ensures Step(chk, v) < STATES
  {
    ShlTwentyFive(1);
    FeedbackBound(chk / LOW25, 5);
    XorBound(chk % LOW25 * 32, v, 30);
    XorBound(Xor(chk % LOW25 * 32, v), Feedback(chk / LOW25, 5), 30);
  }

  lemma {:induction false} BitLinear(s: nat, t: nat, i: nat)
    ensures Bit(Xor(s, t), i) == (Bit(s, i) != Bit(t, i))
  {
    XorHalves(s, t);
    if i > 0 { BitLinear(s / 2, t / 2, i - 1); }
  }

  lemma {:induction false} FeedbackLinear(s: nat, t: nat, n: nat)
    ensures Feedback(Xor(s, t), n) == Xor(Feedback(s, n), Feedback(t, n))
  {
    XorZero(0);
    if n > 0 {
      var i := n - 1;
      var p := if Bit(s, i) then Generator(i) else 0;
      var q := if Bit(t, i) then Generator(i) else 0;
      FeedbackLinear(s, t, i);
      BitLinear(s, t, i);
      XorSelf(Generator(i));
      XorZero(Generator(i));
      XorInterchange(Feedback(s, i), Feedback(t, i), p, q);
    }
  }

  /** The step is linear over exclusive-or. */
  lemma StepLinear(a: nat, b: nat, u: nat, v: nat)
    ensures Step(Xor(a, b), Xor(u, v)) == Xor(Step(a, u), Step(b, v))
  {
    var s, t, l, m := a / LOW25, b / LOW25, a % LOW25, b % LOW25;
    ShlTwentyFive(1);
    ShlTwentyFive(s);
    ShlTwentyFive(t);
    ShlTwentyFive(Xor(s, t));
    XorSplits(s, l, t, m, 25);
    StepParts(Xor(a, b), Xor(u, v), Xor(s, t), Xor(l, m));
    FeedbackLinear(s, t, 5);
    XorTimes32(l, m);
    XorInterchange(l * 32, m * 32, u, v);
    XorInterchange(Xor(l * 32, u), Xor(m * 32, v), Feedback(s, 5), Feedback(t, 5));
  }

  lemma XorTimes32(l: nat, m: nat)
    ensures Xor(l * 32, m * 32) == Xor(l, m) * 32
  {
    ShlFive(l);
    ShlFive(m);
    ShlFive(Xor(l, m));
    ShlFive(1);
    XorZero(0);
    XorSplits(l, 0, m, 0, 5);
  }

  lemma {:induction false} ZeroHasNoBit(j: nat)
    ensures !Bit(0, j)
  {
    if j > 0 { ZeroHasNoBit(j - 1); }
  }

  /** Whether an odd number of the first n generators is selected and has bit j. */
  function Parity(top: nat, n: nat, j: nat): bool {
    n > 0 && Parity(top, n - 1, j) != (Bit(top, n - 1) && Bit(Generator(n - 1), j))
  }

  lemma {:induction false} FeedbackParity(top: nat, n: nat, j: nat)
    ensures Bit(Feedback(top, n), j) == Parity(top, n, j)
  {
    ZeroHasNoBit(j);
    if n > 0 {
      FeedbackParity(top, n - 1, j);
      BitLinear(Feedback(top, n - 1), if Bit(top, n - 1) then Generator(n - 1) else 0, j);
    }
  }

  /** One row of the system of equations the low bits of the feedback form. */
  lemma ParityRow(top: nat, j: nat, b: seq<bool>, g: seq<bool>)
    requires |b| == 5 && forall i :: 0 <= i < 5 ==> b[i] == Bit(top, i)
    requires |g| == 5 && forall i :: 0 <= i < 5 ==> g[i] == Bit(Generator(i), j)
    ensures Bit(Feedback(top, 5), j) ==
            (((((b[0] && g[0]) != (b[1] && g[1])) != (b[2] && g[2])) != (b[3] && g[3])) != (b[4] && g[4]))
  {
    FeedbackParity(top, 5, j);
    var p3 := Parity(top, 3, j);
    assert p3 == (((b[0] && g[0]) != (b[1] && g[1])) != (b[2] && g[2])) by {
      assert Parity(top, 1, j) == (b[0] && g[0]);
      assert Parity(top, 2, j) == (Parity(top, 1, j) != (b[1] && g[1]));
    }
    assert Parity(top, 4, j) == (p3 != (b[3] && g[3]));
  }

  lemma LowBits(g: nat, b0: bool, b1: bool, b2: bool, b3: bool, b4: bool)
    requires b0 == (g % 2 == 1) && b1 == (g / 2 % 2 == 1) && b2 == (g / 4 % 2 == 1)
    requires b3 == (g / 8 % 2 == 1) && b4 == (g / 16 % 2 == 1)
    ensures Bit(g, 0) == b0 && Bit(g, 1) == b1 && Bit(g, 2) == b2 && Bit(g, 3) == b3 && Bit(g, 4) == b4
  {
    assert Bit(g / 2, 0) == b1;
    assert Bit(g / 4, 0) == b2 && Bit(g / 2, 1) == b2;
    assert Bit(g / 8, 0) == b3 && Bit(g / 4, 1) == b3 && Bit(g / 2, 2) == b3;
    assert Bit(g / 16, 0) == b4 && Bit(g / 8, 1) == b4 && Bit(g / 4, 2) == b4 && Bit(g / 2, 3) == b4;
  }

  /** Bits 0 to 4 of the generators, one row a bit. */
  lemma GeneratorLowBits(i: nat)
    requires i < 5
    ensures Bit(Generator(i), 0) == [false, true, false, true, true][i]
    ensures Bit(Generator(i), 1) == [true, false, true, false, true][i]
    ensures Bit(Generator(i), 2) == [false, true, false, true, false][i]
    ensures Bit(Generator(i), 3) == [false, true, true, true, false][i]
    ensures Bit(Generator(i), 4) == [true, false, true, true, true][i]
  {
    var g := Generator(i);
    LowBits(g, g % 2 == 1, g / 2 % 2 == 1, g / 4 % 2 == 1, g / 8 % 2 == 1, g / 16 % 2 == 1);
  }

  /** Bit j of a zero feedback: the symbol's bits select an even number of generators with that bit. */
  lemma ZeroRow(top: nat, j: nat, b: seq<bool>, g: seq<bool>)
    requires j < 5 && Feedback(top, 5) % 32 == 0
    requires |b| == 5 && forall i :: 0 <= i < 5 ==> b[i] == Bit(top, i)
    requires |g| == 5 && forall i :: 0 <= i < 5 ==> g[i] == Bit(Generator(i), j)
    ensures ((((b[0] && g[0]) != (b[1] && g[1])) != (b[2] && g[2])) != (b[3] && g[3])) == (b[4] && g[4])
  {
    ParityRow(top, j, b, g);
    NoLowBit(Feedback(top, 5), j);
  }

  lemma NoLowBit(f: nat, j: nat)
    requires f % 32 == 0 && j < 5
    ensures !Bit(f, j)
  {
    var q := f / 32;
    assert f == 32 * q;
    assert f / 2 == 16 * q && f / 4 == 8 * q && f / 8 == 4 * q && f / 16 == 2 * q;
    LowBits(f, false, false, false, false, false);
  }

  lemma GeneratorColumns()
    ensures forall i :: 0 <= i < 5 ==> [false, true, false, true, true][i] == Bit(Generator(i), 0)
    ensures forall i :: 0 <= i < 5 ==> [true, false, true, false, true][i] == Bit(Generator(i), 1)
    ensures forall i :: 0 <= i < 5 ==> [false, true, false, true, false][i] == Bit(Generator(i), 2)
    ensures forall i :: 0 <= i < 5 ==> [false, true, true, true, false][i] == Bit(Generator(i), 3)
    ensures forall i :: 0 <= i < 5 ==> [true, false, true, true, true][i] == Bit(Generator(i), 4)
  {
    forall i | 0 <= i < 5 {
      GeneratorLowBits(i);
    }
  }

  /** No non-empty selection of generators cancels in its low five bits. */
  lemma FeedbackKernel(top: nat)
    requires top < 32 && Feedback(top, 5) % 32 == 0
    ensures top == 0
  {
    var b := [Bit(top, 0), Bit(top, 1), Bit(top, 2), Bit(top, 3), Bit(top, 4)];
    GeneratorColumns();
    ZeroRow(top, 0, b, [false, true, false, true, true]);
    ZeroRow(top, 1, b, [true, false, true, false, true]);
    ZeroRow(top, 2, b, [false, true, false, true, false]);
    ZeroRow(top, 3, b, [false, true, true, true, false]);
    ZeroRow(top, 4, b, [true, false, true, true, true]);
    NoLowBits(top);
  }

  lemma NoLowBits(top: nat)
    requires top < 32 && !Bit(top, 0) && !Bit(top, 1) && !Bit(top, 2) && !Bit(top, 3) && !Bit(top, 4)
    ensures top == 0
  {
    LowBits(top, top % 2 == 1, top / 2 % 2 == 1, top / 4 % 2 == 1, top / 8 % 2 == 1, top / 16 % 2 == 1);
  }

  /** Only the zero state steps to zero; with linearity, the step is injective on states. */
  lemma StepKernel(a: nat)
    requires a < STATES && Step(a, 0) == 0
    ensures a == 0
  {
    var top, low := a / LOW25, a % LOW25;
    KernelParts(low, top);
    assert a == LOW25 * top + low;
  }

  lemma KernelParts(low: nat, top: nat)
    requires top < 32 && Xor(Xor(low * 32, 0), Feedback(top, 5)) == 0
    ensures low == 0 && top == 0
  {
    CancelsWithZero(low * 32, Feedback(top, 5));
    FeedbackKernel(top);
    FeedbackOfZero(5);
  }

  lemma CancelsWithZero(x: nat, f: nat)
    requires Xor(Xor(x, 0), f) == 0
    ensures x == f
  {
    XorZero(x);
    XorSelf(f);
    XorInjective(x, f, f);
  }

  lemma {:induction false} FeedbackOfZero(n: nat)
    ensures Feedback(0, n) == 0
  {
    if n > 0 {
      FeedbackOfZero(n - 1);
      ZeroHasNoBit(n - 1);
      XorZero(0);
    }
  }

  /** A state below 2^25 has no symbol to shift out: the step only appends v. */
  lemma StepAppends(p: nat, v: nat)
    requires p < LOW25 && v < 32
    ensures Step(p, v) == 32 * p + v
  {
    FeedbackOfZero(5);
    XorOfSymbol(p, v);
    XorZero(32 * p + v);
    assert p / LOW25 == 0 && p % LOW25 == p;
  }

  lemma XorOfSymbol(p: nat, v: nat)
    requires v < 32
    ensures Xor(p * 32, v) == 32 * p + v
  {
    ShlFive(1);
    ShlFive(p);
    ShlFive(0);
    XorZero(p);
    XorZero(v);
    XorSplits(p, 0, 0, v, 5);
  }

  // ---- whole sequences ----

  lemma PolymodAppend(chk: nat, values: seq<nat>, v: nat)
    ensures PolymodFrom(chk, values + [v]) == Step(PolymodFrom(chk, values), v)
  {
    assert (values + [v])[..|values + [v]| - 1] == values;
  }

  lemma {:induction false} PolymodConcat(chk: nat, u: seq<nat>, v: seq<nat>)
    ensures PolymodFrom(chk, u + v) == PolymodFrom(PolymodFrom(chk, u), v)
  {
    if v == [] {
      assert u + v == u;
    } else {
      var init, last := v[..|v| - 1], v[|v| - 1];
      assert v == init + [last] && u + v == (u + init) + [last];
      PolymodConcat(chk, u, init);
      PolymodAppend(chk, u + init, last);
      PolymodAppend(PolymodFrom(chk, u), init, last);
    }
  }

  lemma {:induction false} PolymodBound(chk: nat, values: seq<nat>)
    requires chk < STATES && AreSymbols(values)
    ensures PolymodFrom(chk, values) < STATES
  {
    if values != [] {
      StepBound(PolymodFrom(chk, values[..|values| - 1]), values[|values| - 1]);
    }
  }

  function XorAll(u: seq<nat>, v: seq<nat>): (d: seq<nat>)
    requires |u| == |v|
    ensures |d| == |u|
  {
    seq(|u|, i requires 0 <= i < |u| => Xor(u[i], v[i]))
  }

  function Zeros(n: nat): (z: seq<nat>)
    ensures |z| == n && AreSymbols(z)
  {
    seq(n, _ => 0)
  }

  /** The checksum of a symbol-wise exclusive-or is the exclusive-or of the checksums. */
  lemma {:induction false} PolymodLinear(a: nat, u: seq<nat>, b: nat, v: seq<nat>)
    requires |u| == |v|
    ensures PolymodFrom(Xor(a, b), XorAll(u, v)) == Xor(PolymodFrom(a, u), PolymodFrom(b, v))
  {
    if u == [] {
      assert XorAll(u, v) == [];
    } else {
      var k := |u| - 1;
      PolymodLinear(a, u[..k], b, v[..k]);
      assert u == u[..k] + [u[k]] && v == v[..k] + [v[k]];
      assert XorAll(u, v) == XorAll(u[..k], v[..k]) + [Xor(u[k], v[k])];
      PolymodAppend(Xor(a, b), XorAll(u[..k], v[..k]), Xor(u[k], v[k]));
      PolymodAppend(a, u[..k], u[k]);
      PolymodAppend(b, v[..k], v[k]);
      StepLinear(PolymodFrom(a, u[..k]), PolymodFrom(b, v[..k]), u[k], v[k]);
    }
  }

  /** A non-zero state survives any number of zero symbols. */
  lemma {:induction false} ZerosKeepNonZero(chk: nat, n: nat)
    requires 0 < chk < STATES
    ensures PolymodFrom(chk, Zeros(n)) != 0
  {
    if n > 0 {
      assert Zeros(n) == Zeros(n - 1) + [0];
      PolymodAppend(chk, Zeros(n - 1), 0);
      ZerosKeepNonZero(chk, n - 1);
      PolymodBound(chk, Zeros(n - 1));
      if Step(PolymodFrom(chk, Zeros(n - 1)), 0) == 0 { StepKernel(PolymodFrom(chk, Zeros(n - 1))); }
    }
  }

  lemma {:induction false} ZerosKeepZero(n: nat)
    ensures PolymodFrom(0, Zeros(n)) == 0
  {
    if n > 0 {
      assert Zeros(n) == Zeros(n - 1) + [0];
      PolymodAppend(0, Zeros(n - 1), 0);
      ZerosKeepZero(n - 1);
      StepAppends(0, 0);
    }
  }

  /** The number written by symbols in base 32. */
  function Packed(values: seq<nat>): nat {
    if values == [] then 0 else 32 * Packed(values[..|values| - 1]) + values[|values| - 1]
  }

  function Unpacked(x: nat, n: nat): (values: seq<nat>)
    ensures |values| == n && AreSymbols(values)
  {
    if n == 0 then [] else Unpacked(x / 32, n - 1) + [x % 32]
  }

  function Capacity(n: nat): nat {
    if n == 0 then 1 else 32 * Capacity(n - 1)
  }

  lemma CapacityOfFive()
    ensures Capacity(5) == LOW25 && Capacity(6) == STATES
  {
    assert Capacity(2) == 1024;
    assert Capacity(4) == 1048576;
  }

  lemma {:induction false} CapacityGrows(m: nat, n: nat)
    requires m <= n
    ensures 1 <= Capacity(m) <= Capacity(n)
  {
    if m < n { CapacityGrows(m, n - 1); } else if m > 0 { CapacityGrows(m - 1, m - 1); }
  }

  lemma {:induction false} UnpackedPacked(values: seq<nat>)
    requires AreSymbols(values)
    ensures Packed(values) < Capacity(|values|)
    ensures Unpacked(Packed(values), |values|) == values
  {
    if values != [] { UnpackedPacked(values[..|values| - 1]); }
  }

  lemma {:induction false} PackedUnpacked(x: nat, n: nat)
    requires x < Capacity(n)
    ensures Packed(Unpacked(x, n)) == x
  {
    if n > 0 {
      PackedUnpacked(x / 32, n - 1);
      var ws := Unpacked(x, n);
      assert ws[..n - 1] == Unpacked(x / 32, n - 1);
    }
  }

  /** From the zero state, up to six symbols are simply packed: they can never cancel. */
  lemma {:induction false} PolymodPacks(values: seq<nat>)
    requires AreSymbols(values) && |values| <= 6
    ensures PolymodFrom(0, values) == Packed(values)
  {
    if values != [] {
      var k := |values| - 1;
      PolymodPacks(values[..k]);
      UnpackedPacked(values[..k]);
      CapacityGrows(k, 5);
      CapacityOfFive();
      StepAppends(Packed(values[..k]), values[k]);
    }
  }

  /** A difference confined to a window of at most six symbols has checksum zero only if it is zero. */
  lemma WindowKernel(before: nat, window: seq<nat>, after: nat)
    requires AreSymbols(window) && |window| <= 6
    requires PolymodFrom(0, Zeros(before) + window + Zeros(after)) == 0
    ensures window == Zeros(|window|)
  {
    PolymodConcat(0, Zeros(before) + window, Zeros(after));
    PolymodConcat(0, Zeros(before), window);
    ZerosKeepZero(before);
    PolymodPacks(window);
    PolymodBound(0, window);
    if Packed(window) != 0 { ZerosKeepNonZero(Packed(window), after); }
    UnpackedPacked(window);
    UnpackedZero(|window|);
  }

  lemma Difference(u: seq<nat>, v: seq<nat>, from: nat, to: nat) returns (window: seq<nat>)
    requires AreSymbols(u) && AreSymbols(v) && |u| == |v| && from <= to <= |u|
    requires forall i :: 0 <= i < |u| && !(from <= i < to) ==> u[i] == v[i]
    ensures |window| == to - from && AreSymbols(window)
    ensures XorAll(u, v) == Zeros(from) + window + Zeros(|u| - to)
    ensures window == Zeros(to - from) ==> u == v
  {
    var d := XorAll(u, v);
    forall i | 0 <= i < |u| ensures d[i] < 32 && (d[i] == 0 <==> u[i] == v[i]) {
      SymbolXor(u[i], v[i]);
    }
    window := d[from..to];
    if window == Zeros(to - from) {
      forall i | from <= i < to ensures u[i] == v[i] {
        assert d[i] == window[i - from];
      }
    }
  }

  /** Two equally long symbol sequences that differ only inside one window of at most six
      symbols never have the same checksum, whatever their length and wherever the window. */
  lemma WindowErrorDetected(u: seq<nat>, v: seq<nat>, from: nat, to: nat)
    requires AreSymbols(u) && AreSymbols(v) && |u| == |v|
    requires from <= to <= |u| && to - from <= 6
    requires forall i :: 0 <= i < |u| && !(from <= i < to) ==> u[i] == v[i]
    requires Polymod(u) == Polymod(v)
    ensures u == v
  {
    XorSelf(1);
    XorSelf(Polymod(u));
    PolymodLinear(1, u, 1, v);
    var window := Difference(u, v, from, to);
    WindowKernel(from, window, |u| - to);
  }

  lemma SymbolXor(x: nat, y: nat)
    requires x < 32 && y < 32
    ensures Xor(x, y) < 32
    ensures Xor(x, y) == 0 <==> x == y
  {
    ShlFive(1);
    XorBound(x, y, 5);
    XorSelf(y);
    if Xor(x, y) == 0 { XorInjective(x, y, y); }
  }

  lemma {:induction false} UnpackedZero(n: nat)
    ensures Unpacked(0, n) == Zeros(n)
  {
    if n > 0 { UnpackedZero(n - 1); }
  }

  /** Six symbols that bring any data to any checksum: BIP-173's creation of a checksum. */
  function ChecksumFor(data: seq<nat>, target: nat): (c: seq<nat>)
    ensures |c| == 6 && AreSymbols(c)
  {
    Unpacked(Xor(Polymod(data + Zeros(6)), target), 6)
  }

  /** They do, and no other six symbols do. */
  lemma ChecksumUnique(data: seq<nat>, c: seq<nat>, target: nat)
    requires AreSymbols(data) && AreSymbols(c) && |c| == 6 && target < STATES
    ensures Polymod(data + c) == target <==> c == ChecksumFor(data, target)
  {
    var s := Polymod(data);
    var blank := Polymod(data + Zeros(6));
    PolymodConcat(1, data, c);
    PolymodConcat(1, data, Zeros(6));
    XorZero(s);
    assert XorAll(Zeros(6), c) == c by {
      forall i | 0 <= i < 6 ensures Xor(0, c[i]) == c[i] { XorZero(c[i]); }
    }
    PolymodLinear(s, Zeros(6), 0, c);
    PolymodPacks(c);
    assert Polymod(data + c) == Xor(blank, Packed(c));
    ShlTwentyFive(1);
    PolymodBound(1, data + Zeros(6));
    XorBound(blank, target, 30);
    CapacityOfFive();
    UnpackedPacked(c);
    PackedUnpacked(Xor(blank, target), 6);
    XorMoves(blank, Packed(c), target);
  }

  lemma XorMoves(a: nat, b: nat, t: nat)
    ensures Xor(a, b) == t <==> b == Xor(a, t)
  {
    XorAssociates(a, a, b);
    XorAssociates(a, a, t);
    XorSelf(a);
    XorZero(b);
    XorZero(t);
  }
}
