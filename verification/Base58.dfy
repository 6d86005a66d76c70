/** Base58 and Base58Check, as used for TRON and legacy Bitcoin addresses.
    The loop that decodes is proved against a base conversion; the encoder, which the
    program does not contain, is the specification it is shown to invert. */
module Base58 {
  import opened Common
  import opened Positional

  /** The alphabet without 0, I, O and l, written in its contiguous runs. */
  function Symbol(i: nat): char
    requires i < 58
  {
    if i < 9 then "123456789"[i]
    else if i < 17 then "ABCDEFGH"[i - 9]
    else if i < 22 then "JKLMN"[i - 17]
    else if i < 33 then "PQRSTUVWXYZ"[i - 22]
    else if i < 44 then "abcdefghijk"[i - 33]
    else "mnopqrstuvwxyz"[i - 44]
  }

  /** Position of a character in the alphabet, 58 for any other character. */
  function Index(c: char): nat {
    if '1' <= c <= '9' then c as int - '1' as int
    else if 'A' <= c <= 'H' then c as int - 'A' as int + 9
    else if 'J' <= c <= 'N' then c as int - 'J' as int + 17
    else if 'P' <= c <= 'Z' then c as int - 'P' as int + 22
    else if 'a' <= c <= 'k' then c as int - 'a' as int + 33
    else if 'm' <= c <= 'z' then c as int - 'm' as int + 44
    else 58
  }

  predicate InAlphabet(s: string) {
    forall i :: 0 <= i < |s| ==> Index(s[i]) < 58
  }

  lemma SymbolCode(i: nat)
    requires i < 58
    ensures Symbol(i) as int ==
            if i < 9 then '1' as int + i
            else if i < 17 then 'A' as int + (i - 9)
            else if i < 22 then 'J' as int + (i - 17)
            else if i < 33 then 'P' as int + (i - 22)
            else if i < 44 then 'a' as int + (i - 33)
            else 'm' as int + (i - 44)
  {
  }

  /** Index and Symbol undo each other, so the alphabet has no repeated character. */
  lemma SymbolIndex(c: char, i: nat)
    ensures Index(c) < 58 ==> Symbol(Index(c)) == c
    ensures i < 58 ==> Index(Symbol(i)) == i
  {
    if Index(c) < 58 { SymbolCode(Index(c)); }
    if i < 58 { SymbolCode(i); }
  }

  function Indices(s: string): (ds: seq<nat>)
    requires InAlphabet(s)
    ensures |ds| == |s| && AreDigits(ds, 58)
  {
    seq(|s|, i requires 0 <= i < |s| => Index(s[i]))
  }

  function Symbols(ds: seq<nat>): (s: string)
    requires AreDigits(ds, 58)
    ensures |s| == |ds|
  {
    seq(|ds|, i requires 0 <= i < |ds| => Symbol(ds[i]))
  }

  lemma SymbolsIndices(s: string, ds: seq<nat>)
    ensures InAlphabet(s) ==> Symbols(Indices(s)) == s
    ensures AreDigits(ds, 58) ==> InAlphabet(Symbols(ds)) && Indices(Symbols(ds)) == ds
  {
    forall c: char {
      SymbolIndex(c, 58);
    }
    forall i: nat | i < 58 {
      SymbolIndex('1', i);
    }
  }

  // ---- decoding and encoding ----

  ghost predicate IsBytes(b: seq<nat>) { AreDigits(b, 256) }

  /** What decoding means: the string is a base-58 numeral, and the bytes are the same
      numeral in base 256. The empty string and foreign characters are rejected. */
  function Decode(s: string): (r: Option<seq<nat>>)
    ensures r.Some? ==> IsBytes(r.value)
  {
    if s == "" || !InAlphabet(s) then None else Some(Recode(Indices(s), 58, 256))
  }

  function Encode(bytes: seq<nat>): string {
    Symbols(Recode(bytes, 256, 58))
  }

  function BitLength(n: nat): nat {
    if n == 0 then 0 else 1 + BitLength(n / 2)
  }

  /** Big-endian bytes of a number in a given width. */
  function ToBytes(n: nat, width: nat): seq<nat> {
    if width == 0 then [] else ToBytes(n / 256, width - 1) + [n % 256]
  }

  function LeadingOnes(s: string): nat {
    if s == "" || s[0] != '1' then 0 else 1 + LeadingOnes(s[1..])
  }

  lemma {:induction false} DivMod256(n: nat)
    ensures Quotient(n, 256) == n / 256 && Remainder(n, 256) == n % 256
  {
    if n >= 256 { DivMod256(n - 256); }
  }

  lemma BitLengthOfByteShift(n: nat)
    requires n >= 256
    ensures BitLength(n) == 8 + BitLength(n / 256)
  {
    var h := n / 16;
    assert h / 16 == n / 256;
    BitLengthOfNibbleShift(n);
    BitLengthOfNibbleShift(h);
  }

  lemma BitLengthOfNibbleShift(n: nat)
    requires n >= 16
    ensures BitLength(n) == 4 + BitLength(n / 16)
  {
    assert BitLength(n / 2) == 1 + BitLength(n / 4);
    assert BitLength(n / 4) == 1 + BitLength(n / 8);
    assert BitLength(n / 8) == 1 + BitLength(n / 16);
  }

  lemma BitLengthOfByte(n: nat)
    requires 0 < n < 256
    ensures 1 <= BitLength(n) <= 8
  {
    var h := n / 16;
    if n < 16 { BitLengthOfNibble(n); } else { BitLengthOfNibbleShift(n); BitLengthOfNibble(h); }
  }

  lemma BitLengthOfNibble(n: nat)
    requires 0 < n < 16
    ensures 1 <= BitLength(n) <= 4
  {
    assert BitLength(n / 8) <= 1;
    assert BitLength(n / 4) <= 2;
    assert BitLength(n / 2) <= 3;
  }

  /** The byte width computed from the bit length is the least one, so no zero is added. */
  lemma {:induction false} ToBytesIsShortest(n: nat)
    ensures ToBytes(n, (BitLength(n) + 7) / 8) == Digits(n, 256)
  {
    DivMod256(n);
    if 0 < n < 256 {
      BitLengthOfByte(n);
      assert ToBytes(n, 1) == ToBytes(0, 0) + [n];
      assert Digits(n, 256) == Digits(0, 256) + [n];
    } else if n >= 256 {
      BitLengthOfByteShift(n);
      ToBytesIsShortest(n / 256);
    }
  }

  lemma {:induction false} LeadingOnesAreZeros(s: string)
    requires InAlphabet(s)
    ensures LeadingOnes(s) == LeadingZeros(Indices(s))
  {
    if s != "" {
      assert Indices(s)[1..] == Indices(s[1..]);
      LeadingOnesAreZeros(s[1..]);
      assert Index(s[0]) == 0 <==> s[0] == '1' by { SymbolIndex(s[0], 0); }
    }
  }

  method DecodeLoop(s: string) returns (r: Option<seq<nat>>)
    ensures r == Decode(s)
  {
    if s == "" || !InAlphabet(s) {
      return None;
    }
    var n := 0;
    for i := 0 to |s|
      invariant n == Value(Indices(s)[..i], 58)
    {
      ghost var seen := Indices(s)[..i];
      assert Indices(s)[..i + 1] == seen + [Index(s[i])];
      ValueOfAppend(seen, Index(s[i]), 58);
      TimesIsProduct(n, 58);
      n := n * 58 + Index(s[i]);
    }
    assert Indices(s)[..|s|] == Indices(s);
    var body := if n > 0 then ToBytes(n, (BitLength(n) + 7) / 8) else [];
    ToBytesIsShortest(n);
    LeadingOnesAreZeros(s);
    r := Some(Zeros(LeadingOnes(s)) + body);
  }

  /** Decoding undoes encoding on every non-empty byte string. */
  lemma DecodeEncode(bytes: seq<nat>)
    requires IsBytes(bytes) && bytes != []
    ensures Decode(Encode(bytes)) == Some(bytes)
  {
    var ds := Recode(bytes, 256, 58);
    RecodeInverts(bytes, 256, 58);
    SymbolsIndices("", ds);
    if ds == [] { EmptyRecode(bytes, 256, 58); }
  }

  lemma EmptyRecode(ds: seq<nat>, from: nat, to: nat)
    requires from >= 2 && to >= 2 && AreDigits(ds, from) && Recode(ds, from, to) == []
    ensures ds == []
  {
    RecodeInverts(ds, from, to);
    assert Recode([], to, from) == [];
  }

  /** Encoding undoes decoding on every string that decodes: no two strings decode alike. */
  lemma EncodeDecode(s: string)
    requires Decode(s).Some?
    ensures Encode(Decode(s).value) == s && Decode(s).value != []
  {
    RecodeInverts(Indices(s), 58, 256);
    SymbolsIndices(s, []);
    if Decode(s).value == [] { EmptyRecode(Indices(s), 58, 256); }
  }

  // ---- Base58Check ----

  type Digest = seq<nat> -> seq<nat>

  function FirstFour(b: seq<nat>): seq<nat> {
    if |b| < 4 then b else b[..4]
  }

  function Checksum(payload: seq<nat>, hash: Digest): seq<nat> {
    FirstFour(hash(hash(payload)))
  }

  /** Version byte and payload of a string of the expected decoded length whose last four
      bytes are the checksum of the rest; `hash` stands for SHA-256. */
  function CheckDecode(s: string, hash: Digest, expected: nat := 25): (r: Option<seq<nat>>)
    requires expected >= 4
    ensures r.Some? ==> |r.value| == expected - 4 && IsBytes(r.value)
  {
    var raw := Decode(s);
    if raw.None? || |raw.value| != expected then None
    else
      var payload, checksum := raw.value[..expected - 4], raw.value[expected - 4..];
      if checksum == Checksum(payload, hash) then Some(payload) else None
  }

  function CheckEncode(payload: seq<nat>, hash: Digest): string {
    Encode(payload + Checksum(payload, hash))
  }

  /** Whatever the hash function, an accepted string is the encoding of what it decodes to. */
  lemma CheckEncodeDecode(s: string, hash: Digest)
    requires CheckDecode(s, hash).Some?
    ensures s == CheckEncode(CheckDecode(s, hash).value, hash)
  {
    var raw := Decode(s).value;
    assert raw == raw[..21] + raw[21..];
    EncodeDecode(s);
  }

  lemma CheckDecodeEncode(payload: seq<nat>, hash: Digest)
    requires IsBytes(payload) && |payload| == 21
    requires IsBytes(Checksum(payload, hash)) && |Checksum(payload, hash)| == 4
    ensures CheckDecode(CheckEncode(payload, hash), hash) == Some(payload)
  {
    var raw := payload + Checksum(payload, hash);
    DecodeEncode(raw);
    assert raw[..21] == payload && raw[21..] == Checksum(payload, hash);
  }

  /** Two accepted strings with one payload are the same string, for any hash function. */
  lemma CheckDecodeInjective(s: string, t: string, hash: Digest)
    requires CheckDecode(s, hash).Some? && CheckDecode(s, hash) == CheckDecode(t, hash)
    ensures s == t
  {
    CheckEncodeDecode(s, hash);
    CheckEncodeDecode(t, hash);
  }

  // ---- what the first character says about the version byte ----

  lemma {:induction false} ValueOfConcat(a: seq<nat>, b: seq<nat>, base: nat)
    ensures Value(a + b, base) == Times(Value(a, base), Pow(base, |b|)) + Value(b, base)
  {
    if b == [] {
      assert a + b == a;
      TimesIsProduct(Value(a, base), 1);
    } else {
      var init, d := b[..|b| - 1], b[|b| - 1];
      assert b == init + [d] && a + b == (a + init) + [d];
      ValueOfConcat(a, init, base);
      ValueOfAppend(init, d, base);
      ValueOfAppend(a + init, d, base);
      TimesDistributes(Times(Value(a, base), Pow(base, |init|)), Value(init, base), base);
      TimesSwap(Value(a, base), Pow(base, |init|), base);
    }
  }

  lemma {:induction false} ValueBelowPow(ds: seq<nat>, base: nat)
    requires AreDigits(ds, base)
    ensures Value(ds, base) < Pow(base, |ds|)
  {
    if ds != [] {
      var init, d := ds[..|ds| - 1], ds[|ds| - 1];
      assert ds == init + [d];
      ValueBelowPow(init, base);
      ValueOfAppend(init, d, base);
      TimesMonotone(Value(init, base) + 1, Pow(base, |init|), base);
    }
  }

  lemma {:induction false} PowOfSum(base: nat, j: nat, k: nat)
    ensures Pow(base, j + k) == Pow(base, j) * Pow(base, k)
  {
    if k == 0 {
    } else {
      PowOfSum(base, j, k - 1);
      TimesSwap(Pow(base, j), Pow(base, k - 1), base);
      TimesIsProduct(Pow(base, j), Pow(base, k - 1));
      TimesIsProduct(Pow(base, j), Pow(base, k));
    }
  }

  lemma PowProduct(base: nat, j: nat, k: nat, p: nat, q: nat)
    requires Pow(base, j) == p && Pow(base, k) == q
    ensures Pow(base, j + k) == p * q
  {
    PowOfSum(base, j, k);
  }

  // The bases are parameters below so that no recursion unfolds on literals.

  lemma Pow58To33(a: nat)
    requires a == 58
    ensures Pow(a, 33) == 15599970876632771988160814054146447252125923204784443097088
  {
    PowOfOne(a);
    PowProduct(a, 1, 1, 58, 58);
    PowProduct(a, 2, 2, 3364, 3364);
    PowProduct(a, 4, 4, 11316496, 11316496);
    PowProduct(a, 8, 8, 128063081718016, 128063081718016);
    PowProduct(a, 16, 16, 16400152899115243850138976256, 16400152899115243850138976256);
    PowProduct(a, 32, 1, 268965015114358137726910587140455987105619365599731777536, 58);
  }

  lemma Pow256To24(b: nat)
    requires b == 256
    ensures Pow(b, 24) == 6277101735386680763835789423207666416102355444464034512896
  {
    PowOfOne(b);
    PowProduct(b, 1, 1, 256, 256);
    PowProduct(b, 2, 1, 65536, 256);
    PowProduct(b, 3, 3, 16777216, 16777216);
    PowProduct(b, 6, 6, 281474976710656, 281474976710656);
    PowProduct(b, 12, 12, 79228162514264337593543950336, 79228162514264337593543950336);
  }

  lemma PowOfOne(a: nat)
    ensures Pow(a, 1) == a
  {
    TimesIsProduct(1, a);
  }

  /** A 25-byte number whose top byte is 0x41 or 0x05 has 34 base-58 digits. */
  lemma VersionNumber(n: nat, v: nat, a: nat, b: nat)
    requires a == 58 && b == 256
    requires v == 0x41 || v == 0x05
    requires Times(v, Pow(b, 24)) <= n < Times(v + 1, Pow(b, 24))
    ensures |Digits(n, a)| == 34 && Digits(n, a)[0] == if v == 0x41 then 26 else 2
  {
    var d := if v == 0x41 then 26 else 2;
    Pow58To33(a);
    Pow256To24(b);
    TimesIsProduct(v, Pow(b, 24));
    TimesIsProduct(v + 1, Pow(b, 24));
    TimesIsProduct(d, Pow(a, 33));
    TimesIsProduct(d + 1, Pow(a, 33));
    LeadingDigit(n, a, d, 33);
  }

  lemma ValueOfVersioned(raw: seq<nat>, base: nat)
    requires raw != [] && AreDigits(raw, base)
    ensures Times(raw[0], Pow(base, |raw| - 1)) <= Value(raw, base)
    ensures Value(raw, base) < Times(raw[0] + 1, Pow(base, |raw| - 1))
  {
    var v, rest := raw[0], raw[1..];
    assert raw == [v] + rest && [v] == [] + [v];
    ValueOfConcat([v], rest, base);
    ValueOfAppend([], v, base);
    ValueBelowPow(rest, base);
  }

  lemma VersionedNumeral(raw: seq<nat>, a: nat, b: nat)
    requires a == 58 && b == 256
    requires AreDigits(raw, b) && |raw| == 25 && (raw[0] == 0x41 || raw[0] == 0x05)
    ensures |Recode(raw, b, a)| == 34 && Recode(raw, b, a)[0] == if raw[0] == 0x41 then 26 else 2
  {
    ValueOfVersioned(raw, b);
    VersionNumber(Value(raw, b), raw[0], a, b);
    RecodeWithoutZeros(raw, b, a);
  }

  lemma RecodeWithoutZeros(ds: seq<nat>, from: nat, to: nat)
    requires to >= 2 && ds != [] && ds[0] != 0
    ensures Recode(ds, from, to) == Digits(Value(ds, from), to)
  {
    assert Zeros(0) == [];
  }

  /** 25 bytes starting with 0x41 are always written with 34 characters, the first being T;
      starting with 0x05 with 34 characters, the first being 3; starting with 0x00, with 1. */
  lemma VersionFixesFirstCharacter(raw: seq<nat>)
    requires IsBytes(raw) && |raw| == 25
    ensures raw[0] == 0x41 ==> |Encode(raw)| == 34 && Encode(raw)[0] == 'T'
    ensures raw[0] == 0x05 ==> |Encode(raw)| == 34 && Encode(raw)[0] == '3'
    ensures raw[0] == 0x00 ==> |Encode(raw)| >= 1 && Encode(raw)[0] == '1'
  {
    if raw[0] == 0x41 || raw[0] == 0x05 {
      VersionedNumeral(raw, 58, 256);
    }
  }
}
