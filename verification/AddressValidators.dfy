/** Local validation of TRON and Bitcoin mainnet addresses: Base58Check for TRON and for
    legacy Bitcoin, Bech32 and Bech32m for segwit. */
module AddressValidators {
  import opened Common
  import Base58
  import B = Bech32
  import Bitwise
  import ConvertBits

  datatype Label = P2PKH | P2SH | SegwitV0 | Taproot | SegwitV(version: nat)

  // ---- text ----

  function LowerChar(c: char): char {
    if 'A' <= c <= 'Z' then (c as int + 32) as char else c
  }

  function UpperChar(c: char): char {
    if 'a' <= c <= 'z' then (c as int - 32) as char else c
  }

  function Lower(s: string): (r: string)
    ensures |r| == |s| && forall i :: 0 <= i < |s| ==> r[i] == LowerChar(s[i])
  {
    seq(|s|, i requires 0 <= i < |s| => LowerChar(s[i]))
  }

  function Upper(s: string): (r: string)
    ensures |r| == |s| && forall i :: 0 <= i < |s| ==> r[i] == UpperChar(s[i])
  {
    seq(|s|, i requires 0 <= i < |s| => UpperChar(s[i]))
  }

  predicate Printable(s: string) {
    forall i :: 0 <= i < |s| ==> 33 <= s[i] as int <= 126
  }

  predicate SingleCase(s: string) { Lower(s) == s || Upper(s) == s }

  /** Position of the last `1`, or -1. */
  function LastOne(s: string): (pos: int)
    ensures -1 <= pos < |s|
    ensures pos >= 0 ==> s[pos] == '1'
    ensures forall i :: pos < i < |s| ==> s[i] != '1'
  {
    if s == "" then -1 else if s[|s| - 1] == '1' then |s| - 1 else LastOne(s[..|s| - 1])
  }

  // ---- the Bech32 alphabet ----

  const CHARSET := "qpzry9x8gf2tvdw0s3jn54khce6mua7l"

  function IndexIn(c: char, s: string): (i: nat)
    ensures i <= |s| && (i < |s| ==> s[i] == c)
    ensures forall j :: 0 <= j < i ==> s[j] != c
  {
    if s == "" || s[0] == c then 0 else 1 + IndexIn(c, s[1..])
  }

  predicate InCharset(s: string) {
    forall i :: 0 <= i < |s| ==> IndexIn(s[i], CHARSET) < 32
  }

  lemma CharsetDistinct(i: nat, j: nat)
    requires i < j < 32
    ensures |CHARSET| == 32 && CHARSET[i] != CHARSET[j]
  {
  }

  /** The alphabet has lower-case letters and digits only, and not the digit 1. */
  lemma CharsetPlain(i: nat)
    requires i < 32
    ensures |CHARSET| == 32
    ensures CHARSET[i] != '1' && LowerChar(CHARSET[i]) == CHARSET[i] && 33 <= CHARSET[i] as int <= 126
  {
  }

  function WordsOf(s: string): (ws: seq<nat>)
    requires InCharset(s)
    ensures |ws| == |s| && B.AreSymbols(ws)
  {
    seq(|s|, i requires 0 <= i < |s| => IndexIn(s[i], CHARSET))
  }

  function CharsOf(ws: seq<nat>): (s: string)
    requires B.AreSymbols(ws)
    ensures |s| == |ws|
  {
    seq(|ws|, i requires 0 <= i < |ws| => CHARSET[ws[i]])
  }

  lemma WordsOfChars(ws: seq<nat>)
    requires B.AreSymbols(ws)
    ensures InCharset(CharsOf(ws)) && WordsOf(CharsOf(ws)) == ws
  {
    forall i | 0 <= i < |ws| ensures IndexIn(CharsOf(ws)[i], CHARSET) == ws[i] {
      var found := IndexIn(CHARSET[ws[i]], CHARSET);
      if found < ws[i] { CharsetDistinct(found, ws[i]); }
    }
  }

  lemma CharsOfWords(s: string)
    requires InCharset(s)
    ensures CharsOf(WordsOf(s)) == s
  {
  }

  // ---- Bech32 text ----

  datatype Raw = Raw(hrp: string, data: seq<nat>, spec: B.Spec)

  function HrpExpand(hrp: string): (ws: seq<nat>)
    ensures |ws| == 2 * |hrp| + 1
    ensures Printable(hrp) ==> B.AreSymbols(ws)
  {
    seq(|hrp|, i requires 0 <= i < |hrp| => hrp[i] as int / 32) + [0]
    + seq(|hrp|, i requires 0 <= i < |hrp| => hrp[i] as int % 32)
  }

  function VerifyChecksum(hrp: string, data: seq<nat>): Option<B.Spec> {
    var checksum := B.Polymod(HrpExpand(hrp) + data);
    if checksum == B.Target(B.Bech32) then Some(B.Bech32)
    else if checksum == B.Target(B.Bech32m) then Some(B.Bech32m)
    else None
  }

  function DecodeRaw(bech: string): (r: Option<Raw>)
    ensures r.Some? ==> B.AreSymbols(r.value.data)
  {
    if !Printable(bech) then None
    else if !SingleCase(bech) then None
    else DecodeAt(Lower(bech), LastOne(Lower(bech)))
  }

  /** Decoding a text in lower case whose last `1` stands at `pos`. */
  function DecodeAt(b: string, pos: int): (r: Option<Raw>)
    ensures r.Some? ==> B.AreSymbols(r.value.data)
  {
    if pos < 1 || pos + 7 > |b| || |b| > 90 then None
    else if !InCharset(b[pos + 1..]) then None
    else
      var hrp, data := b[..pos], WordsOf(b[pos + 1..]);
      match VerifyChecksum(hrp, data)
      case None => None
      case Some(spec) => Some(Raw(hrp, data[..|data| - 6], spec))
  }

  /** The text BIP-173 assigns to a human-readable part and data. */
  function EncodeRaw(raw: Raw): string
    requires B.AreSymbols(raw.data)
  {
    raw.hrp + "1" + CharsOf(raw.data + B.ChecksumFor(HrpExpand(raw.hrp) + raw.data, B.Target(raw.spec)))
  }

  ghost predicate Encodable(raw: Raw) {
    B.AreSymbols(raw.data) && raw.hrp != "" && Printable(raw.hrp) && Lower(raw.hrp) == raw.hrp
    && |raw.hrp| + 1 + |raw.data| + 6 <= 90
  }

  /** Two data parts under one prefix that differ only inside a window of at most six symbols
      are never both valid for the same checksum. */
  lemma ChecksumDetectsWindow(hrp: string, u: seq<nat>, v: seq<nat>, from: nat, to: nat)
    requires Printable(hrp) && B.AreSymbols(u) && B.AreSymbols(v) && |u| == |v|
    requires from <= to <= |u| && to - from <= 6
    requires forall i :: 0 <= i < |u| && !(from <= i < to) ==> u[i] == v[i]
    requires VerifyChecksum(hrp, u).Some? && VerifyChecksum(hrp, u) == VerifyChecksum(hrp, v)
    ensures u == v
  {
    var h := HrpExpand(hrp);
    B.WindowErrorDetected(h + u, h + v, |h| + from, |h| + to);
    assert u == (h + u)[|h|..] && v == (h + v)[|h|..];
  }

  /** The checksum that verifies is the one that the encoder writes. */
  lemma VerifyExactly(hrp: string, data: seq<nat>, c: seq<nat>, spec: B.Spec)
    requires Printable(hrp) && B.AreSymbols(data) && B.AreSymbols(c) && |c| == 6
    ensures VerifyChecksum(hrp, data + c) == Some(spec)
            <==> c == B.ChecksumFor(HrpExpand(hrp) + data, B.Target(spec))
  {
    assert HrpExpand(hrp) + (data + c) == (HrpExpand(hrp) + data) + c;
    B.ChecksumUnique(HrpExpand(hrp) + data, c, B.Target(spec));
  }

  lemma LowerProps(s: string)
    ensures Printable(s) <==> Printable(Lower(s))
    ensures Lower(Lower(s)) == Lower(s)
  {
    assert forall i :: 0 <= i < |s| ==> Lower(s)[i] == LowerChar(s[i]);
  }

  lemma LowerOfPrefix(s: string, k: nat)
    requires k <= |s| && Lower(s) == s
    ensures Lower(s[..k]) == s[..k]
  {
    assert forall i :: 0 <= i < k ==> s[..k][i] == Lower(s)[i];
  }

  lemma SplitAtOne(b: string, pos: nat)
    requires pos < |b| && b[pos] == '1'
    ensures b == b[..pos] + "1" + b[pos + 1..]
  {
  }

  /** The parts a text was split into, the last six words being the checksum. */
  lemma PartsDecoded(b: string, pos: int)
    requires DecodeAt(b, pos).Some?
    ensures 1 <= pos && pos + 7 <= |b| <= 90 && InCharset(b[pos + 1..])
    ensures var raw, words := DecodeAt(b, pos).value, WordsOf(b[pos + 1..]);
            && raw.hrp == b[..pos] && words == raw.data + words[|words| - 6..]
            && VerifyChecksum(raw.hrp, words) == Some(raw.spec)
  {
  }

  lemma PrefixIsProper(b: string, pos: nat)
    requires 1 <= pos <= |b| && Printable(b) && Lower(b) == b
    ensures b[..pos] != "" && Printable(b[..pos]) && Lower(b[..pos]) == b[..pos]
  {
    LowerOfPrefix(b, pos);
  }

  lemma EncodesBack(b: string, pos: int)
    requires DecodeAt(b, pos).Some? && Printable(b) && Lower(b) == b && 0 <= pos < |b| && b[pos] == '1'
    ensures Encodable(DecodeAt(b, pos).value) && b == EncodeRaw(DecodeAt(b, pos).value)
  {
    var raw := DecodeAt(b, pos).value;
    PartsDecoded(b, pos);
    PrefixIsProper(b, pos);
    var words := WordsOf(b[pos + 1..]);
    VerifyExactly(raw.hrp, raw.data, words[|words| - 6..], raw.spec);
    CharsOfWords(b[pos + 1..]);
    SplitAtOne(b, pos);
  }

  /** A text decodes only if it is, in one case, the encoding of what it decodes to. */
  lemma DecodedIsEncoding(a: string)
    requires DecodeRaw(a).Some?
    ensures Encodable(DecodeRaw(a).value) && SingleCase(a)
    ensures Lower(a) == EncodeRaw(DecodeRaw(a).value)
  {
    LowerProps(a);
    EncodesBack(Lower(a), LastOne(Lower(a)));
  }

  lemma {:induction false} LastOneAppend(s: string, tail: string)
    requires forall i :: 0 <= i < |tail| ==> tail[i] != '1'
    ensures LastOne(s + tail) == LastOne(s)
    decreases |tail|
  {
    if tail == [] {
      assert s + tail == s;
    } else {
      var n := |tail| - 1;
      LastOneAppend(s, tail[..n]);
      assert (s + tail)[..|s| + n] == s + tail[..n];
    }
  }

  lemma LastOneOfEncoding(hrp: string, tail: string)
    requires forall i :: 0 <= i < |tail| ==> tail[i] != '1'
    ensures LastOne(hrp + "1" + tail) == |hrp|
  {
    var s := hrp + "1";
    assert s[|hrp|] == '1';
    LastOneAppend(s, tail);
  }

  lemma CharsOfPlain(ws: seq<nat>)
    requires B.AreSymbols(ws)
    ensures Printable(CharsOf(ws)) && Lower(CharsOf(ws)) == CharsOf(ws)
    ensures forall i :: 0 <= i < |ws| ==> CharsOf(ws)[i] != '1'
  {
    forall i | 0 <= i < |ws| { CharsetPlain(ws[i]); }
  }

  lemma SplitOfEncoding(hrp: string, tail: string)
    ensures var b := hrp + "1" + tail; b[..|hrp|] == hrp && b[|hrp| + 1..] == tail
  {
  }

  /** What decoding does with a text whose parts are known. */
  lemma DecodesTo(a: string, hrp: string, tail: string, data: seq<nat>, c: seq<nat>, spec: B.Spec)
    requires Printable(a) && SingleCase(a) && LastOne(Lower(a)) == |hrp| && hrp != ""
    requires |hrp| + 7 <= |Lower(a)| <= 90 && Lower(a)[..|hrp|] == hrp && Lower(a)[|hrp| + 1..] == tail
    requires InCharset(tail) && |c| == 6 && B.AreSymbols(data + c) && WordsOf(tail) == data + c
    requires VerifyChecksum(hrp, data + c) == Some(spec)
    ensures DecodeRaw(a) == Some(Raw(hrp, data, spec))
  {
    DecodesAt(Lower(a), |hrp|, data + c, spec);
    assert (data + c)[..|data + c| - 6] == data;
  }

  lemma DecodesAt(b: string, pos: nat, words: seq<nat>, spec: B.Spec)
    requires 1 <= pos && pos + 7 <= |b| <= 90 && InCharset(b[pos + 1..]) && words == WordsOf(b[pos + 1..])
    requires VerifyChecksum(b[..pos], words) == Some(spec)
    ensures DecodeAt(b, pos) == Some(Raw(b[..pos], words[..|words| - 6], spec))
  {
  }

  /** Every encoding decodes, in lower or in upper case, to what was encoded. */
  lemma EncodingDecodes(raw: Raw, a: string)
    requires Encodable(raw) && SingleCase(a) && Lower(a) == EncodeRaw(raw)
    ensures DecodeRaw(a) == Some(raw)
  {
    var c := B.ChecksumFor(HrpExpand(raw.hrp) + raw.data, B.Target(raw.spec));
    var words := raw.data + c;
    var tail := CharsOf(words);
    CharsOfPlain(words);
    LastOneOfEncoding(raw.hrp, tail);
    SplitOfEncoding(raw.hrp, tail);
    EncodingIsPrintable(raw.hrp, tail);
    LowerProps(a);
    WordsOfChars(words);
    VerifyExactly(raw.hrp, raw.data, c, raw.spec);
    DecodesTo(a, raw.hrp, tail, raw.data, c, raw.spec);
  }

  lemma EncodingIsPrintable(hrp: string, tail: string)
    requires Printable(hrp) && Printable(tail)
    ensures Printable(hrp + "1" + tail)
  {
  }

  // ---- segwit addresses ----

  datatype Witness = Witness(version: nat, program: seq<nat>, kind: Label)

  /** The segwit validator, with the witness it decodes on the way. */
  function DecodeSegwit(address: string): Option<Witness> {
    match DecodeRaw(address)
    case None => None
    case Some(raw) => WitnessOf(raw)
  }

  /** The tests made on a decoded text, in order. */
  function WitnessOf(raw: Raw): Option<Witness> {
    if raw.hrp != "bc" || raw.data == [] then None
    else
      var witver := raw.data[0];
      if witver > 16 then None
      else
        match ConvertBits.Regroup(raw.data[1..], 5, 8, false)
        case None => None
        case Some(program) =>
          if !(2 <= |program| <= 40) then None
          else if witver == 0 then
            if raw.spec != B.Bech32 || (|program| != 20 && |program| != 32) then None
            else Some(Witness(witver, program, SegwitV0))
          else if raw.spec != B.Bech32m then None
          else if witver == 1 && |program| == 32 then Some(Witness(witver, program, Taproot))
          else Some(Witness(witver, program, SegwitV(witver)))
  }

  /** The witnesses BIP-173 and BIP-350 give an address to. */
  ghost predicate Standard(version: nat, program: seq<nat>) {
    version <= 16 && Base58.IsBytes(program) && 2 <= |program| <= 40
    && (version == 0 ==> |program| == 20 || |program| == 32)
  }

  function SpecOf(version: nat): B.Spec {
    if version == 0 then B.Bech32 else B.Bech32m
  }

  function LabelOf(version: nat, size: nat): Label {
    if version == 0 then SegwitV0 else if version == 1 && size == 32 then Taproot else SegwitV(version)
  }

  lemma Widths()
    ensures Bitwise.Shl(1, 5) == 32 && Bitwise.Shl(1, 8) == 256
  {
    Bitwise.ShlFive(1);
    Bitwise.ShlOfSum(1, 5, 3);
  }

  /** The data part of a segwit address: version symbol, then the program in 5-bit symbols. */
  function SegwitData(version: nat, program: seq<nat>): Option<seq<nat>> {
    match ConvertBits.Regroup(program, 8, 5, true)
    case None => None
    case Some(words) => Some([version] + words)
  }

  lemma SegwitDataIsSymbols(version: nat, program: seq<nat>)
    requires version < 32 && Base58.IsBytes(program)
    ensures SegwitData(version, program).Some? && B.AreSymbols(SegwitData(version, program).value)
    ensures ConvertBits.Regroup(SegwitData(version, program).value[1..], 5, 8, false) == Some(program)
  {
    Widths();
    ConvertBits.PadThenUnpad(program, 8, 5);
    var data := SegwitData(version, program).value;
    assert data[1..] == ConvertBits.Regroup(program, 8, 5, true).value;
  }

  /** The one address text of a standard witness. */
  function SegwitText(version: nat, program: seq<nat>): string
    requires version < 32 && Base58.IsBytes(program)
  {
    SegwitDataIsSymbols(version, program);
    EncodeRaw(Raw("bc", SegwitData(version, program).value, SpecOf(version)))
  }

  lemma {:induction false} WordCount(bits: seq<bool>, width: nat)
    requires width == 5
    ensures 5 * |ConvertBits.Words(bits, width)| <= |bits|
  {
    if |bits| >= width { WordCount(bits[width..], width); }
  }

  lemma {:induction false} StreamLength(data: seq<nat>, width: nat)
    requires width == 8
    ensures |ConvertBits.Stream(data, width)| == 8 * |data|
  {
    if data != [] { StreamLength(data[..|data| - 1], width); }
  }

  lemma SegwitDataShort(version: nat, program: seq<nat>)
    requires version < 32 && Base58.IsBytes(program) && |program| <= 40
    ensures SegwitData(version, program).Some? && |SegwitData(version, program).value| <= 66
  {
    SegwitDataIsSymbols(version, program);
    StreamLength(program, 8);
    WordCount(ConvertBits.Stream(program, 8), 5);
  }

  lemma SegwitDataUnique(data: seq<nat>, program: seq<nat>)
    requires data != [] && ConvertBits.Regroup(data[1..], 5, 8, false) == Some(program)
    ensures Base58.IsBytes(program) && SegwitData(data[0], program) == Some(data)
  {
    var rest := data[1..];
    assert data == [data[0]] + rest;
    Widths();
    ConvertBits.UnpadThenPad(rest, 5, 8);
  }

  /** A decoded text carries exactly the standard witness whose text it is. */
  lemma WitnessExact(raw: Raw, version: nat, program: seq<nat>)
    ensures WitnessOf(raw) == Some(Witness(version, program, LabelOf(version, |program|)))
            <==> Standard(version, program) && raw.hrp == "bc" && raw.spec == SpecOf(version)
                 && SegwitData(version, program) == Some(raw.data)
  {
    if raw.data != [] && ConvertBits.Regroup(raw.data[1..], 5, 8, false) == Some(program) {
      SegwitDataUnique(raw.data, program);
    }
    if Standard(version, program) {
      SegwitDataIsSymbols(version, program);
    }
  }

  lemma WitnessLabel(raw: Raw)
    requires WitnessOf(raw).Some?
    ensures var w := WitnessOf(raw).value; w.kind == LabelOf(w.version, |w.program|)
  {
  }

  /** Canonicity: whatever the validator accepts is, in a single case, the one text of the
      witness it decodes to, and that witness is standard. */
  lemma SegwitCanonical(a: string)
    requires DecodeSegwit(a).Some?
    ensures var w := DecodeSegwit(a).value;
            Standard(w.version, w.program) && SingleCase(a)
            && Lower(a) == SegwitText(w.version, w.program)
            && w.kind == LabelOf(w.version, |w.program|)
  {
    var raw, w := DecodeRaw(a).value, DecodeSegwit(a).value;
    DecodedIsEncoding(a);
    WitnessLabel(raw);
    WitnessExact(raw, w.version, w.program);
    assert raw == Raw("bc", SegwitData(w.version, w.program).value, SpecOf(w.version));
  }

  /** Completeness: the text of every standard witness is accepted, in either case. */
  lemma SegwitComplete(a: string, version: nat, program: seq<nat>)
    requires Standard(version, program) && SingleCase(a) && Lower(a) == SegwitText(version, program)
    ensures DecodeSegwit(a) == Some(Witness(version, program, LabelOf(version, |program|)))
  {
    SegwitDataIsSymbols(version, program);
    SegwitDataShort(version, program);
    var raw := Raw("bc", SegwitData(version, program).value, SpecOf(version));
    assert Lower("bc") == "bc";
    EncodingDecodes(raw, a);
    WitnessExact(raw, version, program);
  }

  /** Two accepted addresses of one witness are the same text up to case. */
  lemma SegwitInjective(a: string, b: string)
    requires DecodeSegwit(a).Some? && DecodeSegwit(b).Some?
    requires DecodeSegwit(a).value.version == DecodeSegwit(b).value.version
    requires DecodeSegwit(a).value.program == DecodeSegwit(b).value.program
    ensures Lower(a) == Lower(b)
  {
    SegwitCanonical(a);
    SegwitCanonical(b);
  }

  // ---- Base58 addresses and the dispatch on the first characters ----

  function ValidateTrc20(address: string, sha256: Base58.Digest): bool {
    if address == "" || address[0] != 'T' then false
    else
      match Base58.CheckDecode(address, sha256)
      case None => false
      case Some(payload) => payload[0] == 0x41
  }

  function ValidateBtcBase58(address: string, sha256: Base58.Digest): Option<Label> {
    match Base58.CheckDecode(address, sha256)
    case None => None
    case Some(payload) =>
      if payload[0] == 0x00 then Some(P2PKH) else if payload[0] == 0x05 then Some(P2SH) else None
  }

  function ValidateBtcSegwit(address: string): Option<Label> {
    match DecodeSegwit(address)
    case None => None
    case Some(w) => Some(w.kind)
  }

  function ValidateBtc(address: string, sha256: Base58.Digest): Option<Label> {
    if address == "" then None
    else if address[0] == '1' || address[0] == '3' then ValidateBtcBase58(address, sha256)
    else if "bc1" <= Lower(address) || "tb1" <= Lower(address) then ValidateBtcSegwit(address)
    else None
  }

  lemma PayloadVersion(address: string, sha256: Base58.Digest)
    requires Base58.CheckDecode(address, sha256).Some?
    ensures var version := Base58.CheckDecode(address, sha256).value[0];
            && address != ""
            && (version == 0x41 ==> |address| == 34 && address[0] == 'T')
            && (version == 0x05 ==> |address| == 34 && address[0] == '3')
            && (version == 0x00 ==> address[0] == '1')
  {
    var raw := Base58.Decode(address).value;
    Base58.EncodeDecode(address);
    Base58.VersionFixesFirstCharacter(raw);
    assert raw[..21][0] == raw[0];
  }

  /** The test for a leading T rejects nothing that the version byte would accept, and every
      accepted TRON address has 34 characters. */
  lemma Trc20PrefixIsRedundant(address: string, sha256: Base58.Digest)
    ensures ValidateTrc20(address, sha256)
            <==> Base58.CheckDecode(address, sha256).Some?
                 && Base58.CheckDecode(address, sha256).value[0] == 0x41
    ensures ValidateTrc20(address, sha256) ==> |address| == 34
  {
    if Base58.CheckDecode(address, sha256).Some? { PayloadVersion(address, sha256); }
  }

  /** A segwit address starts with `bc1` in lower case. */
  lemma SegwitPrefix(address: string)
    requires DecodeSegwit(address).Some?
    ensures "bc1" <= Lower(address) && address[0] != '1' && address[0] != '3'
  {
    SegwitCanonical(address);
    var b := Lower(address);
    assert b[0] == 'b' && b[1] == 'c' && b[2] == '1';
    assert LowerChar(address[0]) == 'b';
  }

  /** The dispatch on the first characters never hides an address from the validator that
      would accept it, so accepted means accepted by one of the two; no address whose lower
      case starts with `tb1` (testnet) is ever accepted. */
  lemma BtcDispatchIsComplete(address: string, sha256: Base58.Digest)
    ensures ValidateBtc(address, sha256).Some?
            <==> ValidateBtcBase58(address, sha256).Some? || ValidateBtcSegwit(address).Some?
    ensures "tb1" <= Lower(address) ==> ValidateBtc(address, sha256).None?
  {
    if ValidateBtcBase58(address, sha256).Some? { PayloadVersion(address, sha256); }
    if DecodeSegwit(address).Some? { SegwitPrefix(address); }
    if "tb1" <= Lower(address) {
      assert Lower(address)[0] == 't' && LowerChar(address[0]) == 't';
    }
  }
}
