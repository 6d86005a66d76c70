/** Regrouping a stream of bits from words of one width into words of another, as segwit
    addresses do between 8-bit bytes and 5-bit symbols. The accumulator loop is proved against
    a specification that speaks of the stream of bits itself. */
module ConvertBits {
  import opened Common
  import opened Bitwise

  // ---- words as bits, most significant first ----

  /** The lowest `width` bits of a number. */
  function BitsOf(v: nat, width: nat): (b: seq<bool>)
    ensures |b| == width
  {
    if width == 0 then [] else BitsOf(v / 2, width - 1) + [v % 2 == 1]
  }

  function ValueOf(bits: seq<bool>): nat {
    if bits == [] then 0 else 2 * ValueOf(bits[..|bits| - 1]) + (if bits[|bits| - 1] then 1 else 0)
  }

  function Falses(n: nat): (b: seq<bool>)
    ensures |b| == n && forall i :: 0 <= i < n ==> !b[i]
  {
    seq(n, _ => false)
  }

  predicate Fit(data: seq<int>, width: nat) {
    forall i :: 0 <= i < |data| ==> 0 <= data[i] < Shl(1, width)
  }

  /** The bits of all words, one word after the other. */
  function Stream(data: seq<nat>, width: nat): seq<bool> {
    if data == [] then [] else Stream(data[..|data| - 1], width) + BitsOf(data[|data| - 1], width)
  }

  /** The complete words of a given width in a bit stream. */
  function Words(bits: seq<bool>, width: nat): (ws: seq<nat>)
    requires width >= 1
  {
    if |bits| < width then [] else [ValueOf(bits[..width])] + Words(bits[width..], width)
  }

  /** The bits after the last complete word. */
  function Rest(bits: seq<bool>, width: nat): (rest: seq<bool>)
    requires width >= 1
    ensures |rest| < width
  {
    if |bits| < width then bits else Rest(bits[width..], width)
  }

  /** What regrouping means. The words are those complete in the stream; the bits left over
      are either padded with zeros to one more word, or must be fewer than a source word and
      all zero. */
  function Regroup(data: seq<int>, from: nat, to: nat, pad: bool): Option<seq<nat>>
    requires to >= 1
  {
    if !Fit(data, from) then None
    else
      var bits := Stream(data, from);
      Outcome(Words(bits, to), Rest(bits, to), from, to, pad)
  }

  function Outcome(words: seq<nat>, rest: seq<bool>, from: nat, to: nat, pad: bool): Option<seq<nat>>
    requires |rest| < to
  {
    if pad then Some(words + LastWord(rest, to))
    else if |rest| >= from || true in rest then None
    else Some(words)
  }

  /** The bits left over, if any, padded with zeros to one more word. */
  function LastWord(rest: seq<bool>, width: nat): seq<nat>
    requires |rest| < width
  {
    if rest == [] then [] else [ValueOf(rest + Falses(width - |rest|))]
  }

  // ---- shifts and masks of the accumulator ----

  function Shr(a: nat, k: nat): nat {
    if k == 0 then a else Shr(a / 2, k - 1)
  }

  /** a masked to its k lowest bits. */
  function Low(a: nat, k: nat): nat {
    if k == 0 then 0 else 2 * Low(a / 2, k - 1) + a % 2
  }

  lemma {:induction false} BitsOfShifted(a: nat, v: nat, k: nat, j: nat)
    requires v < Shl(1, j)
    ensures BitsOf(Shl(a, j) + v, k + j) == BitsOf(a, k) + BitsOf(v, j)
  {
    if j > 0 {
      var x := Shl(a, j) + v;
      assert x / 2 == Shl(a, j - 1) + v / 2 && x % 2 == v % 2;
      BitsOfShifted(a, v / 2, k, j - 1);
    }
  }

  /** A mask of m bits keeps every one of the k <= m lowest bits. */
  lemma {:induction false} BitsOfMasked(a: nat, k: nat, m: nat)
    requires k <= m
    ensures BitsOf(Low(a, m), k) == BitsOf(a, k)
  {
    if k > 0 {
      assert Low(a, m) / 2 == Low(a / 2, m - 1) && Low(a, m) % 2 == a % 2;
      BitsOfMasked(a / 2, k - 1, m - 1);
    }
  }

  lemma {:induction false} BitsOfSplit(a: nat, j: nat, k: nat)
    ensures BitsOf(a, j + k) == BitsOf(Shr(a, k), j) + BitsOf(a, k)
  {
    if k > 0 { BitsOfSplit(a / 2, j, k - 1); }
  }

  lemma {:induction false} ValueOfBits(a: nat, k: nat)
    ensures ValueOf(BitsOf(a, k)) == Low(a, k)
  {
    if k > 0 {
      ValueOfBits(a / 2, k - 1);
      assert BitsOf(a, k)[..k - 1] == BitsOf(a / 2, k - 1);
    }
  }

  lemma {:induction false} ShlPositive(k: nat)
    ensures Shl(1, k) >= 1
  {
    if k > 0 { ShlPositive(k - 1); }
  }

  lemma {:induction false} BitsOfZero(k: nat)
    ensures BitsOf(0, k) == Falses(k)
  {
    if k > 0 { BitsOfZero(k - 1); }
  }

  /** The low bits shifted up to fill a word are those bits followed by zeros. */
  lemma LowOfShifted(a: nat, j: nat, k: nat)
    ensures Low(Shl(a, j), k + j) == ValueOf(BitsOf(a, k) + Falses(j))
  {
    ShlPositive(j);
    BitsOfShifted(a, 0, k, j);
    BitsOfZero(j);
    ValueOfBits(Shl(a, j), k + j);
  }

  // ---- reading words off a stream ----

  lemma StreamOfAppend(data: seq<nat>, v: nat, width: nat)
    ensures Stream(data + [v], width) == Stream(data, width) + BitsOf(v, width)
  {
    assert (data + [v])[..|data + [v]| - 1] == data;
  }

  lemma {:induction false} WordsOfConcat(a: seq<bool>, b: seq<bool>, width: nat)
    requires width >= 1
    ensures Words(a + b, width) == Words(a, width) + Words(Rest(a, width) + b, width)
    ensures Rest(a + b, width) == Rest(Rest(a, width) + b, width)
    decreases |a|
  {
    if |a| >= width {
      assert (a + b)[..width] == a[..width] && (a + b)[width..] == a[width..] + b;
      WordsOfConcat(a[width..], b, width);
    }
  }

  lemma WordsOfCons(word: seq<bool>, tail: seq<bool>, width: nat)
    requires width >= 1 && |word| == width
    ensures Words(word + tail, width) == [ValueOf(word)] + Words(tail, width)
    ensures Rest(word + tail, width) == Rest(tail, width)
  {
    assert (word + tail)[..width] == word && (word + tail)[width..] == tail;
  }

  lemma {:induction false} ValueOfAllFalse(b: seq<bool>)
    ensures ValueOf(b) == 0 <==> true !in b
  {
    if b != [] {
      ValueOfAllFalse(b[..|b| - 1]);
      assert b == b[..|b| - 1] + [b[|b| - 1]];
    }
  }

  /** Between two words: the words so far are those complete in the stream read, and the unread
      bits of the accumulator are the rest of it. */
  ghost predicate Tracks(acc: nat, bits: nat, ret: seq<nat>, seen: seq<nat>, from: nat, to: nat)
    requires to >= 1
  {
    ret == Words(Stream(seen, from), to) && BitsOf(acc, bits) == Rest(Stream(seen, from), to)
  }

  method ConvertBitsLoop(data: seq<int>, from: nat, to: nat, pad: bool) returns (r: Option<seq<nat>>)
    requires from >= 1 && to >= 1
    ensures r == Regroup(data, from, to, pad)
  {
    var acc: nat, bits: nat, ret := 0, 0, [];
    ghost var seen: seq<nat> := [];
    for i := 0 to |data|
      invariant seen == data[..i] && Fit(seen, from)
      invariant Tracks(acc, bits, ret, seen, from, to)
    {
      var value := data[i];
      var ok := InRange(value, from);
      if !ok {
        assert !Fit(data, from);
        return None;
      }
      acc, bits, ret := Take(acc, bits, ret, value, seen, from, to);
      seen := seen + [value];
    }
    assert seen == data;
    r := Conclude(acc, bits, ret, seen, from, to, pad);
  }

  /** Is the value a word of the given width? */
  method InRange(value: int, width: nat) returns (ok: bool)
    ensures ok <==> 0 <= value < Shl(1, width)
  {
    if value < 0 {
      return false;
    }
    ShrZero(value, width);
    ok := Shr(value, width) == 0;
  }

  method Conclude(acc: nat, bits: nat, ret: seq<nat>, ghost seen: seq<nat>, from: nat, to: nat, pad: bool)
    returns (r: Option<seq<nat>>)
    requires to >= 1 && Tracks(acc, bits, ret, seen, from, to)
    ensures r == Outcome(Words(Stream(seen, from), to), Rest(Stream(seen, from), to), from, to, pad)
  {
    r := Finish(acc, bits, ret, from, to, pad);
  }

  /** One source word: into the accumulator, and the complete words out of it. */
  method Take(acc: nat, bits: nat, ret: seq<nat>, value: nat, ghost seen: seq<nat>, from: nat, to: nat)
    returns (acc': nat, bits': nat, ret': seq<nat>)
    requires from >= 1 && to >= 1 && value < Shl(1, from)
    requires Tracks(acc, bits, ret, seen, from, to)
    ensures Tracks(acc', bits', ret', seen + [value], from, to)
  {
    ghost var pending := Rest(Stream(seen, from), to) + BitsOf(value, from);
    StreamOfAppend(seen, value, from);
    WordsOfConcat(Stream(seen, from), BitsOf(value, from), to);
    acc' := Absorb(acc, bits, value, from, to);
    bits', ret' := Drain(acc', bits + from, ret, to, pending);
  }

  /** The new accumulator: shifted, the word put in, masked. No unread bit is lost. */
  method Absorb(acc: nat, bits: nat, value: nat, from: nat, to: nat) returns (wider: nat)
    requires from >= 1 && value < Shl(1, from) && bits < to
    ensures BitsOf(wider, bits + from) == BitsOf(acc, bits) + BitsOf(value, from)
  {
    wider := Low(Shl(acc, from) + value, from + to - 1);
    BitsOfShifted(acc, value, bits, from);
    BitsOfMasked(Shl(acc, from) + value, bits + from, from + to - 1);
  }

  /** The inner loop: complete words are taken off the top of the accumulator. */
  method Drain(acc: nat, bits: nat, words: seq<nat>, to: nat, ghost pending: seq<bool>)
    returns (left: nat, ret: seq<nat>)
    requires to >= 1 && BitsOf(acc, bits) == pending
    ensures ret == words + Words(pending, to)
    ensures BitsOf(acc, left) == Rest(pending, to)
  {
    left, ret := bits, words;
    ghost var rest := pending;
    while left >= to
      invariant BitsOf(acc, left) == rest
      invariant ret + Words(rest, to) == words + Words(pending, to)
      invariant Rest(rest, to) == Rest(pending, to)
    {
      left := left - to;
      TakeWord(acc, left, to);
      Assoc(ret, [Low(Shr(acc, left), to)], Words(BitsOf(acc, left), to));
      ret := ret + [Low(Shr(acc, left), to)];
      rest := BitsOf(acc, left);
    }
  }

  /** The topmost word of the accumulator is the first of its stream. */
  lemma TakeWord(acc: nat, left: nat, to: nat)
    requires to >= 1
    ensures Words(BitsOf(acc, left + to), to) == [Low(Shr(acc, left), to)] + Words(BitsOf(acc, left), to)
    ensures Rest(BitsOf(acc, left + to), to) == Rest(BitsOf(acc, left), to)
  {
    BitsOfSplit(acc, to, left);
    ValueOfBits(Shr(acc, left), to);
    WordsOfCons(BitsOf(Shr(acc, left), to), BitsOf(acc, left), to);
  }

  lemma {:induction false} ShrZero(v: nat, k: nat)
    ensures Shr(v, k) == 0 <==> v < Shl(1, k)
  {
    if k > 0 { ShrZero(v / 2, k - 1); }
  }

  /** The test after the loop, on the bits left in the accumulator. */
  method Finish(acc: nat, bits: nat, words: seq<nat>, from: nat, to: nat, pad: bool) returns (r: Option<seq<nat>>)
    requires |BitsOf(acc, bits)| < to
    ensures r == Outcome(words, BitsOf(acc, bits), from, to, pad)
  {
    ghost var rest := BitsOf(acc, bits);
    LowOfShifted(acc, to - bits, bits);
    ValueOfAllFalse(rest + Falses(to - bits));
    if pad {
      assert words + [] == words;
      return Some(if bits != 0 then words + [Low(Shl(acc, to - bits), to)] else words);
    }
    if bits >= from || Low(Shl(acc, to - bits), to) != 0 {
      return None;
    }
    return Some(words);
  }

  // ---- going there and back ----

  lemma {:induction false} BitsOfValue(b: seq<bool>)
    ensures BitsOf(ValueOf(b), |b|) == b
    ensures ValueOf(b) < Shl(1, |b|)
  {
    if b != [] { BitsOfValue(b[..|b| - 1]); }
  }

  lemma {:induction false} ValueOfWord(v: nat, width: nat)
    requires v < Shl(1, width)
    ensures ValueOf(BitsOf(v, width)) == v
  {
    if width > 0 {
      ValueOfWord(v / 2, width - 1);
      assert BitsOf(v, width)[..width - 1] == BitsOf(v / 2, width - 1);
    }
  }

  lemma {:induction false} StreamOfConcat(a: seq<nat>, b: seq<nat>, width: nat)
    ensures Stream(a + b, width) == Stream(a, width) + Stream(b, width)
  {
    if b == [] {
      assert a + b == a;
    } else {
      var init, v := b[..|b| - 1], b[|b| - 1];
      Snoc(b);
      Assoc(a, init, [v]);
      StreamOfConcat(a, init, width);
      StreamOfAppend(a + init, v, width);
      Assoc(Stream(a, width), Stream(init, width), BitsOf(v, width));
    }
  }

  lemma StreamOfCons(v: nat, ws: seq<nat>, width: nat)
    ensures Stream([v] + ws, width) == BitsOf(v, width) + Stream(ws, width)
  {
    StreamOfConcat([v], ws, width);
    StreamOfAppend([], v, width);
    assert [] + [v] == [v];
  }

  /** The words of a stream and the bits left over are the stream again. */
  lemma {:induction false} StreamOfWords(bits: seq<bool>, width: nat)
    requires width >= 1
    ensures Fit(Words(bits, width), width)
    ensures Stream(Words(bits, width), width) + Rest(bits, width) == bits
    decreases |bits|
  {
    if |bits| >= width {
      StreamOfWords(bits[width..], width);
      FirstWord(bits, width, Words(bits[width..], width), Rest(bits[width..], width));
    }
  }

  lemma FirstWord(bits: seq<bool>, width: nat, ws: seq<nat>, rest: seq<bool>)
    requires width <= |bits| && Fit(ws, width) && Stream(ws, width) + rest == bits[width..]
    ensures Fit([ValueOf(bits[..width])] + ws, width)
    ensures Stream([ValueOf(bits[..width])] + ws, width) + rest == bits
  {
    BitsOfValue(bits[..width]);
    StreamOfCons(ValueOf(bits[..width]), ws, width);
    Join(bits, width, Stream(ws, width), rest);
  }

  lemma Join(bits: seq<bool>, k: nat, a: seq<bool>, b: seq<bool>)
    requires k <= |bits| && a + b == bits[k..]
    ensures (bits[..k] + a) + b == bits
  {
    assert (bits[..k] + a) + b == bits[..k] + (a + b);
  }

  lemma WordsOfWord(v: nat, tail: seq<bool>, width: nat)
    requires width >= 1 && v < Shl(1, width)
    ensures Words(BitsOf(v, width) + tail, width) == [v] + Words(tail, width)
    ensures Rest(BitsOf(v, width) + tail, width) == Rest(tail, width)
  {
    WordsOfCons(BitsOf(v, width), tail, width);
    ValueOfWord(v, width);
  }

  /** The words of the stream of some words are those words, and nothing is left over. */
  lemma {:induction false} WordsOfStream(data: seq<nat>, tail: seq<bool>, width: nat)
    requires width >= 1 && Fit(data, width)
    ensures Words(Stream(data, width) + tail, width) == data + Words(tail, width)
    ensures Rest(Stream(data, width) + tail, width) == Rest(tail, width)
    decreases |data|
  {
    if data == [] {
      NoWords(tail, width);
    } else {
      var rest, last := data[..|data| - 1], data[|data| - 1];
      WordsOfStream(rest, BitsOf(last, width) + tail, width);
      OneMoreWord(rest, last, tail, width);
      Snoc(data);
    }
  }

  lemma NoWords(tail: seq<bool>, width: nat)
    requires width >= 1
    ensures Words(Stream([], width) + tail, width) == [] + Words(tail, width)
    ensures Rest(Stream([], width) + tail, width) == Rest(tail, width)
  {
    assert Stream([], width) + tail == tail;
  }

  lemma OneMoreWord(rest: seq<nat>, last: nat, tail: seq<bool>, width: nat)
    requires width >= 1 && last < Shl(1, width)
    requires var more := BitsOf(last, width) + tail;
             Words(Stream(rest, width) + more, width) == rest + Words(more, width)
             && Rest(Stream(rest, width) + more, width) == Rest(more, width)
    ensures Words(Stream(rest + [last], width) + tail, width) == rest + [last] + Words(tail, width)
    ensures Rest(Stream(rest + [last], width) + tail, width) == Rest(tail, width)
  {
    StreamOfAppend(rest, last, width);
    Assoc(Stream(rest, width), BitsOf(last, width), tail);
    WordsOfWord(last, tail, width);
    Assoc(rest, [last], Words(tail, width));
  }

  /** The zeros appended to the bits left over, if any, to make a last word. */
  function Fill(rest: seq<bool>, width: nat): seq<bool>
    requires |rest| < width
  {
    if rest == [] then [] else Falses(width - |rest|)
  }

  lemma StreamPlusWord(words: seq<nat>, v: nat, word: seq<bool>, width: nat)
    requires Fit(words, width) && v < Shl(1, width) && BitsOf(v, width) == word
    ensures Fit(words + [v], width) && Stream(words + [v], width) == Stream(words, width) + word
  {
    StreamOfAppend(words, v, width);
  }

  lemma StreamOfPadded(bits: seq<bool>, width: nat)
    requires width >= 1
    ensures var packed := Words(bits, width) + LastWord(Rest(bits, width), width);
            Fit(packed, width) && Stream(packed, width) == bits + Fill(Rest(bits, width), width)
  {
    var words, rest := Words(bits, width), Rest(bits, width);
    var fill := Fill(rest, width);
    StreamOfWords(bits, width);
    if rest == [] {
      assert words + [] == words && bits + [] == bits && Stream(words, width) + [] == Stream(words, width);
    } else {
      PaddedLast(words, rest, fill, width);
      assert Stream(words, width) + (rest + fill) == bits + fill;
    }
  }

  lemma PaddedLast(words: seq<nat>, rest: seq<bool>, fill: seq<bool>, width: nat)
    requires Fit(words, width) && |rest| + |fill| == width
    ensures Fit(words + [ValueOf(rest + fill)], width)
    ensures Stream(words + [ValueOf(rest + fill)], width) == Stream(words, width) + (rest + fill)
  {
    BitsOfValue(rest + fill);
    StreamPlusWord(words, ValueOf(rest + fill), rest + fill, width);
  }

  /** Padded regrouping into narrower words always succeeds and is undone by unpadded regrouping. */
  lemma PadThenUnpad(data: seq<nat>, from: nat, to: nat)
    requires 1 <= to <= from && Fit(data, from)
    ensures Regroup(data, from, to, true).Some?
    ensures Fit(Regroup(data, from, to, true).value, to)
    ensures Regroup(Regroup(data, from, to, true).value, to, from, false) == Some(data)
  {
    var bits := Stream(data, from);
    var packed := Regroup(data, from, to, true).value;
    var fill := Fill(Rest(bits, to), to);
    StreamOfPadded(bits, to);
    WordsOfStream(data, fill, from);
    assert data + [] == data;
  }

  /** A stream of whole words whose last bits, all zero and fewer than a word, were cut off
      gives back its last word when it is padded again. */
  lemma PadAgain(whole: seq<bool>, kept: seq<bool>, cut: seq<bool>, width: nat)
    requires 1 <= width && |cut| < width && true !in cut
    requires whole == kept + cut && Rest(whole, width) == []
    ensures var q := Rest(kept, width);
            Words(whole, width) == Words(kept, width) + LastWord(q, width)
  {
    var q := Rest(kept, width);
    var last := q + cut;
    WordsOfConcat(kept, cut, width);
    if |last| < width {
      assert last == [];
    } else {
      WordsOfCons(last[..width], last[width..], width);
      assert last == last[..width] + last[width..];
      AllFalse(cut);
      assert last[..width] == q + Falses(width - |q|);
    }
  }

  /** When exactly unpadded regrouping succeeds, and with what. */
  lemma UnpadFacts(data: seq<nat>, from: nat, to: nat)
    requires to >= 1
    ensures var rest := Rest(Stream(data, from), to);
            Regroup(data, from, to, false) ==
            if Fit(data, from) && |rest| < from && true !in rest then Some(Words(Stream(data, from), to)) else None
  {
  }

  lemma WordsOfWhole(data: seq<nat>, width: nat)
    requires width >= 1 && Fit(data, width)
    ensures Words(Stream(data, width), width) == data && Rest(Stream(data, width), width) == []
  {
    WordsOfStream(data, [], width);
    assert Stream(data, width) + [] == Stream(data, width) && data + [] == data;
  }

  lemma Repad(data: seq<nat>, words: seq<nat>, rest: seq<bool>, from: nat, to: nat)
    requires 1 <= from && 1 <= to && Fit(data, from) && Fit(words, to)
    requires Stream(words, to) + rest == Stream(data, from)
    requires |rest| < from && true !in rest
    ensures Regroup(words, to, from, true) == Some(data)
  {
    WordsOfWhole(data, from);
    PadAgain(Stream(data, from), Stream(words, to), rest, from);
  }

  /** Where unpadded regrouping into wider words succeeds, padded regrouping undoes it: the
      wider words determine the narrower ones. */
  lemma UnpadThenPad(data: seq<nat>, from: nat, to: nat)
    requires 1 <= from && 1 <= to && Regroup(data, from, to, false).Some?
    ensures Fit(Regroup(data, from, to, false).value, to)
    ensures Regroup(Regroup(data, from, to, false).value, to, from, true) == Some(data)
  {
    UnpadFacts(data, from, to);
    var bits := Stream(data, from);
    StreamOfWords(bits, to);
    Repad(data, Words(bits, to), Rest(bits, to), from, to);
  }

  lemma AllFalse(b: seq<bool>)
    requires true !in b
    ensures b == Falses(|b|)
  {
    forall i | 0 <= i < |b| ensures !b[i] { assert b[i] in b; }
  }
}
