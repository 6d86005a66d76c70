/** The in-memory price board: several threads write and read it, each access under one lock.
    Reading a validated quote takes two locked sections: the snapshot, and storing the quote as
    the last valid one; anything may happen in between. */
module PriceBoard {
  import opened Common
  import opened QuoteRules

  type ReaderId = nat
  type Source = string

  datatype Board = Board(
    bids: map<Symbol, Float>, asks: map<Symbol, Float>, prices: map<Symbol, Float>,
    stamps: map<Symbol, int>, sources: map<Symbol, Source>, lastValid: map<Symbol, Quote>)

  datatype Quote = Quote(symbol: Symbol, bid: Float, ask: Float, mid: Float, at: int, source: Source)

  /** One write of the four maps, or a stop of the symbol's feed. */
  datatype Event = Written(symbol: Symbol, bid: Float, ask: Float, at: int, source: Source) | Stopped(symbol: Symbol)

  // ---- the locked sections ----

  function Update(b: Board, s: Symbol, bid: Float, ask: Float, at: int, source: Source): Board {
    b.(bids := b.bids[s := bid], asks := b.asks[s := ask], prices := b.prices[s := Mid(bid, ask)],
       stamps := b.stamps[s := at], sources := b.sources[s := source])
  }

  /** A successful resync quotes the REST price with the symbol's usual spread around it. */
  function Resync(b: Board, s: Symbol, mid: real, spread: real, at: int): Board {
    var b := Update(b, s, Finite(mid - spread / 2.0), Finite(mid + spread / 2.0), at, "rest_resync");
    b.(prices := b.prices[s := Finite(mid)])
  }

  /** A failed one seeds the mid only. */
  function ResyncFailed(b: Board, s: Symbol, fallback: real): Board {
    if s in b.prices then b else b.(prices := b.prices[s := Finite(fallback)])
  }

  function Stop(b: Board, s: Symbol): Board {
    Board(b.bids - {s}, b.asks - {s}, b.prices - {s}, b.stamps - {s}, b.sources - {s}, b.lastValid - {s})
  }

  function Get<T>(m: map<Symbol, T>, s: Symbol): Option<T> {
    if s in m then Some(m[s]) else None
  }

  /** The snapshot and its validation; a missing bid or ask is not valid. */
  function Validated(base: map<Symbol, real>, b: Board, s: Symbol, now: int, maxAge: int): Option<Quote> {
    if s !in b.stamps || now - b.stamps[s] > maxAge then None
    else
      var bid, ask := Get(b.bids, s), Get(b.asks, s);
      var source := if s in b.sources then b.sources[s] else "unknown";
      if bid.Some? && ask.Some? && Valid(base, s, bid.value, ask.value) then
        Some(Quote(s, bid.value, ask.value, Mid(bid.value, ask.value), b.stamps[s], source))
      else None
  }

  function Store(b: Board, q: Quote): Board {
    b.(lastValid := b.lastValid[q.symbol := q])
  }

  // ---- concurrent writers and readers ----

  datatype State = State(board: Board, pending: map<ReaderId, Quote>, log: seq<Event>)

  datatype Action =
    | Updates(s: Symbol, bid: Float, ask: Float, at: int, source: Source)
    | Resyncs(s: Symbol, mid: real, spread: real, at: int)
    | ResyncFails(s: Symbol, fallback: real)
    | Stops(s: Symbol)
    | Reads(i: ReaderId, s: Symbol, now: int, maxAge: int)
    | Stores(i: ReaderId)

  function Init(): State {
    State(Board(map[], map[], map[], map[], map[], map[]), map[], [])
  }

  predicate Enabled(st: State, a: Action) {
    match a
    case Resyncs(_, mid, _, _) => mid > 0.0
    case Reads(i, _, _, _) => i !in st.pending
    case Stores(i) => i in st.pending
    case _ => true
  }

  function Apply(base: map<Symbol, real>, st: State, a: Action): State
    requires Enabled(st, a)
  {
    match a
    case Updates(s, bid, ask, at, source) =>
      st.(board := Update(st.board, s, bid, ask, at, source), log := st.log + [Written(s, bid, ask, at, source)])
    case Resyncs(s, mid, spread, at) =>
      st.(board := Resync(st.board, s, mid, spread, at),
          log := st.log + [Written(s, Finite(mid - spread / 2.0), Finite(mid + spread / 2.0), at, "rest_resync")])
    case ResyncFails(s, fallback) => st.(board := ResyncFailed(st.board, s, fallback))
    case Stops(s) => st.(board := Stop(st.board, s), log := st.log + [Stopped(s)])
    case Reads(i, s, now, maxAge) =>
      var q := Validated(base, st.board, s, now, maxAge);
      if q.Some? then st.(pending := st.pending[i := q.value]) else st
    case Stores(i) => st.(board := Store(st.board, st.pending[i]), pending := st.pending - {i})
  }

  ghost predicate Reaches(base: map<Symbol, real>, st: State, acts: seq<Action>, end: State)
    decreases |acts|
  {
    if acts == [] then st == end
    else Enabled(st, acts[0]) && Reaches(base, Apply(base, st, acts[0]), acts[1..], end)
  }

  // ---- coherence ----

  /** The last word of the log on symbol `s`: its latest write, unless it was stopped since. */
  function Latest(log: seq<Event>, s: Symbol): Option<Event> {
    if log == [] then None
    else
      var e := log[|log| - 1];
      if e.symbol != s then Latest(log[..|log| - 1], s)
      else if e.Written? then Some(e)
      else None
  }

  lemma LatestAfter(log: seq<Event>, e: Event, s: Symbol)
    ensures Latest(log + [e], s) == if e.symbol != s then Latest(log, s) else if e.Written? then Some(e) else None
  {
    assert (log + [e])[..|log|] == log;
  }

  /** The four maps hold, together, exactly the latest write of each symbol. */
  ghost predicate Coherent(st: State) {
    forall s :: HoldsLatest(st.board, s, Latest(st.log, s))
  }

  predicate HoldsLatest(b: Board, s: Symbol, e: Option<Event>) {
    if e.Some? then
      e.value.Written? && s in b.bids && s in b.asks && s in b.stamps && s in b.sources
      && e.value == Written(s, b.bids[s], b.asks[s], b.stamps[s], b.sources[s])
    else s !in b.bids && s !in b.asks && s !in b.stamps && s !in b.sources
  }

  predicate FromWrite(base: map<Symbol, real>, log: seq<Event>, q: Quote) {
    && Written(q.symbol, q.bid, q.ask, q.at, q.source) in log
    && Valid(base, q.symbol, q.bid, q.ask) && q.mid == Mid(q.bid, q.ask)
  }

  /** Quotes on their way to be stored, and stored ones, each come from one write. */
  ghost predicate QuotesFromWrites(base: map<Symbol, real>, st: State) {
    && (forall i <- st.pending :: FromWrite(base, st.log, st.pending[i]))
    && (forall s <- st.board.lastValid :: st.board.lastValid[s].symbol == s && FromWrite(base, st.log, st.board.lastValid[s]))
  }

  lemma {:induction false} LatestInLog(log: seq<Event>, s: Symbol)
    ensures Latest(log, s).Some? ==> Latest(log, s).value in log && Latest(log, s).value.symbol == s
    decreases |log|
  {
    if log != [] && log[|log| - 1].symbol != s {
      LatestInLog(log[..|log| - 1], s);
    }
  }

  lemma StepKeepsCoherent(base: map<Symbol, real>, st: State, a: Action)
    requires Coherent(st) && Enabled(st, a)
    ensures Coherent(Apply(base, st, a))
  {
    forall s ensures HoldsLatest(Apply(base, st, a).board, s, Latest(Apply(base, st, a).log, s)) {
      assert HoldsLatest(st.board, s, Latest(st.log, s));
      StepKeepsLatest(base, st, a, s);
    }
  }

  lemma StepKeepsLatest(base: map<Symbol, real>, st: State, a: Action, s: Symbol)
    requires HoldsLatest(st.board, s, Latest(st.log, s)) && Enabled(st, a)
    ensures HoldsLatest(Apply(base, st, a).board, s, Latest(Apply(base, st, a).log, s))
  {
    match a
    case Updates(u, bid, ask, at, source) => WriteIsLatest(st.board, st.log, s, u, bid, ask, at, source);
    case Resyncs(u, mid, spread, at) =>
      WriteIsLatest(st.board, st.log, s, u, Finite(mid - spread / 2.0), Finite(mid + spread / 2.0), at, "rest_resync");
    case Stops(u) => StopIsLatest(st.board, st.log, s, u);
    case _ =>
  }

  lemma WriteIsLatest(b: Board, log: seq<Event>, s: Symbol, u: Symbol, bid: Float, ask: Float, at: int, source: Source)
    requires HoldsLatest(b, s, Latest(log, s))
    ensures HoldsLatest(Update(b, u, bid, ask, at, source), s, Latest(log + [Written(u, bid, ask, at, source)], s))
  {
    LatestAfter(log, Written(u, bid, ask, at, source), s);
  }

  lemma StopIsLatest(b: Board, log: seq<Event>, s: Symbol, u: Symbol)
    requires HoldsLatest(b, s, Latest(log, s))
    ensures HoldsLatest(Stop(b, u), s, Latest(log + [Stopped(u)], s))
  {
    LatestAfter(log, Stopped(u), s);
  }

  lemma StepKeepsQuotes(base: map<Symbol, real>, st: State, a: Action)
    requires Coherent(st) && QuotesFromWrites(base, st) && Enabled(st, a)
    ensures QuotesFromWrites(base, Apply(base, st, a))
  {
    if a.Reads? {
      assert HoldsLatest(st.board, a.s, Latest(st.log, a.s));
      LatestInLog(st.log, a.s);
    }
  }

  lemma {:induction false} RunKeeps(base: map<Symbol, real>, st: State, acts: seq<Action>, end: State)
    requires Coherent(st) && QuotesFromWrites(base, st) && Reaches(base, st, acts, end)
    ensures Coherent(end) && QuotesFromWrites(base, end)
    decreases |acts|
  {
    if acts != [] {
      StepKeepsCoherent(base, st, acts[0]);
      StepKeepsQuotes(base, st, acts[0]);
      RunKeeps(base, Apply(base, st, acts[0]), acts[1..], end);
    }
  }

  lemma Reachable(base: map<Symbol, real>, acts: seq<Action>, st: State)
    requires Reaches(base, Init(), acts, st)
    ensures Coherent(st) && QuotesFromWrites(base, st)
  {
    RunKeeps(base, Init(), acts, st);
  }

  /** After any interleaving, a validated quote is the latest write of its symbol, all of it:
      bid, ask, time and source of one write, young enough, with bid <= mid <= ask and the mid
      within a factor of ten of the base price. And there is one whenever that write qualifies. */
  lemma QuoteIsLatestWrite(base: map<Symbol, real>, acts: seq<Action>, st: State, s: Symbol, now: int, maxAge: int)
    requires Reaches(base, Init(), acts, st)
    ensures var q := Validated(base, st.board, s, now, maxAge);
            var w := Latest(st.log, s);
            && (q.Some? <==> w.Some? && w.value.Written? && now - w.value.at <= maxAge
                             && Valid(base, s, w.value.bid, w.value.ask))
            && (q.Some? ==>
                  && w.value == Written(s, q.value.bid, q.value.ask, q.value.at, q.value.source)
                  && q.value.mid.Finite? && q.value.bid.r <= q.value.mid.r <= q.value.ask.r
                  && base[s] / 10.0 <= q.value.mid.r <= 10.0 * base[s])
  {
    Reachable(base, acts, st);
    assert HoldsLatest(st.board, s, Latest(st.log, s));
    var q := Validated(base, st.board, s, now, maxAge);
    if q.Some? {
      ValidMid(base, s, q.value.bid, q.value.ask);
    }
  }

  /** The last valid quote, too, was once a single write that passed validation. */
  lemma LastValidWasWritten(base: map<Symbol, real>, acts: seq<Action>, st: State, s: Symbol)
    requires Reaches(base, Init(), acts, st) && s in st.board.lastValid
    ensures var q := st.board.lastValid[s];
            Written(s, q.bid, q.ask, q.at, q.source) in st.log && Valid(base, s, q.bid, q.ask)
  {
    Reachable(base, acts, st);
  }

  // ---- a stopped symbol's last valid quote ----

  predicate Writes(a: Action, s: Symbol) {
    (a.Updates? || a.Resyncs?) && a.s == s
  }

  predicate IsPending(st: State, s: Symbol) {
    exists i :: i in st.pending && st.pending[i].symbol == s
  }

  /** Nothing of the symbol is left: no last valid quote, none on its way, none to be read. */
  ghost predicate Forgotten(st: State, s: Symbol) {
    s !in st.board.stamps && s !in st.board.lastValid && !IsPending(st, s)
  }

  lemma {:induction false} StaysForgotten(base: map<Symbol, real>, st: State, acts: seq<Action>, end: State, s: Symbol)
    requires Forgotten(st, s) && (forall i <- st.pending :: st.pending[i].symbol != s)
    requires Reaches(base, st, acts, end) && forall a <- acts :: !Writes(a, s)
    ensures s !in end.board.lastValid
    decreases |acts|
  {
    if acts != [] {
      assert acts[0] in acts;
      var next := Apply(base, st, acts[0]);
      assert forall i <- next.pending :: next.pending[i].symbol != s;
      StaysForgotten(base, next, acts[1..], end, s);
    }
  }

  /** Some run without a write of the symbol leads to a last valid quote of it. */
  ghost predicate CanComeBack(base: map<Symbol, real>, st: State, s: Symbol) {
    exists acts, end :: ComesBack(base, st, acts, end, s)
  }

  ghost predicate ComesBack(base: map<Symbol, real>, st: State, acts: seq<Action>, end: State, s: Symbol) {
    Reaches(base, st, acts, end) && (forall a <- acts :: !Writes(a, s)) && s in end.board.lastValid
  }

  /** Stopping a symbol clears its last valid quote until the next write exactly if no reader
      stood between its snapshot and its store: one that did can put the old quote back. */
  lemma StopClearsIffNoReaderPending(base: map<Symbol, real>, st: State, s: Symbol)
    requires Coherent(st) && QuotesFromWrites(base, st)
    ensures CanComeBack(base, Apply(base, st, Stops(s)), s) <==> IsPending(st, s)
  {
    var stopped := Apply(base, st, Stops(s));
    if IsPending(st, s) {
      var i :| i in st.pending && st.pending[i].symbol == s;
      var end := Apply(base, stopped, Stores(i));
      assert [Stores(i)][1..] == [];
      assert Reaches(base, end, [], end);
      assert Reaches(base, stopped, [Stores(i)], end);
      assert ComesBack(base, stopped, [Stores(i)], end, s);
    } else {
      forall acts, end | Reaches(base, stopped, acts, end) && forall a <- acts :: !Writes(a, s)
        ensures !ComesBack(base, stopped, acts, end, s)
      {
        assert stopped.pending == st.pending;
        StaysForgotten(base, stopped, acts, end, s);
      }
    }
  }

  // ---- the board's own methods ----

  class PriceStore {
    const base: map<Symbol, real>
    var bids: map<Symbol, Float>
    var asks: map<Symbol, Float>
    var prices: map<Symbol, Float>
    var priceTs: map<Symbol, int>
    var priceSource: map<Symbol, Source>
    var lastValidQuote: map<Symbol, Quote>

    function View(): Board
      reads this
    {
      Board(bids, asks, prices, priceTs, priceSource, lastValidQuote)
    }

    constructor (base: map<Symbol, real>)
      ensures View() == Init().board && this.base == base
    {
      this.base := base;
      bids, asks, prices, priceTs, priceSource, lastValidQuote := map[], map[], map[], map[], map[], map[];
    }

    method UpdatePriceState(s: Symbol, bid: Float, ask: Float, now: int, source: Source) returns (mid: Float)
      modifies this
      ensures View() == Update(old(View()), s, bid, ask, now, source) && mid == Mid(bid, ask)
    {
      mid := Mid(bid, ask);
      bids := bids[s := bid];
      asks := asks[s := ask];
      prices := prices[s := mid];
      priceTs := priceTs[s := now];
      priceSource := priceSource[s := source];
    }

    /** `price` is what the REST request brought, if anything. */
    method ResyncPrice(s: Symbol, price: Option<real>, spread: real, fallback: real, now: int)
      modifies this
      ensures View() == if price.Some? && price.value > 0.0 then Resync(old(View()), s, price.value, spread, now)
                        else ResyncFailed(old(View()), s, fallback)
    {
      if price.Some? && price.value > 0.0 {
        prices := prices[s := Finite(price.value)];
        bids := bids[s := Finite(price.value - spread / 2.0)];
        asks := asks[s := Finite(price.value + spread / 2.0)];
        priceTs := priceTs[s := now];
        priceSource := priceSource[s := "rest_resync"];
      } else if s !in prices {
        prices := prices[s := Finite(fallback)];
      }
    }

    method Forget(s: Symbol)
      modifies this
      ensures View() == Stop(old(View()), s)
    {
      prices, bids, asks := prices - {s}, bids - {s}, asks - {s};
      priceTs, priceSource, lastValidQuote := priceTs - {s}, priceSource - {s}, lastValidQuote - {s};
    }

    method GetValidatedQuote(s: Symbol, now: int, maxAge: int) returns (q: Option<Quote>)
      modifies this`lastValidQuote
      ensures q == Validated(base, old(View()), s, now, maxAge)
      ensures View() == if q.Some? then Store(old(View()), q.value) else old(View())
    {
      if s !in priceTs || now - priceTs[s] > maxAge {
        return None;
      }
      var bid, ask := Get(bids, s), Get(asks, s);
      var source := if s in priceSource then priceSource[s] else "unknown";
      if bid.None? || ask.None? || !Valid(base, s, bid.value, ask.value) {
        return None;
      }
      q := Some(Quote(s, bid.value, ask.value, Mid(bid.value, ask.value), priceTs[s], source));
      lastValidQuote := lastValidQuote[s := q.value];
    }
  }
}
