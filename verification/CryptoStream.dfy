/** The event loop of the shared crypto connection: quotes refresh the price state and are
    broadcast unless they repeat the last broadcast quote of their symbol, trades are only handed
    on, and BTC events must come from one venue in time order. Numbers are exact reals. */
module CryptoStream {
  import opened Common
  import opened QuoteRules

  const BTCUSD: Symbol := 0
  const BTC_EXCHANGE := 1

  /** Converting a field: a value, an exception the loop catches, or one it does not
      (an overflow, which ends the connection). */
  datatype Conv<T> = Got(value: T) | Caught | Uncaught

  /** The pair field, looked up in a dictionary outside any inner handler: the symbol it maps to, if
      it maps to one, or a value that cannot be looked up (a list, say). */
  datatype Pair = Maps(symbol: Option<Symbol>) | Unhashable

  /** The fields of a quote (bid, ask) or of a trade (price, size); `exact` says that the stamp and
      `exchange` that the venue are integers proper. */
  datatype Event = Event(
    pair: Pair, first: Conv<Float>, second: Conv<Float>, stamp: Conv<int>, exact: bool, exchange: Option<int>)

  datatype Kind = XQ | XT

  datatype Input =
    | Connected
    | AuthSuccess
    | Ended
    | Registered(s: Symbol)
    | Unregistered(s: Symbol)
    | Quote(e: Event, now: nat, sent: bool) // sent: the send to the consumers, if it comes to one, goes through
    | Trade(e: Event, sent: bool)

  datatype Price = Price(bid: real, ask: real, mid: real, at: nat)
  datatype Tick = Tick(symbol: Symbol, bid: real, ask: real, mid: real, time: int)
  datatype TradeTick = TradeTick(symbol: Symbol, price: real, size: Float, time: int)

  /** `up`: a connection is being read; `xq`, `xt`: the newest BTC stamp accepted, by kind. */
  datatype Stream = Stream(
    up: bool, authed: bool, active: set<Symbol>, lastQuote: map<Symbol, (real, real)>, xq: int, xt: int,
    prices: map<Symbol, Price>, ticks: seq<Tick>, trades: seq<TradeTick>)

  // ---- reading an event ----

  function Read(e: Event): Conv<(Float, Float, int)> {
    if !e.first.Got? then (if e.first.Caught? then Caught else Uncaught)
    else if !e.second.Got? then (if e.second.Caught? then Caught else Uncaught)
    else if !e.stamp.Got? then (if e.stamp.Caught? then Caught else Uncaught)
    else Got((e.first.value, e.second.value, e.stamp.value))
  }

  function SymbolOf(e: Event): Option<Symbol> {
    if e.pair.Maps? then e.pair.symbol else None
  }

  /** Is the event one the loop converts: connection authenticated, symbol known and active? */
  predicate Delivered(st: Stream, e: Event) {
    st.up && st.authed && SymbolOf(e).Some? && SymbolOf(e).value in st.active
  }

  /** Reading the event raises an exception that only the loop around the connection catches. */
  predicate Breaks(st: Stream, e: Event) {
    st.up && st.authed && (e.pair.Unhashable? || (Delivered(st, e) && Read(e).Uncaught?))
  }

  predicate Plausible(base: map<Symbol, real>, kind: Kind, e: Event) {
    SymbolOf(e).Some? && Read(e).Got?
    && Valid(base, SymbolOf(e).value, Read(e).value.0, if kind.XQ? then Read(e).value.1 else Read(e).value.0)
  }

  /** A BTC event from the selected venue with a usable stamp. */
  predicate FromVenue(e: Event) {
    e.exchange == Some(BTC_EXCHANGE) && e.exact && e.stamp.Got? && e.stamp.value > 0
  }

  function Mark(st: Stream, kind: Kind): int {
    if kind.XQ? then st.xq else st.xt
  }

  predicate InOrder(st: Stream, kind: Kind, e: Event) {
    SymbolOf(e) == Some(BTCUSD) ==> FromVenue(e) && Mark(st, kind) <= e.stamp.value
  }

  predicate Accepts(base: map<Symbol, real>, st: Stream, kind: Kind, e: Event) {
    Delivered(st, e) && Plausible(base, kind, e) && InOrder(st, kind, e)
  }

  // ---- handling it ----

  function Marked(st: Stream, kind: Kind, e: Event): Stream
    requires SymbolOf(e) == Some(BTCUSD) ==> e.stamp.Got?
  {
    if SymbolOf(e) != Some(BTCUSD) then st
    else if kind.XQ? then st.(xq := e.stamp.value)
    else st.(xt := e.stamp.value)
  }

  function Last(st: Stream, s: Symbol): Option<(real, real)> {
    if s in st.lastQuote then Some(st.lastQuote[s]) else None
  }

  function Priced(st: Stream, s: Symbol, bid: real, ask: real, now: nat): Stream {
    st.(prices := st.prices[s := Price(bid, ask, (bid + ask) / 2.0, now)])
  }

  /** A new quote is remembered first, then sent; a failed send ends the connection. */
  function Broadcast(st: Stream, s: Symbol, bid: real, ask: real, time: int, sent: bool): Stream {
    if Last(st, s) == Some((bid, ask)) then st
    else
      var st := st.(lastQuote := st.lastQuote[s := (bid, ask)]);
      if sent then st.(ticks := st.ticks + [Tick(s, bid, ask, (bid + ask) / 2.0, time)]) else st.(up := false)
  }

  function OnQuote(base: map<Symbol, real>, st: Stream, e: Event, now: nat, sent: bool): Stream {
    if Breaks(st, e) then st.(up := false)
    else if !Accepts(base, st, XQ, e) then st
    else
      var (bid, ask, t) := Read(e).value;
      var s := SymbolOf(e).value;
      Broadcast(Priced(Marked(st, XQ, e), s, bid.r, ask.r, now), s, bid.r, ask.r, t / 1000, sent)
  }

  function OnTrade(base: map<Symbol, real>, st: Stream, e: Event, sent: bool): Stream {
    if Breaks(st, e) then st.(up := false)
    else if !Accepts(base, st, XT, e) then st
    else if !sent then Marked(st, XT, e).(up := false)
    else
      var (price, size, t) := Read(e).value;
      Marked(st, XT, e).(trades := st.trades + [TradeTick(SymbolOf(e).value, price.r, size, t / 1000)])
  }

  function Step(base: map<Symbol, real>, st: Stream, i: Input): Stream {
    match i
    case Connected => st.(up := true, authed := false, lastQuote := st.lastQuote - st.active)
    case AuthSuccess => if st.up then st.(authed := true) else st
    case Ended => st.(up := false)
    case Registered(s) => st.(active := st.active + {s})
    case Unregistered(s) => st.(active := st.active - {s}, lastQuote := st.lastQuote - {s})
    case Quote(e, now, sent) => OnQuote(base, st, e, now, sent)
    case Trade(e, sent) => OnTrade(base, st, e, sent)
  }

  function Run(base: map<Symbol, real>, st: Stream, inputs: seq<Input>): Stream
    decreases |inputs|
  {
    if inputs == [] then st else Run(base, Step(base, st, inputs[0]), inputs[1..])
  }

  // ---- trades leave no trace in prices and ticks ----

  /** Everything but the trades and their own watermark. */
  function Quotes(st: Stream): Stream {
    st.(trades := [], xt := 0)
  }

  function WithoutTrades(inputs: seq<Input>): seq<Input> {
    if inputs == [] then []
    else (if inputs[0].Trade? then [] else [inputs[0]]) + WithoutTrades(inputs[1..])
  }

  /** A trade that ends the connection: its pair cannot be looked up, a field overflows, or it is
      accepted and its send fails. */
  predicate Fatal(base: map<Symbol, real>, st: Stream, e: Event, sent: bool) {
    Breaks(st, e) || (Accepts(base, st, XT, e) && !sent)
  }

  predicate NoFatalTrade(base: map<Symbol, real>, st: Stream, inputs: seq<Input>)
    decreases |inputs|
  {
    inputs == [] ||
    ((inputs[0].Trade? ==> !Fatal(base, st, inputs[0].e, inputs[0].sent)) && NoFatalTrade(base, Step(base, st, inputs[0]), inputs[1..]))
  }

  /** A trade leaves the quote side as it was exactly if it is not fatal. */
  lemma TradeIsInvisible(base: map<Symbol, real>, st: Stream, e: Event, sent: bool)
    ensures Quotes(OnTrade(base, st, e, sent)) == Quotes(st) <==> !Fatal(base, st, e, sent)
  {
  }

  lemma QuoteSeesQuotesOnly(base: map<Symbol, real>, st: Stream, e: Event, now: nat, sent: bool)
    ensures Quotes(OnQuote(base, st, e, now, sent)) == OnQuote(base, Quotes(st), e, now, sent)
  {
    QuoteJudgedAlike(base, st, e);
    if !Breaks(st, e) && Accepts(base, st, XQ, e) {
      var (bid, ask, t) := Read(e).value;
      var s := SymbolOf(e).value;
      BroadcastSeesQuotesOnly(Priced(Marked(st, XQ, e), s, bid.r, ask.r, now), s, bid.r, ask.r, t / 1000, sent);
      PricingSeesQuotesOnly(st, e, s, bid.r, ask.r, now);
    }
  }

  lemma QuoteJudgedAlike(base: map<Symbol, real>, st: Stream, e: Event)
    ensures Breaks(Quotes(st), e) == Breaks(st, e) && Accepts(base, Quotes(st), XQ, e) == Accepts(base, st, XQ, e)
  {
  }

  lemma PricingSeesQuotesOnly(st: Stream, e: Event, s: Symbol, bid: real, ask: real, now: nat)
    requires SymbolOf(e) == Some(BTCUSD) ==> e.stamp.Got?
    ensures Quotes(Priced(Marked(st, XQ, e), s, bid, ask, now)) == Priced(Marked(Quotes(st), XQ, e), s, bid, ask, now)
  {
  }

  lemma BroadcastSeesQuotesOnly(st: Stream, s: Symbol, bid: real, ask: real, time: int, sent: bool)
    ensures Quotes(Broadcast(st, s, bid, ask, time, sent)) == Broadcast(Quotes(st), s, bid, ask, time, sent)
  {
  }

  lemma StepSeesQuotesOnly(base: map<Symbol, real>, st: Stream, i: Input)
    requires !i.Trade?
    ensures Quotes(Step(base, st, i)) == Step(base, Quotes(st), i)
  {
    if i.Quote? {
      QuoteSeesQuotesOnly(base, st, i.e, i.now, i.sent);
    }
  }

  /** Deleting all trades from any input leaves price state, dedup state and ticks as they were,
      provided no trade is fatal. */
  lemma {:induction false} DeletingTrades(base: map<Symbol, real>, st: Stream, other: Stream, inputs: seq<Input>)
    requires Quotes(st) == Quotes(other) && NoFatalTrade(base, st, inputs)
    ensures Quotes(Run(base, st, inputs)) == Quotes(Run(base, other, WithoutTrades(inputs)))
    decreases |inputs|
  {
    if inputs != [] {
      var next := Step(base, st, inputs[0]);
      if inputs[0].Trade? {
        TradeIsInvisible(base, st, inputs[0].e, inputs[0].sent);
        DeletingTrades(base, next, other, inputs[1..]);
        assert WithoutTrades(inputs) == WithoutTrades(inputs[1..]);
      } else {
        StepSeesQuotesOnly(base, st, inputs[0]);
        StepSeesQuotesOnly(base, other, inputs[0]);
        DeletingTrades(base, next, Step(base, other, inputs[0]), inputs[1..]);
        assert WithoutTrades(inputs) == [inputs[0]] + WithoutTrades(inputs[1..]);
      }
    }
  }

  // ---- what a fatal trade costs ----

  predicate IsTradeless(inputs: seq<Input>) {
    forall i <- inputs :: !i.Trade?
  }

  lemma {:induction false} TradelessIsKept(inputs: seq<Input>)
    requires IsTradeless(inputs)
    ensures WithoutTrades(inputs) == inputs
    decreases |inputs|
  {
    if inputs != [] {
      assert inputs[0] in inputs;
      TradelessIsKept(inputs[1..]);
      assert [inputs[0]] + inputs[1..] == inputs;
    }
  }

  lemma {:induction false} TradelessIsSafe(base: map<Symbol, real>, st: Stream, inputs: seq<Input>)
    requires IsTradeless(inputs)
    ensures NoFatalTrade(base, st, inputs)
    decreases |inputs|
  {
    if inputs != [] {
      assert inputs[0] in inputs;
      TradelessIsSafe(base, Step(base, st, inputs[0]), inputs[1..]);
    }
  }

  /** A quote of `s` that every authenticated connection accepts next and that is not a repeat. */
  function FreshQuote(base: map<Symbol, real>, st: Stream, s: Symbol): Event
    requires s in base
  {
    var bid := base[s];
    var ask := if Last(st, s) == Some((bid, bid)) then 2.0 * bid else bid;
    var stamp := if st.xq < 1 then 1 else st.xq;
    Event(Maps(Some(s)), Got(Finite(bid)), Got(Finite(ask)), Got(stamp), true, Some(BTC_EXCHANGE))
  }

  lemma FreshQuoteTicks(base: map<Symbol, real>, st: Stream, s: Symbol)
    requires s in base && base[s] > 0.0 && st.up && st.authed && s in st.active
    ensures |OnQuote(base, st, FreshQuote(base, st, s), 0, true).ticks| == |st.ticks| + 1
  {
    var e := FreshQuote(base, st, s);
    assert Plausible(base, XQ, e) && InOrder(st, XQ, e);
  }

  /** The inputs that show the loss: the symbol registers, and a fresh quote of it arrives. */
  function Probe(base: map<Symbol, real>, st: Stream, s: Symbol): seq<Input>
    requires s in base
  {
    [Registered(s), Quote(FreshQuote(base, st, s), 0, true)]
  }

  lemma RunTwo(base: map<Symbol, real>, st: Stream, i: Input, j: Input)
    ensures Run(base, st, [i, j]) == Step(base, Step(base, st, i), j)
  {
    assert [i, j][1..] == [j] && [j][1..] == [];
    assert Run(base, Step(base, st, i), [j]) == Run(base, Step(base, Step(base, st, i), j), []);
  }

  lemma FatalTradeLosesTick(base: map<Symbol, real>, st: Stream, e: Event, sent: bool, s: Symbol)
    requires Fatal(base, st, e, sent) && s in base && base[s] > 0.0
    ensures var more := Probe(base, st, s);
            Run(base, OnTrade(base, st, e, sent), more).ticks == st.ticks
            && |Run(base, st, more).ticks| == |st.ticks| + 1
  {
    var q := FreshQuote(base, st, s);
    var here := st.(active := st.active + {s});
    RunTwo(base, st, Registered(s), Quote(q, 0, true));
    RunTwo(base, OnTrade(base, st, e, sent), Registered(s), Quote(q, 0, true));
    assert FreshQuote(base, here, s) == q;
    FreshQuoteTicks(base, here, s);
  }

  ghost predicate CostsTicks(base: map<Symbol, real>, st: Stream, e: Event, sent: bool) {
    exists more :: LosesTicks(base, st, e, sent, more)
  }

  ghost predicate LosesTicks(base: map<Symbol, real>, st: Stream, e: Event, sent: bool, more: seq<Input>) {
    IsTradeless(more) && Run(base, OnTrade(base, st, e, sent), more).ticks != Run(base, st, more).ticks
  }

  /** In every state: a trade costs ticks, in some continuation by quotes and other inputs, exactly
      if it is fatal. (Some symbol must have a base price, else no quote is ever accepted.) */
  lemma TradeCostsTicksIffFatal(base: map<Symbol, real>, st: Stream, e: Event, sent: bool, s: Symbol)
    requires s in base && base[s] > 0.0
    ensures CostsTicks(base, st, e, sent) <==> Fatal(base, st, e, sent)
  {
    if Fatal(base, st, e, sent) {
      FatalTradeLosesTick(base, st, e, sent, s);
      assert LosesTicks(base, st, e, sent, Probe(base, st, s));
    } else {
      forall more | IsTradeless(more) ensures !LosesTicks(base, st, e, sent, more) {
        TradeIsInvisible(base, st, e, sent);
        TradelessIsSafe(base, OnTrade(base, st, e, sent), more);
        TradelessIsKept(more);
        DeletingTrades(base, OnTrade(base, st, e, sent), st, more);
      }
    }
  }

  // ---- ticks are the accepted quotes without repeats ----

  /** The (bid, ask) pairs of symbol `s` that the loop accepts on the way. */
  function Accepted(base: map<Symbol, real>, st: Stream, inputs: seq<Input>, s: Symbol): seq<(real, real)>
    decreases |inputs|
  {
    if inputs == [] then []
    else AcceptedAt(base, st, inputs[0], s) + Accepted(base, Step(base, st, inputs[0]), inputs[1..], s)
  }

  function AcceptedAt(base: map<Symbol, real>, st: Stream, i: Input, s: Symbol): seq<(real, real)> {
    if i.Quote? && Accepts(base, st, XQ, i.e) && SymbolOf(i.e).value == s then
      [(Read(i.e).value.0.r, Read(i.e).value.1.r)]
    else []
  }

  /** The broadcast (bid, ask) pairs of symbol `s`. */
  function TicksOf(ticks: seq<Tick>, s: Symbol): seq<(real, real)> {
    if ticks == [] then []
    else TicksOf(ticks[..|ticks| - 1], s) + TickOf(ticks[|ticks| - 1], s)
  }

  function TickOf(t: Tick, s: Symbol): seq<(real, real)> {
    if t.symbol == s then [(t.bid, t.ask)] else []
  }

  /** `quotes` without those that repeat the one before; `last` stands before the first. */
  function Dedup(last: Option<(real, real)>, quotes: seq<(real, real)>): seq<(real, real)>
    decreases |quotes|
  {
    if quotes == [] then []
    else (if last == Some(quotes[0]) then [] else [quotes[0]]) + Dedup(Some(quotes[0]), quotes[1..])
  }

  /** The inputs after which the next quote of `s` is broadcast whatever it says. */
  predicate Resets(st: Stream, i: Input, s: Symbol) {
    (i.Connected? && s in st.active) || i == Unregistered(s)
  }

  predicate NoReset(base: map<Symbol, real>, st: Stream, inputs: seq<Input>, s: Symbol)
    decreases |inputs|
  {
    inputs == [] || (!Resets(st, inputs[0], s) && NoReset(base, Step(base, st, inputs[0]), inputs[1..], s))
  }

  lemma TicksOfAppend(ticks: seq<Tick>, t: Tick, s: Symbol)
    ensures TicksOf(ticks + [t], s) == TicksOf(ticks, s) + TickOf(t, s)
  {
    assert (ticks + [t])[..|ticks|] == ticks;
  }

  lemma DedupOne(last: Option<(real, real)>, q: (real, real))
    ensures Dedup(last, [q]) == if last == Some(q) then [] else [q]
  {
    assert [q][1..] == [];
  }

  /** The quote of `s` that this input accepts, remembers and fails to send. */
  function LostAt(base: map<Symbol, real>, st: Stream, i: Input, s: Symbol): seq<(real, real)> {
    if i.Quote? && !i.sent then Dedup(Last(st, s), AcceptedAt(base, st, i, s)) else []
  }

  function Lost(base: map<Symbol, real>, st: Stream, inputs: seq<Input>, s: Symbol): seq<(real, real)>
    decreases |inputs|
  {
    if inputs == [] then [] else LostAt(base, st, inputs[0], s) + Lost(base, Step(base, st, inputs[0]), inputs[1..], s)
  }

  lemma BroadcastDedups(st: Stream, to: Symbol, bid: real, ask: real, time: int, sent: bool, s: Symbol)
    ensures var q := if to == s then [(bid, ask)] else [];
            var next := Broadcast(st, to, bid, ask, time, sent);
            && TicksOf(next.ticks, s) == TicksOf(st.ticks, s) + (if sent then Dedup(Last(st, s), q) else [])
            && Last(next, s) == (if to == s then Some((bid, ask)) else Last(st, s))
            && next.active == st.active && (!sent && Dedup(Last(st, s), q) != [] ==> !next.up)
  {
    var t := Tick(to, bid, ask, (bid + ask) / 2.0, time);
    DedupOne(Last(st, s), (bid, ask));
    if to == s {
      assert TickOf(t, s) == [(bid, ask)];
      TicksOfAppend(st.ticks, t, s);
    } else {
      BroadcastElsewhere(st, to, bid, ask, time, sent, s);
    }
  }

  lemma BroadcastElsewhere(st: Stream, to: Symbol, bid: real, ask: real, time: int, sent: bool, s: Symbol)
    requires to != s
    ensures var next := Broadcast(st, to, bid, ask, time, sent);
            TicksOf(next.ticks, s) == TicksOf(st.ticks, s) && Last(next, s) == Last(st, s) && next.active == st.active
  {
    var t := Tick(to, bid, ask, (bid + ask) / 2.0, time);
    TicksOfOther(st.ticks, t, s);
  }

  lemma TicksOfOther(ticks: seq<Tick>, t: Tick, s: Symbol)
    requires t.symbol != s
    ensures TicksOf(ticks + [t], s) == TicksOf(ticks, s)
  {
    TicksOfAppend(ticks, t, s);
    assert TickOf(t, s) == [];
  }

  /** One input broadcasts the accepted quote unless it repeats the last, and remembers it; if the
      send fails the tick is missing and the connection over. */
  lemma StepDedups(base: map<Symbol, real>, st: Stream, i: Input, s: Symbol)
    requires !Resets(st, i, s)
    ensures var q, lost := AcceptedAt(base, st, i, s), LostAt(base, st, i, s);
            var next := Step(base, st, i);
            && TicksOf(next.ticks, s) == TicksOf(st.ticks, s) + (if lost == [] then Dedup(Last(st, s), q) else [])
            && (lost == [] || lost == Dedup(Last(st, s), q))
            && Last(next, s) == (if q == [] then Last(st, s) else Some(q[0]))
            && (lost != [] ==> !next.up && s in next.active)
  {
    if i.Quote? && Accepts(base, st, XQ, i.e) {
      QuoteDedups(base, st, i.e, i.now, i.sent, s);
    } else {
      OtherStepsDoNotBroadcast(base, st, i, s);
    }
  }

  lemma QuoteDedups(base: map<Symbol, real>, st: Stream, e: Event, now: nat, sent: bool, s: Symbol)
    requires Accepts(base, st, XQ, e)
    ensures var (bid, ask, _) := Read(e).value;
            var q := if SymbolOf(e).value == s then [(bid.r, ask.r)] else [];
            var next := OnQuote(base, st, e, now, sent);
            && TicksOf(next.ticks, s) == TicksOf(st.ticks, s) + (if sent then Dedup(Last(st, s), q) else [])
            && Last(next, s) == (if q == [] then Last(st, s) else Some(q[0]))
            && next.active == st.active && (!sent && Dedup(Last(st, s), q) != [] ==> !next.up)
  {
    var (bid, ask, t) := Read(e).value;
    var priced := Priced(Marked(st, XQ, e), SymbolOf(e).value, bid.r, ask.r, now);
    PricingKeepsTicks(st, e, SymbolOf(e).value, bid.r, ask.r, now);
    AcceptedIsBroadcast(base, st, e, now, sent);
    BroadcastDedups(priced, SymbolOf(e).value, bid.r, ask.r, t / 1000, sent, s);
  }

  lemma PricingKeepsTicks(st: Stream, e: Event, s: Symbol, bid: real, ask: real, now: nat)
    requires SymbolOf(e) == Some(BTCUSD) ==> e.stamp.Got?
    ensures var priced := Priced(Marked(st, XQ, e), s, bid, ask, now);
            priced.ticks == st.ticks && priced.lastQuote == st.lastQuote && priced.active == st.active && priced.up == st.up
  {
  }

  lemma AcceptedIsBroadcast(base: map<Symbol, real>, st: Stream, e: Event, now: nat, sent: bool)
    requires Accepts(base, st, XQ, e)
    ensures var (bid, ask, t) := Read(e).value;
            var s := SymbolOf(e).value;
            OnQuote(base, st, e, now, sent)
            == Broadcast(Priced(Marked(st, XQ, e), s, bid.r, ask.r, now), s, bid.r, ask.r, t / 1000, sent)
  {
  }

  lemma OtherStepsDoNotBroadcast(base: map<Symbol, real>, st: Stream, i: Input, s: Symbol)
    requires !(i.Quote? && Accepts(base, st, XQ, i.e)) && !Resets(st, i, s)
    ensures Step(base, st, i).ticks == st.ticks && Last(Step(base, st, i), s) == Last(st, s)
  {
  }

  /** After the connection is over, an active symbol has no accepted quote before a reset. */
  lemma {:induction false} DownIsSilent(base: map<Symbol, real>, st: Stream, inputs: seq<Input>, s: Symbol)
    requires NoReset(base, st, inputs, s) && !st.up && s in st.active
    ensures Accepted(base, st, inputs, s) == []
    decreases |inputs|
  {
    if inputs != [] {
      DownIsSilent(base, Step(base, st, inputs[0]), inputs[1..], s);
    }
  }

  lemma DedupCons(last: Option<(real, real)>, q: seq<(real, real)>, rest: seq<(real, real)>)
    requires |q| <= 1
    ensures Dedup(last, q + rest) == Dedup(last, q) + Dedup(if q == [] then last else Some(q[0]), rest)
  {
    if q == [] {
      assert q + rest == rest;
    } else {
      assert (q + rest)[1..] == rest;
      assert q[1..] == [];
    }
  }

  /** Between two resets of a symbol its ticks, with the one that could not be sent if there is
      such a one, are its accepted quotes, repeats removed. */
  lemma {:induction false} TicksAreDeduped(base: map<Symbol, real>, st: Stream, inputs: seq<Input>, s: Symbol)
    requires NoReset(base, st, inputs, s)
    ensures TicksOf(Run(base, st, inputs).ticks, s) + Lost(base, st, inputs, s)
         == TicksOf(st.ticks, s) + Dedup(Last(st, s), Accepted(base, st, inputs, s))
    ensures |Lost(base, st, inputs, s)| <= 1
    decreases |inputs|
  {
    if inputs != [] {
      var i, next := inputs[0], Step(base, st, inputs[0]);
      var q, rest := AcceptedAt(base, st, i, s), Accepted(base, next, inputs[1..], s);
      StepDedups(base, st, i, s);
      TicksAreDeduped(base, next, inputs[1..], s);
      DedupCons(Last(st, s), q, rest);
      if LostAt(base, st, i, s) != [] {
        DownIsSilent(base, next, inputs[1..], s);
        SilentLosesNothing(base, next, inputs[1..], s);
      }
      Account(TicksOf(st.ticks, s), Dedup(Last(st, s), q), Dedup(Last(next, s), rest), TicksOf(next.ticks, s),
              LostAt(base, st, i, s), TicksOf(Run(base, next, inputs[1..]).ticks, s), Lost(base, next, inputs[1..], s));
    }
  }

  /** What was there, first and rest are accounted for by ticks and lost quotes. */
  lemma Account<T>(was: seq<T>, first: seq<T>, rest: seq<T>, ticks: seq<T>, lost: seq<T>, end: seq<T>, later: seq<T>)
    requires if lost == [] then ticks == was + first else lost == first && ticks == was && rest == [] && later == []
    requires end + later == ticks + rest && |later| <= 1 && |first| <= 1
    ensures end + (lost + later) == was + (first + rest) && |lost + later| <= 1
  {
    if lost == [] {
      Assoc(was, first, rest);
      assert lost + later == later;
    } else {
      assert end + later == end && ticks + rest == ticks;
      assert lost + later == first == first + rest;
    }
  }

  lemma {:induction false} SilentLosesNothing(base: map<Symbol, real>, st: Stream, inputs: seq<Input>, s: Symbol)
    requires Accepted(base, st, inputs, s) == []
    ensures Lost(base, st, inputs, s) == []
    decreases |inputs|
  {
    if inputs != [] {
      SilentLosesNothing(base, Step(base, st, inputs[0]), inputs[1..], s);
    }
  }

  /** So they are exactly those quotes if and only if no send of the symbol failed; the one quote
      that failed is then the last of them. */
  lemma TicksAreAllIffSent(base: map<Symbol, real>, st: Stream, inputs: seq<Input>, s: Symbol)
    requires NoReset(base, st, inputs, s)
    ensures TicksOf(Run(base, st, inputs).ticks, s) == TicksOf(st.ticks, s) + Dedup(Last(st, s), Accepted(base, st, inputs, s))
            <==> Lost(base, st, inputs, s) == []
  {
    TicksAreDeduped(base, st, inputs, s);
  }

  /** It does happen, wherever the symbol is active: a fresh quote whose send fails is remembered
      as if it had been sent, and is never ticked. */
  lemma FailedSendLosesTick(base: map<Symbol, real>, st: Stream, s: Symbol)
    requires s in base && base[s] > 0.0 && st.up && st.authed && s in st.active
    ensures var q := FreshQuote(base, st, s);
            var good, bad := Step(base, st, Quote(q, 0, true)), Step(base, st, Quote(q, 0, false));
            && |good.ticks| == |st.ticks| + 1 && bad.ticks == st.ticks
            && Last(bad, s) == Last(good, s) && !bad.up && |LostAt(base, st, Quote(q, 0, false), s)| == 1
  {
    var e := FreshQuote(base, st, s);
    FreshQuoteTicks(base, st, s);
    assert Plausible(base, XQ, e) && InOrder(st, XQ, e);
    DedupOne(Last(st, s), (e.first.value.r, e.second.value.r));
  }

  /** A reset forgets the last quote, so the first accepted quote after it is broadcast. */
  lemma ResetForgets(base: map<Symbol, real>, st: Stream, i: Input, s: Symbol)
    requires Resets(st, i, s)
    ensures Last(Step(base, st, i), s) == None
  {
  }

  /** Only active symbols have a last quote, so a new connection starts with none at all. */
  predicate LastAreActive(st: Stream) {
    st.lastQuote.Keys <= st.active
  }

  lemma StepKeepsLastActive(base: map<Symbol, real>, st: Stream, i: Input)
    requires LastAreActive(st)
    ensures LastAreActive(Step(base, st, i))
  {
  }

  lemma ConnectingForgetsAll(base: map<Symbol, real>, st: Stream)
    requires LastAreActive(st)
    ensures Step(base, st, Connected).lastQuote == map[]
  {
  }

  lemma {:induction false} LastStayActive(base: map<Symbol, real>, st: Stream, inputs: seq<Input>)
    requires LastAreActive(st)
    ensures LastAreActive(Run(base, st, inputs))
    ensures Step(base, Run(base, st, inputs), Connected).lastQuote == map[]
    decreases |inputs|
  {
    if inputs == [] {
      ConnectingForgetsAll(base, st);
    } else {
      StepKeepsLastActive(base, st, inputs[0]);
      LastStayActive(base, Step(base, st, inputs[0]), inputs[1..]);
    }
  }

  /** What deduplication means: the quotes at the positions where something changes. */
  function Changes(quotes: seq<(real, real)>): seq<(real, real)> {
    if quotes == [] then []
    else
      var n := |quotes| - 1;
      Changes(quotes[..n]) + if n > 0 && quotes[n] == quotes[n - 1] then [] else [quotes[n]]
  }

  lemma {:induction false} DedupAppend(last: Option<(real, real)>, quotes: seq<(real, real)>, q: (real, real))
    ensures Dedup(last, quotes + [q])
         == Dedup(last, quotes) + if (if quotes == [] then last else Some(quotes[|quotes| - 1])) == Some(q) then [] else [q]
    decreases |quotes|
  {
    if quotes == [] {
      assert quotes + [q] == [q] && [q][1..] == [];
    } else {
      assert (quotes + [q])[1..] == quotes[1..] + [q];
      DedupAppend(Some(quotes[0]), quotes[1..], q);
    }
  }

  lemma {:induction false} DedupIsChanges(quotes: seq<(real, real)>)
    ensures Dedup(None, quotes) == Changes(quotes)
    decreases |quotes|
  {
    if quotes != [] {
      var n := |quotes| - 1;
      assert quotes == quotes[..n] + [quotes[n]];
      DedupIsChanges(quotes[..n]);
      DedupAppend(None, quotes[..n], quotes[n]);
    }
  }

  /** The price state of a symbol is its last accepted quote, repeated or not. */
  lemma {:induction false} PriceIsLastAccepted(base: map<Symbol, real>, st: Stream, inputs: seq<Input>, s: Symbol)
    ensures var q := Accepted(base, st, inputs, s);
            var end := Run(base, st, inputs);
            if q == [] then (s in end.prices <==> s in st.prices) && (s in st.prices ==> end.prices[s] == st.prices[s])
            else s in end.prices && (end.prices[s].bid, end.prices[s].ask) == q[|q| - 1]
                 && end.prices[s].bid <= end.prices[s].mid <= end.prices[s].ask
    decreases |inputs|
  {
    if inputs != [] {
      var next := Step(base, st, inputs[0]);
      var rest := Accepted(base, next, inputs[1..], s);
      PriceIsLastAccepted(base, next, inputs[1..], s);
      StepPrices(base, st, inputs[0], s);
      assert rest == [] ==> AcceptedAt(base, st, inputs[0], s) + rest == AcceptedAt(base, st, inputs[0], s);
    }
  }

  lemma StepPrices(base: map<Symbol, real>, st: Stream, i: Input, s: Symbol)
    ensures var q := AcceptedAt(base, st, i, s);
            var next := Step(base, st, i);
            if q == [] then (s in next.prices <==> s in st.prices) && (s in st.prices ==> next.prices[s] == st.prices[s])
            else s in next.prices && (next.prices[s].bid, next.prices[s].ask) == q[0]
                 && next.prices[s].bid <= next.prices[s].mid <= next.prices[s].ask
  {
  }

  // ---- BTC events are the running maxima of their kind ----

  /** A BTC event that reached the ordering gate with everything but its place in time in order. */
  predicate Candidate(base: map<Symbol, real>, st: Stream, i: Input, kind: Kind) {
    && (if kind.XQ? then i.Quote? else i.Trade?)
    && SymbolOf(i.e) == Some(BTCUSD) && Delivered(st, i.e) && Plausible(base, kind, i.e) && FromVenue(i.e)
  }

  /** The stamps of all candidates of one kind, across connections. */
  function Stamps(base: map<Symbol, real>, st: Stream, inputs: seq<Input>, kind: Kind): seq<int>
    decreases |inputs|
  {
    if inputs == [] then []
    else
      (if Candidate(base, st, inputs[0], kind) then [inputs[0].e.stamp.value] else [])
      + Stamps(base, Step(base, st, inputs[0]), inputs[1..], kind)
  }

  ghost predicate IsMaximum(m: int, from: int, stamps: seq<int>) {
    m >= from && (forall t <- stamps :: t <= m) && (m == from || m in stamps)
  }

  lemma StepMarks(base: map<Symbol, real>, st: Stream, i: Input, kind: Kind)
    ensures Mark(Step(base, st, i), kind)
         == if Candidate(base, st, i, kind) && i.e.stamp.value > Mark(st, kind) then i.e.stamp.value else Mark(st, kind)
  {
  }

  /** The watermark of a kind is the greatest stamp any candidate of that kind ever had. */
  lemma {:induction false} MarkIsMaximum(base: map<Symbol, real>, st: Stream, inputs: seq<Input>, kind: Kind)
    ensures IsMaximum(Mark(Run(base, st, inputs), kind), Mark(st, kind), Stamps(base, st, inputs, kind))
    decreases |inputs|
  {
    if inputs != [] {
      StepMarks(base, st, inputs[0], kind);
      MarkIsMaximum(base, Step(base, st, inputs[0]), inputs[1..], kind);
    }
  }

  /** So after any history, reconnects included, a BTC event is accepted exactly if it is a
      candidate and no earlier candidate of its kind was newer. */
  lemma BtcAcceptedIffNewest(base: map<Symbol, real>, st: Stream, inputs: seq<Input>, i: Input, kind: Kind)
    requires Mark(st, kind) == 0
    requires (if kind.XQ? then i.Quote? else i.Trade?) && SymbolOf(i.e) == Some(BTCUSD)
    ensures var now := Run(base, st, inputs);
            Accepts(base, now, kind, i.e)
            <==> Candidate(base, now, i, kind) && NoneNewer(Stamps(base, st, inputs, kind), i.e.stamp)
  {
    var now, stamps := Run(base, st, inputs), Stamps(base, st, inputs, kind);
    MarkIsMaximum(base, st, inputs, kind);
    GateOpens(base, now, i, kind);
    if FromVenue(i.e) {
      MaximumBound(Mark(now, kind), stamps, i.e.stamp.value);
    }
  }

  ghost predicate NoneNewer(stamps: seq<int>, stamp: Conv<int>) {
    stamp.Got? && forall t <- stamps :: t <= stamp.value
  }

  lemma GateOpens(base: map<Symbol, real>, st: Stream, i: Input, kind: Kind)
    requires (if kind.XQ? then i.Quote? else i.Trade?) && SymbolOf(i.e) == Some(BTCUSD)
    ensures Accepts(base, st, kind, i.e) <==> Candidate(base, st, i, kind) && Mark(st, kind) <= i.e.stamp.value
  {
  }

  lemma MaximumBound(m: int, stamps: seq<int>, x: int)
    requires IsMaximum(m, 0, stamps) && x > 0
    ensures m <= x <==> NoneNewer(stamps, Got(x))
  {
    if NoneNewer(stamps, Got(x)) {
      assert m == 0 || m in stamps;
    }
  }
}
