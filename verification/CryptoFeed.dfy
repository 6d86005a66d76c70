/** The crypto reader's fields, changed in place event by event. Every method is tied to the
    function of `CryptoStream` it carries out. */
module CryptoFeed {
  import opened Common
  import opened QuoteRules
  import opened CryptoStream

  class Reader {
    const base: map<Symbol, real>
    var up: bool
    var authed: bool
    var active: set<Symbol>
    var lastQuote: map<Symbol, (real, real)>
    var eventMs: map<Kind, int>
    var prices: map<Symbol, Price>
    var ticks: seq<Tick>
    var trades: seq<TradeTick>

    function View(): Stream
      reads this
    {
      Stream(up, authed, active, lastQuote,
             if XQ in eventMs then eventMs[XQ] else 0, if XT in eventMs then eventMs[XT] else 0,
             prices, ticks, trades)
    }

    constructor (base: map<Symbol, real>)
      ensures View() == Stream(false, false, {}, map[], 0, 0, map[], [], [])
      ensures this.base == base
    {
      this.base := base;
      up, authed, active, lastQuote, eventMs, prices, ticks, trades := false, false, {}, map[], map[], map[], [], [];
    }

    /** The venue and order gate: everything but BTC passes; what BTC passes moves the watermark. */
    method AcceptBtcMarketEvent(e: Event, kind: Kind) returns (ok: bool)
      requires SymbolOf(e).Some?
      modifies this`eventMs
      ensures ok == InOrder(old(View()), kind, e)
      ensures View() == if ok then Marked(old(View()), kind, e) else old(View())
    {
      if SymbolOf(e).value != BTCUSD {
        return true;
      }
      if e.exchange != Some(BTC_EXCHANGE) || !e.exact || !e.stamp.Got? || e.stamp.value <= 0 {
        return false;
      }
      if e.stamp.value < (if kind in eventMs then eventMs[kind] else 0) {
        return false;
      }
      eventMs := eventMs[kind := e.stamp.value];
      return true;
    }

    method HandleQuote(e: Event, now: nat, sent: bool)
      modifies this
      ensures View() == OnQuote(base, old(View()), e, now, sent)
    {
      if !up || !authed {
        return;
      }
      if e.pair.Unhashable? {
        up := false;
        return;
      }
      if e.pair.symbol.None? || e.pair.symbol.value !in active {
        return;
      }
      var s := e.pair.symbol.value;
      match Read(e) {
        case Caught => return;
        case Uncaught => up := false;
        case Got(fields) =>
          var (bid, ask, t) := fields;
          if !Valid(base, s, bid, ask) {
            return;
          }
          var ok := AcceptBtcMarketEvent(e, XQ);
          if !ok {
            return;
          }
          prices := prices[s := Price(bid.r, ask.r, (bid.r + ask.r) / 2.0, now)];
          if s in lastQuote && lastQuote[s] == (bid.r, ask.r) {
            return;
          }
          lastQuote := lastQuote[s := (bid.r, ask.r)];
          if !sent {
            up := false;
            return;
          }
          ticks := ticks + [Tick(s, bid.r, ask.r, (bid.r + ask.r) / 2.0, t / 1000)];
      }
    }

    method HandleTrade(e: Event, sent: bool)
      modifies this
      ensures View() == OnTrade(base, old(View()), e, sent)
    {
      if !up || !authed {
        return;
      }
      if e.pair.Unhashable? {
        up := false;
        return;
      }
      if e.pair.symbol.None? || e.pair.symbol.value !in active {
        return;
      }
      match Read(e) {
        case Caught => return;
        case Uncaught => up := false;
        case Got(fields) =>
          var (price, size, t) := fields;
          if !Valid(base, e.pair.symbol.value, price, price) {
            return;
          }
          var ok := AcceptBtcMarketEvent(e, XT);
          if !ok {
            return;
          }
          if !sent {
            up := false;
            return;
          }
          trades := trades + [TradeTick(e.pair.symbol.value, price.r, size, t / 1000)];
      }
    }

    method Handle(i: Input)
      modifies this
      ensures View() == Step(base, old(View()), i)
    {
      match i {
        case Connected => up, authed, lastQuote := true, false, lastQuote - active;
        case AuthSuccess =>
          if up {
            authed := true;
          }
        case Ended => up := false;
        case Registered(s) => active := active + {s};
        case Unregistered(s) => active, lastQuote := active - {s}, lastQuote - {s};
        case Quote(e, now, sent) => HandleQuote(e, now, sent);
        case Trade(e, sent) => HandleTrade(e, sent);
      }
    }

    /** The loop over everything that arrives. */
    method ReadAll(inputs: seq<Input>)
      modifies this
      ensures View() == Run(base, old(View()), inputs)
    {
      var i := 0;
      while i < |inputs|
        invariant 0 <= i <= |inputs|
        invariant Run(base, View(), inputs[i..]) == Run(base, old(View()), inputs)
      {
        assert inputs[i..][1..] == inputs[i + 1..];
        Handle(inputs[i]);
        i := i + 1;
      }
    }
  }
}
