/** The broker's exposure over its open positions: one pass adds every position to its symbol's
    and its account's breakdown and to the running totals. Amounts are exact reals. */
module Exposure {
  import opened Common
  import opened GroupedSums

  type Symbol = string
  type AccountId = nat
  type PositionId = nat

  datatype Account = Account(
    id: AccountId, leverage: Option<int>, currency: string, kind: string, status: string, traderClass: Option<string>)

  datatype Position = Position(id: PositionId, symbol: Symbol, account: Account, side: string, qty: real, avgPrice: real)

  datatype Spec = Spec(contractSize: real, maxLeverage: int)

  // ---- prices ----

  datatype Resolution = Fresh(mid: real) | Frozen(mid: real) | Stale | Unavailable

  /** What the feed, the market session and the durable price table say about the symbols. */
  datatype Market = Market(live: map<Symbol, real>, closed: set<Symbol>, durable: map<Symbol, (real, bool)>)

  function Resolve(m: Market, s: Symbol): Resolution {
    if s in m.live then Fresh(m.live[s])
    else if s !in m.closed then Stale
    else if s in m.durable && m.durable[s].1 then Frozen(m.durable[s].0)
    else Unavailable
  }

  function Price(r: Resolution): Option<real> {
    match r
    case Fresh(mid) => Some(mid)
    case Frozen(mid) => Some(mid)
    case _ => None
  }

  method ResolveSymbolPrices(symbols: seq<Symbol>, m: Market) returns (resolved: map<Symbol, Resolution>)
    ensures forall s :: s in resolved <==> s in symbols
    ensures forall s <- symbols :: resolved[s] == Resolve(m, s)
  {
    resolved := map[];
    var needsSessionCheck: seq<Symbol> := [];
    for i := 0 to |symbols|
      invariant forall s :: s in symbols[..i] <==> s in resolved || s in needsSessionCheck
      invariant forall s <- resolved :: s in m.live && resolved[s] == Fresh(m.live[s])
      invariant forall s <- needsSessionCheck :: s !in m.live
    {
      assert symbols[..i + 1] == symbols[..i] + [symbols[i]];
      if symbols[i] in m.live {
        resolved := resolved[symbols[i] := Fresh(m.live[symbols[i]])];
      } else {
        needsSessionCheck := needsSessionCheck + [symbols[i]];
      }
    }
    assert symbols[..|symbols|] == symbols;
    for i := 0 to |needsSessionCheck|
      invariant forall s :: s in symbols <==> s in resolved || s in needsSessionCheck[i..]
      invariant forall s <- resolved :: resolved[s] == Resolve(m, s)
    {
      var s := needsSessionCheck[i];
      assert needsSessionCheck[i..] == [s] + needsSessionCheck[i + 1..];
      if s in m.closed {
        if s in m.durable && m.durable[s].1 {
          resolved := resolved[s := Frozen(m.durable[s].0)];
        } else {
          resolved := resolved[s := Unavailable];
        }
      } else {
        resolved := resolved[s := Stale];
      }
    }
  }

  // ---- one position ----

  /** What the pass reads besides the positions; `pnl` is the PnL engine. */
  datatype Env = Env(market: Market, specs: map<Symbol, Spec>, pnl: (Position, real) -> Option<real>)

  function Upper(c: char): char {
    if 'a' <= c <= 'z' then c - 'a' + 'A' else c
  }

  function UpperCase(s: string): string {
    seq(|s|, i requires 0 <= i < |s| => Upper(s[i]))
  }

  function SignedQuantity(side: string, qty: real): real {
    if UpperCase(side) == "BUY" then qty else -qty
  }

  function Max(a: int, b: int): int { if a < b then b else a }

  function Min(a: int, b: int): int { if a < b then a else b }

  /** The leverage margin is computed with: the account's, 50 by default, capped by the symbol's. */
  function Leverage(env: Env, p: Position): (lev: int)
    ensures lev >= 1
  {
    var account := Max(1, if p.account.leverage.None? || p.account.leverage.value == 0 then 50 else p.account.leverage.value);
    if p.symbol in env.specs then Max(1, Min(account, env.specs[p.symbol].maxLeverage)) else account
  }

  function ContractSize(env: Env, s: Symbol): real {
    if s in env.specs then env.specs[s].contractSize else 1.0
  }

  function Abs(x: real): real { if x < 0.0 then -x else x }

  function Margin(env: Env, p: Position): real {
    Abs(p.avgPrice * p.qty * ContractSize(env, p.symbol)) / (Leverage(env, p) as real)
  }

  function Notional(env: Env, p: Position, price: real): real {
    p.qty * price * ContractSize(env, p.symbol)
  }

  function Pnl(env: Env, p: Position, price: real): real {
    var r := env.pnl(p, price);
    if r.Some? then r.value else 0.0
  }

  // ---- breakdowns ----

  datatype Sums = Sums(
    count: int, longQty: real, shortQty: real, grossQty: real, netQty: real,
    longNotional: real, shortNotional: real, grossNotional: real, netNotional: real,
    pnl: real, margin: real, priced: int, unpriced: int)

  const ZERO: Sums := Sums(0, 0.0, 0.0, 0.0, 0.0, 0.0, 0.0, 0.0, 0.0, 0.0, 0.0, 0, 0)

  function Add(a: Sums, b: Sums): Sums {
    Sums(a.count + b.count, a.longQty + b.longQty, a.shortQty + b.shortQty, a.grossQty + b.grossQty, a.netQty + b.netQty,
         a.longNotional + b.longNotional, a.shortNotional + b.shortNotional, a.grossNotional + b.grossNotional,
         a.netNotional + b.netNotional, a.pnl + b.pnl, a.margin + b.margin, a.priced + b.priced, a.unpriced + b.unpriced)
  }

  lemma SumsAreMonoid()
    ensures Monoid(ZERO, Add)
  {
    forall a: Sums ensures Neutral(ZERO, Add, a) {
    }
    forall a: Sums, b: Sums ensures Commutes(Add, a, b) {
    }
    forall a: Sums, b: Sums, c: Sums ensures Associates(Add, a, b, c) {
    }
  }

  /** What one position adds to its account, symbol and the totals. */
  function Contribution(env: Env, p: Position): Sums {
    var long := p.side == "BUY";
    var price := Price(Resolve(env.market, p.symbol));
    var n := if price.Some? then Notional(env, p, price.value) else 0.0;
    Sums(1, if long then p.qty else 0.0, if long then 0.0 else p.qty, p.qty, SignedQuantity(p.side, p.qty),
         if long then n else 0.0, if long then 0.0 else n, n, if long then n else -n,
         if price.Some? then Pnl(env, p, price.value) else 0.0, Margin(env, p),
         if price.Some? then 1 else 0, if price.Some? then 0 else 1)
  }

  /** Symbol breakdowns carry no margin. */
  function WithoutMargin(a: Sums): Sums { a.(margin := 0.0) }

  function Contributions(env: Env, ps: seq<Position>): seq<Sums> {
    seq(|ps|, i requires 0 <= i < |ps| => Contribution(env, ps[i]))
  }

  function SymbolContributions(env: Env, ps: seq<Position>): seq<Sums> {
    seq(|ps|, i requires 0 <= i < |ps| => WithoutMargin(Contribution(env, ps[i])))
  }

  function Symbols(ps: seq<Position>): seq<Symbol> {
    seq(|ps|, i requires 0 <= i < |ps| => ps[i].symbol)
  }

  function Accounts(ps: seq<Position>): seq<AccountId> {
    seq(|ps|, i requires 0 <= i < |ps| => ps[i].account.id)
  }

  function BySymbol(env: Env, ps: seq<Position>): Groups<Symbol, Sums> {
    Collect(Symbols(ps), SymbolContributions(env, ps), ZERO, Add)
  }

  function ByAccount(env: Env, ps: seq<Position>): Groups<AccountId, Sums> {
    Collect(Accounts(ps), Contributions(env, ps), ZERO, Add)
  }

  function RawTotals(env: Env, ps: seq<Position>): Sums {
    Sum(Contributions(env, ps), ZERO, Add)
  }

  function Reported(a: Sums): Sums {
    a.(grossQty := a.longQty + a.shortQty, netQty := a.longQty - a.shortQty,
       grossNotional := a.longNotional + a.shortNotional, netNotional := a.longNotional - a.shortNotional)
  }

  /** The totals as reported: gross and net are formed from the long and short totals. */
  function Totals(env: Env, ps: seq<Position>): Sums {
    Reported(RawTotals(env, ps))
  }

  // ---- totals against their breakdowns ----

  /** Quantity of the positions whose side reads as BUY only when upper-cased. */
  function LooseBuys(ps: seq<Position>): real {
    if ps == [] then 0.0
    else
      var p := ps[|ps| - 1];
      LooseBuys(ps[..|ps| - 1]) + if p.side != "BUY" && UpperCase(p.side) == "BUY" then p.qty else 0.0
  }

  lemma BuyIsUpper()
    ensures UpperCase("BUY") == "BUY"
  {
  }

  lemma ContributionsPrefix(env: Env, ps: seq<Position>)
    requires ps != []
    ensures Contributions(env, ps)[..|ps| - 1] == Contributions(env, ps[..|ps| - 1])
    ensures SymbolContributions(env, ps)[..|ps| - 1] == SymbolContributions(env, ps[..|ps| - 1])
    ensures Symbols(ps)[..|ps| - 1] == Symbols(ps[..|ps| - 1]) && Accounts(ps)[..|ps| - 1] == Accounts(ps[..|ps| - 1])
  {
  }

  /** Long and short make up gross and net, except that a loose BUY counts as short but signs its
      quantity as long. */
  lemma {:induction false} LongAndShort(env: Env, ps: seq<Position>)
    ensures var a := RawTotals(env, ps);
            && a.grossQty == a.longQty + a.shortQty && a.grossNotional == a.longNotional + a.shortNotional
            && a.netNotional == a.longNotional - a.shortNotional
            && a.netQty == a.longQty - a.shortQty + 2.0 * LooseBuys(ps)
            && a.count == |ps| && a.priced + a.unpriced == a.count
    decreases |ps|
  {
    if ps != [] {
      BuyIsUpper();
      ContributionsPrefix(env, ps);
      LongAndShort(env, ps[..|ps| - 1]);
    }
  }

  lemma {:induction false} SymbolSums(env: Env, ps: seq<Position>)
    ensures Sum(SymbolContributions(env, ps), ZERO, Add) == WithoutMargin(RawTotals(env, ps))
    decreases |ps|
  {
    if ps != [] {
      ContributionsPrefix(env, ps);
      SymbolSums(env, ps[..|ps| - 1]);
    }
  }

  function SumOfSymbols(env: Env, ps: seq<Position>): Sums {
    SumsAreMonoid();
    CollectKeepsSum(Symbols(ps), SymbolContributions(env, ps), ZERO, Add);
    Total(BySymbol(env, ps), |BySymbol(env, ps).keys|, ZERO, Add)
  }

  function SumOfAccounts(env: Env, ps: seq<Position>): Sums {
    SumsAreMonoid();
    CollectKeepsSum(Accounts(ps), Contributions(env, ps), ZERO, Add);
    Total(ByAccount(env, ps), |ByAccount(env, ps).keys|, ZERO, Add)
  }

  lemma GroupsGiveRawTotals(env: Env, ps: seq<Position>)
    ensures SumOfAccounts(env, ps) == RawTotals(env, ps)
    ensures SumOfSymbols(env, ps) == WithoutMargin(RawTotals(env, ps))
  {
    SumsAreMonoid();
    CollectKeepsSum(Symbols(ps), SymbolContributions(env, ps), ZERO, Add);
    CollectKeepsSum(Accounts(ps), Contributions(env, ps), ZERO, Add);
    SymbolSums(env, ps);
  }

  /** The totals with the net quantity put right for loose BUYs of a given weight. */
  function Corrected(t: Sums, loose: real): Sums {
    t.(netQty := t.netQty + 2.0 * loose)
  }

  predicate AddsUp(a: Sums, loose: real) {
    && a.grossQty == a.longQty + a.shortQty && a.grossNotional == a.longNotional + a.shortNotional
    && a.netNotional == a.longNotional - a.shortNotional && a.netQty == a.longQty - a.shortQty + 2.0 * loose
  }

  lemma ReportedIsRaw(a: Sums, loose: real)
    requires AddsUp(a, loose)
    ensures a == Corrected(Reported(a), loose)
  {
  }

  lemma CorrectedIsSame(t: Sums, loose: real)
    ensures Corrected(t, loose) == t <==> loose == 0.0
    ensures WithoutMargin(Corrected(t, loose)) == WithoutMargin(t) <==> loose == 0.0
  {
    assert Corrected(t, loose).netQty == t.netQty <==> loose == 0.0;
  }

  lemma RawAddsUp(env: Env, ps: seq<Position>)
    ensures AddsUp(RawTotals(env, ps), LooseBuys(ps))
  {
    LongAndShort(env, ps);
  }

  /** Every quantity, notional, count and PnL total, and margin, is the sum over the accounts and,
      margin aside, the sum over the symbols; net quantity is too, but for loose BUYs. */
  lemma TotalsAreSumsOfBreakdowns(env: Env, ps: seq<Position>)
    ensures SumOfAccounts(env, ps) == Corrected(Totals(env, ps), LooseBuys(ps))
    ensures SumOfSymbols(env, ps) == WithoutMargin(Corrected(Totals(env, ps), LooseBuys(ps)))
  {
    GroupsGiveRawTotals(env, ps);
    RawAddsUp(env, ps);
    ReportedIsRaw(RawTotals(env, ps), LooseBuys(ps));
  }

  /** So the totals agree with both breakdowns in every field exactly if the loose BUYs weigh
      nothing, in particular if every side is written in capitals or is not a BUY at all. */
  lemma TotalsAgreeIffNoLooseBuys(env: Env, ps: seq<Position>)
    ensures SumOfAccounts(env, ps) == Totals(env, ps) <==> LooseBuys(ps) == 0.0
    ensures SumOfSymbols(env, ps) == WithoutMargin(Totals(env, ps)) <==> LooseBuys(ps) == 0.0
  {
    TotalsAreSumsOfBreakdowns(env, ps);
    CorrectedIsSame(Totals(env, ps), LooseBuys(ps));
  }

  /** Every BUY is written in capitals. */
  ghost predicate BuysInCapitals(ps: seq<Position>) {
    forall p <- ps :: UpperCase(p.side) == "BUY" ==> p.side == "BUY"
  }

  lemma {:induction false} LooseBuysWeigh(ps: seq<Position>)
    ensures BuysInCapitals(ps) ==> LooseBuys(ps) == 0.0
    ensures (forall p <- ps :: p.qty > 0.0) ==> LooseBuys(ps) >= 0.0 && (LooseBuys(ps) == 0.0 ==> BuysInCapitals(ps))
    decreases |ps|
  {
    if ps != [] {
      LooseBuysWeigh(ps[..|ps| - 1]);
      Snoc(ps);
      assert forall p :: p in ps <==> p in ps[..|ps| - 1] || p == ps[|ps| - 1];
    }
  }

  /** What a caller can look at: totals and breakdowns agree if every BUY is written in capitals,
      and with positive quantities only then. */
  lemma TotalsAgreeIffBuysInCapitals(env: Env, ps: seq<Position>)
    ensures BuysInCapitals(ps) ==>
              SumOfAccounts(env, ps) == Totals(env, ps) && SumOfSymbols(env, ps) == WithoutMargin(Totals(env, ps))
    ensures (forall p <- ps :: p.qty > 0.0) ==> (SumOfAccounts(env, ps) == Totals(env, ps) <==> BuysInCapitals(ps))
    ensures (forall p <- ps :: p.qty > 0.0) ==>
              (SumOfSymbols(env, ps) == WithoutMargin(Totals(env, ps)) <==> BuysInCapitals(ps))
  {
    LooseBuysWeigh(ps);
    TotalsAgreeIffNoLooseBuys(env, ps);
  }

  /** One position on side "buy" is enough to part the total from its breakdowns. */
  lemma LooseBuyDisagrees(env: Env, p: Position)
    requires p.side == "buy" && p.qty > 0.0
    ensures Totals(env, [p]).netQty == -p.qty && SumOfAccounts(env, [p]).netQty == p.qty
  {
    assert UpperCase("buy") == "BUY";
    assert [p][..0] == [];
    assert LooseBuys([p]) == LooseBuys([p][..0]) + p.qty;
    TotalsAreSumsOfBreakdowns(env, [p]);
    RawAppend(env, [], p);
    assert [] + [p] == [p];
  }

  // ---- concentration ----

  function Concentration(gross: real, total: real): real {
    if total > 0.0 then gross / total * 100.0 else 0.0
  }

  function ConcentrationSum(g: Groups<Symbol, Sums>, n: nat, total: real): real
    requires Proper(g) && n <= |g.keys|
  {
    if n == 0 then 0.0 else ConcentrationSum(g, n - 1, total) + Concentration(g.at[g.keys[n - 1]].grossNotional, total)
  }

  lemma SharesAdd(a: real, b: real, total: real)
    requires total > 0.0
    ensures (a + b) / total * 100.0 == a / total * 100.0 + b / total * 100.0
  {
    var x, y := a / total, b / total;
    assert x * total == a && y * total == b;
    assert (x + y) * total == a + b;
    assert (a + b) / total == x + y;
  }

  lemma {:induction false} ConcentrationsAdd(g: Groups<Symbol, Sums>, n: nat, total: real)
    requires Proper(g) && n <= |g.keys| && total > 0.0
    ensures ConcentrationSum(g, n, total) == Total(g, n, ZERO, Add).grossNotional / total * 100.0
    decreases n
  {
    if n > 0 {
      ConcentrationsAdd(g, n - 1, total);
      SharesAdd(Total(g, n - 1, ZERO, Add).grossNotional, g.at[g.keys[n - 1]].grossNotional, total);
    }
  }

  /** With a positive gross notional the symbols' concentrations add up to 100. */
  lemma ConcentrationsAddTo100(env: Env, ps: seq<Position>)
    requires Totals(env, ps).grossNotional > 0.0
    ensures Proper(BySymbol(env, ps))
    ensures ConcentrationSum(BySymbol(env, ps), |BySymbol(env, ps).keys|, Totals(env, ps).grossNotional) == 100.0
  {
    var g := BySymbol(env, ps);
    SymbolsProper(env, ps);
    ConcentrationsAdd(g, |g.keys|, Totals(env, ps).grossNotional);
    SymbolsGross(env, ps);
    WholeShare(Totals(env, ps).grossNotional);
  }

  lemma SymbolsProper(env: Env, ps: seq<Position>)
    ensures Proper(BySymbol(env, ps))
  {
    SumsAreMonoid();
    CollectKeepsSum(Symbols(ps), SymbolContributions(env, ps), ZERO, Add);
  }

  lemma SymbolsGross(env: Env, ps: seq<Position>)
    ensures SumOfSymbols(env, ps).grossNotional == Totals(env, ps).grossNotional
  {
    TotalsAreSumsOfBreakdowns(env, ps);
  }

  lemma WholeShare(total: real)
    requires total > 0.0
    ensures total / total * 100.0 == 100.0
  {
  }

  // ---- leaving positions out ----

  function Without(ps: seq<Position>, ids: set<PositionId>): seq<Position> {
    if ps == [] then []
    else Without(ps[..|ps| - 1], ids) + if ps[|ps| - 1].id in ids then [] else [ps[|ps| - 1]]
  }

  function Only(ps: seq<Position>, ids: set<PositionId>): seq<Position> {
    if ps == [] then []
    else Only(ps[..|ps| - 1], ids) + if ps[|ps| - 1].id in ids then [ps[|ps| - 1]] else []
  }

  lemma RawAppend(env: Env, ps: seq<Position>, p: Position)
    ensures RawTotals(env, ps + [p]) == Add(RawTotals(env, ps), Contribution(env, p))
  {
    ContributionsPrefix(env, ps + [p]);
    assert (ps + [p])[..|ps|] == ps;
  }

  lemma RawLast(env: Env, ps: seq<Position>)
    requires ps != []
    ensures RawTotals(env, ps) == Add(RawTotals(env, ps[..|ps| - 1]), Contribution(env, ps[|ps| - 1]))
  {
    ContributionsPrefix(env, ps);
  }

  lemma RawWithout(env: Env, ps: seq<Position>, ids: set<PositionId>)
    requires ps != []
    ensures var n := |ps| - 1;
            var rest := RawTotals(env, Without(ps[..n], ids));
            RawTotals(env, Without(ps, ids)) == if ps[n].id in ids then rest else Add(rest, Contribution(env, ps[n]))
  {
    var n := |ps| - 1;
    RawAppend(env, Without(ps[..n], ids), ps[n]);
    assert Without(ps[..n], ids) + [] == Without(ps[..n], ids);
  }

  lemma RawOnly(env: Env, ps: seq<Position>, ids: set<PositionId>)
    requires ps != []
    ensures var n := |ps| - 1;
            var rest := RawTotals(env, Only(ps[..n], ids));
            RawTotals(env, Only(ps, ids)) == if ps[n].id in ids then Add(rest, Contribution(env, ps[n])) else rest
  {
    var n := |ps| - 1;
    RawAppend(env, Only(ps[..n], ids), ps[n]);
    assert Only(ps[..n], ids) + [] == Only(ps[..n], ids);
  }

  lemma {:induction false} RawExclusionSplits(env: Env, ps: seq<Position>, ids: set<PositionId>)
    ensures RawTotals(env, ps) == Add(RawTotals(env, Without(ps, ids)), RawTotals(env, Only(ps, ids)))
    decreases |ps|
  {
    if ps == [] {
      assert RawTotals(env, []) == ZERO;
    } else {
      var n := |ps| - 1;
      RawExclusionSplits(env, ps[..n], ids);
      RawLast(env, ps);
      RawWithout(env, ps, ids);
      RawOnly(env, ps, ids);
      SplitStep(RawTotals(env, ps[..n]), RawTotals(env, ps),
                RawTotals(env, Without(ps[..n], ids)), RawTotals(env, Without(ps, ids)),
                RawTotals(env, Only(ps[..n], ids)), RawTotals(env, Only(ps, ids)),
                Contribution(env, ps[n]), ps[n].id in ids);
    }
  }

  lemma SplitStep(all: Sums, all': Sums, without: Sums, without': Sums, only: Sums, only': Sums, c: Sums, left: bool)
    requires all == Add(without, only) && all' == Add(all, c)
    requires if left then without' == without && only' == Add(only, c) else without' == Add(without, c) && only' == only
    ensures all' == Add(without', only')
  {
  }

  lemma ReportedAdds(a: Sums, b: Sums)
    ensures Reported(Add(a, b)) == Add(Reported(a), Reported(b))
  {
  }

  /** The totals without some positions and the totals of just these add up to the whole. */
  lemma ExclusionSplits(env: Env, ps: seq<Position>, ids: set<PositionId>)
    ensures Totals(env, ps) == Add(Totals(env, Without(ps, ids)), Totals(env, Only(ps, ids)))
  {
    RawExclusionSplits(env, ps, ids);
    ReportedAdds(RawTotals(env, Without(ps, ids)), RawTotals(env, Only(ps, ids)));
  }
}
