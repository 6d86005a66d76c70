/** The aggregation as one pass that updates the breakdowns, the running totals and the symbol
    sets in place, with the filters in front of it and the derived figures after it. */
module ExposureReport {
  import opened Common
  import opened GroupedSums
  import opened Exposure

  datatype Filter = Filter(
    accountId: Option<AccountId>, accountIds: Option<set<AccountId>>, symbol: Option<Symbol>, kind: Option<string>,
    status: Option<string>, traderClass: Option<string>, exclude: set<PositionId>, riskScope: Option<string>)

  const REAL_MONEY := {"RETAIL", "ECN", "STANDARD", "CRYPTO"}

  predicate Matches(f: Filter, p: Position) {
    && (f.accountId.Some? ==> p.account.id == f.accountId.value)
    && (f.accountIds.Some? ==> p.account.id in f.accountIds.value)
    && (f.symbol.Some? ==> p.symbol == f.symbol.value)
    && (f.kind.Some? ==> p.account.kind == f.kind.value)
    && (f.status.Some? ==> p.account.status == f.status.value)
    && (f.traderClass.Some? ==> p.account.traderClass == f.traderClass)
    && (f.riskScope.Some? ==> p.account.kind in REAL_MONEY)
  }

  function Matching(f: Filter, ps: seq<Position>): seq<Position> {
    if ps == [] then []
    else Matching(f, ps[..|ps| - 1]) + if Matches(f, ps[|ps| - 1]) then [ps[|ps| - 1]] else []
  }

  datatype Report = Report(
    totals: Sums, brokerPnl: real, bySymbol: Groups<Symbol, Sums>, byAccount: Groups<AccountId, Sums>,
    live: set<Symbol>, frozen: set<Symbol>, stale: set<Symbol>, unavailable: set<Symbol>, staleOrMissing: set<Symbol>,
    concentration: map<Symbol, real>, top: seq<(Symbol, real)>)

  datatype Outcome = UnknownRiskScope | Exposed(report: Report)

  // ---- the four pricing states ----

  /** The symbols of positions whose price resolves to a given state. */
  function InState(env: Env, ps: seq<Position>, state: Resolution -> bool): set<Symbol> {
    set p | p in ps && state(Resolve(env.market, p.symbol)) :: p.symbol
  }

  ghost predicate StatesOf(env: Env, ps: seq<Position>, live: set<Symbol>, frozen: set<Symbol>, stale: set<Symbol>, unavailable: set<Symbol>) {
    && live == InState(env, ps, (r: Resolution) => r.Fresh?)
    && frozen == InState(env, ps, (r: Resolution) => r.Frozen?)
    && stale == InState(env, ps, (r: Resolution) => r.Stale?)
    && unavailable == InState(env, ps, (r: Resolution) => r.Unavailable?)
  }

  /** The four states partition the symbols; live and frozen symbols are the priced ones. */
  lemma StatesPartition(env: Env, ps: seq<Position>, live: set<Symbol>, frozen: set<Symbol>, stale: set<Symbol>, unavailable: set<Symbol>)
    requires StatesOf(env, ps, live, frozen, stale, unavailable)
    ensures live !! frozen !! stale !! unavailable
    ensures live + frozen + stale + unavailable == (set p | p in ps :: p.symbol)
    ensures forall p <- ps :: p.symbol in live + frozen <==> Contribution(env, p).priced == 1
    ensures forall p <- ps :: p.symbol in stale + unavailable <==> Contribution(env, p).unpriced == 1
  {
  }

  // ---- the largest symbols ----

  function Insert(x: (Symbol, real), sorted: seq<(Symbol, real)>): seq<(Symbol, real)> {
    if sorted == [] || x.1 >= sorted[0].1 then [x] + sorted else [sorted[0]] + Insert(x, sorted[1..])
  }

  /** A stable sort by falling gross notional. */
  function SortFalling(xs: seq<(Symbol, real)>): seq<(Symbol, real)> {
    if xs == [] then [] else Insert(xs[0], SortFalling(xs[1..]))
  }

  function GrossOf(g: Groups<Symbol, Sums>): seq<(Symbol, real)>
    requires Proper(g)
  {
    seq(|g.keys|, i requires 0 <= i < |g.keys| => (g.keys[i], g.at[g.keys[i]].grossNotional))
  }

  ghost predicate Falling(xs: seq<(Symbol, real)>) {
    forall i, j :: 0 <= i < j < |xs| ==> xs[i].1 >= xs[j].1
  }

  lemma {:induction false} InsertKeepsElements(x: (Symbol, real), xs: seq<(Symbol, real)>)
    ensures multiset(Insert(x, xs)) == multiset(xs) + multiset{x}
    decreases |xs|
  {
    if xs != [] && x.1 < xs[0].1 {
      InsertKeepsElements(x, xs[1..]);
      assert xs == [xs[0]] + xs[1..];
    }
  }

  lemma {:induction false} InsertKeepsBelow(x: (Symbol, real), xs: seq<(Symbol, real)>, bound: real)
    requires x.1 <= bound && forall i :: 0 <= i < |xs| ==> xs[i].1 <= bound
    ensures forall i :: 0 <= i < |Insert(x, xs)| ==> Insert(x, xs)[i].1 <= bound
    decreases |xs|
  {
    if xs != [] && x.1 < xs[0].1 {
      InsertKeepsBelow(x, xs[1..], bound);
    }
  }

  lemma {:induction false} InsertKeepsFalling(x: (Symbol, real), xs: seq<(Symbol, real)>)
    requires Falling(xs)
    ensures Falling(Insert(x, xs))
    decreases |xs|
  {
    if xs != [] && x.1 < xs[0].1 {
      InsertKeepsFalling(x, xs[1..]);
      InsertKeepsBelow(x, xs[1..], xs[0].1);
    }
  }

  /** The list of top symbols is the list of symbols, reordered so that gross notional falls. */
  lemma {:induction false} SortedFalls(xs: seq<(Symbol, real)>)
    ensures Falling(SortFalling(xs)) && multiset(SortFalling(xs)) == multiset(xs)
    decreases |xs|
  {
    if xs != [] {
      SortedFalls(xs[1..]);
      InsertKeepsFalling(xs[0], SortFalling(xs[1..]));
      InsertKeepsElements(xs[0], SortFalling(xs[1..]));
      assert xs == [xs[0]] + xs[1..];
    }
  }

  // ---- the pass ----

  ghost predicate IsReport(env: Env, ps: seq<Position>, r: Report) {
    && r.totals == Totals(env, ps) && r.brokerPnl == -r.totals.pnl
    && r.bySymbol == BySymbol(env, ps) && r.byAccount == ByAccount(env, ps)
    && StatesOf(env, ps, r.live, r.frozen, r.stale, r.unavailable) && r.staleOrMissing == r.stale + r.unavailable
    && Proper(r.bySymbol) && r.top == SortFalling(GrossOf(r.bySymbol))
    && r.concentration.Keys == r.bySymbol.at.Keys
    && forall s <- r.concentration :: r.concentration[s] == Concentration(r.bySymbol.at[s].grossNotional, r.totals.grossNotional)
  }

  /** One position's contribution, worked out branch by branch. */
  method Weigh(env: Env, p: Position) returns (c: Sums)
    ensures c == Contribution(env, p)
  {
    c := ZERO.(count := 1, grossQty := p.qty, netQty := SignedQuantity(p.side, p.qty));
    if p.side == "BUY" {
      c := c.(longQty := p.qty);
    } else {
      c := c.(shortQty := p.qty);
    }
    c := c.(margin := Margin(env, p));
    var price := Price(Resolve(env.market, p.symbol));
    if price.None? {
      c := c.(unpriced := 1);
      return;
    }
    c := c.(priced := 1);
    var notional := Notional(env, p, price.value);
    if p.side == "BUY" {
      c := c.(longNotional := notional, netNotional := notional);
    } else {
      c := c.(shortNotional := notional, netNotional := -notional);
    }
    c := c.(grossNotional := notional, pnl := Pnl(env, p, price.value));
  }

  method SelectPositions(f: Filter, all: seq<Position>) returns (ps: seq<Position>)
    ensures ps == Without(Matching(f, all), f.exclude)
  {
    var matching := Matching(f, all);
    ps := [];
    for i := 0 to |matching|
      invariant ps == Without(matching[..i], f.exclude)
    {
      assert matching[..i + 1][..i] == matching[..i];
      if matching[i].id !in f.exclude {
        ps := ps + [matching[i]];
      }
    }
    assert matching[..|matching|] == matching;
  }

  method AggregateGroups(env: Env, ps: seq<Position>)
    returns (raw: Sums, bySymbol: Groups<Symbol, Sums>, byAccount: Groups<AccountId, Sums>)
    ensures raw == RawTotals(env, ps) && bySymbol == BySymbol(env, ps) && byAccount == ByAccount(env, ps)
  {
    raw, bySymbol, byAccount := ZERO, Empty(), Empty();
    for i := 0 to |ps|
      invariant raw == RawTotals(env, ps[..i])
      invariant bySymbol == BySymbol(env, ps[..i]) && byAccount == ByAccount(env, ps[..i])
    {
      var c := Weigh(env, ps[i]);
      GroupsStep(env, ps[..i], ps[i]);
      assert ps[..i + 1] == ps[..i] + [ps[i]];
      bySymbol := Put(bySymbol, ps[i].symbol, WithoutMargin(c), ZERO, Add);
      byAccount := Put(byAccount, ps[i].account.id, c, ZERO, Add);
      raw := Add(raw, c);
    }
    assert ps[..|ps|] == ps;
  }

  lemma GroupsStep(env: Env, ps: seq<Position>, p: Position)
    ensures RawTotals(env, ps + [p]) == Add(RawTotals(env, ps), Contribution(env, p))
    ensures BySymbol(env, ps + [p]) == Put(BySymbol(env, ps), p.symbol, WithoutMargin(Contribution(env, p)), ZERO, Add)
    ensures ByAccount(env, ps + [p]) == Put(ByAccount(env, ps), p.account.id, Contribution(env, p), ZERO, Add)
  {
    RawAppend(env, ps, p);
    ContributionsPrefix(env, ps + [p]);
    assert (ps + [p])[..|ps|] == ps;
  }

  method CollectStates(env: Env, ps: seq<Position>)
    returns (live: set<Symbol>, frozen: set<Symbol>, stale: set<Symbol>, unavailable: set<Symbol>)
    ensures StatesOf(env, ps, live, frozen, stale, unavailable)
  {
    live, frozen, stale, unavailable := {}, {}, {}, {};
    for i := 0 to |ps|
      invariant StatesOf(env, ps[..i], live, frozen, stale, unavailable)
    {
      assert ps[..i + 1] == ps[..i] + [ps[i]];
      match Resolve(env.market, ps[i].symbol) {
        case Fresh(_) => live := live + {ps[i].symbol};
        case Frozen(_) => frozen := frozen + {ps[i].symbol};
        case Stale => stale := stale + {ps[i].symbol};
        case Unavailable => unavailable := unavailable + {ps[i].symbol};
      }
    }
    assert ps[..|ps|] == ps;
  }

  method Concentrations(g: Groups<Symbol, Sums>, total: real) returns (pct: map<Symbol, real>)
    requires Proper(g)
    ensures pct.Keys == g.at.Keys && forall s <- pct :: pct[s] == Concentration(g.at[s].grossNotional, total)
  {
    pct := map[];
    for i := 0 to |g.keys|
      invariant forall s :: s in pct <==> s in g.keys[..i]
      invariant forall s <- pct :: s in g.at && pct[s] == Concentration(g.at[s].grossNotional, total)
    {
      assert g.keys[..i + 1] == g.keys[..i] + [g.keys[i]];
      pct := pct[g.keys[i] := if total > 0.0 then g.at[g.keys[i]].grossNotional / total * 100.0 else 0.0];
    }
    assert g.keys[..|g.keys|] == g.keys;
  }

  method CalculateBrokerExposure(env: Env, all: seq<Position>, f: Filter) returns (r: Outcome)
    ensures r.UnknownRiskScope? <==> f.riskScope.Some? && f.riskScope.value != "real"
    ensures r.Exposed? ==> IsReport(env, Without(Matching(f, all), f.exclude), r.report)
  {
    if f.riskScope.Some? && f.riskScope.value != "real" {
      return UnknownRiskScope;
    }
    var ps := SelectPositions(f, all);
    var raw, bySymbol, byAccount := AggregateGroups(env, ps);
    var live, frozen, stale, unavailable := CollectStates(env, ps);
    var totals := Reported(raw);
    SymbolsProper(env, ps);
    var pct := Concentrations(bySymbol, totals.grossNotional);
    r := Exposed(Report(totals, -totals.pnl, bySymbol, byAccount, live, frozen, stale, unavailable, stale + unavailable,
                        pct, SortFalling(GrossOf(bySymbol))));
  }
}
