/** Closing an account's positions from the dealing desk: one trade, one ledger entry, one broker
    counterparty row and up to two audit events for each, and the account's balance carried along.
    An audit event whose write fails is dropped. Amounts are exact reals. */
module ForceClose {
  import opened Common

  type PositionId = nat
  type TradeId = nat
  type AccountId = nat
  type Symbol = string

  datatype Position = Position(
    id: PositionId, account: AccountId, symbol: Symbol, side: string, qty: real, avgPrice: real, routing: Option<string>)

  datatype Trade = Trade(
    account: AccountId, symbol: Symbol, side: string, qty: real, entryPrice: real, exitPrice: real, pnl: real,
    routing: Option<string>)

  datatype Entry = Entry(account: AccountId, amount: real, balanceAfter: real, symbol: Symbol)

  datatype Counterparty = Counterparty(amount: real, account: AccountId, symbol: Symbol, bookMode: string, reason: string)

  datatype Actor = Staff | System | Trader

  datatype Event =
    | PositionClosed(reason: string, trade: TradeId, pnl: real) // its type and actor follow from the reason
    | StaffForceClosed(trade: TradeId, pnl: real, exitPrice: real)

  /** The tables, except the account's own row. A trade's id is its position in `trades`. */
  datatype Desk = Desk(
    positions: seq<Position>, trades: seq<Trade>, entries: seq<Entry>, broker: map<TradeId, Counterparty>, audit: seq<Event>)

  // ---- the counterparty writer ----

  const B_BOOK := "B_BOOK"

  /** Today every routing decision, and none, means the B-Book. */
  function BookModeForTrade(t: Trade): string {
    if t.routing.None? then B_BOOK
    else if t.routing.value == "INTERNAL" then B_BOOK
    else B_BOOK
  }

  function LowerChar(c: char): char {
    if 'A' <= c <= 'Z' then c - 'A' + 'a' else c
  }

  function Lower(s: string): string {
    seq(|s|, i requires 0 <= i < |s| => LowerChar(s[i]))
  }

  function CloseReasonEventType(reason: string): string {
    var r := Lower(reason);
    if r == "manual" then "MANUAL"
    else if r == "sl" || r == "daemon_sl" then "STOP_LOSS"
    else if r == "tp" || r == "daemon_tp" then "TAKE_PROFIT"
    else if r == "stopout" || r == "daemon_stopout" then "STOPOUT"
    else if r == "daemon_margin_call" then "MARGIN_CALL"
    else if r == "admin_force_close" then "ADMIN"
    else "CLOSED"
  }

  function ActorFor(reason: string): Actor {
    if reason == "admin_force_close" then Staff
    else if "daemon_" <= reason || "stopout" <= reason then System
    else Trader
  }

  /** At most one row per trade; the audit event goes with the row, if it can be recorded. */
  function CreateCounterparty(d: Desk, t: TradeId, account: AccountId, pnl: real, reason: string, bookMode: Option<string>,
                              recorded: Event -> bool): Desk
    requires t < |d.trades|
  {
    if t in d.broker then d
    else
      var mode := if bookMode.Some? then bookMode.value else BookModeForTrade(d.trades[t]);
      d.(broker := d.broker[t := Counterparty(-pnl, account, d.trades[t].symbol, mode, reason)],
         audit := d.audit + IfRecorded(recorded, PositionClosed(reason, t, pnl)))
  }

  /** Recording never fails its caller: the event is there or it is not. */
  function IfRecorded(recorded: Event -> bool, v: Event): seq<Event> {
    if recorded(v) then [v] else []
  }

  /** Repeating the call, whatever it says, adds no row and no event. */
  lemma ReplayAddsNothing(d: Desk, t: TradeId, account: AccountId, pnl: real, reason: string, bookMode: Option<string>,
                          account': AccountId, pnl': real, reason': string, bookMode': Option<string>,
                          recorded: Event -> bool, recorded': Event -> bool)
    requires t < |d.trades|
    ensures var once := CreateCounterparty(d, t, account, pnl, reason, bookMode, recorded);
            t in once.broker && CreateCounterparty(once, t, account', pnl', reason', bookMode', recorded') == once
  {
  }

  /** One reason only stands for staff, whatever its case for the event's type, and in lower case
      for its actor. */
  lemma ForceCloseIsByStaff(reason: string)
    ensures CloseReasonEventType(reason) == "ADMIN" <==> Lower(reason) == "admin_force_close"
    ensures ActorFor(reason).Staff? <==> reason == "admin_force_close"
    ensures ActorFor(reason).Staff? ==> CloseReasonEventType(reason) == "ADMIN"
  {
    assert Lower("admin_force_close") == "admin_force_close";
  }

  // ---- the loop ----

  /** What is to be closed, at which price if one is given, and why; `pnl` is the PnL engine, and
      `recorded` says which audit events can be written. */
  datatype Order = Order(
    account: AccountId, symbol: Option<Symbol>, price: Option<real>, pnl: (Position, real) -> real, reason: string,
    recorded: Event -> bool)

  predicate Matches(o: Order, p: Position) {
    p.account == o.account && (o.symbol.Some? ==> p.symbol == o.symbol.value)
  }

  function Matching(o: Order, ps: seq<Position>): seq<Position> {
    if ps == [] then []
    else Matching(o, ps[..|ps| - 1]) + if Matches(o, ps[|ps| - 1]) then [ps[|ps| - 1]] else []
  }

  function Delete(ps: seq<Position>, id: PositionId): seq<Position> {
    if ps == [] then []
    else Delete(ps[..|ps| - 1], id) + if ps[|ps| - 1].id == id then [] else [ps[|ps| - 1]]
  }

  function DeleteAll(ps: seq<Position>, gone: seq<Position>): seq<Position> {
    if gone == [] then ps else Delete(DeleteAll(ps, gone[..|gone| - 1]), gone[|gone| - 1].id)
  }

  function ExitPrice(o: Order, p: Position): real {
    if o.price.Some? then o.price.value else p.avgPrice
  }

  function PnlOf(o: Order, p: Position): real {
    o.pnl(p, ExitPrice(o, p))
  }

  function TradeFor(o: Order, p: Position): Trade {
    Trade(o.account, p.symbol, p.side, p.qty, p.avgPrice, ExitPrice(o, p), PnlOf(o, p), p.routing)
  }

  function PnlSum(o: Order, ps: seq<Position>): real {
    if ps == [] then 0.0 else PnlSum(o, ps[..|ps| - 1]) + PnlOf(o, ps[|ps| - 1])
  }

  /** The audit events of closing `p` as trade `t`, as far as they can be recorded. */
  function EventsOf(o: Order, p: Position, t: TradeId): seq<Event> {
    IfRecorded(o.recorded, PositionClosed(o.reason, t, PnlOf(o, p)))
    + IfRecorded(o.recorded, StaffForceClosed(t, PnlOf(o, p), ExitPrice(o, p)))
  }

  /** Those of closing all of `ps` as the trades from `t` on. */
  function EventsOfAll(o: Order, ps: seq<Position>, t: TradeId): seq<Event> {
    if ps == [] then [] else EventsOfAll(o, ps[..|ps| - 1], t) + EventsOf(o, ps[|ps| - 1], t + |ps| - 1)
  }

  /** With a sound audit trail there are exactly two events for each position, in order. */
  lemma {:induction false} TwoEventsEach(o: Order, ps: seq<Position>, t: TradeId)
    requires forall v :: o.recorded(v)
    ensures |EventsOfAll(o, ps, t)| == 2 * |ps|
    ensures forall k :: 0 <= k < |ps| ==>
              && EventsOfAll(o, ps, t)[2 * k] == PositionClosed(o.reason, t + k, PnlOf(o, ps[k]))
              && EventsOfAll(o, ps, t)[2 * k + 1] == StaffForceClosed(t + k, PnlOf(o, ps[k]), ExitPrice(o, ps[k]))
    decreases |ps|
  {
    if ps != [] {
      TwoEventsEach(o, ps[..|ps| - 1], t);
    }
  }

  // ---- what holds of the tables ----

  /** Counterparty rows belong to trades. */
  ghost predicate Known(d: Desk) {
    forall t <- d.broker :: t < |d.trades|
  }

  predicate HasRow(d: Desk, t: TradeId)
    requires t < |d.trades|
  {
    t in d.broker && d.broker[t].amount == -d.trades[t].pnl && d.broker[t].account == d.trades[t].account
  }

  /** Every trade has exactly one counterparty row, with minus its PnL. */
  ghost predicate Reconciled(d: Desk) {
    Known(d) && forall t :: 0 <= t < |d.trades| ==> HasRow(d, t)
  }

  /** What closing a list of positions does: the k-th adds a trade with its terms, an entry whose
      balance is the starting balance plus the PnL so far, and one counterparty row; the audit
      events are those that could be recorded, and nothing else changes. */
  ghost predicate Closed(d: Desk, e: Desk, o: Order, ps: seq<Position>, balance: real) {
    && |e.trades| == |d.trades| + |ps| && |e.entries| == |d.entries| + |ps|
    && d.trades <= e.trades && d.entries <= e.entries
    && e.audit == d.audit + EventsOfAll(o, ps, |d.trades|)
    && e.positions == DeleteAll(d.positions, ps)
    && RowsAdded(d, e)
    && forall k :: 0 <= k < |ps| ==> ClosedAt(d, e, o, ps, balance, k)
  }

  /** Older counterparty rows are as before, new ones belong to new trades. */
  ghost predicate RowsAdded(d: Desk, e: Desk) {
    && (forall t <- d.broker :: t in e.broker && e.broker[t] == d.broker[t])
    && (forall t <- e.broker :: t in d.broker || |d.trades| <= t < |e.trades|)
  }

  predicate ClosedAt(d: Desk, e: Desk, o: Order, ps: seq<Position>, balance: real, k: nat)
    requires k < |ps| && |e.trades| == |d.trades| + |ps| && |e.entries| == |d.entries| + |ps|
  {
    var t, pnl := |d.trades| + k, PnlOf(o, ps[k]);
    && e.trades[t] == TradeFor(o, ps[k])
    && e.entries[|d.entries| + k] == Entry(o.account, pnl, balance + PnlSum(o, ps[..k + 1]), ps[k].symbol)
    && t in e.broker && e.broker[t] == Counterparty(-pnl, o.account, ps[k].symbol, B_BOOK, o.reason)
  }

  /** `e` is `d` with one more position closed. */
  ghost predicate Adds(d: Desk, e: Desk, o: Order, p: Position, balance: real) {
    var t, pnl := |d.trades|, PnlOf(o, p);
    && e.trades == d.trades + [TradeFor(o, p)] && e.entries == d.entries + [Entry(o.account, pnl, balance + pnl, p.symbol)]
    && t !in d.broker && e.broker == d.broker[t := Counterparty(-pnl, o.account, p.symbol, B_BOOK, o.reason)]
    && e.audit == d.audit + EventsOf(o, p, t)
    && e.positions == Delete(d.positions, p.id)
  }

  /** However many older trades lack their row, closing adds none to them: each new trade has
      exactly one, and a trade without one is an older trade that had none before. */
  lemma ClosedKeepsReconciled(d: Desk, e: Desk, o: Order, ps: seq<Position>, balance: real)
    requires Known(d) && Closed(d, e, o, ps, balance)
    ensures Known(e)
    ensures forall t :: 0 <= t < |e.trades| ==> (HasRow(e, t) <==> |d.trades| <= t || HasRow(d, t))
    ensures Reconciled(e) <==> Reconciled(d)
  {
    forall t: nat | t < |e.trades| ensures HasRow(e, t) <==> |d.trades| <= t || HasRow(d, t) {
      if |d.trades| <= t {
        assert ClosedAt(d, e, o, ps, balance, t - |d.trades|);
      } else {
        assert d.trades[t] == e.trades[t];
      }
    }
  }

  lemma EarlierStays(d: Desk, mid: Desk, e: Desk, o: Order, ps: seq<Position>, p: Position, balance: real, k: nat)
    requires Closed(d, mid, o, ps, balance) && Adds(mid, e, o, p, balance + PnlSum(o, ps)) && k < |ps|
    ensures ClosedAt(d, e, o, ps + [p], balance, k)
  {
    assert ClosedAt(d, mid, o, ps, balance, k);
    assert (ps + [p])[..k + 1] == ps[..k + 1];
  }

  lemma LastIsClosed(d: Desk, mid: Desk, e: Desk, o: Order, ps: seq<Position>, p: Position, balance: real)
    requires Closed(d, mid, o, ps, balance) && Adds(mid, e, o, p, balance + PnlSum(o, ps))
    ensures ClosedAt(d, e, o, ps + [p], balance, |ps|)
  {
    var all := ps + [p];
    assert all[..|ps| + 1] == all && all[..|ps|] == ps;
  }

  lemma ListsExtend(d: Desk, mid: Desk, e: Desk, o: Order, ps: seq<Position>, p: Position, balance: real)
    requires Closed(d, mid, o, ps, balance) && Adds(mid, e, o, p, balance + PnlSum(o, ps))
    ensures |e.trades| == |d.trades| + |ps| + 1 && |e.entries| == |d.entries| + |ps| + 1
    ensures d.trades <= e.trades && d.entries <= e.entries
    ensures e.audit == d.audit + EventsOfAll(o, ps + [p], |d.trades|)
    ensures e.positions == DeleteAll(d.positions, ps + [p])
  {
    assert (ps + [p])[..|ps|] == ps;
    Assoc(d.audit, EventsOfAll(o, ps, |d.trades|), EventsOf(o, p, |d.trades| + |ps|));
  }

  lemma RowsExtend(d: Desk, mid: Desk, e: Desk, row: Counterparty)
    requires Known(d) && RowsAdded(d, mid) && |d.trades| <= |mid.trades| < |e.trades|
    requires |mid.trades| !in mid.broker && e.broker == mid.broker[|mid.trades| := row]
    ensures RowsAdded(d, e)
  {
  }

  lemma ClosedExtends(d: Desk, mid: Desk, e: Desk, o: Order, ps: seq<Position>, p: Position, balance: real)
    requires Known(d) && Closed(d, mid, o, ps, balance) && Adds(mid, e, o, p, balance + PnlSum(o, ps))
    ensures Closed(d, e, o, ps + [p], balance)
  {
    ListsExtend(d, mid, e, o, ps, p, balance);
    RowsExtend(d, mid, e, e.broker[|mid.trades|]);
    forall k | 0 <= k < |ps| + 1 ensures ClosedAt(d, e, o, ps + [p], balance, k) {
      if k < |ps| {
        EarlierStays(d, mid, e, o, ps, p, balance, k);
      } else {
        LastIsClosed(d, mid, e, o, ps, p, balance);
      }
    }
  }

  lemma ClosingNothing(d: Desk, o: Order, balance: real)
    ensures Closed(d, d, o, [], balance)
  {
  }

  lemma PnlSumAppend(o: Order, ps: seq<Position>, p: Position)
    ensures PnlSum(o, ps + [p]) == PnlSum(o, ps) + PnlOf(o, p)
  {
    assert (ps + [p])[..|ps|] == ps;
  }

  // ---- which positions go ----

  lemma {:induction false} DeleteLeaves(ps: seq<Position>, id: PositionId, p: Position)
    ensures p in Delete(ps, id) <==> p in ps && p.id != id
    decreases |ps|
  {
    if ps != [] {
      var n := |ps| - 1;
      DeleteLeaves(ps[..n], id, p);
      assert ps == ps[..n] + [ps[n]];
    }
  }

  lemma {:induction false} MatchingAre(o: Order, ps: seq<Position>, p: Position)
    ensures p in Matching(o, ps) <==> p in ps && Matches(o, p)
    decreases |ps|
  {
    if ps != [] {
      var n := |ps| - 1;
      MatchingAre(o, ps[..n], p);
      assert ps == ps[..n] + [ps[n]];
    }
  }

  lemma {:induction false} DeleteAllLeaves(ps: seq<Position>, gone: seq<Position>, p: Position)
    ensures p in DeleteAll(ps, gone) <==> p in ps && forall q <- gone :: q.id != p.id
    decreases |gone|
  {
    if gone != [] {
      var n := |gone| - 1;
      DeleteAllLeaves(ps, gone[..n], p);
      DeleteLeaves(DeleteAll(ps, gone[..n]), gone[n].id, p);
      assert forall q :: q in gone <==> q in gone[..n] || q == gone[n];
    }
  }

  ghost predicate DistinctIds(ps: seq<Position>) {
    forall p <- ps, q <- ps :: p.id == q.id ==> p == q
  }

  /** Exactly the matching positions are gone. */
  lemma OnlyMatchingClosed(ps: seq<Position>, o: Order, p: Position)
    requires DistinctIds(ps)
    ensures p in DeleteAll(ps, Matching(o, ps)) <==> p in ps && !Matches(o, p)
  {
    DeleteAllLeaves(ps, Matching(o, ps), p);
    MatchingAre(o, ps, p);
    if p in ps && !Matches(o, p) {
      forall q <- Matching(o, ps) ensures q.id != p.id {
        MatchingAre(o, ps, q);
      }
    }
  }

  // ---- conservation ----

  /** The broker rows of the trades from number `from` on. */
  function BrokerSum(d: Desk, from: nat, n: nat): real
    requires forall t :: from <= t < from + n ==> t in d.broker
  {
    if n == 0 then 0.0 else BrokerSum(d, from, n - 1) + d.broker[from + n - 1].amount
  }

  lemma {:induction false} BrokerSumIs(d: Desk, e: Desk, o: Order, ps: seq<Position>, balance: real, n: nat)
    requires Closed(d, e, o, ps, balance) && n <= |ps|
    ensures forall t :: |d.trades| <= t < |d.trades| + n ==> t in e.broker
    ensures BrokerSum(e, |d.trades|, n) == -PnlSum(o, ps[..n])
    decreases n
  {
    if n > 0 {
      BrokerSumIs(d, e, o, ps, balance, n - 1);
      assert ClosedAt(d, e, o, ps, balance, n - 1);
      assert ps[..n][..n - 1] == ps[..n - 1];
    } else {
      assert ps[..0] == [];
    }
  }

  /** What the trader's account gains the broker's book loses: the new counterparty rows sum to
      minus the change of balance, and the last ledger entry shows the new balance. */
  lemma BrokerMirrorsBalance(d: Desk, e: Desk, o: Order, ps: seq<Position>, balance: real)
    requires Closed(d, e, o, ps, balance)
    ensures forall t :: |d.trades| <= t < |d.trades| + |ps| ==> t in e.broker
    ensures BrokerSum(e, |d.trades|, |ps|) == -PnlSum(o, ps)
    ensures ps != [] ==> e.entries[|e.entries| - 1].balanceAfter == balance + PnlSum(o, ps)
  {
    BrokerSumIs(d, e, o, ps, balance, |ps|);
    assert ps[..|ps|] == ps;
    if ps != [] {
      assert ClosedAt(d, e, o, ps, balance, |ps| - 1);
    }
  }

  // ---- the desk ----

  class DealingDesk {
    var positions: seq<Position> // in order of id
    var trades: seq<Trade>
    var entries: seq<Entry>
    var broker: map<TradeId, Counterparty>
    var audit: seq<Event>
    var balance: real
    var equity: real

    function View(): Desk
      reads this
    {
      Desk(positions, trades, entries, broker, audit)
    }

    method CreateCounterpartyEntry(t: TradeId, account: AccountId, pnl: real, reason: string, bookMode: Option<string>,
                                   recorded: Event -> bool)
      requires t < |trades|
      modifies this`broker, this`audit
      ensures View() == CreateCounterparty(old(View()), t, account, pnl, reason, bookMode, recorded)
    {
      var mode := if bookMode.Some? then bookMode.value else BookModeForTrade(trades[t]);
      var created := t !in broker;
      if created {
        broker := broker[t := Counterparty(-pnl, account, trades[t].symbol, mode, reason)];
        RecordEvent(PositionClosed(reason, t, pnl), recorded);
      }
    }

    method RecordEvent(v: Event, recorded: Event -> bool)
      modifies this`audit
      ensures audit == old(audit) + IfRecorded(recorded, v)
    {
      if recorded(v) {
        audit := audit + [v];
      }
    }

    /** One turn of the force-close loop, with the running balance before it. */
    method ClosePosition(o: Order, p: Position, running: real) returns (pnl: real)
      requires Known(View())
      modifies this`positions, this`trades, this`entries, this`broker, this`audit
      ensures Adds(old(View()), View(), o, p, running) && pnl == PnlOf(o, p)
    {
      pnl := PnlOf(o, p);
      var t := |trades|;
      trades := trades + [TradeFor(o, p)];
      entries := entries + [Entry(o.account, pnl, running + pnl, p.symbol)];
      CreateCounterpartyEntry(t, o.account, pnl, o.reason, None, o.recorded);
      RecordEvent(StaffForceClosed(t, pnl, ExitPrice(o, p)), o.recorded);
      positions := Delete(positions, p.id);
    }

    /** The force-close loop over the given positions. */
    method CloseList(o: Order, ps: seq<Position>, start: real) returns (running: real)
      requires Known(View())
      modifies this`positions, this`trades, this`entries, this`broker, this`audit
      ensures Closed(old(View()), View(), o, ps, start)
      ensures running == start + PnlSum(o, ps)
    {
      running := start;
      ghost var before, done: seq<Position> := View(), [];
      ClosingNothing(before, o, start);
      for i := 0 to |ps|
        invariant done == ps[..i]
        invariant Closed(before, View(), o, done, start)
        invariant running == start + PnlSum(o, done)
      {
        ghost var mid := View();
        ClosedKeepsReconciled(before, mid, o, done, start);
        var pnl := ClosePosition(o, ps[i], running);
        ClosedExtends(before, mid, View(), o, done, ps[i], start);
        PnlSumAppend(o, done, ps[i]);
        running := running + pnl;
        done := done + [ps[i]];
      }
      assert done == ps;
    }

    /** Force-closing the account's matching positions. */
    method CloseMatching(account: AccountId, symbol: Option<Symbol>, price: Option<real>, pnl: (Position, real) -> real,
                         recorded: Event -> bool)
      returns (closed: nat, total: real)
      requires Known(View())
      modifies this
      ensures var o := Order(account, symbol, price, pnl, "admin_force_close", recorded);
              var ps := Matching(o, old(positions));
              && Closed(old(View()), View(), o, ps, old(balance))
              && closed == |ps| && total == PnlSum(o, ps)
              && balance == equity == old(balance) + total
    {
      var o := Order(account, symbol, price, pnl, "admin_force_close", recorded);
      var ps := Matching(o, positions);
      var running := CloseList(o, ps, balance);
      closed, total := |ps|, running - balance;
      balance := running;
      equity := running;
    }
  }
}
