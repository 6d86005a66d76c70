/** IB commission expense: the summary over obligations and executed adjustments of a period, and
    the same broken down by referral, rule type or symbol. Amounts are whole cents. */
module IBExpense {
  import opened Common
  import opened GroupedSums

  type ReferralId = nat
  type RuleType = string

  datatype Status = Pending | Approved | Credited | OtherStatus

  /** `symbol` is what the obligation's source event says, for the rule types that have one. */
  datatype Obligation = Obligation(
    referral: ReferralId, ruleType: RuleType, status: Status, amount: int, createdAt: int, symbol: Option<string>)

  datatype Adjustment = Adjustment(obligation: Obligation, referral: ReferralId, executed: bool, amount: int, executedAt: int)

  datatype Amounts = Amounts(pending: int, approved: int, credited: int, adjusted: int)

  const NOTHING: Amounts := Amounts(0, 0, 0, 0)

  function Plus(a: Amounts, b: Amounts): Amounts {
    Amounts(a.pending + b.pending, a.approved + b.approved, a.credited + b.credited, a.adjusted + b.adjusted)
  }

  function NetPaid(a: Amounts): int { a.credited - a.adjusted }

  lemma AmountsAreMonoid()
    ensures Monoid(NOTHING, Plus)
  {
    forall a: Amounts ensures Neutral(NOTHING, Plus, a) {
    }
    forall a: Amounts, b: Amounts ensures Commutes(Plus, a, b) {
    }
    forall a: Amounts, b: Amounts, c: Amounts ensures Associates(Plus, a, b, c) {
    }
  }

  // ---- the period ----

  datatype Window = Window(start: Option<int>, end: Option<int>)

  predicate Within(w: Window, t: int) {
    (w.start.Some? ==> w.start.value <= t) && (w.end.Some? ==> t <= w.end.value)
  }

  function Obligations(db: seq<Obligation>, w: Window, referral: Option<ReferralId>, rule: Option<RuleType>): seq<Obligation> {
    if db == [] then []
    else
      var o := db[|db| - 1];
      Obligations(db[..|db| - 1], w, referral, rule)
      + if Within(w, o.createdAt) && (referral.Some? ==> o.referral == referral.value) && (rule.Some? ==> o.ruleType == rule.value)
        then [o] else []
  }

  /** Adjustments count when they were executed; they are filtered by referral, not by rule type. */
  function Adjustments(db: seq<Adjustment>, w: Window, referral: Option<ReferralId>): seq<Adjustment> {
    if db == [] then []
    else
      var a := db[|db| - 1];
      Adjustments(db[..|db| - 1], w, referral)
      + if a.executed && Within(w, a.executedAt) && (referral.Some? ==> a.referral == referral.value) then [a] else []
  }

  // ---- the summary ----

  function SumByStatus(obs: seq<Obligation>, status: Status): int {
    if obs == [] then 0
    else SumByStatus(obs[..|obs| - 1], status) + if obs[|obs| - 1].status == status then obs[|obs| - 1].amount else 0
  }

  function SumOfAdjustments(adjs: seq<Adjustment>): int {
    if adjs == [] then 0 else SumOfAdjustments(adjs[..|adjs| - 1]) + adjs[|adjs| - 1].amount
  }

  function Summarize(obs: seq<Obligation>, adjs: seq<Adjustment>): Amounts {
    Amounts(SumByStatus(obs, Pending), SumByStatus(obs, Approved), SumByStatus(obs, Credited), SumOfAdjustments(adjs))
  }

  function Summary(
    obligations: seq<Obligation>, adjustments: seq<Adjustment>, w: Window, referral: Option<ReferralId>, rule: Option<RuleType>)
    : Amounts
  {
    Summarize(Obligations(obligations, w, referral, rule), Adjustments(adjustments, w, referral))
  }

  // ---- the breakdowns ----

  datatype Grouping = ByReferral | ByRuleType | BySymbol

  datatype Key = Referral(id: ReferralId) | Text(text: string)

  const NOT_ATTRIBUTABLE := "NOT_ATTRIBUTABLE"

  predicate HasSymbol(rule: RuleType) {
    rule == "PER_LOT" || rule == "TRADING_COMMISSION_REVENUE_SHARE" || rule == "SPREAD_REVENUE_SHARE"
  }

  function ResolveSymbol(o: Obligation): Option<string> {
    if HasSymbol(o.ruleType) then o.symbol else None
  }

  function KeyOfObligation(g: Grouping, o: Obligation): Key {
    match g
    case ByReferral => Referral(o.referral)
    case ByRuleType => Text(o.ruleType)
    case BySymbol =>
      var s := ResolveSymbol(o);
      Text(if s.None? || s.value == "" then NOT_ATTRIBUTABLE else s.value)
  }

  function KeyOfAdjustment(g: Grouping, a: Adjustment): Key {
    if g.ByReferral? then Referral(a.referral) else KeyOfObligation(g, a.obligation)
  }

  function OfObligation(o: Obligation): Amounts {
    match o.status
    case Pending => NOTHING.(pending := o.amount)
    case Approved => NOTHING.(approved := o.amount)
    case Credited => NOTHING.(credited := o.amount)
    case OtherStatus => NOTHING
  }

  function OfAdjustment(a: Adjustment): Amounts {
    NOTHING.(adjusted := a.amount)
  }

  function Keys(g: Grouping, obs: seq<Obligation>, adjs: seq<Adjustment>): seq<Key> {
    KeysOfObligations(g, obs) + KeysOfAdjustments(g, adjs)
  }

  function KeysOfObligations(g: Grouping, obs: seq<Obligation>): seq<Key> {
    seq(|obs|, i requires 0 <= i < |obs| => KeyOfObligation(g, obs[i]))
  }

  function KeysOfAdjustments(g: Grouping, adjs: seq<Adjustment>): seq<Key> {
    seq(|adjs|, i requires 0 <= i < |adjs| => KeyOfAdjustment(g, adjs[i]))
  }

  function AmountsOfObligations(obs: seq<Obligation>): seq<Amounts> {
    seq(|obs|, i requires 0 <= i < |obs| => OfObligation(obs[i]))
  }

  function AmountsOfAdjustments(adjs: seq<Adjustment>): seq<Amounts> {
    seq(|adjs|, i requires 0 <= i < |adjs| => OfAdjustment(adjs[i]))
  }

  /** The rows of a breakdown, before they are sorted: obligations first, then adjustments. */
  function Rows(g: Grouping, obs: seq<Obligation>, adjs: seq<Adjustment>): Groups<Key, Amounts> {
    Collect(Keys(g, obs, adjs), AmountsOfObligations(obs) + AmountsOfAdjustments(adjs), NOTHING, Plus)
  }

  // ---- totals are preserved ----

  lemma AmountsPrefix(obs: seq<Obligation>)
    requires obs != []
    ensures Sum(AmountsOfObligations(obs), NOTHING, Plus)
         == Plus(Sum(AmountsOfObligations(obs[..|obs| - 1]), NOTHING, Plus), OfObligation(obs[|obs| - 1]))
  {
    assert AmountsOfObligations(obs)[..|obs| - 1] == AmountsOfObligations(obs[..|obs| - 1]);
  }

  lemma SummaryPrefix(obs: seq<Obligation>)
    requires obs != []
    ensures Summarize(obs, []) == Plus(Summarize(obs[..|obs| - 1], []), OfObligation(obs[|obs| - 1]))
  {
  }

  lemma {:induction false} SumOfObligations(obs: seq<Obligation>)
    ensures Sum(AmountsOfObligations(obs), NOTHING, Plus) == Summarize(obs, [])
    decreases |obs|
  {
    if obs != [] {
      SumOfObligations(obs[..|obs| - 1]);
      AmountsPrefix(obs);
      SummaryPrefix(obs);
    }
  }

  lemma AdjustedPrefix(adjs: seq<Adjustment>)
    requires adjs != []
    ensures Sum(AmountsOfAdjustments(adjs), NOTHING, Plus)
         == Plus(Sum(AmountsOfAdjustments(adjs[..|adjs| - 1]), NOTHING, Plus), OfAdjustment(adjs[|adjs| - 1]))
  {
    assert AmountsOfAdjustments(adjs)[..|adjs| - 1] == AmountsOfAdjustments(adjs[..|adjs| - 1]);
  }

  lemma {:induction false} SumOfAdjusted(adjs: seq<Adjustment>)
    ensures Sum(AmountsOfAdjustments(adjs), NOTHING, Plus) == Summarize([], adjs)
    decreases |adjs|
  {
    if adjs != [] {
      SumOfAdjusted(adjs[..|adjs| - 1]);
      AdjustedPrefix(adjs);
    }
  }

  /** Whatever the grouping, the rows of a breakdown sum to the ungrouped summary, in every column. */
  lemma GroupingKeepsTotals(g: Grouping, obs: seq<Obligation>, adjs: seq<Adjustment>)
    ensures var rows := Rows(g, obs, adjs);
            Proper(rows) && Total(rows, |rows.keys|, NOTHING, Plus) == Summarize(obs, adjs)
  {
    AmountsAreMonoid();
    var os, as_ := AmountsOfObligations(obs), AmountsOfAdjustments(adjs);
    CollectKeepsSum(Keys(g, obs, adjs), os + as_, NOTHING, Plus);
    SumAppend(os, as_, NOTHING, Plus);
    SumOfObligations(obs);
    SumOfAdjusted(adjs);
  }

  // ---- a row against the filtered summary ----

  function RowOf(rows: Groups<Key, Amounts>, k: Key): Amounts {
    if k in rows.at then rows.at[k] else NOTHING
  }

  function ObligationsUnder(g: Grouping, obs: seq<Obligation>, k: Key): seq<Obligation> {
    if obs == [] then []
    else ObligationsUnder(g, obs[..|obs| - 1], k) + if KeyOfObligation(g, obs[|obs| - 1]) == k then [obs[|obs| - 1]] else []
  }

  function AdjustmentsUnder(g: Grouping, adjs: seq<Adjustment>, k: Key): seq<Adjustment> {
    if adjs == [] then []
    else AdjustmentsUnder(g, adjs[..|adjs| - 1], k) + if KeyOfAdjustment(g, adjs[|adjs| - 1]) == k then [adjs[|adjs| - 1]] else []
  }

  lemma {:induction false} ValuesOfObligations(g: Grouping, obs: seq<Obligation>, k: Key)
    ensures ValuesOf(KeysOfObligations(g, obs), AmountsOfObligations(obs), k) == AmountsOfObligations(ObligationsUnder(g, obs, k))
    decreases |obs|
  {
    if obs != [] {
      var n := |obs| - 1;
      assert KeysOfObligations(g, obs)[..n] == KeysOfObligations(g, obs[..n]);
      assert AmountsOfObligations(obs)[..n] == AmountsOfObligations(obs[..n]);
      ValuesOfObligations(g, obs[..n], k);
    }
  }

  lemma {:induction false} ValuesOfAdjustments(g: Grouping, adjs: seq<Adjustment>, k: Key)
    ensures ValuesOf(KeysOfAdjustments(g, adjs), AmountsOfAdjustments(adjs), k) == AmountsOfAdjustments(AdjustmentsUnder(g, adjs, k))
    decreases |adjs|
  {
    if adjs != [] {
      var n := |adjs| - 1;
      assert KeysOfAdjustments(g, adjs)[..n] == KeysOfAdjustments(g, adjs[..n]);
      assert AmountsOfAdjustments(adjs)[..n] == AmountsOfAdjustments(adjs[..n]);
      ValuesOfAdjustments(g, adjs[..n], k);
    }
  }

  /** A row sums exactly the obligations and adjustments that carry its key. */
  lemma RowIsItsMembers(g: Grouping, obs: seq<Obligation>, adjs: seq<Adjustment>, k: Key)
    ensures RowOf(Rows(g, obs, adjs), k) == Summarize(ObligationsUnder(g, obs, k), AdjustmentsUnder(g, adjs, k))
  {
    AmountsAreMonoid();
    var os, as_ := AmountsOfObligations(obs), AmountsOfAdjustments(adjs);
    GroupIsSumOfItsValues(Keys(g, obs, adjs), os + as_, k, NOTHING, Plus);
    ValuesOfAppend(KeysOfObligations(g, obs), os, KeysOfAdjustments(g, adjs), as_, k);
    ValuesOfObligations(g, obs, k);
    ValuesOfAdjustments(g, adjs, k);
    var under, adjusted := ObligationsUnder(g, obs, k), AdjustmentsUnder(g, adjs, k);
    SumAppend(AmountsOfObligations(under), AmountsOfAdjustments(adjusted), NOTHING, Plus);
    SumOfObligations(under);
    SumOfAdjusted(adjusted);
  }

  lemma {:induction false} UnderReferral(db: seq<Obligation>, w: Window, id: ReferralId)
    ensures ObligationsUnder(ByReferral, Obligations(db, w, None, None), Referral(id)) == Obligations(db, w, Some(id), None)
    decreases |db|
  {
    if db != [] {
      var rest, o := Obligations(db[..|db| - 1], w, None, None), db[|db| - 1];
      UnderReferral(db[..|db| - 1], w, id);
      assert (rest + [o])[..|rest|] == rest;
      assert rest + [] == rest;
    }
  }

  lemma {:induction false} AdjustedUnderReferral(db: seq<Adjustment>, w: Window, id: ReferralId)
    ensures AdjustmentsUnder(ByReferral, Adjustments(db, w, None), Referral(id)) == Adjustments(db, w, Some(id))
    decreases |db|
  {
    if db != [] {
      var rest, a := Adjustments(db[..|db| - 1], w, None), db[|db| - 1];
      AdjustedUnderReferral(db[..|db| - 1], w, id);
      assert (rest + [a])[..|rest|] == rest;
      assert rest + [] == rest;
    }
  }

  lemma {:induction false} UnderRuleType(db: seq<Obligation>, w: Window, rule: RuleType)
    ensures ObligationsUnder(ByRuleType, Obligations(db, w, None, None), Text(rule)) == Obligations(db, w, None, Some(rule))
    decreases |db|
  {
    if db != [] {
      var rest, o := Obligations(db[..|db| - 1], w, None, None), db[|db| - 1];
      UnderRuleType(db[..|db| - 1], w, rule);
      assert (rest + [o])[..|rest|] == rest;
      assert rest + [] == rest;
    }
  }

  /** A referral's row is the summary asked for that referral. */
  lemma ReferralRowIsSummary(obligations: seq<Obligation>, adjustments: seq<Adjustment>, w: Window, id: ReferralId)
    ensures RowOf(Rows(ByReferral, Obligations(obligations, w, None, None), Adjustments(adjustments, w, None)), Referral(id))
         == Summary(obligations, adjustments, w, Some(id), None)
  {
    RowIsItsMembers(ByReferral, Obligations(obligations, w, None, None), Adjustments(adjustments, w, None), Referral(id));
    UnderReferral(obligations, w, id);
    AdjustedUnderReferral(adjustments, w, id);
  }

  /** A rule type's row is the summary asked for that rule type exactly if the adjustments of all
      other rule types cancel out: the summary does not filter adjustments by rule type. */
  lemma RuleTypeRowIsSummaryIff(obligations: seq<Obligation>, adjustments: seq<Adjustment>, w: Window, rule: RuleType)
    ensures var row := RowOf(Rows(ByRuleType, Obligations(obligations, w, None, None), Adjustments(adjustments, w, None)), Text(rule));
            var asked := Summary(obligations, adjustments, w, None, Some(rule));
            && (row.pending, row.approved, row.credited) == (asked.pending, asked.approved, asked.credited)
            && asked.adjusted == SumOfAdjustments(Adjustments(adjustments, w, None))
            && (row == asked <==> OtherAdjusted(Adjustments(adjustments, w, None), rule) == 0)
  {
    var adjs := Adjustments(adjustments, w, None);
    RowIsItsMembers(ByRuleType, Obligations(obligations, w, None, None), adjs, Text(rule));
    UnderRuleType(obligations, w, rule);
    AdjustedSplits(adjs, rule);
  }

  /** The executed amounts of the adjustments that belong to other rule types. */
  function OtherAdjusted(adjs: seq<Adjustment>, rule: RuleType): int {
    if adjs == [] then 0
    else OtherAdjusted(adjs[..|adjs| - 1], rule)
         + if adjs[|adjs| - 1].obligation.ruleType != rule then adjs[|adjs| - 1].amount else 0
  }

  lemma {:induction false} AdjustedSplits(adjs: seq<Adjustment>, rule: RuleType)
    ensures SumOfAdjustments(adjs) == SumOfAdjustments(AdjustmentsUnder(ByRuleType, adjs, Text(rule))) + OtherAdjusted(adjs, rule)
    decreases |adjs|
  {
    if adjs != [] {
      var n := |adjs| - 1;
      AdjustedSplits(adjs[..n], rule);
      var under := AdjustmentsUnder(ByRuleType, adjs[..n], Text(rule));
      assert (under + [adjs[n]])[..|under|] == under;
      assert under + [] == under;
    }
  }

  /** One executed adjustment of another rule type is enough to part row and summary. */
  lemma RuleTypeRowDiffers(a: Adjustment, w: Window, rule: RuleType)
    requires a.executed && Within(w, a.executedAt) && a.amount != 0 && a.obligation.ruleType != rule
    ensures RowOf(Rows(ByRuleType, Obligations([], w, None, None), Adjustments([a], w, None)), Text(rule)).adjusted == 0
    ensures Summary([], [a], w, None, Some(rule)).adjusted == a.amount
  {
    assert [a][..0] == [];
    assert Adjustments([a], w, None) == Adjustments([], w, None) + [a] == [a];
    RuleTypeRowIsSummaryIff([], [a], w, rule);
    RowIsItsMembers(ByRuleType, Obligations([], w, None, None), [a], Text(rule));
    assert AdjustmentsUnder(ByRuleType, [a], Text(rule)) == AdjustmentsUnder(ByRuleType, [a][..0], Text(rule)) + [] == [];
    assert SumOfAdjustments([a]) == SumOfAdjustments([a][..0]) + a.amount == a.amount;
  }

  // ---- the rows as returned ----

  datatype GroupRow = GroupRow(key: string, amounts: Amounts, netPaid: int)

  function Decimal(n: nat): string {
    if n < 10 then [('0' as int + n) as char] else Decimal(n / 10) + [('0' as int + n % 10) as char]
  }

  function KeyText(k: Key): string {
    match k
    case Referral(id) => Decimal(id)
    case Text(text) => text
  }

  predicate Before(a: string, b: string) {
    if b == [] then false
    else if a == [] then true
    else a[0] < b[0] || (a[0] == b[0] && Before(a[1..], b[1..]))
  }

  function ToRows(g: Groups<Key, Amounts>, n: nat): seq<GroupRow>
    requires Proper(g) && n <= |g.keys|
  {
    if n == 0 then []
    else
      var k := g.keys[n - 1];
      ToRows(g, n - 1) + [GroupRow(KeyText(k), g.at[k], NetPaid(g.at[k]))]
  }

  function InsertRow(r: GroupRow, rows: seq<GroupRow>): seq<GroupRow> {
    if rows == [] || !Before(rows[0].key, r.key) then [r] + rows else [rows[0]] + InsertRow(r, rows[1..])
  }

  function SortRows(rows: seq<GroupRow>): seq<GroupRow> {
    if rows == [] then [] else InsertRow(rows[0], SortRows(rows[1..]))
  }

  function SumRows(rows: seq<GroupRow>): Amounts {
    if rows == [] then NOTHING else Plus(rows[0].amounts, SumRows(rows[1..]))
  }

  function SumNetPaid(rows: seq<GroupRow>): int {
    if rows == [] then 0 else rows[0].netPaid + SumNetPaid(rows[1..])
  }

  lemma {:induction false} InsertKeepsSums(r: GroupRow, rows: seq<GroupRow>)
    ensures SumRows(InsertRow(r, rows)) == Plus(r.amounts, SumRows(rows))
    ensures SumNetPaid(InsertRow(r, rows)) == r.netPaid + SumNetPaid(rows)
    decreases |rows|
  {
    if rows == [] || !Before(rows[0].key, r.key) {
      assert ([r] + rows)[1..] == rows;
    } else {
      InsertKeepsSums(r, rows[1..]);
      assert ([rows[0]] + InsertRow(r, rows[1..]))[1..] == InsertRow(r, rows[1..]);
    }
  }

  lemma {:induction false} SortKeepsSums(rows: seq<GroupRow>)
    ensures SumRows(SortRows(rows)) == SumRows(rows) && SumNetPaid(SortRows(rows)) == SumNetPaid(rows)
    decreases |rows|
  {
    if rows != [] {
      SortKeepsSums(rows[1..]);
      InsertKeepsSums(rows[0], SortRows(rows[1..]));
    }
  }

  lemma {:induction false} SumsAppend(rows: seq<GroupRow>, r: GroupRow)
    ensures SumRows(rows + [r]) == Plus(SumRows(rows), r.amounts) && SumNetPaid(rows + [r]) == SumNetPaid(rows) + r.netPaid
    decreases |rows|
  {
    if rows == [] {
      assert rows + [r] == [r] && [r][1..] == [];
    } else {
      assert (rows + [r])[1..] == rows[1..] + [r];
      SumsAppend(rows[1..], r);
    }
  }

  /** The first `n` rows sum to the first `n` groups, net paid included. */
  ghost predicate RowsSum(g: Groups<Key, Amounts>, n: nat)
    requires Proper(g) && n <= |g.keys|
  {
    var total := Total(g, n, NOTHING, Plus);
    SumRows(ToRows(g, n)) == total && SumNetPaid(ToRows(g, n)) == total.credited - total.adjusted
  }

  lemma NoRows(g: Groups<Key, Amounts>)
    requires Proper(g)
    ensures RowsSum(g, 0)
  {
  }

  lemma NextRow(g: Groups<Key, Amounts>, n: nat)
    requires Proper(g) && 0 < n <= |g.keys| && RowsSum(g, n - 1)
    ensures RowsSum(g, n)
  {
    AddRow(ToRows(g, n - 1), Total(g, n - 1, NOTHING, Plus), KeyText(g.keys[n - 1]), g.at[g.keys[n - 1]]);
  }

  lemma {:induction false} ToRowsSums(g: Groups<Key, Amounts>, n: nat)
    requires Proper(g) && n <= |g.keys|
    ensures RowsSum(g, n)
    decreases n
  {
    if n == 0 {
      NoRows(g);
    } else {
      ToRowsSums(g, n - 1);
      NextRow(g, n);
    }
  }

  lemma AddRow(rows: seq<GroupRow>, total: Amounts, key: string, a: Amounts)
    requires SumRows(rows) == total && SumNetPaid(rows) == NetPaid(total)
    ensures var all := rows + [GroupRow(key, a, NetPaid(a))];
            SumRows(all) == Plus(total, a) && SumNetPaid(all) == NetPaid(Plus(total, a))
  {
    SumsAppend(rows, GroupRow(key, a, NetPaid(a)));
  }

  // ---- the breakdown functions ----

  /** One obligation into its row, which is made if it is not there. */
  method Accumulate(rows: Groups<Key, Amounts>, k: Key, o: Obligation) returns (r: Groups<Key, Amounts>)
    ensures r == Put(rows, k, OfObligation(o), NOTHING, Plus)
  {
    var row := if k in rows.at then rows.at[k] else NOTHING;
    r := if k in rows.at then rows else Groups(rows.keys + [k], rows.at);
    match o.status {
      case Pending => row := row.(pending := row.pending + o.amount);
      case Approved => row := row.(approved := row.approved + o.amount);
      case Credited => row := row.(credited := row.credited + o.amount);
      case OtherStatus =>
    }
    r := Groups(r.keys, r.at[k := row]);
  }

  lemma ObligationAppend(g: Grouping, obs: seq<Obligation>, o: Obligation)
    ensures Rows(g, obs + [o], []) == Put(Rows(g, obs, []), KeyOfObligation(g, o), OfObligation(o), NOTHING, Plus)
  {
    var ks, vs := KeysOfObligations(g, obs), AmountsOfObligations(obs);
    CollectAppend(ks, vs, KeyOfObligation(g, o), OfObligation(o), NOTHING, Plus);
    assert Keys(g, obs, []) == ks && vs + AmountsOfAdjustments([]) == vs;
    assert Keys(g, obs + [o], []) == ks + [KeyOfObligation(g, o)];
    assert AmountsOfObligations(obs + [o]) + AmountsOfAdjustments([]) == vs + [OfObligation(o)];
  }

  lemma AdjustmentAppend(g: Grouping, obs: seq<Obligation>, adjs: seq<Adjustment>, a: Adjustment)
    ensures Rows(g, obs, adjs + [a]) == Put(Rows(g, obs, adjs), KeyOfAdjustment(g, a), OfAdjustment(a), NOTHING, Plus)
  {
    var ks, vs := Keys(g, obs, adjs), AmountsOfObligations(obs) + AmountsOfAdjustments(adjs);
    CollectAppend(ks, vs, KeyOfAdjustment(g, a), OfAdjustment(a), NOTHING, Plus);
    assert Keys(g, obs, adjs + [a]) == ks + [KeyOfAdjustment(g, a)];
    assert AmountsOfObligations(obs) + AmountsOfAdjustments(adjs + [a]) == vs + [OfAdjustment(a)];
  }

  method GroupObligations(g: Grouping, obs: seq<Obligation>) returns (rows: Groups<Key, Amounts>)
    ensures rows == Rows(g, obs, [])
  {
    rows := Empty();
    ghost var done: seq<Obligation> := [];
    for i := 0 to |obs|
      invariant done == obs[..i] && rows == Rows(g, done, [])
    {
      ObligationAppend(g, done, obs[i]);
      rows := Accumulate(rows, KeyOfObligation(g, obs[i]), obs[i]);
      done := done + [obs[i]];
    }
    assert done == obs;
  }

  /** One adjustment into its row, which is made if it is not there. */
  method Adjust(rows: Groups<Key, Amounts>, k: Key, a: Adjustment) returns (r: Groups<Key, Amounts>)
    ensures r == Put(rows, k, OfAdjustment(a), NOTHING, Plus)
  {
    if k in rows.at {
      r := Groups(rows.keys, rows.at[k := rows.at[k].(adjusted := rows.at[k].adjusted + a.amount)]);
    } else {
      r := Groups(rows.keys + [k], rows.at[k := NOTHING.(adjusted := a.amount)]);
    }
  }

  method GroupAdjustments(g: Grouping, ghost obs: seq<Obligation>, adjs: seq<Adjustment>, start: Groups<Key, Amounts>)
    returns (rows: Groups<Key, Amounts>)
    requires start == Rows(g, obs, [])
    ensures rows == Rows(g, obs, adjs)
  {
    rows := start;
    ghost var done: seq<Adjustment> := [];
    for i := 0 to |adjs|
      invariant done == adjs[..i] && rows == Rows(g, obs, done)
    {
      AdjustmentAppend(g, obs, done, adjs[i]);
      rows := Adjust(rows, KeyOfAdjustment(g, adjs[i]), adjs[i]);
      done := done + [adjs[i]];
    }
    assert done == adjs;
  }

  /** The breakdown over a period: the returned rows sum to the ungrouped summary in every column. */
  method Breakdown(g: Grouping, obligations: seq<Obligation>, adjustments: seq<Adjustment>, w: Window)
    returns (rows: seq<GroupRow>)
    ensures var groups := Rows(g, Obligations(obligations, w, None, None), Adjustments(adjustments, w, None));
            Proper(groups) && rows == SortRows(ToRows(groups, |groups.keys|))
    ensures SumRows(rows) == Summary(obligations, adjustments, w, None, None)
    ensures SumNetPaid(rows) == NetPaid(Summary(obligations, adjustments, w, None, None))
  {
    var obs, adjs := Obligations(obligations, w, None, None), Adjustments(adjustments, w, None);
    var groups := GroupObligations(g, obs);
    groups := GroupAdjustments(g, obs, adjs, groups);
    GroupingKeepsTotals(g, obs, adjs);
    ToRowsSums(groups, |groups.keys|);
    SortKeepsSums(ToRows(groups, |groups.keys|));
    rows := SortRows(ToRows(groups, |groups.keys|));
  }
}
