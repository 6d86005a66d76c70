/** Reversible economic adjustments: every accepted request writes one ledger row and one
    adjustment row, in one transaction. Amounts are whole cents; both tables only grow. */
module Adjustments {
  import opened Common

  type Key = string
  type AdjustmentId = nat
  type LedgerId = nat
  type AccountId = nat

  datatype Request = Request(
    amount: Option<int>, // None when it is not a decimal
    reason: string, actor: Option<nat>, key: Key,
    sourceLedger: Option<LedgerId>, account: Option<AccountId>, symbol: string,
    reverses: Option<AdjustmentId>)

  datatype Adjustment = Adjustment(
    amount: int, reason: string, actor: nat, key: Key, sourceLedger: Option<LedgerId>,
    account: Option<AccountId>, symbol: string, reverses: Option<AdjustmentId>, ledger: LedgerId)

  datatype Entry = Entry(amount: int, account: Option<AccountId>, symbol: string)

  /** The two tables; a row's id is its position. `others` are ledger rows of other kinds. */
  datatype Book = Book(rows: seq<Adjustment>, ledger: seq<Entry>, others: set<LedgerId>)

  datatype Error =
    | BadAmount | ZeroAmount | NoReason | NoActor | NoKey
    | NoSourceLedger | NoTarget | TargetIsReversal | AlreadyReversed | NotTheNegative

  datatype Outcome =
    | Created(id: AdjustmentId)
    | Existing(id: AdjustmentId)
    | Rejected(error: Error)
    | Conflict // a UNIQUE constraint, the transaction is rolled back

  predicate IsSpace(c: char) { c == ' ' || ('\t' <= c <= '\r') }

  predicate Blank(s: string) { forall c <- s :: IsSpace(c) }

  function Validate(q: Request): Option<Error> {
    if q.amount.None? then Some(BadAmount)
    else if q.amount.value == 0 then Some(ZeroAmount)
    else if Blank(q.reason) then Some(NoReason)
    else if q.actor.None? then Some(NoActor)
    else if Blank(q.key) then Some(NoKey)
    else None
  }

  function WithKey(rows: seq<Adjustment>, key: Key): (r: Option<AdjustmentId>)
    ensures r.Some? ==> r.value < |rows| && rows[r.value].key == key
    ensures r.None? ==> forall i :: 0 <= i < |rows| ==> rows[i].key != key
  {
    if rows == [] then None
    else
      var n := |rows| - 1;
      var r := WithKey(rows[..n], key);
      if r.Some? then r else if rows[n].key == key then Some(n) else None
  }

  predicate IsReversed(rows: seq<Adjustment>, id: AdjustmentId) {
    exists i :: 0 <= i < |rows| && rows[i].reverses == Some(id)
  }

  /** The pre-check of a transaction: an outcome that ends it, or none. */
  function Precheck(b: Book, q: Request): Option<Outcome> {
    var existing := WithKey(b.rows, q.key);
    if existing.Some? then Some(Existing(existing.value))
    else if q.sourceLedger.Some? && !(q.sourceLedger.value < |b.ledger|) && q.sourceLedger.value !in b.others
    then Some(Rejected(NoSourceLedger))
    else None
  }

  /** The checks on the locked target of a reversal. */
  function CheckTarget(b: Book, q: Request): Option<Error>
    requires q.amount.Some? && q.reverses.Some?
  {
    var t := q.reverses.value;
    if !(t < |b.rows|) then Some(NoTarget)
    else if b.rows[t].reverses.Some? then Some(TargetIsReversal)
    else if IsReversed(b.rows, t) then Some(AlreadyReversed)
    else if q.amount.value != -b.rows[t].amount then Some(NotTheNegative)
    else None
  }

  /** Inserting both rows and committing; the UNIQUE constraints are on the key and on the target. */
  function Insert(b: Book, q: Request): (Book, Outcome)
    requires q.amount.Some? && q.actor.Some?
  {
    if WithKey(b.rows, q.key).Some? || (q.reverses.Some? && IsReversed(b.rows, q.reverses.value)) then (b, Conflict)
    else
      var entry := Entry(q.amount.value, q.account, q.symbol);
      var row := Adjustment(q.amount.value, q.reason, q.actor.value, q.key, q.sourceLedger,
                            q.account, q.symbol, q.reverses, |b.ledger|);
      (b.(rows := b.rows + [row], ledger := b.ledger + [entry]), Created(|b.rows|))
  }

  /** A whole call that no other call interleaves with. */
  function Create(b: Book, q: Request): (Book, Outcome) {
    if Validate(q).Some? then (b, Rejected(Validate(q).value))
    else if Precheck(b, q).Some? then (b, Precheck(b, q).value)
    else if q.reverses.Some? && CheckTarget(b, q).Some? then (b, Rejected(CheckTarget(b, q).value))
    else Insert(b, q)
  }

  // ---- what holds of the tables ----

  predicate Genuine(rows: seq<Adjustment>, i: nat)
    requires i < |rows|
  {
    var r := rows[i];
    r.reverses.Some? ==>
      r.reverses.value < i && rows[r.reverses.value].reverses.None? && r.amount == -rows[r.reverses.value].amount
  }

  ghost predicate Inv(b: Book) {
    && |b.ledger| == |b.rows|
    && (forall i :: 0 <= i < |b.rows| ==> b.rows[i].ledger == i && b.ledger[i].amount == b.rows[i].amount)
    && (forall i, j :: 0 <= i < j < |b.rows| ==> b.rows[i].key != b.rows[j].key)
    && (forall i, j :: 0 <= i < j < |b.rows| && b.rows[i].reverses.Some? ==> b.rows[i].reverses != b.rows[j].reverses)
    && (forall i :: 0 <= i < |b.rows| ==> Genuine(b.rows, i))
  }

  function Total(ledger: seq<Entry>): int {
    if ledger == [] then 0 else Total(ledger[..|ledger| - 1]) + ledger[|ledger| - 1].amount
  }

  /** The originals among the first `n` rows that no row reverses. */
  function Standing(rows: seq<Adjustment>, n: nat): int
    requires n <= |rows|
  {
    if n == 0 then 0
    else Standing(rows, n - 1)
         + if rows[n - 1].reverses.None? && !IsReversed(rows, n - 1) then rows[n - 1].amount else 0
  }

  /** Appending a row takes its target, and only that, out of the standing originals. */
  lemma {:induction false} StandingAfter(rows: seq<Adjustment>, row: Adjustment, n: nat)
    requires n <= |rows|
    requires row.reverses.Some? ==> row.reverses.value < |rows| && rows[row.reverses.value].reverses.None?
                                    && !IsReversed(rows, row.reverses.value)
    ensures Standing(rows + [row], n)
         == Standing(rows, n) - if row.reverses.Some? && row.reverses.value < n then rows[row.reverses.value].amount else 0
    decreases n
  {
    if n > 0 {
      StandingAfter(rows, row, n - 1);
      ReversedAfter(rows, row, n - 1);
    }
  }

  lemma ReversedAfter(rows: seq<Adjustment>, row: Adjustment, id: AdjustmentId)
    ensures IsReversed(rows + [row], id) <==> IsReversed(rows, id) || row.reverses == Some(id)
  {
    var all := rows + [row];
    if IsReversed(rows, id) {
      var i :| 0 <= i < |rows| && rows[i].reverses == Some(id);
      assert all[i].reverses == Some(id);
    }
    if row.reverses == Some(id) {
      assert all[|rows|].reverses == Some(id);
    }
  }

  /** A request that may be inserted: an original, or the exact reversal of a standing original. */
  predicate Insertable(b: Book, q: Request) {
    q.amount.Some? && q.actor.Some? && (q.reverses.Some? ==> CheckTarget(b, q).None?)
  }

  lemma InsertKeepsInv(b: Book, q: Request)
    requires Inv(b) && Insertable(b, q)
    ensures Inv(Insert(b, q).0)
  {
    var next := Insert(b, q).0;
    forall i | 0 <= i < |next.rows| ensures Genuine(next.rows, i) {
      if i < |b.rows| {
        assert Genuine(b.rows, i);
      }
    }
  }

  lemma InsertMovesTotals(b: Book, q: Request)
    requires Inv(b) && Insertable(b, q) && Total(b.ledger) == Standing(b.rows, |b.rows|)
    ensures Total(Insert(b, q).0.ledger) == Standing(Insert(b, q).0.rows, |Insert(b, q).0.rows|)
  {
    var (next, outcome) := Insert(b, q);
    if outcome.Created? {
      var row := next.rows[|b.rows|];
      assert next.ledger[..|b.ledger|] == b.ledger;
      StandingAfter(b.rows, row, |b.rows|);
      ReversedAfter(b.rows, row, |b.rows|);
      forall i | 0 <= i < |b.rows| ensures b.rows[i].reverses != Some(|b.rows| as nat) {
        assert Genuine(b.rows, i);
      }
    }
  }
}
