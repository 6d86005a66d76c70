/** Concurrent callers of the adjustment writer. Each call is a transaction of up to three steps:
    the pre-check, locking and checking the row to reverse, and inserting and committing. */
module AdjustmentCalls {
  import opened Common
  import opened Adjustments

  type CallId = nat

  datatype Stage = Checking | WaitingForTarget | Inserting | Over(outcome: Option<Outcome>)

  datatype Call = Call(request: Request, stage: Stage)

  datatype State = State(book: Book, calls: map<CallId, Call>, locks: map<AdjustmentId, CallId>)

  datatype Action =
    | Begins(c: CallId, q: Request)
    | Prechecks(c: CallId)
    | LocksTarget(c: CallId)
    | Inserts(c: CallId)
    | Fails(c: CallId)

  predicate At(st: State, c: CallId, stage: Stage) {
    c in st.calls && st.calls[c].stage == stage
  }

  /** The row the call reverses, if it has one. */
  function Target(st: State, c: CallId): Option<AdjustmentId>
    requires c in st.calls
  {
    st.calls[c].request.reverses
  }

  predicate Enabled(st: State, a: Action) {
    match a
    case Begins(c, _) => c !in st.calls
    case Prechecks(c) => At(st, c, Checking)
    case LocksTarget(c) => At(st, c, WaitingForTarget) && Target(st, c).Some? && Target(st, c).value !in st.locks
    case Inserts(c) => At(st, c, Inserting)
    case Fails(c) => c in st.calls && !st.calls[c].stage.Over?
  }

  function Move(st: State, c: CallId, stage: Stage): State
    requires c in st.calls
  {
    st.(calls := st.calls[c := st.calls[c].(stage := stage)])
  }

  function Unlock(st: State, c: CallId): map<AdjustmentId, CallId> {
    map t | t in st.locks && st.locks[t] != c :: st.locks[t]
  }

  function Apply(st: State, a: Action): State
    requires Enabled(st, a)
  {
    match a
    case Begins(c, q) =>
      var stage := if Validate(q).Some? then Over(Some(Rejected(Validate(q).value))) else Checking;
      st.(calls := st.calls[c := Call(q, stage)])
    case Prechecks(c) =>
      var q := st.calls[c].request;
      if Precheck(st.book, q).Some? then Move(st, c, Over(Precheck(st.book, q)))
      else Move(st, c, if q.reverses.Some? then WaitingForTarget else Inserting)
    case LocksTarget(c) =>
      var q := st.calls[c].request;
      if q.amount.None? then Move(st, c, Over(None))
      else if CheckTarget(st.book, q).Some? then Move(st, c, Over(Some(Rejected(CheckTarget(st.book, q).value))))
      else Move(st, c, Inserting).(locks := st.locks[q.reverses.value := c])
    case Inserts(c) =>
      var q := st.calls[c].request;
      if q.amount.None? || q.actor.None? then Move(st, c, Over(None))
      else
        var (book, outcome) := Insert(st.book, q);
        Move(st, c, Over(Some(outcome))).(book := book, locks := Unlock(st, c))
    case Fails(c) => Move(st, c, Over(None)).(locks := Unlock(st, c))
  }

  function Init(others: set<LedgerId>): State {
    State(Book([], [], others), map[], map[])
  }

  // ---- the invariant ----

  ghost predicate BookHolds(b: Book) {
    Inv(b) && Total(b.ledger) == Standing(b.rows, |b.rows|)
  }

  /** A call that has come past its checks still satisfies them, and holds the lock on its target. */
  predicate CallHolds(st: State, c: CallId)
    requires c in st.calls
  {
    var q := st.calls[c].request;
    match st.calls[c].stage
    case Checking => Validate(q).None?
    case WaitingForTarget => Validate(q).None? && q.reverses.Some?
    case Inserting =>
      Validate(q).None? && (q.reverses.Some? ==>
        CheckTarget(st.book, q).None? && q.reverses.value in st.locks && st.locks[q.reverses.value] == c)
    case Over(outcome) => outcome.Some? ==> OutcomeHolds(st.book, q, outcome.value)
  }

  /** What a call that ended well was told is true of the tables, and stays so. */
  predicate OutcomeHolds(b: Book, q: Request, outcome: Outcome) {
    match outcome
    case Created(id) =>
      id < |b.rows| && b.rows[id].key == q.key && Some(b.rows[id].amount) == q.amount && b.rows[id].reverses == q.reverses
    case Existing(id) => id < |b.rows| && b.rows[id].key == q.key
    case _ => true
  }

  ghost predicate CallsHold(st: State) {
    && (forall c <- st.calls :: CallHolds(st, c))
    && (forall t <- st.locks :: At(st, st.locks[t], Inserting) && Target(st, st.locks[t]) == Some(t))
  }

  ghost predicate Safe(st: State) {
    BookHolds(st.book) && CallsHold(st)
  }

  lemma CheckedStays(b: Book, q: Request, other: Request)
    requires q.amount.Some? && q.actor.Some? && other.amount.Some? && other.reverses.Some?
    requires CheckTarget(b, other).None? && q.reverses != other.reverses
    ensures CheckTarget(Insert(b, q).0, other).None?
  {
    var (next, outcome) := Insert(b, q);
    if outcome.Created? {
      ReversedAfter(b.rows, next.rows[|b.rows|], other.reverses.value);
    }
  }

  lemma InsertKeepsCalls(st: State, c: CallId)
    requires Safe(st) && Enabled(st, Inserts(c))
    ensures forall d <- Apply(st, Inserts(c)).calls :: CallHolds(Apply(st, Inserts(c)), d)
  {
    var next := Apply(st, Inserts(c));
    var q := st.calls[c].request;
    assert CallHolds(st, c);
    forall d | d in next.calls ensures CallHolds(next, d) {
      assert CallHolds(st, d);
      var other := st.calls[d].request;
      if d != c && st.calls[d].stage.Inserting? && other.reverses.Some? {
        CheckedStays(st.book, q, other);
      }
    }
  }

  lemma InsertKeepsLocks(st: State, c: CallId)
    requires Safe(st) && Enabled(st, Inserts(c))
    ensures var next := Apply(st, Inserts(c));
            forall t <- next.locks :: At(next, next.locks[t], Inserting) && Target(next, next.locks[t]) == Some(t)
  {
    assert CallHolds(st, c);
  }

  lemma InsertKeepsBook(st: State, c: CallId)
    requires Safe(st) && Enabled(st, Inserts(c))
    ensures BookHolds(Apply(st, Inserts(c)).book)
  {
    assert CallHolds(st, c);
    var q := st.calls[c].request;
    InsertKeepsInv(st.book, q);
    InsertMovesTotals(st.book, q);
  }

  lemma PrecheckKeepsCalls(st: State, c: CallId)
    requires Safe(st) && Enabled(st, Prechecks(c))
    ensures CallsHold(Apply(st, Prechecks(c)))
  {
    var next := Apply(st, Prechecks(c));
    assert CallHolds(st, c);
    forall d | d in next.calls ensures CallHolds(next, d) {
      assert CallHolds(st, d);
    }
  }

  lemma LockingKeepsCall(st: State, c: CallId, d: CallId)
    requires Enabled(st, LocksTarget(c)) && d in st.calls && CallHolds(st, c) && CallHolds(st, d)
    ensures CallHolds(Apply(st, LocksTarget(c)), d)
  {
  }

  lemma LockingKeepsLocks(st: State, c: CallId)
    requires CallsHold(st) && Enabled(st, LocksTarget(c))
    ensures var next := Apply(st, LocksTarget(c));
            forall t <- next.locks :: At(next, next.locks[t], Inserting) && Target(next, next.locks[t]) == Some(t)
  {
  }

  lemma LockingKeepsCalls(st: State, c: CallId)
    requires CallsHold(st) && Enabled(st, LocksTarget(c))
    ensures CallsHold(Apply(st, LocksTarget(c)))
  {
    assert CallHolds(st, c);
    forall d | d in st.calls ensures CallHolds(Apply(st, LocksTarget(c)), d) {
      LockingKeepsCall(st, c, d);
    }
    LockingKeepsLocks(st, c);
  }

  lemma OthersKeepCalls(st: State, a: Action)
    requires Safe(st) && Enabled(st, a) && (a.Begins? || a.Fails?)
    ensures CallsHold(Apply(st, a))
  {
    var next := Apply(st, a);
    forall d | d in next.calls ensures CallHolds(next, d) {
      assert d != a.c ==> CallHolds(st, d);
      assert d == a.c && !a.Begins? ==> CallHolds(st, d);
    }
  }

  lemma StepKeepsSafe(st: State, a: Action)
    requires Safe(st) && Enabled(st, a)
    ensures Safe(Apply(st, a))
    ensures st.book.rows <= Apply(st, a).book.rows && st.book.ledger <= Apply(st, a).book.ledger
  {
    if a.Inserts? {
      InsertKeepsCalls(st, a.c);
      InsertKeepsLocks(st, a.c);
      InsertKeepsBook(st, a.c);
    } else if a.Prechecks? {
      PrecheckKeepsCalls(st, a.c);
    } else if a.LocksTarget? {
      LockingKeepsCalls(st, a.c);
    } else {
      OthersKeepCalls(st, a);
    }
  }

  ghost predicate Reaches(st: State, acts: seq<Action>, end: State)
    decreases |acts|
  {
    if acts == [] then st == end
    else Enabled(st, acts[0]) && Reaches(Apply(st, acts[0]), acts[1..], end)
  }

  lemma {:induction false} RunKeepsSafe(st: State, acts: seq<Action>, end: State)
    requires Safe(st) && Reaches(st, acts, end)
    ensures Safe(end) && st.book.rows <= end.book.rows && st.book.ledger <= end.book.ledger
    decreases |acts|
  {
    if acts != [] {
      StepKeepsSafe(st, acts[0]);
      RunKeepsSafe(Apply(st, acts[0]), acts[1..], end);
    }
  }

  // ---- what holds after any interleaving of callers and retries ----

  /** One row per key; every row has its ledger entry of the same amount; what is reversed is an
      original, reversed once, by exactly its negative; and the ledger totals the originals that
      stand. */
  lemma TablesAreConsistent(others: set<LedgerId>, acts: seq<Action>, st: State, i: nat, j: nat)
    requires Reaches(Init(others), acts, st) && i < |st.book.rows| && j < |st.book.rows|
    ensures st.book.rows[i].key == st.book.rows[j].key ==> i == j
    ensures |st.book.ledger| == |st.book.rows| && st.book.ledger[i].amount == st.book.rows[i].amount
    ensures st.book.rows[i].reverses == Some(j) ==>
              st.book.rows[j].reverses.None? && st.book.rows[i].amount + st.book.rows[j].amount == 0
    ensures st.book.rows[i].reverses.Some? && st.book.rows[i].reverses == st.book.rows[j].reverses ==> i == j
    ensures Total(st.book.ledger) == Standing(st.book.rows, |st.book.rows|)
  {
    RunKeepsSafe(Init(others), acts, st);
    assert Genuine(st.book.rows, i);
  }

  /** The lock does its work: a reversal about to be inserted has a target nobody reversed, so
      the UNIQUE constraint on the target never fires; a conflict is always a rival for the key. */
  lemma OnlyKeysConflict(others: set<LedgerId>, acts: seq<Action>, st: State, c: CallId)
    requires Reaches(Init(others), acts, st) && At(st, c, Inserting)
    ensures var q := st.calls[c].request;
            && (q.reverses.Some? ==> !IsReversed(st.book.rows, q.reverses.value))
            && q.amount.Some? && q.actor.Some?
            && (Insert(st.book, q).1.Conflict? <==> WithKey(st.book.rows, q.key).Some?)
  {
    RunKeepsSafe(Init(others), acts, st);
    CheckedIsNotReversed(st, c);
  }

  lemma CheckedIsNotReversed(st: State, c: CallId)
    requires Safe(st) && At(st, c, Inserting)
    ensures var q := st.calls[c].request;
            Validate(q).None? && (q.reverses.Some? ==> !IsReversed(st.book.rows, q.reverses.value))
  {
    assert CallHolds(st, c);
  }

  /** Once a key is in the table, every later call with it changes nothing and, past validation,
      is handed the row that won. */
  lemma RetryFindsWinner(b: Book, q: Request, id: AdjustmentId)
    requires Inv(b) && id < |b.rows| && b.rows[id].key == q.key
    ensures Create(b, q).0 == b
    ensures Validate(q).None? ==> Create(b, q).1 == Existing(id)
  {
    var r := WithKey(b.rows, q.key);
    assert r.Some? && b.rows[r.value].key == b.rows[id].key;
  }

  /** Two calls that succeed with one key were handed the same row. */
  lemma SameKeySameRow(others: set<LedgerId>, acts: seq<Action>, st: State, c: CallId, d: CallId)
    requires Reaches(Init(others), acts, st) && c in st.calls && d in st.calls
    requires st.calls[c].request.key == st.calls[d].request.key
    requires Succeeded(st.calls[c].stage) && Succeeded(st.calls[d].stage)
    ensures IdOf(st.calls[c].stage) == IdOf(st.calls[d].stage)
  {
    RunKeepsSafe(Init(others), acts, st);
    assert CallHolds(st, c) && CallHolds(st, d);
  }

  predicate Succeeded(stage: Stage) {
    stage.Over? && stage.outcome.Some? && (stage.outcome.value.Created? || stage.outcome.value.Existing?)
  }

  function IdOf(stage: Stage): AdjustmentId
    requires Succeeded(stage)
  {
    stage.outcome.value.id
  }

  ghost predicate Reachable(st: State) {
    exists acts :: Reaches(Init({}), acts, st)
  }

  lemma {:induction false} ReachesOneMore(st: State, acts: seq<Action>, mid: State, a: Action)
    requires Reaches(st, acts, mid) && Enabled(mid, a)
    ensures Reaches(st, acts + [a], Apply(mid, a))
    decreases |acts|
  {
    if acts == [] {
      assert acts + [a] == [a];
    } else {
      assert (acts + [a])[1..] == acts[1..] + [a];
      ReachesOneMore(Apply(st, acts[0]), acts[1..], mid, a);
    }
  }

  lemma Take(st: State, a: Action) returns (next: State)
    requires Reachable(st) && Enabled(st, a)
    ensures next == Apply(st, a) && Reachable(next)
  {
    var acts :| Reaches(Init({}), acts, st);
    ReachesOneMore(Init({}), acts, st, a);
    next := Apply(st, a);
  }

  lemma BothPrecheck(q: Request) returns (st: State)
    requires Validate(q).None? && q.sourceLedger.None? && q.reverses.None?
    ensures Reachable(st) && st.book == Book([], [], {}) && 0 in st.calls && 1 in st.calls
    ensures st.calls[0] == Call(q, Inserting) && st.calls[1] == Call(q, Inserting)
  {
    st := Init({});
    assert Reaches(Init({}), [], st);
    st := Take(st, Begins(0, q));
    st := Take(st, Begins(1, q));
    st := Take(st, Prechecks(0));
    st := Take(st, Prechecks(1));
  }

  /** The key race does happen: both calls pass the pre-check, the second one's insert conflicts. */
  lemma KeyRaceHappens(q: Request) returns (st: State)
    requires Validate(q).None? && q.sourceLedger.None? && q.reverses.None?
    ensures Reachable(st) && |st.book.rows| == 1
    ensures At(st, 0, Over(Some(Created(0)))) && At(st, 1, Over(Some(Conflict)))
  {
    st := BothPrecheck(q);
    st := Take(st, Inserts(0));
    assert st.book.rows[0].key == q.key;
    st := Take(st, Inserts(1));
  }

  // ---- the writer ----

  /** A whole call keeps the tables consistent, whatever is asked. */
  lemma CreateKeepsBook(b: Book, q: Request)
    requires BookHolds(b)
    ensures BookHolds(Create(b, q).0)
  {
    if Insertable(b, q) {
      InsertKeepsInv(b, q);
      InsertMovesTotals(b, q);
    }
  }

  class AdjustmentTables {
    var rows: seq<Adjustment>
    var ledger: seq<Entry>
    var others: set<LedgerId>

    function View(): Book
      reads this
    {
      Book(rows, ledger, others)
    }

    constructor (others: set<LedgerId>)
      ensures View() == Init(others).book && BookHolds(View())
    {
      rows, ledger, this.others := [], [], others;
    }

    method CreateAdjustment(q: Request) returns (outcome: Outcome)
      requires BookHolds(View())
      modifies this
      ensures (View(), outcome) == Create(old(View()), q)
      ensures BookHolds(View())
    {
      CreateKeepsBook(View(), q);
      if q.amount.None? {
        return Rejected(BadAmount);
      }
      if q.amount.value == 0 {
        return Rejected(ZeroAmount);
      }
      if Blank(q.reason) {
        return Rejected(NoReason);
      }
      if q.actor.None? {
        return Rejected(NoActor);
      }
      if Blank(q.key) {
        return Rejected(NoKey);
      }
      var existing := WithKey(rows, q.key);
      if existing.Some? {
        return Existing(existing.value);
      }
      if q.sourceLedger.Some? && !(q.sourceLedger.value < |ledger|) && q.sourceLedger.value !in others {
        return Rejected(NoSourceLedger);
      }
      if q.reverses.Some? {
        var t := q.reverses.value;
        if !(t < |rows|) {
          return Rejected(NoTarget);
        }
        if rows[t].reverses.Some? {
          return Rejected(TargetIsReversal);
        }
        if IsReversed(rows, t) {
          return Rejected(AlreadyReversed);
        }
        if q.amount.value != -rows[t].amount {
          return Rejected(NotTheNegative);
        }
      }
      outcome := Created(|rows|);
      rows := rows + [Adjustment(q.amount.value, q.reason, q.actor.value, q.key, q.sourceLedger,
                                 q.account, q.symbol, q.reverses, |ledger|)];
      ledger := ledger + [Entry(q.amount.value, q.account, q.symbol)];
    }
  }
}
