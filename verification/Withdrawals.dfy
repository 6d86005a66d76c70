/** Withdrawal requests between several admins: first approval, second approval as the gate to
    submission, submission, and rejection with refund. Amounts are whole cents. What the payout
    provider makes of a submitted request is left open; a failed payout is refunded there. */
module Withdrawals {
  import opened Common

  type RequestId = nat
  type WalletId = nat
  type AdminId = nat
  type CallId = nat

  datatype Status = Pending | Processing | Rejected | PayoutFailed | Completed

  datatype Withdrawal = Withdrawal(
    wallet: WalletId, amount: int, required: int, status: Status, first: Option<AdminId>, second: Option<AdminId>)

  /** A wallet transaction caused by a withdrawal request. */
  datatype Tx = Debit(request: RequestId, wallet: WalletId, amount: int) | Refund(request: RequestId, wallet: WalletId, amount: int)

  // ---- the decisions taken under a request's lock ----

  datatype Verdict = Passed | NotPending | NeedsFirst | SameAdmin

  /** The second-approval gate. */
  function Gate(w: Withdrawal, actor: AdminId): (Verdict, Withdrawal) {
    if !w.status.Pending? then (NotPending, w)
    else if w.required <= 1 then (Passed, w)
    else if w.first.None? then (NeedsFirst, w)
    else if w.first.value == actor then (SameAdmin, w)
    else (Passed, if w.second.None? then w.(second := Some(actor)) else w)
  }

  datatype Approval = Done | Skipped | NoLongerPending

  function FirstApprove(w: Withdrawal, actor: AdminId): (Approval, Withdrawal) {
    if !w.status.Pending? then (NoLongerPending, w)
    else if w.required <= 1 || w.first.Some? then (Skipped, w)
    else (Done, w.(first := Some(actor)))
  }

  /** What any number of recorded approvals keeps: a second one comes from another admin. */
  predicate Approved(w: Withdrawal) {
    w.second.Some? ==> w.first.Some? && w.first != w.second
  }

  predicate TwoApprovers(w: Withdrawal) {
    w.first.Some? && w.second.Some? && w.first != w.second
  }

  /** A request that needs two approvals passes the gate exactly if it is pending and was first
      approved by somebody else; and then two distinct approvers are on record. */
  lemma GateNeedsTwo(w: Withdrawal, actor: AdminId)
    requires Approved(w) && w.required > 1
    ensures Gate(w, actor).0.Passed? <==> w.status.Pending? && w.first.Some? && w.first.value != actor
    ensures Gate(w, actor).0.Passed? ==> TwoApprovers(Gate(w, actor).1)
    ensures Gate(w, actor).1.first == w.first && (w.second.Some? ==> Gate(w, actor).1.second == w.second)
  {
  }

  // ---- the admins at work ----

  /** A rejection holds the wallet's lock, then the request's as well. */
  datatype Rejecting = HoldsWallet(request: RequestId, wallet: WalletId) | HoldsBoth(request: RequestId, wallet: WalletId)

  datatype State = State(
    requests: map<RequestId, Withdrawal>, balances: map<WalletId, int>, ledger: seq<Tx>,
    passed: set<(AdminId, RequestId)>, // past the gate, about to submit
    rejecting: map<CallId, Rejecting>,
    submitted: set<RequestId>, rejected: set<RequestId>)

  datatype Action =
    | Requests(r: RequestId, wallet: WalletId, amount: int, required: int)
    | FirstApproves(admin: AdminId, r: RequestId)
    | AsksGate(admin: AdminId, r: RequestId)
    | Submits(admin: AdminId, r: RequestId)
    | AutoSubmits(r: RequestId)
    | RejectLocksWallet(c: CallId, r: RequestId)
    | RejectLocksRequest(c: CallId)
    | RejectEnds(c: CallId, credited: bool)
    | PayoutFails(r: RequestId)
    | PayoutCompletes(r: RequestId)

  function Init(balances: map<WalletId, int>): State {
    State(map[], balances, [], {}, map[], {}, {})
  }

  predicate RequestFree(st: State, r: RequestId) {
    forall c <- st.rejecting :: !(st.rejecting[c].HoldsBoth? && st.rejecting[c].request == r)
  }

  predicate WalletFree(st: State, w: WalletId) {
    forall c <- st.rejecting :: st.rejecting[c].wallet != w
  }

  predicate Enabled(st: State, a: Action) {
    match a
    case Requests(r, wallet, amount, _) =>
      r !in st.requests && wallet in st.balances && WalletFree(st, wallet) && 0 < amount <= st.balances[wallet]
    case FirstApproves(_, r) => r in st.requests && RequestFree(st, r)
    case AsksGate(_, r) => r in st.requests && RequestFree(st, r)
    case Submits(admin, r) => (admin, r) in st.passed && r in st.requests && RequestFree(st, r)
    case AutoSubmits(r) => r in st.requests && st.requests[r].required <= 1 && RequestFree(st, r)
    case RejectLocksWallet(c, r) =>
      c !in st.rejecting && r in st.requests && st.requests[r].status.Pending? && WalletFree(st, st.requests[r].wallet)
    case RejectLocksRequest(c) =>
      c in st.rejecting && st.rejecting[c].HoldsWallet? && RequestFree(st, st.rejecting[c].request)
    case RejectEnds(c, _) => c in st.rejecting && st.rejecting[c].HoldsBoth?
    case PayoutFails(r) =>
      r in st.requests && st.requests[r].status.Processing? && RequestFree(st, r) && WalletFree(st, st.requests[r].wallet)
    case PayoutCompletes(r) => r in st.requests && st.requests[r].status.Processing? && RequestFree(st, r)
  }

  function SetRequest(st: State, r: RequestId, w: Withdrawal): State {
    st.(requests := st.requests[r := w])
  }

  function Credit(st: State, r: RequestId, wallet: WalletId, amount: int): State
    requires wallet in st.balances
  {
    st.(balances := st.balances[wallet := st.balances[wallet] + amount], ledger := st.ledger + [Refund(r, wallet, amount)])
  }

  /** Claiming the request for the provider, which only a pending one allows. */
  function Submit(st: State, r: RequestId): State
    requires r in st.requests
  {
    if st.requests[r].status.Pending? then
      SetRequest(st, r, st.requests[r].(status := Processing)).(submitted := st.submitted + {r})
    else st
  }

  function Apply(st: State, a: Action): State
    requires Enabled(st, a)
  {
    match a
    case Requests(r, wallet, amount, required) =>
      SetRequest(st, r, Withdrawal(wallet, amount, required, Pending, None, None)).(
        balances := st.balances[wallet := st.balances[wallet] - amount],
        ledger := st.ledger + [Debit(r, wallet, -amount)])
    case FirstApproves(admin, r) => SetRequest(st, r, FirstApprove(st.requests[r], admin).1)
    case AsksGate(admin, r) =>
      var (verdict, w) := Gate(st.requests[r], admin);
      SetRequest(st, r, w).(passed := if verdict.Passed? then st.passed + {(admin, r)} else st.passed)
    case Submits(admin, r) => Submit(st, r).(passed := st.passed - {(admin, r)})
    case AutoSubmits(r) => Submit(st, r)
    case RejectLocksWallet(c, r) => st.(rejecting := st.rejecting[c := HoldsWallet(r, st.requests[r].wallet)])
    case RejectLocksRequest(c) =>
      var r := st.rejecting[c].request;
      if r in st.requests && st.requests[r].status.Pending? then
        st.(rejecting := st.rejecting[c := HoldsBoth(r, st.rejecting[c].wallet)])
      else st.(rejecting := st.rejecting - {c})
    case RejectEnds(c, credited) =>
      var r, wallet := st.rejecting[c].request, st.rejecting[c].wallet;
      var st := st.(rejecting := st.rejecting - {c});
      if credited && r in st.requests && wallet in st.balances then
        Credit(SetRequest(st, r, st.requests[r].(status := Rejected)), r, wallet, st.requests[r].amount)
        .(rejected := st.rejected + {r})
      else st // the credit failed: status change and all are rolled back
    case PayoutFails(r) =>
      var w := st.requests[r];
      var st := SetRequest(st, r, w.(status := PayoutFailed));
      if w.wallet in st.balances then Credit(st, r, w.wallet, w.amount) else st
    case PayoutCompletes(r) => SetRequest(st, r, st.requests[r].(status := Completed))
  }

  // ---- the invariant ----

  predicate Refunded(s: Status) { s.Rejected? || s.PayoutFailed? }

  function AmountOf(t: Tx, r: RequestId): int { if t.request == r then t.amount else 0 }

  /** What the request has moved in all. */
  function Net(ledger: seq<Tx>, r: RequestId): int {
    if ledger == [] then 0 else Net(ledger[..|ledger| - 1], r) + AmountOf(ledger[|ledger| - 1], r)
  }

  function Refunds(ledger: seq<Tx>, r: RequestId): nat {
    if ledger == [] then 0
    else Refunds(ledger[..|ledger| - 1], r) + if ledger[|ledger| - 1].Refund? && ledger[|ledger| - 1].request == r then 1 else 0
  }

  function MovedIn(ledger: seq<Tx>, w: WalletId): int {
    if ledger == [] then 0
    else MovedIn(ledger[..|ledger| - 1], w) + if ledger[|ledger| - 1].wallet == w then ledger[|ledger| - 1].amount else 0
  }

  ghost predicate WalletsKnown(st: State) {
    forall r <- st.requests :: st.requests[r].wallet in st.balances
  }

  /** A rejection under way knows its request's wallet, and once it holds both locks the request
      stays pending. */
  ghost predicate Locks(st: State) {
    && (forall c <- st.rejecting :: st.rejecting[c].request in st.requests
                                    && st.rejecting[c].wallet == st.requests[st.rejecting[c].request].wallet
                                    && st.rejecting[c].wallet in st.balances)
    && (forall c <- st.rejecting :: st.rejecting[c].HoldsBoth? ==> st.requests[st.rejecting[c].request].status.Pending?)
  }

  /** No two rejections hold the same wallet. */
  ghost predicate Exclusive(st: State) {
    forall c <- st.rejecting, d <- st.rejecting :: c != d ==> st.rejecting[c].wallet != st.rejecting[d].wallet
  }

  ghost predicate Approvals(st: State) {
    && (forall r <- st.requests :: Approved(st.requests[r]))
    && (forall p <- st.passed :: p.1 in st.requests && (st.requests[p.1].required > 1 ==> TwoApprovers(st.requests[p.1])))
    && (forall r <- st.submitted :: r in st.requests && (st.requests[r].required > 1 ==> TwoApprovers(st.requests[r])))
  }

  predicate WasSubmitted(s: Status) { s.Processing? || s.PayoutFailed? || s.Completed? }

  ghost predicate Statuses(st: State) {
    && (forall r <- st.requests :: (r in st.rejected <==> st.requests[r].status.Rejected?)
                                   && (r in st.submitted <==> WasSubmitted(st.requests[r].status)))
    && st.rejected <= st.requests.Keys && st.submitted <= st.requests.Keys
  }

  predicate Settled(ledger: seq<Tx>, r: RequestId, w: Withdrawal) {
    if Refunded(w.status) then Net(ledger, r) == 0 && Refunds(ledger, r) == 1
    else Net(ledger, r) == -w.amount && Refunds(ledger, r) == 0
  }

  ghost predicate Money(before: map<WalletId, int>, st: State) {
    && (forall r <- st.requests :: Settled(st.ledger, r, st.requests[r]))
    && WalletsKnown(st) && (forall t <- st.ledger :: t.request in st.requests)
    && st.balances.Keys == before.Keys
    && (forall w <- before :: st.balances[w] == before[w] + MovedIn(st.ledger, w))
  }

  ghost predicate Inv(before: map<WalletId, int>, st: State) {
    Locks(st) && Exclusive(st) && Approvals(st) && Statuses(st) && Money(before, st)
  }

  lemma LedgerAppend(ledger: seq<Tx>, t: Tx, r: RequestId, w: WalletId)
    ensures Net(ledger + [t], r) == Net(ledger, r) + AmountOf(t, r)
    ensures Refunds(ledger + [t], r) == Refunds(ledger, r) + if t.Refund? && t.request == r then 1 else 0
    ensures MovedIn(ledger + [t], w) == MovedIn(ledger, w) + if t.wallet == w then t.amount else 0
  {
    assert (ledger + [t])[..|ledger|] == ledger;
  }

  lemma {:induction false} UntouchedIsZero(ledger: seq<Tx>, r: RequestId)
    requires forall t <- ledger :: t.request != r
    ensures Net(ledger, r) == 0 && Refunds(ledger, r) == 0
    decreases |ledger|
  {
    if ledger != [] {
      var n := |ledger| - 1;
      assert ledger[n] in ledger;
      UntouchedIsZero(ledger[..n], r);
    }
  }

  // ---- every action keeps it ----

  lemma RequestKeepsMoney(before: map<WalletId, int>, st: State, a: Action)
    requires Inv(before, st) && Enabled(st, a) && a.Requests?
    ensures Money(before, Apply(st, a))
  {
    var next := Apply(st, a);
    var t := next.ledger[|st.ledger|];
    forall r | r in next.requests ensures Settled(next.ledger, r, next.requests[r]) {
      LedgerAppend(st.ledger, t, r, a.wallet);
      if r == a.r {
        UntouchedIsZero(st.ledger, r);
      }
    }
    forall w | w in before ensures next.balances[w] == before[w] + MovedIn(next.ledger, w) {
      LedgerAppend(st.ledger, t, a.r, w);
    }
  }

  /** Refunding a request that was not refunded settles it. */
  lemma RefundKeepsMoney(before: map<WalletId, int>, st: State, next: State, r: RequestId, status: Status)
    requires Money(before, st) && r in st.requests && !Refunded(st.requests[r].status) && Refunded(status)
    requires next.requests == st.requests[r := st.requests[r].(status := status)]
    requires var w := st.requests[r];
             && next.balances == st.balances[w.wallet := st.balances[w.wallet] + w.amount]
             && next.ledger == st.ledger + [Refund(r, w.wallet, w.amount)]
    ensures Money(before, next)
  {
    var w := st.requests[r];
    var t := Refund(r, w.wallet, w.amount);
    forall q | q in next.requests ensures Settled(next.ledger, q, next.requests[q]) {
      assert Settled(st.ledger, q, st.requests[q]);
      LedgerAppend(st.ledger, t, q, w.wallet);
    }
    forall v | v in before ensures next.balances[v] == before[v] + MovedIn(next.ledger, v) {
      LedgerAppend(st.ledger, t, r, v);
    }
  }

  lemma RejectKeepsMoney(before: map<WalletId, int>, st: State, c: CallId, credited: bool)
    requires Inv(before, st) && Enabled(st, RejectEnds(c, credited))
    ensures Money(before, Apply(st, RejectEnds(c, credited)))
  {
    if credited {
      RefundKeepsMoney(before, st, Apply(st, RejectEnds(c, credited)), st.rejecting[c].request, Rejected);
    }
  }

  lemma FailureKeepsMoney(before: map<WalletId, int>, st: State, r: RequestId)
    requires Inv(before, st) && Enabled(st, PayoutFails(r))
    ensures Money(before, Apply(st, PayoutFails(r)))
  {
    RefundKeepsMoney(before, st, Apply(st, PayoutFails(r)), r, PayoutFailed);
  }

  /** The same wallet and amount, and refunded or not as before. */
  predicate SameMoney(w: Withdrawal, v: Withdrawal) {
    w.wallet == v.wallet && w.amount == v.amount && Refunded(w.status) == Refunded(v.status)
  }

  lemma OthersMoveNothing(st: State, a: Action)
    requires Enabled(st, a) && !a.Requests? && !a.RejectEnds? && !a.PayoutFails?
    ensures var next := Apply(st, a);
            && next.ledger == st.ledger && next.balances == st.balances && next.requests.Keys == st.requests.Keys
            && forall r <- st.requests :: SameMoney(next.requests[r], st.requests[r])
  {
  }

  lemma SettledAlike(ledger: seq<Tx>, r: RequestId, w: Withdrawal, v: Withdrawal)
    requires Settled(ledger, r, v) && SameMoney(w, v)
    ensures Settled(ledger, r, w)
  {
  }

  lemma OthersKeepMoney(before: map<WalletId, int>, st: State, a: Action)
    requires Money(before, st) && Enabled(st, a) && !a.Requests? && !a.RejectEnds? && !a.PayoutFails?
    ensures Money(before, Apply(st, a))
  {
    var next := Apply(st, a);
    OthersMoveNothing(st, a);
    forall r | r in next.requests ensures Settled(next.ledger, r, next.requests[r]) && next.requests[r].wallet in next.balances {
      assert SameMoney(next.requests[r], st.requests[r]);
      SettledAlike(st.ledger, r, next.requests[r], st.requests[r]);
    }
  }

  /** The actions that lead up to submission, and those that end a request. */
  predicate LeadsUp(a: Action) {
    a.Requests? || a.FirstApproves? || a.AsksGate? || a.Submits? || a.AutoSubmits?
  }

  lemma LeadingUpKeepsLocks(st: State, a: Action)
    requires Locks(st) && Enabled(st, a) && LeadsUp(a) && !a.FirstApproves? && !a.AsksGate?
    ensures Locks(Apply(st, a))
  {
  }

  lemma ApprovingKeepsLocks(st: State, a: Action)
    requires Locks(st) && Enabled(st, a) && (a.FirstApproves? || a.AsksGate?)
    ensures Locks(Apply(st, a))
  {
  }

  lemma RejectingKeepsLocks(st: State, a: Action)
    requires Locks(st) && Exclusive(st) && WalletsKnown(st) && Enabled(st, a)
    requires a.RejectLocksWallet? || a.RejectLocksRequest? || a.RejectEnds?
    ensures Locks(Apply(st, a))
  {
  }

  lemma PayoutKeepsLocks(st: State, a: Action)
    requires Locks(st) && WalletsKnown(st) && Enabled(st, a) && (a.PayoutFails? || a.PayoutCompletes?)
    ensures Locks(Apply(st, a))
  {
  }

  lemma StepKeepsExclusive(st: State, a: Action)
    requires Locks(st) && Exclusive(st) && Enabled(st, a)
    ensures Exclusive(Apply(st, a))
  {
  }

  lemma ApprovingKeepsApprovals(st: State, a: Action)
    requires Approvals(st) && Enabled(st, a) && (a.FirstApproves? || a.AsksGate?)
    ensures Approvals(Apply(st, a))
  {
  }

  lemma SubmittingKeepsApprovals(st: State, a: Action)
    requires Approvals(st) && Enabled(st, a) && (a.Requests? || a.Submits? || a.AutoSubmits?)
    ensures Approvals(Apply(st, a))
  {
  }

  lemma EndingKeepsApprovals(st: State, a: Action)
    requires Approvals(st) && Enabled(st, a) && !LeadsUp(a)
    ensures Approvals(Apply(st, a))
  {
  }

  lemma LeadingUpKeepsStatuses(st: State, a: Action)
    requires Locks(st) && Statuses(st) && Enabled(st, a) && LeadsUp(a)
    ensures Statuses(Apply(st, a))
  {
  }

  lemma EndingKeepsStatuses(st: State, a: Action)
    requires Locks(st) && Statuses(st) && Enabled(st, a) && !LeadsUp(a)
    ensures Statuses(Apply(st, a))
  {
  }

  lemma StepKeepsMoney(before: map<WalletId, int>, st: State, a: Action)
    requires Inv(before, st) && Enabled(st, a)
    ensures Money(before, Apply(st, a))
  {
    if a.Requests? {
      RequestKeepsMoney(before, st, a);
    } else if a.RejectEnds? {
      RejectKeepsMoney(before, st, a.c, a.credited);
    } else if a.PayoutFails? {
      FailureKeepsMoney(before, st, a.r);
    } else {
      OthersKeepMoney(before, st, a);
    }
  }

  lemma StepKeepsInv(before: map<WalletId, int>, st: State, a: Action)
    requires Inv(before, st) && Enabled(st, a)
    ensures Inv(before, Apply(st, a))
  {
    StepKeepsMoney(before, st, a);
    StepKeepsExclusive(st, a);
    StepKeepsLocks(before, st, a);
    if a.FirstApproves? || a.AsksGate? {
      ApprovingKeepsApprovals(st, a);
    } else if LeadsUp(a) {
      SubmittingKeepsApprovals(st, a);
    } else {
      EndingKeepsApprovals(st, a);
    }
    if LeadsUp(a) {
      LeadingUpKeepsStatuses(st, a);
    } else {
      EndingKeepsStatuses(st, a);
    }
  }

  lemma StepKeepsLocks(before: map<WalletId, int>, st: State, a: Action)
    requires Inv(before, st) && Enabled(st, a)
    ensures Locks(Apply(st, a))
  {
    if a.FirstApproves? || a.AsksGate? {
      ApprovingKeepsLocks(st, a);
    } else if LeadsUp(a) {
      LeadingUpKeepsLocks(st, a);
    } else if a.PayoutFails? || a.PayoutCompletes? {
      PayoutKeepsLocks(st, a);
    } else {
      RejectingKeepsLocks(st, a);
    }
  }

  ghost predicate Reaches(st: State, acts: seq<Action>, end: State)
    decreases |acts|
  {
    if acts == [] then st == end
    else Enabled(st, acts[0]) && Reaches(Apply(st, acts[0]), acts[1..], end)
  }

  lemma {:induction false} RunKeepsInv(before: map<WalletId, int>, st: State, acts: seq<Action>, end: State)
    requires Inv(before, st) && Reaches(st, acts, end)
    ensures Inv(before, end)
    decreases |acts|
  {
    if acts != [] {
      StepKeepsInv(before, st, acts[0]);
      RunKeepsInv(before, Apply(st, acts[0]), acts[1..], end);
    }
  }

  // ---- what holds however the admins interleave ----

  /** A request that needs two approvals is only ever past the gate, or submitted, with two
      distinct approvers on record. */
  lemma SubmittedWasApprovedTwice(before: map<WalletId, int>, acts: seq<Action>, st: State, r: RequestId)
    requires Reaches(Init(before), acts, st) && r in st.requests && st.requests[r].required > 1
    requires r in st.submitted || exists a :: (a, r) in st.passed
    ensures TwoApprovers(st.requests[r])
  {
    RunKeepsInv(before, Init(before), acts, st);
    if r !in st.submitted {
      var a :| (a, r) in st.passed;
      assert (a, r).1 == r;
    }
  }

  /** A rejected request was refunded, once, by exactly its amount, and was never submitted. */
  lemma RejectedIsRefundedOnce(before: map<WalletId, int>, acts: seq<Action>, st: State, r: RequestId)
    requires Reaches(Init(before), acts, st) && r in st.rejected
    ensures r in st.requests && st.requests[r].status.Rejected?
    ensures Refunds(st.ledger, r) == 1 && Net(st.ledger, r) == 0
    ensures r !in st.submitted
  {
    RunKeepsInv(before, Init(before), acts, st);
    assert Settled(st.ledger, r, st.requests[r]);
  }

  /** Every request's amount is out of its wallet exactly while it is not refunded, and every
      wallet's balance is what it was plus what the ledger moved. */
  lemma MoneyIsConserved(before: map<WalletId, int>, acts: seq<Action>, st: State)
    requires Reaches(Init(before), acts, st)
    ensures forall r <- st.requests :: Net(st.ledger, r) == if Refunded(st.requests[r].status) then 0 else -st.requests[r].amount
    ensures st.balances.Keys == before.Keys && forall w <- before :: st.balances[w] == before[w] + MovedIn(st.ledger, w)
  {
    RunKeepsInv(before, Init(before), acts, st);
    forall r | r in st.requests ensures Net(st.ledger, r) == if Refunded(st.requests[r].status) then 0 else -st.requests[r].amount {
      assert Settled(st.ledger, r, st.requests[r]);
    }
  }

  /** Nothing is undone: a recorded approver stays, and what was rejected or submitted stays so. */
  lemma NothingIsUndone(before: map<WalletId, int>, st: State, a: Action, r: RequestId)
    requires Inv(before, st) && Enabled(st, a) && r in st.requests
    ensures var w, v := st.requests[r], Apply(st, a).requests[r];
            && r in Apply(st, a).requests
            && (w.first.Some? ==> v.first == w.first) && (w.second.Some? ==> v.second == w.second)
            && v.amount == w.amount && v.required == w.required && v.wallet == w.wallet
            && (r in st.rejected ==> r in Apply(st, a).rejected) && (r in st.submitted ==> r in Apply(st, a).submitted)
  {
    if LeadsUp(a) {
      LeadingUpUndoesNothing(st, a, r);
    }
  }

  lemma LeadingUpUndoesNothing(st: State, a: Action, r: RequestId)
    requires Enabled(st, a) && r in st.requests && LeadsUp(a)
    ensures var w, v := st.requests[r], Apply(st, a).requests[r];
            && r in Apply(st, a).requests
            && (w.first.Some? ==> v.first == w.first) && (w.second.Some? ==> v.second == w.second)
            && v.amount == w.amount && v.required == w.required && v.wallet == w.wallet
            && st.rejected <= Apply(st, a).rejected && st.submitted <= Apply(st, a).submitted
  {
  }

  // ---- the admin actions over a selection ----

  class WithdrawalDesk {
    var requests: map<RequestId, Withdrawal>
    var balances: map<WalletId, int>
    var ledger: seq<Tx>

    method ApplySecondApproval(r: RequestId, actor: AdminId) returns (verdict: Verdict)
      requires r in requests
      modifies this`requests
      ensures verdict == Gate(old(requests[r]), actor).0
      ensures requests == old(requests)[r := Gate(old(requests[r]), actor).1]
    {
      var w := requests[r];
      assert requests[r := w] == requests;
      if w.status != Pending {
        return NotPending;
      }
      if w.required <= 1 {
        return Passed;
      }
      if w.first.None? {
        return NeedsFirst;
      }
      if w.first.value == actor {
        return SameAdmin;
      }
      if w.second.None? {
        requests := requests[r := w.(second := Some(actor))];
      }
      return Passed;
    }

    /** First approval of a selection: exactly the pending ones that need two and have none yet. */
    method FirstApproveAll(selection: seq<RequestId>, actor: AdminId) returns (done: nat, skipped: nat, errors: nat)
      requires forall r <- selection :: r in requests
      modifies this`requests
      ensures requests.Keys == old(requests).Keys
      ensures forall r <- requests :: requests[r] == if r in selection then FirstApprove(old(requests)[r], actor).1 else old(requests)[r]
      ensures done + skipped + errors == |selection|
    {
      done, skipped, errors := 0, 0, 0;
      for i := 0 to |selection|
        invariant requests.Keys == old(requests).Keys
        invariant forall r <- requests ::
            requests[r] == if r in selection[..i] then FirstApprove(old(requests)[r], actor).1 else old(requests)[r]
        invariant done + skipped + errors == i
      {
        var r := selection[i];
        assert selection[..i + 1] == selection[..i] + [r];
        var w := requests[r];
        if w.status != Pending {
          errors := errors + 1;
        } else if w.required <= 1 || w.first.Some? {
          skipped := skipped + 1;
        } else {
          requests := requests[r := w.(first := Some(actor))];
          done := done + 1;
        }
      }
      assert selection[..|selection|] == selection;
    }

    /** One rejection, with both locks held; `credited` is whether the credit goes through. */
    method Reject(r: RequestId, credited: bool) returns (ok: bool)
      requires r in requests && requests[r].wallet in balances
      modifies this
      ensures ok <==> old(requests[r].status.Pending?) && credited
      ensures !ok ==> requests == old(requests) && balances == old(balances) && ledger == old(ledger)
      ensures ok ==>
                var w := old(requests[r]);
                && requests == old(requests)[r := w.(status := Rejected)]
                && balances == old(balances)[w.wallet := old(balances)[w.wallet] + w.amount]
                && ledger == old(ledger) + [Refund(r, w.wallet, w.amount)]
    {
      var w := requests[r];
      if w.status != Pending || !credited {
        return false;
      }
      requests := requests[r := w.(status := Rejected)];
      balances := balances[w.wallet := balances[w.wallet] + w.amount];
      ledger := ledger + [Refund(r, w.wallet, w.amount)];
      return true;
    }
  }
}
