/** Recording observations in the audit trail, at most one per key and window, and escalating
    what stays observed. Concurrent callers check and write under one lock row; the clock moves
    on between any two steps. */
module AuditDedup {
  import opened Common

  type CallId = nat
  type Key = nat

  datatype Kind = Alert | Observation | Escalation

  /** The severity of an alert, or the case of a stuck execution. */
  datatype Tag = Critical | High | Medium | Low | CaseA | CaseB | CaseC | CaseD | CaseE | CaseF

  /** The severities and cases that are recorded at all. */
  predicate Mapped(kind: Kind, tag: Tag) {
    match kind
    case Alert => tag.Critical? || tag.High?
    case _ => tag.CaseA? || tag.CaseB? || tag.CaseD? || tag.CaseE? || tag.CaseF?
  }

  /** An event of the trail; `window` and `threshold` are those of the call that wrote it. */
  datatype Row = Row(kind: Kind, key: Key, tag: Tag, at: int, window: int, threshold: int)

  predicate Of(r: Row, kind: Kind, key: Key) { r.kind == kind && r.key == key }

  predicate Recently(rows: seq<Row>, kind: Kind, key: Key, cutoff: int) {
    exists i :: 0 <= i < |rows| && Of(rows[i], kind, key) && rows[i].at >= cutoff
  }

  /** The time of the earliest observation of the key. */
  function FirstObserved(rows: seq<Row>, key: Key): (first: Option<int>)
    ensures first.Some? ==> exists i :: 0 <= i < |rows| && Of(rows[i], Observation, key) && rows[i].at == first.value
    ensures first.None? ==> forall i :: 0 <= i < |rows| ==> !Of(rows[i], Observation, key)
    ensures first.Some? ==> forall i :: 0 <= i < |rows| && Of(rows[i], Observation, key) ==> first.value <= rows[i].at
  {
    if rows == [] then None
    else
      var n := |rows| - 1;
      var first := FirstObserved(rows[..n], key);
      assert forall i :: 0 <= i < n ==> rows[..n][i] == rows[i];
      if !Of(rows[n], Observation, key) then first
      else if first.Some? && first.value <= rows[n].at then first
      else Some(rows[n].at)
  }

  // ---- concurrent callers ----

  datatype Request = Request(kind: Kind, key: Key, tag: Tag, window: int, threshold: int)

  datatype Stage =
    | Judged                 // an escalation that is due, not yet on its way
    | Waiting(readAt: int)   // waits for the lock
    | Locked(readAt: int)    // holds it, about to check
    | Writing(readAt: int)   // has found nothing recent
    | Recorded | Deduped | Failed | Ignored

  /** `calledAt` is when the caller saw what it reports, or judged the escalation due. */
  datatype Call = Call(request: Request, calledAt: int, stage: Stage)

  datatype State = State(clock: int, lock: Option<CallId>, rows: seq<Row>, calls: map<CallId, Call>)

  datatype Action =
    | Ticks(to: int)
    | Calls(c: CallId, q: Request)
    | Proceeds(c: CallId)
    | Acquires(c: CallId)
    | Checks(c: CallId)
    | Writes(c: CallId, ok: bool)

  function StageOf(st: State, c: CallId): Stage {
    if c in st.calls then st.calls[c].stage else Ignored
  }

  predicate Enabled(st: State, a: Action) {
    match a
    case Ticks(to) => to >= st.clock
    case Calls(c, _) => c !in st.calls
    case Proceeds(c) => StageOf(st, c).Judged?
    case Acquires(c) => StageOf(st, c).Waiting? && st.lock.None?
    case Checks(c) => StageOf(st, c).Locked?
    case Writes(c, _) => StageOf(st, c).Writing?
  }

  function Move(st: State, c: CallId, stage: Stage): State
    requires c in st.calls
  {
    st.(calls := st.calls[c := st.calls[c].(stage := stage)])
  }

  /** With a positive window the call has to wait for the lock; otherwise nothing is checked. */
  function Depart(q: Request, now: int): Stage {
    if q.window > 0 then Waiting(now) else Writing(now)
  }

  function Begin(st: State, q: Request): Stage {
    if !Mapped(q.kind, q.tag) then Ignored
    else if !q.kind.Escalation? then Depart(q, st.clock)
    else
      var first := FirstObserved(st.rows, q.key);
      if first.None? || st.clock - first.value < q.threshold then Ignored else Judged
  }

  function Apply(st: State, a: Action): State
    requires Enabled(st, a)
  {
    match a
    case Ticks(to) => st.(clock := to)
    case Calls(c, q) => st.(calls := st.calls[c := Call(q, st.clock, Begin(st, q))])
    case Proceeds(c) => Move(st, c, Depart(st.calls[c].request, st.clock))
    case Acquires(c) =>
      // an alert reads the clock again once it holds the lock
      var readAt := if st.calls[c].request.kind.Alert? then st.clock else st.calls[c].stage.readAt;
      Move(st, c, Locked(readAt)).(lock := Some(c))
    case Checks(c) =>
      var q, readAt := st.calls[c].request, st.calls[c].stage.readAt;
      if Recently(st.rows, q.kind, q.key, readAt - q.window) then Move(st, c, Deduped).(lock := None)
      else Move(st, c, Writing(readAt))
    case Writes(c, ok) =>
      var q := st.calls[c].request;
      var lock := if q.window > 0 then None else st.lock;
      if ok then
        Move(st, c, Recorded).(lock := lock, rows := st.rows + [Row(q.kind, q.key, q.tag, st.clock, q.window, q.threshold)])
      else Move(st, c, Failed).(lock := lock)
  }

  function Init(): State { State(0, None, [], map[]) }

  // ---- the invariant ----

  predicate Holding(call: Call) {
    call.stage.Locked? || (call.stage.Writing? && call.request.window > 0)
  }

  /** A call inside its check-then-write holds the lock. */
  ghost predicate LockHeld(st: State) {
    && (forall c <- st.calls :: Holding(st.calls[c]) ==> st.lock == Some(c))
    && (st.lock.Some? ==> st.lock.value in st.calls && Holding(st.calls[st.lock.value]))
  }

  ghost predicate TimesHold(st: State) {
    && (forall i :: 0 <= i < |st.rows| ==> st.rows[i].at <= st.clock && Mapped(st.rows[i].kind, st.rows[i].tag))
    && (forall c <- st.calls :: CallTimesHold(st, st.calls[c]))
  }

  predicate CallTimesHold(st: State, call: Call) {
    && call.calledAt <= st.clock
    && (!call.stage.Ignored? ==> Mapped(call.request.kind, call.request.tag))
    && (call.stage.Waiting? || call.stage.Locked? || call.stage.Writing? ==> call.calledAt <= call.stage.readAt <= st.clock)
    && (call.stage.Waiting? || call.stage.Locked? ==> call.request.window > 0)
  }

  /** Rows written under the lock lie more than their window after all earlier such rows of the
      key; and a call about to write has none of its key within its window. */
  ghost predicate Spaced(st: State) {
    && (forall i, j :: 0 <= i < j < |st.rows| ==> Apart(st.rows[i], st.rows[j]))
    && (forall c <- st.calls, i | 0 <= i < |st.rows| :: ClearOf(st.calls[c], st.rows[i]))
  }

  predicate Apart(r: Row, s: Row) {
    r.window > 0 && s.window > 0 && Of(r, s.kind, s.key) ==> s.at - r.at > s.window
  }

  predicate ClearOf(call: Call, r: Row) {
    call.stage.Writing? && call.request.window > 0 && r.window > 0 && Of(r, call.request.kind, call.request.key)
    ==> r.at < call.stage.readAt - call.request.window
  }

  /** What was reported is on record, within the window. */
  ghost predicate Covered(st: State) {
    forall c <- st.calls :: CallCovered(st.rows, st.calls[c])
  }

  predicate CallCovered(rows: seq<Row>, call: Call) {
    call.stage.Recorded? || call.stage.Deduped? ==>
      Recently(rows, call.request.kind, call.request.key,
               if call.request.window > 0 then call.calledAt - call.request.window else call.calledAt)
  }

  predicate Preceded(rows: seq<Row>, key: Key, limit: int) {
    exists i :: 0 <= i < |rows| && Of(rows[i], Observation, key) && rows[i].at <= limit
  }

  /** Escalations, done or on their way, were due: an observation is at least the threshold old. */
  ghost predicate Due(st: State) {
    && (forall i :: 0 <= i < |st.rows| && st.rows[i].kind.Escalation? ==>
          Preceded(st.rows, st.rows[i].key, st.rows[i].at - st.rows[i].threshold))
    && (forall c <- st.calls :: CallDue(st.rows, st.calls[c]))
  }

  predicate CallDue(rows: seq<Row>, call: Call) {
    call.request.kind.Escalation? && !call.stage.Ignored? ==>
      Preceded(rows, call.request.key, call.calledAt - call.request.threshold)
  }

  ghost predicate Inv(st: State) {
    LockHeld(st) && TimesHold(st) && Spaced(st) && Covered(st) && Due(st)
  }

  // ---- every action keeps it ----

  lemma RecentlyAfter(rows: seq<Row>, r: Row, kind: Kind, key: Key, cutoff: int)
    ensures Recently(rows, kind, key, cutoff) ==> Recently(rows + [r], kind, key, cutoff)
    ensures Of(r, kind, key) && r.at >= cutoff ==> Recently(rows + [r], kind, key, cutoff)
  {
    if Recently(rows, kind, key, cutoff) {
      var i :| 0 <= i < |rows| && Of(rows[i], kind, key) && rows[i].at >= cutoff;
      assert (rows + [r])[i] == rows[i];
    }
    assert (rows + [r])[|rows|] == r;
  }

  lemma PrecededAfter(rows: seq<Row>, r: Row, key: Key, limit: int)
    requires Preceded(rows, key, limit)
    ensures Preceded(rows + [r], key, limit)
  {
    var i :| 0 <= i < |rows| && Of(rows[i], Observation, key) && rows[i].at <= limit;
    assert (rows + [r])[i] == rows[i];
  }

  lemma WriteKeepsCovered(st: State, c: CallId, ok: bool)
    requires Inv(st) && Enabled(st, Writes(c, ok))
    ensures Covered(Apply(st, Writes(c, ok)))
  {
    var next := Apply(st, Writes(c, ok));
    if ok {
      var r := next.rows[|st.rows|];
      forall d | d in next.calls ensures CallCovered(next.rows, next.calls[d]) {
        var q, at := st.calls[d].request, st.calls[d].calledAt;
        assert CallCovered(st.rows, st.calls[d]) && CallTimesHold(st, st.calls[d]);
        RecentlyAfter(st.rows, r, q.kind, q.key, if q.window > 0 then at - q.window else at);
      }
    }
  }

  lemma WriteKeepsCallsDue(st: State, c: CallId, ok: bool)
    requires Inv(st) && Enabled(st, Writes(c, ok))
    ensures forall d <- Apply(st, Writes(c, ok)).calls :: CallDue(Apply(st, Writes(c, ok)).rows, Apply(st, Writes(c, ok)).calls[d])
  {
    var next := Apply(st, Writes(c, ok));
    forall d | d in next.calls ensures CallDue(next.rows, next.calls[d]) {
      var q := st.calls[d].request;
      assert CallDue(st.rows, st.calls[d]);
      if ok && Preceded(st.rows, q.key, st.calls[d].calledAt - q.threshold) {
        PrecededAfter(st.rows, next.rows[|st.rows|], q.key, st.calls[d].calledAt - q.threshold);
      }
    }
  }

  lemma WriteKeepsRowsDue(st: State, c: CallId, ok: bool)
    requires Inv(st) && Enabled(st, Writes(c, ok))
    ensures var rows := Apply(st, Writes(c, ok)).rows;
            forall i :: 0 <= i < |rows| && rows[i].kind.Escalation? ==> Preceded(rows, rows[i].key, rows[i].at - rows[i].threshold)
  {
    var rows := Apply(st, Writes(c, ok)).rows;
    assert CallDue(st.rows, st.calls[c]) && CallTimesHold(st, st.calls[c]);
    forall i | 0 <= i < |rows| && rows[i].kind.Escalation? ensures Preceded(rows, rows[i].key, rows[i].at - rows[i].threshold) {
      if i < |st.rows| {
        assert rows[i] == st.rows[i];
        if ok {
          PrecededAfter(st.rows, rows[|st.rows|], rows[i].key, rows[i].at - rows[i].threshold);
        }
      } else {
        var q := st.calls[c].request;
        var j :| 0 <= j < |st.rows| && Of(st.rows[j], Observation, q.key) && st.rows[j].at <= st.calls[c].calledAt - q.threshold;
        assert rows[j] == st.rows[j];
      }
    }
  }

  lemma WriteKeepsRest(st: State, c: CallId, ok: bool)
    requires Inv(st) && Enabled(st, Writes(c, ok))
    ensures LockHeld(Apply(st, Writes(c, ok))) && TimesHold(Apply(st, Writes(c, ok))) && Spaced(Apply(st, Writes(c, ok)))
  {
  }

  lemma CallKeepsInv(st: State, a: Action)
    requires Inv(st) && Enabled(st, a) && (a.Calls? || a.Proceeds?)
    ensures Inv(Apply(st, a))
  {
  }

  lemma TickKeepsInv(st: State, to: int)
    requires Inv(st) && Enabled(st, Ticks(to))
    ensures Inv(Apply(st, Ticks(to)))
  {
  }

  lemma AcquireKeepsInv(st: State, c: CallId)
    requires Inv(st) && Enabled(st, Acquires(c))
    ensures Inv(Apply(st, Acquires(c)))
  {
  }

  lemma CheckKeepsInv(st: State, c: CallId)
    requires Inv(st) && Enabled(st, Checks(c))
    ensures Inv(Apply(st, Checks(c)))
  {
  }

  lemma StepKeepsInv(st: State, a: Action)
    requires Inv(st) && Enabled(st, a)
    ensures Inv(Apply(st, a))
  {
    if a.Writes? {
      WriteKeepsRest(st, a.c, a.ok);
      WriteKeepsCovered(st, a.c, a.ok);
      WriteKeepsRowsDue(st, a.c, a.ok);
      WriteKeepsCallsDue(st, a.c, a.ok);
    } else if a.Calls? || a.Proceeds? {
      CallKeepsInv(st, a);
    } else if a.Ticks? {
      TickKeepsInv(st, a.to);
    } else if a.Acquires? {
      AcquireKeepsInv(st, a.c);
    } else {
      CheckKeepsInv(st, a.c);
    }
  }

  ghost predicate Reaches(st: State, acts: seq<Action>, end: State)
    decreases |acts|
  {
    if acts == [] then st == end
    else Enabled(st, acts[0]) && Reaches(Apply(st, acts[0]), acts[1..], end)
  }

  lemma {:induction false} RunKeepsInv(st: State, acts: seq<Action>, end: State)
    requires Inv(st) && Reaches(st, acts, end)
    ensures Inv(end)
    decreases |acts|
  {
    if acts != [] {
      StepKeepsInv(st, acts[0]);
      RunKeepsInv(Apply(st, acts[0]), acts[1..], end);
    }
  }

  // ---- what holds however the callers interleave ----

  /** Two events of one kind and key are more than the later one's window apart, if both were
      written with a positive window; and nothing unmapped is ever recorded. */
  lemma RecordedApart(acts: seq<Action>, st: State, i: nat, j: nat)
    requires Reaches(Init(), acts, st) && i < j < |st.rows|
    requires Of(st.rows[i], st.rows[j].kind, st.rows[j].key) && st.rows[i].window > 0 && st.rows[j].window > 0
    ensures st.rows[j].at - st.rows[i].at > st.rows[j].window
    ensures Mapped(st.rows[i].kind, st.rows[i].tag) && Mapped(st.rows[j].kind, st.rows[j].tag)
  {
    RunKeepsInv(Init(), acts, st);
    assert Apart(st.rows[i], st.rows[j]);
  }

  /** A finished call leaves what it reported on record, in a row no older than its window before
      the moment it was called, unless its write failed, or its kind of report is not recorded. */
  lemma ReportedIsOnRecord(acts: seq<Action>, st: State, c: CallId)
    requires Reaches(Init(), acts, st) && c in st.calls && (st.calls[c].stage.Recorded? || st.calls[c].stage.Deduped?)
    ensures var q := st.calls[c].request;
            Recently(st.rows, q.kind, q.key, st.calls[c].calledAt - if q.window > 0 then q.window else 0)
  {
    RunKeepsInv(Init(), acts, st);
    assert CallCovered(st.rows, st.calls[c]);
  }

  /** Every escalation is preceded by an observation of the same request at least the threshold
      earlier. */
  lemma EscalationsAreDue(acts: seq<Action>, st: State, i: nat)
    requires Reaches(Init(), acts, st) && i < |st.rows| && st.rows[i].kind.Escalation?
    ensures exists j :: 0 <= j < |st.rows| && Of(st.rows[j], Observation, st.rows[i].key)
                        && st.rows[j].at + st.rows[i].threshold <= st.rows[i].at
  {
    RunKeepsInv(Init(), acts, st);
    assert Preceded(st.rows, st.rows[i].key, st.rows[i].at - st.rows[i].threshold);
  }
}
