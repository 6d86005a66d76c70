/** The durable last known price: one row per symbol, written by delayed and reordered writers,
    never to be overwritten by an older observation. */
module DurablePrice {
  import opened Common

  type Symbol = nat

  datatype Source = Massive | Binance | Kraken | Finnhub | Sim | Other

  datatype Write = Write(observedAt: int, bid: real, ask: real, mid: real, source: Source)

  predicate Accepted(w: Write) {
    !w.source.Sim? && !w.source.Other?
  }

  /** A write as one transaction: the conditional update, else the insert if there is no row. */
  function After(row: Option<Write>, w: Write): Option<Write> {
    if !Accepted(w) then row
    else if row.None? || row.value.observedAt <= w.observedAt then Some(w)
    else row
  }

  function AfterAll(row: Option<Write>, writes: seq<Write>): Option<Write> {
    if writes == [] then row else After(AfterAll(row, writes[..|writes| - 1]), writes[|writes| - 1])
  }

  ghost predicate DistinctTimes(writes: seq<Write>) {
    forall i, j :: 0 <= i < j < |writes| ==> writes[i].observedAt != writes[j].observedAt
  }

  /** The row is at least as new as before and as every accepted write, and it is one of them. */
  ghost predicate IsNewest(row: Option<Write>, before: Option<Write>, writes: seq<Write>) {
    && (row == before || (row.Some? && row.value in writes && Accepted(row.value)))
    && (before.Some? ==> row.Some? && before.value.observedAt <= row.value.observedAt)
    && forall w <- writes :: Accepted(w) ==> row.Some? && w.observedAt <= row.value.observedAt
  }

  lemma {:induction false} StoredIsNewest(row: Option<Write>, writes: seq<Write>)
    ensures IsNewest(AfterAll(row, writes), row, writes)
    decreases |writes|
  {
    if writes != [] {
      var n := |writes| - 1;
      StoredIsNewest(row, writes[..n]);
      assert writes == writes[..n] + [writes[n]];
    }
  }

  /** The stored time never decreases on the way. */
  lemma NeverOlder(row: Option<Write>, writes: seq<Write>, k: nat)
    requires k < |writes| && AfterAll(row, writes[..k]).Some?
    ensures AfterAll(row, writes[..k + 1]).Some?
    ensures AfterAll(row, writes[..k]).value.observedAt <= AfterAll(row, writes[..k + 1]).value.observedAt
  {
    assert writes[..k + 1][..k] == writes[..k];
  }

  /** Once an accepted write at least as new as the starting row has come, the row is one of the
      writes, even if the starting row looked the same. */
  lemma {:induction false} StartOvertaken(row: Option<Write>, writes: seq<Write>, w: Write)
    requires w in writes && Accepted(w) && (row.Some? ==> row.value.observedAt <= w.observedAt)
    ensures var end := AfterAll(row, writes); end.Some? && end.value in writes && Accepted(end.value)
    decreases |writes|
  {
    var n := |writes| - 1;
    Snoc(writes);
    StoredIsNewest(row, writes[..n]);
    if w in writes[..n] {
      StartOvertaken(row, writes[..n], w);
    }
  }

  /** In whatever order writes of distinct times complete, and whatever is stored before, the
      table ends up the same. */
  lemma AnyOrderConverges(row: Option<Write>, writes: seq<Write>, others: seq<Write>)
    requires multiset(writes) == multiset(others) && DistinctTimes(writes)
    ensures AfterAll(row, writes) == AfterAll(row, others)
  {
    StoredIsNewest(row, writes);
    StoredIsNewest(row, others);
    SameElements(writes, others);
    if w :| w in writes && Accepted(w) && (row.Some? ==> row.value.observedAt <= w.observedAt) {
      StartOvertaken(row, writes, w);
      StartOvertaken(row, others, w);
      NewestIsOne(writes, AfterAll(row, writes).value, AfterAll(row, others).value);
    } else {
      NothingNewer(row, writes, AfterAll(row, writes));
      NothingNewer(row, others, AfterAll(row, others));
    }
  }

  lemma NewestIsOne(writes: seq<Write>, a: Write, b: Write)
    requires DistinctTimes(writes) && a in writes && b in writes && a.observedAt == b.observedAt
    ensures a == b
  {
  }

  lemma NothingNewer(row: Option<Write>, writes: seq<Write>, end: Option<Write>)
    requires IsNewest(end, row, writes)
    requires forall w <- writes :: Accepted(w) ==> row.Some? && w.observedAt < row.value.observedAt
    ensures end == row
  {
  }

  lemma SameElements(writes: seq<Write>, others: seq<Write>)
    requires multiset(writes) == multiset(others)
    ensures forall w :: w in writes <==> w in others
  {
    forall w ensures w in writes <==> w in others {
      assert w in writes <==> w in multiset(writes);
      assert w in others <==> w in multiset(others);
    }
  }

  // ---- writers of several processes ----

  /** Across processes the update and the insert of an accepted write are two steps. A writer that updated
      no row goes on to insert; if it finds a row then, it leaves that row alone. */
  datatype Stage = Idle | Inserting(sawEmpty: bool) | Stored | Skipped(sawEmpty: bool)

  datatype State = State(row: Option<Write>, stages: seq<Stage>)

  datatype Action = Update(i: nat) | Insert(i: nat)

  predicate Enabled(writes: seq<Write>, st: State, a: Action)
    requires |st.stages| == |writes|
  {
    a.i < |writes| && (if a.Update? then st.stages[a.i].Idle? else st.stages[a.i].Inserting?)
  }

  function Apply(writes: seq<Write>, st: State, a: Action): (next: State)
    requires |st.stages| == |writes| && Enabled(writes, st, a)
    ensures |next.stages| == |writes|
  {
    var w := writes[a.i];
    match a
    case Update(i) =>
      if st.row.Some? && st.row.value.observedAt <= w.observedAt then State(Some(w), st.stages[i := Stored])
      else st.(stages := st.stages[i := Inserting(st.row.None?)])
    case Insert(i) =>
      if st.row.None? then State(Some(w), st.stages[i := Stored])
      else st.(stages := st.stages[i := Skipped(st.stages[i].sawEmpty)])
  }

  function Init(row: Option<Write>, writes: seq<Write>): State {
    State(row, seq(|writes|, i => Idle))
  }

  ghost predicate Reaches(writes: seq<Write>, st: State, acts: seq<Action>, end: State)
    requires |st.stages| == |writes|
    decreases |acts|
  {
    if acts == [] then st == end
    else Enabled(writes, st, acts[0]) && Reaches(writes, Apply(writes, st, acts[0]), acts[1..], end)
  }

  /** Nothing stored is older than what was stored before; and a writer that saw a row while
      inserting, or after having seen one, gave way to something at least as new. */
  ghost predicate Inv(before: Option<Write>, writes: seq<Write>, st: State) {
    && |st.stages| == |writes|
    && (st.row == before || (st.row.Some? && exists j :: 0 <= j < |writes| && writes[j] == st.row.value && st.stages[j].Stored?))
    && (before.Some? ==> st.row.Some? && before.value.observedAt <= st.row.value.observedAt)
    && forall j :: 0 <= j < |writes| ==> StageFits(before, writes[j], st.stages[j], st.row)
  }

  predicate StageFits(before: Option<Write>, w: Write, stage: Stage, row: Option<Write>) {
    match stage
    case Idle => true
    case Inserting(sawEmpty) => if sawEmpty then before.None? else row.Some? && w.observedAt < row.value.observedAt
    case Stored => row.Some? && w.observedAt <= row.value.observedAt
    case Skipped(sawEmpty) => row.Some? && (if sawEmpty then before.None? else w.observedAt < row.value.observedAt)
  }

  lemma StepKeepsInv(before: Option<Write>, writes: seq<Write>, st: State, a: Action)
    requires Inv(before, writes, st) && Enabled(writes, st, a)
    ensures Inv(before, writes, Apply(writes, st, a))
    ensures st.row.Some? ==> Apply(writes, st, a).row.Some?
                             && st.row.value.observedAt <= Apply(writes, st, a).row.value.observedAt
  {
    var next := Apply(writes, st, a);
    if next.row != before {
      if next.row == st.row {
        var j :| 0 <= j < |writes| && writes[j] == st.row.value && st.stages[j].Stored?;
        assert next.stages[j].Stored?;
      } else {
        assert next.stages[a.i].Stored?;
      }
    }
    assert StageFits(before, writes[a.i], st.stages[a.i], st.row);
    forall j | 0 <= j < |writes| ensures StageFits(before, writes[j], next.stages[j], next.row) {
      assert StageFits(before, writes[j], st.stages[j], st.row);
    }
  }

  lemma {:induction false} RunKeepsInv(before: Option<Write>, writes: seq<Write>, st: State, acts: seq<Action>, end: State)
    requires Inv(before, writes, st) && Reaches(writes, st, acts, end)
    ensures Inv(before, writes, end)
    decreases |acts|
  {
    if acts != [] {
      StepKeepsInv(before, writes, st, acts[0]);
      RunKeepsInv(before, writes, Apply(writes, st, acts[0]), acts[1..], end);
    }
  }

  predicate Finished(stage: Stage) { stage.Stored? || stage.Skipped? }

  predicate NewestWrite(before: Option<Write>, writes: seq<Write>, m: nat) {
    && m < |writes|
    && (before.Some? ==> before.value.observedAt < writes[m].observedAt)
    && forall j :: 0 <= j < |writes| && j != m ==> writes[j].observedAt < writes[m].observedAt
  }

  /** However the steps interleave, once the newest write has finished it is what is stored,
      unless it found the table empty first and a row when it came to insert. */
  lemma NewestStoredUnlessRaced(before: Option<Write>, writes: seq<Write>, acts: seq<Action>, st: State, m: nat)
    requires Reaches(writes, Init(before, writes), acts, st) && NewestWrite(before, writes, m)
    requires Inv(before, writes, st) && Finished(st.stages[m])
    ensures st.row == Some(writes[m]) <==> st.stages[m] != Skipped(true)
    ensures st.stages[m] != Skipped(false)
  {
    assert StageFits(before, writes[m], st.stages[m], st.row);
    if st.row != before {
      var j :| 0 <= j < |writes| && writes[j] == st.row.value && st.stages[j].Stored?;
      assert writes[j].observedAt <= writes[m].observedAt;
    }
  }

  ghost predicate CanLose(before: Option<Write>, writes: seq<Write>, m: nat) {
    exists acts, st :: Loses(before, writes, acts, st, m)
  }

  ghost predicate Loses(before: Option<Write>, writes: seq<Write>, acts: seq<Action>, st: State, m: nat)
  {
    m < |writes| && |st.stages| == |writes| && Reaches(writes, Init(before, writes), acts, st)
    && Finished(st.stages[m]) && st.row != Some(writes[m])
  }

  lemma InitInv(before: Option<Write>, writes: seq<Write>)
    ensures Inv(before, writes, Init(before, writes))
  {
  }

  /** The newest write can be lost exactly when the table starts empty and there is another
      write to race it: then the older one can be inserted between its two steps. */
  lemma NewestLostIffFirstRowRaced(before: Option<Write>, writes: seq<Write>, m: nat)
    requires NewestWrite(before, writes, m)
    ensures CanLose(before, writes, m) <==> before.None? && |writes| > 1
  {
    if before.None? && |writes| > 1 {
      Race(writes, m, if m == 0 then 1 else 0);
    } else {
      forall acts, st | Loses(before, writes, acts, st, m) ensures false {
        InitInv(before, writes);
        RunKeepsInv(before, writes, Init(before, writes), acts, st);
        NewestStoredUnlessRaced(before, writes, acts, st, m);
        assert StageFits(before, writes[m], st.stages[m], st.row);
        assert before.None? && |writes| == 1;
        OneWriterIsAlone(writes, Init(None, writes), acts, st);
      }
    }
  }

  /** With one writer and an empty table nobody else inserts. */
  lemma {:induction false} OneWriterIsAlone(writes: seq<Write>, st: State, acts: seq<Action>, end: State)
    requires |writes| == 1 == |st.stages| && Reaches(writes, st, acts, end)
    requires st.row.Some? ==> st.stages[0].Stored?
    requires !st.stages[0].Skipped?
    ensures |end.stages| == 1 && !end.stages[0].Skipped?
    decreases |acts|
  {
    if acts != [] {
      OneWriterIsAlone(writes, Apply(writes, st, acts[0]), acts[1..], end);
    }
  }

  lemma Race(writes: seq<Write>, m: nat, j: nat)
    requires NewestWrite(None, writes, m) && j < |writes| && j != m
    ensures CanLose(None, writes, m)
  {
    var s0 := Init(None, writes);
    var s1 := Apply(writes, s0, Update(m));
    var s2 := Apply(writes, s1, Update(j));
    var s3 := Apply(writes, s2, Insert(j));
    var s4 := Apply(writes, s3, Insert(m));
    var acts := [Update(m), Update(j), Insert(j), Insert(m)];
    assert Reaches(writes, s4, [], s4);
    assert [Insert(m)][1..] == [];
    assert Reaches(writes, s3, [Insert(m)], s4);
    assert [Insert(j), Insert(m)][1..] == [Insert(m)];
    assert Reaches(writes, s2, [Insert(j), Insert(m)], s4);
    assert [Update(j), Insert(j), Insert(m)][1..] == [Insert(j), Insert(m)];
    assert Reaches(writes, s1, [Update(j), Insert(j), Insert(m)], s4);
    assert acts[1..] == [Update(j), Insert(j), Insert(m)];
    assert Loses(None, writes, acts, s4, m);
  }

  // ---- the table ----

  class PriceTable {
    var rows: map<Symbol, Write>

    function Row(s: Symbol): Option<Write>
      reads this
    {
      if s in rows then Some(rows[s]) else None
    }

    constructor ()
      ensures rows == map[]
    {
      rows := map[];
    }

    method WriteDurablePrice(s: Symbol, w: Write)
      modifies this
      ensures Row(s) == After(old(Row(s)), w)
      ensures forall other :: other != s ==> Row(other) == old(Row(other))
    {
      if !Accepted(w) {
        return;
      }
      var updated := s in rows && rows[s].observedAt <= w.observedAt;
      if updated {
        rows := rows[s := w];
      } else if s !in rows {
        rows := rows[s := w];
      }
    }
  }
}
