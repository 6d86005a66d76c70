/** The audit trail's writers, run one after the other: single observations, batches of alerts
    and stuck executions, and the escalation pass. */
module AuditTrail {
  import opened Common
  import opened AuditDedup

  /** One recording call: nothing for an unmapped tag, nothing within the window, else a row
      if the write succeeds. */
  function RecordOne(rows: seq<Row>, q: Request, now: int, ok: bool): (seq<Row>, Stage) {
    if !Mapped(q.kind, q.tag) then (rows, Ignored)
    else if q.window > 0 && Recently(rows, q.kind, q.key, now - q.window) then (rows, Deduped)
    else if ok then (rows + [Row(q.kind, q.key, q.tag, now, q.window, q.threshold)], Recorded)
    else (rows, Failed)
  }

  /** A reported item: its key and tag, the time at which it is handled, and whether its write
      succeeds. */
  datatype Item = Item(key: Key, tag: Tag, now: int, ok: bool)

  function RecordAll(rows: seq<Row>, kind: Kind, items: seq<Item>, window: int): seq<Row> {
    if items == [] then rows
    else
      var it := items[|items| - 1];
      RecordOne(RecordAll(rows, kind, items[..|items| - 1], window), Request(kind, it.key, it.tag, window, 0), it.now, it.ok).0
  }

  /** The escalation pass: it judges all candidates against the history as it stood before. */
  function EscalateAll(rows: seq<Row>, before: seq<Row>, items: seq<Item>, now: int, threshold: int, window: int): seq<Row> {
    if items == [] then rows
    else
      var it := items[|items| - 1];
      var rest := EscalateAll(rows, before, items[..|items| - 1], now, threshold, window);
      EscalateOne(rest, FirstObserved(before, it.key), it, now, threshold, window)
  }

  function EscalateOne(rows: seq<Row>, first: Option<int>, it: Item, now: int, threshold: int, window: int): seq<Row> {
    if first.None? || now - first.value < threshold then rows
    else RecordOne(rows, Request(Escalation, it.key, it.tag, window, threshold), it.now, it.ok).0
  }

  /** A call that nothing interrupts is exactly one recording. */
  lemma UninterruptedCall(st: State, c: CallId, q: Request, ok: bool)
    requires st.lock.None? && c !in st.calls && q.window > 0 && Mapped(q.kind, q.tag) && !q.kind.Escalation?
    ensures Enabled(st, Calls(c, q))
    ensures var s1 := Apply(st, Calls(c, q));
            Enabled(s1, Acquires(c)) &&
            var s2 := Apply(s1, Acquires(c));
            Enabled(s2, Checks(c)) &&
            var s3 := Apply(s2, Checks(c));
            var s4 := if Enabled(s3, Writes(c, ok)) then Apply(s3, Writes(c, ok)) else s3;
            s4.lock.None? && (s4.rows, s4.calls[c].stage) == RecordOne(st.rows, q, st.clock, ok)
  {
  }

  class Trail {
    var rows: seq<Row>

    constructor ()
      ensures rows == []
    {
      rows := [];
    }

    method Record(q: Request, now: int, ok: bool) returns (stage: Stage)
      modifies this
      ensures (rows, stage) == RecordOne(old(rows), q, now, ok)
    {
      if !Mapped(q.kind, q.tag) {
        return Ignored;
      }
      if q.window > 0 {
        var cutoff := now - q.window;
        var alreadyRecorded := Recently(rows, q.kind, q.key, cutoff);
        if alreadyRecorded {
          return Deduped;
        }
      }
      if ok {
        rows := rows + [Row(q.kind, q.key, q.tag, now, q.window, q.threshold)];
        return Recorded;
      }
      return Failed;
    }

    /** Alerts, or candidates for observation; case C is left out before it gets here. */
    method RecordActive(kind: Kind, items: seq<Item>, window: int) returns (written: nat)
      modifies this
      ensures rows == RecordAll(old(rows), kind, items, window)
      ensures written == |rows| - |old(rows)| && old(rows) <= rows
    {
      written := 0;
      for i := 0 to |items|
        invariant rows == RecordAll(old(rows), kind, items[..i], window)
        invariant written == |rows| - |old(rows)| && old(rows) <= rows
      {
        assert items[..i + 1][..i] == items[..i];
        if items[i].tag != CaseC {
          var stage := Record(Request(kind, items[i].key, items[i].tag, window, 0), items[i].now, items[i].ok);
          if stage.Recorded? {
            written := written + 1;
          }
        }
      }
      assert items[..|items|] == items;
    }

    method EscalateCandidate(first: Option<int>, it: Item, now: int, threshold: int, window: int) returns (isNew: bool)
      modifies this
      ensures rows == EscalateOne(old(rows), first, it, now, threshold, window)
      ensures |rows| == |old(rows)| + (if isNew then 1 else 0) && old(rows) <= rows
    {
      if first.None? || now - first.value < threshold {
        return false;
      }
      var stage := Record(Request(Escalation, it.key, it.tag, window, threshold), it.now, it.ok);
      isNew := stage.Recorded?;
    }

    method Escalate(items: seq<Item>, now: int, threshold: int, window: int) returns (written: nat)
      modifies this
      ensures rows == EscalateAll(old(rows), old(rows), Candidates(items), now, threshold, window)
      ensures written == |rows| - |old(rows)| && old(rows) <= rows
    {
      var candidates := Candidates(items);
      ghost var before := rows;
      var first := map it | it in candidates :: it.key := FirstObserved(rows, it.key);
      written := 0;
      for i := 0 to |candidates|
        invariant rows == EscalateAll(before, before, candidates[..i], now, threshold, window)
        invariant written == |rows| - |before| && before <= rows
      {
        assert candidates[..i + 1][..i] == candidates[..i];
        var it := candidates[i];
        assert it in candidates;
        var isNew := EscalateCandidate(first[it.key], it, now, threshold, window);
        written := written + if isNew then 1 else 0;
      }
      assert candidates[..|candidates|] == candidates;
    }
  }

  function Candidates(items: seq<Item>): seq<Item> {
    if items == [] then []
    else
      Candidates(items[..|items| - 1])
      + if Mapped(Observation, items[|items| - 1].tag) then [items[|items| - 1]] else []
  }

  /** What leaves no trace, whatever the history: exactly an alert below high severity, and for
      stuck executions case C and what is no case at all. Only what would be recorded is ever a
      candidate for escalation. */
  lemma IgnoredExactly(rows: seq<Row>, q: Request, now: int, ok: bool)
    ensures RecordOne(rows, q, now, ok).1.Ignored?
            <==> if q.kind.Alert? then q.tag !in {Critical, High}
                 else q.tag in {CaseC, Critical, High, Medium, Low}
    ensures RecordOne(rows, q, now, ok).1.Ignored? ==> RecordOne(rows, q, now, ok).0 == rows
  {
  }

  lemma {:induction false} CandidatesAre(items: seq<Item>, it: Item)
    ensures it in Candidates(items) <==> it in items && it.tag !in {CaseC, Critical, High, Medium, Low}
    decreases |items|
  {
    if items != [] {
      CandidatesAre(items[..|items| - 1], it);
      Snoc(items);
    }
  }

  /** Handling one batch twice at times less than the window apart adds nothing the second time
      for what the first time found or put on record. */
  lemma SecondRunIsDeduped(rows: seq<Row>, q: Request, now: int, later: int)
    requires Mapped(q.kind, q.tag) && q.window > 0 && now <= later <= now + q.window
    ensures var once := RecordOne(rows, q, now, true);
            once.1.Recorded? ==> RecordOne(once.0, q, later, true) == (once.0, Deduped)
  {
    var once := RecordOne(rows, q, now, true).0;
    if RecordOne(rows, q, now, true).1.Recorded? {
      assert Of(once[|rows|], q.kind, q.key) && once[|rows|].at >= later - q.window;
    }
  }
}
