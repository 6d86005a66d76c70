/** Paged bar history: pages arrive newest first; the bars read are deduplicated by time,
    trimmed to the newest `limit`, and sorted. The first page can be shown at once, the rest is
    read from a cursor. */
module History {
  import opened Common

  const MAX_PAGES := 20

  datatype Values = Values(open: real, high: real, low: real, close: real, volume: real)
  datatype Bar = Bar(time: int, values: Values)

  /** A row with its time in milliseconds, or one whose fields do not convert. */
  datatype Row = Good(millis: int, values: Values) | Malformed

  /** What a request brings: no usable answer, a status other than OK, or rows and perhaps a
      link to the next page. */
  datatype Page = Failed | NotOk | Page(rows: seq<Row>, next: bool)

  /** The answer to the k-th request of a history. */
  type Provider = nat -> Page

  datatype Cursor = Cursor(bars: seq<Bar>, pages: nat)

  function BarsOf(rows: seq<Row>): seq<Bar> {
    if rows == [] then []
    else BarsOf(rows[..|rows| - 1]) + BarOf(rows[|rows| - 1])
  }

  function BarOf(row: Row): seq<Bar> {
    match row
    case Good(millis, values) => [Bar(millis / 1000, values)]
    case Malformed => []
  }

  // ---- dedupe, trim, sort ----

  function Times(bars: seq<Bar>): set<int> {
    set b | b in bars :: b.time
  }

  /** The first bar of each time, in order of arrival. */
  function Dedup(bars: seq<Bar>): seq<Bar> {
    if bars == [] then []
    else
      var n := |bars| - 1;
      Dedup(bars[..n]) + if bars[n].time in Times(bars[..n]) then [] else [bars[n]]
  }

  function Trim(bars: seq<Bar>, limit: nat): seq<Bar> {
    if |bars| <= limit then bars else bars[..limit]
  }

  function Insert(b: Bar, sorted: seq<Bar>): seq<Bar> {
    if sorted == [] || b.time <= sorted[0].time then [b] + sorted
    else [sorted[0]] + Insert(b, sorted[1..])
  }

  /** A stable sort by time. */
  function Sort(bars: seq<Bar>): seq<Bar> {
    if bars == [] then [] else Insert(bars[0], Sort(bars[1..]))
  }

  function Finalize(bars: seq<Bar>, limit: nat): seq<Bar> {
    Sort(Trim(Dedup(bars), limit))
  }

  method FinalizeBars(bars: seq<Bar>, limit: nat) returns (r: seq<Bar>)
    ensures r == Finalize(bars, limit)
  {
    var seen: set<int> := {};
    var deduped: seq<Bar> := [];
    for i := 0 to |bars|
      invariant seen == Times(bars[..i]) && deduped == Dedup(bars[..i])
    {
      assert bars[..i + 1] == bars[..i] + [bars[i]];
      assert Times(bars[..i + 1]) == Times(bars[..i]) + {bars[i].time};
      if bars[i].time !in seen {
        seen := seen + {bars[i].time};
        deduped := deduped + [bars[i]];
      }
    }
    assert bars[..|bars|] == bars;
    return Sort(Trim(deduped, limit));
  }

  ghost predicate NewestFirst(bars: seq<Bar>) {
    forall i, j :: 0 <= i < j < |bars| ==> bars[i].time >= bars[j].time
  }

  ghost predicate StrictlyFalling(bars: seq<Bar>) {
    forall i, j :: 0 <= i < j < |bars| ==> bars[i].time > bars[j].time
  }

  ghost predicate StrictlyRising(bars: seq<Bar>) {
    forall i, j :: 0 <= i < j < |bars| ==> bars[i].time < bars[j].time
  }

  function Reversed(bars: seq<Bar>): seq<Bar> {
    seq(|bars|, i requires 0 <= i < |bars| => bars[|bars| - 1 - i])
  }

  /** Every bar kept is the first of its time, and every time is kept. */
  lemma {:induction false} DedupKeepsTimes(bars: seq<Bar>)
    ensures Times(Dedup(bars)) == Times(bars) && |Dedup(bars)| == |Times(bars)|
    decreases |bars|
  {
    if bars != [] {
      var n := |bars| - 1;
      DedupKeepsTimes(bars[..n]);
      assert bars == bars[..n] + [bars[n]];
      assert Times(bars) == Times(bars[..n]) + {bars[n].time};
      if bars[n].time in Times(bars[..n]) {
        assert Times(bars) == Times(bars[..n]);
      } else {
        assert Times(Dedup(bars)) == Times(Dedup(bars[..n])) + {bars[n].time};
      }
    } else {
      assert Times(bars) == {};
    }
  }

  /** `b` is the bar that came first among those of its time. */
  ghost predicate FirstOfTime(bars: seq<Bar>, b: Bar) {
    exists i :: 0 <= i < |bars| && bars[i] == b && forall j :: 0 <= j < i ==> bars[j].time != b.time
  }

  lemma {:induction false} DedupKeepsFirst(bars: seq<Bar>, b: Bar)
    requires b in Dedup(bars)
    ensures FirstOfTime(bars, b)
    decreases |bars|
  {
    var n := |bars| - 1;
    if b in Dedup(bars[..n]) {
      DedupKeepsFirst(bars[..n], b);
      var i :| 0 <= i < n && bars[..n][i] == b && forall j :: 0 <= j < i ==> bars[..n][j].time != b.time;
      assert bars[i] == b && forall j :: 0 <= j < i ==> bars[j].time == bars[..n][j].time;
    } else {
      assert bars[n] == b && b.time !in Times(bars[..n]);
      forall j | 0 <= j < n ensures bars[j].time != b.time {
        assert bars[..n][j] == bars[j] && bars[j] in bars[..n];
      }
    }
  }

  lemma {:induction false} DedupFalls(bars: seq<Bar>)
    requires NewestFirst(bars)
    ensures StrictlyFalling(Dedup(bars))
    decreases |bars|
  {
    if bars != [] {
      var n := |bars| - 1;
      DedupFalls(bars[..n]);
      var d := Dedup(bars[..n]);
      forall i | 0 <= i < |d| && bars[n].time !in Times(bars[..n]) ensures d[i].time > bars[n].time {
        DedupKeepsFirst(bars[..n], d[i]);
        assert d[i] in bars[..n] && d[i].time in Times(bars[..n]);
      }
    }
  }

  lemma {:induction false} InsertLast(b: Bar, sorted: seq<Bar>)
    requires forall i :: 0 <= i < |sorted| ==> sorted[i].time < b.time
    ensures Insert(b, sorted) == sorted + [b]
    decreases |sorted|
  {
    if sorted != [] {
      InsertLast(b, sorted[1..]);
    }
  }

  lemma {:induction false} SortReverses(bars: seq<Bar>)
    requires StrictlyFalling(bars)
    ensures Sort(bars) == Reversed(bars)
    decreases |bars|
  {
    if bars != [] {
      SortReverses(bars[1..]);
      InsertLast(bars[0], Reversed(bars[1..]));
      assert Reversed(bars) == Reversed(bars[1..]) + [bars[0]];
    }
  }

  lemma FinalizeReverses(bars: seq<Bar>, limit: nat)
    requires NewestFirst(bars)
    ensures StrictlyFalling(Dedup(bars)) && Finalize(bars, limit) == Reversed(Trim(Dedup(bars), limit))
  {
    DedupFalls(bars);
    SortReverses(Trim(Dedup(bars), limit));
  }

  /** There are as many bars as the limit allows, all of them newer than `b`. */
  ghost predicate IsOlder(b: Bar, bars: seq<Bar>, limit: nat) {
    |bars| == limit && forall k :: 0 <= k < |bars| ==> b.time < bars[k].time
  }

  lemma ReversedFalling(d: seq<Bar>, limit: nat)
    requires StrictlyFalling(d)
    ensures var r := Reversed(Trim(d, limit));
            StrictlyRising(r) && forall b <- r :: b in d
  {
  }

  lemma LeftOutAreOlder(d: seq<Bar>, limit: nat, i: nat)
    requires StrictlyFalling(d) && i < |d|
    ensures var r := Reversed(Trim(d, limit));
            d[i] in r || IsOlder(d[i], r, limit)
  {
    var t := Trim(d, limit);
    if i < |t| {
      assert Reversed(t)[|t| - 1 - i] == d[i];
    }
  }

  /** Bars that arrive newest first end up as the newest `limit` distinct ones, oldest first:
      strictly rising, each the first to arrive of its time, as many as the limit and the bars
      allow, and every bar left out is a repeat or older than all of them. */
  lemma NewestBars(bars: seq<Bar>, limit: nat)
    requires NewestFirst(bars)
    ensures var r := Finalize(bars, limit);
            && StrictlyRising(r)
            && |r| == (if |Times(bars)| <= limit then |Times(bars)| else limit)
            && (forall b <- r :: FirstOfTime(bars, b))
            && (forall b <- bars :: b.time in Times(r) || IsOlder(b, r, limit))
  {
    DedupKeepsTimes(bars);
    FinalizeReverses(bars, limit);
    ReversedFalling(Dedup(bars), limit);
    var r := Finalize(bars, limit);
    forall b <- r ensures FirstOfTime(bars, b) {
      DedupKeepsFirst(bars, b);
    }
    forall b <- bars ensures b.time in Times(r) || IsOlder(b, r, limit) {
      assert b.time in Times(Dedup(bars));
      var i :| 0 <= i < |Dedup(bars)| && Dedup(bars)[i].time == b.time;
      LeftOutAreOlder(Dedup(bars), limit, i);
    }
  }

  // ---- reading pages ----

  /** Pages from the k-th on are read until there are `limit` bars, no next page, a failure, or
      the cap is reached. Returns all bars and the number of pages read. */
  function ReadFrom(provider: Provider, bars: seq<Bar>, k: nat, limit: nat): (r: (seq<Bar>, nat))
    ensures k <= MAX_PAGES ==> k <= r.1 <= MAX_PAGES
    decreases MAX_PAGES - k
  {
    if k >= MAX_PAGES then (bars, k)
    else match provider(k)
      case Failed => (bars, k)
      case NotOk => (bars, k + 1)
      case Page(rows, next) =>
        var all := bars + BarsOf(rows);
        if |all| >= limit || !next then (all, k + 1) else ReadFrom(provider, all, k + 1, limit)
  }

  method RowsToBars(rows: seq<Row>, bars: seq<Bar>) returns (all: seq<Bar>)
    ensures all == bars + BarsOf(rows)
  {
    all := bars;
    for i := 0 to |rows|
      invariant all == bars + BarsOf(rows[..i])
    {
      assert rows[..i + 1][..i] == rows[..i];
      if rows[i].Good? {
        all := all + [Bar(rows[i].millis / 1000, rows[i].values)];
      }
    }
    assert rows[..|rows|] == rows;
  }

  function FirstPage(provider: Provider, limit: nat): (seq<Bar>, Option<Cursor>) {
    match provider(0)
    case Failed => ([], None)
    case NotOk => ([], None)
    case Page(rows, next) =>
      var bars := BarsOf(rows);
      (Finalize(bars, limit), if |bars| < limit && next then Some(Cursor(bars, 1)) else None)
  }

  function Remaining(provider: Provider, cursor: Cursor, limit: nat): seq<Bar> {
    Finalize(ReadFrom(provider, cursor.bars, cursor.pages, limit).0, limit)
  }

  method FetchFirstPage(provider: Provider, limit: nat) returns (bars: seq<Bar>, cursor: Option<Cursor>)
    ensures (bars, cursor) == FirstPage(provider, limit)
  {
    cursor := None;
    match provider(0) {
      case Failed => bars := [];
      case NotOk => bars := [];
      case Page(rows, next) =>
        var pageBars := RowsToBars(rows, []);
        assert [] + BarsOf(rows) == BarsOf(rows);
        if |pageBars| < limit && next {
          cursor := Some(Cursor(pageBars, 1));
        }
        bars := FinalizeBars(pageBars, limit);
    }
  }

  method FetchRemaining(provider: Provider, cursor: Cursor, limit: nat) returns (r: seq<Bar>)
    requires cursor.pages <= MAX_PAGES
    ensures r == Remaining(provider, cursor, limit)
  {
    var all, pages := cursor.bars, cursor.pages;
    var more := true;
    while more && pages < MAX_PAGES
      invariant pages <= MAX_PAGES
      invariant if more then ReadFrom(provider, all, pages, limit) == ReadFrom(provider, cursor.bars, cursor.pages, limit)
                else all == ReadFrom(provider, cursor.bars, cursor.pages, limit).0
      decreases if more then 1 else 0, MAX_PAGES - pages
    {
      match provider(pages) {
        case Failed => more := false;
        case NotOk =>
          pages := pages + 1;
          more := false;
        case Page(rows, next) =>
          all := RowsToBars(rows, all);
          pages := pages + 1;
          more := |all| < limit && next;
      }
    }
    r := FinalizeBars(all, limit);
  }

  method FetchHistory(provider: Provider, limit: nat) returns (r: seq<Bar>)
    ensures r == Finalize(ReadFrom(provider, [], 0, limit).0, limit)
  {
    var first, cursor := FetchFirstPage(provider, limit);
    SplitIsWhole(provider, limit);
    if cursor.None? {
      return first;
    }
    r := FetchRemaining(provider, cursor.value, limit);
  }

  /** The first page and the rest make up what one uninterrupted read would have brought. */
  lemma SplitIsWhole(provider: Provider, limit: nat)
    ensures var (first, cursor) := FirstPage(provider, limit);
            (if cursor.None? then first else Remaining(provider, cursor.value, limit))
            == Finalize(ReadFrom(provider, [], 0, limit).0, limit)
  {
    assert Dedup([]) == [] && Sort([]) == [];
    if provider(0).Page? {
      assert [] + BarsOf(provider(0).rows) == BarsOf(provider(0).rows);
    }
  }

  lemma {:induction false} ReadExtends(provider: Provider, bars: seq<Bar>, k: nat, limit: nat)
    ensures bars <= ReadFrom(provider, bars, k, limit).0
    decreases MAX_PAGES - k
  {
    if k < MAX_PAGES && provider(k).Page? {
      var all := bars + BarsOf(provider(k).rows);
      if |all| < limit && provider(k).next {
        ReadExtends(provider, all, k + 1, limit);
      }
    }
  }

  lemma {:induction false} DedupOfPrefix(bars: seq<Bar>, more: seq<Bar>)
    requires bars <= more
    ensures Dedup(bars) <= Dedup(more)
    decreases |more|
  {
    if |bars| < |more| {
      DedupOfPrefix(bars, more[..|more| - 1]);
    } else {
      assert bars == more;
    }
  }

  /** When a cursor is returned, what was shown first is the end of the final result, unchanged:
      the remaining pages only add older bars in front of it. */
  lemma FirstPaintIsSuffix(provider: Provider, limit: nat)
    requires FirstPage(provider, limit).1.Some?
    requires NewestFirst(ReadFrom(provider, [], 0, limit).0)
    ensures var first := FirstPage(provider, limit).0;
            var last := Finalize(ReadFrom(provider, [], 0, limit).0, limit);
            |first| <= |last| && last[|last| - |first|..] == first
  {
    var page := BarsOf(provider(0).rows);
    assert [] + page == page;
    ReadExtends(provider, page, 1, limit);
    MoreBarsExtend(page, ReadFrom(provider, [], 0, limit).0, limit);
  }

  lemma MoreBarsExtend(page: seq<Bar>, all: seq<Bar>, limit: nat)
    requires page <= all && |page| <= limit && NewestFirst(all)
    ensures var first, last := Finalize(page, limit), Finalize(all, limit);
            |first| <= |last| && last[|last| - |first|..] == first
  {
    DedupOfPrefix(page, all);
    FinalizeReverses(all, limit);
    PrefixFalls(Dedup(page), Dedup(all));
    SortReverses(Dedup(page));
    DedupKeepsTimes(page);
    TimesBound(page);
    PrefixReversesToSuffix(Dedup(page), Dedup(all), limit);
  }

  lemma PrefixFalls(d: seq<Bar>, e: seq<Bar>)
    requires d <= e && StrictlyFalling(e)
    ensures StrictlyFalling(d)
  {
    forall i, j | 0 <= i < j < |d| ensures d[i].time > d[j].time {
      assert d[i] == e[i] && d[j] == e[j];
    }
  }

  lemma PrefixReversesToSuffix(d: seq<Bar>, e: seq<Bar>, limit: nat)
    requires d <= e && |d| <= limit
    ensures var last := Reversed(Trim(e, limit));
            |d| <= |last| && last[|last| - |d|..] == Reversed(d) && Trim(d, limit) == d
  {
    var t := Trim(e, limit);
    assert forall i :: 0 <= i < |d| ==> t[i] == d[i];
  }

  lemma {:induction false} TimesBound(bars: seq<Bar>)
    ensures |Times(bars)| <= |bars|
    decreases |bars|
  {
    if bars == [] {
      assert Times(bars) == {};
    } else {
      var n := |bars| - 1;
      TimesBound(bars[..n]);
      assert bars == bars[..n] + [bars[n]];
      assert Times(bars) == Times(bars[..n]) + {bars[n].time};
    }
  }
}
