/** Reference counting of the per-symbol feed tasks: chart consumers subscribe and unsubscribe,
    a reconciliation pass follows the open positions in the database, other threads mark and
    unmark symbols, and feed tasks may end by themselves. Each action is the code between two
    awaits; any interleaving is a run. */
module FeedRefcount {
  import opened Common

  type Symbol = nat
  type TaskId = nat
  type ConsumerId = nat

  /** The manager's own bookkeeping, with what has become of the tasks it created:
      `created[t]` is the symbol task `t` was created for. */
  datatype Book = Book(
    counts: map<Symbol, int>, tasks: map<Symbol, TaskId>, marked: set<Symbol>,
    created: map<TaskId, Symbol>, ended: set<TaskId>, cancelled: set<TaskId>)

  function Count(b: Book, s: Symbol): int {
    if s in b.counts then b.counts[s] else 0
  }

  // ---- the code between two awaits ----

  function EnsureRunning(b: Book, s: Symbol, id: TaskId): Book {
    if s !in b.tasks || b.tasks[s] in b.ended then
      b.(tasks := b.tasks[s := id], created := b.created[id := s])
    else b
  }

  function Stop(b: Book, s: Symbol): Book {
    var cancelled := if s in b.tasks && b.tasks[s] !in b.ended then b.cancelled + {b.tasks[s]} else b.cancelled;
    b.(tasks := b.tasks - {s}, cancelled := cancelled, counts := b.counts - {s})
  }

  function Subscribe(b: Book, s: Symbol, id: TaskId): Book {
    EnsureRunning(b.(counts := b.counts[s := Count(b, s) + 1]), s, id)
  }

  /** The decrement of `unsubscribe`: a missing entry reads as 1, and nothing goes below 0. */
  function Release(b: Book, s: Symbol): Book {
    var n := (if s in b.counts then b.counts[s] else 1) - 1;
    b.(counts := b.counts[s := if n < 0 then 0 else n])
  }

  predicate Unused(b: Book, s: Symbol) {
    Count(b, s) <= 0 && s !in b.marked
  }

  /** The last look of `unsubscribe`, after the database was asked. */
  function Recheck(b: Book, s: Symbol): Book {
    if Unused(b, s) then Stop(b, s) else b
  }

  function Adopt(b: Book, s: Symbol, id: TaskId, layer: bool): Book {
    var b := b.(marked := b.marked + {s});
    if layer then EnsureRunning(b, s, id) else b
  }

  function Abandon(b: Book, s: Symbol): Book {
    var b := b.(marked := b.marked - {s});
    if Count(b, s) <= 0 then Stop(b, s) else b
  }

  /** Reconciliation: adopts the newly found symbols in turn, then abandons the others.
      Task ids are handed out from `id` on. */
  function AdoptAll(b: Book, add: seq<Symbol>, id: TaskId, layer: bool): Book {
    if add == [] then b
    else Adopt(AdoptAll(b, add[..|add| - 1], id, layer), add[|add| - 1], id + |add| - 1, layer)
  }

  function AbandonAll(b: Book, remove: seq<Symbol>): Book {
    if remove == [] then b
    else Abandon(AbandonAll(b, remove[..|remove| - 1]), remove[|remove| - 1])
  }

  // ---- the protocol ----

  datatype Stage =
    | Away
    | Joining  // awaits the group registration
    | Here     // subscribed and counted
    | Leaving  // awaits the group removal, still counted
    | Lost     // was cut off while leaving: counted for good
    | Checking // no longer counted, awaits the database

  datatype Visit = Visit(symbol: Symbol, stage: Stage)

  /** `strayed` are the symbols whose last reference went without a look at the task, and that
      nobody has referred to since. */
  datatype State = State(book: Book, visits: map<ConsumerId, Visit>, strayed: set<Symbol>)

  function Init(): State {
    State(Book(map[], map[], {}, map[], {}, {}), map[], {})
  }

  datatype Action =
    | Arrives(i: ConsumerId, s: Symbol)
    | Joins(i: ConsumerId, id: TaskId)
    | Leaves(i: ConsumerId)
    | Left(i: ConsumerId)
    | Checked(i: ConsumerId)
    | CutOff(i: ConsumerId)
    | Marked(s: Symbol)
    | Unmarked(s: Symbol)
    | Adopts(s: Symbol, id: TaskId, layer: bool)
    | Abandons(s: Symbol)
    | TaskEnds(id: TaskId)

  function StageOf(st: State, i: ConsumerId): Stage {
    if i in st.visits then st.visits[i].stage else Away
  }

  predicate Enabled(st: State, a: Action) {
    match a
    case Arrives(i, _) => StageOf(st, i).Away?
    case Joins(i, id) => StageOf(st, i).Joining? && id !in st.book.created
    case Leaves(i) => StageOf(st, i).Here?
    case Left(i) => StageOf(st, i).Leaving?
    case Checked(i) => StageOf(st, i).Checking?
    case CutOff(i) => StageOf(st, i).Joining? || StageOf(st, i).Leaving? || StageOf(st, i).Checking?
    case Marked(_) => true
    case Unmarked(_) => true
    case Adopts(_, id, _) => id !in st.book.created
    case Abandons(_) => true
    case TaskEnds(id) => id in st.book.created && id !in st.book.ended
  }

  function Move(st: State, i: ConsumerId, stage: Stage): State
    requires i in st.visits
  {
    st.(visits := st.visits[i := st.visits[i].(stage := stage)])
  }

  function Apply(st: State, a: Action): State
    requires Enabled(st, a)
  {
    match a
    case Arrives(i, s) => st.(visits := st.visits[i := Visit(s, Joining)])
    case Joins(i, id) =>
      var s := st.visits[i].symbol;
      Move(st, i, Here).(book := Subscribe(st.book, s, id), strayed := st.strayed - {s})
    case Leaves(i) => Move(st, i, Leaving)
    case Left(i) =>
      var s := st.visits[i].symbol;
      var book := Release(st.book, s);
      Move(st, i, if Unused(book, s) then Checking else Away).(book := book)
    case Checked(i) => Move(st, i, Away).(book := Recheck(st.book, st.visits[i].symbol))
    case CutOff(i) =>
      if StageOf(st, i).Leaving? then Move(st, i, Lost)
      else if StageOf(st, i).Checking? then
        var s := st.visits[i].symbol;
        Move(st, i, Away).(strayed := if Unused(st.book, s) then st.strayed + {s} else st.strayed)
      else Move(st, i, Away)
    case Marked(s) => st.(book := st.book.(marked := st.book.marked + {s}), strayed := st.strayed - {s})
    case Unmarked(s) =>
      var book := st.book.(marked := st.book.marked - {s});
      st.(book := book, strayed := if Unused(book, s) then st.strayed + {s} else st.strayed)
    case Adopts(s, id, layer) => st.(book := Adopt(st.book, s, id, layer), strayed := st.strayed - {s})
    case Abandons(s) => st.(book := Abandon(st.book, s))
    case TaskEnds(id) => st.(book := st.book.(ended := st.book.ended + {id}))
  }

  // ---- the invariant ----

  predicate IsCounted(stage: Stage) { stage.Here? || stage.Leaving? || stage.Lost? }

  /** The consumers of `s` that are counted: those present, and those lost on their way out. */
  function Consumers(visits: map<ConsumerId, Visit>, s: Symbol): set<ConsumerId> {
    set i | i in visits && visits[i].symbol == s && IsCounted(visits[i].stage)
  }

  /** The consumers of `s` that are subscribed: joined and not yet through leaving. */
  function Present(visits: map<ConsumerId, Visit>, s: Symbol): set<ConsumerId> {
    set i | i in visits && visits[i].symbol == s && (visits[i].stage.Here? || visits[i].stage.Leaving?)
  }

  /** The consumers of `s` that were cut off while leaving. */
  function LostOf(visits: map<ConsumerId, Visit>, s: Symbol): set<ConsumerId> {
    set i | i in visits && visits[i].symbol == s && visits[i].stage.Lost?
  }

  lemma CountedArePresentOrLost(visits: map<ConsumerId, Visit>, s: Symbol)
    ensures Consumers(visits, s) == Present(visits, s) + LostOf(visits, s)
    ensures |Consumers(visits, s)| == |Present(visits, s)| + |LostOf(visits, s)|
  {
    assert Consumers(visits, s) == Present(visits, s) + LostOf(visits, s);
    assert Present(visits, s) !! LostOf(visits, s);
  }

  ghost predicate CountsMatch(st: State) {
    forall s :: Count(st.book, s) == |Consumers(st.visits, s)|
  }

  /** Tasks on record were created for their symbol and were not stopped; and a task not on
      record any more has ended or was stopped. */
  ghost predicate TasksMatch(b: Book) {
    && (forall s <- b.tasks :: b.tasks[s] in b.created && b.created[b.tasks[s]] == s && b.tasks[s] !in b.cancelled)
    && (forall t <- b.created :: t in b.ended || t in b.cancelled || (b.created[t] in b.tasks && b.tasks[b.created[t]] == t))
    && b.cancelled <= b.created.Keys && b.ended <= b.created.Keys
  }

  ghost predicate Served(b: Book) {
    forall s :: Count(b, s) > 0 ==> s in b.tasks
  }

  ghost predicate IsChecking(st: State, s: Symbol) {
    exists i :: i in st.visits && st.visits[i] == Visit(s, Checking)
  }

  /** No task is kept without a reason. */
  ghost predicate Needed(st: State) {
    forall s <- st.book.tasks :: !Unused(st.book, s) || s in st.strayed || IsChecking(st, s)
  }

  ghost predicate StrayedAreUnused(st: State) {
    forall s <- st.strayed :: Unused(st.book, s)
  }

  ghost predicate Inv(st: State) {
    CountsMatch(st) && TasksMatch(st.book) && Served(st.book) && Needed(st) && StrayedAreUnused(st)
  }

  lemma InitInv()
    ensures Inv(Init())
  {
    forall s ensures Count(Init().book, s) == |Consumers(Init().visits, s)| {
      assert Consumers(Init().visits, s) == {};
    }
  }

  // ---- every action keeps it ----

  lemma ConsumersAfter(visits: map<ConsumerId, Visit>, i: ConsumerId, v: Visit, s: Symbol)
    ensures var before := Consumers(visits, s);
            Consumers(visits[i := v], s) == if v.symbol == s && IsCounted(v.stage) then before + {i} else before - {i}
  {
  }

  predicate IsVisit(a: Action) {
    a.Arrives? || a.Joins? || a.Leaves? || a.Left? || a.Checked? || a.CutOff?
  }

  lemma JoinKeepsCounts(st: State, i: ConsumerId, id: TaskId)
    requires Inv(st) && Enabled(st, Joins(i, id))
    ensures CountsMatch(Apply(st, Joins(i, id)))
  {
    var next := Apply(st, Joins(i, id));
    forall s ensures Count(next.book, s) == |Consumers(next.visits, s)| {
      ConsumersAfter(st.visits, i, next.visits[i], s);
      assert Count(st.book, s) == |Consumers(st.visits, s)|;
      assert i !in Consumers(st.visits, s);
    }
  }

  lemma LeftKeepsCounts(st: State, i: ConsumerId)
    requires Inv(st) && Enabled(st, Left(i))
    ensures CountsMatch(Apply(st, Left(i)))
  {
    var next := Apply(st, Left(i));
    forall s ensures Count(next.book, s) == |Consumers(next.visits, s)| {
      ConsumersAfter(st.visits, i, next.visits[i], s);
      assert Count(st.book, s) == |Consumers(st.visits, s)|;
      assert i in Consumers(st.visits, s) <==> s == st.visits[i].symbol;
    }
  }

  lemma CheckedKeepsCounts(st: State, i: ConsumerId)
    requires Inv(st) && Enabled(st, Checked(i))
    ensures CountsMatch(Apply(st, Checked(i)))
  {
    var next := Apply(st, Checked(i));
    forall s ensures Count(next.book, s) == |Consumers(next.visits, s)| {
      assert Count(st.book, s) == |Consumers(st.visits, s)|;
      assert Consumers(next.visits, s) == Consumers(st.visits, s);
    }
  }

  lemma OtherVisitKeepsCounts(st: State, a: Action)
    requires Inv(st) && Enabled(st, a) && (a.Arrives? || a.Leaves? || a.CutOff?)
    ensures CountsMatch(Apply(st, a))
  {
    var next := Apply(st, a);
    forall s ensures Count(next.book, s) == |Consumers(next.visits, s)| {
      assert Count(st.book, s) == |Consumers(st.visits, s)|;
      assert Consumers(next.visits, s) == Consumers(st.visits, s);
    }
  }

  lemma VisitKeepsNeeded(st: State, a: Action)
    requires Inv(st) && Enabled(st, a) && IsVisit(a)
    ensures Needed(Apply(st, a))
  {
    var next := Apply(st, a);
    forall s | s in next.book.tasks && Unused(next.book, s) && s !in next.strayed ensures IsChecking(next, s) {
      if a.Left? && st.visits[a.i].symbol == s {
        assert next.visits[a.i] == Visit(s, Checking);
      } else {
        assert Unused(st.book, s);
        var i :| i in st.visits && st.visits[i] == Visit(s, Checking);
        assert i != a.i;
        assert next.visits[i] == Visit(s, Checking);
      }
    }
  }

  lemma MarkKeepsInv(st: State, a: Action)
    requires Inv(st) && Enabled(st, a) && (a.Marked? || a.Unmarked? || a.TaskEnds?)
    ensures Inv(Apply(st, a))
  {
    assert forall s :: IsChecking(st, s) ==> IsChecking(Apply(st, a), s);
    assert forall s :: Count(Apply(st, a).book, s) == Count(st.book, s);
  }

  lemma AdoptKeepsInv(st: State, a: Action)
    requires Inv(st) && Enabled(st, a) && a.Adopts?
    ensures Inv(Apply(st, a))
  {
    assert forall s :: IsChecking(st, s) ==> IsChecking(Apply(st, a), s);
    assert forall s :: Count(Apply(st, a).book, s) == Count(st.book, s);
  }

  lemma AbandonKeepsInv(st: State, a: Action)
    requires Inv(st) && Enabled(st, a) && a.Abandons?
    ensures Inv(Apply(st, a))
  {
    assert forall s :: IsChecking(st, s) ==> IsChecking(Apply(st, a), s);
    assert forall s :: Count(Apply(st, a).book, s) == Count(st.book, s);
  }

  lemma VisitKeepsTasks(st: State, a: Action)
    requires Inv(st) && Enabled(st, a) && IsVisit(a)
    ensures TasksMatch(Apply(st, a).book) && Served(Apply(st, a).book) && StrayedAreUnused(Apply(st, a))
  {
  }

  lemma StepKeepsInv(st: State, a: Action)
    requires Inv(st) && Enabled(st, a)
    ensures Inv(Apply(st, a))
  {
    if IsVisit(a) {
      if a.Joins? {
        JoinKeepsCounts(st, a.i, a.id);
      } else if a.Left? {
        LeftKeepsCounts(st, a.i);
      } else if a.Checked? {
        CheckedKeepsCounts(st, a.i);
      } else {
        OtherVisitKeepsCounts(st, a);
      }
      VisitKeepsTasks(st, a);
      VisitKeepsNeeded(st, a);
    } else if a.Adopts? {
      AdoptKeepsInv(st, a);
    } else if a.Abandons? {
      AbandonKeepsInv(st, a);
    } else {
      MarkKeepsInv(st, a);
    }
  }

  // ---- every run ----

  ghost predicate Reaches(st: State, acts: seq<Action>, end: State)
    decreases |acts|
  {
    if acts == [] then st == end
    else Enabled(st, acts[0]) && Reaches(Apply(st, acts[0]), acts[1..], end)
  }

  lemma {:induction false} RunKeepsInv(st: State, acts: seq<Action>, end: State)
    requires Inv(st) && Reaches(st, acts, end)
    ensures Inv(end)
    decreases |acts|
  {
    if acts != [] {
      StepKeepsInv(st, acts[0]);
      RunKeepsInv(Apply(st, acts[0]), acts[1..], end);
    }
  }

  /** After any run: the count of a symbol is the number of its subscribers and of those lost, so
      it is the number of subscribers exactly if none was lost; and while there is a subscriber, a
      task created for that symbol is on record which no path has stopped, so that the symbol has a
      running task exactly if this one did not die by itself. */
  lemma SubscribersAreServed(acts: seq<Action>, st: State, s: Symbol)
    requires Reaches(Init(), acts, st)
    ensures Count(st.book, s) == |Present(st.visits, s)| + |LostOf(st.visits, s)|
    ensures Count(st.book, s) == |Present(st.visits, s)| <==> LostOf(st.visits, s) == {}
    ensures Present(st.visits, s) != {} ==> IsServed(st.book, s)
    ensures Present(st.visits, s) != {} ==> (HasLiveTask(st.book, s) <==> !Died(st.book, st.book.tasks[s]))
  {
    InitInv();
    RunKeepsInv(Init(), acts, st);
    assert Count(st.book, s) == |Consumers(st.visits, s)|;
    CountedArePresentOrLost(st.visits, s);
    LiveIsOnRecord(st.book, s);
  }

  predicate Live(b: Book, t: TaskId) {
    t in b.created && t !in b.ended && t !in b.cancelled
  }

  /** A task created for the symbol runs. */
  ghost predicate HasLiveTask(b: Book, s: Symbol) {
    exists t :: Live(b, t) && b.created[t] == s
  }

  /** The task ended though no path had stopped it. */
  predicate Died(b: Book, t: TaskId) {
    t in b.ended && t !in b.cancelled
  }

  lemma LiveIsOnRecord(b: Book, s: Symbol)
    requires TasksMatch(b)
    ensures HasLiveTask(b, s) <==> s in b.tasks && b.tasks[s] !in b.ended
  {
    if s in b.tasks && b.tasks[s] !in b.ended {
      assert Live(b, b.tasks[s]) && b.created[b.tasks[s]] == s;
    }
  }

  /** In every run in which no task of the symbol dies by itself, the symbol has a running task
      whenever it has a subscriber. Tasks that were stopped may end at any time. */
  lemma LiveUnlessDied(acts: seq<Action>, st: State, s: Symbol)
    requires Reaches(Init(), acts, st) && Present(st.visits, s) != {}
    requires forall t <- st.book.created :: st.book.created[t] == s ==> !Died(st.book, t)
    ensures HasLiveTask(st.book, s) && IsServed(st.book, s) && Live(st.book, st.book.tasks[s])
  {
    SubscribersAreServed(acts, st, s);
  }

  // ---- a task that died ----

  /** The action looks after the symbol's task: somebody joins, or reconciliation adopts it. */
  predicate LooksAfter(st: State, a: Action, s: Symbol)
    requires Enabled(st, a)
  {
    (a.Joins? && st.visits[a.i].symbol == s) || (a.Adopts? && a.s == s && a.layer)
  }

  /** A symbol without a running task gets one exactly by such an action. */
  lemma RevivedExactly(st: State, a: Action, s: Symbol)
    requires Inv(st) && Enabled(st, a) && !HasLiveTask(st.book, s)
    ensures HasLiveTask(Apply(st, a).book, s) <==> LooksAfter(st, a, s)
  {
    StepKeepsInv(st, a);
    LiveIsOnRecord(st.book, s);
    LiveIsOnRecord(Apply(st, a).book, s);
  }

  ghost predicate NobodyLooks(st: State, acts: seq<Action>, s: Symbol)
    decreases |acts|
  {
    acts == [] || (Enabled(st, acts[0]) && !LooksAfter(st, acts[0], s) && NobodyLooks(Apply(st, acts[0]), acts[1..], s))
  }

  /** Whoever is subscribed already goes without a task until then, however the run goes on, and
      the dead task stays on record as long as one of them is there. */
  lemma {:induction false} DeadStaysDead(st: State, acts: seq<Action>, end: State, s: Symbol)
    requires Inv(st) && Reaches(st, acts, end) && NobodyLooks(st, acts, s)
    requires !HasLiveTask(st.book, s)
    ensures !HasLiveTask(end.book, s)
    ensures Present(end.visits, s) != {} ==> s in st.book.tasks && s in end.book.tasks && end.book.tasks[s] == st.book.tasks[s]
    decreases |acts|
  {
    if acts == [] {
      if Present(end.visits, s) != {} {
        PresentIsServed(end, s);
      }
    } else {
      RevivedExactly(st, acts[0], s);
      StepKeepsInv(st, acts[0]);
      if s in Apply(st, acts[0]).book.tasks {
        RecordOnlyShrinks(st, acts[0], s);
      }
      DeadStaysDead(Apply(st, acts[0]), acts[1..], end, s);
    }
  }

  lemma RecordOnlyShrinks(st: State, a: Action, s: Symbol)
    requires Enabled(st, a) && !LooksAfter(st, a, s) && s in Apply(st, a).book.tasks
    ensures s in st.book.tasks && Apply(st, a).book.tasks[s] == st.book.tasks[s]
  {
  }

  lemma PresentIsServed(st: State, s: Symbol)
    requires CountsMatch(st) && Served(st.book) && Present(st.visits, s) != {}
    ensures s in st.book.tasks
  {
    assert Count(st.book, s) == |Consumers(st.visits, s)|;
    CountedArePresentOrLost(st.visits, s);
  }

  /** It does happen in the protocol, for any symbol: a consumer is subscribed and counted, its task
      is on record, and no task runs. */
  lemma DeadTaskHappens(s: Symbol) returns (acts: seq<Action>, st: State)
    ensures acts == [Arrives(0, s), Joins(0, 0), TaskEnds(0)] && Reaches(Init(), acts, st)
    ensures 0 in Present(st.visits, s) && Count(st.book, s) == 1 && IsServed(st.book, s) && !HasLiveTask(st.book, s)
    ensures st.book.created == map[0 := s] && st.book.ended == {0} && st.book.cancelled == {}
  {
    acts := [Arrives(0, s), Joins(0, 0), TaskEnds(0)];
    var s1 := Apply(Init(), acts[0]);
    var s2 := Apply(s1, acts[1]);
    st := Apply(s2, acts[2]);
    assert Reaches(st, acts[3..], st);
    assert acts[2..][1..] == acts[3..] && Reaches(s2, acts[2..], st);
    assert acts[1..][1..] == acts[2..] && Reaches(s1, acts[1..], st);
  }

  /** A task created for the symbol is on record, and no path has stopped it. */
  predicate IsServed(b: Book, s: Symbol) {
    s in b.tasks && b.tasks[s] in b.created && b.created[b.tasks[s]] == s && b.tasks[s] !in b.cancelled
  }

  /** Whoever was cut off while leaving is counted for good: the symbol's count never falls to
      zero again, and its task is never stopped, whatever happens. */
  lemma {:induction false} LostIsCountedForever(st: State, acts: seq<Action>, end: State, i: ConsumerId)
    requires Inv(st) && Reaches(st, acts, end) && StageOf(st, i).Lost?
    ensures i in end.visits && end.visits[i] == st.visits[i]
    ensures Count(end.book, st.visits[i].symbol) > 0 && IsServed(end.book, st.visits[i].symbol)
    decreases |acts|
  {
    if acts == [] {
      var s := st.visits[i].symbol;
      assert i in Consumers(st.visits, s) && Count(st.book, s) == |Consumers(st.visits, s)|;
    } else {
      StepKeepsInv(st, acts[0]);
      LostIsCountedForever(Apply(st, acts[0]), acts[1..], end, i);
    }
  }

  /** It does happen: a lone consumer is cut off while leaving. Nobody is subscribed and nothing
      marked, yet the count stays at one and the task runs. */
  lemma LostConsumerHappens() returns (acts: seq<Action>, st: State)
    ensures Reaches(Init(), acts, st)
    ensures StageOf(st, 0).Lost? && Present(st.visits, 1) == {} && 1 !in st.book.marked && 1 !in st.strayed
    ensures Count(st.book, 1) == 1 && 1 in st.book.tasks && Live(st.book, st.book.tasks[1])
  {
    acts := [Arrives(0, 1), Joins(0, 0), Leaves(0), CutOff(0)];
    var s1 := Apply(Init(), acts[0]);
    var s2 := Apply(s1, acts[1]);
    var s3 := Apply(s2, acts[2]);
    st := Apply(s3, acts[3]);
    assert Reaches(st, acts[4..], st);
    assert acts[3..][1..] == acts[4..] && Reaches(s3, acts[3..], st);
    assert acts[2..][1..] == acts[3..] && Reaches(s2, acts[2..], st);
    assert acts[1..][1..] == acts[2..] && Reaches(s1, acts[1..], st);
  }

  /** After any run: a task that still runs is the one on record for its symbol, so no two run
      for the same symbol. */
  lemma NoOrphanTask(acts: seq<Action>, st: State, t: TaskId, u: TaskId)
    requires Reaches(Init(), acts, st) && Live(st.book, t) && Live(st.book, u)
    requires st.book.created[t] == st.book.created[u]
    ensures st.book.created[t] in st.book.tasks && st.book.tasks[st.book.created[t]] == t == u
  {
    InitInv();
    RunKeepsInv(Init(), acts, st);
  }

  /** An action stops a task only if its symbol has no subscriber, before and after, and no mark;
      no other thread marks it between the test of the marks and the stop. */
  lemma StoppedOnlyWithoutSubscribers(st: State, a: Action, t: TaskId)
    requires Inv(st) && Enabled(st, a)
    requires t in Apply(st, a).book.cancelled && t !in st.book.cancelled
    ensures t in st.book.created && Consumers(st.visits, st.book.created[t]) == {}
    ensures Consumers(Apply(st, a).visits, st.book.created[t]) == {}
    ensures st.book.created[t] !in Apply(st, a).book.marked
  {
    var s := st.book.created[t];
    StepKeepsInv(st, a);
    assert Count(st.book, s) == |Consumers(st.visits, s)|;
    assert Count(Apply(st, a).book, s) == |Consumers(Apply(st, a).visits, s)|;
  }

  /** Every counted consumer of the symbol is a lost one, and there is one. */
  predicate OnlyLost(st: State, s: Symbol) {
    Present(st.visits, s) == {} && LostOf(st.visits, s) != {} && s !in st.book.marked
  }

  /** After any run: a task that no departing consumer is about to look at is kept without a
      subscriber or a position exactly if the last reference went without a look at the task (the
      position was unmarked in this process, or the consumer was cut off) and none came since, or
      if only lost consumers are left. */
  lemma IdleExactlyIfStrayed(acts: seq<Action>, st: State, s: Symbol)
    requires Reaches(Init(), acts, st) && s in st.book.tasks && !IsChecking(st, s)
    ensures Present(st.visits, s) == {} && s !in st.book.marked <==> s in st.strayed || OnlyLost(st, s)
  {
    InitInv();
    RunKeepsInv(Init(), acts, st);
    assert Count(st.book, s) == |Consumers(st.visits, s)|;
    CountedArePresentOrLost(st.visits, s);
  }

  // ---- the reconciliation pass ----

  function Elements(symbols: seq<Symbol>): set<Symbol> {
    set s | s in symbols
  }

  lemma ElementsLast(add: seq<Symbol>, from: set<Symbol>)
    requires add != []
    ensures from - Elements(add) == from - Elements(add[..|add| - 1]) - {add[|add| - 1]}
  {
    Snoc(add);
  }

  /** Adopting and abandoning in turn is a run of the protocol, so it keeps the invariant. */
  lemma {:induction false} AdoptingKeepsInv(st: State, add: seq<Symbol>, id: TaskId, layer: bool)
    requires Inv(st) && forall t <- st.book.created :: t < id
    ensures Inv(st.(book := AdoptAll(st.book, add, id, layer), strayed := st.strayed - Elements(add)))
    ensures forall t <- AdoptAll(st.book, add, id, layer).created :: t < id + |add|
    decreases |add|
  {
    if add == [] {
      assert st.strayed - Elements(add) == st.strayed;
    } else {
      var n := |add| - 1;
      AdoptingKeepsInv(st, add[..n], id, layer);
      var mid := st.(book := AdoptAll(st.book, add[..n], id, layer), strayed := st.strayed - Elements(add[..n]));
      ElementsLast(add, st.strayed);
      StepKeepsInv(mid, Adopts(add[n], id + n, layer));
      assert Apply(mid, Adopts(add[n], id + n, layer))
          == st.(book := AdoptAll(st.book, add, id, layer), strayed := st.strayed - Elements(add));
    }
  }

  lemma {:induction false} AbandoningKeepsInv(st: State, remove: seq<Symbol>)
    requires Inv(st)
    ensures Inv(st.(book := AbandonAll(st.book, remove)))
    decreases |remove|
  {
    if remove != [] {
      var n := |remove| - 1;
      AbandoningKeepsInv(st, remove[..n]);
      var mid := st.(book := AbandonAll(st.book, remove[..n]));
      StepKeepsInv(mid, Abandons(remove[n]));
      assert Apply(mid, Abandons(remove[n])) == st.(book := AbandonAll(st.book, remove));
    }
  }

  /** What adopting leaves: the symbols are marked, counts are as before, and with a channel
      layer each adopted symbol has a task on record. */
  lemma {:induction false} AdoptedAre(b: Book, add: seq<Symbol>, id: TaskId, layer: bool)
    ensures var r := AdoptAll(b, add, id, layer);
            && r.marked == b.marked + Elements(add)
            && r.counts == b.counts && r.cancelled == b.cancelled && r.ended == b.ended
            && b.tasks.Keys <= r.tasks.Keys
            && (layer ==> forall s <- add :: s in r.tasks)
    decreases |add|
  {
    if add != [] {
      var n := |add| - 1;
      AdoptedAre(b, add[..n], id, layer);
      assert add == add[..n] + [add[n]];
    }
  }

  /** What abandoning leaves: the symbols are unmarked; those without subscribers lose their
      task, and every other symbol keeps its own. */
  lemma {:induction false} AbandonedAre(b: Book, remove: seq<Symbol>)
    ensures var r := AbandonAll(b, remove);
            && r.marked == b.marked - Elements(remove)
            && (forall s :: Count(r, s) == if s in remove && Count(b, s) <= 0 then 0 else Count(b, s))
            && (forall s :: s in r.tasks <==> s in b.tasks && (s in remove ==> Count(b, s) > 0))
            && (forall s <- r.tasks :: r.tasks[s] == b.tasks[s])
    decreases |remove|
  {
    if remove != [] {
      var n := |remove| - 1;
      AbandonedAre(b, remove[..n]);
      assert remove == remove[..n] + [remove[n]];
    }
  }

  /** A full pass over the symbols `db` read from the database, during whose loops no other thread
      marks or unmarks: afterwards exactly these are
      marked, and a symbol that lost its position and has no subscriber has no task. A task that
      was neither marked nor subscribed to before, however, is not noticed and stays. */
  lemma PassFollowsDatabase(b: Book, db: set<Symbol>, add: seq<Symbol>, remove: seq<Symbol>, id: TaskId, layer: bool)
    requires Elements(add) == db - b.marked && Elements(remove) == b.marked - db
    ensures var r := AbandonAll(AdoptAll(b, add, id, layer), remove);
            && r.marked == db
            && (layer ==> forall s <- db - b.marked :: s in r.tasks)
            && (forall s <- b.marked - db :: Count(b, s) <= 0 ==> s !in r.tasks)
            && (forall s <- b.tasks :: Unused(b, s) ==> s in r.tasks)
  {
    var mid := AdoptAll(b, add, id, layer);
    AdoptedAre(b, add, id, layer);
    AbandonedAre(mid, remove);
    var r := AbandonAll(mid, remove);
    forall s | s in db - b.marked && layer ensures s in r.tasks {
      assert s in Elements(add) && s !in Elements(remove);
      assert s in add && s !in remove;
    }
    forall s | s in b.marked - db && Count(b, s) <= 0 ensures s !in r.tasks {
      assert s in Elements(remove);
      assert s in remove && Count(mid, s) == Count(b, s);
    }
    forall s | s in b.tasks && Unused(b, s) ensures s in r.tasks {
      assert s !in Elements(remove);
      assert s !in remove && s in mid.tasks;
    }
  }

  /** Such a task does arise: a reconciled position without subscribers, closed in this process. */
  lemma StrayTaskHappens() returns (acts: seq<Action>, st: State)
    ensures Reaches(Init(), acts, st)
    ensures 1 in st.book.tasks && Unused(st.book, 1) && (forall i :: StageOf(st, i).Away?) && Live(st.book, st.book.tasks[1])
  {
    acts := [Adopts(1, 0, true), Unmarked(1)];
    var mid := Apply(Init(), acts[0]);
    st := Apply(mid, acts[1]);
    assert Reaches(st, [], st);
    assert acts[1..] == [Unmarked(1)] && acts[1..][1..] == [];
    assert Reaches(mid, acts[1..], st);
  }
}
