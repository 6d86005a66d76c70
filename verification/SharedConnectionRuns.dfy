/** What holds after every run of the shared-connection protocol, whatever the interleaving. */
module SharedConnectionRuns {
  import opened Common
  import opened SharedConnection
  import opened SharedConnectionSteps

  /** `acts`, taken one after the other, lead from `st` to `end`. */
  ghost predicate Reaches(st: State, acts: seq<Action>, end: State)
    decreases |acts|
  {
    if acts == [] then st == end
    else Enabled(st, acts[0]) && Reaches(Apply(st, acts[0]), acts[1..], end)
  }

  ghost predicate Reachable(st: State) {
    exists acts :: Reaches(Init(), acts, st)
  }

  lemma {:induction false} RunKeepsInv(st: State, acts: seq<Action>, end: State)
    requires Inv(st) && Reaches(st, acts, end)
    ensures Inv(end)
    decreases |acts|
  {
    if acts != [] {
      StepKeepsInv(st, acts[0]);
      RunKeepsInv(Apply(st, acts[0]), acts[1..], end);
    }
  }

  lemma ReachableInv(st: State)
    requires Reachable(st)
    ensures Inv(st)
  {
    InitInv();
    var acts :| Reaches(Init(), acts, st);
    RunKeepsInv(Init(), acts, st);
  }

  // ---- safety of every reachable state ----

  /** Never two readers, and never a reader that is not the task on record; nor two watchdogs. */
  lemma AtMostOneReader(st: State, r: TaskId, q: TaskId)
    requires Reachable(st) && r in st.readers && q in st.readers
    requires !st.readers[r].phase.Done? || !st.readers[r].watchdog.Ended_?
    requires !st.readers[q].phase.Done? || !st.readers[q].watchdog.Ended_?
    ensures r == q && st.sh.task == Some(r)
  {
    ReachableInv(st);
  }

  /** At most one party stands inside a section the lock guards. */
  lemma SectionsExclude(st: State, o: Owner, p: Owner)
    requires Reachable(st) && Holds(st, o) && Holds(st, p)
    ensures o == p && st.lock == Some(o)
  {
    ReachableInv(st);
  }

  /** With the lock free and nothing active, the service is fully torn down. */
  lemma IdleMeansTornDown(st: State)
    requires Reachable(st) && st.lock.None? && st.sh.active == {}
    ensures st.sh == Shared({}, {}, None, false, None)
    ensures forall r <- st.readers :: st.readers[r].phase.Done? && st.readers[r].watchdog.Ended_?
  {
    ReachableInv(st);
    assert st.sh.subscribed == {};
  }

  /** With the lock free, the connection authenticated and its reader reading, every active
      symbol is subscribed on that very connection, unless a send on it failed. */
  lemma ActiveAreSubscribed(st: State, r: TaskId)
    requires Reachable(st) && st.lock.None? && st.sh.authed
    requires st.sh.task == Some(r) && r in st.readers && st.readers[r].phase.Reading?
    ensures st.sh.ws == Some(st.readers[r].phase.conn)
    ensures st.readers[r].phase.conn !in st.dirty ==> st.sh.active <= Wire(st, st.readers[r].phase.conn)
  {
    ReachableInv(st);
    NobodyInside(st);
    var c := st.readers[r].phase.conn;
    if c !in st.dirty {
      forall s | s in st.sh.active ensures s in Wire(st, c) {
        assert !AdapterHolds(Pc(st, s));
      }
    }
  }

  predicate Inside(a: Adapter) { a.SendingSubscribe? || a.In? || a.Unregistering? }

  /** Once every adapter has left, the service is torn down exactly if no adapter was ever
      cancelled while its own subscription was being sent and not registered again. */
  lemma TornDownIffNothingLeaked(st: State)
    requires Reachable(st) && st.lock.None? && forall s :: !Inside(Pc(st, s))
    ensures st.sh.active == st.leaked
    ensures st.sh.task.None? <==> st.leaked == {}
  {
    ReachableInv(st);
    forall s ensures s in st.sh.active <==> s in st.leaked {
      assert !Inside(Pc(st, s));
    }
  }

  // ---- the two ways in which the protocol gets stuck ----

  /** A symbol leaks exactly when its adapter is cancelled in the middle of subscribing. */
  lemma LeakExactly(st: State, a: Action, s: Symbol)
    requires Inv(st) && Enabled(st, a) && s !in st.leaked
    ensures s in Apply(st, a).leaked <==> a == AdapterCancelled(s) && Pc(st, s).SendingSubscribe?
  {
    if !a.AdapterCancelled? {
      OnlyCancellingLeaks(st, a);
    }
  }

  lemma OnlyCancellingLeaks(st: State, a: Action)
    requires Enabled(st, a) && !a.AdapterCancelled?
    ensures Apply(st, a).leaked <= st.leaked
  {
  }

  /** A leaked symbol keeps the service up until the symbol is registered anew. */
  lemma LeakStays(st: State, a: Action, s: Symbol)
    requires Inv(st) && Enabled(st, a) && s in st.leaked
    requires !(a.RegisterEnters? && a.s == s)
    ensures s in Apply(st, a).leaked && s in Apply(st, a).sh.active && Apply(st, a).sh.task.Some?
  {
    StepKeepsInv(st, a);
    LeakIsKept(st, a, s);
    LeakIsServed(Apply(st, a), s);
  }

  lemma LeakIsKept(st: State, a: Action, s: Symbol)
    requires Enabled(st, a) && s in st.leaked && !(a.RegisterEnters? && a.s == s)
    ensures s in Apply(st, a).leaked
  {
  }

  lemma LeakIsServed(st: State, s: Symbol)
    requires ActiveExactly(st) && IdleIsEmpty(st) && s in st.leaked
    ensures s in st.sh.active && st.sh.task.Some?
  {
  }

  lemma {:induction false} LeakLasts(st: State, acts: seq<Action>, end: State, s: Symbol)
    requires Inv(st) && Reaches(st, acts, end) && s in st.leaked
    requires forall a <- acts :: !(a.RegisterEnters? && a.s == s)
    ensures s in end.sh.active && end.sh.task.Some?
    decreases |acts|
  {
    if acts == [] {
      assert ActiveExactly(st) && IdleIsEmpty(st);
    } else {
      assert acts[0] in acts;
      LeakStays(st, acts[0], s);
      StepKeepsInv(st, acts[0]);
      LeakLasts(Apply(st, acts[0]), acts[1..], end, s);
    }
  }

  /** A cancellation is swallowed exactly when it finds the reader joining its watchdog;
      everywhere else the reader ends or is on its way out. */
  lemma AbsorbedExactly(st: State, r: TaskId)
    requires Inv(st) && Enabled(st, CancelDelivered(r)) && r !in st.absorbed
    ensures r in Apply(st, CancelDelivered(r)).absorbed <==> st.readers[r].phase.JoiningWatchdog?
    ensures r !in Apply(st, CancelDelivered(r)).absorbed ==>
              Apply(st, CancelDelivered(r)).readers[r].phase.Done? || Leaving(Apply(st, CancelDelivered(r)).readers[r].phase)
  {
  }

  lemma OnlyTheHolderInside(st: State)
    requires LockHeld(st)
    ensures forall s :: AdapterHolds(Pc(st, s)) ==> st.lock == Some(ByAdapter(s))
    ensures forall r <- st.readers :: ReaderHolds(st.readers[r].phase) ==> st.lock == Some(ByReader(r))
    ensures forall r <- st.readers :: WatchdogHolds(st.readers[r].watchdog) ==> st.lock == Some(ByWatchdog(r))
  {
    forall s | AdapterHolds(Pc(st, s)) ensures st.lock == Some(ByAdapter(s)) {
      assert Holds(st, ByAdapter(s));
    }
    forall r <- st.readers
      ensures ReaderHolds(st.readers[r].phase) ==> st.lock == Some(ByReader(r))
      ensures WatchdogHolds(st.readers[r].watchdog) ==> st.lock == Some(ByWatchdog(r))
    {
      assert Holds(st, ByReader(r)) <==> ReaderHolds(st.readers[r].phase);
      assert Holds(st, ByWatchdog(r)) <==> WatchdogHolds(st.readers[r].watchdog);
    }
  }

  lemma AbsorbedKeepsLockFromAdapters(st: State, a: Action, r: TaskId)
    requires Inv(st) && Enabled(st, a) && r in st.absorbed && IsAdapterAction(a)
    ensures Apply(st, a).lock == st.lock && Apply(st, a).absorbed == st.absorbed
  {
    assert JoinedBy(st, r);
    OnlyTheHolderInside(st);
  }

  lemma AbsorbedKeepsLockFromReader(st: State, a: Action, r: TaskId)
    requires Inv(st) && Enabled(st, a) && r in st.absorbed && IsReaderAction(a)
    ensures Apply(st, a).lock == st.lock && r in Apply(st, a).absorbed
  {
    assert JoinedBy(st, r);
    OnlyTheHolderInside(st);
  }

  lemma AbsorbedKeepsLockFromConnecting(st: State, a: Action, r: TaskId)
    requires Inv(st) && Enabled(st, a) && r in st.absorbed && IsConnectAction(a)
    ensures Apply(st, a).lock == st.lock && r in Apply(st, a).absorbed
  {
    assert JoinedBy(st, r);
    OnlyTheHolderInside(st);
  }

  lemma AbsorbedKeepsLockFromWatchdog(st: State, a: Action, r: TaskId)
    requires LockHeld(st) && AbsorbedNeverEnds(st) && Enabled(st, a) && r in st.absorbed && IsWatchdogAction(a)
    ensures Apply(st, a).lock == st.lock && r in Apply(st, a).absorbed
  {
    assert JoinedBy(st, r);
    OnlyTheHolderInside(st);
  }

  lemma AbsorbedStays(st: State, a: Action, r: TaskId)
    requires Inv(st) && Enabled(st, a) && r in st.absorbed
    ensures r in Apply(st, a).absorbed && Apply(st, a).lock == st.lock
  {
    if IsAdapterAction(a) {
      AbsorbedKeepsLockFromAdapters(st, a, r);
    } else if IsWatchdogAction(a) {
      AbsorbedKeepsLockFromWatchdog(st, a, r);
    } else if IsConnectAction(a) {
      AbsorbedKeepsLockFromConnecting(st, a, r);
    } else {
      AbsorbedKeepsLockFromReader(st, a, r);
    }
  }

  /** After a swallowed cancellation the lock is never released again: no symbol can register
      or unregister any more, and the reader goes on. */
  lemma {:induction false} AbsorbedBlocksForever(st: State, acts: seq<Action>, end: State, r: TaskId)
    requires Inv(st) && Reaches(st, acts, end) && r in st.absorbed
    ensures end.lock == st.lock && end.lock.Some?
    ensures r in end.readers && !end.readers[r].phase.Done? && end.sh.active == {}
    decreases |acts|
  {
    assert AbsorbedNeverEnds(st) && JoinedBy(st, r);
    if acts != [] {
      AbsorbedStays(st, acts[0], r);
      StepKeepsInv(st, acts[0]);
      AbsorbedBlocksForever(Apply(st, acts[0]), acts[1..], end, r);
    }
  }

  // ---- both do happen ----

  lemma {:induction false} ReachesOneMore(st: State, acts: seq<Action>, mid: State, a: Action)
    requires Reaches(st, acts, mid) && Enabled(mid, a)
    ensures Reaches(st, acts + [a], Apply(mid, a))
    decreases |acts|
  {
    if acts == [] {
      assert acts + [a] == [a];
    } else {
      assert (acts + [a])[1..] == acts[1..] + [a];
      ReachesOneMore(Apply(st, acts[0]), acts[1..], mid, a);
    }
  }

  lemma Take(st: State, a: Action) returns (next: State)
    requires Reachable(st) && Enabled(st, a)
    ensures next == Apply(st, a) && Reachable(next)
  {
    var acts :| Reaches(Init(), acts, st);
    ReachesOneMore(Init(), acts, st, a);
    next := Apply(st, a);
  }

  /** Reader 5 and the adapters of symbols 1 and 2 stand where given; all other adapters are out. */
  ghost predicate Snapshot(st: State, sh: Shared, lock: Option<Owner>, first: Adapter, second: Adapter, reader: Reader) {
    && st.sh == sh && st.lock == lock && 5 in st.readers && st.readers[5] == reader && 6 !in st.readers
    && Pc(st, 1) == first && Pc(st, 2) == second && forall s <- st.adapters :: s == 1 || s == 2
  }

  lemma RegisterFirst() returns (st: State)
    ensures Reachable(st) && 7 !in st.wire
    ensures Snapshot(st, Shared({1}, {}, None, false, Some(5)), None, In, Out, Reader(NotStarted, false, Ended_, false))
  {
    st := Init();
    assert Reaches(Init(), [], st);
    st := Take(st, AdapterStarts(1));
    st := Take(st, RegisterEnters(1, 5));
    assert st.sh.active == {1};
  }

  lemma ConnectFirst() returns (st: State)
    ensures Reachable(st)
    ensures Snapshot(st, Shared({1}, {}, None, false, Some(5)), None, In, Out, Reader(WaitToAttach(7), false, Ended_, false))
  {
    st := RegisterFirst();
    st := Take(st, ReaderStarts(5));
    st := Take(st, Connected(5, 7));
  }

  lemma AuthenticateFirst() returns (st: State)
    ensures Reachable(st)
    ensures Snapshot(st, Shared({1}, {}, Some(7), false, Some(5)), None, In, Out, Reader(Reading(7), false, Polling, false))
  {
    st := ConnectFirst();
    st := Take(st, Attaches(5));
    st := Take(st, AuthSent(5, true));
  }

  lemma SubscribeFirst() returns (st: State)
    ensures Reachable(st)
    ensures Snapshot(st, Shared({1}, {}, Some(7), true, Some(5)), Some(ByReader(5)), In, Out,
                     Reader(SendingBatch(7, {1}), false, Polling, false))
  {
    st := AuthenticateFirst();
    st := Take(st, AuthSucceeds(5));
    assert 1 in st.sh.active;
    st := Take(st, EntersBatch(5));
  }

  lemma Streaming() returns (st: State)
    ensures Reachable(st)
    ensures Snapshot(st, Shared({1}, {1}, Some(7), true, Some(5)), None, In, Out, Reader(Reading(7), false, Polling, false))
  {
    st := SubscribeFirst();
    st := Take(st, BatchSent(5, true));
    assert st.sh.subscribed == {1};
  }

  lemma SecondSubscribing() returns (st: State)
    ensures Reachable(st)
    ensures Snapshot(st, Shared({1, 2}, {1}, Some(7), true, Some(5)), Some(ByAdapter(2)), In, SendingSubscribe(7),
                     Reader(Reading(7), false, Polling, false))
  {
    st := Streaming();
    st := Take(st, AdapterStarts(2));
    st := Take(st, RegisterEnters(2, 6));
    assert st.sh.active == {1, 2};
  }

  lemma BothCancelled() returns (st: State)
    ensures Reachable(st)
    ensures Snapshot(st, Shared({1, 2}, {1}, Some(7), true, Some(5)), None, Unregistering, Out,
                     Reader(Reading(7), false, Polling, false))
  {
    st := SecondSubscribing();
    st := Take(st, AdapterCancelled(2));
    st := Take(st, AdapterCancelled(1));
  }

  /** A run after which every adapter has left, and yet symbol 2 keeps the service up. */
  lemma LeakHappens() returns (st: State)
    ensures Reachable(st) && st.lock.None? && (forall s :: Pc(st, s).Out?)
    ensures st.sh.active == {2} && st.sh.task == Some(5) && 5 in st.readers && st.readers[5].phase.Reading?
  {
    st := BothCancelled();
    st := Take(st, UnregisterEnters(1));
    assert st.sh.active == {2};
    st := Take(st, UnregisterSent(1, true));
  }

  lemma LastCancelledWhileReconnecting() returns (st: State)
    ensures Reachable(st)
    ensures Snapshot(st, Shared({1}, {1}, Some(7), true, Some(5)), None, Unregistering, Out,
                     Reader(JoiningWatchdog(7, Ended), false, Polling, true))
  {
    st := Streaming();
    st := Take(st, StreamEnds(5));
    st := Take(st, AdapterCancelled(1));
  }

  lemma LastUnsubscribing() returns (st: State)
    ensures Reachable(st)
    ensures Snapshot(st, Shared({}, {}, Some(7), true, Some(5)), Some(ByAdapter(1)), SendingUnsubscribe(7), Out,
                     Reader(JoiningWatchdog(7, Ended), false, Polling, true))
  {
    st := LastCancelledWhileReconnecting();
    st := Take(st, UnregisterEnters(1));
    assert st.sh.active == {} && st.sh.subscribed == {};
  }

  /** A run after which the last adapter waits for ever for a reader that outlives its cancellation. */
  lemma AbsorbHappens() returns (st: State)
    ensures Reachable(st) && 5 in st.absorbed && st.lock == Some(ByAdapter(1))
  {
    st := LastUnsubscribing();
    st := Take(st, UnregisterSent(1, false));
    st := Take(st, CancelDelivered(5));
  }
}
