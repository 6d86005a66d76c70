/** The other direction: what is subscribed on the connection is on the manager's books. */
module SharedConnectionWire {
  import opened Common
  import opened SharedConnection
  import opened SharedConnectionSteps
  import opened SharedConnectionRuns

  /** Until it is authenticated nothing is subscribed on a connection; from then on, unless a send
      failed, only what the manager has on its books, what it is just giving up, and strays. */
  predicate WireFits(st: State, p: Phase, s: Symbol) {
    match p
    case WaitToAttach(c) => s !in Wire(st, c)
    case SendingAuth(c) => s !in Wire(st, c)
    case Reading(c) => OnBooks(st, c, s)
    case WaitToSubscribe(c) => OnBooks(st, c, s)
    case SendingBatch(c, _) => OnBooks(st, c, s)
    case _ => true
  }

  predicate OnBooks(st: State, c: ConnId, s: Symbol) {
    s in Wire(st, c) ==>
      st.sh.authed && (c in st.dirty || s in st.sh.subscribed || s in st.stray || Pc(st, s) == SendingUnsubscribe(c))
  }

  ghost predicate WireOnBooks(st: State) {
    st.sh.task.Some? && st.sh.task.value in st.readers ==> forall s :: WireFits(st, st.readers[st.sh.task.value].phase, s)
  }

  predicate InUse(p: Phase, c: ConnId) {
    (p.Reading? || p.WaitToSubscribe? || p.SendingBatch?) && p.conn == c
  }

  predicate Opening(p: Phase, c: ConnId) {
    (p.WaitToAttach? || p.SendingAuth?) && p.conn == c
  }

  /** A connection somebody is about to send on exists, is the socket on record unless that was
      cleared, is no longer being opened, and if it is the one in use it is authenticated. */
  predicate Usable(st: State, c: ConnId) {
    && c in st.wire && (st.sh.ws.Some? ==> st.sh.ws.value == c)
    && (st.sh.task.Some? && st.sh.task.value in st.readers ==>
          !Opening(st.readers[st.sh.task.value].phase, c)
          && (InUse(st.readers[st.sh.task.value].phase, c) ==> st.sh.authed))
  }

  ghost predicate SendersUsable(st: State) {
    && (forall s <- st.adapters :: st.adapters[s].SendingSubscribe? || st.adapters[s].SendingUnsubscribe? ==> Usable(st, st.adapters[s].conn))
    && (forall r <- st.readers :: WatchdogHolds(st.readers[r].watchdog) ==> Usable(st, st.readers[r].watchdog.conn))
  }

  predicate HasConn(p: Phase) {
    p.WaitToAttach? || p.SendingAuth? || p.Reading? || p.WaitToSubscribe? || p.SendingBatch?
  }

  predicate SocketUsable(st: State) {
    && (st.sh.ws.Some? && st.sh.authed ==> Usable(st, st.sh.ws.value))
    && (st.sh.task.Some? && st.sh.task.value in st.readers && HasConn(st.readers[st.sh.task.value].phase) ==>
          st.readers[st.sh.task.value].phase.conn in st.wire)
  }

  ghost predicate Tidy(st: State) {
    WireOnBooks(st) && SendersUsable(st) && SocketUsable(st)
  }

  // ---- every action keeps it ----

  /** What the wire has to fit, for the reader on record and one symbol. */
  predicate Fits(st: State, s: Symbol) {
    st.sh.task.Some? && st.sh.task.value in st.readers ==> WireFits(st, st.readers[st.sh.task.value].phase, s)
  }

  lemma StartKeepsFit(st: State, a: Action, s: Symbol)
    requires Inv(st) && Tidy(st) && Enabled(st, a) && (a.AdapterStarts? || a.ReaderStarts? || a.Wakes?) && Fits(st, s)
    ensures Fits(Apply(st, a), s)
  {
  }

  lemma CancelAdapterKeepsFit(st: State, a: Action, s: Symbol)
    requires Inv(st) && Tidy(st) && Enabled(st, a) && a.AdapterCancelled? && Fits(st, s)
    ensures Fits(Apply(st, a), s)
  {
  }

  lemma RegisterKeepsFit(st: State, a: Action, s: Symbol)
    requires Inv(st) && Tidy(st) && Enabled(st, a) && a.RegisterEnters? && Fits(st, s)
    ensures Fits(Apply(st, a), s)
  {
  }

  lemma RegisterSentKeepsFit(st: State, a: Action, s: Symbol)
    requires Inv(st) && Tidy(st) && Enabled(st, a) && a.RegisterSent? && Fits(st, s)
    ensures Fits(Apply(st, a), s)
  {
  }

  lemma UnregisterKeepsFit(st: State, a: Action, s: Symbol)
    requires Inv(st) && Tidy(st) && Enabled(st, a) && a.UnregisterEnters? && Fits(st, s)
    ensures Fits(Apply(st, a), s)
  {
  }

  lemma UnregisterSentKeepsFit(st: State, a: Action, s: Symbol)
    requires Inv(st) && Tidy(st) && Enabled(st, a) && a.UnregisterSent? && Fits(st, s)
    ensures Fits(Apply(st, a), s)
  {
  }

  lemma UnregisterJoinedKeepsFit(st: State, a: Action, s: Symbol)
    requires Inv(st) && Tidy(st) && Enabled(st, a) && a.UnregisterJoined? && Fits(st, s)
    ensures Fits(Apply(st, a), s)
  {
  }

  lemma ConnectKeepsFit(st: State, a: Action, s: Symbol)
    requires Inv(st) && Tidy(st) && Enabled(st, a) && (a.Connected? || a.ConnectFails?) && Fits(st, s)
    ensures Fits(Apply(st, a), s)
  {
  }

  lemma AttachKeepsFit(st: State, a: Action, s: Symbol)
    requires Inv(st) && Tidy(st) && Enabled(st, a) && a.Attaches? && Fits(st, s)
    ensures Fits(Apply(st, a), s)
  {
  }

  lemma AuthKeepsFit(st: State, a: Action, s: Symbol)
    requires Inv(st) && Tidy(st) && Enabled(st, a) && (a.AuthSent? || a.AuthSucceeds?) && Fits(st, s)
    ensures Fits(Apply(st, a), s)
  {
  }

  lemma EnterBatchKeepsFit(st: State, a: Action, s: Symbol)
    requires Inv(st) && Tidy(st) && Enabled(st, a) && a.EntersBatch? && Fits(st, s)
    ensures Fits(Apply(st, a), s)
  {
  }

  lemma BatchSentKeepsFit(st: State, a: Action, s: Symbol)
    requires Inv(st) && Tidy(st) && Enabled(st, a) && a.BatchSent? && Fits(st, s)
    ensures Fits(Apply(st, a), s)
  {
  }

  lemma LeaveKeepsFit(st: State, a: Action, s: Symbol)
    requires Inv(st) && Tidy(st) && Enabled(st, a) && (a.StreamEnds? || a.WatchdogJoined?) && Fits(st, s)
    ensures Fits(Apply(st, a), s)
  {
  }

  lemma CloseKeepsFit(st: State, a: Action, s: Symbol)
    requires Inv(st) && Tidy(st) && Enabled(st, a) && a.Closed? && Fits(st, s)
    ensures Fits(Apply(st, a), s)
  {
  }

  lemma DeliverKeepsFit(st: State, a: Action, s: Symbol)
    requires Inv(st) && Tidy(st) && Enabled(st, a) && a.CancelDelivered? && Fits(st, s)
    ensures Fits(Apply(st, a), s)
  {
  }

  lemma WatchdogIdleKeepsFit(st: State, a: Action, s: Symbol)
    requires Inv(st) && Tidy(st) && Enabled(st, a) && (a.WatchdogPicks? || a.WatchdogCloses?) && Fits(st, s)
    ensures Fits(Apply(st, a), s)
  {
  }

  lemma WatchdogEnterKeepsFit(st: State, a: Action, s: Symbol)
    requires Inv(st) && Tidy(st) && Enabled(st, a) && a.WatchdogEnters? && Fits(st, s)
    ensures Fits(Apply(st, a), s)
  {
  }

  lemma WatchdogUnsubscribeKeepsFit(st: State, a: Action, s: Symbol)
    requires Inv(st) && Tidy(st) && Enabled(st, a) && a.WatchdogUnsubscribed? && Fits(st, s)
    ensures Fits(Apply(st, a), s)
  {
  }

  lemma WatchdogResubscribeKeepsFit(st: State, a: Action, s: Symbol)
    requires Inv(st) && Tidy(st) && Enabled(st, a) && a.WatchdogResubscribed? && Fits(st, s)
    ensures Fits(Apply(st, a), s)
  {
  }

  lemma WatchdogCancelKeepsFit(st: State, a: Action, s: Symbol)
    requires Inv(st) && Tidy(st) && Enabled(st, a) && a.WatchdogCancelled? && Fits(st, s)
    ensures Fits(Apply(st, a), s)
  {
  }

  lemma StartKeepsUsable(st: State, a: Action)
    requires Inv(st) && Tidy(st) && Enabled(st, a) && (a.AdapterStarts? || a.ReaderStarts? || a.Wakes?)
    ensures SendersUsable(Apply(st, a)) && SocketUsable(Apply(st, a))
  {
  }

  lemma CancelAdapterKeepsUsable(st: State, a: Action)
    requires Inv(st) && Tidy(st) && Enabled(st, a) && a.AdapterCancelled?
    ensures SendersUsable(Apply(st, a)) && SocketUsable(Apply(st, a))
  {
  }

  lemma RegisterKeepsUsable(st: State, a: Action)
    requires Inv(st) && Tidy(st) && Enabled(st, a) && a.RegisterEnters?
    ensures SendersUsable(Apply(st, a)) && SocketUsable(Apply(st, a))
  {
  }

  lemma RegisterSentKeepsUsable(st: State, a: Action)
    requires Inv(st) && Tidy(st) && Enabled(st, a) && a.RegisterSent?
    ensures SendersUsable(Apply(st, a)) && SocketUsable(Apply(st, a))
  {
  }

  lemma UnregisterKeepsUse(st: State, s: Symbol, c: ConnId)
    requires Enabled(st, UnregisterEnters(s)) && Usable(st, c)
    ensures Usable(Apply(st, UnregisterEnters(s)), c)
  {
  }

  lemma UnregisterMovesOneSender(st: State, s: Symbol)
    requires Enabled(st, UnregisterEnters(s))
    ensures var next := Apply(st, UnregisterEnters(s));
            && (forall t <- next.adapters :: if t == s then Pc(next, s).Joining? || Pc(next, s).Out?
                                                            || (Live(st.sh) && Pc(next, s) == SendingUnsubscribe(st.sh.ws.value))
                                             else t in st.adapters && next.adapters[t] == st.adapters[t])
            && (forall r <- next.readers :: r in st.readers && next.readers[r].watchdog == st.readers[r].watchdog)
  {
  }

  lemma UnregisterKeepsSenders(st: State, a: Action)
    requires SendersUsable(st) && SocketUsable(st) && Enabled(st, a) && a.UnregisterEnters?
    ensures SendersUsable(Apply(st, a))
  {
    UnregisterMovesOneSender(st, a.s);
    forall c | Usable(st, c) ensures Usable(Apply(st, a), c) {
      UnregisterKeepsUse(st, a.s, c);
    }
  }

  lemma UnregisterKeepsSocket(st: State, a: Action)
    requires Inv(st) && Tidy(st) && Enabled(st, a) && a.UnregisterEnters?
    ensures SocketUsable(Apply(st, a))
  {
  }

  lemma UnregisterSentKeepsUse(st: State, s: Symbol, ok: bool, c: ConnId)
    requires Enabled(st, UnregisterSent(s, ok)) && Usable(st, c) && Pc(st, s).conn in st.wire
    ensures Usable(Apply(st, UnregisterSent(s, ok)), c)
  {
  }

  lemma UnregisterSentMovesOneSender(st: State, s: Symbol, ok: bool)
    requires Enabled(st, UnregisterSent(s, ok))
    ensures var next := Apply(st, UnregisterSent(s, ok));
            && (forall t <- next.adapters :: if t == s then next.adapters[t].Joining? || next.adapters[t].Out?
                                             else t in st.adapters && next.adapters[t] == st.adapters[t])
            && (forall r <- next.readers :: r in st.readers && next.readers[r].watchdog == st.readers[r].watchdog)
  {
  }

  lemma UnregisterSentKeepsSenders(st: State, a: Action)
    requires SendersUsable(st) && Enabled(st, a) && a.UnregisterSent?
    ensures SendersUsable(Apply(st, a))
  {
    UnregisterSentMovesOneSender(st, a.s, a.ok);
    forall c | Usable(st, c) ensures Usable(Apply(st, a), c) {
      UnregisterSentKeepsUse(st, a.s, a.ok, c);
    }
  }

  lemma UnregisterSentKeepsSocket(st: State, a: Action)
    requires Inv(st) && Tidy(st) && Enabled(st, a) && a.UnregisterSent?
    ensures SocketUsable(Apply(st, a))
  {
  }

  lemma UnregisterJoinedKeepsUsable(st: State, a: Action)
    requires Inv(st) && Tidy(st) && Enabled(st, a) && a.UnregisterJoined?
    ensures SendersUsable(Apply(st, a)) && SocketUsable(Apply(st, a))
  {
  }

  lemma ConnectKeepsUsable(st: State, a: Action)
    requires Inv(st) && Tidy(st) && Enabled(st, a) && (a.Connected? || a.ConnectFails?)
    ensures SendersUsable(Apply(st, a)) && SocketUsable(Apply(st, a))
  {
  }

  lemma AttachKeepsUsable(st: State, a: Action)
    requires Inv(st) && Tidy(st) && Enabled(st, a) && a.Attaches?
    ensures SendersUsable(Apply(st, a)) && SocketUsable(Apply(st, a))
  {
    NoAdapterInside(st);
  }

  lemma AuthKeepsUsable(st: State, a: Action)
    requires Inv(st) && Tidy(st) && Enabled(st, a) && (a.AuthSent? || a.AuthSucceeds?)
    ensures SendersUsable(Apply(st, a)) && SocketUsable(Apply(st, a))
  {
  }

  lemma EnterBatchKeepsUsable(st: State, a: Action)
    requires Inv(st) && Tidy(st) && Enabled(st, a) && a.EntersBatch?
    ensures SendersUsable(Apply(st, a)) && SocketUsable(Apply(st, a))
  {
  }

  lemma BatchSentKeepsSenders(st: State, a: Action)
    requires Inv(st) && Tidy(st) && Enabled(st, a) && a.BatchSent?
    ensures SendersUsable(Apply(st, a))
  {
  }

  lemma BatchSentKeepsSocket(st: State, a: Action)
    requires Inv(st) && Tidy(st) && Enabled(st, a) && a.BatchSent?
    ensures SocketUsable(Apply(st, a))
  {
  }

  lemma LeaveKeepsUsable(st: State, a: Action)
    requires Inv(st) && Tidy(st) && Enabled(st, a) && (a.StreamEnds? || a.WatchdogJoined?)
    ensures SendersUsable(Apply(st, a)) && SocketUsable(Apply(st, a))
  {
  }

  lemma CloseKeepsUsable(st: State, a: Action)
    requires Inv(st) && Tidy(st) && Enabled(st, a) && a.Closed?
    ensures SendersUsable(Apply(st, a)) && SocketUsable(Apply(st, a))
  {
  }

  lemma DeliverKeepsUse(st: State, r: TaskId, c: ConnId)
    requires OneReader(st) && CancelledOnce(st) && Enabled(st, CancelDelivered(r)) && Usable(st, c)
    ensures Usable(Apply(st, CancelDelivered(r)), c)
  {
    assert st.sh.task == Some(r);
  }

  lemma DeliverMovesNoSender(st: State, r: TaskId)
    requires Enabled(st, CancelDelivered(r))
    ensures var next := Apply(st, CancelDelivered(r));
            next.adapters == st.adapters && next.readers.Keys == st.readers.Keys
            && forall q <- st.readers :: next.readers[q].watchdog == st.readers[q].watchdog
  {
  }

  lemma DeliverKeepsSenders(st: State, a: Action)
    requires OneReader(st) && CancelledOnce(st) && SendersUsable(st) && Enabled(st, a) && a.CancelDelivered?
    ensures SendersUsable(Apply(st, a))
  {
    DeliverMovesNoSender(st, a.r);
    forall c | Usable(st, c) ensures Usable(Apply(st, a), c) {
      DeliverKeepsUse(st, a.r, c);
    }
  }

  lemma DeliverKeepsSocket(st: State, a: Action)
    requires Inv(st) && Tidy(st) && Enabled(st, a) && a.CancelDelivered?
    ensures SocketUsable(Apply(st, a))
  {
  }

  lemma WatchdogIdleKeepsUsable(st: State, a: Action)
    requires Inv(st) && Tidy(st) && Enabled(st, a) && (a.WatchdogPicks? || a.WatchdogCloses?)
    ensures SendersUsable(Apply(st, a)) && SocketUsable(Apply(st, a))
  {
  }

  lemma WatchdogEnterKeepsUsable(st: State, a: Action)
    requires Inv(st) && Tidy(st) && Enabled(st, a) && a.WatchdogEnters?
    ensures SendersUsable(Apply(st, a)) && SocketUsable(Apply(st, a))
  {
  }

  lemma WatchdogUnsubscribeKeepsUsable(st: State, a: Action)
    requires Inv(st) && Tidy(st) && Enabled(st, a) && a.WatchdogUnsubscribed?
    ensures SendersUsable(Apply(st, a)) && SocketUsable(Apply(st, a))
  {
  }

  lemma WatchdogResubscribeKeepsUsable(st: State, a: Action)
    requires Inv(st) && Tidy(st) && Enabled(st, a) && a.WatchdogResubscribed?
    ensures SendersUsable(Apply(st, a)) && SocketUsable(Apply(st, a))
  {
  }

  lemma WatchdogCancelKeepsSenders(st: State, a: Action)
    requires Inv(st) && Tidy(st) && Enabled(st, a) && a.WatchdogCancelled?
    ensures SendersUsable(Apply(st, a))
  {
  }

  lemma WatchdogCancelKeepsSocket(st: State, a: Action)
    requires Inv(st) && Tidy(st) && Enabled(st, a) && a.WatchdogCancelled?
    ensures SocketUsable(Apply(st, a))
  {
  }

  lemma NoAdapterInside(st: State)
    requires LockHeld(st) && st.lock.None?
    ensures forall s <- st.adapters :: !AdapterHolds(st.adapters[s])
    ensures forall r <- st.readers :: !WatchdogHolds(st.readers[r].watchdog)
  {
    NobodyInside(st);
    forall s <- st.adapters ensures !AdapterHolds(st.adapters[s]) {
      assert !AdapterHolds(Pc(st, s));
    }
  }

  lemma StepKeepsFit(st: State, a: Action, s: Symbol)
    requires Inv(st) && Tidy(st) && Enabled(st, a) && Fits(st, s)
    ensures Fits(Apply(st, a), s)
  {
    if a.AdapterStarts? || a.ReaderStarts? || a.Wakes? {
      StartKeepsFit(st, a, s);
    } else if a.AdapterCancelled? {
      CancelAdapterKeepsFit(st, a, s);
    } else if a.RegisterEnters? {
      RegisterKeepsFit(st, a, s);
    } else if a.RegisterSent? {
      RegisterSentKeepsFit(st, a, s);
    } else if a.UnregisterEnters? {
      UnregisterKeepsFit(st, a, s);
    } else if a.UnregisterSent? {
      UnregisterSentKeepsFit(st, a, s);
    } else if a.UnregisterJoined? {
      UnregisterJoinedKeepsFit(st, a, s);
    } else if a.Connected? || a.ConnectFails? {
      ConnectKeepsFit(st, a, s);
    } else if a.Attaches? {
      AttachKeepsFit(st, a, s);
    } else if a.AuthSent? || a.AuthSucceeds? {
      AuthKeepsFit(st, a, s);
    } else if a.EntersBatch? {
      EnterBatchKeepsFit(st, a, s);
    } else if a.BatchSent? {
      BatchSentKeepsFit(st, a, s);
    } else if a.StreamEnds? || a.WatchdogJoined? {
      LeaveKeepsFit(st, a, s);
    } else if a.Closed? {
      CloseKeepsFit(st, a, s);
    } else if a.CancelDelivered? {
      DeliverKeepsFit(st, a, s);
    } else if a.WatchdogPicks? || a.WatchdogCloses? {
      WatchdogIdleKeepsFit(st, a, s);
    } else if a.WatchdogEnters? {
      WatchdogEnterKeepsFit(st, a, s);
    } else if a.WatchdogUnsubscribed? {
      WatchdogUnsubscribeKeepsFit(st, a, s);
    } else if a.WatchdogResubscribed? {
      WatchdogResubscribeKeepsFit(st, a, s);
    } else if a.WatchdogCancelled? {
      WatchdogCancelKeepsFit(st, a, s);
    }
  }

  lemma StepKeepsUsable(st: State, a: Action)
    requires Inv(st) && Tidy(st) && Enabled(st, a)
    ensures SendersUsable(Apply(st, a)) && SocketUsable(Apply(st, a))
  {
    if a.AdapterStarts? || a.ReaderStarts? || a.Wakes? {
      StartKeepsUsable(st, a);
    } else if a.AdapterCancelled? {
      CancelAdapterKeepsUsable(st, a);
    } else if a.RegisterEnters? {
      RegisterKeepsUsable(st, a);
    } else if a.RegisterSent? {
      RegisterSentKeepsUsable(st, a);
    } else if a.UnregisterEnters? {
      UnregisterKeepsSenders(st, a);
      UnregisterKeepsSocket(st, a);
    } else if a.UnregisterSent? {
      UnregisterSentKeepsSenders(st, a);
      UnregisterSentKeepsSocket(st, a);
    } else if a.UnregisterJoined? {
      UnregisterJoinedKeepsUsable(st, a);
    } else if a.Connected? || a.ConnectFails? {
      ConnectKeepsUsable(st, a);
    } else if a.Attaches? {
      AttachKeepsUsable(st, a);
    } else if a.AuthSent? || a.AuthSucceeds? {
      AuthKeepsUsable(st, a);
    } else if a.EntersBatch? {
      EnterBatchKeepsUsable(st, a);
    } else if a.BatchSent? {
      BatchSentKeepsSenders(st, a);
      BatchSentKeepsSocket(st, a);
    } else if a.StreamEnds? || a.WatchdogJoined? {
      LeaveKeepsUsable(st, a);
    } else if a.Closed? {
      CloseKeepsUsable(st, a);
    } else if a.CancelDelivered? {
      DeliverKeepsSenders(st, a);
      DeliverKeepsSocket(st, a);
    } else if a.WatchdogPicks? || a.WatchdogCloses? {
      WatchdogIdleKeepsUsable(st, a);
    } else if a.WatchdogEnters? {
      WatchdogEnterKeepsUsable(st, a);
    } else if a.WatchdogUnsubscribed? {
      WatchdogUnsubscribeKeepsUsable(st, a);
    } else if a.WatchdogResubscribed? {
      WatchdogResubscribeKeepsUsable(st, a);
    } else if a.WatchdogCancelled? {
      WatchdogCancelKeepsSenders(st, a);
      WatchdogCancelKeepsSocket(st, a);
    }
  }

  lemma StepKeepsTidy(st: State, a: Action)
    requires Inv(st) && Tidy(st) && Enabled(st, a)
    ensures Tidy(Apply(st, a))
  {
    StepKeepsUsable(st, a);
    forall s ensures Fits(Apply(st, a), s) {
      FitsOf(st, s);
      StepKeepsFit(st, a, s);
    }
    FitsAll(Apply(st, a));
  }

  lemma FitsOf(st: State, s: Symbol)
    requires WireOnBooks(st)
    ensures Fits(st, s)
  {
  }

  lemma FitsAll(st: State)
    requires forall s :: Fits(st, s)
    ensures WireOnBooks(st)
  {
    if st.sh.task.Some? && st.sh.task.value in st.readers {
      forall s ensures WireFits(st, st.readers[st.sh.task.value].phase, s) {
        assert Fits(st, s);
      }
    }
  }

  lemma {:induction false} RunKeepsTidy(st: State, acts: seq<Action>, end: State)
    requires Inv(st) && Tidy(st) && Reaches(st, acts, end)
    ensures Inv(end) && Tidy(end)
    decreases |acts|
  {
    if acts != [] {
      StepKeepsInv(st, acts[0]);
      StepKeepsTidy(st, acts[0]);
      RunKeepsTidy(Apply(st, acts[0]), acts[1..], end);
    }
  }

  /** With the lock free, the connection authenticated, its reader reading and no failed send, what
      is subscribed on it is exactly what is active, strays aside. */
  lemma SubscribedAreActive(st: State, r: TaskId)
    requires Reachable(st) && st.lock.None? && st.sh.authed
    requires st.sh.task == Some(r) && r in st.readers && st.readers[r].phase.Reading?
    requires st.readers[r].phase.conn !in st.dirty
    ensures var wire := Wire(st, st.readers[r].phase.conn);
            st.sh.active <= wire <= st.sh.active + st.stray
  {
    ActiveAreSubscribed(st, r);
    var acts :| Reaches(Init(), acts, st);
    InitInv();
    RunKeepsTidy(Init(), acts, st);
    NobodyInside(st);
    var c := st.readers[r].phase.conn;
    forall s | s in Wire(st, c) ensures s in st.sh.active + st.stray {
      assert WireFits(st, st.readers[r].phase, s);
      assert !AdapterHolds(Pc(st, s));
    }
  }

  /** A symbol strays exactly when the watchdog resubscribes what is not on the books any more
      (its list of stale symbols is older than its turn at the lock), or when sending its
      unsubscription fails. */
  lemma StrayExactly(st: State, a: Action, s: Symbol)
    requires Inv(st) && Enabled(st, a) && s !in st.stray
    ensures s in Apply(st, a).stray <==>
            a == UnregisterSent(s, false)
            || (a.WatchdogResubscribed? && a.ok && st.readers[a.r].watchdog.symbol == s && s !in st.sh.subscribed)
  {
    if !a.UnregisterSent? && !a.WatchdogResubscribed? {
      OthersDoNotStray(st, a);
    }
  }

  lemma OthersDoNotStray(st: State, a: Action)
    requires Enabled(st, a) && !a.UnregisterSent? && !a.WatchdogResubscribed?
    ensures Apply(st, a).stray <= st.stray
  {
  }

  // ---- strays do happen ----

  lemma BothStreaming() returns (st: State)
    ensures Reachable(st)
    ensures Snapshot(st, Shared({1, 2}, {1, 2}, Some(7), true, Some(5)), None, In, In, Reader(Reading(7), false, Polling, false))
  {
    st := SecondSubscribing();
    st := Take(st, RegisterSent(2, true));
    assert st.sh.subscribed == {1, 2};
  }

  lemma PickedThenCancelled() returns (st: State)
    ensures Reachable(st)
    ensures Snapshot(st, Shared({1, 2}, {1, 2}, Some(7), true, Some(5)), None, Unregistering, In,
                     Reader(Reading(7), false, WaitToResubscribe(1), false))
  {
    st := BothStreaming();
    st := Take(st, WatchdogPicks(5, 1));
    st := Take(st, AdapterCancelled(1));
  }

  lemma FirstGone() returns (st: State)
    ensures Reachable(st)
    ensures Snapshot(st, Shared({2}, {2}, Some(7), true, Some(5)), None, Out, In,
                     Reader(Reading(7), false, WaitToResubscribe(1), false))
  {
    st := PickedThenCancelled();
    st := Take(st, UnregisterEnters(1));
    assert st.sh.active == {2} && st.sh.subscribed == {2};
    st := Take(st, UnregisterSent(1, true));
  }

  /** A run after which symbol 1 is subscribed again although nobody is registered for it. */
  lemma StrayHappens() returns (st: State)
    ensures Reachable(st) && st.lock.None? && 1 in st.stray && 1 in Wire(st, 7) && 1 !in st.sh.active
  {
    st := FirstGone();
    st := Take(st, WatchdogEnters(5));
    st := Take(st, WatchdogUnsubscribed(5, true));
    st := Take(st, WatchdogResubscribed(5, true));
  }
}
