/** Every action of the shared-connection protocol keeps the invariant, action by action. */
module SharedConnectionSteps {
  import opened Common
  import opened SharedConnection

  lemma StartAdapterKeepsOwnership(st: State, a: Action)
    requires Inv(st) && Enabled(st, a) && a.AdapterStarts?
    ensures Ownership(Apply(st, a))
  {
  }

  lemma StartAdapterKeepsRest(st: State, a: Action)
    requires Inv(st) && Enabled(st, a) && a.AdapterStarts?
    ensures Teardown(Apply(st, a)) && Connection(Apply(st, a))
  {
  }

  lemma StartReaderKeepsOwnership(st: State, a: Action)
    requires Inv(st) && Enabled(st, a) && (a.ReaderStarts? || a.Wakes?)
    ensures Ownership(Apply(st, a))
  {
  }

  lemma StartReaderKeepsTeardown(st: State, a: Action)
    requires Inv(st) && Enabled(st, a) && (a.ReaderStarts? || a.Wakes?)
    ensures Teardown(Apply(st, a))
  {
  }

  lemma StartReaderKeepsConnection(st: State, a: Action)
    requires Inv(st) && Enabled(st, a) && (a.ReaderStarts? || a.Wakes?)
    ensures Connection(Apply(st, a))
  {
  }

  lemma CancelAdapterKeepsOwnership(st: State, a: Action)
    requires Inv(st) && Enabled(st, a) && a.AdapterCancelled?
    ensures Ownership(Apply(st, a))
  {
    assert Holds(st, ByAdapter(a.s)) == AdapterHolds(Pc(st, a.s));
  }

  lemma CancelAdapterKeepsRest(st: State, a: Action)
    requires Inv(st) && Enabled(st, a) && a.AdapterCancelled?
    ensures Teardown(Apply(st, a)) && Connection(Apply(st, a))
  {
    assert Holds(st, ByAdapter(a.s)) == AdapterHolds(Pc(st, a.s));
  }

  lemma RegisterKeepsReaders(st: State, a: Action)
    requires Inv(st) && Enabled(st, a) && a.RegisterEnters?
    ensures OneReader(Apply(st, a)) && ActiveExactly(Apply(st, a))
  {
    NobodyInside(st);
  }

  lemma RegisterKeepsLock(st: State, a: Action)
    requires Inv(st) && Enabled(st, a) && a.RegisterEnters?
    ensures LockHeld(Apply(st, a))
  {
    NobodyInside(st);
  }

  lemma RegisterKeepsTeardown(st: State, a: Action)
    requires Inv(st) && Enabled(st, a) && a.RegisterEnters?
    ensures Teardown(Apply(st, a))
  {
    NobodyInside(st);
  }

  lemma RegisterKeepsConnection(st: State, a: Action)
    requires Inv(st) && Enabled(st, a) && a.RegisterEnters?
    ensures Connection(Apply(st, a))
  {
    NobodyInside(st);
  }

  lemma RegisterSentKeepsOwnership(st: State, a: Action)
    requires Inv(st) && Enabled(st, a) && a.RegisterSent?
    ensures Ownership(Apply(st, a))
  {
    assert Holds(st, ByAdapter(a.s)) == AdapterHolds(Pc(st, a.s));
  }

  lemma RegisterSentKeepsRest(st: State, a: Action)
    requires Inv(st) && Enabled(st, a) && a.RegisterSent?
    ensures Teardown(Apply(st, a)) && Connection(Apply(st, a))
  {
    assert Holds(st, ByAdapter(a.s)) == AdapterHolds(Pc(st, a.s));
  }

  lemma UnregisterKeepsReaders(st: State, a: Action)
    requires Inv(st) && Enabled(st, a) && a.UnregisterEnters?
    ensures OneReader(Apply(st, a)) && ActiveExactly(Apply(st, a))
  {
    NobodyInside(st);
  }

  lemma UnregisterKeepsLock(st: State, a: Action)
    requires Inv(st) && Enabled(st, a) && a.UnregisterEnters?
    ensures LockHeld(Apply(st, a))
  {
    NobodyInside(st);
  }

  lemma UnregisterKeepsJoining(st: State, a: Action)
    requires Inv(st) && Enabled(st, a) && a.UnregisterEnters?
    ensures JoinsWhenEmpty(Apply(st, a)) && StoppedUnderLock(Apply(st, a))
  {
    NobodyInside(st);
  }

  lemma UnregisterKeepsIdle(st: State, a: Action)
    requires Inv(st) && Enabled(st, a) && a.UnregisterEnters?
    ensures IdleIsEmpty(Apply(st, a))
  {
    NobodyInside(st);
  }

  lemma UnregisterKeepsCancels(st: State, a: Action)
    requires Inv(st) && Enabled(st, a) && a.UnregisterEnters?
    ensures CancelledOnce(Apply(st, a)) && AbsorbedNeverEnds(Apply(st, a))
  {
    NobodyInside(st);
  }

  lemma UnregisterKeepsConnection(st: State, a: Action)
    requires Inv(st) && Enabled(st, a) && a.UnregisterEnters?
    ensures Connection(Apply(st, a))
  {
    NobodyInside(st);
  }

  lemma UnregisterSentKeepsReader(st: State, a: Action)
    requires Inv(st) && Enabled(st, a) && a.UnregisterSent?
    ensures OneReader(Apply(st, a))
  {
    assert Holds(st, ByAdapter(a.s)) == AdapterHolds(Pc(st, a.s));
  }

  lemma UnregisterSentKeepsActive(st: State, a: Action)
    requires Inv(st) && Enabled(st, a) && a.UnregisterSent?
    ensures ActiveExactly(Apply(st, a))
  {
    assert Holds(st, ByAdapter(a.s)) == AdapterHolds(Pc(st, a.s));
  }

  lemma UnregisterSentKeepsLock(st: State, a: Action)
    requires Inv(st) && Enabled(st, a) && a.UnregisterSent?
    ensures LockHeld(Apply(st, a))
  {
    assert Holds(st, ByAdapter(a.s)) == AdapterHolds(Pc(st, a.s));
  }

  lemma UnregisterSentKeepsJoining(st: State, a: Action)
    requires Inv(st) && Enabled(st, a) && a.UnregisterSent?
    ensures JoinsWhenEmpty(Apply(st, a)) && StoppedUnderLock(Apply(st, a))
  {
    assert Holds(st, ByAdapter(a.s)) == AdapterHolds(Pc(st, a.s));
  }

  lemma UnregisterSentKeepsIdle(st: State, a: Action)
    requires Inv(st) && Enabled(st, a) && a.UnregisterSent?
    ensures IdleIsEmpty(Apply(st, a))
  {
    assert Holds(st, ByAdapter(a.s)) == AdapterHolds(Pc(st, a.s));
  }

  lemma UnregisterSentKeepsCancels(st: State, a: Action)
    requires Inv(st) && Enabled(st, a) && a.UnregisterSent?
    ensures CancelledOnce(Apply(st, a)) && AbsorbedNeverEnds(Apply(st, a))
  {
    assert Holds(st, ByAdapter(a.s)) == AdapterHolds(Pc(st, a.s));
  }

  lemma UnregisterSentKeepsSocket(st: State, a: Action)
    requires Inv(st) && Enabled(st, a) && a.UnregisterSent?
    ensures SocketIsReaders(Apply(st, a)) && WatchdogInLoop(Apply(st, a))
  {
    assert Holds(st, ByAdapter(a.s)) == AdapterHolds(Pc(st, a.s));
  }

  lemma UnregisterSentKeepsCovered(st: State, a: Action)
    requires Inv(st) && Enabled(st, a) && a.UnregisterSent?
    ensures Covered(Apply(st, a))
  {
    assert Holds(st, ByAdapter(a.s)) == AdapterHolds(Pc(st, a.s));
  }

  lemma UnregisterJoinedKeeps(st: State, a: Action)
    requires Inv(st) && Enabled(st, a) && a.UnregisterJoined?
    ensures Inv(Apply(st, a))
  {
    assert Holds(st, ByAdapter(a.s)) == AdapterHolds(Pc(st, a.s));
  }

  lemma ConnectKeepsOwnership(st: State, a: Action)
    requires Inv(st) && Enabled(st, a) && (a.Connected? || a.ConnectFails?)
    ensures Ownership(Apply(st, a))
  {
  }

  lemma ConnectKeepsTeardown(st: State, a: Action)
    requires Inv(st) && Enabled(st, a) && (a.Connected? || a.ConnectFails?)
    ensures Teardown(Apply(st, a))
  {
  }

  lemma ConnectKeepsConnection(st: State, a: Action)
    requires Inv(st) && Enabled(st, a) && (a.Connected? || a.ConnectFails?)
    ensures Connection(Apply(st, a))
  {
  }

  lemma AttachKeepsOwnership(st: State, a: Action)
    requires Inv(st) && Enabled(st, a) && a.Attaches?
    ensures Ownership(Apply(st, a))
  {
  }

  lemma AttachKeepsTeardown(st: State, a: Action)
    requires Inv(st) && Enabled(st, a) && a.Attaches?
    ensures Teardown(Apply(st, a))
  {
  }

  lemma AttachKeepsConnection(st: State, a: Action)
    requires Inv(st) && Enabled(st, a) && a.Attaches?
    ensures Connection(Apply(st, a))
  {
  }

  lemma AuthSentKeepsOwnership(st: State, a: Action)
    requires Inv(st) && Enabled(st, a) && a.AuthSent?
    ensures Ownership(Apply(st, a))
  {
    assert Holds(st, ByReader(a.r)) == ReaderHolds(st.readers[a.r].phase);
  }

  lemma AuthSentKeepsRest(st: State, a: Action)
    requires Inv(st) && Enabled(st, a) && a.AuthSent?
    ensures Teardown(Apply(st, a)) && Connection(Apply(st, a))
  {
    assert Holds(st, ByReader(a.r)) == ReaderHolds(st.readers[a.r].phase);
  }

  lemma AuthSucceedKeepsOwnership(st: State, a: Action)
    requires Inv(st) && Enabled(st, a) && a.AuthSucceeds?
    ensures Ownership(Apply(st, a))
  {
    assert Holds(st, ByReader(a.r)) == ReaderHolds(st.readers[a.r].phase);
  }

  lemma AuthSucceedKeepsRest(st: State, a: Action)
    requires Inv(st) && Enabled(st, a) && a.AuthSucceeds?
    ensures Teardown(Apply(st, a)) && Connection(Apply(st, a))
  {
    assert Holds(st, ByReader(a.r)) == ReaderHolds(st.readers[a.r].phase);
  }

  lemma EnterBatchKeepsOwnership(st: State, a: Action)
    requires Inv(st) && Enabled(st, a) && a.EntersBatch?
    ensures Ownership(Apply(st, a))
  {
    assert Holds(st, ByReader(a.r)) == ReaderHolds(st.readers[a.r].phase);
  }

  lemma EnterBatchKeepsRest(st: State, a: Action)
    requires Inv(st) && Enabled(st, a) && a.EntersBatch?
    ensures Teardown(Apply(st, a)) && Connection(Apply(st, a))
  {
    assert Holds(st, ByReader(a.r)) == ReaderHolds(st.readers[a.r].phase);
  }

  lemma BatchSentKeepsReaders(st: State, a: Action)
    requires Inv(st) && Enabled(st, a) && a.BatchSent?
    ensures OneReader(Apply(st, a)) && ActiveExactly(Apply(st, a))
  {
    assert Holds(st, ByReader(a.r)) == ReaderHolds(st.readers[a.r].phase);
  }

  lemma BatchSentKeepsLock(st: State, a: Action)
    requires Inv(st) && Enabled(st, a) && a.BatchSent?
    ensures LockHeld(Apply(st, a))
  {
    assert Holds(st, ByReader(a.r)) == ReaderHolds(st.readers[a.r].phase);
  }

  lemma BatchSentKeepsTeardown(st: State, a: Action)
    requires Inv(st) && Enabled(st, a) && a.BatchSent?
    ensures Teardown(Apply(st, a))
  {
    assert Holds(st, ByReader(a.r)) == ReaderHolds(st.readers[a.r].phase);
  }

  lemma BatchSentKeepsConnection(st: State, a: Action)
    requires Inv(st) && Enabled(st, a) && a.BatchSent?
    ensures Connection(Apply(st, a))
  {
    assert Holds(st, ByReader(a.r)) == ReaderHolds(st.readers[a.r].phase);
  }

  lemma EndStreamKeepsOwnership(st: State, a: Action)
    requires Inv(st) && Enabled(st, a) && a.StreamEnds?
    ensures Ownership(Apply(st, a))
  {
  }

  lemma EndStreamKeepsRest(st: State, a: Action)
    requires Inv(st) && Enabled(st, a) && a.StreamEnds?
    ensures Teardown(Apply(st, a)) && Connection(Apply(st, a))
  {
  }

  lemma JoinWatchdogKeepsOwnership(st: State, a: Action)
    requires Inv(st) && Enabled(st, a) && a.WatchdogJoined?
    ensures Ownership(Apply(st, a))
  {
  }

  lemma JoinWatchdogKeepsRest(st: State, a: Action)
    requires Inv(st) && Enabled(st, a) && a.WatchdogJoined?
    ensures Teardown(Apply(st, a)) && Connection(Apply(st, a))
  {
  }

  lemma CloseKeepsOwnership(st: State, a: Action)
    requires Inv(st) && Enabled(st, a) && a.Closed?
    ensures Ownership(Apply(st, a))
  {
  }

  lemma CloseKeepsRest(st: State, a: Action)
    requires Inv(st) && Enabled(st, a) && a.Closed?
    ensures Teardown(Apply(st, a)) && Connection(Apply(st, a))
  {
  }

  lemma DeliverKeepsOwnership(st: State, a: Action)
    requires Inv(st) && Enabled(st, a) && a.CancelDelivered?
    ensures Ownership(Apply(st, a))
  {
    assert Holds(st, ByReader(a.r)) == ReaderHolds(st.readers[a.r].phase);
  }

  lemma DeliverKeepsTeardown(st: State, a: Action)
    requires Inv(st) && Enabled(st, a) && a.CancelDelivered?
    ensures Teardown(Apply(st, a))
  {
    assert Holds(st, ByReader(a.r)) == ReaderHolds(st.readers[a.r].phase);
  }

  lemma DeliverKeepsConnection(st: State, a: Action)
    requires Inv(st) && Enabled(st, a) && a.CancelDelivered?
    ensures Connection(Apply(st, a))
  {
    assert Holds(st, ByReader(a.r)) == ReaderHolds(st.readers[a.r].phase);
  }

  lemma WatchdogPickKeepsOwnership(st: State, a: Action)
    requires Inv(st) && Enabled(st, a) && a.WatchdogPicks?
    ensures Ownership(Apply(st, a))
  {
  }

  lemma WatchdogPickKeepsRest(st: State, a: Action)
    requires Inv(st) && Enabled(st, a) && a.WatchdogPicks?
    ensures Teardown(Apply(st, a)) && Connection(Apply(st, a))
  {
  }

  lemma WatchdogCloseKeepsOwnership(st: State, a: Action)
    requires Inv(st) && Enabled(st, a) && a.WatchdogCloses?
    ensures Ownership(Apply(st, a))
  {
  }

  lemma WatchdogCloseKeepsRest(st: State, a: Action)
    requires Inv(st) && Enabled(st, a) && a.WatchdogCloses?
    ensures Teardown(Apply(st, a)) && Connection(Apply(st, a))
  {
  }

  lemma WatchdogEnterKeepsOwnership(st: State, a: Action)
    requires Inv(st) && Enabled(st, a) && a.WatchdogEnters?
    ensures Ownership(Apply(st, a))
  {
    assert Holds(st, ByWatchdog(a.r)) == WatchdogHolds(st.readers[a.r].watchdog);
  }

  lemma WatchdogEnterKeepsRest(st: State, a: Action)
    requires Inv(st) && Enabled(st, a) && a.WatchdogEnters?
    ensures Teardown(Apply(st, a)) && Connection(Apply(st, a))
  {
    assert Holds(st, ByWatchdog(a.r)) == WatchdogHolds(st.readers[a.r].watchdog);
  }

  lemma WatchdogUnsubscribeKeepsOwnership(st: State, a: Action)
    requires Inv(st) && Enabled(st, a) && a.WatchdogUnsubscribed?
    ensures Ownership(Apply(st, a))
  {
    assert Holds(st, ByWatchdog(a.r)) == WatchdogHolds(st.readers[a.r].watchdog);
  }

  lemma WatchdogUnsubscribeKeepsTeardown(st: State, a: Action)
    requires Inv(st) && Enabled(st, a) && a.WatchdogUnsubscribed?
    ensures Teardown(Apply(st, a))
  {
    assert Holds(st, ByWatchdog(a.r)) == WatchdogHolds(st.readers[a.r].watchdog);
  }

  lemma WatchdogUnsubscribeKeepsConnection(st: State, a: Action)
    requires Inv(st) && Enabled(st, a) && a.WatchdogUnsubscribed?
    ensures Connection(Apply(st, a))
  {
    assert Holds(st, ByWatchdog(a.r)) == WatchdogHolds(st.readers[a.r].watchdog);
  }

  lemma WatchdogResubscribeKeepsOwnership(st: State, a: Action)
    requires Inv(st) && Enabled(st, a) && a.WatchdogResubscribed?
    ensures Ownership(Apply(st, a))
  {
    assert Holds(st, ByWatchdog(a.r)) == WatchdogHolds(st.readers[a.r].watchdog);
  }

  lemma WatchdogResubscribeKeepsTeardown(st: State, a: Action)
    requires Inv(st) && Enabled(st, a) && a.WatchdogResubscribed?
    ensures Teardown(Apply(st, a))
  {
    assert Holds(st, ByWatchdog(a.r)) == WatchdogHolds(st.readers[a.r].watchdog);
  }

  lemma WatchdogResubscribeKeepsConnection(st: State, a: Action)
    requires Inv(st) && Enabled(st, a) && a.WatchdogResubscribed?
    ensures Connection(Apply(st, a))
  {
    assert Holds(st, ByWatchdog(a.r)) == WatchdogHolds(st.readers[a.r].watchdog);
  }

  lemma WatchdogCancelKeepsOwnership(st: State, a: Action)
    requires Inv(st) && Enabled(st, a) && a.WatchdogCancelled?
    ensures Ownership(Apply(st, a))
  {
    assert Holds(st, ByWatchdog(a.r)) == WatchdogHolds(st.readers[a.r].watchdog);
  }

  lemma WatchdogCancelKeepsRest(st: State, a: Action)
    requires Inv(st) && Enabled(st, a) && a.WatchdogCancelled?
    ensures Teardown(Apply(st, a)) && Connection(Apply(st, a))
  {
    assert Holds(st, ByWatchdog(a.r)) == WatchdogHolds(st.readers[a.r].watchdog);
  }

  predicate IsAdapterAction(a: Action) {
    a.AdapterCancelled? || a.RegisterEnters? || a.RegisterSent? || a.UnregisterEnters?
    || a.UnregisterSent? || a.UnregisterJoined?
  }

  lemma AdapterStepKeepsInv(st: State, a: Action)
    requires Inv(st) && Enabled(st, a) && IsAdapterAction(a)
    ensures Inv(Apply(st, a))
  {
    if a.AdapterCancelled? {
      CancelAdapterKeepsOwnership(st, a);
      CancelAdapterKeepsRest(st, a);
    } else if a.RegisterEnters? {
      RegisterKeepsReaders(st, a);
      RegisterKeepsLock(st, a);
      RegisterKeepsTeardown(st, a);
      RegisterKeepsConnection(st, a);
    } else if a.RegisterSent? {
      RegisterSentKeepsOwnership(st, a);
      RegisterSentKeepsRest(st, a);
    } else if a.UnregisterEnters? {
      UnregisterKeepsReaders(st, a);
      UnregisterKeepsLock(st, a);
      UnregisterKeepsJoining(st, a);
      UnregisterKeepsIdle(st, a);
      UnregisterKeepsCancels(st, a);
      UnregisterKeepsConnection(st, a);
    } else if a.UnregisterSent? {
      UnregisterSentKeepsReader(st, a);
      UnregisterSentKeepsActive(st, a);
      UnregisterSentKeepsLock(st, a);
      UnregisterSentKeepsJoining(st, a);
      UnregisterSentKeepsIdle(st, a);
      UnregisterSentKeepsCancels(st, a);
      UnregisterSentKeepsSocket(st, a);
      UnregisterSentKeepsCovered(st, a);
    } else if a.UnregisterJoined? {
      UnregisterJoinedKeeps(st, a);
    }
  }

  predicate IsConnectAction(a: Action) {
    a.AdapterStarts? || a.ReaderStarts? || a.Wakes? || a.Connected?
    || a.ConnectFails? || a.Attaches? || a.AuthSent? || a.AuthSucceeds?
  }

  lemma ConnectStepKeepsInv(st: State, a: Action)
    requires Inv(st) && Enabled(st, a) && IsConnectAction(a)
    ensures Inv(Apply(st, a))
  {
    if a.AdapterStarts? {
      StartAdapterKeepsOwnership(st, a);
      StartAdapterKeepsRest(st, a);
    } else if a.ReaderStarts? || a.Wakes? {
      StartReaderKeepsOwnership(st, a);
      StartReaderKeepsTeardown(st, a);
      StartReaderKeepsConnection(st, a);
    } else if a.Connected? || a.ConnectFails? {
      ConnectKeepsOwnership(st, a);
      ConnectKeepsTeardown(st, a);
      ConnectKeepsConnection(st, a);
    } else if a.Attaches? {
      AttachKeepsOwnership(st, a);
      AttachKeepsTeardown(st, a);
      AttachKeepsConnection(st, a);
    } else if a.AuthSent? {
      AuthSentKeepsOwnership(st, a);
      AuthSentKeepsRest(st, a);
    } else if a.AuthSucceeds? {
      AuthSucceedKeepsOwnership(st, a);
      AuthSucceedKeepsRest(st, a);
    }
  }

  predicate IsReaderAction(a: Action) {
    a.EntersBatch? || a.BatchSent? || a.StreamEnds? || a.WatchdogJoined?
    || a.Closed? || a.CancelDelivered?
  }

  lemma ReaderStepKeepsInv(st: State, a: Action)
    requires Inv(st) && Enabled(st, a) && IsReaderAction(a)
    ensures Inv(Apply(st, a))
  {
    if a.EntersBatch? {
      EnterBatchKeepsOwnership(st, a);
      EnterBatchKeepsRest(st, a);
    } else if a.BatchSent? {
      BatchSentKeepsReaders(st, a);
      BatchSentKeepsLock(st, a);
      BatchSentKeepsTeardown(st, a);
      BatchSentKeepsConnection(st, a);
    } else if a.StreamEnds? {
      EndStreamKeepsOwnership(st, a);
      EndStreamKeepsRest(st, a);
    } else if a.WatchdogJoined? {
      JoinWatchdogKeepsOwnership(st, a);
      JoinWatchdogKeepsRest(st, a);
    } else if a.Closed? {
      CloseKeepsOwnership(st, a);
      CloseKeepsRest(st, a);
    } else if a.CancelDelivered? {
      DeliverKeepsOwnership(st, a);
      DeliverKeepsTeardown(st, a);
      DeliverKeepsConnection(st, a);
    }
  }

  predicate IsWatchdogAction(a: Action) {
    a.WatchdogPicks? || a.WatchdogCloses? || a.WatchdogEnters? || a.WatchdogUnsubscribed?
    || a.WatchdogResubscribed? || a.WatchdogCancelled?
  }

  lemma WatchdogStepKeepsInv(st: State, a: Action)
    requires Inv(st) && Enabled(st, a) && IsWatchdogAction(a)
    ensures Inv(Apply(st, a))
  {
    if a.WatchdogPicks? {
      WatchdogPickKeepsOwnership(st, a);
      WatchdogPickKeepsRest(st, a);
    } else if a.WatchdogCloses? {
      WatchdogCloseKeepsOwnership(st, a);
      WatchdogCloseKeepsRest(st, a);
    } else if a.WatchdogEnters? {
      WatchdogEnterKeepsOwnership(st, a);
      WatchdogEnterKeepsRest(st, a);
    } else if a.WatchdogUnsubscribed? {
      WatchdogUnsubscribeKeepsOwnership(st, a);
      WatchdogUnsubscribeKeepsTeardown(st, a);
      WatchdogUnsubscribeKeepsConnection(st, a);
    } else if a.WatchdogResubscribed? {
      WatchdogResubscribeKeepsOwnership(st, a);
      WatchdogResubscribeKeepsTeardown(st, a);
      WatchdogResubscribeKeepsConnection(st, a);
    } else if a.WatchdogCancelled? {
      WatchdogCancelKeepsOwnership(st, a);
      WatchdogCancelKeepsRest(st, a);
    }
  }

  /** The invariant is inductive. */
  lemma StepKeepsInv(st: State, a: Action)
    requires Inv(st) && Enabled(st, a)
    ensures Inv(Apply(st, a))
  {
    if IsAdapterAction(a) {
      AdapterStepKeepsInv(st, a);
    } else if IsConnectAction(a) {
      ConnectStepKeepsInv(st, a);
    } else if IsReaderAction(a) {
      ReaderStepKeepsInv(st, a);
    } else {
      WatchdogStepKeepsInv(st, a);
    }
  }
}
