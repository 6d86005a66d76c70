/** The one shared provider connection of the feed manager, as a protocol between
    per-symbol adapters (which register and unregister), the reader task that owns the socket,
    and the staleness watchdog of the current connection. They run on one event loop: each
    action below is the code between two awaits, and any interleaving of actions is a run.

    Hypotheses: one adapter per symbol at a time, and each adapter is cancelled once. */
module SharedConnection {
  import opened Common

  type Symbol = nat
  type TaskId = nat
  type ConnId = nat

  datatype Owner = ByAdapter(symbol: Symbol) | ByReader(task: TaskId) | ByWatchdog(task: TaskId)

  /** Where the adapter of one symbol stands. */
  datatype Adapter =
    | Out                            // no adapter
    | Registering                    // waits for the lock
    | SendingSubscribe(conn: ConnId) // holds the lock
    | In                             // registered, blocked until it is cancelled
    | Unregistering                  // waits for the lock
    | SendingUnsubscribe(conn: ConnId) // holds the lock
    | Joining(task: TaskId)          // holds the lock, has cancelled the reader and awaits its end

  datatype Exit = Ended | Cancelled

  /** Where a reader task stands. */
  datatype Phase =
    | NotStarted
    | Connecting
    | WaitToAttach(conn: ConnId)     // connected, waits for the lock
    | SendingAuth(conn: ConnId)      // holds the lock
    | Reading(conn: ConnId)
    | WaitToSubscribe(conn: ConnId)  // saw auth_success, waits for the lock
    | SendingBatch(conn: ConnId, batch: set<Symbol>) // holds the lock
    | JoiningWatchdog(conn: ConnId, exit: Exit)
    | Closing(conn: ConnId, exit: Exit)
    | Backoff
    | Done

  /** Where the watchdog of the reader's current connection stands. */
  datatype Watchdog =
    | Ended_
    | Polling
    | WaitToResubscribe(symbol: Symbol)
    | Unsubscribing(symbol: Symbol, conn: ConnId) // holds the lock
    | Resubscribing(symbol: Symbol, conn: ConnId) // holds the lock

  /** A reader, whether it has been cancelled and not noticed yet, its watchdog, and whether
      the watchdog has been cancelled. */
  datatype Reader = Reader(phase: Phase, cancel: bool, watchdog: Watchdog, watchdogCancel: bool)

  /** The fields the manager keeps for the connection. */
  datatype Shared = Shared(
    active: set<Symbol>, subscribed: set<Symbol>, ws: Option<ConnId>, authed: bool, task: Option<TaskId>)

  datatype State = State(
    sh: Shared,
    lock: Option<Owner>,
    adapters: map<Symbol, Adapter>,
    readers: map<TaskId, Reader>,
    wire: map<ConnId, set<Symbol>>, // subscriptions in effect on each connection, as sent
    dirty: set<ConnId>,             // connections on which a send failed or was interrupted
    leaked: set<Symbol>,            // left active by an adapter cancelled while subscribing
    absorbed: set<TaskId>,          // readers whose cancellation was swallowed
    stray: set<Symbol>)             // on the current connection off the manager's books

  function Pc(st: State, s: Symbol): Adapter {
    if s in st.adapters then st.adapters[s] else Out
  }

  function Wire(st: State, c: ConnId): set<Symbol> {
    if c in st.wire then st.wire[c] else {}
  }

  function Init(): State {
    State(Shared({}, {}, None, false, None), None, map[], map[], map[], {}, {}, {}, {})
  }

  // ---- the manager's own updates ----

  function Cleared(sh: Shared): Shared {
    sh.(subscribed := {}, ws := None, authed := false)
  }

  function TornDown(sh: Shared): Shared {
    Cleared(sh).(task := None)
  }

  predicate Live(sh: Shared) { sh.ws.Some? && sh.authed }

  function Attached(sh: Shared, c: ConnId): Shared {
    sh.(ws := Some(c), authed := false)
  }

  function Authenticated(sh: Shared): Shared {
    sh.(authed := true)
  }

  function WithSubscribed(sh: Shared, symbols: set<Symbol>): Shared {
    sh.(subscribed := sh.subscribed + symbols)
  }

  // ---- helpers on the state ----

  function SetAdapter(st: State, s: Symbol, a: Adapter, lock: Option<Owner>): State {
    st.(adapters := st.adapters[s := a], lock := lock)
  }

  function SetReader(st: State, r: TaskId, reader: Reader): State {
    st.(readers := st.readers[r := reader])
  }

  function Send(st: State, c: ConnId, s: Symbol): State {
    st.(wire := st.wire[c := Wire(st, c) + {s}])
  }

  function Unsend(st: State, c: ConnId, s: Symbol): State {
    st.(wire := st.wire[c := Wire(st, c) - {s}])
  }

  // ---- adapters ----

  datatype Action =
    | AdapterStarts(s: Symbol)
    | AdapterCancelled(s: Symbol)
    | RegisterEnters(s: Symbol, id: TaskId)
    | RegisterSent(s: Symbol, ok: bool)
    | UnregisterEnters(s: Symbol)
    | UnregisterSent(s: Symbol, ok: bool)
    | UnregisterJoined(s: Symbol)
    | ReaderStarts(r: TaskId)
    | Connected(r: TaskId, conn: ConnId)
    | ConnectFails(r: TaskId)
    | Attaches(r: TaskId)
    | AuthSent(r: TaskId, ok: bool)
    | AuthSucceeds(r: TaskId)
    | EntersBatch(r: TaskId)
    | BatchSent(r: TaskId, ok: bool)
    | StreamEnds(r: TaskId)
    | WatchdogJoined(r: TaskId)
    | Closed(r: TaskId, atOnce: bool)
    | Wakes(r: TaskId)
    | CancelDelivered(r: TaskId)
    | WatchdogPicks(r: TaskId, s: Symbol)
    | WatchdogEnters(r: TaskId)
    | WatchdogUnsubscribed(r: TaskId, ok: bool)
    | WatchdogResubscribed(r: TaskId, ok: bool)
    | WatchdogCloses(r: TaskId)
    | WatchdogCancelled(r: TaskId)

  predicate TaskDone(st: State) {
    st.sh.task.None? || (st.sh.task.value in st.readers && st.readers[st.sh.task.value].phase.Done?)
  }

  /** What registering does next: start the service, subscribe on the live connection, or
      leave the symbol to the batch that follows authentication. */
  datatype Entry = Start | Subscribe(conn: ConnId) | Await

  function HowToJoin(sh: Shared, s: Symbol, taskDone: bool): Entry {
    if taskDone then Start
    else if Live(sh) && s !in sh.subscribed then Subscribe(sh.ws.value)
    else Await
  }

  function Registered(sh: Shared, s: Symbol, taskDone: bool, id: TaskId): Shared {
    var sh' := sh.(active := sh.active + {s});
    if HowToJoin(sh, s, taskDone).Start? then sh'.(task := Some(id)) else sh'
  }

  function RegisterEnter(st: State, s: Symbol, id: TaskId): State {
    var how := HowToJoin(st.sh, s, TaskDone(st));
    var st := st.(sh := Registered(st.sh, s, TaskDone(st), id), leaked := st.leaked - {s});
    match how
    case Start => SetReader(SetAdapter(st, s, In, None), id, Reader(NotStarted, false, Ended_, false))
    case Subscribe(c) => SetAdapter(st, s, SendingSubscribe(c), Some(ByAdapter(s)))
    case Await => SetAdapter(st, s, In, None)
  }

  /** The end of unregistering: the last symbol to leave cancels the reader and awaits it. */
  function Leave(st: State, s: Symbol): State {
    if st.sh.active == {} && st.sh.task.Some? then
      var r := st.sh.task.value;
      var st := SetAdapter(st, s, Joining(r), Some(ByAdapter(s)));
      if r in st.readers && !st.readers[r].phase.Done? then SetReader(st, r, st.readers[r].(cancel := true)) else st
    else SetAdapter(st, s, Out, None)
  }

  /** The connection on which an unsubscription must be sent, if any. */
  function MustUnsubscribe(sh: Shared, s: Symbol): Option<ConnId> {
    if s in sh.subscribed && Live(sh) then sh.ws else None
  }

  function Unregistered(sh: Shared, s: Symbol): Shared {
    sh.(active := sh.active - {s}, subscribed := sh.subscribed - {s})
  }

  function UnregisterEnter(st: State, s: Symbol): State {
    var conn := MustUnsubscribe(st.sh, s);
    var st := st.(sh := Unregistered(st.sh, s));
    if conn.Some? then SetAdapter(st, s, SendingUnsubscribe(conn.value), Some(ByAdapter(s)))
    else Leave(st, s)
  }

  function AdapterCancel(st: State, s: Symbol): State {
    match Pc(st, s)
    case SendingSubscribe(c) =>
      SetAdapter(st, s, Out, None).(leaked := st.leaked + {s}, dirty := st.dirty + {c})
    case In => SetAdapter(st, s, Unregistering, st.lock)
    case _ => SetAdapter(st, s, Out, st.lock)
  }

  // ---- the reader ----

  /** Leaving the read loop: a watchdog still running is cancelled and awaited first. */
  function LeaveLoop(reader: Reader, c: ConnId, exit: Exit): Reader {
    if reader.watchdog.Ended_? then reader.(phase := Closing(c, exit))
    else reader.(phase := JoiningWatchdog(c, exit), watchdogCancel := true)
  }

  function Deliver(st: State, r: TaskId): State
    requires r in st.readers
  {
    var reader := st.readers[r].(cancel := false);
    match reader.phase
    case WaitToAttach(c) => SetReader(st, r, reader.(phase := Closing(c, Cancelled)))
    case Reading(c) => SetReader(st, r, LeaveLoop(reader, c, Cancelled))
    case WaitToSubscribe(c) => SetReader(st, r, LeaveLoop(reader, c, Cancelled))
    case SendingAuth(c) => SetReader(st, r, reader.(phase := Closing(c, Cancelled))).(lock := None)
    case SendingBatch(c, _) => SetReader(st, r, LeaveLoop(reader, c, Cancelled)).(lock := None)
    case JoiningWatchdog(c, exit) => SetReader(st, r, reader).(absorbed := st.absorbed + {r})
    case NotStarted => SetReader(st, r, reader.(phase := Done))
    case _ => SetReader(st, r, reader.(phase := Done)).(sh := Cleared(st.sh))
  }

  function ReaderStep(st: State, r: TaskId, phase: Phase): State
    requires r in st.readers
  {
    SetReader(st, r, st.readers[r].(phase := phase))
  }

  // ---- the watchdog ----

  function WatchdogStep(st: State, r: TaskId, w: Watchdog, lock: Option<Owner>): State
    requires r in st.readers
  {
    SetReader(st, r, st.readers[r].(watchdog := w)).(lock := lock)
  }

  // ---- all actions ----

  predicate ReaderFree(st: State, r: TaskId) {
    r in st.readers && !st.readers[r].cancel
  }

  predicate WatchdogFree(st: State, r: TaskId) {
    r in st.readers && !st.readers[r].watchdogCancel
  }

  predicate Enabled(st: State, a: Action) {
    match a
    case AdapterStarts(s) => Pc(st, s).Out?
    case AdapterCancelled(s) =>
      Pc(st, s).Registering? || Pc(st, s).SendingSubscribe? || Pc(st, s).In?
    case RegisterEnters(s, id) => Pc(st, s).Registering? && st.lock.None? && id !in st.readers
    case RegisterSent(s, ok) => Pc(st, s).SendingSubscribe?
    case UnregisterEnters(s) => Pc(st, s).Unregistering? && st.lock.None?
    case UnregisterSent(s, ok) => Pc(st, s).SendingUnsubscribe?
    case UnregisterJoined(s) =>
      Pc(st, s).Joining? && Pc(st, s).task in st.readers && st.readers[Pc(st, s).task].phase.Done?
    case ReaderStarts(r) => ReaderFree(st, r) && st.readers[r].phase.NotStarted?
    case Connected(r, conn) => ReaderFree(st, r) && st.readers[r].phase.Connecting? && conn !in st.wire
    case ConnectFails(r) => ReaderFree(st, r) && st.readers[r].phase.Connecting?
    case Attaches(r) => ReaderFree(st, r) && st.readers[r].phase.WaitToAttach? && st.lock.None?
    case AuthSent(r, ok) => ReaderFree(st, r) && st.readers[r].phase.SendingAuth?
    case AuthSucceeds(r) => ReaderFree(st, r) && st.readers[r].phase.Reading?
    case EntersBatch(r) => ReaderFree(st, r) && st.readers[r].phase.WaitToSubscribe? && st.lock.None?
    case BatchSent(r, ok) => ReaderFree(st, r) && st.readers[r].phase.SendingBatch?
    case StreamEnds(r) => ReaderFree(st, r) && st.readers[r].phase.Reading?
    case WatchdogJoined(r) =>
      ReaderFree(st, r) && st.readers[r].phase.JoiningWatchdog? && st.readers[r].watchdog.Ended_?
    case Closed(r, atOnce) => ReaderFree(st, r) && st.readers[r].phase.Closing?
    case Wakes(r) => ReaderFree(st, r) && st.readers[r].phase.Backoff?
    case CancelDelivered(r) => r in st.readers && st.readers[r].cancel
    case WatchdogPicks(r, s) => WatchdogFree(st, r) && st.readers[r].watchdog.Polling?
    case WatchdogEnters(r) =>
      WatchdogFree(st, r) && st.readers[r].watchdog.WaitToResubscribe? && st.lock.None?
    case WatchdogUnsubscribed(r, ok) => WatchdogFree(st, r) && st.readers[r].watchdog.Unsubscribing?
    case WatchdogResubscribed(r, ok) => WatchdogFree(st, r) && st.readers[r].watchdog.Resubscribing?
    case WatchdogCloses(r) => WatchdogFree(st, r) && st.readers[r].watchdog.Polling?
    case WatchdogCancelled(r) =>
      r in st.readers && st.readers[r].watchdogCancel && !st.readers[r].watchdog.Ended_?
  }

  function Apply(st: State, a: Action): State
    requires Enabled(st, a)
  {
    match a
    case AdapterStarts(s) => SetAdapter(st, s, Registering, st.lock)
    case AdapterCancelled(s) => AdapterCancel(st, s)
    case RegisterEnters(s, id) => RegisterEnter(st, s, id)
    case RegisterSent(s, ok) =>
      var c := Pc(st, s).conn;
      var st := SetAdapter(st, s, In, None);
      if ok then Send(st, c, s).(sh := WithSubscribed(st.sh, {s}), stray := st.stray - {s})
      else st.(dirty := st.dirty + {c})
    case UnregisterEnters(s) => UnregisterEnter(st, s)
    case UnregisterSent(s, ok) =>
      if ok then Leave(Unsend(st, Pc(st, s).conn, s).(stray := st.stray - {s}), s)
      else Leave(st.(stray := st.stray + {s}), s)
    case UnregisterJoined(s) => SetAdapter(st, s, Out, None).(sh := TornDown(st.sh))
    case ReaderStarts(r) => ReaderStep(st, r, Connecting)
    case Connected(r, conn) => ReaderStep(st, r, WaitToAttach(conn)).(wire := st.wire[conn := {}])
    case ConnectFails(r) => ReaderStep(st, r, Backoff).(sh := Cleared(st.sh))
    case Attaches(r) =>
      var c := st.readers[r].phase.conn;
      ReaderStep(st, r, SendingAuth(c)).(sh := Attached(st.sh, c), lock := Some(ByReader(r)), stray := {})
    case AuthSent(r, ok) =>
      var c := st.readers[r].phase.conn;
      if ok then
        SetReader(st, r, Reader(Reading(c), false, Polling, false)).(lock := None)
      else ReaderStep(st, r, Closing(c, Ended)).(lock := None)
    case AuthSucceeds(r) => ReaderStep(st, r, WaitToSubscribe(st.readers[r].phase.conn))
    case EntersBatch(r) =>
      var c := st.readers[r].phase.conn;
      var st := st.(sh := Authenticated(st.sh));
      if st.sh.active == {} then ReaderStep(st, r, Reading(c))
      else ReaderStep(st, r, SendingBatch(c, st.sh.active)).(lock := Some(ByReader(r)))
    case BatchSent(r, ok) =>
      var c, batch := st.readers[r].phase.conn, st.readers[r].phase.batch;
      if ok then
        ReaderStep(st, r, Reading(c)).(
          lock := None,
          wire := st.wire[c := Wire(st, c) + batch],
          sh := WithSubscribed(st.sh, batch), stray := st.stray - batch)
      else SetReader(st, r, LeaveLoop(st.readers[r], c, Ended)).(lock := None)
    case StreamEnds(r) => SetReader(st, r, LeaveLoop(st.readers[r], st.readers[r].phase.conn, Ended))
    case WatchdogJoined(r) => ReaderStep(st, r, Closing(st.readers[r].phase.conn, st.readers[r].phase.exit))
    case Closed(r, atOnce) =>
      var next := if st.readers[r].phase.exit.Cancelled? then Done else if atOnce then Connecting else Backoff;
      ReaderStep(st, r, next).(sh := Cleared(st.sh))
    case Wakes(r) => ReaderStep(st, r, Connecting)
    case CancelDelivered(r) => Deliver(st, r)
    case WatchdogPicks(r, s) => WatchdogStep(st, r, WaitToResubscribe(s), st.lock)
    case WatchdogEnters(r) =>
      if Live(st.sh) then
        WatchdogStep(st, r, Unsubscribing(st.readers[r].watchdog.symbol, st.sh.ws.value), Some(ByWatchdog(r)))
      else WatchdogStep(st, r, Polling, None)
    case WatchdogUnsubscribed(r, ok) =>
      var w := st.readers[r].watchdog;
      if ok && st.sh.ws == Some(w.conn) then
        Unsend(WatchdogStep(st, r, Resubscribing(w.symbol, w.conn), st.lock), w.conn, w.symbol)
      else WatchdogStep(st, r, Polling, None).(dirty := st.dirty + {w.conn})
    case WatchdogResubscribed(r, ok) =>
      var w := st.readers[r].watchdog;
      if ok then
        Send(WatchdogStep(st, r, Polling, None), w.conn, w.symbol).(
          stray := if w.symbol in st.sh.subscribed then st.stray else st.stray + {w.symbol})
      else WatchdogStep(st, r, Polling, None).(dirty := st.dirty + {w.conn})
    case WatchdogCloses(r) => WatchdogStep(st, r, Ended_, st.lock)
    case WatchdogCancelled(r) =>
      var w := st.readers[r].watchdog;
      if w.Unsubscribing? || w.Resubscribing? then
        WatchdogStep(st, r, Ended_, None).(dirty := st.dirty + {w.conn})
      else WatchdogStep(st, r, Ended_, st.lock)
  }

  // ---- the invariant ----

  predicate AdapterHolds(a: Adapter) { a.SendingSubscribe? || a.SendingUnsubscribe? || a.Joining? }

  predicate ReaderHolds(p: Phase) { p.SendingAuth? || p.SendingBatch? }

  predicate WatchdogHolds(w: Watchdog) { w.Unsubscribing? || w.Resubscribing? }

  /** At most one reader runs, and it is the task on record. */
  ghost predicate OneReader(st: State) {
    && (st.sh.task.Some? ==> st.sh.task.value in st.readers)
    && forall r <- st.readers :: st.readers[r].phase.Done? || st.sh.task == Some(r)
  }

  /** Does `o` stand inside a section that the lock guards? */
  predicate Holds(st: State, o: Owner) {
    match o
    case ByAdapter(s) => AdapterHolds(Pc(st, s))
    case ByReader(r) => r in st.readers && ReaderHolds(st.readers[r].phase)
    case ByWatchdog(r) => r in st.readers && WatchdogHolds(st.readers[r].watchdog)
  }

  /** The lock is held by exactly the party that stands inside a locked section. */
  ghost predicate LockHeld(st: State) {
    forall o :: Holds(st, o) <==> st.lock == Some(o)
  }

  /** Active are the symbols of the adapters inside, and those leaked. */
  ghost predicate ActiveExactly(st: State) {
    forall s :: (s in st.sh.active <==>
                 Pc(st, s).SendingSubscribe? || Pc(st, s).In? || Pc(st, s).Unregistering? || s in st.leaked)
             && (s in st.leaked ==> Pc(st, s).Out? || Pc(st, s).Registering?)
  }

  predicate JoinedBy(st: State, r: TaskId) {
    st.lock.Some? && st.lock.value.ByAdapter? && Pc(st, st.lock.value.symbol) == Joining(r)
  }

  predicate Leaving(p: Phase) {
    (p.JoiningWatchdog? || p.Closing?) && p.exit.Cancelled?
  }

  /** An adapter that joins the reader has emptied the active set. */
  ghost predicate JoinsWhenEmpty(st: State) {
    st.lock.Some? && st.lock.value.ByAdapter? && Pc(st, st.lock.value.symbol).Joining?
    ==> st.sh.task == Some(Pc(st, st.lock.value.symbol).task) && st.sh.active == {}
  }

  /** A reader that was cancelled, or is on its way out, or is over and still on record. */
  predicate Stopping(st: State, r: TaskId)
    requires r in st.readers
  {
    st.readers[r].cancel || (st.sh.task == Some(r) && st.readers[r].phase.Done?) || Leaving(st.readers[r].phase)
  }

  /** Only the adapter that joins a reader under the lock stops it. */
  ghost predicate StoppedUnderLock(st: State) {
    forall r <- st.readers :: Stopping(st, r) ==> JoinedBy(st, r)
  }

  /** A cancellation is delivered once. */
  ghost predicate CancelledOnce(st: State) {
    forall r <- st.readers :: st.readers[r].cancel ==> !st.readers[r].phase.Done? && !Leaving(st.readers[r].phase)
  }

  /** No active symbol, no connection: unless somebody is tearing it down under the lock. */
  ghost predicate IdleIsEmpty(st: State) {
    && (st.sh.task.None? ==> st.sh == TornDown(st.sh) && st.sh.active == {})
    && (st.sh.active == {} ==>
          st.sh.task.None?
          || (st.lock.Some? && st.lock.value.ByAdapter?
              && (Pc(st, st.lock.value.symbol).SendingUnsubscribe? || Pc(st, st.lock.value.symbol).Joining?)))
    && st.sh.subscribed <= st.sh.active
    && (st.sh.authed ==> st.sh.ws.Some?)
  }

  predicate SocketAsPhase(sh: Shared, p: Phase) {
    match p
    case SendingAuth(c) => sh.ws == Some(c) && !sh.authed
    case Reading(c) => sh.ws == Some(c)
    case WaitToSubscribe(c) => sh.ws == Some(c)
    case SendingBatch(c, batch) => sh.ws == Some(c) && sh.authed && batch == sh.active
    case JoiningWatchdog(c, _) => true
    case Closing(c, _) => true
    case _ => sh.ws.None? && !sh.authed
  }

  /** The socket on record is the one the running reader stands on. */
  ghost predicate SocketIsReaders(st: State) {
    forall r <- st.readers :: st.sh.task == Some(r) ==> SocketAsPhase(st.sh, st.readers[r].phase)
  }

  predicate InLoop(p: Phase) {
    p.Reading? || p.WaitToSubscribe? || p.SendingBatch? || p.JoiningWatchdog?
  }

  /** A watchdog lives only while its reader is in the read loop or awaiting it. */
  ghost predicate WatchdogInLoop(st: State) {
    forall r <- st.readers ::
      (!st.readers[r].watchdog.Ended_? ==> InLoop(st.readers[r].phase))
      && (st.readers[r].watchdogCancel && !st.readers[r].watchdog.Ended_? ==> st.readers[r].phase.JoiningWatchdog?)
  }

  predicate InFlight(st: State, r: TaskId, s: Symbol, c: ConnId)
    requires r in st.readers
  {
    Pc(st, s) == SendingSubscribe(c) || st.readers[r].watchdog == Resubscribing(s, c)
  }

  /** While a reader reads an authenticated connection on which no send failed, every active
      symbol is subscribed on that very connection, or its subscription is being sent. */
  ghost predicate Covered(st: State) {
    forall r, s ::
      r in st.readers && st.sh.task == Some(r) && st.sh.authed && s in st.sh.active
      && (st.readers[r].phase.Reading? || st.readers[r].phase.WaitToSubscribe?)
      && st.readers[r].phase.conn !in st.dirty
      ==> s in Wire(st, st.readers[r].phase.conn) || InFlight(st, r, s, st.readers[r].phase.conn)
  }

  /** A reader whose cancellation was swallowed never ends, and its canceller never stops waiting. */
  ghost predicate AbsorbedNeverEnds(st: State) {
    forall r <- st.absorbed ::
      r in st.readers && JoinedBy(st, r) && !st.readers[r].cancel
      && !st.readers[r].phase.Done? && !Leaving(st.readers[r].phase)
  }

  /** Who runs, who holds the lock, who is registered, and who may be stopped. */
  ghost predicate Ownership(st: State) {
    OneReader(st) && LockHeld(st) && ActiveExactly(st)
  }

  ghost predicate Teardown(st: State) {
    JoinsWhenEmpty(st) && StoppedUnderLock(st) && CancelledOnce(st) && IdleIsEmpty(st) && AbsorbedNeverEnds(st)
  }

  ghost predicate Connection(st: State) {
    SocketIsReaders(st) && WatchdogInLoop(st) && Covered(st)
  }

  ghost predicate Inv(st: State) {
    Ownership(st) && Teardown(st) && Connection(st)
  }

  /** When the lock is free nobody stands inside a locked section. */
  lemma NobodyInside(st: State)
    requires LockHeld(st) && st.lock.None?
    ensures forall s :: !AdapterHolds(Pc(st, s))
    ensures forall r <- st.readers :: !ReaderHolds(st.readers[r].phase) && !WatchdogHolds(st.readers[r].watchdog)
  {
    forall s ensures !AdapterHolds(Pc(st, s)) {
      assert !Holds(st, ByAdapter(s));
    }
    forall r <- st.readers ensures !ReaderHolds(st.readers[r].phase) && !WatchdogHolds(st.readers[r].watchdog) {
      assert !Holds(st, ByReader(r)) && !Holds(st, ByWatchdog(r));
    }
  }

  lemma InitInv()
    ensures Inv(Init())
  {
  }
}
