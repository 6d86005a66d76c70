/** The fields of the feed manager that describe the shared connection, and the pieces of code
    between two awaits that change them. Each piece is the field part of a protocol action, and
    a run of the protocol drives the fields through them. */
module ConnectionManager {
  import opened Common
  import opened SharedConnection
  import opened SharedConnectionRuns

  class Manager {
    var activeSymbols: set<Symbol>
    var subscribed: set<Symbol>
    var ws: Option<ConnId>
    var authed: bool
    var sharedTask: Option<TaskId>

    function View(): Shared
      reads this
    {
      Shared(activeSymbols, subscribed, ws, authed, sharedTask)
    }

    constructor ()
      ensures View() == Init().sh
    {
      activeSymbols, subscribed, ws, authed, sharedTask := {}, {}, None, false, None;
    }

    /** Registering, up to the send if there is one. */
    method Register(symbol: Symbol, taskDone: bool, newTask: TaskId) returns (how: Entry)
      requires sharedTask.None? ==> taskDone
      modifies this
      ensures how == HowToJoin(old(View()), symbol, taskDone)
      ensures View() == Registered(old(View()), symbol, taskDone, newTask)
    {
      activeSymbols := activeSymbols + {symbol};
      how := Await;
      if taskDone {
        sharedTask := Some(newTask);
        how := Start;
      } else if ws.Some? && authed && symbol !in subscribed {
        how := Subscribe(ws.value);
      }
    }

    /** After a subscription was sent, one symbol's or the batch's. */
    method Subscribed(symbols: set<Symbol>)
      modifies this`subscribed
      ensures View() == WithSubscribed(old(View()), symbols)
    {
      subscribed := subscribed + symbols;
    }

    /** Unregistering, up to the send if there is one. */
    method Unregister(symbol: Symbol) returns (conn: Option<ConnId>)
      modifies this
      ensures conn == MustUnsubscribe(old(View()), symbol)
      ensures View() == Unregistered(old(View()), symbol)
    {
      activeSymbols := activeSymbols - {symbol};
      var wasSubscribed := symbol in subscribed;
      subscribed := subscribed - {symbol};
      conn := None;
      if wasSubscribed && ws.Some? && authed {
        conn := ws;
      }
    }

    /** After the joined reader has ended. */
    method TearDown()
      modifies this
      ensures View() == TornDown(old(View()))
    {
      sharedTask, ws, authed, subscribed := None, None, false, {};
    }

    method Attach(conn: ConnId)
      modifies this
      ensures View() == Attached(old(View()), conn)
    {
      ws, authed := Some(conn), false;
    }

    /** After `auth_success`: the batch to subscribe is read at this moment. */
    method Authenticate() returns (batch: set<Symbol>)
      modifies this`authed
      ensures View() == Authenticated(old(View())) && batch == View().active
    {
      authed := true;
      batch := activeSymbols;
    }

    /** At the end of every connection attempt. */
    method Clear()
      modifies this
      ensures View() == Cleared(old(View()))
    {
      subscribed, ws, authed := {}, None, false;
    }

    /** The field part of an adapter's action, and the connection on which it goes on to send. */
    method AdapterPart(st: State, a: Action) returns (sends: Option<ConnId>)
      requires Enabled(st, a) && View() == st.sh && ByAnAdapter(a)
      modifies this
      ensures View() == Apply(st, a).sh
      ensures a.RegisterEnters? ==> Pc(Apply(st, a), a.s) == (if sends.Some? then SendingSubscribe(sends.value) else In)
      ensures a.UnregisterEnters? ==> sends == (var pc := Pc(Apply(st, a), a.s); if pc.SendingUnsubscribe? then Some(pc.conn) else None)
    {
      sends := None;
      match a
      case RegisterEnters(s, id) =>
        var how := Register(s, TaskDone(st), id);
        if how.Subscribe? {
          sends := Some(how.conn);
        }
      case RegisterSent(s, ok) =>
        if ok {
          Subscribed({s});
        }
      case UnregisterEnters(s) =>
        sends := Unregister(s);
      case UnregisterJoined(s) =>
        TearDown();
      case _ =>
    }

    /** The field part of an action of the reader or the watchdog. */
    method ReaderPart(st: State, a: Action)
      requires Enabled(st, a) && View() == st.sh && !ByAnAdapter(a)
      modifies this
      ensures View() == Apply(st, a).sh
    {
      match a
      case Attaches(r) =>
        Attach(st.readers[r].phase.conn);
      case EntersBatch(r) =>
        var batch := Authenticate();
      case BatchSent(r, ok) =>
        if ok {
          Subscribed(st.readers[r].phase.batch);
        }
      case ConnectFails(r) =>
        Clear();
      case Closed(r, atOnce) =>
        Clear();
      case CancelDelivered(r) =>
        if CancelEndsAttempt(st.readers[r].phase) {
          Clear();
        }
      case _ =>
    }

    /** Along any run of the protocol the fields are those of the state reached: whenever the lock
        is free and no symbol is active, every one of them is back at its start. */
    method Drive(acts: seq<Action>, ghost end: State)
      requires View() == Init().sh && Reaches(Init(), acts, end)
      modifies this
      ensures View() == end.sh
      ensures end.lock.None? && activeSymbols == {} ==>
                subscribed == {} && ws.None? && !authed && sharedTask.None?
    {
      var st := Init();
      ghost var rest := acts;
      for i := 0 to |acts|
        invariant rest == acts[i..] && Reaches(st, rest, end) && View() == st.sh
      {
        var a := acts[i];
        assert rest[0] == a && rest[1..] == acts[i + 1..];
        if ByAnAdapter(a) {
          var sends := AdapterPart(st, a);
        } else {
          ReaderPart(st, a);
        }
        st := Apply(st, a);
        rest := rest[1..];
      }
      assert st == end;
      if end.lock.None? && activeSymbols == {} {
        IdleMeansTornDown(end);
      }
    }
  }

  predicate ByAnAdapter(a: Action) {
    a.AdapterStarts? || a.AdapterCancelled? || a.RegisterEnters? || a.RegisterSent? || a.UnregisterEnters?
    || a.UnregisterSent? || a.UnregisterJoined?
  }

  /** A cancellation that finds no connection open, but a reader that has begun, ends the attempt. */
  predicate CancelEndsAttempt(p: Phase) {
    p.Connecting? || p.Closing? || p.Backoff? || p.Done?
  }
}
