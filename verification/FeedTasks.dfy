/** The feed manager's bookkeeping of consumers, positions and tasks, changed in place. Every
    method is the code between two awaits and is tied to the function of the protocol. */
module FeedTasks {
  import opened FeedRefcount

  class FeedManager {
    var counts: map<Symbol, int>
    var tasks: map<Symbol, TaskId>
    var positionSymbols: set<Symbol>
    ghost var created: map<TaskId, Symbol>
    ghost var cancelled: set<TaskId>
    var ended: set<TaskId> // what `done()` answers for the tasks

    ghost function View(): Book
      reads this
    {
      Book(counts, tasks, positionSymbols, created, ended, cancelled)
    }

    constructor ()
      ensures View() == Init().book
    {
      counts, tasks, positionSymbols := map[], map[], {};
      created, cancelled, ended := map[], {}, {};
    }

    method EnsureRunning(symbol: Symbol, newTask: TaskId)
      modifies this
      ensures View() == FeedRefcount.EnsureRunning(old(View()), symbol, newTask)
    {
      if symbol !in tasks || tasks[symbol] in ended {
        tasks := tasks[symbol := newTask];
        created := created[newTask := symbol];
      }
    }

    method Stop(symbol: Symbol)
      modifies this
      ensures View() == FeedRefcount.Stop(old(View()), symbol)
    {
      if symbol in tasks && tasks[symbol] !in ended {
        cancelled := cancelled + {tasks[symbol]};
      }
      tasks := tasks - {symbol};
      counts := counts - {symbol};
    }

    method Subscribe(symbol: Symbol, newTask: TaskId)
      modifies this
      ensures View() == FeedRefcount.Subscribe(old(View()), symbol, newTask)
    {
      counts := counts[symbol := (if symbol in counts then counts[symbol] else 0) + 1];
      EnsureRunning(symbol, newTask);
    }

    /** `unsubscribe` up to the database query, if it comes to that. */
    method Unsubscribe(symbol: Symbol) returns (askDatabase: bool)
      modifies this
      ensures View() == Release(old(View()), symbol)
      ensures askDatabase == Unused(View(), symbol)
    {
      var count := (if symbol in counts then counts[symbol] else 1) - 1;
      if count < 0 {
        count := 0;
      }
      counts := counts[symbol := count];
      askDatabase := count <= 0 && symbol !in positionSymbols;
    }

    /** `unsubscribe` after the database query. */
    method Recheck(symbol: Symbol)
      modifies this
      ensures View() == FeedRefcount.Recheck(old(View()), symbol)
    {
      if (if symbol in counts then counts[symbol] else 0) <= 0 && symbol !in positionSymbols {
        Stop(symbol);
      }
    }

    /** One reconciliation pass after its database query; `add` and `remove` are the two sorted
        differences it iterates over. */
    method Reconcile(add: seq<Symbol>, remove: seq<Symbol>, newTask: TaskId, layer: bool)
      modifies this
      ensures View() == AbandonAll(AdoptAll(old(View()), add, newTask, layer), remove)
    {
      for i := 0 to |add|
        invariant View() == AdoptAll(old(View()), add[..i], newTask, layer)
      {
        positionSymbols := positionSymbols + {add[i]};
        if layer {
          EnsureRunning(add[i], newTask + i);
        }
        assert add[..i + 1][..i] == add[..i];
      }
      assert add[..|add|] == add;
      ghost var mid := View();
      for i := 0 to |remove|
        invariant View() == AbandonAll(mid, remove[..i])
      {
        positionSymbols := positionSymbols - {remove[i]};
        if (if remove[i] in counts then counts[remove[i]] else 0) <= 0 {
          Stop(remove[i]);
        }
        assert remove[..i + 1][..i] == remove[..i];
      }
      assert remove[..|remove|] == remove;
    }
  }
}
