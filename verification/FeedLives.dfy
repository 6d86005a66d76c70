/** Which subscribers have a running feed task: the reference counting together with the loops
    that the tasks run. */
module FeedLives {
  import opened Common
  import R = FeedRefcount
  import L = FeedLoop

  /** The loop of one task: as it began, what came in, and as it stands. */
  datatype Life = Life(start: L.Loop, inputs: seq<L.Input>, now: L.Loop)

  ghost predicate IsHit(life: Life) {
    life.inputs != [] && (life.inputs[0] == L.CancelHits || L.IsHit(life.start, life.inputs))
  }

  /** The task of a life created for `s`: its loop began for that symbol, and only a task that was
      stopped is reached by a cancellation. */
  ghost predicate LifeFits(registered: set<R.Symbol>, b: R.Book, t: R.TaskId, life: Life)
    requires t in b.created
  {
    && L.Starts(life.start) && life.start.registered == (b.created[t] in registered)
    && L.Reaches(life.start, life.inputs, life.now)
    && (t in b.ended <==> life.now.place.Ended?)
    && (IsHit(life) ==> t in b.cancelled)
  }

  /** After the run `acts` every task that was created has one of these lives. */
  ghost predicate Fits(registered: set<R.Symbol>, acts: seq<R.Action>, st: R.State, lives: map<R.TaskId, Life>) {
    && R.Reaches(R.Init(), acts, st)
    && forall t <- st.book.created :: t in lives && LifeFits(registered, st.book, t, lives[t])
  }

  /** A task dies without having been stopped only if its symbol is not registered. */
  lemma DiedIsUnregistered(registered: set<R.Symbol>, b: R.Book, t: R.TaskId, life: Life)
    requires t in b.created && LifeFits(registered, b, t, life) && R.Died(b, t)
    ensures b.created[t] !in registered
  {
    L.DiesIffUnregistered(life.start, life.inputs, life.now);
  }

  /** Every symbol with a subscriber has a running task that was created for it and that no path
      has stopped, if the symbol is registered. */
  lemma SubscribersHaveLiveTask(
      registered: set<R.Symbol>, acts: seq<R.Action>, st: R.State, lives: map<R.TaskId, Life>, s: R.Symbol)
    requires Fits(registered, acts, st, lives) && R.Present(st.visits, s) != {} && s in registered
    ensures s in st.book.tasks && st.book.tasks[s] in st.book.created && st.book.created[st.book.tasks[s]] == s
    ensures R.Live(st.book, st.book.tasks[s])
  {
    R.SubscribersAreServed(acts, st, s);
    var t := st.book.tasks[s];
    if R.Died(st.book, t) {
      DiedIsUnregistered(registered, st.book, t, lives[t]);
    }
  }

  /** After every run the symbol has a running task whenever it has a subscriber. */
  ghost predicate AlwaysLive(registered: set<R.Symbol>, s: R.Symbol) {
    forall acts, st, lives ::
      Fits(registered, acts, st, lives) && R.Present(st.visits, s) != {} ==> R.HasLiveTask(st.book, s)
  }

  /** That is so for exactly the registered symbols. */
  lemma AlwaysLiveIffRegistered(registered: set<R.Symbol>, s: R.Symbol)
    ensures AlwaysLive(registered, s) <==> s in registered
  {
    if s in registered {
      forall acts, st, lives | Fits(registered, acts, st, lives) && R.Present(st.visits, s) != {}
        ensures R.HasLiveTask(st.book, s)
      {
        SubscribersHaveLiveTask(registered, acts, st, lives, s);
      }
    } else {
      var acts, st := R.DeadTaskHappens(s);
      var start := L.Loop(L.Seeding, false, false, false);
      var inputs := [L.Fetched(None)];
      var now := L.Step(start, inputs[0]);
      assert L.Reaches(now, inputs[1..], now);
      assert L.Reaches(start, inputs, now);
      assert !L.Hits(start, inputs[0]) && inputs[1..] == [];
      assert !L.IsHit(now, inputs[1..]);
      var lives := map[0 := Life(start, inputs, now)];
      assert Fits(registered, acts, st, lives);
    }
  }
}
