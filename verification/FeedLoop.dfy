/** The endless loop of one feed task: seed the price by REST, then try the live providers, then
    simulate for a while, and over again. Each step is the code up to the outcome of what it
    awaits. What is asked is when the loop ends. */
module FeedLoop {
  import opened Common

  /** How an awaited call comes out: it returns, raises an exception, or the task is cancelled in it. */
  datatype Outcome = Returned(ran: bool) | Raised | Cancelled

  datatype Place =
    | Seeding        // the first REST price
    | TryingLive
    | Resyncing      // the REST price before simulating
    | Simulating
    | ResyncingSim   // the REST price while simulating
    | Ended(cancelled: bool)

  /** `registered`: the symbol is in the instrument registry. `massive`: it is one of those for
      which only the Massive crypto provider is asked. `seeded`: a price is stored for it. */
  datatype Loop = Loop(place: Place, registered: bool, massive: bool, seeded: bool)

  datatype Input =
    | Fetched(price: Option<real>)                                 // by REST; a failed request brings none
    | Tried(router: Option<Outcome>, attempts: seq<Outcome>)       // the router if it is asked, then provider after provider
    | Ticked(sent: Outcome)                                        // one simulated tick and its pause
    | ResyncDue
    | DurationOver
    | CancelHits                                                   // the cancellation arrives in any other await

  predicate AwaitsRest(p: Place) { p.Seeding? || p.Resyncing? || p.ResyncingSim? }

  predicate Enabled(l: Loop, i: Input) {
    match i
    case Fetched(_) => AwaitsRest(l.place)
    case Tried(_, _) => l.place.TryingLive?
    case Ticked(_) => l.place.Simulating?
    case ResyncDue => l.place.Simulating?
    case DurationOver => l.place.Simulating?
    case CancelHits => !l.place.Ended?
  }

  /** Does the REST resync look up a symbol it does not find? The request asks for the exchange's
      name of the symbol, a good price is rounded, a missing one is replaced unless one is stored. */
  predicate ResyncRaises(l: Loop, price: Option<real>) {
    !l.registered && (!l.massive || (price.Some? && price.value > 0.0) || !l.seeded)
  }

  /** The legacy chain: what one provider raises hands on to the next. */
  function TryInTurn(attempts: seq<Outcome>): Outcome {
    if attempts == [] then Returned(false)
    else match attempts[0]
      case Returned(_) => Returned(true)
      case Cancelled => Cancelled
      case Raised => TryInTurn(attempts[1..])
  }

  /** Looking up the providers' names of the symbol is not inside any `try`. */
  function TryLegacy(l: Loop, attempts: seq<Outcome>): Outcome {
    if l.massive then TryInTurn(attempts[..if attempts == [] then 0 else 1])
    else if !l.registered then Raised
    else TryInTurn(attempts)
  }

  /** The router decides unless it raises. */
  function TryLive(l: Loop, router: Option<Outcome>, attempts: seq<Outcome>): Outcome {
    if router.Some? && !router.value.Raised? then router.value else TryLegacy(l, attempts)
  }

  /** The simulation looks the symbol up once more before its first tick. */
  function Simulate(l: Loop): Loop {
    l.(place := if l.registered then Simulating else Ended(false))
  }

  function AfterResync(l: Loop): Loop {
    match l.place
    case Seeding => l.(place := TryingLive)
    case Resyncing => Simulate(l)
    case _ => l.(place := Simulating)
  }

  function Step(l: Loop, i: Input): Loop
    requires Enabled(l, i)
  {
    match i
    case Fetched(price) =>
      if ResyncRaises(l, price) then l.(place := Ended(false)) else AfterResync(l.(seeded := true))
    case Tried(router, attempts) =>
      (match TryLive(l, router, attempts)
       case Returned(ran) => if ran then l else l.(place := Resyncing)
       case Raised => l.(place := Ended(false))
       case Cancelled => l.(place := Ended(true)))
    case Ticked(sent) => if sent.Cancelled? then l.(place := Ended(true)) else l
    case ResyncDue => l.(place := ResyncingSim)
    case DurationOver => l.(place := TryingLive)
    case CancelHits => l.(place := Ended(true))
  }

  /** A task starts at the REST price. Prices are only stored for registered symbols. */
  predicate Starts(l: Loop) {
    l.place.Seeding? && (l.seeded ==> l.registered)
  }

  ghost predicate Reaches(l: Loop, inputs: seq<Input>, end: Loop)
    decreases |inputs|
  {
    if inputs == [] then l == end
    else Enabled(l, inputs[0]) && Reaches(Step(l, inputs[0]), inputs[1..], end)
  }

  // ---- when it ends ----

  /** Somewhere in the chain the cancellation arrives before a provider has run to its end. */
  predicate CancelledInTurn(attempts: seq<Outcome>) {
    exists k :: 0 <= k < |attempts| && attempts[k].Cancelled? && forall j :: 0 <= j < k ==> attempts[j].Raised?
  }

  /** The cancellation reaches the task with this input. */
  predicate Hits(l: Loop, i: Input) {
    match i
    case CancelHits => true
    case Ticked(sent) => sent.Cancelled?
    case Tried(router, attempts) =>
      if router.Some? && !router.value.Raised? then router.value.Cancelled?
      else if l.massive then attempts != [] && attempts[0].Cancelled?
      else l.registered && CancelledInTurn(attempts)
    case _ => false
  }

  lemma {:induction false} TurnCancelled(attempts: seq<Outcome>)
    ensures TryInTurn(attempts).Cancelled? <==> CancelledInTurn(attempts)
    ensures !TryInTurn(attempts).Raised?
    decreases |attempts|
  {
    if attempts != [] && attempts[0].Raised? {
      TurnCancelled(attempts[1..]);
      if CancelledInTurn(attempts[1..]) {
        var k :| 0 <= k < |attempts[1..]| && attempts[1..][k].Cancelled? && forall j :: 0 <= j < k ==> attempts[1..][j].Raised?;
        forall j | 0 <= j < k + 1 ensures attempts[j].Raised? {
          assert j > 0 ==> attempts[j] == attempts[1..][j - 1];
        }
        assert attempts[k + 1].Cancelled?;
      }
      if CancelledInTurn(attempts) {
        var k :| 0 <= k < |attempts| && attempts[k].Cancelled? && forall j :: 0 <= j < k ==> attempts[j].Raised?;
        assert attempts[1..][k - 1].Cancelled?;
        assert forall j :: 0 <= j < k - 1 ==> attempts[1..][j] == attempts[j + 1];
      }
    } else if CancelledInTurn(attempts) {
      assert attempts[0].Cancelled?;
    }
  }

  lemma LegacyCancelled(l: Loop, attempts: seq<Outcome>)
    requires l.registered
    ensures TryLegacy(l, attempts).Cancelled?
            <==> if l.massive then attempts != [] && attempts[0].Cancelled? else CancelledInTurn(attempts)
    ensures !TryLegacy(l, attempts).Raised?
  {
    if l.massive {
      TurnCancelled(attempts[..if attempts == [] then 0 else 1]);
      if attempts != [] {
        assert TryInTurn(attempts[..1][1..]) == Returned(false);
      }
    } else {
      TurnCancelled(attempts);
    }
  }

  /** No step but a cancellation ends the loop of a registered symbol, and every cancellation does. */
  lemma StepEndsIffHit(l: Loop, i: Input)
    requires l.registered && Enabled(l, i)
    ensures Step(l, i).place.Ended? <==> Hits(l, i)
    ensures Step(l, i).place != Ended(false) && Step(l, i).registered
  {
    if i.Tried? {
      LegacyCancelled(l, i.attempts);
    }
  }

  lemma NothingAfterTheEnd(l: Loop, inputs: seq<Input>, end: Loop)
    requires l.place.Ended? && Reaches(l, inputs, end)
    ensures inputs == [] && end == l
  {
  }

  ghost predicate IsHit(l: Loop, inputs: seq<Input>)
    decreases |inputs|
  {
    inputs != [] && Enabled(l, inputs[0]) && (Hits(l, inputs[0]) || IsHit(Step(l, inputs[0]), inputs[1..]))
  }

  lemma {:induction false} RegisteredEndsIffHit(l: Loop, inputs: seq<Input>, end: Loop)
    requires l.registered && !l.place.Ended? && Reaches(l, inputs, end)
    ensures end.place.Ended? <==> IsHit(l, inputs)
    ensures end.place != Ended(false)
    decreases |inputs|
  {
    if inputs != [] {
      var next := Step(l, inputs[0]);
      StepEndsIffHit(l, inputs[0]);
      if next.place.Ended? {
        NothingAfterTheEnd(next, inputs[1..], end);
      } else {
        RegisteredEndsIffHit(next, inputs[1..], end);
      }
    }
  }

  /** The loop of a symbol that is not registered ends with its first step. */
  lemma UnregisteredEndsAtOnce(l: Loop, i: Input)
    requires Starts(l) && !l.registered && Enabled(l, i)
    ensures Step(l, i).place == Ended(i.CancelHits?)
  {
  }

  /** So the task of a symbol, once it has begun, dies without having been cancelled exactly if the
      symbol is not registered; otherwise it ends exactly if the cancellation reaches it. */
  lemma DiesIffUnregistered(l: Loop, inputs: seq<Input>, end: Loop)
    requires Starts(l) && Reaches(l, inputs, end) && inputs != [] && inputs[0] != CancelHits
    ensures end.place == Ended(false) <==> !l.registered
    ensures l.registered ==> (end.place.Ended? <==> IsHit(l, inputs))
  {
    if l.registered {
      RegisteredEndsIffHit(l, inputs, end);
    } else {
      UnregisteredEndsAtOnce(l, inputs[0]);
      NothingAfterTheEnd(Step(l, inputs[0]), inputs[1..], end);
    }
  }
}
