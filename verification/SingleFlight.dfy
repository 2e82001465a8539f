/**
 * The read-through cache with its in-flight map, as a machine over the callbacks of one process: between two
 * events any others may run.
 */
module SingleFlight {
  import opened Common

  type CacheKey = string
  type Value = string
  type FlightId = nat
  type CallerId = nat

  /** What a loader's promise comes to; `Ok(None)` stands for `null` and `undefined`, which are not cached. */
  type Outcome = Result<Option<Value>, string>

  datatype Stage = Loading | Writing(value: Value) | Finishing(outcome: Outcome) | Settled(outcome: Outcome)

  /** One call of a loader with the chain of callbacks behind it. */
  datatype Flight = Flight(key: CacheKey, stage: Stage)

  /** A caller of `getOrSet`; `via` remembers the flight that served it, or None for a cache hit. */
  datatype Caller =
    | Reading(key: CacheKey)
    | Joined(flight: FlightId)
    | Returned(key: CacheKey, via: Option<FlightId>, outcome: Outcome)

  datatype State = State(
    inFlight: map<CacheKey, FlightId>,
    flights: map<FlightId, Flight>,
    callers: map<CallerId, Caller>)

  datatype Event =
    | Call(c: CallerId, key: CacheKey)
    | Read(c: CallerId, cached: Option<Value>, f: FlightId)
    | LoaderDone(f: FlightId, outcome: Outcome)
    | Written(f: FlightId)
    | Finally(f: FlightId)
    | Deliver(c: CallerId)

  predicate Enabled(s: State, e: Event) {
    match e
    case Call(c, _) => c !in s.callers
    case Read(c, _, f) => c in s.callers && s.callers[c].Reading? && f !in s.flights
    case LoaderDone(f, _) => f in s.flights && s.flights[f].stage.Loading?
    case Written(f) => f in s.flights && s.flights[f].stage.Writing?
    case Finally(f) => f in s.flights && s.flights[f].stage.Finishing?
    case Deliver(c) =>
      c in s.callers && s.callers[c].Joined? && s.callers[c].flight in s.flights
      && s.flights[s.callers[c].flight].stage.Settled?
  }

  /** What follows the awaited read: return the hit, join the flight already under way, or start one. */
  function ReadNext(s: State, c: CallerId, cached: Option<Value>, f: FlightId): State
    requires c in s.callers && s.callers[c].Reading?
  {
    var key := s.callers[c].key;
    if cached.Some? then s.(callers := s.callers[c := Returned(key, None, Ok(cached))])
    else if key in s.inFlight then s.(callers := s.callers[c := Joined(s.inFlight[key])])
    else State(s.inFlight[key := f], s.flights[f := Flight(key, Loading)], s.callers[c := Joined(f)])
  }

  function StageAfter(outcome: Outcome): Stage {
    if outcome.Ok? && outcome.value.Some? then Writing(outcome.value.value) else Finishing(outcome)
  }

  function Next(s: State, e: Event): State
    requires Enabled(s, e)
  {
    match e
    case Call(c, key) => s.(callers := s.callers[c := Reading(key)])
    case Read(c, cached, f) => ReadNext(s, c, cached, f)
    case LoaderDone(f, outcome) => s.(flights := s.flights[f := s.flights[f].(stage := StageAfter(outcome))])
    case Written(f) =>
      var flight := s.flights[f];
      s.(flights := s.flights[f := flight.(stage := Finishing(Ok(Some(flight.stage.value))))])
    case Finally(f) =>
      // The cleanup knows only its key, not which promise it is removing.
      State(s.inFlight - {s.flights[f].key},
          s.flights[f := s.flights[f].(stage := Settled(s.flights[f].stage.outcome))], s.callers)
    case Deliver(c) =>
      var f := s.callers[c].flight;
      s.(callers := s.callers[c := Returned(s.flights[f].key, Some(f), s.flights[f].stage.outcome)])
  }

  function Run(s: State, es: seq<Event>): Option<State>
    decreases |es|
  {
    if es == [] then Some(s) else if !Enabled(s, es[0]) then None else Run(Next(s, es[0]), es[1..])
  }

  const IDLE := State(map[], map[], map[])

  ghost predicate Unsettled(s: State, f: FlightId) {
    f in s.flights && !s.flights[f].stage.Settled?
  }

  /** The map holds a key exactly while a flight for it is unsettled, and then it holds that flight. */
  ghost predicate MapIsExact(s: State) {
    && (forall key :: key in s.inFlight ==> Unsettled(s, s.inFlight[key]) && s.flights[s.inFlight[key]].key == key)
    && (forall f :: Unsettled(s, f) ==> s.flights[f].key in s.inFlight && s.inFlight[s.flights[f].key] == f)
  }

  ghost predicate CallerOK(s: State, q: Caller) {
    match q
    case Reading(_) => true
    case Joined(f) => f in s.flights
    case Returned(key, via, outcome) =>
      via.Some? ==> via.value in s.flights && s.flights[via.value] == Flight(key, Settled(outcome))
  }

  ghost predicate Inv(s: State) {
    MapIsExact(s) && forall c :: c in s.callers ==> CallerOK(s, s.callers[c])
  }

  /** A flight only moves forward, and a settled one never changes again. */
  ghost predicate Forward(s: State, s': State) {
    forall f :: f in s.flights ==> f in s'.flights && s'.flights[f].key == s.flights[f].key
                                   && (s.flights[f].stage.Settled? ==> s'.flights[f] == s.flights[f])
  }

  lemma StepKeepsInv(s: State, e: Event)
    requires Inv(s) && Enabled(s, e)
    ensures Inv(Next(s, e)) && Forward(s, Next(s, e))
  {
    StepKeepsMap(s, e);
    StepMovesForward(s, e);
    var s' := Next(s, e);
    hide MapIsExact, StageAfter;
    forall c | c in s'.callers ensures CallerOK(s', s'.callers[c]) {
      if c in s.callers && s'.callers[c] == s.callers[c] { assert CallerOK(s, s.callers[c]); }
    }
  }

  lemma StepKeepsMap(s: State, e: Event)
    requires Inv(s) && Enabled(s, e)
    ensures MapIsExact(Next(s, e))
  {
    if e.Finally? { CleanupIsPrecise(s, e.f); }
  }

  lemma StepMovesForward(s: State, e: Event)
    requires Enabled(s, e)
    ensures Forward(s, Next(s, e))
  {
  }

  /** Though the cleanup removes by key alone, the entry it removes is always its own flight's, and the only one. */
  lemma CleanupIsPrecise(s: State, f: FlightId)
    requires MapIsExact(s) && Enabled(s, Finally(f))
    ensures s.flights[f].key in s.inFlight && s.inFlight[s.flights[f].key] == f
    ensures forall key :: key in s.inFlight && s.inFlight[key] == f <==> key == s.flights[f].key
  {
    assert Unsettled(s, f);
  }

  lemma {:induction false} RunKeepsInv(s: State, es: seq<Event>, t: State)
    requires Inv(s) && Run(s, es) == Some(t)
    ensures Inv(t) && Forward(s, t)
    decreases |es|
  {
    if es != [] {
      StepKeepsInv(s, es[0]);
      hide Inv, Enabled, Next;
      RunKeepsInv(Next(s, es[0]), es[1..], t);
    }
  }

  /** Single flight: in every reachable state at most one loader per key is unsettled in the process. */
  lemma OneLoaderPerKey(es: seq<Event>, t: State, f: FlightId, g: FlightId)
    requires Run(IDLE, es) == Some(t) && Unsettled(t, f) && Unsettled(t, g) && t.flights[f].key == t.flights[g].key
    ensures f == g && t.flights[f].key in t.inFlight && t.inFlight[t.flights[f].key] == f
  {
    RunKeepsInv(IDLE, es, t);
  }

  /**
   * Callers that miss while a flight for their key is unsettled all get that flight's outcome, success or
   * failure, once they return — never another loader's.
   */
  lemma JoinersShareTheOutcome(before: seq<Event>, s: State, c: CallerId, spare: FlightId, after: seq<Event>,
                               t: State, f: FlightId)
    requires Run(IDLE, before) == Some(s) && Enabled(s, Read(c, None, spare))
    requires Unsettled(s, f) && s.flights[f].key == s.callers[c].key
    requires Run(Next(s, Read(c, None, spare)), after) == Some(t)
    ensures c in t.callers
    ensures t.callers[c] == Joined(f) || (t.callers[c].Returned? && t.callers[c].via == Some(f) && f in t.flights
                                           && t.flights[f] == Flight(t.callers[c].key, Settled(t.callers[c].outcome)))
  {
    RunKeepsInv(IDLE, before, s);
    var s' := Next(s, Read(c, None, spare));
    StepKeepsInv(s, Read(c, None, spare));
    assert s'.callers[c] == Joined(f);
    RunKeepsInv(s', after, t);
    ServedStays(s', after, t, c);
    assert CallerOK(t, t.callers[c]);
  }

  /** A caller stays with the flight it joined, and what it returned it has returned. */
  lemma {:induction false} ServedStays(s: State, es: seq<Event>, t: State, c: CallerId)
    requires Run(s, es) == Some(t) && c in s.callers && !s.callers[c].Reading?
    ensures c in t.callers
    ensures s.callers[c].Returned? ==> t.callers[c] == s.callers[c]
    ensures s.callers[c].Joined? ==>
              t.callers[c] == s.callers[c] || (t.callers[c].Returned? && t.callers[c].via == Some(s.callers[c].flight))
    decreases |es|
  {
    if es != [] {
      var s' := Next(s, es[0]);
      hide StageAfter;
      assert c in s'.callers && !s'.callers[c].Reading?;
      assert s.callers[c].Returned? ==> s'.callers[c] == s.callers[c];
      ServedStays(s', es[1..], t, c);
    }
  }

  /** What the loader came to is on its way to the callers: being written first, about to settle, or settled. */
  ghost predicate Bears(stage: Stage, outcome: Outcome) {
    || (stage.Writing? && outcome == Ok(Some(stage.value)))
    || (stage.Finishing? && outcome == stage.outcome)
    || (stage.Settled? && outcome == stage.outcome)
  }

  lemma {:induction false} OutcomeStays(s: State, es: seq<Event>, t: State, f: FlightId, outcome: Outcome)
    requires Run(s, es) == Some(t) && f in s.flights && Bears(s.flights[f].stage, outcome)
    ensures f in t.flights && Bears(t.flights[f].stage, outcome)
    decreases |es|
  {
    if es != [] {
      assert f in Next(s, es[0]).flights && Bears(Next(s, es[0]).flights[f].stage, outcome);
      OutcomeStays(Next(s, es[0]), es[1..], t, f, outcome);
    }
  }

  /** Nothing is lost on the way: every caller a flight served returned exactly what its loader came to. */
  lemma OutcomeIsTheLoaders(s: State, f: FlightId, outcome: Outcome, es: seq<Event>, t: State, c: CallerId)
    requires Inv(s) && Enabled(s, LoaderDone(f, outcome)) && Run(Next(s, LoaderDone(f, outcome)), es) == Some(t)
    requires c in t.callers && t.callers[c].Returned? && t.callers[c].via == Some(f)
    ensures t.callers[c].outcome == outcome
  {
    var s' := Next(s, LoaderDone(f, outcome));
    StepKeepsInv(s, LoaderDone(f, outcome));
    assert Bears(s'.flights[f].stage, outcome);
    hide Enabled, Next, StageAfter, MapIsExact;
    RunKeepsInv(s', es, t);
    OutcomeStays(s', es, t, f, outcome);
    assert CallerOK(t, t.callers[c]);
  }

  /** A cached value is returned as it is, for good, and touches neither the map nor any loader. */
  lemma HitIsServed(s: State, c: CallerId, value: Value, spare: FlightId, es: seq<Event>, t: State)
    requires Enabled(s, Read(c, Some(value), spare)) && Run(Next(s, Read(c, Some(value), spare)), es) == Some(t)
    ensures var s' := Next(s, Read(c, Some(value), spare)); s'.flights == s.flights && s'.inFlight == s.inFlight
    ensures c in t.callers && t.callers[c] == Returned(s.callers[c].key, None, Ok(Some(value)))
  {
    ServedStays(Next(s, Read(c, Some(value), spare)), es, t, c);
  }

  // ----- The cache object -----

  class CacheService {
    var inFlight: map<CacheKey, FlightId>
    var flights: map<FlightId, Flight>
    var callers: map<CallerId, Caller>

    constructor ()
      ensures ToState() == IDLE
    {
      inFlight, flights, callers := map[], map[], map[];
    }

    function ToState(): State
      reads this
    {
      State(inFlight, flights, callers)
    }

    /** The synchronous stretch of `getOrSet` after its awaited read. */
    method ContinueAfterRead(c: CallerId, cached: Option<Value>, promise: FlightId)
      requires Enabled(ToState(), Read(c, cached, promise))
      modifies this
      ensures ToState() == Next(old(ToState()), Read(c, cached, promise))
      ensures var key := old(callers)[c].key;
              if cached.Some? then
                && callers == old(callers)[c := Returned(key, None, Ok(cached))]
                && flights == old(flights) && inFlight == old(inFlight)
              else if key in old(inFlight) then
                && callers == old(callers)[c := Joined(old(inFlight)[key])]
                && flights == old(flights) && inFlight == old(inFlight)
              else
                && callers == old(callers)[c := Joined(promise)]
                && flights == old(flights)[promise := Flight(key, Loading)] && inFlight == old(inFlight)[key := promise]
    {
      var key := callers[c].key;
      if cached.Some? {
        callers := callers[c := Returned(key, None, Ok(cached))];
        return;
      }
      if key in inFlight {
        callers := callers[c := Joined(inFlight[key])];
        return;
      }
      flights := flights[promise := Flight(key, Loading)];
      inFlight := inFlight[key := promise];
      callers := callers[c := Joined(promise)];
    }

    /** The `then` callback: a value worth caching is written first. */
    method OnLoaderDone(f: FlightId, outcome: Outcome)
      requires Enabled(ToState(), LoaderDone(f, outcome))
      modifies this`flights
      ensures ToState() == Next(old(ToState()), LoaderDone(f, outcome))
      ensures flights[f].stage == match outcome case Ok(Some(v)) => Writing(v) case _ => Finishing(outcome)
    {
      if outcome.Ok? && outcome.value.Some? {
        flights := flights[f := flights[f].(stage := Writing(outcome.value.value))];
      } else {
        flights := flights[f := flights[f].(stage := Finishing(outcome))];
      }
    }

    /** The `finally` callback, on success and failure alike. */
    method OnFinally(f: FlightId)
      requires Inv(ToState()) && Enabled(ToState(), Finally(f))
      modifies this`inFlight, this`flights
      ensures ToState() == Next(old(ToState()), Finally(f)) && Inv(ToState())
      ensures inFlight == map key | key in old(inFlight) && old(inFlight)[key] != f :: old(inFlight)[key]
      ensures flights[f] == Flight(old(flights)[f].key, Settled(old(flights)[f].stage.outcome))
    {
      CleanupIsPrecise(ToState(), f);
      StepKeepsInv(ToState(), Finally(f));
      inFlight := inFlight - {flights[f].key};
      flights := flights[f := flights[f].(stage := Settled(flights[f].stage.outcome))];
    }
  }
}
