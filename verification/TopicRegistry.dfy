/** The single-flight cache of forum topics: packages/messaging-gateway/src/topic-registry.ts.
    A call runs without interruption between two awaits; each such stretch is one step. */
module TopicRegistry {
  import opened JsText
  import opened Wrappers

  /** Entries are shared objects: the cache, the flights and the callers hold references to them. */
  type Ref = nat
  /** A flight is the promise a call put into `inflight`; it goes by the id of that call. */
  type CallId = nat

  datatype Topic = Topic(name: Text, chatId: Text, threadId: int, createdAt: int, lastUsedAt: int)
  datatype Outcome = Got(entry: Ref) | Threw(error: Text)
  datatype Flight = Flight(name: Text, chatId: Text, outcome: Option<Outcome>)
  datatype Call = Waiting(flight: CallId) | Done(outcome: Outcome)

  datatype State = State(
    heap: seq<Topic>, byName: map<Text, Ref>, inflight: map<Text, CallId>,
    flights: map<CallId, Flight>, calls: map<CallId, Call>)

  datatype Step =
    | Find(call: CallId, name: Text, chatId: Text, now: int)
    | Created(flight: CallId, threadId: int, now: int)
    | Failed(flight: CallId, error: Text)
    | Finish(call: CallId)
    | Remove(name: Text)

  /** What a loaded registry looks like. */
  predicate Fresh(s: State) {
    && s.inflight == map[] && s.flights == map[] && s.calls == map[]
    && forall n | n in s.byName :: s.byName[n] < |s.heap| && s.heap[s.byName[n]].name == n
  }

  predicate Creating(s: State, f: CallId) { f in s.flights && s.flights[f].outcome.None? }

  predicate Enabled(s: State, e: Step) {
    match e
    case Find(c, _, _, _) => c !in s.calls && c !in s.flights
    case Created(f, _, _) => Creating(s, f)
    case Failed(f, _) => Creating(s, f)
    case Finish(c) => c in s.calls && s.calls[c].Waiting? && s.calls[c].flight in s.flights && !Creating(s, s.calls[c].flight)
    case Remove(_) => true
  }

  function Touch(heap: seq<Topic>, ref: Ref, now: int): seq<Topic> {
    if ref < |heap| then heap[ref := heap[ref].(lastUsedAt := now)] else heap
  }

  function Next(s: State, e: Step): State
    requires Enabled(s, e)
  {
    match e
    case Find(c, name, chatId, now) =>
      if name in s.byName then
        s.(heap := Touch(s.heap, s.byName[name], now), calls := s.calls[c := Done(Got(s.byName[name]))])
      else if name in s.inflight then
        s.(calls := s.calls[c := Waiting(s.inflight[name])])
      else
        s.(flights := s.flights[c := Flight(name, chatId, None)], inflight := s.inflight[name := c],
           calls := s.calls[c := Waiting(c)])
    case Created(f, threadId, now) =>
      var flight := s.flights[f];
      var entry := Topic(flight.name, flight.chatId, threadId, now, now);
      s.(heap := s.heap + [entry], byName := s.byName[flight.name := |s.heap|],
         flights := s.flights[f := flight.(outcome := Some(Got(|s.heap|)))])
    case Failed(f, error) =>
      s.(flights := s.flights[f := s.flights[f].(outcome := Some(Threw(error)))])
    case Finish(c) =>
      var flight := s.flights[s.calls[c].flight];
      s.(calls := s.calls[c := Done(flight.outcome.value)],
         inflight := if s.calls[c].flight == c then s.inflight - {flight.name} else s.inflight)
    case Remove(name) => s.(byName := s.byName - {name})
  }

  class Registry {
    var heap: seq<Topic>
    var byName: map<Text, Ref>
    var inflight: map<Text, CallId>
    var flights: map<CallId, Flight>
    var calls: map<CallId, Call>

    function View(): State
      reads this
    {
      State(heap, byName, inflight, flights, calls)
    }

    constructor (loaded: seq<Topic>)
      requires forall i, j | 0 <= i < j < |loaded| :: loaded[i].name != loaded[j].name
      ensures Fresh(View()) && heap == loaded
      ensures forall i | 0 <= i < |loaded| :: loaded[i].name in byName && byName[loaded[i].name] == i
    {
      heap, inflight, flights, calls := loaded, map[], map[], map[];
      var names: map<Text, Ref> := map[];
      for i := 0 to |loaded|
        invariant forall n | n in names :: names[n] < i && loaded[names[n]].name == n
        invariant forall k | 0 <= k < i :: loaded[k].name in names && names[loaded[k].name] == k
      {
        names := names[loaded[i].name := i];
      }
      byName := names;
    }

    /** findOrCreate up to its first await. */
    method FindOrCreate(call: CallId, name: Text, chatId: Text, now: int)
      requires Enabled(View(), Find(call, name, chatId, now))
      modifies this
      ensures View() == Next(old(View()), Find(call, name, chatId, now))
    {
      if name in byName {
        var existing := byName[name];
        if existing < |heap| { heap := heap[existing := heap[existing].(lastUsedAt := now)]; }
        calls := calls[call := Done(Got(existing))];
        return;
      }
      if name in inflight {
        calls := calls[call := Waiting(inflight[name])];
        return;
      }
      flights := flights[call := Flight(name, chatId, None)];
      inflight := inflight[name := call];
      calls := calls[call := Waiting(call)];
    }

    /** createTopic resolved: the rest of the in-flight function. */
    method TopicCreated(flight: CallId, threadId: int, now: int)
      requires Enabled(View(), Created(flight, threadId, now))
      modifies this
      ensures View() == Next(old(View()), Created(flight, threadId, now))
      ensures |heap| == |old(heap)| + 1 && heap[..|old(heap)|] == old(heap)
      ensures var entry, was := heap[|old(heap)|], old(flights)[flight];
              && entry.name == was.name && entry.chatId == was.chatId && entry.threadId == threadId
              && entry.createdAt == entry.lastUsedAt == now
              && was.name in byName && byName[was.name] == |old(heap)|
              && flight in flights && flights[flight].outcome == Some(Got(|old(heap)|))
    {
      var entry := Topic(flights[flight].name, flights[flight].chatId, threadId, now, now);
      var ref: Ref := |heap|;
      heap := heap + [entry];
      byName := byName[entry.name := ref];
      flights := flights[flight := flights[flight].(outcome := Some(Got(ref)))];
    }

    /** createTopic rejected. */
    method TopicFailed(flight: CallId, error: Text)
      requires Enabled(View(), Failed(flight, error))
      modifies this
      ensures View() == Next(old(View()), Failed(flight, error))
    {
      flights := flights[flight := flights[flight].(outcome := Some(Threw(error)))];
    }

    /** A caller gets its promise's outcome; the call that started the flight runs its `finally`. */
    method Settle(call: CallId)
      requires Enabled(View(), Finish(call))
      modifies this
      ensures View() == Next(old(View()), Finish(call))
    {
      var awaited := calls[call].flight;
      if awaited == call { inflight := inflight - {flights[awaited].name}; }
      calls := calls[call := Done(flights[awaited].outcome.value)];
    }

    method RemoveTopic(name: Text)
      modifies this
      ensures View() == Next(old(View()), Remove(name))
    {
      byName := byName - {name};
    }
  }

  /* ---- Invariant ---- */

  /** The call that started f has not run its `finally`. */
  predicate Outstanding(s: State, f: CallId) { f in s.flights && f in s.calls && s.calls[f] == Waiting(f) }

  /** A record is in `inflight` exactly while the call that put it there is outstanding. */
  ghost predicate RecordsOk(s: State) {
    && (forall n | n in s.inflight :: Outstanding(s, s.inflight[n]) && s.flights[s.inflight[n]].name == n)
    && (forall f | Outstanding(s, f) :: s.flights[f].name in s.inflight && s.inflight[s.flights[f].name] == f)
    && (forall f | Creating(s, f) :: Outstanding(s, f))
  }

  predicate CallsOk(s: State) {
    && (forall c | c in s.calls && s.calls[c].Waiting? :: s.calls[c].flight in s.flights)
    && (forall f | f in s.flights :: f in s.calls)
  }

  /** What is cached under a name has that name, and is what its outstanding flight, if any, came to. */
  predicate CacheOk(s: State) {
    && (forall n | n in s.byName :: s.byName[n] < |s.heap| && s.heap[s.byName[n]].name == n)
    && (forall n | n in s.inflight && n in s.byName ::
          s.inflight[n] in s.flights && s.flights[s.inflight[n]].outcome == Some(Got(s.byName[n])))
  }

  ghost predicate Inv(s: State) { RecordsOk(s) && CallsOk(s) && CacheOk(s) }

  lemma {:induction false} FreshInv(s: State)
    requires Fresh(s)
    ensures Inv(s)
  {
  }

  lemma {:induction false} FindCachedKeeps(s: State, e: Step)
    requires Inv(s) && Enabled(s, e) && e.Find? && e.name in s.byName
    ensures Inv(Next(s, e))
  {
  }

  lemma {:induction false} FindJoinKeeps(s: State, e: Step)
    requires Inv(s) && Enabled(s, e) && e.Find? && e.name !in s.byName && e.name in s.inflight
    ensures Inv(Next(s, e))
  {
  }

  lemma {:induction false} FindStartKeeps(s: State, e: Step)
    requires Inv(s) && Enabled(s, e) && e.Find? && e.name !in s.byName && e.name !in s.inflight
    ensures Inv(Next(s, e))
  {
    FindStartRecords(s, e);
  }

  lemma {:induction false} FindStartRecords(s: State, e: Step)
    requires RecordsOk(s) && Enabled(s, e) && e.Find? && e.name !in s.byName && e.name !in s.inflight
    ensures RecordsOk(Next(s, e))
  {
    var t := Next(s, e);
    assert forall f :: Outstanding(t, f) <==> Outstanding(s, f) || f == e.call;
    assert forall f :: Creating(t, f) <==> Creating(s, f) || f == e.call;
  }

  lemma {:induction false} CreatedKeeps(s: State, e: Step)
    requires Inv(s) && Enabled(s, e) && e.Created?
    ensures Inv(Next(s, e))
  {
  }

  lemma {:induction false} FailedKeeps(s: State, e: Step)
    requires Inv(s) && Enabled(s, e) && e.Failed?
    ensures Inv(Next(s, e))
  {
  }

  lemma {:induction false} FinishKeeps(s: State, e: Step)
    requires Inv(s) && Enabled(s, e) && e.Finish?
    ensures Inv(Next(s, e))
  {
  }

  lemma {:induction false} RemoveKeeps(s: State, e: Step)
    requires Inv(s) && Enabled(s, e) && e.Remove?
    ensures Inv(Next(s, e))
  {
  }

  lemma {:induction false} StepKeepsInv(s: State, e: Step)
    requires Inv(s) && Enabled(s, e)
    ensures Inv(Next(s, e))
  {
    match e
    case Find(_, name, _, _) =>
      if name in s.byName { FindCachedKeeps(s, e); }
      else if name in s.inflight { FindJoinKeeps(s, e); }
      else { FindStartKeeps(s, e); }
    case Created(_, _, _) => CreatedKeeps(s, e);
    case Failed(_, _) => FailedKeeps(s, e);
    case Finish(_) => FinishKeeps(s, e);
    case Remove(_) => RemoveKeeps(s, e);
  }

  /* ---- Runs ---- */

  predicate Legal(s: State, steps: seq<Step>)
    decreases |steps|
  {
    steps == [] || (Enabled(s, steps[0]) && Legal(Next(s, steps[0]), steps[1..]))
  }

  function After(s: State, steps: seq<Step>): State
    requires Legal(s, steps)
    decreases |steps|
  {
    if steps == [] then s else After(Next(s, steps[0]), steps[1..])
  }

  lemma {:induction false} RunKeepsInv(s: State, steps: seq<Step>)
    requires Inv(s) && Legal(s, steps)
    ensures Inv(After(s, steps))
    decreases |steps|
  {
    if steps != [] {
      StepKeepsInv(s, steps[0]);
      RunKeepsInv(Next(s, steps[0]), steps[1..]);
    }
  }

  /** In every reachable state at most one createTopic is in flight for a name, and then the name is not cached. */
  lemma {:induction false} OneCreateInFlight(s: State, steps: seq<Step>, f: CallId, g: CallId)
    requires Fresh(s) && Legal(s, steps)
    requires Creating(After(s, steps), f) && Creating(After(s, steps), g)
    requires After(s, steps).flights[f].name == After(s, steps).flights[g].name
    ensures f == g && After(s, steps).flights[f].name !in After(s, steps).byName
  {
    FreshInv(s);
    RunKeepsInv(s, steps);
    var t := After(s, steps);
    assert Outstanding(t, f) && Outstanding(t, g);
    assert t.inflight[t.flights[f].name] == f;
  }

  /** A call that ends removes its own in-flight record and no other, whoever it is. */
  lemma {:induction false} FinishRemovesItsOwnRecord(s: State, steps: seq<Step>, c: CallId)
    requires Fresh(s) && Legal(s, steps) && Enabled(After(s, steps), Finish(c))
    ensures var t := After(s, steps);
            Next(t, Finish(c)).inflight == map n | n in t.inflight && t.inflight[n] != c :: t.inflight[n]
  {
    FreshInv(s);
    RunKeepsInv(s, steps);
    var t := After(s, steps);
    forall n | n in t.inflight
      ensures t.inflight[n] == c <==> t.calls[c].flight == c && n == t.flights[c].name
    {
      assert Outstanding(t, t.inflight[n]);
      if t.calls[c].flight == c { assert Outstanding(t, c); }
    }
  }

  /** The call gets what the flight comes to, once both have ended. */
  predicate Shares(s: State, c: CallId, f: CallId) {
    && c in s.calls && f in s.flights
    && (s.calls[c] == Waiting(f) || (s.calls[c].Done? && s.flights[f].outcome == Some(s.calls[c].outcome)))
  }

  lemma {:induction false} SharingLasts(s: State, steps: seq<Step>, c: CallId, f: CallId)
    requires Inv(s) && Legal(s, steps) && Shares(s, c, f)
    ensures Shares(After(s, steps), c, f)
    decreases |steps|
  {
    if steps != [] {
      StepKeepsInv(s, steps[0]);
      SharingLastsOneStep(s, steps[0], c, f);
      SharingLasts(Next(s, steps[0]), steps[1..], c, f);
    }
  }

  lemma {:induction false} SharingLastsOneStep(s: State, e: Step, c: CallId, f: CallId)
    requires Enabled(s, e) && Shares(s, c, f)
    ensures Shares(Next(s, e), c, f)
  {
  }

  /** A call made while another call's flight for that name is outstanding gets the same entry, or the
      same error, even when the topic is removed in between. */
  lemma {:induction false} OverlappingCallsShare(s: State, before: seq<Step>, find: Step, later: seq<Step>, f: CallId)
    requires Fresh(s) && Legal(s, before) && find.Find? && Enabled(After(s, before), find)
    requires Outstanding(After(s, before), f) && After(s, before).flights[f].name == find.name
    requires Legal(Next(After(s, before), find), later)
    ensures Shares(After(Next(After(s, before), find), later), find.call, f)
    ensures Shares(After(Next(After(s, before), find), later), f, f)
  {
    var now := After(s, before);
    FreshInv(s);
    RunKeepsInv(s, before);
    StepKeepsInv(now, find);
    assert Shares(now, f, f);
    SharingLastsOneStep(now, find, f, f);
    SharingLasts(Next(now, find), later, f, f);
    SharingLasts(Next(now, find), later, find.call, f);
  }

  /** Two finished callers that share a flight have the same outcome. */
  lemma {:induction false} SharedOutcome(s: State, c: CallId, d: CallId, f: CallId)
    requires Shares(s, c, f) && Shares(s, d, f) && s.calls[c].Done? && s.calls[d].Done?
    ensures s.calls[c] == s.calls[d]
  {
  }

  /* ---- Conservation ---- */

  function Creates(s: State, steps: seq<Step>, name: Text): nat
    requires Legal(s, steps)
    decreases |steps|
  {
    if steps == [] then 0
    else
      (if steps[0].Created? && s.flights[steps[0].flight].name == name then 1 else 0)
      + Creates(Next(s, steps[0]), steps[1..], name)
  }

  /** Removals that found an entry to remove. */
  function Removals(s: State, steps: seq<Step>, name: Text): nat
    requires Legal(s, steps)
    decreases |steps|
  {
    if steps == [] then 0
    else
      (if steps[0] == Remove(name) && name in s.byName then 1 else 0) + Removals(Next(s, steps[0]), steps[1..], name)
  }

  function Present(s: State, name: Text): nat { if name in s.byName then 1 else 0 }

  /** Every topic created is still cached or has been removed: nothing is overwritten or created twice. */
  lemma {:induction false} CreatesAreConserved(s: State, steps: seq<Step>, name: Text)
    requires Inv(s) && Legal(s, steps)
    ensures Present(s, name) + Creates(s, steps, name) == Present(After(s, steps), name) + Removals(s, steps, name)
    decreases |steps|
  {
    if steps != [] {
      StepKeepsInv(s, steps[0]);
      StepConserves(s, steps[0], name);
      CreatesAreConserved(Next(s, steps[0]), steps[1..], name);
    }
  }

  lemma {:induction false} StepConserves(s: State, e: Step, name: Text)
    requires Inv(s) && Enabled(s, e)
    ensures Present(s, name) + (if e.Created? && s.flights[e.flight].name == name then 1 else 0)
            == Present(Next(s, e), name) + (if e == Remove(name) && name in s.byName then 1 else 0)
  {
  }

  lemma {:induction false} NoRemovals(s: State, steps: seq<Step>, name: Text)
    requires Legal(s, steps) && Remove(name) !in steps
    ensures Removals(s, steps, name) == 0
    decreases |steps|
  {
    if steps != [] { NoRemovals(Next(s, steps[0]), steps[1..], name); }
  }

  /** Without a removal of the name at most one create of it succeeds, and none if it was loaded. */
  lemma {:induction false} CreatedOnce(s: State, steps: seq<Step>, name: Text)
    requires Fresh(s) && Legal(s, steps) && Remove(name) !in steps
    ensures Creates(s, steps, name) + Present(s, name) <= 1
  {
    FreshInv(s);
    CreatesAreConserved(s, steps, name);
    NoRemovals(s, steps, name);
  }
}
