/** Where the entries that callers of the topic registry get come from, over whole runs. */
module TopicRuns {
  import opened JsText
  import opened Wrappers
  import opened TopicRegistry

  /** The same entry, but for when it was last used. */
  predicate SameTopic(a: Topic, b: Topic) { a.(lastUsedAt := 0) == b.(lastUsedAt := 0) }

  /** One of the steps is the Find that this call made, for that name and chat. */
  ghost predicate Asked(past: seq<Step>, call: CallId, name: Text, chatId: Text) {
    exists i :: 0 <= i < |past| && past[i].Find? && past[i].call == call && past[i].name == name && past[i].chatId == chatId
  }

  /** A call for this name and chat started a create, and the create resolved with this thread at that time. */
  ghost predicate MadeFor(past: seq<Step>, topic: Topic) {
    exists f :: Asked(past, f, topic.name, topic.chatId) && Created(f, topic.threadId, topic.createdAt) in past
  }

  /** A call for this name started a create, and the create was rejected with this error. */
  ghost predicate FailedFor(past: seq<Step>, name: Text, error: Text) {
    exists f, chatId :: Asked(past, f, name, chatId) && Failed(f, error) in past
  }

  /** The entry was loaded under its name, or made for it. */
  ghost predicate EntryFor(start: State, past: seq<Step>, s: State, name: Text, ref: Ref) {
    && ref < |s.heap| && s.heap[ref].name == name
    && if ref < |start.heap| then name in start.byName && start.byName[name] == ref && SameTopic(s.heap[ref], start.heap[ref])
       else MadeFor(past, s.heap[ref])
  }

  ghost predicate OutcomeFor(start: State, past: seq<Step>, s: State, name: Text, outcome: Outcome) {
    match outcome
    case Got(ref) => EntryFor(start, past, s, name, ref)
    case Threw(error) => FailedFor(past, name, error)
  }

  ghost predicate HeapKnown(start: State, past: seq<Step>, s: State) {
    && |start.heap| <= |s.heap|
    && forall r | 0 <= r < |s.heap| ::
         if r < |start.heap| then SameTopic(s.heap[r], start.heap[r]) else MadeFor(past, s.heap[r])
  }

  ghost predicate CacheKnown(start: State, past: seq<Step>, s: State) {
    && (forall n | n in s.byName :: EntryFor(start, past, s, n, s.byName[n]))
    && (forall n | n in s.inflight :: s.inflight[n] in s.flights && s.flights[s.inflight[n]].name == n)
  }

  ghost predicate FlightsKnown(start: State, past: seq<Step>, s: State) {
    forall f | f in s.flights ::
      && Asked(past, f, s.flights[f].name, s.flights[f].chatId)
      && (s.flights[f].outcome.Some? ==> OutcomeFor(start, past, s, s.flights[f].name, s.flights[f].outcome.value))
  }

  /** What the call that made this step has come to. */
  ghost predicate CallKnown(start: State, past: seq<Step>, s: State, find: Step)
    requires find.Find?
  {
    && find.call in s.calls
    && match s.calls[find.call]
       case Waiting(f) => f in s.flights && s.flights[f].name == find.name
       case Done(outcome) => OutcomeFor(start, past, s, find.name, outcome)
  }

  /** What a resolved or rejected create, and a call that ended, have left behind. */
  ghost predicate StepKnown(s: State, e: Step) {
    match e
    case Created(f, threadId, now) =>
      && f in s.flights && s.flights[f].outcome.Some? && s.flights[f].outcome.value.Got?
      && var ref := s.flights[f].outcome.value.entry;
      && ref < |s.heap| && s.heap[ref].threadId == threadId && s.heap[ref].createdAt == now
      && s.heap[ref].name == s.flights[f].name && s.heap[ref].chatId == s.flights[f].chatId
    case Failed(f, error) => f in s.flights && s.flights[f].outcome == Some(Threw(error))
    case Finish(c) => c in s.calls && s.calls[c].Done?
    case _ => true
  }

  ghost predicate Known(start: State, past: seq<Step>, s: State) {
    && HeapKnown(start, past, s) && CacheKnown(start, past, s) && FlightsKnown(start, past, s)
    && (forall i | 0 <= i < |past| && past[i].Find? :: CallKnown(start, past, s, past[i]))
    && (forall i | 0 <= i < |past| :: StepKnown(s, past[i]))
  }

  /* ---- More steps ---- */

  lemma {:induction false} AskedLater(past: seq<Step>, e: Step, call: CallId, name: Text, chatId: Text)
    ensures Asked(past, call, name, chatId) ==> Asked(past + [e], call, name, chatId)
  {
    if i :| 0 <= i < |past| && past[i].Find? && past[i].call == call && past[i].name == name && past[i].chatId == chatId {
      assert (past + [e])[i] == past[i];
    }
  }

  lemma {:induction false} MadeLater(past: seq<Step>, e: Step, topic: Topic, now: int)
    ensures MadeFor(past, topic) ==> MadeFor(past + [e], topic.(lastUsedAt := now))
  {
    if f :| Asked(past, f, topic.name, topic.chatId) && Created(f, topic.threadId, topic.createdAt) in past {
      AskedLater(past, e, f, topic.name, topic.chatId);
      assert Asked(past + [e], f, topic.name, topic.chatId);
    }
  }

  lemma {:induction false} FailedLater(past: seq<Step>, e: Step, name: Text, error: Text)
    ensures FailedFor(past, name, error) ==> FailedFor(past + [e], name, error)
  {
    if f, chatId :| Asked(past, f, name, chatId) && Failed(f, error) in past {
      AskedLater(past, e, f, name, chatId);
      assert Asked(past + [e], f, name, chatId);
    }
  }

  /** Entries already there change in when they were last used only. */
  lemma {:induction false} HeapStep(s: State, e: Step)
    requires Enabled(s, e)
    ensures |s.heap| <= |Next(s, e).heap|
    ensures forall r | 0 <= r < |s.heap| :: SameTopic(Next(s, e).heap[r], s.heap[r])
  {
  }

  lemma {:induction false} EntryLater(start: State, past: seq<Step>, s: State, e: Step, name: Text, ref: Ref)
    requires Enabled(s, e) && EntryFor(start, past, s, name, ref)
    ensures EntryFor(start, past + [e], Next(s, e), name, ref)
  {
    HeapStep(s, e);
    var t := Next(s, e);
    assert t.heap[ref] == s.heap[ref].(lastUsedAt := t.heap[ref].lastUsedAt);
    MadeLater(past, e, s.heap[ref], t.heap[ref].lastUsedAt);
  }

  lemma {:induction false} OutcomeLater(start: State, past: seq<Step>, s: State, e: Step, name: Text, outcome: Outcome)
    requires Enabled(s, e) && OutcomeFor(start, past, s, name, outcome)
    ensures OutcomeFor(start, past + [e], Next(s, e), name, outcome)
  {
    match outcome
    case Got(ref) => EntryLater(start, past, s, e, name, ref);
    case Threw(error) => FailedLater(past, e, name, error);
  }

  /** The entry a create has just made. */
  lemma {:induction false} CreatedEntry(start: State, past: seq<Step>, s: State, e: Step)
    requires Enabled(s, e) && e.Created? && FlightsKnown(start, past, s) && |start.heap| <= |s.heap|
    ensures EntryFor(start, past + [e], Next(s, e), s.flights[e.flight].name, |s.heap|)
    ensures MadeFor(past + [e], Next(s, e).heap[|s.heap|])
  {
    var flight := s.flights[e.flight];
    AskedLater(past, e, e.flight, flight.name, flight.chatId);
    assert (past + [e])[|past|] == e;
    assert Asked(past + [e], e.flight, flight.name, flight.chatId);
  }

  lemma {:induction false} HeapKeepsKnown(start: State, past: seq<Step>, s: State, e: Step)
    requires Enabled(s, e) && HeapKnown(start, past, s) && FlightsKnown(start, past, s)
    ensures HeapKnown(start, past + [e], Next(s, e))
  {
    var t := Next(s, e);
    HeapStep(s, e);
    if e.Created? { CreatedEntry(start, past, s, e); }
    forall r | 0 <= r < |t.heap|
      ensures if r < |start.heap| then SameTopic(t.heap[r], start.heap[r]) else MadeFor(past + [e], t.heap[r])
    {
      if r < |s.heap| {
        assert t.heap[r] == s.heap[r].(lastUsedAt := t.heap[r].lastUsedAt);
        MadeLater(past, e, s.heap[r], t.heap[r].lastUsedAt);
      }
    }
  }

  lemma {:induction false} CacheKeepsKnown(start: State, past: seq<Step>, s: State, e: Step)
    requires Enabled(s, e) && HeapKnown(start, past, s) && CacheKnown(start, past, s) && FlightsKnown(start, past, s)
    ensures CacheKnown(start, past + [e], Next(s, e))
  {
    var t := Next(s, e);
    if e.Created? { CreatedEntry(start, past, s, e); }
    forall n | n in t.byName ensures EntryFor(start, past + [e], t, n, t.byName[n]) {
      if n in s.byName && t.byName[n] == s.byName[n] { EntryLater(start, past, s, e, n, s.byName[n]); }
    }
  }

  lemma {:induction false} FlightKeepsKnown(start: State, past: seq<Step>, s: State, e: Step, f: CallId)
    requires Enabled(s, e) && HeapKnown(start, past, s) && FlightsKnown(start, past, s) && f in Next(s, e).flights
    ensures var flight := Next(s, e).flights[f];
            && Asked(past + [e], f, flight.name, flight.chatId)
            && (flight.outcome.Some? ==> OutcomeFor(start, past + [e], Next(s, e), flight.name, flight.outcome.value))
  {
    var t := Next(s, e);
    assert (past + [e])[|past|] == e;
    if f in s.flights {
      var flight := s.flights[f];
      AskedLater(past, e, f, flight.name, flight.chatId);
      if flight.outcome.Some? { OutcomeLater(start, past, s, e, flight.name, flight.outcome.value); }
      else if e.Created? { CreatedEntry(start, past, s, e); }
      else if e.Failed? { assert t.flights[f].outcome.Some? ==> e in past + [e]; }
    }
  }

  lemma {:induction false} FlightsKeepKnown(start: State, past: seq<Step>, s: State, e: Step)
    requires Enabled(s, e) && HeapKnown(start, past, s) && FlightsKnown(start, past, s)
    ensures FlightsKnown(start, past + [e], Next(s, e))
  {
    forall f | f in Next(s, e).flights
      ensures var flight := Next(s, e).flights[f];
              && Asked(past + [e], f, flight.name, flight.chatId)
              && (flight.outcome.Some? ==> OutcomeFor(start, past + [e], Next(s, e), flight.name, flight.outcome.value))
    {
      FlightKeepsKnown(start, past, s, e, f);
    }
  }

  lemma {:induction false} CallKeepsKnown(start: State, past: seq<Step>, s: State, e: Step, find: Step)
    requires Enabled(s, e) && FlightsKnown(start, past, s) && find.Find? && CallKnown(start, past, s, find)
    ensures CallKnown(start, past + [e], Next(s, e), find)
  {
    match s.calls[find.call] {
      case Done(outcome) => OutcomeLater(start, past, s, e, find.name, outcome);
      case Waiting(f) =>
        if e == Finish(find.call) { OutcomeLater(start, past, s, e, find.name, s.flights[f].outcome.value); }
    }
  }

  lemma {:induction false} NewCallKnown(start: State, past: seq<Step>, s: State, find: Step)
    requires Enabled(s, find) && CacheKnown(start, past, s) && find.Find?
    ensures CallKnown(start, past + [find], Next(s, find), find)
  {
    if find.name in s.byName { EntryLater(start, past, s, find, find.name, s.byName[find.name]); }
  }

  lemma {:induction false} StepStaysKnown(s: State, e: Step, earlier: Step)
    requires Enabled(s, e) && (StepKnown(s, earlier) || earlier == e)
    ensures StepKnown(Next(s, e), earlier)
  {
    if StepKnown(s, earlier) { HeapStep(s, e); }
  }

  lemma {:induction false} NextKnown(start: State, past: seq<Step>, s: State, e: Step)
    requires Enabled(s, e) && Known(start, past, s)
    ensures Known(start, past + [e], Next(s, e))
  {
    HeapKeepsKnown(start, past, s, e);
    CacheKeepsKnown(start, past, s, e);
    FlightsKeepKnown(start, past, s, e);
    forall i | 0 <= i < |past + [e]| && (past + [e])[i].Find?
      ensures CallKnown(start, past + [e], Next(s, e), (past + [e])[i])
    {
      if i < |past| { CallKeepsKnown(start, past, s, e, past[i]); } else { NewCallKnown(start, past, s, e); }
    }
    forall i | 0 <= i < |past + [e]| ensures StepKnown(Next(s, e), (past + [e])[i]) {
      StepStaysKnown(s, e, (past + [e])[i]);
    }
  }

  lemma {:induction false} RunKnown(start: State, past: seq<Step>, s: State, steps: seq<Step>)
    requires Legal(s, steps) && Known(start, past, s)
    ensures Known(start, past + steps, After(s, steps))
    decreases |steps|
  {
    if steps == [] {
      assert past + steps == past;
    } else {
      NextKnown(start, past, s, steps[0]);
      RunKnown(start, past + [steps[0]], Next(s, steps[0]), steps[1..]);
      assert past + [steps[0]] + steps[1..] == past + steps;
    }
  }

  lemma {:induction false} StartKnown(s: State)
    requires Fresh(s)
    ensures Known(s, [], s)
  {
  }

  /* ---- Main results ---- */

  /** In every run, a call for a name that ended has got an entry of that name or an error.  The entry is
      the loaded one, but for when it was last used, or one with the thread that a create for that name
      resolved with and the chat that the call behind that create asked for; the error is one that a
      create for that name was rejected with. */
  lemma {:induction false} CallersGetTheirTopic(s: State, steps: seq<Step>, i: nat)
    requires Fresh(s) && Legal(s, steps) && i < |steps| && steps[i].Find?
    ensures var t := After(s, steps); var c := steps[i].call;
            c in t.calls && (t.calls[c].Done? ==> OutcomeFor(s, steps, t, steps[i].name, t.calls[c].outcome))
  {
    StartKnown(s);
    RunKnown(s, [], s, steps);
    assert [] + steps == steps;
    assert CallKnown(s, steps, After(s, steps), steps[i]);
  }

  /** A create that resolves or is rejected settles its flight for good, with the thread or the error it
      came to; and a call that ends has its outcome. */
  lemma {:induction false} CreatesSettleTheirFlight(s: State, steps: seq<Step>, i: nat)
    requires Fresh(s) && Legal(s, steps) && i < |steps|
    ensures StepKnown(After(s, steps), steps[i])
  {
    StartKnown(s);
    RunKnown(s, [], s, steps);
    assert [] + steps == steps;
  }

  /** No step changes an entry, other than when it was last used. */
  lemma {:induction false} EntriesStay(s: State, steps: seq<Step>, ref: Ref)
    requires Legal(s, steps) && ref < |s.heap|
    ensures ref < |After(s, steps).heap| && SameTopic(After(s, steps).heap[ref], s.heap[ref])
    decreases |steps|
  {
    if steps != [] {
      HeapStep(s, steps[0]);
      EntriesStay(Next(s, steps[0]), steps[1..], ref);
    }
  }

  /** A call for a cached name ends at once with the cached entry, which it marks as used; one for a name
      whose create is under way joins it; and only one for any other name starts a create. */
  lemma {:induction false} FindIsExact(s: State, steps: seq<Step>, find: Step)
    requires Fresh(s) && Legal(s, steps) && find.Find? && Enabled(After(s, steps), find)
    ensures var t := After(s, steps); var u := Next(t, find);
            && u.byName == t.byName
            && (find.name in t.byName ==>
                  && u.calls[find.call] == Done(Got(t.byName[find.name])) && u.flights == t.flights
                  && t.byName[find.name] < |t.heap| && |u.heap| == |t.heap|
                  && u.heap[t.byName[find.name]] == t.heap[t.byName[find.name]].(lastUsedAt := find.now))
            && (find.name !in t.byName ==> u.heap == t.heap)
            && (forall f | find.name !in t.byName && Outstanding(t, f) && t.flights[f].name == find.name ::
                  u.calls[find.call] == Waiting(f) && u.flights == t.flights)
            && (Creating(u, find.call) <==>
                  find.name !in t.byName && !exists f :: Outstanding(t, f) && t.flights[f].name == find.name)
  {
    FreshInv(s);
    RunKeepsInv(s, steps);
    var t := After(s, steps);
    if find.name in t.inflight { assert Outstanding(t, t.inflight[find.name]); }
  }
}
