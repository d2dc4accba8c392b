/** Every operation that a history performs, those of callbacks included, against what the history then
    holds: nothing that a task or caller passes to the coordinator is dropped. */
module EphemeralQueryTraces {
  import opened JsText
  import opened Wrappers
  import opened EphemeralQueries
  import opened EphemeralQueryRuns

  /** An operation and the coordinator it was performed on. */
  datatype Performed = Performed(before: Coordinator, op: Op)

  /* ---- The operations performed, in the order in which they begin ---- */

  ghost function Trace(c: Coordinator, op: Op): seq<Performed>
    requires WellFormed(c)
    decreases op, 2
  {
    [Performed(c, op)]
    + match op
      case Fire(run, reaction) =>
        if run < |c.entries| && c.entries[run].armed then
          var e := c.entries[run];
          CancelTrace(Update(c, run, e.(armed := false)), e.id, Timeout(e.timeoutMs), reaction)
        else []
      case Cancel(id, reason, reaction) => CancelTrace(c, id, reason, reaction)
      case CancelAll(cancels) => if Covers(c.active.Keys, cancels) then TraceAll(c, cancels) else []
      case SetResource(run, resource, reaction) =>
        if run < |c.entries| && c.entries[run].reason.Some? then ResourceTrace(Log(c, Taken(run, resource)), resource, reaction)
        else []
      case _ => []
  }

  ghost function TraceAll(c: Coordinator, ops: seq<Op>): seq<Performed>
    requires WellFormed(c)
    decreases ops, 3
  {
    if ops == [] then [] else Trace(c, ops[0]) + TraceAll(Exec(c, ops[0]), ops[1..])
  }

  /** The listeners of the abort signal, then the callbacks of the resource the run then holds. */
  ghost function CancelTrace(c: Coordinator, id: Text, reason: Reason, reaction: Reaction): seq<Performed>
    requires WellFormed(c)
    decreases reaction, 1
  {
    if id !in c.active then []
    else
      var run := c.active[id];
      var c0 := Aborted(c, id, run, reason);
      TraceAll(c0, reaction.signal) + ReleaseTrace(ExecAll(c0, reaction.signal), run, reaction)
  }

  ghost function ReleaseTrace(c: Coordinator, run: nat, reaction: Reaction): seq<Performed>
    requires WellFormed(c) && run < |c.entries|
    decreases reaction, 0, 1
  {
    match c.entries[run].resource
    case None => []
    case Some(resource) => ResourceTrace(Log(c, Taken(run, resource)), resource, reaction)
  }

  ghost function ResourceTrace(c: Coordinator, resource: nat, reaction: Reaction): seq<Performed>
    requires WellFormed(c)
    decreases reaction, 0, 0
  {
    var c1 := Log(c, Abort(resource));
    TraceAll(c1, reaction.abort) + TraceAll(Log(ExecAll(c1, reaction.abort), Dispose(resource)), reaction.dispose)
  }

  /* ---- The history holds what was performed, and nothing else ---- */

  /** What the history must hold of the operation, at the point where it is performed. */
  function Effect(p: Performed): Option<Call> {
    match p.op
    case Settle(run, result) => if run < |p.before.entries| then Some(Settled(run, result)) else None
    case SetResource(run, resource, _) =>
      if run >= |p.before.entries| then None
      else if p.before.entries[run].reason.None? then Some(Registered(run, resource))
      else Some(Taken(run, resource))
    case ClearResource(run, resource) =>
      if run < |p.before.entries| && p.before.entries[run].resource == Some(resource) then Some(Cleared(run, resource))
      else None
    case _ => None
  }

  function At(p: Performed): nat { |p.before.calls| }

  /** The calls that only an operation makes; the others follow from a cancellation. */
  predicate ByOperation(call: Call) { call.Settled? || call.Registered? || call.Cleared? }

  /** The operations t are those that made the history from n on. */
  ghost predicate Recorded(t: seq<Performed>, n: nat, calls: seq<Call>) {
    && n <= |calls|
    && (forall k | 0 <= k < |t| :: n <= At(t[k]) && t[k].before.calls <= calls)
    && (forall k | 0 <= k < |t| && Effect(t[k]).Some? :: At(t[k]) < |calls| && calls[At(t[k])] == Effect(t[k]).value)
    && (forall i, k | 0 <= i < k < |t| :: At(t[i]) <= At(t[k]))
    && (forall p | n <= p < |calls| && ByOperation(calls[p]) :: Made(t, p, calls[p]))
  }

  /** One of the operations was performed at p, and made this call. */
  ghost predicate Made(t: seq<Performed>, p: nat, call: Call) {
    exists k :: 0 <= k < |t| && At(t[k]) == p && Effect(t[k]) == Some(call)
  }

  lemma {:induction false} RecordedConcat(a: seq<Performed>, b: seq<Performed>, n: nat, calls: seq<Call>, more: seq<Call>)
    requires Recorded(a, n, calls) && calls <= more && Recorded(b, |calls|, more)
    ensures Recorded(a + b, n, more)
  {
    var t := a + b;
    forall k | 0 <= k < |t| ensures n <= At(t[k]) && t[k].before.calls <= more {
      if k < |a| { assert t[k] == a[k]; } else { assert t[k] == b[k - |a|]; }
    }
    forall p | n <= p < |more| && ByOperation(more[p]) ensures Made(t, p, more[p]) {
      if p < |calls| {
        assert Made(a, p, calls[p]);
        var k :| 0 <= k < |a| && At(a[k]) == p && Effect(a[k]) == Some(more[p]);
        assert t[k] == a[k];
      } else {
        assert Made(b, p, more[p]);
        var k :| 0 <= k < |b| && At(b[k]) == p && Effect(b[k]) == Some(more[p]);
        assert t[|a| + k] == b[k];
      }
    }
  }

  /** Calls that follow from a cancellation need no operation. */
  lemma {:induction false} NothingRecorded(calls: seq<Call>, call: Call)
    requires !ByOperation(call)
    ensures Recorded([], |calls|, calls + [call])
  {
  }

  lemma {:induction false} LoggedConcat(a: seq<Performed>, n: nat, calls: seq<Call>, call: Call)
    requires Recorded(a, n, calls) && !ByOperation(call)
    ensures Recorded(a, n, calls + [call])
  {
    NothingRecorded(calls, call);
    RecordedConcat(a, [], n, calls, calls + [call]);
    assert a + [] == a;
  }

  lemma {:induction false} Nothing(calls: seq<Call>)
    ensures Recorded([], |calls|, calls)
  {
  }

  lemma {:induction false} CallsGrow(c: Coordinator, ops: seq<Op>)
    requires WellFormed(c)
    ensures c.calls <= ExecAll(c, ops).calls
  {
    var calls := ExecAllReleases(c, ops);
  }

  lemma {:induction false} TraceAllRecorded(c: Coordinator, ops: seq<Op>)
    requires WellFormed(c)
    ensures Recorded(TraceAll(c, ops), |c.calls|, ExecAll(c, ops).calls)
    decreases ops, 3
  {
    if ops == [] {
      Nothing(c.calls);
    } else {
      var d := Exec(c, ops[0]);
      TraceRecorded(c, ops[0]);
      TraceAllRecorded(d, ops[1..]);
      CallsGrow(d, ops[1..]);
      RecordedConcat(Trace(c, ops[0]), TraceAll(d, ops[1..]), |c.calls|, d.calls, ExecAll(c, ops).calls);
    }
  }

  lemma {:induction false} ResourceRecorded(c: Coordinator, resource: nat, reaction: Reaction)
    requires WellFormed(c)
    ensures Recorded(ResourceTrace(c, resource, reaction), |c.calls|, CancelResource(c, resource, reaction).calls)
    decreases reaction, 0, 0
  {
    var c1 := Log(c, Abort(resource));
    var c2 := ExecAll(c1, reaction.abort);
    var c3 := Log(c2, Dispose(resource));
    var d := CancelResource(c, resource, reaction);
    NothingRecorded(c.calls, Abort(resource));
    TraceAllRecorded(c1, reaction.abort);
    CallsGrow(c1, reaction.abort);
    RecordedConcat([], TraceAll(c1, reaction.abort), |c.calls|, c1.calls, c2.calls);
    assert [] + TraceAll(c1, reaction.abort) == TraceAll(c1, reaction.abort);
    LoggedConcat(TraceAll(c1, reaction.abort), |c.calls|, c2.calls, Dispose(resource));
    TraceAllRecorded(c3, reaction.dispose);
    CallsGrow(c3, reaction.dispose);
    RecordedConcat(TraceAll(c1, reaction.abort), TraceAll(c3, reaction.dispose), |c.calls|, c3.calls, d.calls);
  }

  /** A resource is taken and then released. */
  lemma {:induction false} TakenRecorded(c: Coordinator, run: nat, resource: nat, reaction: Reaction)
    requires WellFormed(c)
    ensures var c1 := Log(c, Taken(run, resource));
            && Recorded(ResourceTrace(c1, resource, reaction), |c.calls|, CancelResource(c1, resource, reaction).calls)
            && c1.calls <= CancelResource(c1, resource, reaction).calls
    decreases reaction, 0, 1
  {
    var c1 := Log(c, Taken(run, resource));
    NothingRecorded(c.calls, Taken(run, resource));
    ResourceRecorded(c1, resource, reaction);
    var more := TakeReleases(c, run, resource, reaction);
    assert (c.calls + more)[|c.calls|] == more[0];
    RecordedConcat([], ResourceTrace(c1, resource, reaction), |c.calls|, c1.calls, CancelResource(c1, resource, reaction).calls);
    assert [] + ResourceTrace(c1, resource, reaction) == ResourceTrace(c1, resource, reaction);
  }

  lemma {:induction false} ReleaseRecorded(c: Coordinator, run: nat, reaction: Reaction)
    requires WellFormed(c) && run < |c.entries|
    ensures Recorded(ReleaseTrace(c, run, reaction), |c.calls|, ReleaseOnCancel(c, run, reaction).calls)
    ensures c.calls <= ReleaseOnCancel(c, run, reaction).calls
    decreases reaction, 0, 2
  {
    if c.entries[run].resource.Some? { TakenRecorded(c, run, c.entries[run].resource.value, reaction); }
    else { Nothing(c.calls); }
  }

  lemma {:induction false} CancelRecorded(c: Coordinator, id: Text, reason: Reason, reaction: Reaction)
    requires WellFormed(c)
    ensures Recorded(CancelTrace(c, id, reason, reaction), |c.calls|, ExecCancel(c, id, reason, reaction).calls)
    decreases reaction, 1
  {
    if id in c.active {
      var run := c.active[id];
      var c0 := Aborted(c, id, run, reason);
      var c1 := ExecAll(c0, reaction.signal);
      TraceAllRecorded(c0, reaction.signal);
      ReleaseRecorded(c1, run, reaction);
      RecordedConcat(TraceAll(c0, reaction.signal), ReleaseTrace(c1, run, reaction), |c.calls|, c1.calls,
                     ReleaseOnCancel(c1, run, reaction).calls);
    } else {
      Nothing(c.calls);
    }
  }

  /** The operation itself, before those its callbacks perform. */
  lemma {:induction false} OwnStep(c: Coordinator, op: Op, rest: seq<Performed>, calls: seq<Call>)
    requires Recorded(rest, |c.calls|, calls) && c.calls <= calls
    requires Effect(Performed(c, op)).Some? ==>
               |c.calls| < |calls| && calls[|c.calls|] == Effect(Performed(c, op)).value
    ensures Recorded([Performed(c, op)] + rest, |c.calls|, calls)
  {
    var t := [Performed(c, op)] + rest;
    forall p | |c.calls| <= p < |calls| && ByOperation(calls[p]) ensures Made(t, p, calls[p]) {
      assert Made(rest, p, calls[p]);
      var k :| 0 <= k < |rest| && At(rest[k]) == p && Effect(rest[k]) == Some(calls[p]);
      assert t[1 + k] == rest[k];
    }
  }

  /** An operation that makes one call itself and runs no callback. */
  lemma {:induction false} OwnCall(c: Coordinator, op: Op)
    requires WellFormed(c) && Trace(c, op) == [Performed(c, op)]
    requires Exec(c, op).calls == c.calls + match Effect(Performed(c, op)) { case None => [] case Some(call) => [call] }
    ensures Recorded(Trace(c, op), |c.calls|, Exec(c, op).calls)
  {
    var calls := Exec(c, op).calls;
    forall p | |c.calls| <= p < |calls| && ByOperation(calls[p]) ensures Made(Trace(c, op), p, calls[p]) {
      assert Trace(c, op)[0] == Performed(c, op);
    }
  }

  lemma {:induction false} FireRecorded(c: Coordinator, run: nat, reaction: Reaction)
    requires WellFormed(c)
    ensures Recorded(Trace(c, Fire(run, reaction)), |c.calls|, Exec(c, Fire(run, reaction)).calls)
    decreases reaction, 2
  {
    var op := Fire(run, reaction);
    if run < |c.entries| && c.entries[run].armed {
      var e := c.entries[run];
      var c0 := Update(c, run, e.(armed := false));
      CancelRecorded(c0, e.id, Timeout(e.timeoutMs), reaction);
      var more := CancelReleases(c0, e.id, Timeout(e.timeoutMs), reaction);
      OwnStep(c, op, CancelTrace(c0, e.id, Timeout(e.timeoutMs), reaction), Exec(c, op).calls);
    } else {
      OwnCall(c, op);
    }
  }

  lemma {:induction false} SetResourceRecorded(c: Coordinator, run: nat, resource: nat, reaction: Reaction)
    requires WellFormed(c)
    ensures Recorded(Trace(c, SetResource(run, resource, reaction)), |c.calls|,
                     Exec(c, SetResource(run, resource, reaction)).calls)
    decreases reaction, 2
  {
    var op := SetResource(run, resource, reaction);
    if run < |c.entries| && c.entries[run].reason.Some? {
      TakenRecorded(c, run, resource, reaction);
      OwnStep(c, op, ResourceTrace(Log(c, Taken(run, resource)), resource, reaction), Exec(c, op).calls);
    } else {
      OwnCall(c, op);
    }
  }

  lemma {:induction false} TraceRecorded(c: Coordinator, op: Op)
    requires WellFormed(c)
    ensures Recorded(Trace(c, op), |c.calls|, Exec(c, op).calls)
    decreases op, 2
  {
    match op {
      case Fire(run, reaction) => FireRecorded(c, run, reaction);
      case SetResource(run, resource, reaction) => SetResourceRecorded(c, run, resource, reaction);
      case Cancel(id, reason, reaction) =>
        CancelRecorded(c, id, reason, reaction);
        var more := CancelReleases(c, id, reason, reaction);
        OwnStep(c, op, CancelTrace(c, id, reason, reaction), Exec(c, op).calls);
      case CancelAll(cancels) =>
        if Covers(c.active.Keys, cancels) {
          TraceAllRecorded(c, cancels);
          CallsGrow(c, cancels);
          OwnStep(c, op, TraceAll(c, cancels), Exec(c, op).calls);
        } else { OwnCall(c, op); }
      case _ => OwnCall(c, op);
    }
  }

  /* ---- Main results ---- */

  /** All operations performed, from an idle coordinator on. */
  ghost function History(ops: seq<Op>): seq<Performed> { TraceAll(IDLE, ops) }

  /** Every settlement, resource and clearing that an operation passes in, at any depth of callbacks, is in
      the history where the operation was performed; and the history holds no other. */
  lemma {:induction false} NothingIsDropped(ops: seq<Op>)
    ensures Recorded(History(ops), 0, After(ops).calls)
  {
    TraceAllRecorded(IDLE, ops);
  }

  /** The operation passes a resource to a run that is not cancelled. */
  predicate Passes(p: Performed, run: nat, resource: nat) {
    p.op.SetResource? && p.op.run == run && p.op.resource == resource
    && run < |p.before.entries| && p.before.entries[run].reason.None?
  }

  /** The operation passes a run that is not cancelled another resource, or clears this one. */
  predicate Displaces(p: Performed, run: nat, resource: nat) {
    || (p.op.SetResource? && Passes(p, run, p.op.resource))
    || (p.op.ClearResource? && p.op.run == run && p.op.resource == resource)
  }

  /** A call that ends the registration, and was made by an operation, was made by one that displaces it. */
  lemma {:induction false} Displacer(t: seq<Performed>, calls: seq<Call>, q: nat, run: nat, resource: nat) returns (k: nat)
    requires Recorded(t, 0, calls) && q < |calls| && ByOperation(calls[q]) && Ends(calls[q], Registered(run, resource))
    ensures k < |t| && At(t[k]) == q && Displaces(t[k], run, resource)
  {
    assert Made(t, q, calls[q]);
    k :| 0 <= k < |t| && At(t[k]) == q && Effect(t[k]) == Some(calls[q]);
  }

  /** A resource passed to a live run, by a caller or by any callback, is aborted and then disposed of once
      the run is cancelled, unless a later operation replaced or cleared it. */
  lemma {:induction false} PassedResourceIsReleased(ops: seq<Op>, i: nat, run: nat, resource: nat)
    requires i < |History(ops)| && Passes(History(ops)[i], run, resource)
    requires forall k | i < k < |History(ops)| :: !Displaces(History(ops)[k], run, resource)
    requires run < |After(ops).entries| && After(ops).entries[run].reason.Some?
    ensures ReleasedAfter(After(ops).calls, At(History(ops)[i]), resource)
  {
    var t, calls := History(ops), After(ops).calls;
    NothingIsDropped(ops);
    var p := At(t[i]);
    NoResourceStaysLive(ops, run);
    assert Effect(t[i]) == Some(Registered(run, resource));
    assert Replaced(calls, p, |calls|);
    var q :| p < q < |calls| && Ends(calls[q], calls[p]);
    if ByOperation(calls[q]) {
      var k := Displacer(t, calls, q, run, resource);
      assert false;
    }
    assert ReleasedAfter(calls, q, resource);
  }
}
