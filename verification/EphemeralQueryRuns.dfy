/** What holds after every history of operations on the query coordinator. */
module EphemeralQueryRuns {
  import opened JsText
  import opened Wrappers
  import opened EphemeralQueries

  /* ---- What tasks settle with ---- */

  /** The first result the run's task settled with: a promise settles once. */
  function FirstSettled(calls: seq<Call>, run: nat): Option<TaskResult> {
    if calls == [] then None
    else
      var before := FirstSettled(calls[..|calls| - 1], run);
      var last := calls[|calls| - 1];
      if before.None? && last.Settled? && last.run == run then Some(last.result) else before
  }

  ghost predicate ResultOfTask(c: Coordinator, run: nat)
    requires run < |c.entries|
  {
    match c.entries[run].outcome
    case None => FirstSettled(c.calls, run) == None
    case Some(ByTask(result)) => FirstSettled(c.calls, run) == Some(result)
    case Some(ByCancellation(_)) => true
  }

  ghost predicate Results(c: Coordinator) {
    && (forall k | 0 <= k < |c.calls| && c.calls[k].Settled? :: c.calls[k].run < |c.entries|)
    && (forall r | 0 <= r < |c.entries| :: ResultOfTask(c, r))
  }

  lemma {:induction false} NeverSettled(calls: seq<Call>, run: nat)
    requires forall k | 0 <= k < |calls| && calls[k].Settled? :: calls[k].run != run
    ensures FirstSettled(calls, run) == None
  {
    if calls != [] { NeverSettled(calls[..|calls| - 1], run); }
  }

  lemma {:induction false} LogResults(c: Coordinator, call: Call)
    requires Results(c) && !call.Settled?
    ensures Results(Log(c, call))
  {
    var d := Log(c, call);
    assert d.calls[..|d.calls| - 1] == c.calls;
    forall r | 0 <= r < |d.entries| ensures ResultOfTask(d, r) { assert ResultOfTask(c, r); }
  }

  /** An entry changed otherwise than by a task's settlement. */
  lemma {:induction false} UpdateResults(c: Coordinator, run: nat, e: Entry, active: map<Text, nat>)
    requires Results(c) && run < |c.entries|
    requires e.outcome == c.entries[run].outcome || (e.outcome.Some? && e.outcome.value.ByCancellation?)
    ensures Results(Update(c, run, e).(active := active))
  {
    var d := Update(c, run, e).(active := active);
    forall r | 0 <= r < |d.entries| ensures ResultOfTask(d, r) { assert ResultOfTask(c, r); }
  }

  lemma {:induction false} SettleResults(c: Coordinator, run: nat, result: TaskResult)
    requires Results(c) && run < |c.entries|
    ensures Results(Log(Update(c, run, SettleEntry(c.entries[run], ByTask(result))), Settled(run, result)))
  {
    var d := Log(Update(c, run, SettleEntry(c.entries[run], ByTask(result))), Settled(run, result));
    assert d.calls[..|d.calls| - 1] == c.calls;
    forall r | 0 <= r < |d.entries| ensures ResultOfTask(d, r) { assert ResultOfTask(c, r); }
  }

  lemma {:induction false} StartResults(c: Coordinator, op: Op)
    requires Results(c) && WellFormed(c) && op.Start?
    ensures Results(Exec(c, op))
  {
    var d := Exec(c, op);
    if |d.entries| > |c.entries| { NeverSettled(c.calls, |c.entries|); }
    forall r | 0 <= r < |d.entries| ensures ResultOfTask(d, r) { if r < |c.entries| { assert ResultOfTask(c, r); } }
  }

  lemma {:induction false} FinishResults(c: Coordinator, run: nat)
    requires Results(c) && WellFormed(c)
    ensures Results(Exec(c, Finish(run)))
  {
    var d := Exec(c, Finish(run));
    forall r | 0 <= r < |d.entries| ensures ResultOfTask(d, r) { assert ResultOfTask(c, r); }
  }

  lemma {:induction false} CancelResourceResults(c: Coordinator, resource: nat, reaction: Reaction)
    requires Results(c) && WellFormed(c)
    ensures Results(CancelResource(c, resource, reaction))
    decreases reaction, 0, 0
  {
    LogResults(c, Abort(resource));
    ExecAllResults(Log(c, Abort(resource)), reaction.abort);
    var c1 := ExecAll(Log(c, Abort(resource)), reaction.abort);
    LogResults(c1, Dispose(resource));
    ExecAllResults(Log(c1, Dispose(resource)), reaction.dispose);
  }

  lemma {:induction false} ReleaseResults(c: Coordinator, run: nat, reaction: Reaction)
    requires Results(c) && WellFormed(c) && run < |c.entries|
    ensures Results(ReleaseOnCancel(c, run, reaction))
    decreases reaction, 0, 1
  {
    if c.entries[run].resource.Some? {
      var resource := c.entries[run].resource.value;
      LogResults(c, Taken(run, resource));
      CancelResourceResults(Log(c, Taken(run, resource)), resource, reaction);
      var d := CancelResource(Log(c, Taken(run, resource)), resource, reaction);
      UpdateResults(d, run, d.entries[run].(resource := None), d.active);
    }
  }

  lemma {:induction false} CancelResults(c: Coordinator, id: Text, reason: Reason, reaction: Reaction)
    requires Results(c) && WellFormed(c)
    ensures Results(ExecCancel(c, id, reason, reaction))
    decreases reaction, 1
  {
    if id in c.active {
      var run := c.active[id];
      UpdateResults(c, run, c.entries[run].(armed := false, reason := Some(reason)), c.active - {id});
      var c1 := Aborted(c, id, run, reason);
      ExecAllResults(c1, reaction.signal);
      ReleaseResults(ExecAll(c1, reaction.signal), run, reaction);
      var c2 := ReleaseOnCancel(ExecAll(c1, reaction.signal), run, reaction);
      UpdateResults(c2, run, SettleEntry(c2.entries[run], ByCancellation(reason)), c2.active);
    }
  }

  lemma {:induction false} ExecAllResults(c: Coordinator, ops: seq<Op>)
    requires Results(c) && WellFormed(c)
    ensures Results(ExecAll(c, ops))
    decreases ops, 3
  {
    if ops != [] {
      ExecResults(c, ops[0]);
      ExecAllResults(Exec(c, ops[0]), ops[1..]);
    }
  }

  lemma {:induction false} ExecResults(c: Coordinator, op: Op)
    requires Results(c) && WellFormed(c)
    ensures Results(Exec(c, op))
    decreases op, 2
  {
    match op {
      case Start(_, _) => StartResults(c, op);
      case Settle(run, result) => if run < |c.entries| { SettleResults(c, run, result); }
      case Finish(run) => FinishResults(c, run);
      case Cancel(id, reason, reaction) => CancelResults(c, id, reason, reaction);
      case CancelAll(cancels) => if Covers(c.active.Keys, cancels) { ExecAllResults(c, cancels); }
      case Fire(run, reaction) =>
        if run < |c.entries| && c.entries[run].armed {
          var e := c.entries[run];
          UpdateResults(c, run, e.(armed := false), c.active);
          CancelResults(Update(c, run, e.(armed := false)), e.id, Timeout(e.timeoutMs), reaction);
        }
      case SetResource(run, resource, reaction) =>
        if run < |c.entries| {
          if c.entries[run].reason.Some? {
            LogResults(c, Taken(run, resource));
            CancelResourceResults(Log(c, Taken(run, resource)), resource, reaction);
          } else {
            UpdateResults(c, run, c.entries[run].(resource := Some(resource)), c.active);
            LogResults(Update(c, run, c.entries[run].(resource := Some(resource))), Registered(run, resource));
          }
        }
      case ClearResource(run, resource) =>
        if run < |c.entries| && c.entries[run].resource == Some(resource) {
          UpdateResults(c, run, c.entries[run].(resource := None), c.active);
          LogResults(Update(c, run, c.entries[run].(resource := None)), Cleared(run, resource));
        }
    }
  }

  /* ---- Main results, for every history of operations ---- */

  function After(ops: seq<Op>): Coordinator { ExecAll(IDLE, ops) }

  lemma {:induction false} AfterInv(ops: seq<Op>)
    ensures Inv(After(ops), {})
  {
    ExecAllKeeps(IDLE, ops, {});
  }

  /** The registry holds exactly the runs neither cancelled nor finished, each under its own id, and
      an armed timer belongs to the run registered under that id. */
  lemma {:induction false} RegistryIsExact(ops: seq<Op>, run: nat)
    requires run < |After(ops).entries|
    ensures var c := After(ops); var e := c.entries[run];
            && ((e.id in c.active && c.active[e.id] == run) <==> (e.reason.None? && !e.finished))
            && (e.armed <==> (e.id in c.active && c.active[e.id] == run))
            && (forall id | id in c.active && c.active[id] == run :: id == e.id)
  {
    AfterInv(ops);
    assert EntryInv(After(ops), run, {});
  }

  /** A timer, a late settlement or the finally block of one run leaves every other run registered
      as it was; and a timer that fires cancels its own run. */
  lemma {:induction false} OwnRunOnly(ops: seq<Op>, run: nat, result: TaskResult, other: nat)
    requires run < |After(ops).entries| && other < |After(ops).entries| && other != run
    ensures var c := After(ops); var e := c.entries[other];
            && Exec(c, Settle(run, result)).entries[other] == e && Exec(c, Settle(run, result)).active == c.active
            && Exec(c, Finish(run)).entries[other] == e
            && (e.id in c.active && c.active[e.id] == other ==>
                  e.id in Exec(c, Finish(run)).active && Exec(c, Finish(run)).active[e.id] == other)
            && (c.entries[run].armed ==> c.entries[run].id in c.active && c.active[c.entries[run].id] == run)
  {
    AfterInv(ops);
    assert EntryInv(After(ops), run, {}) && EntryInv(After(ops), other, {});
  }

  /** The id has a run that is neither cancelled nor finished. */
  ghost predicate Busy(c: Coordinator, id: Text) {
    exists r :: 0 <= r < |c.entries| && c.entries[r].id == id && c.entries[r].reason.None? && !c.entries[r].finished
  }

  lemma {:induction false} BusyIsActive(c: Coordinator, id: Text)
    requires Inv(c, {})
    ensures Busy(c, id) <==> id in c.active
  {
    if id in c.active {
      var r := c.active[id];
      assert EntryInv(c, r, {}) && c.entries[r].id == id;
    }
    if r :| 0 <= r < |c.entries| && c.entries[r].id == id && c.entries[r].reason.None? && !c.entries[r].finished {
      assert EntryInv(c, r, {});
    }
  }

  /** run() starts a query exactly when its id has no run that is neither cancelled nor finished and its
      timeout is positive.  It then adds one run, registered under the id with its timer armed, and
      touches no other; a refused call changes nothing. */
  lemma {:induction false} StartRegistersIff(ops: seq<Op>, id: Text, timeoutMs: Option<real>)
    ensures var c := After(ops); var d := Exec(c, Start(id, timeoutMs)); var n := |c.entries|;
            && (|d.entries| == n + 1 <==> !Busy(c, id) && timeoutMs.Some? && timeoutMs.value > 0.0)
            && (|d.entries| == n + 1 ==>
                  && d.entries[..n] == c.entries && d.calls == c.calls
                  && id in d.active && d.active[id] == n && d.active - {id} == c.active
                  && d.entries[n].id == id && d.entries[n].timeoutMs == timeoutMs.value && d.entries[n].armed
                  && d.entries[n].reason == None && d.entries[n].outcome == None && !d.entries[n].finished
                  && d.entries[n].resource == None)
            && (|d.entries| != n + 1 ==> d == c)
  {
    AfterInv(ops);
    BusyIsActive(After(ops), id);
  }

  /** setResource on a run that is not cancelled registers the resource, in place of any other, and
      touches nothing else; clearResource of the registered one leaves the run without. */
  lemma {:induction false} SetResourceRegisters(ops: seq<Op>, run: nat, resource: nat, reaction: Reaction)
    requires run < |After(ops).entries| && After(ops).entries[run].reason.None?
    ensures var c := After(ops); var d := Exec(c, SetResource(run, resource, reaction)); var e := Exec(d, ClearResource(run, resource));
            && d.calls == c.calls + [Registered(run, resource)] && d.active == c.active
            && |d.entries| == |c.entries| && d.entries[run] == c.entries[run].(resource := Some(resource))
            && (forall r | 0 <= r < |c.entries| && r != run :: d.entries[r] == c.entries[r])
            && Held(d.calls, run) == Some(resource)
            && e.entries[run].resource == None && Held(e.calls, run) == None
            && forall other | other != resource :: Exec(d, ClearResource(run, other)) == d
  {
    AfterInv(ops);
    SetResourceKeeps(After(ops), run, resource, reaction, {});
    var d := Exec(After(ops), SetResource(run, resource, reaction));
    ClearResourceKeeps(d, run, resource, {});
    assert EntryInv(d, run, {}) && EntryInv(Exec(d, ClearResource(run, resource)), run, {});
  }

  /** The finally block of a settled run leaves it finished, without timer and unregistered, so its id
      can be used again, and keeps how it settled. */
  lemma {:induction false} FinishUnregisters(ops: seq<Op>, run: nat)
    requires run < |After(ops).entries| && After(ops).entries[run].outcome.Some?
    ensures var c := After(ops); var d := Exec(c, Finish(run)); var id := c.entries[run].id;
            && d.entries[run] == c.entries[run].(finished := true, armed := false)
            && !(id in d.active && d.active[id] == run)
            && (c.entries[run].reason.None? && !c.entries[run].finished ==> !Busy(d, id))
            && d.calls == c.calls
  {
    AfterInv(ops);
    FinishKeeps(After(ops), Finish(run), {});
    var c := After(ops);
    var d := Exec(c, Finish(run));
    assert EntryInv(c, run, {}) && EntryInv(d, run, {});
    BusyIsActive(d, c.entries[run].id);
    BusyIsActive(c, c.entries[run].id);
  }

  /** What was registered at i for its run, and not replaced, cleared or taken since, is still held. */
  lemma {:induction false} HeldSince(calls: seq<Call>, i: nat)
    requires i < |calls| && calls[i].Registered? && !Replaced(calls, i, |calls|)
    ensures Held(calls, calls[i].run) == Some(calls[i].resource)
  {
    var n := |calls| - 1;
    if i < n {
      var before := calls[..n];
      assert before[i] == calls[i];
      assert forall k | i < k < n :: before[k] == calls[k];
      HeldSince(before, i);
      assert !Ends(calls[n], calls[i]);
    }
  }

  /** The call registers another resource for the run, or clears or takes this one. */
  predicate Ends(call: Call, registered: Call)
    requires registered.Registered?
  {
    match call
    case Registered(run, _) => run == registered.run
    case Cleared(run, resource) => run == registered.run && resource == registered.resource
    case Taken(run, resource) => run == registered.run && resource == registered.resource
    case _ => false
  }

  predicate Replaced(calls: seq<Call>, i: nat, n: nat)
    requires i < |calls| && calls[i].Registered? && n <= |calls|
  {
    exists k :: i < k < n && Ends(calls[k], calls[i])
  }

  /** Once a run is cancelled, every resource it ever registered was replaced by another registration,
      cleared by the task, or taken, and every one taken was aborted and disposed of. */
  lemma {:induction false} NoResourceStaysLive(ops: seq<Op>, run: nat)
    requires run < |After(ops).entries| && After(ops).entries[run].reason.Some?
    ensures var calls := After(ops).calls;
            && After(ops).entries[run].resource == None && Held(calls, run) == None
            && AllReleased(calls)
            && forall i | 0 <= i < |calls| && calls[i].Registered? && calls[i].run == run :: Replaced(calls, i, |calls|)
  {
    AfterInv(ops);
    assert EntryInv(After(ops), run, {});
    var calls := ExecAllReleases(IDLE, ops);
    assert [] + calls == calls;
    forall i | 0 <= i < |calls| && calls[i].Registered? && calls[i].run == run ensures Replaced(calls, i, |calls|) {
      if !Replaced(calls, i, |calls|) { HeldSince(calls, i); }
    }
  }

  lemma {:induction false} HeldThrough(a: seq<Call>, b: seq<Call>, run: nat, resource: nat)
    ensures Held(a, run) == Some(resource) && (forall k | 0 <= k < |b| :: !Ends(b[k], Registered(run, resource)))
            ==> Held(a + b, run) == Some(resource)
    decreases |b|
  {
    if b == [] {
      assert a + b == a;
    } else {
      var n := |b| - 1;
      HeldThrough(a, b[..n], run, resource);
      assert (a + b)[..|a + b| - 1] == a + b[..n];
      assert (a + b)[|a + b| - 1] == b[n];
    }
  }

  /** The resource registered when cancel(id) is called is aborted and disposed of before it returns,
      unless a callback clears it first, and nothing is registered for the run from there on. */
  lemma {:induction false} HeldResourceIsReleased(ops: seq<Op>, id: Text, reason: Reason, reaction: Reaction, resource: nat)
    requires id in After(ops).active && After(ops).entries[After(ops).active[id]].resource == Some(resource)
    ensures var run := After(ops).active[id]; var n := |After(ops).calls|;
            var calls := Exec(After(ops), Cancel(id, reason, reaction)).calls;
            && n <= |calls| && calls[..n] == After(ops).calls
            && (forall k | n <= k < |calls| :: !(calls[k].Registered? && calls[k].run == run))
            && exists k :: n <= k < |calls|
                           && (calls[k] == Cleared(run, resource)
                               || (calls[k] == Taken(run, resource) && ReleasedAfter(calls, k, resource)))
  {
    var run := After(ops).active[id];
    AfterInv(ops);
    assert EntryInv(After(ops), run, {});
    CancelledHoldsNothing(ops, id, reason, reaction);
    var more := CancelHistory(ops, id, reason, reaction);
    ReleasedInHistory(After(ops).calls, more, run, resource);
    assert LetsGo(After(ops).calls, more, run, resource);
  }

  lemma {:induction false} CancelHistory(ops: seq<Op>, id: Text, reason: Reason, reaction: Reaction) returns (more: seq<Call>)
    requires id in After(ops).active
    ensures Exec(After(ops), Cancel(id, reason, reaction)).calls == After(ops).calls + more && AllReleased(more)
    ensures forall k | 0 <= k < |more| :: !(more[k].Registered? && more[k].run == After(ops).active[id])
  {
    more := CancelReleases(After(ops), id, reason, reaction);
    assert Aborted(After(ops), id, After(ops).active[id], reason).entries[After(ops).active[id]].reason.Some?;
  }

  /** These calls, made after the calls in a, let the resource go: they clear it, or take and release it. */
  ghost predicate LetsGo(a: seq<Call>, b: seq<Call>, run: nat, resource: nat) {
    exists k :: |a| <= k < |a + b|
                && ((a + b)[k] == Cleared(run, resource)
                    || ((a + b)[k] == Taken(run, resource) && ReleasedAfter(a + b, k, resource)))
  }

  lemma {:induction false} ReleasedInHistory(a: seq<Call>, b: seq<Call>, run: nat, resource: nat)
    ensures Held(a, run) == Some(resource) && Held(a + b, run) == None && AllReleased(b)
            && (forall k | 0 <= k < |b| :: !(b[k].Registered? && b[k].run == run))
            ==> LetsGo(a, b, run, resource)
  {
    HeldThrough(a, b, run, resource);
    if k :| 0 <= k < |b| && Ends(b[k], Registered(run, resource)) {
      assert (a + b)[|a| + k] == b[k];
      ReleasedShift(a, b, k);
    }
  }

  lemma {:induction false} CancelledHoldsNothing(ops: seq<Op>, id: Text, reason: Reason, reaction: Reaction)
    requires id in After(ops).active
    ensures Held(Exec(After(ops), Cancel(id, reason, reaction)).calls, After(ops).active[id]) == None
  {
    AfterInv(ops);
    ExecCancelKeeps(After(ops), id, reason, reaction, {});
    assert EntryInv(Exec(After(ops), Cancel(id, reason, reaction)), After(ops).active[id], {});
  }

  lemma {:induction false} ReleasedShift(a: seq<Call>, b: seq<Call>, k: nat)
    ensures AllReleased(b) && k < |b| && b[k].Taken? ==> ReleasedAfter(a + b, |a| + k, b[k].resource)
  {
    if AllReleased(b) && k < |b| && b[k].Taken? {
      var resource := b[k].resource;
      assert ReleasedAfter(b, k, resource);
      var i, j :| k < i < j < |b| && b[i] == Abort(resource) && b[j] == Dispose(resource);
      assert (a + b)[|a| + i] == b[i] && (a + b)[|a| + j] == b[j];
    }
  }

  /** A resource registered after the cancellation is taken at once, whatever its callbacks do. */
  lemma {:induction false} LateResourceIsTaken(ops: seq<Op>, run: nat, resource: nat, reaction: Reaction)
    requires run < |After(ops).entries| && After(ops).entries[run].reason.Some?
    ensures var d := Exec(After(ops), SetResource(run, resource, reaction)); var n := |After(ops).calls|;
            && n < |d.calls| && d.calls[..n] == After(ops).calls && d.calls[n] == Taken(run, resource)
            && ReleasedAfter(d.calls, n, resource) && d.entries[run].resource == None
  {
    var c := After(ops);
    var more := TakeReleases(c, run, resource, reaction);
    ReleasedShift(c.calls, more, 0);
    LateResourceIsNotKept(ops, run, resource, reaction);
  }

  lemma {:induction false} LateResourceIsNotKept(ops: seq<Op>, run: nat, resource: nat, reaction: Reaction)
    requires run < |After(ops).entries| && After(ops).entries[run].reason.Some?
    ensures Exec(After(ops), SetResource(run, resource, reaction)).entries[run].resource == None
  {
    AfterInv(ops);
    SetResourceKeeps(After(ops), run, resource, reaction, {});
    assert EntryInv(Exec(After(ops), SetResource(run, resource, reaction)), run, {});
  }

  /** A run settles once, with the first result its task settled with or with its own cancellation
      reason; a cancelled run is settled. */
  lemma {:induction false} SettlesOnce(ops: seq<Op>, more: seq<Op>, run: nat)
    requires run < |After(ops).entries|
    ensures var c := After(ops); var d := ExecAll(c, more); var e := c.entries[run];
            && run < |d.entries|
            && (e.outcome.Some? ==> d.entries[run].outcome == e.outcome)
            && (e.reason.Some? ==> d.entries[run].reason == e.reason && e.outcome.Some?)
            && (e.outcome.Some? && e.outcome.value.ByCancellation? ==> e.reason == Some(e.outcome.value.why))
            && (e.outcome.Some? && e.outcome.value.ByTask? ==> FirstSettled(c.calls, run) == Some(e.outcome.value.result))
            && (e.outcome.None? ==> FirstSettled(c.calls, run) == None)
  {
    AfterInv(ops);
    assert EntryInv(After(ops), run, {});
    ExecAllKeeps(After(ops), more, {});
    ExecAllResults(IDLE, ops);
    assert ResultOfTask(After(ops), run);
  }

  /** What cancel(id) leaves behind, however its callbacks re-enter the coordinator. */
  lemma {:induction false} CancelCancels(ops: seq<Op>, id: Text, reason: Reason, reaction: Reaction)
    requires id in After(ops).active
    ensures var run := After(ops).active[id]; var d := Exec(After(ops), Cancel(id, reason, reaction));
            && d.entries[run].reason == Some(reason) && d.entries[run].outcome.Some? && d.entries[run].resource == None
            && !d.entries[run].armed && !(id in d.active && d.active[id] == run)
  {
    AfterInv(ops);
    var run := After(ops).active[id];
    ExecCancelKeeps(After(ops), id, reason, reaction, {});
    assert EntryInv(Exec(After(ops), Cancel(id, reason, reaction)), run, {});
  }

  lemma {:induction false} CancelsCancel(c: Coordinator, cancels: seq<Op>, run: nat)
    requires Inv(c, {}) && run < |c.entries|
    requires forall op | op in cancels :: op.Cancel?
    requires exists op | op in cancels :: op.id == c.entries[run].id
    ensures var e := ExecAll(c, cancels).entries[run]; e.reason.Some? || e.finished
    decreases |cancels|
  {
    var d := Exec(c, cancels[0]);
    ExecKeeps(c, cancels[0], {});
    assert EntryInv(c, run, {});
    if c.entries[run].reason.Some? || c.entries[run].finished {
      ExecAllKeeps(c, cancels, {});
    } else if cancels[0].id == c.entries[run].id {
      ExecCancelKeeps(c, cancels[0].id, cancels[0].reason, cancels[0].reaction, {});
      ExecAllKeeps(d, cancels[1..], {});
    } else {
      CancelsCancel(d, cancels[1..], run);
    }
  }

  /** cancelAll leaves none of the runs that were registered when it was called. */
  lemma {:induction false} CancelAllCancels(ops: seq<Op>, cancels: seq<Op>, id: Text)
    requires Covers(After(ops).active.Keys, cancels) && id in After(ops).active
    ensures var run := After(ops).active[id]; var d := Exec(After(ops), CancelAll(cancels));
            (d.entries[run].reason.Some? || d.entries[run].finished) && !(id in d.active && d.active[id] == run)
  {
    var c := After(ops);
    AfterInv(ops);
    assert EntryInv(c, c.active[id], {});
    CancelsCancel(c, cancels, c.active[id]);
    ExecAllKeeps(c, cancels, {});
    assert EntryInv(ExecAll(c, cancels), c.active[id], {});
  }
}
