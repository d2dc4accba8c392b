/** The coordinator as it updates its entries in place, proved to do what EphemeralQueries.Exec says. */
module EphemeralQueryCoordinator {
  import opened JsText
  import opened Wrappers
  import opened EphemeralQueries

  /** An active query's record; the closures of run() keep a reference to it after it is removed. */
  class QueryEntry {
    const id: Text
    const timeoutMs: real
    var armed: bool
    var reason: Option<Reason>
    var resource: Option<nat>
    var outcome: Option<Outcome>
    var finished: bool

    constructor (id: Text, timeoutMs: real)
      ensures Value() == Entry(id, timeoutMs, true, None, None, None, false)
    {
      this.id, this.timeoutMs := id, timeoutMs;
      armed, reason, resource, outcome, finished := true, None, None, None, false;
    }

    function Value(): Entry
      reads this
    {
      Entry(id, timeoutMs, armed, reason, resource, outcome, finished)
    }

    /** Settling the promise of run(): only the first settlement counts. */
    method Settle(result: Outcome)
      modifies this
      ensures Value() == SettleEntry(old(Value()), result)
    {
      if outcome.None? { outcome := Some(result); }
    }

    /** Clearing the timer and aborting the signal. */
    method Abort(why: Reason)
      modifies this
      ensures Value() == old(Value()).(armed := false, reason := Some(why))
    {
      armed := false;
      reason := Some(why);
    }
  }

  /** runs: the entries that closures of past and present queries refer to. */
  class QueryCoordinator {
    var active: map<Text, QueryEntry>
    var runs: seq<QueryEntry>
    ghost var view: Coordinator

    ghost predicate Valid()
      reads this, runs
    {
      && WellFormed(view)
      && |runs| == |view.entries|
      && (forall i, j | 0 <= i < j < |runs| :: runs[i] != runs[j])
      && (forall i | 0 <= i < |runs| :: runs[i].Value() == view.entries[i])
      && active.Keys == view.active.Keys
      && (forall id | id in active :: active[id] == runs[view.active[id]])
    }

    constructor ()
      ensures Valid() && view == IDLE && runs == []
    {
      active, runs, view := map[], [], IDLE;
    }

    /** run(): everything before its first await. */
    method Run(id: Text, timeoutMs: Option<real>)
      requires Valid()
      modifies this
      ensures Valid() && view == Exec(old(view), Start(id, timeoutMs))
      ensures old(runs) <= runs && forall i | |old(runs)| <= i < |runs| :: fresh(runs[i])
      ensures if id in old(active) || !ValidTimeout(timeoutMs) then runs == old(runs) && active == old(active)
              else |runs| == |old(runs)| + 1 && active == old(active)[id := runs[|old(runs)|]]
                   && runs[|old(runs)|].Value() == Entry(id, timeoutMs.value, true, None, None, None, false)
    {
      if id !in active && ValidTimeout(timeoutMs) {
        var entry := new QueryEntry(id, timeoutMs.value);
        active := active[id := entry];
        runs := runs + [entry];
        view := Exec(view, Start(id, timeoutMs));
      }
    }

    /** The finally block of run(). */
    method FinishRun(run: nat)
      requires Valid() && run < |runs|
      modifies this, runs[run]
      ensures Valid() && view == Exec(old(view), Finish(run)) && runs == old(runs)
    {
      var entry := runs[run];
      if entry.outcome.Some? && !entry.finished {
        entry.finished := true;
        view := Update(view, run, view.entries[run].(finished := true));
        UnregisterRun(run);
      }
    }

    /** Only its own registration: the id may belong to a newer run by now. */
    method UnregisterRun(run: nat)
      requires Valid() && run < |runs|
      modifies this, runs[run]
      ensures Valid() && view == Unregister(old(view), run) && runs == old(runs)
    {
      var entry := runs[run];
      if entry.id in active && active[entry.id] == entry {
        active := active - {entry.id};
        entry.armed := false;
        view := Unregister(view, run);
      }
    }

    method SettleRun(run: nat, result: TaskResult)
      requires Valid() && run < |runs|
      modifies this, runs[run]
      ensures Valid() && view == Exec(old(view), Settle(run, result)) && runs == old(runs)
    {
      runs[run].Settle(ByTask(result));
      view := Exec(view, Settle(run, result));
    }

    method Clear(run: nat, resource: nat)
      requires Valid() && run < |runs|
      modifies this, runs[run]
      ensures Valid() && view == Exec(old(view), ClearResource(run, resource)) && runs == old(runs)
    {
      if runs[run].resource == Some(resource) {
        runs[run].resource := None;
        view := Exec(view, ClearResource(run, resource));
      }
    }

    method Set(run: nat, resource: nat, reaction: Reaction)
      requires Valid() && run < |runs|
      modifies this, runs
      ensures Valid() && view == Exec(old(view), SetResource(run, resource, reaction))
      ensures old(runs) <= runs && forall i | |old(runs)| <= i < |runs| :: fresh(runs[i])
      ensures old(runs[run].reason).None? ==>
                && runs == old(runs) && active == old(active)
                && runs[run].Value() == old(runs[run].Value()).(resource := Some(resource))
                && forall i | 0 <= i < |runs| && i != run :: runs[i].Value() == old(runs[i].Value())
      decreases reaction, 0, 1
    {
      if runs[run].reason.Some? {
        view := Log(view, Taken(run, resource));
        Release(resource, reaction);
      } else {
        runs[run].resource := Some(resource);
        view := Exec(view, SetResource(run, resource, reaction));
      }
    }

    /** cancelResource(): abort, then dispose, whatever the callbacks do. */
    method Release(resource: nat, reaction: Reaction)
      requires Valid()
      modifies this, runs
      ensures Valid() && view == CancelResource(old(view), resource, reaction)
      ensures old(runs) <= runs && forall i | |old(runs)| <= i < |runs| :: fresh(runs[i])
      decreases reaction, 0, 0
    {
      view := Log(view, Abort(resource));
      PerformAll(reaction.abort);
      view := Log(view, Dispose(resource));
      PerformAll(reaction.dispose);
    }

    /** The part of cancel() before its callbacks: remove the entry, clear its timer, abort its signal. */
    method AbortEntry(id: Text, reason: Reason) returns (entry: QueryEntry)
      requires Valid() && id in active
      modifies this, active[id]
      ensures Valid() && view == Aborted(old(view), id, old(view.active[id]), reason)
      ensures runs == old(runs) && entry == runs[old(view.active[id])]
    {
      entry := active[id];
      ghost var run := view.active[id];
      active := active - {id};
      entry.Abort(reason);
      view := Aborted(view, id, run, reason);
    }

    method ReleaseEntry(entry: QueryEntry, ghost run: nat, reaction: Reaction)
      requires Valid() && run < |runs| && entry == runs[run]
      modifies this, runs
      ensures Valid() && view == ReleaseOnCancel(old(view), run, reaction)
      ensures old(runs) <= runs && forall i | |old(runs)| <= i < |runs| :: fresh(runs[i])
      decreases reaction, 0, 1
    {
      if entry.resource.Some? {
        var resource := entry.resource.value;
        view := Log(view, Taken(run, resource));
        Release(resource, reaction);
        ForgetResource(entry, run);
      }
    }

    method ForgetResource(entry: QueryEntry, ghost run: nat)
      requires Valid() && run < |runs| && entry == runs[run]
      modifies this, entry
      ensures Valid() && view == Update(old(view), run, old(view).entries[run].(resource := None)) && runs == old(runs)
    {
      entry.resource := None;
      view := Update(view, run, view.entries[run].(resource := None));
    }

    method RejectEntry(entry: QueryEntry, ghost run: nat, reason: Reason)
      requires Valid() && run < |runs| && entry == runs[run]
      modifies this, entry
      ensures Valid() && view == Update(old(view), run, SettleEntry(old(view).entries[run], ByCancellation(reason)))
      ensures runs == old(runs)
    {
      entry.Settle(ByCancellation(reason));
      view := Update(view, run, SettleEntry(view.entries[run], ByCancellation(reason)));
    }

    /** The part of cancel() from the abort signal's listeners on. */
    method ReleaseAndReject(entry: QueryEntry, ghost run: nat, reason: Reason, reaction: Reaction)
      requires Valid() && run < |runs| && entry == runs[run]
      modifies this, runs
      ensures Valid()
      ensures var released := ReleaseOnCancel(ExecAll(old(view), reaction.signal), run, reaction);
              view == Update(released, run, SettleEntry(released.entries[run], ByCancellation(reason)))
      ensures old(runs) <= runs && forall i | |old(runs)| <= i < |runs| :: fresh(runs[i])
      decreases reaction, 0, 2
    {
      PerformAll(reaction.signal);
      ReleaseEntry(entry, run, reaction);
      RejectEntry(entry, run, reason);
    }

    /** cancel(): remove and clear first, because callbacks can re-enter. */
    method CancelId(id: Text, reason: Reason, reaction: Reaction) returns (cancelled: bool)
      requires Valid()
      modifies this, runs
      ensures Valid() && view == ExecCancel(old(view), id, reason, reaction)
      ensures cancelled == (id in old(view).active)
      ensures old(runs) <= runs && forall i | |old(runs)| <= i < |runs| :: fresh(runs[i])
      decreases reaction, 1
    {
      if id !in active { return false; }
      ghost var run := view.active[id];
      var entry := AbortEntry(id, reason);
      ReleaseAndReject(entry, run, reason, reaction);
      return true;
    }

    /** The deadline timer of a run. */
    method FireTimer(run: nat, reaction: Reaction)
      requires Valid() && run < |runs|
      modifies this, runs
      ensures Valid() && view == Exec(old(view), Fire(run, reaction))
      ensures old(runs) <= runs && forall i | |old(runs)| <= i < |runs| :: fresh(runs[i])
      decreases reaction, 2
    {
      var entry := runs[run];
      if entry.armed {
        entry.armed := false;
        view := Update(view, run, view.entries[run].(armed := false));
        var _ := CancelId(entry.id, Timeout(entry.timeoutMs), reaction);
      }
    }

    /** One operation that a caller, a callback or the event loop brings about. */
    method Perform(op: Op)
      requires Valid()
      modifies this, runs
      ensures Valid() && view == Exec(old(view), op)
      ensures old(runs) <= runs && forall i | |old(runs)| <= i < |runs| :: fresh(runs[i])
      decreases op, 2
    {
      match op {
        case Start(id, timeoutMs) => Run(id, timeoutMs);
        case Settle(run, result) => if run < |runs| { SettleRun(run, result); }
        case Finish(run) => if run < |runs| { FinishRun(run); }
        case Fire(run, reaction) => if run < |runs| { FireTimer(run, reaction); }
        case Cancel(id, reason, reaction) => var _ := CancelId(id, reason, reaction);
        case CancelAll(cancels) => if Covers(active.Keys, cancels) { PerformAll(cancels); }
        case SetResource(run, resource, reaction) => if run < |runs| { Set(run, resource, reaction); }
        case ClearResource(run, resource) => if run < |runs| { Clear(run, resource); }
      }
    }

    /** Operations one after another: the callbacks of one resource, or the loop of cancelAll(). */
    method PerformAll(ops: seq<Op>)
      requires Valid()
      modifies this, runs
      ensures Valid() && view == ExecAll(old(view), ops)
      ensures old(runs) <= runs && forall i | |old(runs)| <= i < |runs| :: fresh(runs[i])
      decreases ops, 3
    {
      for i := 0 to |ops|
        invariant Valid() && ExecAll(view, ops[i..]) == ExecAll(old(view), ops)
        invariant old(runs) <= runs && forall i | |old(runs)| <= i < |runs| :: fresh(runs[i])
      {
        assert ops[i..][0] == ops[i] && ops[i..][1..] == ops[i + 1..];
        Perform(ops[i]);
      }
    }
  }
}
