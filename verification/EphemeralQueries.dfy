/** What the query coordinator of packages/pi-agent-server/src/ephemeral-query-lifecycle.ts does,
    on values.  A run is named by its position in entries, which stands for the identity of its
    entry object.  Callbacks run synchronously inside an operation and may perform operations of
    their own: each operation carries the finite list of operations its callbacks perform.  A
    callback that throws is one whose list ends there, because the coordinator catches it. */
module EphemeralQueries {
  import opened JsText
  import opened Wrappers

  datatype Reason = Timeout(ms: real) | Cancelled(message: Text)
  /** What the task's promise settles with, and what run() settles with. */
  datatype TaskResult = Value(value: nat) | TaskError(error: nat)
  datatype Outcome = ByTask(result: TaskResult) | ByCancellation(why: Reason)

  /** signal: listeners of the abort signal; abort, dispose: the resource's own callbacks. */
  datatype Reaction = Reaction(signal: seq<Op>, abort: seq<Op>, dispose: seq<Op>)

  datatype Op =
    | Start(id: Text, timeoutMs: Option<real>)
    | Settle(run: nat, result: TaskResult)
    | Finish(run: nat)
    | Fire(run: nat, reaction: Reaction)
    | Cancel(id: Text, reason: Reason, reaction: Reaction)
    | CancelAll(cancels: seq<Op>)
    | SetResource(run: nat, resource: nat, reaction: Reaction)
    | ClearResource(run: nat, resource: nat)

  datatype Entry = Entry(
    id: Text, timeoutMs: real, armed: bool, reason: Option<Reason>,
    resource: Option<nat>, outcome: Option<Outcome>, finished: bool)

  /** The history of a coordinator: what tasks settled with, what was registered and released, and
      which resource callbacks ran.  Taken: the coordinator is about to cancel the resource. */
  datatype Call =
    | Settled(run: nat, result: TaskResult)
    | Registered(run: nat, resource: nat)
    | Cleared(run: nat, resource: nat)
    | Taken(run: nat, resource: nat)
    | Abort(resource: nat)
    | Dispose(resource: nat)

  datatype Coordinator = Coordinator(active: map<Text, nat>, entries: seq<Entry>, calls: seq<Call>)

  const IDLE := Coordinator(map[], [], [])

  predicate WellFormed(c: Coordinator) {
    forall id | id in c.active :: c.active[id] < |c.entries|
  }

  function Log(c: Coordinator, call: Call): Coordinator { c.(calls := c.calls + [call]) }

  function Update(c: Coordinator, run: nat, e: Entry): Coordinator
    requires run < |c.entries|
  {
    c.(entries := c.entries[run := e])
  }

  /** The promise of a run settles once; later settlements are ignored. */
  function SettleEntry(e: Entry, outcome: Outcome): Entry {
    if e.outcome.None? then e.(outcome := Some(outcome)) else e
  }

  predicate ValidTimeout(t: Option<real>) { t.Some? && t.value > 0.0 }

  /** The snapshot of keys that cancelAll walks. */
  predicate Covers(ids: set<Text>, cancels: seq<Op>) {
    && (forall op | op in cancels :: op.Cancel?)
    && (forall i, j | 0 <= i < j < |cancels| :: cancels[i].id != cancels[j].id && cancels[i].reason == cancels[j].reason)
    && (forall op | op in cancels :: op.id in ids)
    && (forall id | id in ids :: exists op | op in cancels :: op.id == id)
  }

  /** Runs are only added; each keeps its id, and stays cancelled once it is. */
  predicate Extends(c: Coordinator, d: Coordinator) {
    && WellFormed(d) && |c.entries| <= |d.entries|
    && (forall r | 0 <= r < |c.entries| ::
          d.entries[r].id == c.entries[r].id && (c.entries[r].reason.Some? ==> d.entries[r].reason.Some?))
  }

  function Unregister(c: Coordinator, run: nat): Coordinator
    requires run < |c.entries|
  {
    if c.entries[run].id in c.active && c.active[c.entries[run].id] == run then
      Update(c, run, c.entries[run].(armed := false)).(active := c.active - {c.entries[run].id})
    else c
  }

  function Exec(c: Coordinator, op: Op): (d: Coordinator)
    requires WellFormed(c)
    ensures Extends(c, d)
    decreases op, 2
  {
    match op
    case Start(id, timeoutMs) =>
      if id in c.active || !ValidTimeout(timeoutMs) then c
      else Coordinator(c.active[id := |c.entries|],
                       c.entries + [Entry(id, timeoutMs.value, true, None, None, None, false)], c.calls)
    case Settle(run, result) =>
      if run < |c.entries| then Log(Update(c, run, SettleEntry(c.entries[run], ByTask(result))), Settled(run, result)) else c
    case Finish(run) =>
      if run < |c.entries| && c.entries[run].outcome.Some? && !c.entries[run].finished then
        Unregister(Update(c, run, c.entries[run].(finished := true)), run)
      else c
    case Fire(run, reaction) =>
      if run < |c.entries| && c.entries[run].armed then
        var e := c.entries[run];
        ExecCancel(Update(c, run, e.(armed := false)), e.id, Timeout(e.timeoutMs), reaction)
      else c
    case Cancel(id, reason, reaction) => ExecCancel(c, id, reason, reaction)
    case CancelAll(cancels) => if Covers(c.active.Keys, cancels) then ExecAll(c, cancels) else c
    case SetResource(run, resource, reaction) =>
      if run >= |c.entries| then c
      else if c.entries[run].reason.Some? then
        CancelResource(Log(c, Taken(run, resource)), resource, reaction)
      else Log(Update(c, run, c.entries[run].(resource := Some(resource))), Registered(run, resource))
    case ClearResource(run, resource) =>
      if run < |c.entries| && c.entries[run].resource == Some(resource) then
        Log(Update(c, run, c.entries[run].(resource := None)), Cleared(run, resource))
      else c
  }

  function ExecAll(c: Coordinator, ops: seq<Op>): (d: Coordinator)
    requires WellFormed(c)
    ensures Extends(c, d)
    decreases ops, 3
  {
    if ops == [] then c else ExecAll(Exec(c, ops[0]), ops[1..])
  }

  /** cancel(id): the entry is removed and its timer cleared before any callback runs. */
  function ExecCancel(c: Coordinator, id: Text, reason: Reason, reaction: Reaction): (d: Coordinator)
    requires WellFormed(c)
    ensures Extends(c, d)
    decreases reaction, 1
  {
    if id !in c.active then c
    else
      var run := c.active[id];
      var c1 := ExecAll(Aborted(c, id, run, reason), reaction.signal);
      var c2 := ReleaseOnCancel(c1, run, reaction);
      Update(c2, run, SettleEntry(c2.entries[run], ByCancellation(reason)))
  }

  function Aborted(c: Coordinator, id: Text, run: nat, reason: Reason): (d: Coordinator)
    requires WellFormed(c) && run < |c.entries|
    ensures Extends(c, d)
  {
    var e := c.entries[run];
    Update(c, run, e.(armed := false, reason := Some(reason))).(active := c.active - {id})
  }

  function ReleaseOnCancel(c: Coordinator, run: nat, reaction: Reaction): (d: Coordinator)
    requires WellFormed(c) && run < |c.entries|
    ensures Extends(c, d)
    decreases reaction, 0, 1
  {
    match c.entries[run].resource
    case None => c
    case Some(resource) =>
      var d := CancelResource(Log(c, Taken(run, resource)), resource, reaction);
      Update(d, run, d.entries[run].(resource := None))
  }

  function CancelResource(c: Coordinator, resource: nat, reaction: Reaction): (d: Coordinator)
    requires WellFormed(c)
    ensures Extends(c, d)
    decreases reaction, 0, 0
  {
    ExecAll(Log(ExecAll(Log(c, Abort(resource)), reaction.abort), Dispose(resource)), reaction.dispose)
  }

  /* ---- Invariant ---- */

  /** The resource a run was left holding by its history. */
  function Held(calls: seq<Call>, run: nat): Option<nat> {
    if calls == [] then None
    else
      match calls[|calls| - 1]
      case Registered(r, x) => if r == run then Some(x) else Held(calls[..|calls| - 1], run)
      case Cleared(r, x) => if r == run && Held(calls[..|calls| - 1], run) == Some(x) then None else Held(calls[..|calls| - 1], run)
      case Taken(r, x) => if r == run && Held(calls[..|calls| - 1], run) == Some(x) then None else Held(calls[..|calls| - 1], run)
      case _ => Held(calls[..|calls| - 1], run)
  }

  /** busy: the runs whose cancel() is still on the stack. */
  ghost predicate EntryInv(c: Coordinator, run: nat, busy: set<nat>)
    requires run < |c.entries|
  {
    var e := c.entries[run];
    var registered := e.id in c.active && c.active[e.id] == run;
    && (registered <==> e.reason.None? && !e.finished)
    && (registered <==> e.armed)
    && (e.finished ==> e.outcome.Some?)
    && (e.outcome.Some? && e.outcome.value.ByCancellation? ==> e.reason == Some(e.outcome.value.why))
    && (run !in busy && e.reason.Some? ==> e.resource == None && e.outcome.Some?)
    && (e.resource == Held(c.calls, run) || (run in busy && Held(c.calls, run) == None))
  }

  predicate Known(c: Coordinator, call: Call) { call.Abort? || call.Dispose? || call.run < |c.entries| }

  ghost predicate Inv(c: Coordinator, busy: set<nat>) {
    && WellFormed(c)
    && (forall call | call in c.calls :: Known(c, call))
    && (forall id | id in c.active :: c.entries[c.active[id]].id == id)
    && (forall r | 0 <= r < |c.entries| :: EntryInv(c, r, busy))
  }

  /** What no operation takes back: a run settles once, is cancelled for one reason, finishes once,
      and after its cancellation registers nothing. */
  ghost predicate Progress(c: Coordinator, d: Coordinator) {
    && |c.entries| <= |d.entries|
    && (forall r | 0 <= r < |c.entries| ::
          && d.entries[r].id == c.entries[r].id
          && (c.entries[r].outcome.Some? ==> d.entries[r].outcome == c.entries[r].outcome)
          && (c.entries[r].reason.Some? ==> d.entries[r].reason == c.entries[r].reason)
          && (c.entries[r].finished ==> d.entries[r].finished)
          && (c.entries[r].reason.Some? && Held(c.calls, r) == None ==> Held(d.calls, r) == None))
  }

  lemma {:induction false} HeldLog(c: Coordinator, call: Call, run: nat)
    ensures Held(Log(c, call).calls, run) ==
            match call
            case Registered(r, x) => if r == run then Some(x) else Held(c.calls, run)
            case Cleared(r, x) => if r == run && Held(c.calls, run) == Some(x) then None else Held(c.calls, run)
            case Taken(r, x) => if r == run && Held(c.calls, run) == Some(x) then None else Held(c.calls, run)
            case _ => Held(c.calls, run)
  {
    assert (c.calls + [call])[..|c.calls + [call]| - 1] == c.calls;
  }

  /** A call that says nothing about registrations. */
  lemma {:induction false} PlainLogKeeps(c: Coordinator, call: Call, busy: set<nat>)
    requires Inv(c, busy) && (call.Abort? || call.Dispose?)
    ensures Inv(Log(c, call), busy) && Progress(c, Log(c, call))
  {
    forall r | 0 <= r < |c.entries| ensures EntryInv(Log(c, call), r, busy) && Held(Log(c, call).calls, r) == Held(c.calls, r) {
      HeldLog(c, call, r);
      assert EntryInv(c, r, busy);
    }
  }

  lemma {:induction false} CancelResourceKeeps(c: Coordinator, resource: nat, reaction: Reaction, busy: set<nat>)
    requires Inv(c, busy)
    ensures Inv(CancelResource(c, resource, reaction), busy) && Progress(c, CancelResource(c, resource, reaction))
    decreases reaction, 0, 0
  {
    PlainLogKeeps(c, Abort(resource), busy);
    var c1 := Log(c, Abort(resource));
    ExecAllKeeps(c1, reaction.abort, busy);
    var c2 := ExecAll(c1, reaction.abort);
    PlainLogKeeps(c2, Dispose(resource), busy);
    ExecAllKeeps(Log(c2, Dispose(resource)), reaction.dispose, busy);
  }

  lemma {:induction false} ExecAllKeeps(c: Coordinator, ops: seq<Op>, busy: set<nat>)
    requires Inv(c, busy)
    ensures Inv(ExecAll(c, ops), busy) && Progress(c, ExecAll(c, ops))
    decreases ops, 3
  {
    if ops != [] {
      ExecKeeps(c, ops[0], busy);
      ExecAllKeeps(Exec(c, ops[0]), ops[1..], busy);
    }
  }

  lemma {:induction false} AbortedKeeps(c: Coordinator, id: Text, reason: Reason, busy: set<nat>)
    requires Inv(c, busy) && id in c.active
    ensures var run := c.active[id]; var d := Aborted(c, id, run, reason);
            Inv(d, busy + {run}) && Progress(c, d) && d.entries[run].reason == Some(reason)
  {
    var run := c.active[id];
    var d := Aborted(c, id, run, reason);
    assert EntryInv(c, run, busy);
    forall r | 0 <= r < |d.entries| ensures EntryInv(d, r, busy + {run}) { assert EntryInv(c, r, busy); }
  }

  lemma {:induction false} TakenLogKeeps(c: Coordinator, run: nat, resource: nat, busy: set<nat>)
    requires Inv(c, busy) && run < |c.entries|
    requires run in busy || c.entries[run].resource == None
    ensures Inv(Log(c, Taken(run, resource)), busy) && Progress(c, Log(c, Taken(run, resource)))
    ensures c.entries[run].resource == Some(resource) ==> Held(Log(c, Taken(run, resource)).calls, run) == None
  {
    var d := Log(c, Taken(run, resource));
    forall r | 0 <= r < |d.entries| ensures EntryInv(d, r, busy) && (Held(c.calls, r) == None ==> Held(d.calls, r) == None) {
      HeldLog(c, Taken(run, resource), r);
      assert EntryInv(c, r, busy);
    }
    HeldLog(c, Taken(run, resource), run);
    assert EntryInv(c, run, busy);
  }

  lemma {:induction false} ForgetKeeps(c: Coordinator, run: nat, busy: set<nat>)
    requires Inv(c, busy) && run < |c.entries| && run in busy && Held(c.calls, run) == None
    ensures var d := Update(c, run, c.entries[run].(resource := None)); Inv(d, busy) && Progress(c, d)
  {
    var d := Update(c, run, c.entries[run].(resource := None));
    forall r | 0 <= r < |d.entries| ensures EntryInv(d, r, busy) { assert EntryInv(c, r, busy); }
  }

  lemma {:induction false} ReleaseKeeps(c: Coordinator, run: nat, reaction: Reaction, busy: set<nat>)
    requires Inv(c, busy) && run < |c.entries| && run in busy && c.entries[run].reason.Some?
    ensures var d := ReleaseOnCancel(c, run, reaction);
            Inv(d, busy) && Progress(c, d) && d.entries[run].resource == None && Held(d.calls, run) == None
    decreases reaction, 0, 1
  {
    assert EntryInv(c, run, busy);
    if c.entries[run].resource.Some? {
      var resource := c.entries[run].resource.value;
      var c1 := Log(c, Taken(run, resource));
      TakenLogKeeps(c, run, resource, busy);
      CancelResourceKeeps(c1, resource, reaction, busy);
      var c2 := CancelResource(c1, resource, reaction);
      ForgetKeeps(c2, run, busy);
      ProgressOn(c, c1, c2);
      ProgressOn(c, c2, ReleaseOnCancel(c, run, reaction));
    }
  }

  lemma {:induction false} ProgressOn(c: Coordinator, d: Coordinator, e: Coordinator)
    requires Progress(c, d) && Progress(d, e)
    ensures Progress(c, e)
  {
  }

  /** The end of cancel(): the run's promise is rejected and the run leaves the stack. */
  lemma {:induction false} RejectKeeps(c: Coordinator, run: nat, reason: Reason, busy: set<nat>)
    requires Inv(c, busy + {run}) && run < |c.entries| && c.entries[run].reason == Some(reason)
    requires c.entries[run].resource == None && Held(c.calls, run) == None
    ensures var d := Update(c, run, SettleEntry(c.entries[run], ByCancellation(reason)));
            Inv(d, busy) && Progress(c, d)
  {
    var d := Update(c, run, SettleEntry(c.entries[run], ByCancellation(reason)));
    forall r | 0 <= r < |d.entries| ensures EntryInv(d, r, busy) { assert EntryInv(c, r, busy + {run}); }
  }

  lemma {:induction false} ExecCancelKeeps(c: Coordinator, id: Text, reason: Reason, reaction: Reaction, busy: set<nat>)
    requires Inv(c, busy)
    ensures var d := ExecCancel(c, id, reason, reaction);
            && Inv(d, busy) && Progress(c, d)
            && (id in c.active ==> d.entries[c.active[id]].reason == Some(reason) && d.entries[c.active[id]].outcome.Some?)
    decreases reaction, 1
  {
    if id in c.active {
      var run := c.active[id];
      AbortedKeeps(c, id, reason, busy);
      var c0 := Aborted(c, id, run, reason);
      ExecAllKeeps(c0, reaction.signal, busy + {run});
      var c1 := ExecAll(c0, reaction.signal);
      ReleaseKeeps(c1, run, reaction, busy + {run});
      var c2 := ReleaseOnCancel(c1, run, reaction);
      RejectKeeps(c2, run, reason, busy);
      ProgressOn(c, c0, c1);
      ProgressOn(c, c1, c2);
      ProgressOn(c, c2, ExecCancel(c, id, reason, reaction));
    }
  }

  lemma {:induction false} ExecKeeps(c: Coordinator, op: Op, busy: set<nat>)
    requires Inv(c, busy)
    ensures Inv(Exec(c, op), busy) && Progress(c, Exec(c, op))
    decreases op, 2
  {
    var d := Exec(c, op);
    match op {
      case Cancel(id, reason, reaction) => ExecCancelKeeps(c, id, reason, reaction, busy);
      case CancelAll(cancels) => if Covers(c.active.Keys, cancels) { ExecAllKeeps(c, cancels, busy); }
      case Fire(run, reaction) =>
        if run < |c.entries| && c.entries[run].armed { FireCancelsItsRun(c, run, reaction, busy); ExecCancelKeeps(c, c.entries[run].id, Timeout(c.entries[run].timeoutMs), reaction, busy); }
      case SetResource(run, resource, reaction) => SetResourceKeeps(c, run, resource, reaction, busy);
      case ClearResource(run, resource) => ClearResourceKeeps(c, run, resource, busy);
      case _ => PlainKeeps(c, op, busy);
    }
  }

  /** The operations that run no callback. */
  lemma {:induction false} PlainKeeps(c: Coordinator, op: Op, busy: set<nat>)
    requires Inv(c, busy) && (op.Start? || op.Settle? || op.Finish?)
    ensures Inv(Exec(c, op), busy) && Progress(c, Exec(c, op))
  {
    match op {
      case Start(_, _) => StartKeeps(c, op, busy);
      case Settle(_, _) => SettleKeeps(c, op, busy);
      case Finish(_) => FinishKeeps(c, op, busy);
    }
  }

  lemma {:induction false} StartKeeps(c: Coordinator, op: Op, busy: set<nat>)
    requires Inv(c, busy) && op.Start?
    ensures Inv(Exec(c, op), busy) && Progress(c, Exec(c, op))
  {
    var d := Exec(c, op);
    if |d.entries| > |c.entries| { HeldNothing(c.calls, |c.entries|); }
    forall r | 0 <= r < |d.entries| ensures EntryInv(d, r, busy) { if r < |c.entries| { assert EntryInv(c, r, busy); } }
  }

  lemma {:induction false} SettleKeeps(c: Coordinator, op: Op, busy: set<nat>)
    requires Inv(c, busy) && op.Settle?
    ensures Inv(Exec(c, op), busy) && Progress(c, Exec(c, op))
  {
    var d := Exec(c, op);
    if op.run < |c.entries| {
      var c1 := Update(c, op.run, SettleEntry(c.entries[op.run], ByTask(op.result)));
      forall r | 0 <= r < |d.entries| ensures EntryInv(d, r, busy) && Held(d.calls, r) == Held(c.calls, r) {
        HeldLog(c1, Settled(op.run, op.result), r);
        assert EntryInv(c, r, busy);
      }
    }
  }

  lemma {:induction false} FinishKeeps(c: Coordinator, op: Op, busy: set<nat>)
    requires Inv(c, busy) && op.Finish?
    ensures Inv(Exec(c, op), busy) && Progress(c, Exec(c, op))
  {
    var d := Exec(c, op);
    forall r | 0 <= r < |d.entries| ensures EntryInv(d, r, busy) { assert EntryInv(c, r, busy); }
  }

  /** An armed timer belongs to the run now registered under its id, so firing cancels that run. */
  lemma {:induction false} FireCancelsItsRun(c: Coordinator, run: nat, reaction: Reaction, busy: set<nat>)
    requires Inv(c, busy) && run < |c.entries| && c.entries[run].armed
    ensures c.entries[run].id in c.active && c.active[c.entries[run].id] == run
    ensures Exec(c, Fire(run, reaction)) == ExecCancel(c, c.entries[run].id, Timeout(c.entries[run].timeoutMs), reaction)
  {
    var e := c.entries[run];
    assert EntryInv(c, run, busy);
    var c0 := Update(c, run, e.(armed := false));
    assert Aborted(c0, e.id, run, Timeout(e.timeoutMs)).entries == Aborted(c, e.id, run, Timeout(e.timeoutMs)).entries;
  }

  lemma {:induction false} HeldNothing(calls: seq<Call>, run: nat)
    requires forall call | call in calls :: call.Abort? || call.Dispose? || call.run != run
    ensures Held(calls, run) == None
  {
    if calls != [] { HeldNothing(calls[..|calls| - 1], run); }
  }

  lemma {:induction false} SetResourceKeeps(c: Coordinator, run: nat, resource: nat, reaction: Reaction, busy: set<nat>)
    requires Inv(c, busy)
    ensures var d := Exec(c, SetResource(run, resource, reaction)); Inv(d, busy) && Progress(c, d)
    decreases reaction, 0, 1
  {
    if run < |c.entries| {
      assert EntryInv(c, run, busy);
      if c.entries[run].reason.Some? {
        var c1 := Log(c, Taken(run, resource));
        TakenLogKeeps(c, run, resource, busy);
        CancelResourceKeeps(c1, resource, reaction, busy);
        ProgressOn(c, c1, CancelResource(c1, resource, reaction));
      } else {
        var c1 := Update(c, run, c.entries[run].(resource := Some(resource)));
        var d := Log(c1, Registered(run, resource));
        forall r | 0 <= r < |d.entries| ensures EntryInv(d, r, busy) && (r != run ==> Held(d.calls, r) == Held(c.calls, r)) {
          HeldLog(c1, Registered(run, resource), r);
          assert EntryInv(c, r, busy);
        }
      }
    }
  }

  lemma {:induction false} ClearResourceKeeps(c: Coordinator, run: nat, resource: nat, busy: set<nat>)
    requires Inv(c, busy)
    ensures var d := Exec(c, ClearResource(run, resource)); Inv(d, busy) && Progress(c, d)
  {
    var d := Exec(c, ClearResource(run, resource));
    if run < |c.entries| && c.entries[run].resource == Some(resource) {
      var c1 := Update(c, run, c.entries[run].(resource := None));
      forall r | 0 <= r < |d.entries| ensures EntryInv(d, r, busy) && (Held(c.calls, r) == None ==> Held(d.calls, r) == None) {
        HeldLog(c1, Cleared(run, resource), r);
        assert EntryInv(c, r, busy);
      }
    }
  }

  /* ---- Released resources ---- */

  /** After position i the resource was aborted and then disposed of. */
  ghost predicate ReleasedAfter(calls: seq<Call>, i: nat, resource: nat) {
    exists j, k :: i < j < k < |calls| && calls[j] == Abort(resource) && calls[k] == Dispose(resource)
  }

  /** Every resource the coordinator took was then both aborted and disposed of. */
  ghost predicate AllReleased(calls: seq<Call>) {
    forall i | 0 <= i < |calls| && calls[i].Taken? :: ReleasedAfter(calls, i, calls[i].resource)
  }

  /** Among these later calls, nothing is registered for a run that is cancelled in c. */
  ghost predicate Quiet(c: Coordinator, calls: seq<Call>) {
    forall k | 0 <= k < |calls| && calls[k].Registered? && calls[k].run < |c.entries| :: c.entries[calls[k].run].reason.None?
  }

  lemma {:induction false} QuietConcat(c: Coordinator, d: Coordinator, a: seq<Call>, b: seq<Call>)
    requires Extends(c, d) && Quiet(c, a) && Quiet(d, b)
    ensures Quiet(c, a + b)
  {
    var ab := a + b;
    forall k | 0 <= k < |ab| && ab[k].Registered? && ab[k].run < |c.entries| ensures c.entries[ab[k].run].reason.None? {
      if k < |a| { assert ab[k] == a[k]; } else { assert ab[k] == b[k - |a|]; }
    }
  }

  lemma {:induction false} AllReleasedConcat(a: seq<Call>, b: seq<Call>)
    requires AllReleased(a) && AllReleased(b)
    ensures AllReleased(a + b)
  {
    var ab := a + b;
    forall i | 0 <= i < |ab| && ab[i].Taken? ensures ReleasedAfter(ab, i, ab[i].resource) {
      if i < |a| {
        assert ReleasedAfter(a, i, a[i].resource);
        var j, k :| i < j < k < |a| && a[j] == Abort(a[i].resource) && a[k] == Dispose(a[i].resource);
        assert ab[j] == a[j] && ab[k] == a[k];
      } else {
        assert ReleasedAfter(b, i - |a|, b[i - |a|].resource);
        var j, k :| i - |a| < j < k < |b| && b[j] == Abort(b[i - |a|].resource) && b[k] == Dispose(b[i - |a|].resource);
        assert ab[|a| + j] == b[j] && ab[|a| + k] == b[k];
      }
    }
  }

  /** The calls a cancelled resource gets, with those its callbacks cause in between. */
  lemma {:induction false} TakenIsReleased(run: nat, resource: nat, a: seq<Call>, b: seq<Call>)
    requires AllReleased(a) && AllReleased(b)
    ensures AllReleased([Taken(run, resource), Abort(resource)] + a + [Dispose(resource)] + b)
  {
    AllReleasedConcat(a, [Dispose(resource)]);
    AllReleasedConcat(a + [Dispose(resource)], b);
    var rest := a + [Dispose(resource)] + b;
    var all := [Taken(run, resource), Abort(resource)] + rest;
    assert all == [Taken(run, resource), Abort(resource)] + a + [Dispose(resource)] + b;
    assert all[1] == Abort(resource) && all[2 + |a|] == Dispose(resource);
    assert ReleasedAfter(all, 0, resource);
    forall i | 0 <= i < |all| && all[i].Taken? ensures ReleasedAfter(all, i, all[i].resource) {
      if i >= 2 {
        assert ReleasedAfter(rest, i - 2, rest[i - 2].resource);
        var j, k :| i - 2 < j < k < |rest| && rest[j] == Abort(rest[i - 2].resource) && rest[k] == Dispose(rest[i - 2].resource);
        assert all[j + 2] == rest[j] && all[k + 2] == rest[k];
      }
    }
  }

  lemma {:induction false} TakeReleases(c: Coordinator, run: nat, resource: nat, reaction: Reaction) returns (calls: seq<Call>)
    requires WellFormed(c)
    ensures CancelResource(Log(c, Taken(run, resource)), resource, reaction).calls == c.calls + calls
    ensures AllReleased(calls) && Quiet(c, calls) && calls != [] && calls[0] == Taken(run, resource)
    decreases reaction, 0, 0
  {
    var c1 := Log(Log(c, Taken(run, resource)), Abort(resource));
    var a := ExecAllReleases(c1, reaction.abort);
    var c2 := Log(ExecAll(c1, reaction.abort), Dispose(resource));
    var b := ExecAllReleases(c2, reaction.dispose);
    calls := [Taken(run, resource), Abort(resource)] + a + [Dispose(resource)] + b;
    TakenIsReleased(run, resource, a, b);
    QuietConcat(c, c1, [Taken(run, resource), Abort(resource)], a);
    QuietConcat(c, c2, [Taken(run, resource), Abort(resource)] + a, [Dispose(resource)]);
    QuietConcat(c, c2, [Taken(run, resource), Abort(resource)] + a + [Dispose(resource)], b);
    assert c.calls + calls == c.calls + [Taken(run, resource)] + [Abort(resource)] + a + [Dispose(resource)] + b;
  }

  lemma {:induction false} ExecAllReleases(c: Coordinator, ops: seq<Op>) returns (calls: seq<Call>)
    requires WellFormed(c)
    ensures ExecAll(c, ops).calls == c.calls + calls && AllReleased(calls) && Quiet(c, calls)
    decreases ops, 3
  {
    calls := [];
    if ops != [] {
      var first := ExecReleases(c, ops[0]);
      var rest := ExecAllReleases(Exec(c, ops[0]), ops[1..]);
      AllReleasedConcat(first, rest);
      QuietConcat(c, Exec(c, ops[0]), first, rest);
      calls := first + rest;
      assert c.calls + calls == (c.calls + first) + rest;
    }
  }

  lemma {:induction false} ReleaseReleases(c: Coordinator, run: nat, reaction: Reaction) returns (calls: seq<Call>)
    requires WellFormed(c) && run < |c.entries|
    ensures ReleaseOnCancel(c, run, reaction).calls == c.calls + calls && AllReleased(calls) && Quiet(c, calls)
    decreases reaction, 0, 1
  {
    calls := [];
    if c.entries[run].resource.Some? { calls := TakeReleases(c, run, c.entries[run].resource.value, reaction); }
  }

  /** cancel() from its abort on: nothing more is registered for the run either. */
  lemma {:induction false} AbortReleases(c: Coordinator, run: nat, reaction: Reaction) returns (calls: seq<Call>)
    requires WellFormed(c) && run < |c.entries|
    ensures ReleaseOnCancel(ExecAll(c, reaction.signal), run, reaction).calls == c.calls + calls
    ensures AllReleased(calls) && Quiet(c, calls)
    decreases reaction, 1, 0
  {
    var first := ExecAllReleases(c, reaction.signal);
    var more := ReleaseReleases(ExecAll(c, reaction.signal), run, reaction);
    AllReleasedConcat(first, more);
    QuietConcat(c, ExecAll(c, reaction.signal), first, more);
    calls := first + more;
    assert c.calls + calls == (c.calls + first) + more;
  }

  lemma {:induction false} CancelReleases(c: Coordinator, id: Text, reason: Reason, reaction: Reaction) returns (calls: seq<Call>)
    requires WellFormed(c)
    ensures ExecCancel(c, id, reason, reaction).calls == c.calls + calls && AllReleased(calls) && Quiet(c, calls)
    ensures id in c.active ==> Quiet(Aborted(c, id, c.active[id], reason), calls)
    decreases reaction, 1, 1
  {
    calls := [];
    if id in c.active {
      var c0 := Aborted(c, id, c.active[id], reason);
      calls := AbortReleases(c0, c.active[id], reaction);
      QuietConcat(c, c0, [], calls);
      assert [] + calls == calls;
    }
  }

  /** Whatever an operation adds to the history, it releases every resource it takes, and registers
      nothing for a run that was cancelled before. */
  lemma {:induction false} ExecReleases(c: Coordinator, op: Op) returns (calls: seq<Call>)
    requires WellFormed(c)
    ensures Exec(c, op).calls == c.calls + calls && AllReleased(calls) && Quiet(c, calls)
    decreases op, 2
  {
    calls := [];
    match op {
      case Settle(run, result) => if run < |c.entries| { calls := [Settled(run, result)]; }
      case Cancel(id, reason, reaction) => calls := CancelReleases(c, id, reason, reaction);
      case CancelAll(cancels) => if Covers(c.active.Keys, cancels) { calls := ExecAllReleases(c, cancels); }
      case Fire(run, reaction) =>
        if run < |c.entries| && c.entries[run].armed {
          var e := c.entries[run];
          calls := CancelReleases(Update(c, run, e.(armed := false)), e.id, Timeout(e.timeoutMs), reaction);
        }
      case SetResource(run, resource, reaction) =>
        if run < |c.entries| {
          if c.entries[run].reason.Some? { calls := TakeReleases(c, run, resource, reaction); }
          else { calls := [Registered(run, resource)]; }
        }
      case ClearResource(run, resource) =>
        if run < |c.entries| && c.entries[run].resource == Some(resource) { calls := [Cleared(run, resource)]; }
      case _ =>
    }
  }
}
