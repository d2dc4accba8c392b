/** What the answer of a request says, in every interleaving: which of its own calls, in which state of
    the store, led to an error, and what it committed. */
module PagesAnswers {
  import opened Wrappers
  import opened PagesProtocol
  import opened PagesInvariant
  import opened PagesSafety

  /** A call that fails, for whatever reason, at a place where the request must have its result. */
  predicate CallFails(c: Choice) { c.Call? && !c.outcome.Succeeds? }

  /** The page is not there for this request: no manifest or, for an update, one that is a tombstone. */
  predicate NotFound(s: Store, req: Request)
    requires !req.CreateRequest?
  {
    match Stored(s, req.id)
    case None => true
    case Some(r) => req.UpdateRequest? && r.admin == req.admin && r.status.Unpublished?
  }

  /** The page is there and its admin token is another one. */
  predicate WrongToken(s: Store, req: Request)
    requires !req.CreateRequest?
  {
    Stored(s, req.id).Some? && Stored(s, req.id).value.admin != req.admin
  }

  /** The call at which a request that answers with this error went wrong. */
  predicate Causes(s: Store, req: Request, pc: Pc, c: Choice, answer: nat) {
    var loads := !req.CreateRequest? && (pc.Authorize? || pc.RevokeLoad?);
    match answer
    case 401 => loads && c == Call(Succeeds) && WrongToken(s, req)
    case 404 => loads && c == Call(Succeeds) && NotFound(s, req)
    case 409 =>
      || (c == Call(Refused)
          && (pc.RenewSave? || (pc.SaveBundle? && !req.CreateRequest?) || (pc.RevokeSave? && pc.attempt + 1 >= REVOKE_ATTEMPTS)))
      || (pc.Reload? && c == Call(Succeeds) && !req.CreateRequest? && Stored(s, req.id).None?)
    case 500 =>
      || (CallFails(c) && (loads || pc.Reload?))
      || (c == Call(Throws) && pc.RenewSave?)
    case 503 =>
      || (CallFails(c) && (pc.PutPart? || pc.RenewPut? || (pc.SaveBundle? && req.CreateRequest?)))
      || (c == Call(Throws) && (pc.SaveBundle? || pc.RevokeSave?))
      || (pc.RenewGet? && pc.todo != [] && (CallFails(c) || (c.Call? && pc.loaded.Key(pc.todo[0]) !in s.blobs)))
    case _ => false
  }

  /** The request has this answer, or will have it once its clean-up is done. */
  predicate Settled(pc: Pc, answer: nat) { (pc.Done? || pc.Discard?) && pc.answer == answer }

  predicate IsError(answer: nat) { answer != 200 && answer != 201 }

  /** A step leads to an error exactly by the calls listed. */
  ghost predicate Exact(s: Store, rid: nat, job: Job, c: Choice, answer: nat) {
    Settled(StepJob(s, rid, job, c).1, answer)
    <==> Settled(job.pc, answer) || Causes(s, job.request, job.pc, c, answer)
  }

  lemma {:induction false} LoadsExact(s: Store, rid: nat, job: Job, c: Choice, answer: nat)
    requires JobInv(s, rid, job) && IsError(answer) && (job.pc.Authorize? || job.pc.RevokeLoad? || job.pc.Reload?)
    ensures Exact(s, rid, job, c, answer)
  {
  }

  lemma {:induction false} WritesExact(s: Store, rid: nat, job: Job, c: Choice, answer: nat)
    requires JobInv(s, rid, job) && IsError(answer)
    requires job.pc.Prepare? || job.pc.PutPart? || job.pc.Discard? || job.pc.Supersede? || job.pc.RenewPut? || job.pc.SweepDelete?
    ensures Exact(s, rid, job, c, answer)
  {
  }

  lemma {:induction false} RenewsExact(s: Store, rid: nat, job: Job, c: Choice, answer: nat)
    requires JobInv(s, rid, job) && IsError(answer)
    requires job.pc.RenewGet? || job.pc.RenewStamp? || job.pc.SweepList? || job.pc.Done?
    ensures Exact(s, rid, job, c, answer)
  {
  }

  lemma {:induction false} SavesExact(s: Store, rid: nat, job: Job, c: Choice, answer: nat)
    requires JobInv(s, rid, job) && IsError(answer)
    requires job.pc.SaveBundle? || job.pc.RenewSave? || job.pc.RevokeSave? || job.pc.SweepSave?
    ensures Exact(s, rid, job, c, answer)
  {
  }

  lemma {:induction false} StepExact(s: Store, rid: nat, job: Job, c: Choice, answer: nat)
    requires JobInv(s, rid, job) && IsError(answer)
    ensures Exact(s, rid, job, c, answer)
  {
    var pc := job.pc;
    if pc.Authorize? || pc.RevokeLoad? || pc.Reload? { LoadsExact(s, rid, job, c, answer); }
    else if pc.SaveBundle? || pc.RenewSave? || pc.RevokeSave? || pc.SweepSave? { SavesExact(s, rid, job, c, answer); }
    else if pc.RenewGet? || pc.RenewStamp? || pc.SweepList? || pc.Done? { RenewsExact(s, rid, job, c, answer); }
    else { WritesExact(s, rid, job, c, answer); }
  }

  /** The i-th event is the call of this request that led to the error. */
  ghost predicate Caused(events: seq<Event>, rid: nat, i: nat, answer: nat) {
    && i < |events| && events[i].Act? && events[i].request == rid
    && var s := Reached(events[..i]);
    && rid in s.jobs
    && Causes(s.store, s.jobs[rid].request, s.jobs[rid].pc, events[i].choice, answer)
  }

  lemma {:induction false} ReachedLast(events: seq<Event>)
    requires events != []
    ensures Reached(events) == Step(Reached(events[..|events| - 1]), events[|events| - 1])
  {
    var front, last := events[..|events| - 1], events[|events| - 1];
    RunAppend(EMPTY, front, [last]);
    assert front + [last] == events && [last][1..] == [];
    assert Run(Step(Reached(front), last), []) == Step(Reached(front), last);
  }

  lemma {:induction false} CausedEarlier(events: seq<Event>, n: nat, rid: nat, i: nat, answer: nat)
    requires n <= |events| && i < n
    ensures Caused(events, rid, i, answer) == Caused(events[..n], rid, i, answer)
  {
    assert events[..n][..i] == events[..i];
  }

  lemma {:induction false} SettledIff(events: seq<Event>, rid: nat, answer: nat)
    requires rid in Reached(events).jobs && IsError(answer)
    ensures Settled(Reached(events).jobs[rid].pc, answer) <==> exists i :: Caused(events, rid, i, answer)
    decreases |events|
  {
    if events != [] {
      var n := |events| - 1;
      var front, last := events[..n], events[n];
      ReachedLast(events);
      ReachedInv(front);
      forall i | 0 <= i < n ensures Caused(events, rid, i, answer) == Caused(front, rid, i, answer) {
        CausedEarlier(events, n, rid, i, answer);
      }
      if rid in Reached(front).jobs {
        SettledIff(front, rid, answer);
        if last.Act? && last.request == rid {
          StepExact(Reached(front).store, rid, Reached(front).jobs[rid], last.choice, answer);
        }
        SettledLast(events, rid, answer);
      } else {
        NoCause(events, rid, answer);
      }
    }
  }

  /** The last event settles the request or leaves it as it was. */
  lemma {:induction false} SettledLast(events: seq<Event>, rid: nat, answer: nat)
    requires events != [] && IsError(answer)
    requires var front := events[..|events| - 1];
             && rid in Reached(front).jobs && rid in Reached(events).jobs
             && Reached(events) == Step(Reached(front), events[|events| - 1])
             && (events[|events| - 1].Act? && events[|events| - 1].request == rid ==>
                   Exact(Reached(front).store, rid, Reached(front).jobs[rid], events[|events| - 1].choice, answer))
    ensures Settled(Reached(events).jobs[rid].pc, answer)
            <==> Settled(Reached(events[..|events| - 1]).jobs[rid].pc, answer) || Caused(events, rid, |events| - 1, answer)
  {
  }

  /** A request that has just arrived, or has not, has made no call. */
  lemma {:induction false} NoCause(events: seq<Event>, rid: nat, answer: nat)
    requires events != [] && rid !in Reached(events[..|events| - 1]).jobs && IsError(answer)
    requires rid in Reached(events).jobs && Reached(events) == Step(Reached(events[..|events| - 1]), events[|events| - 1])
    ensures !Settled(Reached(events).jobs[rid].pc, answer) && forall i :: !Caused(events, rid, i, answer)
  {
    forall i: nat ensures !Caused(events, rid, i, answer) {
      if i < |events| - 1 { JobsStay(events[..i], events[i..|events| - 1], rid);
        assert events[..i] + events[i..|events| - 1] == events[..|events| - 1]; }
    }
  }

  lemma {:induction false} JobsStay(first: seq<Event>, second: seq<Event>, rid: nat)
    ensures rid in Reached(first).jobs ==> rid in Reached(first + second).jobs
  {
    RunAppend(EMPTY, first, second);
    JobsGrow(Reached(first), second, rid);
  }

  lemma {:induction false} JobsGrow(s: State, events: seq<Event>, rid: nat)
    ensures rid in s.jobs ==> rid in Run(s, events).jobs
    decreases |events|
  {
    if events != [] { JobsGrow(Step(s, events[0]), events[1..], rid); }
  }

  lemma {:induction false} AnswerHolds(events: seq<Event>, rid: nat)
    requires rid in Reached(events).jobs && Reached(events).jobs[rid].pc.Done?
    ensures var s := Reached(events); var request := s.jobs[rid].request;
            && Answered(s.store, rid, request, s.jobs[rid].pc.answer)
            && forall e | e in s.store.log && e.request == rid :: Committed(s.store, request, e)
  {
    ReachedInv(events);
    assert JobInv(Reached(events).store, rid, Reached(events).jobs[rid]);
  }

  /** A finished request answered with an error exactly when one of its own calls went wrong as listed for
      that error: 401 and 404 by what the store held when it loaded the manifest, 409 by a refused
      conditional put or a tombstone that was gone when read back, 500 and 503 by a call that failed or,
      for a password change, an object that was missing.  With every other schedule it answers 200 or 201.
      A success committed exactly the request's own change, on its own page and, for a bundle, under a
      revision drawn for its own upload; an error committed nothing; an unpublish answered with 200 left
      the tombstone as the page's last record.  Only an unpublish that lost its tombstone again, or could
      not read it back, answers an error after its change. */
  lemma {:induction false} AnswersMatchCommits(events: seq<Event>, rid: nat)
    requires rid in Reached(events).jobs && Reached(events).jobs[rid].pc.Done?
    ensures var s := Reached(events); var request := s.jobs[rid].request; var answer := s.jobs[rid].pc.answer;
            && (forall error | IsError(error) :: answer == error <==> exists i :: Caused(events, rid, i, error))
            && Answered(s.store, rid, request, answer)
            && forall e | e in s.store.log && e.request == rid :: Committed(s.store, request, e)
  {
    AnswerHolds(events, rid);
    forall error | IsError(error)
      ensures Reached(events).jobs[rid].pc.answer == error <==> exists i :: Caused(events, rid, i, error)
    {
      SettledIff(events, rid, error);
    }
  }

  /* ---- An unpublish tries three times ---- */

  /** The next event is a refused put of this request's tombstone. */
  predicate Refusal(s: State, rid: nat, e: Event) {
    e == Act(rid, Call(Refused)) && rid in s.jobs && s.jobs[rid].pc.RevokeSave?
  }

  function Refusals(events: seq<Event>, rid: nat): nat {
    if events == [] then 0
    else
      var front := events[..|events| - 1];
      Refusals(front, rid) + if Refusal(Reached(front), rid, events[|events| - 1]) then 1 else 0
  }

  /** The number of tombstones refused so far, by where the request stands. */
  predicate Counts(pc: Pc, refusals: nat) {
    match pc
    case RevokeLoad(attempt) => refusals == attempt < REVOKE_ATTEMPTS
    case RevokeSave(attempt, _) => refusals == attempt < REVOKE_ATTEMPTS
    case Done(409) => refusals <= REVOKE_ATTEMPTS
    case _ => refusals < REVOKE_ATTEMPTS
  }

  lemma {:induction false} StepCounts(s: Store, rid: nat, job: Job, c: Choice, refusals: nat)
    requires Counts(job.pc, refusals)
    ensures Counts(StepJob(s, rid, job, c).1, refusals + if job.pc.RevokeSave? && c == Call(Refused) then 1 else 0)
  {
  }

  /** However its calls interleave with others, an unpublish gives up after the third refused tombstone,
      and not before; each attempt loads the manifest again. */
  lemma {:induction false} ThreeAttempts(events: seq<Event>, rid: nat)
    ensures if rid in Reached(events).jobs then Counts(Reached(events).jobs[rid].pc, Refusals(events, rid))
            else Refusals(events, rid) == 0
    decreases |events|
  {
    if events != [] {
      var front, last := events[..|events| - 1], events[|events| - 1];
      ReachedLast(events);
      ThreeAttempts(front, rid);
      if last.Act? && last.request == rid && rid in Reached(front).jobs {
        StepCounts(Reached(front).store, rid, Reached(front).jobs[rid], last.choice, Refusals(front, rid));
      }
    }
  }

  /* ---- What a clean-up note says ---- */

  /** The next event is a listing of this request that fails, or a failing delete of an object it listed. */
  predicate SweepFails(s: State, rid: nat, e: Event) {
    && rid in s.jobs && e.Act? && e.request == rid
    && var pc := s.jobs[rid].pc;
    || (pc.SweepList? && CallFails(e.choice))
    || (pc.SweepDelete? && e.choice.Delete? && e.choice.key in pc.left && !e.choice.works)
  }

  function SweepFailures(events: seq<Event>, rid: nat): nat {
    if events == [] then 0
    else
      var front := events[..|events| - 1];
      SweepFailures(front, rid) + if SweepFails(Reached(front), rid, events[|events| - 1]) then 1 else 0
  }

  predicate Sweeps(pc: Pc) { pc.SweepDelete? || pc.SweepSave? }

  predicate Flagged(pc: Pc, failures: nat) {
    && (Sweeps(pc) ==> (pc.failed <==> failures > 0))
    && (!Sweeps(pc) && !pc.Done? ==> failures == 0)
  }

  /** Only a request that has ended noted how its sweep went, and truthfully. */
  ghost predicate Noted(log: seq<Entry>, rid: nat, ended: bool, failures: nat) {
    forall e | e in log && e.request == rid && e.edit.NoteCleanup? ::
      ended && e.edit.cleanup.state == if failures == 0 then CleanupComplete else CleanupPending
  }

  lemma {:induction false} StepFlags(s: State, rid: nat, c: Choice, failures: nat)
    requires rid in s.jobs && Flagged(s.jobs[rid].pc, failures)
    ensures Flagged(StepJob(s.store, rid, s.jobs[rid], c).1, failures + if SweepFails(s, rid, Act(rid, c)) then 1 else 0)
  {
  }

  /** Noting ends the request. */
  lemma {:induction false} NotingEnds(s: Store, rid: nat, job: Job, c: Choice)
    requires job.pc.SweepSave?
    ensures var next := StepJob(s, rid, job, c); next.0.log != s.log ==> next.1.Done?
  {
  }

  lemma {:induction false} StepNotes(s: Store, rid: nat, job: Job, c: Choice, failures: nat)
    requires Noted(s.log, rid, job.pc.Done?, failures) && Flagged(job.pc, failures)
    ensures var next := StepJob(s, rid, job, c); Noted(next.0.log, rid, next.1.Done?, failures)
  {
    StepLog(s, rid, job, c);
    if job.pc.SweepSave? { NotingEnds(s, rid, job, c); }
    if job.pc.SaveBundle? || job.pc.RenewSave? || job.pc.RevokeSave? { assert !Planned(rid, job).value.edit.NoteCleanup?; }
  }

  lemma {:induction false} OtherNotes(s: Store, rid: nat, job: Job, c: Choice, other: nat, ended: bool, failures: nat)
    requires Noted(s.log, other, ended, failures) && other != rid
    ensures Noted(StepJob(s, rid, job, c).0.log, other, ended, failures)
  {
    StepLog(s, rid, job, c);
  }

  lemma {:induction false} NotesHold(events: seq<Event>, rid: nat)
    ensures var s, failures := Reached(events), SweepFailures(events, rid);
            if rid in s.jobs then Flagged(s.jobs[rid].pc, failures) && Noted(s.store.log, rid, s.jobs[rid].pc.Done?, failures)
            else failures == 0 && Noted(s.store.log, rid, false, 0)
    decreases |events|
  {
    if events != [] {
      var front, last := events[..|events| - 1], events[|events| - 1];
      ReachedLast(events);
      NotesHold(front, rid);
      NotesStep(Reached(front), last, rid, SweepFailures(front, rid));
    }
  }

  lemma {:induction false} NotesStep(s: State, e: Event, rid: nat, failures: nat)
    requires if rid in s.jobs then Flagged(s.jobs[rid].pc, failures) && Noted(s.store.log, rid, s.jobs[rid].pc.Done?, failures)
             else failures == 0 && Noted(s.store.log, rid, false, 0)
    ensures var t, more := Step(s, e), failures + if SweepFails(s, rid, e) then 1 else 0;
            if rid in t.jobs then Flagged(t.jobs[rid].pc, more) && Noted(t.store.log, rid, t.jobs[rid].pc.Done?, more)
            else more == 0 && Noted(t.store.log, rid, false, 0)
  {
    if e.Act? && e.request in s.jobs {
      if e.request != rid {
        OtherNotes(s.store, e.request, s.jobs[e.request], e.choice, rid, rid in s.jobs && s.jobs[rid].pc.Done?, failures);
      } else {
        StepFlags(s, rid, e.choice, failures);
        StepNotes(s.store, rid, s.jobs[rid], e.choice, failures);
      }
    }
  }

  /** A tombstone says that its clean-up is complete exactly when neither the listing nor any delete of the
      sweep that noted it failed, however other requests interleave. */
  lemma {:induction false} CleanupNotesAreHonest(events: seq<Event>, e: Entry)
    requires e in Reached(events).store.log && e.edit.NoteCleanup?
    ensures e.edit.cleanup.state == if SweepFailures(events, e.request) == 0 then CleanupComplete else CleanupPending
  {
    NotesHold(events, e.request);
  }
}
