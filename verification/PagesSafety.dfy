/** What holds in every run of the publication protocol. */
module PagesSafety {
  import opened JsText
  import opened Wrappers
  import opened PagesProtocol
  import opened PagesInvariant
  import opened PagesPreservation

  /* ---- Every event, and so every run, keeps the invariant ---- */

  lemma {:induction false} TickGrows(s: Store, to: nat, actor: nat)
    requires s.clock <= to
    ensures Grows(s, s.(clock := to), actor)
  {
  }

  lemma {:induction false} TickKeeps(s: Store, to: nat)
    requires StoreInv(s) && s.clock <= to
    ensures StoreInv(s.(clock := to))
  {
    var t := s.(clock := to);
    forall id | id in t.records ensures ManifestInv(t, id) { ManifestStable(s, t, id); }
  }

  lemma {:induction false} LapseGrows(s: Store, key: BlobKey, actor: nat)
    requires BlobsInv(s)
    ensures Grows(s, LapseBlob(s, key), actor) && BlobsInv(LapseBlob(s, key))
  {
  }

  lemma {:induction false} LapseKeeps(s: Store, key: BlobKey)
    requires StoreInv(s)
    ensures StoreInv(LapseBlob(s, key))
  {
    var t := LapseBlob(s, key);
    LapseGrows(s, key, 0);
    forall id | id in t.records ensures ManifestInv(t, id) { LapseOther(s, key, id); }
  }

  lemma {:induction false} LapseOther(s: Store, key: BlobKey, id: nat)
    requires BlobsInv(s) && id in s.records && ManifestInv(s, id)
    ensures ManifestInv(LapseBlob(s, key), id)
  {
    ManifestStable(s, LapseBlob(s, key), id);
  }

  lemma {:induction false} LapseRecordGrows(s: Store, id: nat, actor: nat)
    ensures Grows(s, LapseRecord(s, id), actor)
  {
  }

  lemma {:induction false} LapseRecordKeeps(s: Store, id: nat)
    requires StoreInv(s)
    ensures StoreInv(LapseRecord(s, id))
  {
    var t := LapseRecord(s, id);
    if t != s {
      forall other | other in t.records ensures ManifestInv(t, other) { GoneStable(s, t.gone, other); }
    }
  }

  /** A step of the environment keeps every job's assertion. */
  lemma {:induction false} JobsStable(s: State, t: Store)
    requires forall rid | rid in s.jobs :: JobInv(s.store, rid, s.jobs[rid])
    requires forall actor :: Grows(s.store, t, actor)
    ensures forall rid | rid in s.jobs :: JobInv(t, rid, s.jobs[rid])
  {
    forall rid | rid in s.jobs ensures JobInv(t, rid, s.jobs[rid]) { Stable(s.store, t, rid + 1, rid, s.jobs[rid]); }
  }

  lemma {:induction false} NoEdits(log: seq<Entry>, rid: nat)
    requires forall e | e in log :: e.request != rid
    ensures EditsOf(log, rid) == []
  {
    if log != [] { NoEdits(log[..|log| - 1], rid); }
  }

  lemma {:induction false} ArriveKeeps(s: State, rid: nat, what: Request)
    requires Inv(s) && rid !in s.jobs && Acceptable(what)
    ensures JobInv(s.store, rid, Job(what, FirstPc(what)))
  {
    NoEdits(s.store.log, rid);
  }

  predicate Commits(pc: Pc) { pc.SaveBundle? || pc.RenewSave? || pc.RevokeSave? || pc.SweepSave? }

  lemma {:induction false} QuietPuts(s: Store, rid: nat, job: Job, c: Choice)
    requires job.pc.PutPart? || job.pc.RenewPut?
    ensures var t := StepJob(s, rid, job, c).0; t.lapsed == s.lapsed && t.log == s.log
  {
  }

  lemma {:induction false} QuietDrops(s: Store, rid: nat, job: Job, c: Choice)
    requires job.pc.Discard? || job.pc.Supersede? || job.pc.SweepDelete?
    ensures var t := StepJob(s, rid, job, c).0; t.lapsed == s.lapsed && t.log == s.log
  {
  }

  lemma {:induction false} QuietLog(s: Store, rid: nat, job: Job, c: Choice)
    requires !Commits(job.pc)
    ensures var t := StepJob(s, rid, job, c).0; t.lapsed == s.lapsed && t.log == s.log
  {
    match job.pc {
      case PutPart(_, _, _) => QuietPuts(s, rid, job, c);
      case RenewPut(_, _, _, _) => QuietPuts(s, rid, job, c);
      case Discard(_, _, _, _) => QuietDrops(s, rid, job, c);
      case Supersede(_, _) => QuietDrops(s, rid, job, c);
      case SweepDelete(_, _, _) => QuietDrops(s, rid, job, c);
      case _ =>
    }
  }

  /** What a step may do to the log, and that only the environment lets objects lapse. */
  ghost predicate Logs(s: Store, rid: nat, job: Job, t: Store) {
    && t.lapsed == s.lapsed
    && (t.log == s.log || (Planned(rid, job).Some? && t.log == s.log + [Planned(rid, job).value]))
  }

  /** The entry a manifest write at this program counter appends. */
  function Planned(rid: nat, job: Job): Option<Entry> {
    match job.pc
    case SaveBundle(base, r) => Some(Entry(rid, r.id, base, BundleEdit(job.request, r)))
    case RenewSave(r, since, record) => Some(Entry(rid, r.id, Some(r), Protect(record.password, record.anchor, since)))
    case RevokeSave(_, r) => Some(Entry(rid, r.id, Some(r), Revoke))
    case SweepSave(r, failed) => Some(Entry(rid, r.id, Some(r), CleanupNote(r, failed)))
    case _ => None
  }

  /** A step appends at most one entry, in its own name and against the record it had loaded. */
  lemma {:induction false} StepLog(s: Store, rid: nat, job: Job, c: Choice)
    ensures Logs(s, rid, job, StepJob(s, rid, job, c).0)
  {
    if !Commits(job.pc) { QuietLog(s, rid, job, c); } else { CommitLogs(s, rid, job, c); }
  }

  lemma {:induction false} CommitLogs(s: Store, rid: nat, job: Job, c: Choice)
    requires Commits(job.pc)
    ensures Logs(s, rid, job, StepJob(s, rid, job, c).0)
  {
    match job.pc {
      case SaveBundle(_, _) => SaveBundleLogs(s, rid, job, c);
      case RenewSave(_, _, _) => RenewSaveLogs(s, rid, job, c);
      case RevokeSave(_, _) => RevokeSaveLogs(s, rid, job, c);
      case SweepSave(_, _) => SweepSaveLogs(s, rid, job, c);
    }
  }

  lemma {:induction false} SaveBundleLogs(s: Store, rid: nat, job: Job, c: Choice)
    requires job.pc.SaveBundle?
    ensures Logs(s, rid, job, StepSaveBundle(s, rid, job, c).0)
  {
  }

  lemma {:induction false} RenewSaveLogs(s: Store, rid: nat, job: Job, c: Choice)
    requires job.pc.RenewSave?
    ensures Logs(s, rid, job, StepRenewSave(s, rid, job, c).0)
  {
  }

  lemma {:induction false} RevokeSaveLogs(s: Store, rid: nat, job: Job, c: Choice)
    requires job.pc.RevokeSave?
    ensures Logs(s, rid, job, StepRevokeSave(s, rid, job, c).0)
  {
  }

  lemma {:induction false} SweepSaveLogs(s: Store, rid: nat, job: Job, c: Choice)
    requires job.pc.SweepSave?
    ensures Logs(s, rid, job, StepSweepSave(s, rid, job, c).0)
  {
  }

  lemma {:induction false} PlannedIsOwn(s: Store, rid: nat, job: Job)
    requires JobInv(s, rid, job) && Planned(rid, job).Some?
    ensures var e := Planned(rid, job).value;
            && Committed(s, job.request, e)
            && (e.seen.Some? ==> e.seen.value.admin == AdminOf(job.request))
  {
  }

  lemma {:induction false} CommittedStable(s: Store, t: Store, req: Request, e: Entry)
    requires Evolves(s, t) && Committed(s, req, e)
    ensures Committed(t, req, e)
  {
  }

  lemma {:induction false} ActJobs(s: State, rid: nat, c: Choice)
    requires Inv(s) && rid in s.jobs && Keeps(s.store, rid, s.jobs[rid], StepJob(s.store, rid, s.jobs[rid], c))
    ensures var t := Step(s, Act(rid, c)); forall other | other in t.jobs :: JobInv(t.store, other, t.jobs[other])
  {
    var t := Step(s, Act(rid, c));
    forall other | other in t.jobs ensures JobInv(t.store, other, t.jobs[other]) {
      if other != rid { Stable(s.store, t.store, rid, other, s.jobs[other]); }
    }
  }

  lemma {:induction false} ActAuthorised(s: State, rid: nat, c: Choice)
    requires Authorised(s) && rid in s.jobs && JobInv(s.store, rid, s.jobs[rid])
    requires Evolves(s.store, StepJob(s.store, rid, s.jobs[rid], c).0)
    ensures Authorised(Step(s, Act(rid, c)))
  {
    var job := s.jobs[rid];
    var t := StepJob(s.store, rid, job, c).0;
    StepLog(s.store, rid, job, c);
    if Planned(rid, job).Some? { PlannedIsOwn(s.store, rid, job); }
    AuthorisedGrows(s, rid, t, Planned(rid, job), StepJob(s.store, rid, job, c).1);
  }

  lemma {:induction false} AuthorisedGrows(s: State, rid: nat, t: Store, planned: Option<Entry>, pc: Pc)
    requires Authorised(s) && rid in s.jobs && Evolves(s.store, t)
    requires planned.Some? ==>
               && planned.value.request == rid && Committed(s.store, s.jobs[rid].request, planned.value)
               && (planned.value.seen.Some? ==> planned.value.seen.value.admin == AdminOf(s.jobs[rid].request))
    requires t.log == s.store.log || (planned.Some? && t.log == s.store.log + [planned.value])
    ensures Authorised(State(t, s.jobs[rid := s.jobs[rid].(pc := pc)]))
  {
    forall e | e in t.log
      ensures e.request in s.jobs && Committed(t, s.jobs[e.request].request, e)
      ensures e.seen.Some? ==> e.seen.value.admin == AdminOf(s.jobs[e.request].request)
    {
      assert e in s.store.log || (planned.Some? && e == planned.value);
      CommittedStable(s.store, t, s.jobs[e.request].request, e);
    }
  }

  lemma {:induction false} ActKeeps(s: State, rid: nat, c: Choice)
    requires Inv(s) && rid in s.jobs
    ensures Inv(Step(s, Act(rid, c))) && Evolves(s.store, Step(s, Act(rid, c)).store)
  {
    JobStepKeeps(s.store, rid, s.jobs[rid], c);
    ActJobs(s, rid, c);
    ActAuthorised(s, rid, c);
  }

  /** What the environment does to the store keeps the rest of the invariant. */
  lemma {:induction false} EnvironmentKeeps(s: State, t: Store)
    requires Inv(s) && StoreInv(t) && t.log == s.store.log
    requires forall actor :: Grows(s.store, t, actor)
    ensures Inv(s.(store := t)) && Evolves(s.store, t)
  {
    JobsStable(s, t);
    assert Grows(s.store, t, 0);
    forall e | e in t.log ensures Committed(t, s.jobs[e.request].request, e) {
      CommittedStable(s.store, t, s.jobs[e.request].request, e);
    }
  }

  lemma {:induction false} TickEvent(s: State, to: nat)
    requires Inv(s) && s.store.clock <= to
    ensures Inv(Step(s, Tick(to))) && Evolves(s.store, Step(s, Tick(to)).store)
  {
    forall actor ensures Grows(s.store, s.store.(clock := to), actor) { TickGrows(s.store, to, actor); }
    TickKeeps(s.store, to);
    EnvironmentKeeps(s, s.store.(clock := to));
  }

  lemma {:induction false} LapseEvent(s: State, key: BlobKey)
    requires Inv(s)
    ensures Inv(Step(s, Lapse(key))) && Evolves(s.store, Step(s, Lapse(key)).store)
  {
    forall actor ensures Grows(s.store, LapseBlob(s.store, key), actor) { LapseGrows(s.store, key, actor); }
    LapseKeeps(s.store, key);
    EnvironmentKeeps(s, LapseBlob(s.store, key));
  }

  lemma {:induction false} LapseRecordEvent(s: State, id: nat)
    requires Inv(s)
    ensures Inv(Step(s, LapseManifest(id))) && Evolves(s.store, Step(s, LapseManifest(id)).store)
  {
    forall actor ensures Grows(s.store, LapseRecord(s.store, id), actor) { LapseRecordGrows(s.store, id, actor); }
    LapseRecordKeeps(s.store, id);
    EnvironmentKeeps(s, LapseRecord(s.store, id));
  }

  lemma {:induction false} ArriveEvent(s: State, rid: nat, what: Request)
    requires Inv(s)
    ensures Inv(Step(s, Arrive(rid, what))) && Evolves(s.store, Step(s, Arrive(rid, what)).store)
  {
    GrowsNot(s.store, rid);
    if rid !in s.jobs && Acceptable(what) { ArriveKeeps(s, rid, what); }
  }

  lemma {:induction false} EventKeeps(s: State, e: Event)
    requires Inv(s)
    ensures Inv(Step(s, e)) && Evolves(s.store, Step(s, e).store)
  {
    GrowsNot(s.store, 0);
    match e {
      case Tick(to) => if s.store.clock <= to { TickEvent(s, to); }
      case Lapse(key) => LapseEvent(s, key);
      case LapseManifest(id) => LapseRecordEvent(s, id);
      case Arrive(rid, what) => ArriveEvent(s, rid, what);
      case Act(rid, c) => if rid in s.jobs { ActKeeps(s, rid, c); }
    }
  }

  lemma {:induction false} RunKeeps(s: State, events: seq<Event>)
    requires Inv(s)
    ensures Inv(Run(s, events)) && Evolves(s.store, Run(s, events).store)
    decreases |events|
  {
    if events != [] {
      EventKeeps(s, events[0]);
      RunKeeps(Step(s, events[0]), events[1..]);
    }
  }

  function Reached(events: seq<Event>): State { Run(EMPTY, events) }

  lemma {:induction false} ReachedInv(events: seq<Event>)
    ensures Inv(Reached(events))
  {
    RunKeeps(EMPTY, events);
  }

  /* ---- The published page is whole ---- */

  ghost predicate NoLapse(events: seq<Event>) { forall e | e in events :: !e.Lapse? }

  lemma {:induction false} NothingLapses(s: State, events: seq<Event>)
    requires NoLapse(events)
    ensures Run(s, events).store.lapsed == s.store.lapsed
    decreases |events|
  {
    if events != [] {
      assert !events[0].Lapse?;
      if events[0].Act? && events[0].request in s.jobs {
        StepLog(s.store, events[0].request, s.jobs[events[0].request], events[0].choice);
      }
      NothingLapses(Step(s, events[0]), events[1..]);
    }
  }

  /** In every reachable state each object a published manifest needs holds the bytes of the very
      upload that manifest came from, and it can only be missing through the lifecycle rule. */
  lemma {:induction false} PublishedPageIsWhole(events: seq<Event>, id: nat, part: Part)
    requires var found := Stored(Reached(events).store, id);
             found.Some? && found.value.status.Published? && part in Retained(found.value.manifest)
    ensures var s := Reached(events).store; var r := Stored(s, id).value;
            && r.Rev() in s.issued && r.manifest == s.issued[r.Rev()].upload.manifest
            && PartOf(s.issued[r.Rev()].upload, part).Some?
            && (r.Key(part) in s.blobs ==> Some(s.blobs[r.Key(part)].bytes) == PartOf(s.issued[r.Rev()].upload, part))
            && (r.Key(part) in s.blobs || Aged(s, r.Key(part)))
            && (NoLapse(events) ==> r.Key(part) in s.blobs)
  {
    ReachedInv(events);
    assert ManifestInv(Reached(events).store, id);
    if NoLapse(events) { NothingLapses(EMPTY, events); }
  }

  /** A reader that loaded a manifest and fetches an object any number of steps later gets
      nothing, or exactly the bytes uploaded together with that manifest. */
  lemma {:induction false} NoTornRead(events: seq<Event>, later: seq<Event>, id: nat, part: Part)
    requires Stored(Reached(events).store, id).Some?
    requires Stored(Reached(events).store, id).value.Key(part) in Run(Reached(events), later).store.blobs
    ensures var r := Stored(Reached(events).store, id).value;
            && r.Rev() in Reached(events).store.issued
            && var upload := Reached(events).store.issued[r.Rev()].upload;
            && r.manifest == upload.manifest
            && Some(Run(Reached(events), later).store.blobs[r.Key(part)].bytes) == PartOf(upload, part)
  {
    ReachedInv(events);
    assert ManifestInv(Reached(events).store, id);
    RunKeeps(Reached(events), later);
  }

  /* ---- No update is lost ---- */

  /** Each manifest is what the committed edits give when applied one after another, unless the
      lifecycle rule deleted it; each edit replaced exactly the record its request had loaded, was
      asked for by that request on its own page, and was made with that page's admin token. */
  lemma {:induction false} CommitsAreSequential(events: seq<Event>)
    ensures var s := Reached(events);
            && (forall id :: Stored(s.store, id) == Lookup(Replay(s.store.log), id)
                             || (Stored(s.store, id).None? && Expired(s.store, id)))
            && Chained(s.store.log)
            && Authorised(s)
  {
    ReachedInv(events);
    var s := Reached(events).store;
    forall id | id in s.records ensures id in s.gone ==> Expired(s, id) { assert ManifestInv(s, id); }
  }

  /** The page had a manifest, and its upload is older than the lifecycle rule allows. */
  ghost predicate Expired(s: Store, id: nat) {
    id in s.savedAt && s.clock - s.savedAt[id] > RETENTION_MS
  }

  /** Once the manifest of a page is gone it does not come back. */
  lemma {:induction false} GoneStaysGone(events: seq<Event>, later: seq<Event>, id: nat)
    requires id in Reached(events).store.records && Stored(Reached(events).store, id).None?
    ensures Stored(Run(Reached(events), later).store, id).None?
  {
    ReachedInv(events);
    RunKeeps(Reached(events), later);
  }

  /** The lifecycle rule takes a manifest only after the page stopped being served, so no reader can tell. */
  lemma {:induction false} ManifestLapseIsInvisible(events: seq<Event>, lapsed: nat, id: nat)
    ensures PublicRecord(LapseRecord(Reached(events).store, lapsed), id) == PublicRecord(Reached(events).store, id)
  {
    ReachedInv(events);
    var s := Reached(events).store;
    if id in s.records { assert ManifestInv(s, id); }
  }

  /** The password the last password change (or the creation) set. */
  function PasswordAfter(log: seq<Entry>, id: nat): Option<Password> {
    if log == [] then None
    else
      var e := log[|log| - 1];
      if e.id == id && e.edit.Publish? then e.edit.record.password
      else if e.id == id && e.edit.Protect? then e.edit.password
      else PasswordAfter(log[..|log| - 1], id)
  }

  /** The revision and manifest the last bundle set. */
  function BundleAfter(log: seq<Entry>, id: nat): Option<(nat, Manifest)> {
    if log == [] then None
    else
      var e := log[|log| - 1];
      if e.id == id && e.edit.Publish? then Some((e.edit.record.revision, e.edit.record.manifest))
      else if e.id == id && e.edit.Bundle? then Some((e.edit.revision, e.edit.manifest))
      else BundleAfter(log[..|log| - 1], id)
  }

  lemma {:induction false} ReplayKeepsBoth(log: seq<Entry>, id: nat)
    ensures id in Replay(log) ==>
              && Replay(log)[id].password == PasswordAfter(log, id)
              && BundleAfter(log, id) == Some((Replay(log)[id].revision, Replay(log)[id].manifest))
  {
    if log != [] { ReplayKeepsBoth(log[..|log| - 1], id); }
  }

  /** Successful content updates and password changes both survive, in whatever order they commit. */
  lemma {:induction false} BothChangesSurvive(events: seq<Event>, id: nat)
    requires Stored(Reached(events).store, id).Some?
    ensures var s := Reached(events).store; var r := Stored(s, id).value;
            r.password == PasswordAfter(s.log, id) && BundleAfter(s.log, id) == Some((r.revision, r.manifest))
  {
    ReachedInv(events);
    ReplayKeepsBoth(Reached(events).store.log, id);
  }

  /** A revision that stopped being live never becomes live again. */
  lemma {:induction false} RevisionNeverReturns(events: seq<Event>, later: seq<Event>, latest: seq<Event>, id: nat, r: Record)
    requires Stored(Reached(events).store, id) == Some(r)
    requires var now := Stored(Run(Reached(events), later).store, id); now.None? || now.value.revision != r.revision
    ensures var then_ := Stored(Run(Run(Reached(events), later), latest).store, id);
            then_.None? || then_.value.revision != r.revision
  {
    var s := Reached(events);
    var t := Run(s, later);
    ReachedInv(events);
    RunKeeps(s, later);
    RunKeeps(t, latest);
    assert ManifestInv(s.store, id) && ManifestInv(t.store, id) && ManifestInv(Run(t, latest).store, id);
    assert id !in t.store.gone ==> s.store.records[id].Rev() in t.store.retired;
  }

  /* ---- Unpublishing is permanent ---- */

  /** Once the last record written is a tombstone, every later state has the tombstone or no manifest
      at all, no later step publishes the page again, and the public loader finds nothing. */
  lemma {:induction false} UnpublishIsPermanent(events: seq<Event>, later: seq<Event>, id: nat)
    requires Revoked(Reached(events).store, id)
    ensures var t := Run(Reached(events), later).store;
            && Revoked(t, id) && PublicRecord(t, id) == None
            && (Stored(t, id).None? || Stored(t, id).value.status.Unpublished?)
  {
    ReachedInv(events);
    RunKeeps(Reached(events), later);
  }

  /* ---- Retention ---- */

  /** The retention anchor never decreases. */
  lemma {:induction false} AnchorNeverDecreases(events: seq<Event>, later: seq<Event>, id: nat)
    requires var s, t := Reached(events).store, Run(Reached(events), later).store;
             Stored(s, id).Some? && Stored(t, id).Some?
    ensures var s, t := Reached(events).store, Run(Reached(events), later).store;
            Stored(s, id).value.anchor <= Stored(t, id).value.anchor
  {
    ReachedInv(events);
    RunKeeps(Reached(events), later);
  }

  /** After a creation or content update every retained object is at least as young as the anchor;
      after a password change, at least as young as the start of that request. */
  lemma {:induction false} ObjectsAreAsYoungAsTheAnchor(events: seq<Event>, id: nat, part: Part)
    requires var found := Stored(Reached(events).store, id);
             found.Some? && found.value.status.Published? && part in Retained(found.value.manifest)
    ensures var s := Reached(events).store; var r := Stored(s, id).value; var last := LastRenewal(s.log, id);
            && last.Some? && r.Key(part) in s.lastPut
            && (r.Key(part) in s.blobs ==> s.blobs[r.Key(part)].uploadedAt == s.lastPut[r.Key(part)])
            && match last.value
               case Protect(_, anchor, since) =>
                 r.anchor == anchor && since <= anchor && since <= s.lastPut[r.Key(part)]
               case _ => r.anchor <= s.lastPut[r.Key(part)]
  {
    ReachedInv(events);
    assert ManifestInv(Reached(events).store, id);
  }

  /** A public route still serves the page although an object it needs is gone. */
  ghost predicate ShellOutlivesContent(s: Store, id: nat) {
    PublicRecord(s, id).Some?
    && exists p | p in Retained(s.records[id].manifest) :: s.records[id].Key(p) !in s.blobs
  }

  /** An object whose own deadline falls before the one the manifest announces. */
  ghost predicate AnchorLeads(s: Store, id: nat, part: Part) {
    Stored(s, id).Some? && part in Retained(s.records[id].manifest)
    && s.records[id].Key(part) in s.lastPut
    && s.lastPut[s.records[id].Key(part)] < s.records[id].anchor
  }

  ghost predicate OnlyTime(events: seq<Event>) { forall e | e in events :: e.Tick? || e.Lapse? || e.LapseManifest? }

  lemma {:induction false} TimeAlone(s: State, events: seq<Event>)
    requires OnlyTime(events)
    ensures var t := Run(s, events).store;
            t.records == s.store.records && t.lastPut == s.store.lastPut && t.clock >= s.store.clock
    decreases |events|
  {
    if events != [] {
      assert events[0].Tick? || events[0].Lapse? || events[0].LapseManifest?;
      TimeAlone(Step(s, events[0]), events[1..]);
    }
  }

  lemma {:induction false} RunTwo(s: State, e: Event, f: Event)
    ensures Run(s, [e, f]) == Step(Step(s, e), f)
  {
    assert [e, f][1..] == [f] && [f][1..] == [];
    assert Run(Step(s, e), [f]) == Run(Step(Step(s, e), f), []);
  }

  lemma {:induction false} GapNeedsLead(s: State, later: seq<Event>, id: nat)
    requires Inv(s) && PublicRecord(s.store, id).Some? && OnlyTime(later)
    requires ShellOutlivesContent(Run(s, later).store, id)
    ensures exists p :: AnchorLeads(s.store, id, p)
  {
    var t := Run(s, later).store;
    RunKeeps(s, later);
    TimeAlone(s, later);
    assert ManifestInv(s.store, id) && ManifestInv(t, id);
    var p :| p in Retained(t.records[id].manifest) && t.records[id].Key(p) !in t.blobs;
    assert AnchorLeads(s.store, id, p);
  }

  /** Wait until the object is due, and let the lifecycle rule delete it. */
  function WaitAndLapse(s: Store, key: BlobKey): seq<Event>
    requires key in s.lastPut
  {
    var due := s.lastPut[key] + RETENTION_MS + 1;
    [Tick(if due < s.clock then s.clock else due), Lapse(key)]
  }

  lemma {:induction false} DueLapses(s: Store, key: BlobKey, to: nat)
    requires BlobsInv(s) && key in s.lastPut && to - s.lastPut[key] > RETENTION_MS
    ensures key !in LapseBlob(s.(clock := to), key).blobs
    ensures forall id :: PublicRecord(LapseBlob(s.(clock := to), key), id) == PublicRecord(s.(clock := to), id)
  {
  }

  lemma {:induction false} LeadOpensGap(s: State, id: nat, part: Part)
    requires BlobsInv(s.store) && PublicRecord(s.store, id).Some? && AnchorLeads(s.store, id, part)
    ensures var later := WaitAndLapse(s.store, s.store.records[id].Key(part));
            OnlyTime(later) && ShellOutlivesContent(Run(s, later).store, id)
  {
    var key := s.store.records[id].Key(part);
    var later := WaitAndLapse(s.store, key);
    RunTwo(s, later[0], later[1]);
    DueLapses(s.store, key, later[0].to);
    var t := Run(s, later).store;
    assert t == LapseBlob(s.store.(clock := later[0].to), key);
    assert t.records == s.store.records;
  }

  /** Left alone, an unexpired published page can come to outlive its content exactly when the
      anchor leads the upload of some object it needs. */
  lemma {:induction false} ShellOutlivesContentIff(events: seq<Event>, id: nat)
    requires PublicRecord(Reached(events).store, id).Some?
    ensures (exists later | OnlyTime(later) :: ShellOutlivesContent(Run(Reached(events), later).store, id))
            <==> (exists p :: AnchorLeads(Reached(events).store, id, p))
  {
    var s := Reached(events);
    ReachedInv(events);
    if later :| OnlyTime(later) && ShellOutlivesContent(Run(s, later).store, id) { GapNeedsLead(s, later, id); }
    if p :| AnchorLeads(s.store, id, p) { LeadOpensGap(s, id, p); }
  }

  /** It lasts no longer than the password request that set the anchor took. */
  lemma {:induction false} GapIsBoundedByTheRequest(events: seq<Event>, id: nat)
    requires ShellOutlivesContent(Reached(events).store, id)
    ensures var s := Reached(events).store; var last := LastRenewal(s.log, id);
            last.Some? && last.value.Protect?
            && last.value.since + RETENTION_MS < s.clock <= last.value.anchor + RETENTION_MS
  {
    ReachedInv(events);
    assert ManifestInv(Reached(events).store, id);
  }

  /* ---- The gap is real ---- */

  const DEMO_UPLOAD := Upload(Manifest([], false), [], None)
  const DEMO_CREATE := CreateRequest(DEMO_UPLOAD, None, 7)

  /** Create a page, then clear its password while the clock moves between the re-put and the stamp. */
  const DEMO_RUN: seq<Event> :=
    [ Arrive(0, DEMO_CREATE),
      Act(0, Draw(0, 0)), Act(0, Call(Succeeds)), Act(0, Call(Succeeds)),
      Arrive(1, UpdateRequest(0, 7, NewPassword(None))),
      Act(1, Call(Succeeds)), Act(1, Call(Succeeds)), Act(1, Call(Succeeds)), Act(1, Call(Succeeds)),
      Tick(1),
      Act(1, Call(Succeeds)), Act(1, Call(Succeeds)) ]

  lemma {:induction false} RunFrom(s: State, events: seq<Event>, i: nat)
    requires i < |events|
    ensures Run(s, events[i..]) == Run(Step(s, events[i]), events[i + 1..])
  {
    assert events[i..][1..] == events[i + 1..];
  }

  const DEMO_RECORD := Record(0, 7, Published, 0, DEMO_UPLOAD.manifest, None, 0, Cleanup(NoCleanup, 0))

  /** The page is published at time 0, and its content was put at time 0. */
  ghost predicate DemoPublished(s: State) {
    && s.store.clock == 0 && s.store.records == map[0 := DEMO_RECORD] && s.store.gone == {}
    && DEMO_RECORD.Key(Content) in s.store.blobs && 1 !in s.jobs
  }

  /** The creation has got as far as pc. */
  ghost predicate DemoCreation(s: State, pc: Pc) {
    && s.store.clock == 0 && s.store.records == map[] && s.store.gone == {}
    && 0 in s.jobs && s.jobs[0] == Job(DEMO_CREATE, pc) && 1 !in s.jobs
  }

  lemma {:induction false} DemoDraws() returns (s: State)
    ensures Reached(DEMO_RUN) == Run(s, DEMO_RUN[2..])
    ensures DemoCreation(s, PutPart(None, DEMO_RECORD, Content))
  {
    assert DEMO_RUN[0..] == DEMO_RUN;
    RunFrom(EMPTY, DEMO_RUN, 0);
    s := Step(EMPTY, DEMO_RUN[0]);
    RunFrom(s, DEMO_RUN, 1);
    s := Step(s, DEMO_RUN[1]);
  }

  lemma {:induction false} DemoPuts(s: State) returns (t: State)
    requires DemoCreation(s, PutPart(None, DEMO_RECORD, Content))
    ensures Run(s, DEMO_RUN[2..]) == Run(t, DEMO_RUN[3..])
    ensures DemoCreation(t, SaveBundle(None, DEMO_RECORD)) && DEMO_RECORD.Key(Content) in t.store.blobs
  {
    RunFrom(s, DEMO_RUN, 2);
    t := Step(s, DEMO_RUN[2]);
  }

  lemma {:induction false} DemoPublishes(s: State) returns (t: State)
    requires DemoCreation(s, SaveBundle(None, DEMO_RECORD)) && DEMO_RECORD.Key(Content) in s.store.blobs
    ensures Run(s, DEMO_RUN[3..]) == Run(t, DEMO_RUN[4..]) && DemoPublished(t)
  {
    RunFrom(s, DEMO_RUN, 3);
    t := Step(s, DEMO_RUN[3]);
  }

  /** The password request has got as far as pc. */
  ghost predicate DemoRequest(s: State, pc: Pc) {
    && s.store.records == map[0 := DEMO_RECORD] && s.store.gone == {}
    && 1 in s.jobs && s.jobs[1] == Job(UpdateRequest(0, 7, NewPassword(None)), pc)
  }

  lemma {:induction false} DemoArrives(s: State) returns (t: State)
    requires DemoPublished(s)
    ensures Run(s, DEMO_RUN[4..]) == Run(t, DEMO_RUN[5..])
    ensures t.store == s.store && DemoRequest(t, Authorize)
  {
    RunFrom(s, DEMO_RUN, 4);
    t := Step(s, DEMO_RUN[4]);
  }

  lemma {:induction false} DemoLoads(s: State) returns (t: State)
    requires DemoRequest(s, Authorize)
    ensures Run(s, DEMO_RUN[5..]) == Run(t, DEMO_RUN[6..])
    ensures t.store == s.store && DemoRequest(t, RenewGet(DEMO_RECORD, s.store.clock, [Content]))
  {
    RunFrom(s, DEMO_RUN, 5);
    t := Step(s, DEMO_RUN[5]);
    assert Stored(s.store, 0) == Some(DEMO_RECORD);
    assert Retained(DEMO_RECORD.manifest) == [Content];
  }

  /** The content was put again at time 0. */
  ghost predicate DemoPutAtZero(s: State) {
    DEMO_RECORD.Key(Content) in s.store.lastPut && s.store.lastPut[DEMO_RECORD.Key(Content)] == 0
  }

  lemma {:induction false} DemoReads(s: State) returns (t: State)
    requires DemoRequest(s, RenewGet(DEMO_RECORD, 0, [Content]))
    requires s.store.clock == 0 && DEMO_RECORD.Key(Content) in s.store.blobs
    ensures Run(s, DEMO_RUN[6..]) == Run(t, DEMO_RUN[7..])
    ensures t.store == s.store
            && DemoRequest(t, RenewPut(DEMO_RECORD, 0, [Content], s.store.blobs[DEMO_RECORD.Key(Content)].bytes))
  {
    RunFrom(s, DEMO_RUN, 6);
    t := Step(s, DEMO_RUN[6]);
  }

  lemma {:induction false} DemoRenews(s: State, bytes: Bytes) returns (t: State)
    requires DemoRequest(s, RenewPut(DEMO_RECORD, 0, [Content], bytes)) && s.store.clock == 0
    ensures Run(s, DEMO_RUN[7..]) == Run(t, DEMO_RUN[9..])
    ensures DemoRequest(t, RenewStamp(DEMO_RECORD, 0)) && t.store.clock == 0 && DemoPutAtZero(t)
  {
    RunFrom(s, DEMO_RUN, 7);
    t := Step(s, DEMO_RUN[7]);
    assert t.jobs[1].pc == RenewGet(DEMO_RECORD, 0, []);
    RunFrom(t, DEMO_RUN, 8);
    t := Step(t, DEMO_RUN[8]);
  }

  lemma {:induction false} DemoStamps(s: State) returns (t: State)
    requires DemoRequest(s, RenewStamp(DEMO_RECORD, 0)) && s.store.clock == 0 && DemoPutAtZero(s)
    ensures Run(s, DEMO_RUN[9..]) == Run(t, DEMO_RUN[11..])
    ensures DemoRequest(t, RenewSave(DEMO_RECORD, 0, DEMO_RECORD.(anchor := 1))) && t.store.clock == 1 && DemoPutAtZero(t)
  {
    RunFrom(s, DEMO_RUN, 9);
    t := Step(s, DEMO_RUN[9]);
    RunFrom(t, DEMO_RUN, 10);
    t := Step(t, DEMO_RUN[10]);
  }

  lemma {:induction false} DemoSaves(s: State) returns (t: State)
    requires DemoRequest(s, RenewSave(DEMO_RECORD, 0, DEMO_RECORD.(anchor := 1))) && s.store.clock == 1 && DemoPutAtZero(s)
    ensures t == Step(s, DEMO_RUN[11])
    ensures t.store.records == map[0 := DEMO_RECORD.(anchor := 1)] && t.store.gone == {} && t.store.clock == 1 && DemoPutAtZero(t)
  {
    t := Step(s, DEMO_RUN[11]);
  }

  lemma {:induction false} DemoBegins() returns (s: State)
    ensures Reached(DEMO_RUN) == Run(s, DEMO_RUN[6..])
    ensures DemoRequest(s, RenewGet(DEMO_RECORD, 0, [Content]))
    ensures s.store.clock == 0 && DEMO_RECORD.Key(Content) in s.store.blobs
  {
    s := DemoDraws();
    s := DemoPuts(s);
    s := DemoPublishes(s);
    s := DemoArrives(s);
    s := DemoLoads(s);
  }

  lemma {:induction false} DemoEnds() returns (s: State)
    ensures Reached(DEMO_RUN) == Run(s, DEMO_RUN[11..])
    ensures DemoRequest(s, RenewSave(DEMO_RECORD, 0, DEMO_RECORD.(anchor := 1))) && s.store.clock == 1 && DemoPutAtZero(s)
  {
    s := DemoBegins();
    var bytes := s.store.blobs[DEMO_RECORD.Key(Content)].bytes;
    s := DemoReads(s);
    s := DemoRenews(s, bytes);
    s := DemoStamps(s);
  }

  /** The anchor can lead: this run leaves a page that can outlive its content. */
  lemma {:induction false} AnchorCanLead()
    ensures AnchorLeads(Reached(DEMO_RUN).store, 0, Content) && PublicRecord(Reached(DEMO_RUN).store, 0).Some?
  {
    var s := DemoEnds();
    RunFrom(s, DEMO_RUN, 11);
    s := DemoSaves(s);
    assert Reached(DEMO_RUN) == Run(s, DEMO_RUN[12..]) == s;
  }

  lemma {:induction false} RunAppend(s: State, first: seq<Event>, second: seq<Event>)
    ensures Run(s, first + second) == Run(Run(s, first), second)
    decreases |first|
  {
    if first == [] {
      assert first + second == second;
    } else {
      assert (first + second)[1..] == first[1..] + second;
      RunAppend(Step(s, first[0]), first[1..], second);
    }
  }

  /** So the gap opens in some run. */
  lemma {:induction false} ShellCanOutliveContent()
    ensures exists events :: ShellOutlivesContent(Reached(events).store, 0)
  {
    AnchorCanLead();
    var s := Reached(DEMO_RUN);
    ReachedInv(DEMO_RUN);
    LeadOpensGap(s, 0, Content);
    var later := WaitAndLapse(s.store, s.store.records[0].Key(Content));
    RunAppend(EMPTY, DEMO_RUN, later);
    assert ShellOutlivesContent(Reached(DEMO_RUN + later).store, 0);
  }
}
