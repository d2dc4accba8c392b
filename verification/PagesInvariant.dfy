/** The inductive invariant of the publication protocol, by rely/guarantee: every job's
    assertion is stable under what any other job's step may do (Grows). */
module PagesInvariant {
  import opened Wrappers
  import opened PagesProtocol

  ghost predicate Revoked(s: Store, id: nat) {
    id in s.records && s.records[id].status.Unpublished?
  }

  /** The lifecycle rule deleted the object and nobody has put it since. */
  ghost predicate Aged(s: Store, key: BlobKey) {
    key in s.lapsed && key in s.lastPut && s.clock - s.lastPut[key] > RETENTION_MS
  }

  ghost predicate Present(s: Store, key: BlobKey) {
    key in s.lastPut && (key in s.blobs || Aged(s, key))
  }

  /** Every object the record retains, except those still to do, was last put at or after since. */
  ghost predicate PutSince(s: Store, r: Record, todo: seq<Part>, since: nat) {
    forall p | p in Retained(r.manifest) && p !in todo :: r.Key(p) in s.lastPut && s.lastPut[r.Key(p)] >= since
  }

  /** A record that is, or once was, the stored manifest of its page. */
  ghost predicate Genuine(s: Store, r: Record) {
    && r.Rev() in s.issued && r.Rev() in s.placed
    && r.manifest == s.issued[r.Rev()].upload.manifest
    && r.anchor <= s.clock
  }

  ghost predicate Seen(s: Store, r: Record) {
    && Genuine(s, r)
    && r.id in s.records && s.records[r.id].admin == r.admin
    && (r.status.Unpublished? ==> Revoked(s, r.id))
  }

  /** The record belongs to a bundle this request is writing and has not committed. */
  ghost predicate Uncommitted(s: Store, rid: nat, job: Job, loaded: Option<Record>, r: Record) {
    && EditsOf(s.log, rid) == []
    && UploadOf(job.request).Some? && Acceptable(job.request)
    && r.Rev() in s.issued && s.issued[r.Rev()] == Issue(rid, UploadOf(job.request).value)
    && r.Rev() !in s.placed
    && r.anchor <= s.clock
    && Some(r) == NewRecord(job.request, loaded, r.id, r.revision, r.anchor)
    && loaded.None? == job.request.CreateRequest?
    && (loaded.None? ==> r.id in s.pages && s.pages[r.id] == rid && r.id !in s.records)
    && (loaded.Some? ==>
          && Seen(s, loaded.value) && loaded.value.status.Published?
          && loaded.value.anchor <= r.anchor
          && loaded.value.id == job.request.id && loaded.value.admin == job.request.admin)
  }

  ghost predicate Written(s: Store, r: Record, p: Part) {
    && r.Key(p) in s.lastPut && s.lastPut[r.Key(p)] >= r.anchor
    && (Present(s, r.Key(p)) || Revoked(s, r.id))
  }

  ghost predicate Renewing(s: Store, rid: nat, job: Job, r: Record, since: nat, todo: seq<Part>) {
    && EditsOf(s.log, rid) == []
    && job.request.UpdateRequest? && job.request.change.NewPassword?
    && Seen(s, r) && r.status.Published?
    && r.id == job.request.id && r.admin == job.request.admin
    && r.anchor <= since <= s.clock
    && (forall p | p in todo :: p in Retained(r.manifest))
    && PutSince(s, r, todo, since)
  }

  /** The entry is the change its request asked for, on the request's own page; a bundle's revision was
      drawn by this request for this upload. */
  ghost predicate Committed(s: Store, req: Request, e: Entry) {
    match req
    case CreateRequest(u, password, admin) =>
      && e.edit.Publish? && e.seen.None?
      && e.id in s.pages && s.pages[e.id] == e.request
      && Own(s, e.request, RevKey(e.id, e.edit.record.revision), u)
      && e.edit.record == Record(e.id, admin, Published, e.edit.record.revision, u.manifest, password,
                                 e.edit.record.anchor, Cleanup(NoCleanup, 0))
    case UpdateRequest(id, _, NewBundle(u)) =>
      && e.id == id && e.seen.Some? && e.edit.Bundle? && e.edit.manifest == u.manifest
      && Own(s, e.request, RevKey(id, e.edit.revision), u)
    case UpdateRequest(id, _, NewPassword(p)) =>
      e.id == id && e.seen.Some? && e.edit.Protect? && e.edit.password == p
    case UnpublishRequest(id, _) =>
      e.id == id && e.seen.Some? && (e.edit.Revoke? || e.edit.NoteCleanup?)
  }

  ghost predicate Own(s: Store, rid: nat, k: RevKey, u: Upload) {
    k in s.issued && s.issued[k] == Issue(rid, u)
  }

  /** What an unpublish may have committed before it notes how its sweep went. */
  predicate Swept(edits: seq<Edit>) { edits == [] || edits == [Revoke] }

  /** What the answer of a finished request says about what it committed. */
  ghost predicate Answered(s: Store, rid: nat, req: Request, answer: nat) {
    var edits := EditsOf(s.log, rid);
    match req
    case CreateRequest(u, password, admin) =>
      if answer == 201 then
        |edits| == 1 && edits[0].Publish?
        && edits[0].record.(id := 0, revision := 0, anchor := 0)
           == Record(0, admin, Published, 0, u.manifest, password, 0, Cleanup(NoCleanup, 0))
      else edits == []
    case UpdateRequest(_, _, NewBundle(u)) =>
      if answer == 200 then |edits| == 1 && edits[0].Bundle? && edits[0].manifest == u.manifest
      else edits == []
    case UpdateRequest(_, _, NewPassword(p)) =>
      if answer == 200 then |edits| == 1 && edits[0].Protect? && edits[0].password == p
      else edits == []
    case UnpublishRequest(id, _) =>
      if answer == 200 then
        Revoked(s, id) && (Swept(edits) || (Swept(edits[..|edits| - 1]) && edits[|edits| - 1].NoteCleanup?))
      else if answer == 500 then Swept(edits)
      else edits == [] || (answer == 409 && edits == [Revoke] && Revoked(s, id) && id in s.gone)
  }

  ghost predicate Revoking(s: Store, rid: nat, job: Job, r: Record) {
    && job.request.UnpublishRequest? && Seen(s, r)
    && r.id == job.request.id && r.admin == job.request.admin
  }

  ghost predicate JobInv(s: Store, rid: nat, job: Job) {
    match job.pc
    case Authorize => EditsOf(s.log, rid) == [] && job.request.UpdateRequest? && Acceptable(job.request)
    case Prepare(loaded) =>
      && EditsOf(s.log, rid) == [] && UploadOf(job.request).Some? && Acceptable(job.request)
      && loaded.None? == job.request.CreateRequest?
      && (loaded.Some? ==>
            && Seen(s, loaded.value) && loaded.value.status.Published?
            && loaded.value.id == job.request.id && loaded.value.admin == job.request.admin)
    case PutPart(loaded, r, part) =>
      && Uncommitted(s, rid, job, loaded, r)
      && (part.Snapshot? ==> Written(s, r, Content) && r.manifest.includesData)
    case SaveBundle(loaded, r) =>
      && Uncommitted(s, rid, job, loaded, r)
      && (forall p | p in Retained(r.manifest) :: Written(s, r, p))
    case Discard(r, _, withManifest, answer) =>
      && EditsOf(s.log, rid) == [] && answer >= 400
      && UploadOf(job.request).Some?
      && r.Rev() in s.issued && s.issued[r.Rev()].request == rid && r.Rev() !in s.placed
      && (withManifest ==> r.id in s.pages && s.pages[r.id] == rid && r.id !in s.records)
    case Supersede(superseded, _) =>
      && superseded in s.retired
      && job.request.UpdateRequest? && Answered(s, rid, job.request, 200)
    case RenewGet(r, since, todo) => Renewing(s, rid, job, r, since, todo)
    case RenewPut(r, since, todo, bytes) =>
      && Renewing(s, rid, job, r, since, todo) && todo != []
      && PartOf(s.issued[r.Rev()].upload, todo[0]) == Some(bytes)
    case RenewStamp(r, since) => Renewing(s, rid, job, r, since, [])
    case RenewSave(r, since, record) =>
      && Renewing(s, rid, job, r, since, [])
      && record == r.(password := job.request.change.password, anchor := record.anchor)
      && since <= record.anchor <= s.clock
    case RevokeLoad(_) => EditsOf(s.log, rid) == [] && job.request.UnpublishRequest?
    case RevokeSave(_, r) => EditsOf(s.log, rid) == [] && Revoking(s, rid, job, r)
    case Reload =>
      job.request.UnpublishRequest? && EditsOf(s.log, rid) == [Revoke] && Revoked(s, job.request.id)
      && s.records[job.request.id].admin == job.request.admin
    case SweepList(r, found) =>
      Revoking(s, rid, job, r) && r.status.Unpublished? && Swept(EditsOf(s.log, rid))
      && forall k | k in found :: k.at.id == r.id
    case SweepDelete(r, todo, _) =>
      Revoking(s, rid, job, r) && r.status.Unpublished? && Swept(EditsOf(s.log, rid))
      && forall k | k in todo :: k.at.id == r.id
    case SweepSave(r, _) => Revoking(s, rid, job, r) && r.status.Unpublished? && Swept(EditsOf(s.log, rid))
    case Done(answer) => Answered(s, rid, job.request, answer)
  }

  /** Each entry replaced exactly the record that its request had loaded and authorised against. */
  ghost predicate Chained(log: seq<Entry>) {
    forall i | 0 <= i < |log| :: Lookup(Replay(log[..i]), log[i].id) == log[i].seen
  }

  ghost predicate BlobsInv(s: Store) {
    && (forall k | k in s.blobs ::
          && k in s.lastPut && s.lastPut[k] == s.blobs[k].uploadedAt
          && k.at in s.issued && PartOf(s.issued[k.at].upload, k.part) == Some(s.blobs[k].bytes))
    && (forall k | k in s.lastPut :: s.lastPut[k] <= s.clock)
  }

  ghost predicate HistoryInv(s: Store) {
    && s.retired <= s.placed <= s.issued.Keys
    && (forall k | k in s.issued :: s.issued[k].upload.Valid())
    && (forall k | k in s.placed :: k in s.retired || (k.id in s.records && s.records[k.id].Rev() == k))
  }

  ghost predicate LogInv(s: Store) {
    s.records == Replay(s.log) && Chained(s.log)
  }

  ghost predicate ManifestInv(s: Store, id: nat)
    requires id in s.records
  {
    var r := s.records[id];
    && r.id == id && id in s.pages && Genuine(s, r) && r.Rev() !in s.retired
    && id in s.savedAt && r.anchor <= s.savedAt[id] <= s.clock
    && (id in s.gone ==> s.clock - s.savedAt[id] > RETENTION_MS)
    && LastRenewal(s.log, id).Some? && AnchorOf(LastRenewal(s.log, id).value) == r.anchor
    && RenewedSince(LastRenewal(s.log, id)) <= r.anchor
    && (r.status.Published? ==>
          && (forall p | p in Retained(r.manifest) :: Present(s, r.Key(p)))
          && PutSince(s, r, [], RenewedSince(LastRenewal(s.log, id))))
  }

  ghost predicate StoreInv(s: Store) {
    && BlobsInv(s) && HistoryInv(s) && LogInv(s)
    && (forall id | id in s.records :: ManifestInv(s, id))
  }

  function AdminOf(r: Request): nat {
    match r
    case CreateRequest(_, _, admin) => admin
    case UpdateRequest(_, admin, _) => admin
    case UnpublishRequest(_, admin) => admin
  }

  /** Every committed change was asked for by a request for that page that holds its admin token. */
  ghost predicate Authorised(s: State) {
    forall e | e in s.store.log ::
      && e.request in s.jobs
      && Committed(s.store, s.jobs[e.request].request, e)
      && (e.seen.Some? ==> e.seen.value.admin == AdminOf(s.jobs[e.request].request))
  }

  ghost predicate Inv(s: State) {
    && StoreInv(s.store)
    && (forall rid | rid in s.jobs :: JobInv(s.store, rid, s.jobs[rid]))
    && Authorised(s)
  }

  /* ---- What a step of one job guarantees to all others ---- */

  /** An object of a bundle that some other job is still writing. */
  ghost predicate Foreign(s: Store, actor: nat, k: RevKey) {
    k in s.issued && s.issued[k].request != actor && k !in s.placed
  }

  /** What never goes back, whatever happens. */
  ghost predicate Evolves(s: Store, t: Store) {
    && s.clock <= t.clock
    && (forall k | k in s.issued :: k in t.issued && t.issued[k] == s.issued[k])
    && (forall id | id in s.pages :: id in t.pages && t.pages[id] == s.pages[id])
    && s.placed <= t.placed && s.retired <= t.retired
    && (forall k | k in s.lastPut :: k in t.lastPut && s.lastPut[k] <= t.lastPut[k])
    && (forall id | id in s.records ::
          && id in t.records && t.records[id].admin == s.records[id].admin
          && s.records[id].anchor <= t.records[id].anchor
          && (Revoked(s, id) ==> Revoked(t, id))
          && (id in s.gone ==> id in t.gone))
  }

  ghost predicate Grows(s: Store, t: Store, actor: nat) {
    && Evolves(s, t)
    && (forall k | Foreign(s, actor, k) :: k !in t.placed)
    && (forall id | id in s.pages && s.pages[id] != actor && id !in s.records :: id !in t.records)
    && (forall k | k in s.lastPut && Foreign(s, actor, k.at) && Present(s, k) :: Present(t, k) || Revoked(t, k.at.id))
    && (forall rid | rid != actor :: EditsOf(t.log, rid) == EditsOf(s.log, rid))
  }

  lemma {:induction false} SeenStable(s: Store, t: Store, actor: nat, r: Record)
    requires Grows(s, t, actor) && Seen(s, r)
    ensures Seen(t, r)
  {
  }

  lemma {:induction false} WrittenStable(s: Store, t: Store, actor: nat, r: Record, p: Part)
    requires Grows(s, t, actor) && Written(s, r, p) && Foreign(s, actor, r.Rev())
    ensures Written(t, r, p)
  {
  }

  lemma {:induction false} UncommittedStable(s: Store, t: Store, actor: nat, rid: nat, job: Job, base: Option<Record>, r: Record)
    requires Grows(s, t, actor) && rid != actor && Uncommitted(s, rid, job, base, r)
    ensures Uncommitted(t, rid, job, base, r) && Foreign(s, actor, r.Rev())
  {
    assert Foreign(s, actor, r.Rev());
    if base.Some? { SeenStable(s, t, actor, base.value); }
  }

  lemma {:induction false} RenewingStable(s: Store, t: Store, actor: nat, rid: nat, job: Job, r: Record, since: nat, todo: seq<Part>)
    requires Grows(s, t, actor) && rid != actor && Renewing(s, rid, job, r, since, todo)
    ensures Renewing(t, rid, job, r, since, todo)
  {
    SeenStable(s, t, actor, r);
  }

  predicate Writing(pc: Pc) { pc.Prepare? || pc.PutPart? || pc.SaveBundle? || pc.Discard? }

  predicate Renews(pc: Pc) { pc.RenewGet? || pc.RenewPut? || pc.RenewStamp? || pc.RenewSave? }

  lemma {:induction false} WritingStable(s: Store, t: Store, actor: nat, rid: nat, job: Job)
    requires Grows(s, t, actor) && rid != actor && JobInv(s, rid, job) && Writing(job.pc)
    ensures JobInv(t, rid, job)
  {
    match job.pc {
      case Prepare(base) => if base.Some? { SeenStable(s, t, actor, base.value); }
      case PutPart(base, r, part) =>
        UncommittedStable(s, t, actor, rid, job, base, r);
        if part.Snapshot? { WrittenStable(s, t, actor, r, Content); }
      case SaveBundle(base, r) =>
        UncommittedStable(s, t, actor, rid, job, base, r);
        forall p | p in Retained(r.manifest) ensures Written(t, r, p) { WrittenStable(s, t, actor, r, p); }
      case Discard(r, _, _, _) => assert Foreign(s, actor, r.Rev());
    }
  }

  lemma {:induction false} RenewsStable(s: Store, t: Store, actor: nat, rid: nat, job: Job)
    requires Grows(s, t, actor) && rid != actor && JobInv(s, rid, job) && Renews(job.pc)
    ensures JobInv(t, rid, job)
  {
    match job.pc {
      case RenewGet(r, since, todo) => RenewingStable(s, t, actor, rid, job, r, since, todo);
      case RenewPut(r, since, todo, _) => RenewingStable(s, t, actor, rid, job, r, since, todo);
      case RenewStamp(r, since) => RenewingStable(s, t, actor, rid, job, r, since, []);
      case RenewSave(r, since, _) => RenewingStable(s, t, actor, rid, job, r, since, []);
    }
  }

  lemma {:induction false} Stable(s: Store, t: Store, actor: nat, rid: nat, job: Job)
    requires Grows(s, t, actor) && rid != actor && JobInv(s, rid, job)
    ensures JobInv(t, rid, job)
  {
    if Writing(job.pc) { WritingStable(s, t, actor, rid, job); }
    else if Renews(job.pc) { RenewsStable(s, t, actor, rid, job); }
    else {
      match job.pc {
        case RevokeSave(_, r) => SeenStable(s, t, actor, r);
        case SweepList(r, _) => SeenStable(s, t, actor, r);
        case SweepDelete(r, _, _) => SeenStable(s, t, actor, r);
        case SweepSave(r, _) => SeenStable(s, t, actor, r);
        case _ =>
      }
    }
  }
}
