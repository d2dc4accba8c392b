/** What a request achieves when nothing goes wrong: from every reachable state, each schedule of its own
    calls in which every call succeeds ends with the same answer and the same effect, and there is one. */
module PagesService {
  import opened Wrappers
  import opened PagesProtocol
  import opened PagesInvariant
  import opened PagesSafety
  import opened PagesAnswers

  /* ---- Schedules in which every call succeeds ---- */

  predicate Works(c: Choice) {
    match c
    case Call(outcome) => outcome.Succeeds?
    case Remove(_, works) => works
    case RemoveManifest(works) => works
    case Delete(_, works) => works
    case _ => true
  }

  /** The objects under the page's prefix. */
  function Under(s: Store, id: nat): set<BlobKey> {
    set k | k in s.blobs && k.at.id == id
  }

  /** A page of a listing shows what is there, and the last one comes when everything was shown. */
  predicate Lists(s: Store, id: nat, c: Choice, shown: set<BlobKey>)
    requires c.Listed?
  {
    c.keys <= Under(s, id) && (!c.more ==> Under(s, id) <= shown + c.keys)
  }

  predicate Listing(job: Job, c: Choice) { job.pc.SweepList? && job.request.UnpublishRequest? && c.Listed? }

  /** Only this request makes calls, and all of them succeed. */
  ghost predicate Smooth(s: State, rid: nat, own: seq<Event>, shown: set<BlobKey>)
    decreases |own|
  {
    own == []
    || (&& rid in s.jobs && own[0].Act? && own[0].request == rid && Works(own[0].choice)
        && var listing := Listing(s.jobs[rid], own[0].choice);
        && (listing ==> Lists(s.store, s.jobs[rid].request.id, own[0].choice, shown))
        && Smooth(Step(s, own[0]), rid, own[1..], if listing then shown + own[0].choice.keys else shown))
  }

  /* ---- Answer and effect ---- */

  /** Every object the page needs is there. */
  ghost predicate Complete(s: Store, r: Record) {
    forall p | p in Retained(r.manifest) :: r.Key(p) in s.blobs
  }

  ghost function Expected(s: Store, req: Request): nat {
    match req
    case CreateRequest(_, _, _) => 201
    case UpdateRequest(_, _, change) =>
      if WrongToken(s, req) then 401
      else if NotFound(s, req) then 404
      else if change.NewPassword? && !Complete(s, Stored(s, req.id).value) then 503
      else 200
    case UnpublishRequest(_, _) => if WrongToken(s, req) then 401 else if NotFound(s, req) then 404 else 200
  }

  ghost predicate SameBlob(a: Store, t: Store, k: BlobKey) {
    (k in a.blobs <==> k in t.blobs) && (k in a.blobs ==> t.blobs[k] == a.blobs[k])
  }

  ghost predicate SamePages(a: Store, t: Store) {
    forall id :: Stored(t, id) == Stored(a, id)
  }

  ghost predicate SameOthers(a: Store, t: Store, page: nat) {
    forall id | id != page :: Stored(t, id) == Stored(a, id)
  }

  /** The revision holds exactly the parts of the upload, put at that time. */
  ghost predicate Holds(t: Store, k: RevKey, u: Upload, at: nat) {
    forall p ::
      match PartOf(u, p)
      case None => BlobKey(k, p) !in t.blobs
      case Some(bytes) => BlobKey(k, p) in t.blobs && t.blobs[BlobKey(k, p)] == Blob(bytes, at)
  }

  /** The revision was drawn by this request, for its upload. */
  ghost predicate DrawnFor(a: Store, t: Store, rid: nat, k: RevKey, u: Upload) {
    k !in a.issued && k in t.issued && t.issued[k] == Issue(rid, u)
  }

  /** The record is stored with its upload; superseded objects are gone and no other page or object changed. */
  ghost predicate InPlace(a: Store, t: Store, rid: nat, r: Record, u: Upload, superseded: Option<RevKey>) {
    && Stored(t, r.id) == Some(r) && SameOthers(a, t, r.id)
    && DrawnFor(a, t, rid, r.Rev(), u) && Holds(t, r.Rev(), u, a.clock)
    && forall k: BlobKey | k.at != r.Rev() :: if Some(k.at) == superseded then k !in t.blobs else SameBlob(a, t, k)
  }

  function CreatedRecord(req: Request, page: nat, revision: nat, now: nat): Record
    requires req.CreateRequest?
  {
    Record(page, req.admin, Published, revision, req.upload.manifest, req.password, now, Cleanup(NoCleanup, 0))
  }

  /** A page that did not exist is published with the upload. */
  ghost predicate Created(a: Store, t: Store, rid: nat, req: Request, page: nat, revision: nat)
    requires req.CreateRequest?
  {
    page !in a.pages && InPlace(a, t, rid, CreatedRecord(req, page, revision, a.clock), req.upload, None)
  }

  /** The page has the new content under a new revision, and its old password. */
  ghost predicate Updated(a: Store, t: Store, rid: nat, r: Record, u: Upload, revision: nat) {
    InPlace(a, t, rid, r.(revision := revision, manifest := u.manifest, anchor := a.clock), u, Some(r.Rev()))
  }

  ghost predicate SameBytes(a: Store, t: Store) {
    a.blobs.Keys == t.blobs.Keys && forall k | k in a.blobs :: t.blobs[k].bytes == a.blobs[k].bytes
  }

  /** Every object of these parts was put again, with its old bytes. */
  ghost predicate PutAgain(a: Store, t: Store, r: Record, parts: seq<Part>) {
    && SameBytes(a, t)
    && (forall p | p in parts :: r.Key(p) in t.blobs && t.blobs[r.Key(p)].uploadedAt == a.clock)
    && (forall k: BlobKey | k.at != r.Rev() :: SameBlob(a, t, k))
  }

  /** The page has the new password, and its retention starts again. */
  ghost predicate Protected(a: Store, t: Store, r: Record, password: Option<Password>) {
    && Stored(t, r.id) == Some(r.(password := password, anchor := a.clock)) && SameOthers(a, t, r.id)
    && PutAgain(a, t, r, Retained(r.manifest))
  }

  /** The tombstone that a sweep starts from: one already there, or the one just written. */
  function Tombstone(r: Record): Record {
    if r.status.Unpublished? then r else r.(status := Unpublished, cleanup := Cleanup(CleanupPending, 0))
  }

  function SweptTombstone(r: Record): Record {
    Tombstone(r).(cleanup := Cleanup(CleanupComplete, Tombstone(r).cleanup.attempts + 1))
  }

  /** The page is a tombstone whose clean-up is noted as complete, and it is: no object is left. */
  ghost predicate Withdrawn(a: Store, t: Store, r: Record) {
    && Stored(t, r.id) == Some(SweptTombstone(r)) && SameOthers(a, t, r.id)
    && Under(t, r.id) == {}
    && forall k: BlobKey | k.at.id != r.id :: SameBlob(a, t, k)
  }

  ghost predicate Served(a: Store, t: Store, rid: nat, req: Request) {
    match req
    case CreateRequest(_, _, _) => exists page, revision :: Created(a, t, rid, req, page, revision)
    case UpdateRequest(id, _, NewBundle(u)) =>
      if Expected(a, req) == 200 then exists revision :: Updated(a, t, rid, Stored(a, id).value, u, revision)
      else SamePages(a, t) && forall k :: SameBlob(a, t, k)
    case UpdateRequest(id, _, NewPassword(p)) =>
      if Expected(a, req) == 200 then Protected(a, t, Stored(a, id).value, p)
      else SamePages(a, t) && SameBytes(a, t)
    case UnpublishRequest(id, _) =>
      if Expected(a, req) == 200 then Withdrawn(a, t, Stored(a, id).value)
      else SamePages(a, t) && forall k :: SameBlob(a, t, k)
  }

  /* ---- Where such a request stands: a is the store it started from, s the store now ---- */

  ghost predicate Untouched(a: Store, s: Store) {
    s.clock == a.clock && s.records == a.records && s.gone == a.gone
  }

  /** The part is the next to put: what comes before it is there, what comes after is not. */
  ghost predicate PutBefore(s: Store, k: RevKey, u: Upload, part: Part, at: nat) {
    && BlobKey(k, Snapshot) !in s.blobs
    && (part.Content? ==> BlobKey(k, Content) !in s.blobs)
    && (part.Snapshot? ==> u.snapshot.Some? && BlobKey(k, Content) in s.blobs
                           && s.blobs[BlobKey(k, Content)] == Blob(u.content, at))
  }

  /** The record the request loaded and may change. */
  ghost predicate Base(a: Store, req: Request, base: Option<Record>) {
    match req
    case CreateRequest(_, _, _) => base == None
    case UpdateRequest(id, admin, _) =>
      base == Stored(a, id) && base.Some? && base.value.admin == admin && base.value.status.Published?
    case UnpublishRequest(id, admin) => base == Stored(a, id) && base.Some? && base.value.admin == admin
  }

  ghost predicate Drafted(a: Store, s: Store, rid: nat, req: Request, base: Option<Record>, r: Record) {
    && UploadOf(req).Some? && Untouched(a, s) && Base(a, req, base)
    && DrawnFor(a, s, rid, r.Rev(), UploadOf(req).value)
    && Some(r) == NewRecord(req, base, r.id, r.revision, a.clock)
    && (base.None? ==> r.id !in a.pages)
    && (forall k: BlobKey | k.at != r.Rev() :: SameBlob(a, s, k))
  }

  ghost predicate Superseding(a: Store, s: Store, rid: nat, req: Request, stale: RevKey, left: set<Part>) {
    && req.UpdateRequest? && req.change.NewBundle?
    && Base(a, req, Stored(a, req.id)) && stale == Stored(a, req.id).value.Rev()
    && Stored(s, req.id).Some? && SameOthers(a, s, req.id)
    && var u, r, now := req.change.upload, Stored(a, req.id).value, Stored(s, req.id).value;
    && now == r.(revision := now.revision, manifest := u.manifest, anchor := a.clock) && now.Rev() != stale
    && DrawnFor(a, s, rid, now.Rev(), u) && Holds(s, now.Rev(), u, a.clock)
    && forall k: BlobKey | k.at != now.Rev() ::
         if k.at == stale then k in s.blobs ==> k.part in left else SameBlob(a, s, k)
  }

  /** The password request has put all retained objects again but those still to do. */
  ghost predicate PuttingAgain(a: Store, s: Store, req: Request, r: Record, todo: seq<Part>) {
    var parts := Retained(r.manifest);
    && req.UpdateRequest? && req.change.NewPassword?
    && Untouched(a, s) && Base(a, req, Some(r))
    && |todo| <= |parts| && todo == parts[|parts| - |todo|..]
    && PutAgain(a, s, r, parts[..|parts| - |todo|])
  }

  /** The page is a tombstone, and of its objects at most these are left. */
  ghost predicate Sweeping(a: Store, s: Store, req: Request, r: Record, left: set<BlobKey>) {
    && req.UnpublishRequest? && Base(a, req, Stored(a, req.id))
    && r == Tombstone(Stored(a, req.id).value) && r.id == req.id
    && Stored(s, req.id) == Some(r) && SameOthers(a, s, req.id)
    && Under(s, req.id) <= left && (forall k | k in left :: k.at.id == req.id)
    && forall k: BlobKey | k.at.id != req.id :: SameBlob(a, s, k)
  }

  ghost predicate Writes(a: Store, s: Store, rid: nat, req: Request, pc: Pc) {
    match pc
    case Prepare(base) => s == a && UploadOf(req).Some? && Base(a, req, base)
    case PutPart(base, r, part) =>
      Drafted(a, s, rid, req, base, r) && PutBefore(s, r.Rev(), UploadOf(req).value, part, a.clock)
    case SaveBundle(base, r) =>
      Drafted(a, s, rid, req, base, r) && Holds(s, r.Rev(), UploadOf(req).value, a.clock)
    case Supersede(stale, left) => Superseding(a, s, rid, req, stale, left)
    case _ => false
  }

  ghost predicate PutsAgain(a: Store, s: Store, req: Request, pc: Pc) {
    match pc
    case RenewGet(r, _, todo) => PuttingAgain(a, s, req, r, todo)
    case RenewPut(r, _, todo, bytes) =>
      PuttingAgain(a, s, req, r, todo)
      && todo != [] && r.Key(todo[0]) in s.blobs && bytes == s.blobs[r.Key(todo[0])].bytes
    case RenewStamp(r, _) => PuttingAgain(a, s, req, r, [])
    case RenewSave(r, _, record) =>
      PuttingAgain(a, s, req, r, []) && record == r.(password := req.change.password, anchor := a.clock)
    case _ => false
  }

  /** shown is what the listing has shown so far. */
  ghost predicate Withdraws(a: Store, s: Store, req: Request, pc: Pc, shown: set<BlobKey>)
    requires req.UnpublishRequest?
  {
    match pc
    case RevokeLoad(_) => s == a && shown == {}
    case RevokeSave(_, r) => s == a && Base(a, req, Some(r)) && r.status.Published? && shown == {}
    case Reload => Base(a, req, Stored(a, req.id)) && shown == {}
                   && Sweeping(a, s, req, Tombstone(Stored(a, req.id).value), Under(s, req.id))
    case SweepList(r, found) => Sweeping(a, s, req, r, Under(s, req.id)) && found == shown
                                && forall k | k in found :: k.at.id == req.id
    case SweepDelete(r, left, failed) => Sweeping(a, s, req, r, left) && !failed
    case SweepSave(r, failed) => Sweeping(a, s, req, r, {}) && !failed
    case _ => false
  }

  ghost predicate Ends(a: Store, s: Store, rid: nat, req: Request, pc: Pc) {
    pc.Done? && pc.answer == Expected(a, req) && Served(a, s, rid, req)
  }

  ghost predicate Along(a: Store, s: Store, rid: nat, req: Request, pc: Pc, shown: set<BlobKey>) {
    || (pc.Authorize? && s == a && req.UpdateRequest?)
    || Writes(a, s, rid, req, pc)
    || PutsAgain(a, s, req, pc)
    || (req.UnpublishRequest? && Withdraws(a, s, req, pc, shown))
    || Ends(a, s, rid, req, pc)
  }

  /** What the proofs below need of the store a request starts from. */
  ghost predicate Sound(a: Store) {
    && (forall id | id in a.records :: a.records[id].id == id && a.records[id].Rev() in a.issued && id in a.pages)
    && (forall k | k in a.blobs :: k.at in a.issued)
  }

  lemma {:induction false} InvSound(a: Store)
    requires StoreInv(a)
    ensures Sound(a)
  {
    forall id | id in a.records ensures a.records[id].id == id && a.records[id].Rev() in a.issued && id in a.pages {
      assert ManifestInv(a, id);
    }
  }

  lemma {:induction false} AuthorizeAdvances(a: Store, rid: nat, job: Job, c: Choice)
    requires Sound(a) && Works(c) && job.pc.Authorize? && job.request.UpdateRequest?
    ensures var next := AuthorizePc(a, job, c);
            || (next.Prepare? && Writes(a, a, rid, job.request, next))
            || (next.RenewGet? && PutsAgain(a, a, job.request, next))
            || Ends(a, a, rid, job.request, next) || next == job.pc
  {
    var next := AuthorizePc(a, job, c);
    if next.RenewGet? { assert Retained(next.loaded.manifest)[0..] == Retained(next.loaded.manifest); }
  }

  lemma {:induction false} PrepareAdvances(a: Store, s: Store, rid: nat, job: Job, c: Choice)
    requires Sound(a) && Works(c) && job.pc.Prepare? && Writes(a, s, rid, job.request, job.pc)
    ensures var next := StepPrepare(s, rid, job, c);
            Writes(a, next.0, rid, job.request, next.1) || Ends(a, next.0, rid, job.request, next.1)
  {
  }

  lemma {:induction false} PutPartEffect(a: Store, s: Store, rid: nat, req: Request, base: Option<Record>, r: Record, part: Part, bytes: Bytes)
    requires Drafted(a, s, rid, req, base, r) && PutBefore(s, r.Rev(), UploadOf(req).value, part, a.clock)
    requires PartOf(UploadOf(req).value, part) == Some(bytes)
    ensures var t := PutBlob(s, r.Key(part), bytes); var u := UploadOf(req).value;
            && Drafted(a, t, rid, req, base, r)
            && if part.Content? && u.snapshot.Some? then PutBefore(t, r.Rev(), u, Snapshot, a.clock)
               else Holds(t, r.Rev(), u, a.clock)
  {
  }

  lemma {:induction false} PutPartAdvances(a: Store, s: Store, rid: nat, job: Job, c: Choice)
    requires Sound(a) && Works(c) && job.pc.PutPart? && Writes(a, s, rid, job.request, job.pc)
    ensures var next := StepPutPart(s, rid, job, c);
            Writes(a, next.0, rid, job.request, next.1) || Ends(a, next.0, rid, job.request, next.1)
  {
    var PutPart(base, r, part) := job.pc;
    var bytes := PartOf(UploadOf(job.request).value, part);
    if bytes.Some? { PutPartEffect(a, s, rid, job.request, base, r, part, bytes.value); }
  }

  /** What a manifest write changes. */
  lemma {:induction false} CommitEffect(s: Store, rid: nat, id: nat, seen: Option<Record>, edit: Edit)
    requires Apply(seen, edit).Some?
    ensures var t := CommitEdit(s, rid, id, seen, edit);
            && Stored(t, id) == Apply(seen, edit) && SameOthers(s, t, id)
            && t.blobs == s.blobs && t.issued == s.issued && t.clock == s.clock
  {
  }

  lemma {:induction false} CreationCommits(a: Store, s: Store, rid: nat, req: Request, r: Record)
    requires req.CreateRequest? && Drafted(a, s, rid, req, None, r) && Holds(s, r.Rev(), req.upload, a.clock)
    ensures Created(a, CommitEdit(s, rid, r.id, None, Publish(r)), rid, req, r.id, r.revision)
  {
    CommitEffect(s, rid, r.id, None, Publish(r));
  }

  lemma {:induction false} UpdateCommits(a: Store, s: Store, rid: nat, req: Request, base: Record, r: Record)
    requires Sound(a) && req.UpdateRequest? && req.change.NewBundle?
    requires Drafted(a, s, rid, req, Some(base), r) && Holds(s, r.Rev(), req.change.upload, a.clock)
    ensures var edit := Bundle(r.revision, r.manifest, r.anchor);
            && base.Rev() != r.Rev()
            && Superseding(a, CommitEdit(s, rid, r.id, Some(base), edit), rid, req, base.Rev(), {Content, Snapshot})
  {
    CommitEffect(s, rid, r.id, Some(base), Bundle(r.revision, r.manifest, r.anchor));
    assert base.Rev() in a.issued;
    forall k: BlobKey ensures k.part in {Content, Snapshot} {
      match k.part { case Content => case Snapshot => }
    }
  }

  lemma {:induction false} SaveBundleAdvances(a: Store, s: Store, rid: nat, job: Job, c: Choice)
    requires Sound(a) && Works(c) && job.pc.SaveBundle? && Writes(a, s, rid, job.request, job.pc)
    ensures var next := StepSaveBundle(s, rid, job, c);
            Writes(a, next.0, rid, job.request, next.1) || Ends(a, next.0, rid, job.request, next.1)
  {
    var SaveBundle(base, r) := job.pc;
    if job.request.CreateRequest? { CreationCommits(a, s, rid, job.request, r); }
    else { UpdateCommits(a, s, rid, job.request, base.value, r); }
  }

  lemma {:induction false} SupersedeEffect(a: Store, s: Store, rid: nat, req: Request, stale: RevKey, left: set<Part>, part: Part)
    requires Superseding(a, s, rid, req, stale, left) && part in left
    ensures Superseding(a, DropBlob(s, BlobKey(stale, part)), rid, req, stale, left - {part})
  {
  }

  lemma {:induction false} SupersedeEnds(a: Store, s: Store, rid: nat, req: Request, stale: RevKey)
    requires Sound(a) && Superseding(a, s, rid, req, stale, {})
    ensures Expected(a, req) == 200 && Served(a, s, rid, req)
  {
    assert Updated(a, s, rid, Stored(a, req.id).value, req.change.upload, Stored(s, req.id).value.revision);
  }

  lemma {:induction false} SupersedeAdvances(a: Store, s: Store, rid: nat, job: Job, c: Choice)
    requires Sound(a) && Works(c) && job.pc.Supersede? && Writes(a, s, rid, job.request, job.pc)
    ensures var next := StepSupersede(s, rid, job, c);
            Writes(a, next.0, rid, job.request, next.1) || Ends(a, next.0, rid, job.request, next.1)
  {
    var Supersede(stale, left) := job.pc;
    if c.Remove? && c.part in left { SupersedeEffect(a, s, rid, job.request, stale, left, c.part); }
    else if left == {} { SupersedeEnds(a, s, rid, job.request, stale); }
  }

  lemma {:induction false} RenewGetAdvances(a: Store, s: Store, rid: nat, job: Job, c: Choice)
    requires Sound(a) && Works(c) && job.pc.RenewGet? && PutsAgain(a, s, job.request, job.pc)
    ensures var next := RenewGetPc(s, job, c);
            PutsAgain(a, s, job.request, next) || Ends(a, s, rid, job.request, next)
  {
    var RenewGet(r, _, todo) := job.pc;
    assert todo != [] ==> todo[0] in Retained(r.manifest);
  }

  lemma {:induction false} RenewPutEffect(a: Store, s: Store, req: Request, r: Record, todo: seq<Part>)
    requires PuttingAgain(a, s, req, r, todo) && todo != [] && r.Key(todo[0]) in s.blobs
    ensures PuttingAgain(a, PutBlob(s, r.Key(todo[0]), s.blobs[r.Key(todo[0])].bytes), req, r, todo[1..])
  {
    var parts := Retained(r.manifest);
    var i := |parts| - |todo|;
    assert parts[..i + 1] == parts[..i] + [todo[0]];
    assert todo[1..] == parts[i + 1..];
  }

  lemma {:induction false} RenewPutAdvances(a: Store, s: Store, rid: nat, job: Job, c: Choice)
    requires Sound(a) && Works(c) && job.pc.RenewPut? && PutsAgain(a, s, job.request, job.pc)
    ensures var next := StepRenewPut(s, rid, job, c);
            PutsAgain(a, next.0, job.request, next.1) || Ends(a, next.0, rid, job.request, next.1)
  {
    RenewPutEffect(a, s, job.request, job.pc.loaded, job.pc.todo);
  }

  lemma {:induction false} RenewStampAdvances(a: Store, s: Store, rid: nat, job: Job, c: Choice)
    requires Sound(a) && Works(c) && job.pc.RenewStamp? && PutsAgain(a, s, job.request, job.pc)
    ensures var next := RenewStampPc(s, job, c);
            PutsAgain(a, s, job.request, next) || Ends(a, s, rid, job.request, next)
  {
  }

  lemma {:induction false} RenewSaveEffect(a: Store, s: Store, rid: nat, req: Request, r: Record, edit: Edit)
    requires Sound(a) && PuttingAgain(a, s, req, r, []) && edit.Protect?
    requires edit.password == req.change.password && edit.anchor == a.clock
    ensures Expected(a, req) == 200 && Served(a, CommitEdit(s, rid, r.id, Some(r), edit), rid, req)
  {
    CommitEffect(s, rid, r.id, Some(r), edit);
    assert Retained(r.manifest)[..|Retained(r.manifest)|] == Retained(r.manifest);
  }

  lemma {:induction false} RenewSaveAdvances(a: Store, s: Store, rid: nat, job: Job, c: Choice)
    requires Sound(a) && Works(c) && job.pc.RenewSave? && PutsAgain(a, s, job.request, job.pc)
    ensures var next := StepRenewSave(s, rid, job, c);
            PutsAgain(a, next.0, job.request, next.1) || Ends(a, next.0, rid, job.request, next.1)
  {
    var RenewSave(r, since, record) := job.pc;
    RenewSaveEffect(a, s, rid, job.request, r, Protect(record.password, record.anchor, since));
  }

  lemma {:induction false} RevokeLoadAdvances(a: Store, s: Store, rid: nat, job: Job, c: Choice, shown: set<BlobKey>)
    requires Sound(a) && Works(c) && job.pc.RevokeLoad? && job.request.UnpublishRequest? && Withdraws(a, s, job.request, job.pc, shown)
    ensures var next := RevokeLoadPc(s, job, c);
            Withdraws(a, s, job.request, next, shown) || Ends(a, s, rid, job.request, next)
  {
  }

  lemma {:induction false} RevokeEffect(a: Store, rid: nat, req: Request, r: Record)
    requires Sound(a) && req.UnpublishRequest? && Base(a, req, Some(r)) && r.status.Published?
    ensures var t := CommitEdit(a, rid, r.id, Some(r), Revoke);
            Sweeping(a, t, req, Tombstone(r), Under(t, req.id))
  {
    CommitEffect(a, rid, r.id, Some(r), Revoke);
  }

  lemma {:induction false} RevokeSaveAdvances(a: Store, s: Store, rid: nat, job: Job, c: Choice, shown: set<BlobKey>)
    requires Sound(a) && Works(c) && job.pc.RevokeSave? && job.request.UnpublishRequest? && Withdraws(a, s, job.request, job.pc, shown)
    ensures var next := StepRevokeSave(s, rid, job, c);
            Withdraws(a, next.0, job.request, next.1, shown) || Ends(a, next.0, rid, job.request, next.1)
  {
    RevokeEffect(a, rid, job.request, job.pc.loaded);
  }

  lemma {:induction false} ReloadAdvances(a: Store, s: Store, rid: nat, job: Job, c: Choice, shown: set<BlobKey>)
    requires Sound(a) && Works(c) && job.pc.Reload? && job.request.UnpublishRequest? && Withdraws(a, s, job.request, job.pc, shown)
    ensures var next := ReloadPc(s, job, c);
            Withdraws(a, s, job.request, next, shown) || Ends(a, s, rid, job.request, next)
  {
  }

  lemma {:induction false} SweepListAdvances(a: Store, s: Store, rid: nat, job: Job, c: Choice, shown: set<BlobKey>)
    requires Sound(a) && Works(c) && job.pc.SweepList? && job.request.UnpublishRequest? && Withdraws(a, s, job.request, job.pc, shown)
    requires Listing(job, c) ==> Lists(s, job.request.id, c, shown)
    ensures var next := SweepListPc(s, job, c);
            Withdraws(a, s, job.request, next, if Listing(job, c) then shown + c.keys else shown) || Ends(a, s, rid, job.request, next)
  {
  }

  lemma {:induction false} SweepEffect(a: Store, s: Store, req: Request, r: Record, left: set<BlobKey>, key: BlobKey)
    requires Sweeping(a, s, req, r, left) && key in left
    ensures Sweeping(a, DropBlob(s, key), req, r, left - {key})
  {
  }

  lemma {:induction false} SweepDeleteAdvances(a: Store, s: Store, rid: nat, job: Job, c: Choice, shown: set<BlobKey>)
    requires Sound(a) && Works(c) && job.pc.SweepDelete? && job.request.UnpublishRequest? && Withdraws(a, s, job.request, job.pc, shown)
    ensures var next := StepSweepDelete(s, rid, job, c);
            Withdraws(a, next.0, job.request, next.1, shown) || Ends(a, next.0, rid, job.request, next.1)
  {
    if c.Delete? && c.key in job.pc.left { SweepEffect(a, s, job.request, job.pc.loaded, job.pc.left, c.key); }
  }

  lemma {:induction false} SweepNoted(a: Store, s: Store, rid: nat, req: Request, r: Record)
    requires Sound(a) && Sweeping(a, s, req, r, {})
    ensures Expected(a, req) == 200
    ensures Withdrawn(a, CommitEdit(s, rid, r.id, Some(r), CleanupNote(r, false)), Stored(a, req.id).value)
  {
    CommitEffect(s, rid, r.id, Some(r), CleanupNote(r, false));
    assert forall k | k in s.blobs && k.at.id == req.id :: k in Under(s, req.id);
  }

  lemma {:induction false} SweepSaveAdvances(a: Store, s: Store, rid: nat, job: Job, c: Choice, shown: set<BlobKey>)
    requires Sound(a) && Works(c) && job.pc.SweepSave? && job.request.UnpublishRequest? && Withdraws(a, s, job.request, job.pc, shown)
    ensures var next := StepSweepSave(s, rid, job, c);
            Withdraws(a, next.0, job.request, next.1, shown) || Ends(a, next.0, rid, job.request, next.1)
  {
    SweepNoted(a, s, rid, job.request, job.pc.loaded);
  }

  lemma {:induction false} WriteAdvances(a: Store, s: Store, rid: nat, job: Job, c: Choice)
    requires Sound(a) && Works(c) && Writes(a, s, rid, job.request, job.pc)
    ensures var next := StepJob(s, rid, job, c);
            Writes(a, next.0, rid, job.request, next.1) || Ends(a, next.0, rid, job.request, next.1)
  {
    match job.pc {
      case Prepare(_) => PrepareAdvances(a, s, rid, job, c);
      case PutPart(_, _, _) => PutPartAdvances(a, s, rid, job, c);
      case SaveBundle(_, _) => SaveBundleAdvances(a, s, rid, job, c);
      case Supersede(_, _) => SupersedeAdvances(a, s, rid, job, c);
    }
  }

  lemma {:induction false} RenewalAdvances(a: Store, s: Store, rid: nat, job: Job, c: Choice)
    requires Sound(a) && Works(c) && PutsAgain(a, s, job.request, job.pc)
    ensures var next := StepJob(s, rid, job, c);
            PutsAgain(a, next.0, job.request, next.1) || Ends(a, next.0, rid, job.request, next.1)
  {
    match job.pc {
      case RenewGet(_, _, _) => RenewGetAdvances(a, s, rid, job, c);
      case RenewPut(_, _, _, _) => RenewPutAdvances(a, s, rid, job, c);
      case RenewStamp(_, _) => RenewStampAdvances(a, s, rid, job, c);
      case RenewSave(_, _, _) => RenewSaveAdvances(a, s, rid, job, c);
    }
  }

  lemma {:induction false} RevocationAdvances(a: Store, s: Store, rid: nat, job: Job, c: Choice, shown: set<BlobKey>)
    requires Sound(a) && Works(c) && job.request.UnpublishRequest? && Withdraws(a, s, job.request, job.pc, shown)
    requires Listing(job, c) ==> Lists(s, job.request.id, c, shown)
    ensures var next := StepJob(s, rid, job, c);
            || Withdraws(a, next.0, job.request, next.1, if Listing(job, c) then shown + c.keys else shown)
            || Ends(a, next.0, rid, job.request, next.1)
  {
    match job.pc {
      case RevokeLoad(_) => RevokeLoadAdvances(a, s, rid, job, c, shown);
      case RevokeSave(_, _) => RevokeSaveAdvances(a, s, rid, job, c, shown);
      case Reload => ReloadAdvances(a, s, rid, job, c, shown);
      case SweepList(_, _) => SweepListAdvances(a, s, rid, job, c, shown);
      case SweepDelete(_, _, _) => SweepDeleteAdvances(a, s, rid, job, c, shown);
      case SweepSave(_, _) => SweepSaveAdvances(a, s, rid, job, c, shown);
    }
  }

  lemma {:induction false} StepAdvances(a: Store, s: Store, rid: nat, job: Job, c: Choice, shown: set<BlobKey>)
    requires Sound(a) && Works(c) && Along(a, s, rid, job.request, job.pc, shown)
    requires Listing(job, c) ==> Lists(s, job.request.id, c, shown)
    ensures var next := StepJob(s, rid, job, c);
            Along(a, next.0, rid, job.request, next.1, if Listing(job, c) then shown + c.keys else shown)
  {
    if job.pc.Authorize? { AuthorizeAdvances(a, rid, job, c); }
    else if Writes(a, s, rid, job.request, job.pc) { WriteAdvances(a, s, rid, job, c); }
    else if PutsAgain(a, s, job.request, job.pc) { RenewalAdvances(a, s, rid, job, c); }
    else if !job.pc.Done? { RevocationAdvances(a, s, rid, job, c, shown); }
  }

  /* ---- Every such schedule ends well ---- */

  lemma {:induction false} SmoothRun(a: Store, s: State, rid: nat, own: seq<Event>, shown: set<BlobKey>) returns (seen: set<BlobKey>)
    requires Sound(a) && rid in s.jobs && Along(a, s.store, rid, s.jobs[rid].request, s.jobs[rid].pc, shown)
    requires Smooth(s, rid, own, shown)
    ensures var t := Run(s, own);
            && rid in t.jobs && t.jobs[rid].request == s.jobs[rid].request
            && Along(a, t.store, rid, t.jobs[rid].request, t.jobs[rid].pc, seen)
    decreases |own|
  {
    seen := shown;
    if own != [] {
      var c := own[0].choice;
      StepAdvances(a, s.store, rid, s.jobs[rid], c, shown);
      seen := SmoothRun(a, Step(s, own[0]), rid, own[1..], if Listing(s.jobs[rid], c) then shown + c.keys else shown);
    }
  }

  /** Where a request stands when it arrives, and what standing at its end means. */
  lemma {:induction false} Arrived(s: State, rid: nat, req: Request)
    requires rid !in s.jobs && Acceptable(req)
    ensures var t := Step(s, Arrive(rid, req));
            && t.store == s.store && rid in t.jobs && t.jobs[rid].request == req
            && Along(s.store, t.store, rid, req, t.jobs[rid].pc, {})
  {
  }

  lemma {:induction false} AtTheEnd(a: Store, s: Store, rid: nat, req: Request, pc: Pc, shown: set<BlobKey>)
    requires pc.Done? && Along(a, s, rid, req, pc, shown)
    ensures Ends(a, s, rid, req, pc)
  {
  }

  /** From every reachable state, a request whose own calls all succeed, with nobody else in between, can
      only end with the answer its page calls for: 201 for a creation; 404 or 401 when there is no such
      page or another token; 503 for a password change that misses an object; 200 otherwise.  With 200 or
      201 the store then holds exactly what was asked for and is otherwise as before; with an error no
      page and no object's bytes changed. */
  lemma {:induction false} RequestsAreServed(events: seq<Event>, rid: nat, req: Request, own: seq<Event>)
    requires rid !in Reached(events).jobs && Acceptable(req)
    requires var s := Step(Reached(events), Arrive(rid, req));
             Smooth(s, rid, own, {}) && rid in Run(s, own).jobs && Run(s, own).jobs[rid].pc.Done?
    ensures var a := Reached(events).store; var t := Run(Step(Reached(events), Arrive(rid, req)), own);
            t.jobs[rid].pc.answer == Expected(a, req) && Served(a, t.store, rid, req)
  {
    var s := Step(Reached(events), Arrive(rid, req));
    ReachedInv(events);
    Arrived(Reached(events), rid, req);
    InvSound(s.store);
    var seen := SmoothRun(s.store, s, rid, own, {});
    AtTheEnd(s.store, Run(s, own).store, rid, req, Run(s, own).jobs[rid].pc, seen);
  }

  /* ---- There is one ---- */

  /** No number above it is used. */
  lemma {:induction false} Bound(used: set<nat>) returns (bound: nat)
    ensures forall n | n in used :: n < bound
    decreases |used|
  {
    bound := 0;
    if used != {} {
      var n :| n in used;
      var rest := Bound(used - {n});
      bound := if rest <= n then n + 1 else rest;
      assert forall m | m in used :: m == n || m in used - {n};
    }
  }

  /** A page id and a revision that nobody has drawn. */
  lemma {:induction false} Unused(s: Store) returns (page: nat, revision: nat)
    ensures page !in s.pages && forall id :: RevKey(id, revision) !in s.issued
  {
    page := Bound(s.pages.Keys);
    var revisions := set k | k in s.issued :: k.revision;
    revision := Bound(revisions);
    forall id ensures RevKey(id, revision) !in s.issued {
      var k := RevKey(id, revision);
      assert k in s.issued ==> k.revision in revisions;
    }
  }

  /** How far the request is from its end. */
  function Rank(pc: Pc): nat {
    match pc
    case Authorize => 9
    case RevokeLoad(_) => 7
    case RevokeSave(_, _) => 6
    case Prepare(_) => 5
    case Reload => 5
    case PutPart(_, _, part) => if part.Content? then 4 else 3
    case SweepList(_, _) => 4
    case RenewGet(_, _, _) => 3
    case RenewPut(_, _, _, _) => 3
    case SweepDelete(_, _, _) => 3
    case RenewStamp(_, _) => 2
    case SaveBundle(_, _) => 2
    case SweepSave(_, _) => 2
    case Discard(_, _, _, _) => 1
    case RenewSave(_, _, _) => 1
    case Supersede(_, _) => 1
    case Done(_) => 0
  }

  function Left(pc: Pc): nat {
    match pc
    case RenewGet(_, _, todo) => 2 * |todo| + 1
    case RenewPut(_, _, todo, _) => 2 * |todo|
    case Supersede(_, parts) => |parts|
    case SweepDelete(_, left, _) => |left|
    case _ => 0
  }

  ghost predicate Nearer(next: Pc, pc: Pc) {
    Rank(next) < Rank(pc) || (Rank(next) == Rank(pc) && Left(next) < Left(pc))
  }

  lemma {:induction false} PrepareCall(a: Store, s: Store, rid: nat, job: Job) returns (c: Choice)
    requires Writes(a, s, rid, job.request, job.pc) && job.pc.Prepare?
    ensures Works(c) && Nearer(StepPrepare(s, rid, job, c).1, job.pc)
  {
    var page, revision := Unused(s);
    c := Draw(page, revision);
  }

  lemma {:induction false} SupersedeCall(s: Store, rid: nat, job: Job) returns (c: Choice)
    requires job.pc.Supersede?
    ensures Works(c) && Nearer(StepSupersede(s, rid, job, c).1, job.pc)
  {
    c := Call(Succeeds);
    if job.pc.parts != {} {
      var part :| part in job.pc.parts;
      c := Remove(part, true);
    }
  }

  lemma {:induction false} WriteCall(a: Store, s: Store, rid: nat, job: Job) returns (c: Choice)
    requires Sound(a) && Writes(a, s, rid, job.request, job.pc)
    ensures Works(c) && Nearer(StepJob(s, rid, job, c).1, job.pc)
  {
    c := Call(Succeeds);
    match job.pc {
      case Prepare(_) => c := PrepareCall(a, s, rid, job);
      case Supersede(_, _) => c := SupersedeCall(s, rid, job);
      case _ =>
    }
  }

  lemma {:induction false} RenewalCall(a: Store, s: Store, rid: nat, job: Job)
    requires Sound(a) && PutsAgain(a, s, job.request, job.pc)
    ensures Nearer(StepJob(s, rid, job, Call(Succeeds)).1, job.pc)
  {
  }

  lemma {:induction false} ListCall(a: Store, s: Store, rid: nat, job: Job, shown: set<BlobKey>) returns (c: Choice)
    requires Sound(a) && job.request.UnpublishRequest? && Withdraws(a, s, job.request, job.pc, shown) && job.pc.SweepList?
    ensures Works(c) && c.Listed? && Lists(s, job.request.id, c, shown) && Nearer(SweepListPc(s, job, c), job.pc)
  {
    c := Listed(Under(s, job.request.id), false);
    assert job.pc.loaded.id == job.request.id;
  }

  lemma {:induction false} DeleteCall(s: Store, rid: nat, job: Job) returns (c: Choice)
    requires job.pc.SweepDelete?
    ensures Works(c) && !c.Listed? && Nearer(StepSweepDelete(s, rid, job, c).1, job.pc)
  {
    c := Call(Succeeds);
    if job.pc.left != {} {
      var key :| key in job.pc.left;
      c := Delete(key, true);
    }
  }

  lemma {:induction false} RevokeCall(a: Store, s: Store, rid: nat, job: Job, shown: set<BlobKey>)
    requires Sound(a) && job.request.UnpublishRequest? && Withdraws(a, s, job.request, job.pc, shown)
    requires job.pc.RevokeLoad? || job.pc.RevokeSave? || job.pc.Reload? || job.pc.SweepSave?
    ensures Nearer(StepJob(s, rid, job, Call(Succeeds)).1, job.pc)
  {
  }

  lemma {:induction false} RevocationCall(a: Store, s: Store, rid: nat, job: Job, shown: set<BlobKey>) returns (c: Choice)
    requires Sound(a) && job.request.UnpublishRequest? && Withdraws(a, s, job.request, job.pc, shown)
    ensures Works(c) && Nearer(StepJob(s, rid, job, c).1, job.pc)
    ensures Listing(job, c) ==> Lists(s, job.request.id, c, shown)
  {
    c := Call(Succeeds);
    if job.pc.SweepList? { c := ListCall(a, s, rid, job, shown); }
    else if job.pc.SweepDelete? { c := DeleteCall(s, rid, job); }
    else { RevokeCall(a, s, rid, job, shown); }
  }

  lemma {:induction false} NextCall(a: Store, s: Store, rid: nat, job: Job, shown: set<BlobKey>) returns (c: Choice)
    requires Sound(a) && Along(a, s, rid, job.request, job.pc, shown) && !job.pc.Done?
    ensures Works(c) && Nearer(StepJob(s, rid, job, c).1, job.pc)
    ensures Listing(job, c) ==> Lists(s, job.request.id, c, shown)
  {
    c := Call(Succeeds);
    if job.pc.Authorize? { }
    else if Writes(a, s, rid, job.request, job.pc) { c := WriteCall(a, s, rid, job); }
    else if PutsAgain(a, s, job.request, job.pc) { RenewalCall(a, s, rid, job); }
    else { c := RevocationCall(a, s, rid, job, shown); }
  }

  lemma {:induction false} SmoothEnd(a: Store, s: State, rid: nat, shown: set<BlobKey>) returns (own: seq<Event>)
    requires Sound(a) && rid in s.jobs && Along(a, s.store, rid, s.jobs[rid].request, s.jobs[rid].pc, shown)
    ensures Smooth(s, rid, own, shown) && rid in Run(s, own).jobs && Run(s, own).jobs[rid].pc.Done?
    decreases Rank(s.jobs[rid].pc), Left(s.jobs[rid].pc)
  {
    own := [];
    if !s.jobs[rid].pc.Done? {
      var c := NextCall(a, s.store, rid, s.jobs[rid], shown);
      StepAdvances(a, s.store, rid, s.jobs[rid], c, shown);
      var rest := SmoothEnd(a, Step(s, Act(rid, c)), rid, if Listing(s.jobs[rid], c) then shown + c.keys else shown);
      own := [Act(rid, c)] + rest;
      assert own[1..] == rest;
    }
  }

  /** From every reachable state, every request can be brought to its end by successful calls of its own. */
  lemma {:induction false} RequestsCanEnd(events: seq<Event>, rid: nat, req: Request)
    requires rid !in Reached(events).jobs && Acceptable(req)
    ensures var s := Step(Reached(events), Arrive(rid, req));
            exists own :: Smooth(s, rid, own, {}) && rid in Run(s, own).jobs && Run(s, own).jobs[rid].pc.Done?
  {
    var s := Step(Reached(events), Arrive(rid, req));
    ReachedInv(events);
    Arrived(Reached(events), rid, req);
    InvSound(s.store);
    var own := SmoothEnd(s.store, s, rid, {});
  }

  /* ---- Bundles that fail ---- */

  /** Only this request makes calls; puts may fail, deletes work. */
  ghost predicate Alone(s: State, rid: nat, own: seq<Event>)
    decreases |own|
  {
    own == []
    || (&& rid in s.jobs && own[0].Act? && own[0].request == rid
        && (Works(own[0].choice) || (CallFails(own[0].choice) && (s.jobs[rid].pc.PutPart? || s.jobs[rid].pc.SaveBundle?)))
        && Alone(Step(s, own[0]), rid, own[1..]))
  }

  ghost predicate AsBefore(a: Store, s: Store) { SamePages(a, s) && forall k :: SameBlob(a, s, k) }

  /** The keys of the draft that are not deleted yet are all that is left of it. */
  ghost predicate Discards(a: Store, s: Store, req: Request, pc: Pc) {
    && pc.Discard? && IsError(pc.answer) && s.records == a.records && SamePages(a, s)
    && pc.record.Rev() !in a.issued && (pc.withManifest ==> pc.record.id !in a.records)
    && forall k: BlobKey ::
         if k.at != pc.record.Rev() then SameBlob(a, s, k) else k in s.blobs ==> k.part in pc.parts
  }

  ghost predicate Abandoned(a: Store, s: Store, pc: Pc) { pc.Done? && IsError(pc.answer) && AsBefore(a, s) }

  ghost predicate Standing(a: Store, s: Store, rid: nat, req: Request, pc: Pc) {
    || (pc.Authorize? && s == a && req.UpdateRequest?) || Writes(a, s, rid, req, pc) || Ends(a, s, rid, req, pc)
    || Discards(a, s, req, pc) || Abandoned(a, s, pc)
  }

  lemma {:induction false} FailureDiscards(a: Store, s: Store, rid: nat, job: Job, c: Choice)
    requires Sound(a) && Writes(a, s, rid, job.request, job.pc) && CallFails(c) && (job.pc.PutPart? || job.pc.SaveBundle?)
    ensures var next := StepJob(s, rid, job, c); Discards(a, next.0, job.request, next.1)
  {
    forall k: BlobKey ensures k.part in {Content, Snapshot} {
      match k.part { case Content => case Snapshot => }
    }
  }

  lemma {:induction false} DiscardAdvances(a: Store, s: Store, rid: nat, job: Job, c: Choice)
    requires Sound(a) && Discards(a, s, job.request, job.pc) && Works(c)
    ensures var next := StepDiscard(s, rid, job, c); Discards(a, next.0, job.request, next.1) || Abandoned(a, next.0, next.1)
  {
  }

  lemma {:induction false} StandingAdvances(a: Store, s: Store, rid: nat, job: Job, c: Choice)
    requires Sound(a) && UploadOf(job.request).Some? && Standing(a, s, rid, job.request, job.pc)
    requires Works(c) || (CallFails(c) && (job.pc.PutPart? || job.pc.SaveBundle?))
    ensures var next := StepJob(s, rid, job, c); Standing(a, next.0, rid, job.request, next.1)
  {
    if job.pc.Authorize? { AuthorizeAdvances(a, rid, job, c); }
    else if Writes(a, s, rid, job.request, job.pc) {
      if Works(c) { WriteAdvances(a, s, rid, job, c); } else { FailureDiscards(a, s, rid, job, c); }
    }
    else if job.pc.Discard? { DiscardAdvances(a, s, rid, job, c); }
  }

  lemma {:induction false} AloneRun(a: Store, s: State, rid: nat, own: seq<Event>)
    requires Sound(a) && Alone(s, rid, own)
    requires rid in s.jobs && UploadOf(s.jobs[rid].request).Some?
    requires Standing(a, s.store, rid, s.jobs[rid].request, s.jobs[rid].pc)
    ensures var t := Run(s, own);
            && rid in t.jobs && t.jobs[rid].request == s.jobs[rid].request
            && Standing(a, t.store, rid, t.jobs[rid].request, t.jobs[rid].pc)
    decreases |own|
  {
    if own != [] {
      StandingAdvances(a, s.store, rid, s.jobs[rid], own[0].choice);
      AloneRun(a, Step(s, own[0]), rid, own[1..]);
    }
  }

  /** A creation or content update whose puts may fail, at any point, either succeeds with its full effect
      or answers an error and leaves every page and every object as before: its deletes take back
      whatever it had put. */
  lemma {:induction false} FailedBundlesLeaveNothing(events: seq<Event>, rid: nat, req: Request, own: seq<Event>)
    requires rid !in Reached(events).jobs && Acceptable(req) && UploadOf(req).Some?
    requires var s := Step(Reached(events), Arrive(rid, req));
             Alone(s, rid, own) && rid in Run(s, own).jobs && Run(s, own).jobs[rid].pc.Done?
    ensures var a := Reached(events).store; var t := Run(Step(Reached(events), Arrive(rid, req)), own);
            if IsError(t.jobs[rid].pc.answer) then AsBefore(a, t.store)
            else t.jobs[rid].pc.answer == Expected(a, req) && Served(a, t.store, rid, req)
  {
    var s := Step(Reached(events), Arrive(rid, req));
    ReachedInv(events);
    Arrived(Reached(events), rid, req);
    InvSound(s.store);
    AloneRun(s.store, s, rid, own);
    Concluded(s.store, Run(s, own).store, rid, req, Run(s, own).jobs[rid].pc);
  }

  lemma {:induction false} Concluded(a: Store, s: Store, rid: nat, req: Request, pc: Pc)
    requires pc.Done? && UploadOf(req).Some? && Standing(a, s, rid, req, pc)
    ensures if IsError(pc.answer) then AsBefore(a, s) else pc.answer == Expected(a, req) && Served(a, s, rid, req)
  {
  }

  /* ---- How long it lasts ---- */

  lemma {:induction false} TimePasses(s: State, later: seq<Event>, id: nat)
    requires Inv(s) && OnlyTime(later) && id in s.store.records && id !in s.store.gone
    ensures var t := Run(s, later).store;
            id in t.records && t.records[id] == s.store.records[id]
            && (id in t.gone ==> t.clock - t.records[id].anchor > RETENTION_MS)
  {
    TimeAlone(s, later);
    RunKeeps(s, later);
    assert ManifestInv(Run(s, later).store, id);
  }

  /** Left alone, a published page is served with its manifest up to the last millisecond of its retention
      period, and not after it, whatever the lifecycle rule does to it. */
  lemma {:induction false} ServedUntilDeadline(events: seq<Event>, later: seq<Event>, id: nat)
    requires var found := Stored(Reached(events).store, id); found.Some? && found.value.status.Published?
    requires OnlyTime(later)
    ensures var r := Stored(Reached(events).store, id).value; var t := Run(Reached(events), later).store;
            PublicRecord(t, id) == if t.clock <= r.anchor + RETENTION_MS then Some(r) else None
  {
    ReachedInv(events);
    TimePasses(Reached(events), later, id);
  }
}
