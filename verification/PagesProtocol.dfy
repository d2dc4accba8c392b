/** The Pages publication protocol of workers/pages/index.js as a state machine.

    Every call on the object store is one atomic step; between two steps of a request any
    step of any other request may happen, the clock may advance, and the bucket's lifecycle
    rule may delete an old object.  An event that is not enabled changes nothing, so every
    sequence of events is a run. */
module PagesProtocol {
  import opened JsText
  import opened Wrappers

  const RETENTION_MS: nat := 30 * 24 * 60 * 60 * 1000
  const REVOKE_ATTEMPTS: nat := 3

  type Bytes = seq<bv8>

  datatype Manifest = Manifest(title: Text, includesData: bool)

  /** What readUpload accepts: a snapshot is present exactly when the manifest says so. */
  datatype Upload = Upload(manifest: Manifest, content: Bytes, snapshot: Option<Bytes>) {
    predicate Valid() { manifest.includesData == snapshot.Some? }
  }

  datatype Status = Published | Unpublished
  datatype CleanupState = NoCleanup | CleanupPending | CleanupComplete
  datatype Cleanup = Cleanup(state: CleanupState, attempts: nat)
  datatype Password = Password(salt: nat, hash: nat, version: nat)

  /** A revision of a page: the part of a storage key before the object's own name. */
  datatype RevKey = RevKey(id: nat, revision: nat)
  datatype Part = Content | Snapshot
  datatype BlobKey = BlobKey(at: RevKey, part: Part)
  datatype Blob = Blob(bytes: Bytes, uploadedAt: nat)

  /** The JSON document at the manifest key.  anchor is retentionAnchorAt. */
  datatype Record = Record(
    id: nat, admin: nat, status: Status, revision: nat, manifest: Manifest,
    password: Option<Password>, anchor: nat, cleanup: Cleanup)
  {
    function Rev(): RevKey { RevKey(id, revision) }
    function Key(part: Part): BlobKey { BlobKey(Rev(), part) }
  }

  /** The objects a record keeps alive, in the order renewRetainedObjects visits them. */
  function Retained(manifest: Manifest): seq<Part> {
    [Content] + if manifest.includesData then [Snapshot] else []
  }

  function PartOf(u: Upload, part: Part): Option<Bytes> {
    match part
    case Content => Some(u.content)
    case Snapshot => u.snapshot
  }

  /* ---- Requests ---- */

  datatype Change = NewBundle(upload: Upload) | NewPassword(password: Option<Password>)

  datatype Request =
    | CreateRequest(upload: Upload, password: Option<Password>, admin: nat)
    | UpdateRequest(id: nat, admin: nat, change: Change)
    | UnpublishRequest(id: nat, admin: nat)

  predicate Acceptable(r: Request) {
    match r
    case CreateRequest(u, _, _) => u.Valid()
    case UpdateRequest(_, _, NewBundle(u)) => u.Valid()
    case _ => true
  }

  /** Where a request stands: the next store call it makes and what it has loaded so far. */
  datatype Pc =
    | Authorize
    | Prepare(base: Option<Record>)
    | PutPart(base: Option<Record>, record: Record, part: Part)
    | SaveBundle(base: Option<Record>, record: Record)
    | Discard(record: Record, parts: set<Part>, withManifest: bool, answer: nat)
    | Supersede(superseded: RevKey, parts: set<Part>)
    | RenewGet(loaded: Record, since: nat, todo: seq<Part>)
    | RenewPut(loaded: Record, since: nat, todo: seq<Part>, bytes: Bytes)
    | RenewStamp(loaded: Record, since: nat)
    | RenewSave(loaded: Record, since: nat, record: Record)
    | RevokeLoad(attempt: nat)
    | RevokeSave(attempt: nat, loaded: Record)
    | Reload
    | SweepList(loaded: Record, found: set<BlobKey>)
    | SweepDelete(loaded: Record, left: set<BlobKey>, failed: bool)
    | SweepSave(loaded: Record, failed: bool)
    | Done(answer: nat)

  datatype Job = Job(request: Request, pc: Pc)

  /* ---- Committed changes ---- */

  /** What a successful manifest write changes, apart from the record it was based on. */
  datatype Edit =
    | Publish(record: Record)
    | Bundle(revision: nat, manifest: Manifest, anchor: nat)
    | Protect(password: Option<Password>, anchor: nat, since: nat)
    | Revoke
    | NoteCleanup(cleanup: Cleanup)

  function Apply(current: Option<Record>, edit: Edit): Option<Record> {
    match edit
    case Publish(record) => Some(record)
    case Bundle(revision, manifest, anchor) =>
      if current.None? then None
      else Some(current.value.(revision := revision, manifest := manifest, anchor := anchor))
    case Protect(password, anchor, _) =>
      if current.None? then None
      else Some(current.value.(password := password, anchor := anchor))
    case Revoke =>
      if current.None? then None
      else Some(current.value.(status := Unpublished, cleanup := Cleanup(CleanupPending, 0)))
    case NoteCleanup(cleanup) =>
      if current.None? then None else Some(current.value.(cleanup := cleanup))
  }

  /** One successful manifest write: by which request, on which page, replacing what. */
  datatype Entry = Entry(request: nat, id: nat, seen: Option<Record>, edit: Edit)

  function Lookup(m: map<nat, Record>, id: nat): Option<Record> {
    if id in m then Some(m[id]) else None
  }

  /** The records after applying the edits one after another, with nothing in between. */
  function Replay(log: seq<Entry>): map<nat, Record> {
    if log == [] then map[]
    else
      var before := Replay(log[..|log| - 1]);
      var e := log[|log| - 1];
      match Apply(Lookup(before, e.id), e.edit)
      case None => before
      case Some(r) => before[e.id := r]
  }

  /** The edits that one request committed, in order. */
  function EditsOf(log: seq<Entry>, request: nat): seq<Edit> {
    if log == [] then []
    else
      EditsOf(log[..|log| - 1], request)
      + if log[|log| - 1].request == request then [log[|log| - 1].edit] else []
  }

  /** The last edit that moved the page's retention anchor. */
  function LastRenewal(log: seq<Entry>, id: nat): Option<Edit> {
    if log == [] then None
    else
      var e := log[|log| - 1];
      if e.id == id && (e.edit.Publish? || e.edit.Bundle? || e.edit.Protect?) then Some(e.edit)
      else LastRenewal(log[..|log| - 1], id)
  }

  /** The anchor an edit sets. */
  function AnchorOf(edit: Edit): nat {
    match edit
    case Publish(r) => r.anchor
    case Bundle(_, _, anchor) => anchor
    case Protect(_, anchor, _) => anchor
    case _ => 0
  }

  /** From when on the edit's request put every retained object: a bundle is written after its
      anchor was read, a password change puts the objects before it reads the anchor. */
  function RenewedSince(edit: Option<Edit>): nat {
    match edit
    case None => 0
    case Some(Protect(_, _, since)) => since
    case Some(e) => AnchorOf(e)
  }

  /* ---- State ---- */

  datatype Issue = Issue(request: nat, upload: Upload)

  /** records: the last record written to each page's manifest key; the object itself is there unless
      the page is in gone.  clock, blobs and the manifest objects are the system; the other fields
      record its history: when a manifest was written, who drew a page id or revision, which revisions
      were ever committed or superseded, when a key was last put, what the lifecycle rule deleted, and
      the committed edits. */
  datatype Store = Store(
    clock: nat,
    records: map<nat, Record>,
    gone: set<nat>,
    savedAt: map<nat, nat>,
    blobs: map<BlobKey, Blob>,
    pages: map<nat, nat>,
    issued: map<RevKey, Issue>,
    placed: set<RevKey>,
    retired: set<RevKey>,
    lastPut: map<BlobKey, nat>,
    lapsed: set<BlobKey>,
    log: seq<Entry>)

  datatype State = State(store: Store, jobs: map<nat, Job>)

  const EMPTY := State(Store(0, map[], {}, map[], map[], map[], map[], {}, {}, map[], {}, []), map[])

  /** How a store call ends.  Refused is a conditional put whose etag no longer matches. */
  datatype Outcome = Succeeds | Refused | Throws

  datatype Choice =
    | Call(outcome: Outcome)
    | Draw(page: nat, revision: nat)
    | Remove(part: Part, works: bool)
    | RemoveManifest(works: bool)
    | Listed(keys: set<BlobKey>, more: bool)
    | Delete(key: BlobKey, works: bool)

  datatype Event =
    | Tick(to: nat)
    | Lapse(key: BlobKey)
    | LapseManifest(id: nat)
    | Arrive(request: nat, what: Request)
    | Act(request: nat, choice: Choice)

  /* ---- Store calls ---- */

  /** The document at the page's manifest key. */
  function Stored(s: Store, id: nat): Option<Record> {
    if id in s.records && id !in s.gone then Some(s.records[id]) else None
  }

  function PutBlob(s: Store, key: BlobKey, bytes: Bytes): Store {
    s.(blobs := s.blobs[key := Blob(bytes, s.clock)], lastPut := s.lastPut[key := s.clock])
  }

  function DropBlob(s: Store, key: BlobKey): Store {
    s.(blobs := s.blobs - {key})
  }

  /** The condition of a conditional put; a put without etag has none.  An etag stands for the
      record itself: it may fail to match at any time, and when it matches the records agree. */
  predicate EtagMatches(s: Store, seen: Option<Record>) {
    seen.Some? ==> Stored(s, seen.value.id) == seen
  }

  function CommitEdit(s: Store, rid: nat, id: nat, seen: Option<Record>, edit: Edit): Store {
    match Apply(seen, edit)
    case None => s
    case Some(r) =>
      s.(records := s.records[id := r],
         gone := s.gone - {id},
         savedAt := s.savedAt[id := s.clock],
         log := s.log + [Entry(rid, id, seen, edit)],
         placed := s.placed + {r.Rev()},
         retired := s.retired + if seen.Some? && seen.value.Rev() != r.Rev() then {seen.value.Rev()} else {})
  }

  function Authorized(s: Store, id: nat, admin: nat): Option<Record> {
    if Stored(s, id).Some? && s.records[id].admin == admin then Stored(s, id) else None
  }

  function AuthFailure(s: Store, id: nat): nat {
    if Stored(s, id).Some? then 401 else 404
  }

  /* ---- createPublication and the content branch of updatePublication ---- */

  function NewRecord(req: Request, loaded: Option<Record>, page: nat, revision: nat, now: nat): Option<Record> {
    match req
    case CreateRequest(u, password, admin) =>
      Some(Record(page, admin, Published, revision, u.manifest, password, now, Cleanup(NoCleanup, 0)))
    case UpdateRequest(_, _, NewBundle(u)) => Apply(loaded, Bundle(revision, u.manifest, now))
    case _ => None
  }

  function UploadOf(req: Request): Option<Upload> {
    match req
    case CreateRequest(u, _, _) => Some(u)
    case UpdateRequest(_, _, NewBundle(u)) => Some(u)
    case _ => None
  }

  function BundleEdit(req: Request, record: Record): Edit {
    if req.CreateRequest? then Publish(record) else Bundle(record.revision, record.manifest, record.anchor)
  }

  /** Draw the tokens, read the clock, build the record: no store call. */
  function StepPrepare(s: Store, rid: nat, job: Job, c: Choice): (Store, Pc)
    requires job.pc.Prepare?
  {
    var loaded := job.pc.base;
    if c.Draw? && UploadOf(job.request).Some? && loaded.None? == job.request.CreateRequest?
       && (loaded.None? ==> c.page !in s.pages) then
      var r := NewRecord(job.request, loaded, c.page, c.revision, s.clock);
      if r.Some? && r.value.Rev() !in s.issued then
        (s.(issued := s.issued[r.value.Rev() := Issue(rid, UploadOf(job.request).value)],
            pages := if loaded.None? then s.pages[c.page := rid] else s.pages),
         PutPart(loaded, r.value, Content))
      else (s, job.pc)
    else (s, job.pc)
  }

  /** A failed bundle write deletes its own keys; a failed creation also its manifest key. */
  function FailPc(job: Job, record: Record, refused: bool): Pc {
    Discard(record, {Content, Snapshot}, job.request.CreateRequest?,
            if refused && !job.request.CreateRequest? then 409 else 503)
  }

  function StepPutPart(s: Store, rid: nat, job: Job, c: Choice): (Store, Pc)
    requires job.pc.PutPart?
  {
    var PutPart(loaded, record, part) := job.pc;
    if !c.Call? || UploadOf(job.request).None? then (s, job.pc)
    else if c.outcome.Succeeds? then
      var u := UploadOf(job.request).value;
      match PartOf(u, part)
      case None => (s, job.pc)
      case Some(bytes) =>
        (PutBlob(s, record.Key(part), bytes),
             if part.Content? && u.snapshot.Some? then PutPart(loaded, record, Snapshot)
             else SaveBundle(loaded, record))
    else (s, FailPc(job, record, false))
  }

  function StepSaveBundle(s: Store, rid: nat, job: Job, c: Choice): (Store, Pc)
    requires job.pc.SaveBundle?
  {
    var SaveBundle(loaded, record) := job.pc;
    if !c.Call? then (s, job.pc)
    else if c.outcome.Succeeds? then
      if EtagMatches(s, loaded) then
        (CommitEdit(s, rid, record.id, loaded, BundleEdit(job.request, record)),
             if loaded.None? then Done(201)
             else Supersede(loaded.value.Rev(), if loaded.value.Rev() == record.Rev() then {} else {Content, Snapshot}))
      else (s, job.pc)
    else (s, FailPc(job, record, c.outcome.Refused?))
  }

  /** Best-effort deletes in any order; each may fail. */
  function StepDiscard(s: Store, rid: nat, job: Job, c: Choice): (Store, Pc)
    requires job.pc.Discard?
  {
    var Discard(record, parts, withManifest, answer) := job.pc;
    if c.Remove? && c.part in parts then
      (if c.works then DropBlob(s, record.Key(c.part)) else s,
           Discard(record, parts - {c.part}, withManifest, answer))
    else if c.RemoveManifest? && withManifest then
      (if c.works then s.(gone := s.gone + {record.id}) else s,
           Discard(record, parts, false, answer))
    else if c.Call? && parts == {} && !withManifest then (s, Done(answer))
    else (s, job.pc)
  }

  function StepSupersede(s: Store, rid: nat, job: Job, c: Choice): (Store, Pc)
    requires job.pc.Supersede?
  {
    var Supersede(superseded, parts) := job.pc;
    if c.Remove? && c.part in parts then
      (if c.works then DropBlob(s, BlobKey(superseded, c.part)) else s, Supersede(superseded, parts - {c.part}))
    else if c.Call? && parts == {} then (s, Done(200))
    else (s, job.pc)
  }

  /* ---- updatePublication: authorization and the password branch ---- */

  function AuthorizePc(s: Store, job: Job, c: Choice): Pc
    requires job.pc.Authorize? && job.request.UpdateRequest?
  {
    var UpdateRequest(id, admin, change) := job.request;
    if !c.Call? then job.pc
    else if !c.outcome.Succeeds? then Done(500)
    else
      match Authorized(s, id, admin)
      case None => Done(AuthFailure(s, id))
      case Some(r) =>
        if r.status.Unpublished? then Done(404)
        else if change.NewBundle? then Prepare(Some(r))
        else RenewGet(r, s.clock, Retained(r.manifest))
  }

  function RenewGetPc(s: Store, job: Job, c: Choice): Pc
    requires job.pc.RenewGet?
  {
    var RenewGet(loaded, since, todo) := job.pc;
    if !c.Call? then job.pc
    else if todo == [] then RenewStamp(loaded, since)
    else if c.outcome.Succeeds? && loaded.Key(todo[0]) in s.blobs then
      RenewPut(loaded, since, todo, s.blobs[loaded.Key(todo[0])].bytes)
    else Done(503)
  }

  function StepRenewPut(s: Store, rid: nat, job: Job, c: Choice): (Store, Pc)
    requires job.pc.RenewPut?
  {
    var RenewPut(loaded, since, todo, bytes) := job.pc;
    if !c.Call? || todo == [] then (s, job.pc)
    else if c.outcome.Succeeds? then
      (PutBlob(s, loaded.Key(todo[0]), bytes), RenewGet(loaded, since, todo[1..]))
    else (s, Done(503))
  }

  /** The clock is read here, after every object has been put again. */
  function RenewStampPc(s: Store, job: Job, c: Choice): Pc
    requires job.pc.RenewStamp?
  {
    var RenewStamp(loaded, since) := job.pc;
    if c.Call? && job.request.UpdateRequest? && job.request.change.NewPassword? then
      RenewSave(loaded, since, loaded.(password := job.request.change.password, anchor := s.clock))
    else job.pc
  }

  function StepRenewSave(s: Store, rid: nat, job: Job, c: Choice): (Store, Pc)
    requires job.pc.RenewSave?
  {
    var RenewSave(loaded, since, record) := job.pc;
    if !c.Call? then (s, job.pc)
    else
      match c.outcome
      case Succeeds =>
        if EtagMatches(s, Some(loaded)) then
          (CommitEdit(s, rid, loaded.id, Some(loaded), Protect(record.password, record.anchor, since)), Done(200))
        else (s, job.pc)
      case Refused => (s, Done(409))
      case Throws => (s, Done(500))
  }

  /* ---- unpublishPublication and cleanupPublication ---- */

  function RevokeLoadPc(s: Store, job: Job, c: Choice): Pc
    requires job.pc.RevokeLoad? && job.request.UnpublishRequest?
  {
    var UnpublishRequest(id, admin) := job.request;
    if !c.Call? then job.pc
    else if !c.outcome.Succeeds? then Done(500)
    else
      match Authorized(s, id, admin)
      case None => Done(AuthFailure(s, id))
      case Some(r) => if r.status.Unpublished? then SweepList(r, {}) else RevokeSave(job.pc.attempt, r)
  }

  function StepRevokeSave(s: Store, rid: nat, job: Job, c: Choice): (Store, Pc)
    requires job.pc.RevokeSave?
  {
    var RevokeSave(attempt, loaded) := job.pc;
    if !c.Call? then (s, job.pc)
    else
      match c.outcome
      case Succeeds =>
        if EtagMatches(s, Some(loaded)) then
          (CommitEdit(s, rid, loaded.id, Some(loaded), Revoke), Reload)
        else (s, job.pc)
      case Refused => (s, if attempt + 1 < REVOKE_ATTEMPTS then RevokeLoad(attempt + 1) else Done(409))
      case Throws => (s, Done(503))
  }

  function ReloadPc(s: Store, job: Job, c: Choice): Pc
    requires job.pc.Reload? && job.request.UnpublishRequest?
  {
    var UnpublishRequest(id, admin) := job.request;
    if !c.Call? then job.pc
    else if !c.outcome.Succeeds? then Done(500)
    else
      match Authorized(s, id, admin)
      case None => Done(409)
      case Some(r) => if r.status.Unpublished? then SweepList(r, {}) else Done(409)
  }

  /** One page of a listing under the page's prefix; the cursor may show any part of it. */
  function SweepListPc(s: Store, job: Job, c: Choice): Pc
    requires job.pc.SweepList?
  {
    var SweepList(loaded, found) := job.pc;
    if c.Listed? && (forall k | k in c.keys :: k in s.blobs && k.at.id == loaded.id) then
      if c.more then SweepList(loaded, found + c.keys) else SweepDelete(loaded, found + c.keys, false)
    else if c.Call? && !c.outcome.Succeeds? then SweepDelete(loaded, found, true)
    else job.pc
  }

  function StepSweepDelete(s: Store, rid: nat, job: Job, c: Choice): (Store, Pc)
    requires job.pc.SweepDelete?
  {
    var SweepDelete(loaded, todo, failed) := job.pc;
    if c.Delete? && c.key in todo then
      (if c.works then DropBlob(s, c.key) else s, SweepDelete(loaded, todo - {c.key}, failed || !c.works))
    else if c.Call? && todo == {} then (s, SweepSave(loaded, failed))
    else (s, job.pc)
  }

  function CleanupNote(loaded: Record, failed: bool): Edit {
    NoteCleanup(Cleanup(if failed then CleanupPending else CleanupComplete, loaded.cleanup.attempts + 1))
  }

  function StepSweepSave(s: Store, rid: nat, job: Job, c: Choice): (Store, Pc)
    requires job.pc.SweepSave?
  {
    var SweepSave(loaded, failed) := job.pc;
    if !c.Call? then (s, job.pc)
    else if c.outcome.Succeeds? then
      if EtagMatches(s, Some(loaded)) then
        (CommitEdit(s, rid, loaded.id, Some(loaded), CleanupNote(loaded, failed)), Done(200))
      else (s, job.pc)
    else (s, Done(200))
  }

  /* ---- Runs ---- */

  function StepJob(s: Store, rid: nat, job: Job, c: Choice): (Store, Pc) {
    match job.pc
    case Authorize => (s, if job.request.UpdateRequest? then AuthorizePc(s, job, c) else job.pc)
    case Prepare(_) => StepPrepare(s, rid, job, c)
    case PutPart(_, _, _) => StepPutPart(s, rid, job, c)
    case SaveBundle(_, _) => StepSaveBundle(s, rid, job, c)
    case Discard(_, _, _, _) => StepDiscard(s, rid, job, c)
    case Supersede(_, _) => StepSupersede(s, rid, job, c)
    case RenewGet(_, _, _) => (s, RenewGetPc(s, job, c))
    case RenewPut(_, _, _, _) => StepRenewPut(s, rid, job, c)
    case RenewStamp(_, _) => (s, RenewStampPc(s, job, c))
    case RenewSave(_, _, _) => StepRenewSave(s, rid, job, c)
    case RevokeLoad(_) => (s, if job.request.UnpublishRequest? then RevokeLoadPc(s, job, c) else job.pc)
    case RevokeSave(_, _) => StepRevokeSave(s, rid, job, c)
    case Reload => (s, if job.request.UnpublishRequest? then ReloadPc(s, job, c) else job.pc)
    case SweepList(_, _) => (s, SweepListPc(s, job, c))
    case SweepDelete(_, _, _) => StepSweepDelete(s, rid, job, c)
    case SweepSave(_, _) => StepSweepSave(s, rid, job, c)
    case Done(_) => (s, job.pc)
  }

  function FirstPc(r: Request): Pc {
    match r
    case CreateRequest(_, _, _) => Prepare(None)
    case UpdateRequest(_, _, _) => Authorize
    case UnpublishRequest(_, _) => RevokeLoad(0)
  }

  /** The bucket's lifecycle rule deletes an object, whatever its key, once its own upload is too old. */
  function LapseBlob(s: Store, key: BlobKey): Store {
    if key in s.blobs && s.clock - s.blobs[key].uploadedAt > RETENTION_MS then
      DropBlob(s, key).(lapsed := s.lapsed + {key})
    else s
  }

  function LapseRecord(s: Store, id: nat): Store {
    if id in s.savedAt && s.clock - s.savedAt[id] > RETENTION_MS then s.(gone := s.gone + {id}) else s
  }

  function Step(s: State, e: Event): State {
    match e
    case Tick(to) => if s.store.clock <= to then s.(store := s.store.(clock := to)) else s
    case Lapse(key) => s.(store := LapseBlob(s.store, key))
    case LapseManifest(id) => s.(store := LapseRecord(s.store, id))
    case Arrive(rid, what) =>
      if rid !in s.jobs && Acceptable(what) then s.(jobs := s.jobs[rid := Job(what, FirstPc(what))]) else s
    case Act(rid, choice) =>
      if rid in s.jobs then
        var (store, pc) := StepJob(s.store, rid, s.jobs[rid], choice);
        State(store, s.jobs[rid := s.jobs[rid].(pc := pc)])
      else s
  }

  function Run(s: State, events: seq<Event>): State
    decreases |events|
  {
    if events == [] then s else Run(Step(s, events[0]), events[1..])
  }

  /* ---- What a public route sees ---- */

  predicate IsExpired(r: Record, now: nat) {
    now - r.anchor > RETENTION_MS
  }

  /** publicRecord: every public route answers 404 when this is None. */
  function PublicRecord(s: Store, id: nat): Option<Record> {
    if Stored(s, id).Some? && s.records[id].status.Published? && !IsExpired(s.records[id], s.clock)
    then Stored(s, id) else None
  }
}
