/** Every event keeps the invariant: first the five effects a step can have on the store,
    then one short lemma for each program counter. */
module PagesPreservation {
  import opened Wrappers
  import opened PagesProtocol
  import opened PagesInvariant

  /* ---- Effects ---- */

  lemma {:induction false} ManifestStable(s: Store, t: Store, id: nat)
    requires id in s.records && ManifestInv(s, id) && id in t.records && t.records[id] == s.records[id]
    requires t.issued == s.issued && t.pages == s.pages && t.placed == s.placed && t.retired == s.retired
    requires t.log == s.log && t.clock >= s.clock && t.savedAt == s.savedAt
    requires id in t.gone && id !in s.gone ==> t.clock - t.savedAt[id] > RETENTION_MS
    requires forall k | k in s.lastPut && k.at == s.records[id].Rev() ::
               k in t.lastPut && t.lastPut[k] >= s.lastPut[k] && (s.records[id].status.Published? && Present(s, k) ==> Present(t, k))
    ensures ManifestInv(t, id)
  {
  }

  lemma {:induction false} PutHistory(s: Store, key: BlobKey, bytes: Bytes)
    requires BlobsInv(s) && HistoryInv(s)
    requires key.at in s.issued && PartOf(s.issued[key.at].upload, key.part) == Some(bytes)
    ensures BlobsInv(PutBlob(s, key, bytes)) && HistoryInv(PutBlob(s, key, bytes))
  {
  }

  lemma {:induction false} PutGrows(s: Store, rid: nat, key: BlobKey, bytes: Bytes)
    requires BlobsInv(s)
    ensures Grows(s, PutBlob(s, key, bytes), rid)
  {
  }

  lemma {:induction false} PutKeeps(s: Store, rid: nat, key: BlobKey, bytes: Bytes)
    requires StoreInv(s)
    requires key.at in s.issued && PartOf(s.issued[key.at].upload, key.part) == Some(bytes)
    ensures StoreInv(PutBlob(s, key, bytes)) && Grows(s, PutBlob(s, key, bytes), rid)
  {
    var t := PutBlob(s, key, bytes);
    PutGrows(s, rid, key, bytes);
    PutHistory(s, key, bytes);
    forall id | id in t.records ensures ManifestInv(t, id) { ManifestStable(s, t, id); }
  }

  /** Who may delete an object: whoever superseded it, failed to commit it, or swept its revoked page. */
  ghost predicate Droppable(s: Store, rid: nat, key: BlobKey) {
    || key.at in s.retired
    || Revoked(s, key.at.id)
    || (key.at in s.issued && s.issued[key.at].request == rid && key.at !in s.placed)
  }

  lemma {:induction false} DropHistory(s: Store, key: BlobKey)
    requires BlobsInv(s) && HistoryInv(s)
    ensures BlobsInv(DropBlob(s, key)) && HistoryInv(DropBlob(s, key))
  {
  }

  lemma {:induction false} DropGrows(s: Store, rid: nat, key: BlobKey)
    requires HistoryInv(s) && Droppable(s, rid, key)
    ensures Grows(s, DropBlob(s, key), rid)
  {
  }

  lemma {:induction false} DropKeeps(s: Store, rid: nat, key: BlobKey)
    requires StoreInv(s) && Droppable(s, rid, key)
    ensures StoreInv(DropBlob(s, key)) && Grows(s, DropBlob(s, key), rid)
  {
    var t := DropBlob(s, key);
    DropGrows(s, rid, key);
    DropHistory(s, key);
    forall id | id in t.records ensures ManifestInv(t, id) { DropOther(s, rid, key, id); }
  }

  lemma {:induction false} DropOther(s: Store, rid: nat, key: BlobKey, id: nat)
    requires HistoryInv(s) && id in s.records && ManifestInv(s, id) && Droppable(s, rid, key)
    ensures ManifestInv(DropBlob(s, key), id)
  {
    assert s.records[id].status.Published? ==> s.records[id].Rev() != key.at;
    ManifestStable(s, DropBlob(s, key), id);
  }

  lemma {:induction false} AppendedReplay(log: seq<Entry>, e: Entry)
    ensures Replay(log + [e]) ==
            match Apply(Lookup(Replay(log), e.id), e.edit)
            case None => Replay(log)
            case Some(r) => Replay(log)[e.id := r]
    ensures Chained(log) && Lookup(Replay(log), e.id) == e.seen ==> Chained(log + [e])
  {
    assert (log + [e])[..|log + [e]| - 1] == log;
    assert forall i | 0 <= i < |log| :: (log + [e])[..i] == log[..i];
  }

  lemma {:induction false} AppendedEdits(log: seq<Entry>, e: Entry)
    ensures forall rid :: EditsOf(log + [e], rid) == EditsOf(log, rid) + if e.request == rid then [e.edit] else []
  {
    assert (log + [e])[..|log + [e]| - 1] == log;
  }

  lemma {:induction false} AppendedRenewal(log: seq<Entry>, e: Entry)
    ensures forall id :: LastRenewal(log + [e], id) ==
                         if e.id == id && (e.edit.Publish? || e.edit.Bundle? || e.edit.Protect?) then Some(e.edit)
                         else LastRenewal(log, id)
  {
    assert (log + [e])[..|log + [e]| - 1] == log;
  }

  function Renewal(s: Store, rid: nat, id: nat, seen: Option<Record>, edit: Edit): Option<Edit> {
    LastRenewal(s.log + [Entry(rid, id, seen, edit)], id)
  }

  /** The conditions under which a manifest write may succeed. */
  ghost predicate Committable(s: Store, rid: nat, id: nat, seen: Option<Record>, edit: Edit, r: Record) {
    && Lookup(s.records, id) == seen && (seen.Some? ==> id !in s.gone)
    && Apply(seen, edit) == Some(r)
    && r.id == id && id in s.pages
    && (seen.None? ==> s.pages[id] == rid)
    && r.Rev() in s.issued
    && (if seen.Some? && seen.value.Rev() == r.Rev() then r.Rev() in s.placed
        else r.Rev() !in s.placed && s.issued[r.Rev()].request == rid)
    && r.manifest == s.issued[r.Rev()].upload.manifest
    && r.anchor <= s.clock
    && (seen.Some? ==> seen.value.admin == r.admin && seen.value.anchor <= r.anchor && (seen.value.status.Unpublished? ==> r.status.Unpublished?))
    && Renewal(s, rid, id, seen, edit).Some? && AnchorOf(Renewal(s, rid, id, seen, edit).value) == r.anchor
    && RenewedSince(Renewal(s, rid, id, seen, edit)) <= r.anchor
    && (r.status.Published? ==>
          && (forall p | p in Retained(r.manifest) :: Present(s, r.Key(p)))
          && PutSince(s, r, [], RenewedSince(Renewal(s, rid, id, seen, edit))))
  }

  lemma {:induction false} CommitGrows(s: Store, rid: nat, id: nat, seen: Option<Record>, edit: Edit, r: Record)
    requires HistoryInv(s) && Committable(s, rid, id, seen, edit, r)
    ensures Grows(s, CommitEdit(s, rid, id, seen, edit), rid)
  {
    AppendedEdits(s.log, Entry(rid, id, seen, edit));
  }

  lemma {:induction false} CommitHistory(s: Store, rid: nat, id: nat, seen: Option<Record>, edit: Edit, r: Record)
    requires StoreInv(s) && Committable(s, rid, id, seen, edit, r)
    ensures var t := CommitEdit(s, rid, id, seen, edit);
            BlobsInv(t) && HistoryInv(t) && LogInv(t)
  {
    AppendedReplay(s.log, Entry(rid, id, seen, edit));
    assert seen.Some? ==> ManifestInv(s, id);
  }

  lemma {:induction false} CommitOther(s: Store, rid: nat, id: nat, seen: Option<Record>, edit: Edit, r: Record, other: nat)
    requires StoreInv(s) && Committable(s, rid, id, seen, edit, r)
    requires other in s.records && other != id
    ensures ManifestInv(CommitEdit(s, rid, id, seen, edit), other)
  {
    AppendedRenewal(s.log, Entry(rid, id, seen, edit));
    assert ManifestInv(s, other);
    assert seen.Some? ==> ManifestInv(s, id);
    var o := s.records[other];
    assert o.Rev() != r.Rev() && (seen.Some? ==> o.Rev() != seen.value.Rev());
  }

  lemma {:induction false} CommitSame(s: Store, rid: nat, id: nat, seen: Option<Record>, edit: Edit, r: Record)
    requires StoreInv(s) && Committable(s, rid, id, seen, edit, r)
    ensures ManifestInv(CommitEdit(s, rid, id, seen, edit), id)
  {
    assert seen.Some? ==> ManifestInv(s, id);
  }

  lemma {:induction false} CommitKeeps(s: Store, rid: nat, id: nat, seen: Option<Record>, edit: Edit, r: Record)
    requires StoreInv(s) && Committable(s, rid, id, seen, edit, r)
    ensures var t := CommitEdit(s, rid, id, seen, edit);
            StoreInv(t) && Grows(s, t, rid) && t.records == s.records[id := r]
            && EditsOf(t.log, rid) == EditsOf(s.log, rid) + [edit]
  {
    var t := CommitEdit(s, rid, id, seen, edit);
    CommitHistory(s, rid, id, seen, edit, r);
    CommitGrows(s, rid, id, seen, edit, r);
    AppendedEdits(s.log, Entry(rid, id, seen, edit));
    forall other | other in t.records ensures ManifestInv(t, other) {
      if other == id { CommitSame(s, rid, id, seen, edit, r); }
      else { CommitOther(s, rid, id, seen, edit, r, other); }
    }
  }

  /* ---- One lemma for each program counter ---- */

  /** A step of one job: the store invariant, the guarantee to the others, its own assertion. */
  ghost predicate Keeps(s: Store, rid: nat, job: Job, next: (Store, Pc)) {
    StoreInv(next.0) && Grows(s, next.0, rid) && JobInv(next.0, rid, job.(pc := next.1))
  }

  /** What a request knows about a manifest it has just loaded. */
  lemma {:induction false} Load(s: Store, id: nat)
    requires StoreInv(s) && id in s.records
    ensures s.records[id].id == id && Seen(s, s.records[id])
  {
    assert ManifestInv(s, id);
  }

  lemma {:induction false} AuthorizeJob(s: Store, rid: nat, job: Job, c: Choice)
    requires JobInv(s, rid, job) && job.pc.Authorize?
    requires job.request.id in s.records ==>
               Seen(s, s.records[job.request.id]) && s.records[job.request.id].id == job.request.id
    ensures JobInv(s, rid, job.(pc := AuthorizePc(s, job, c)))
  {
  }

  lemma {:induction false} RenewGetJob(s: Store, rid: nat, job: Job, c: Choice)
    requires BlobsInv(s) && JobInv(s, rid, job) && job.pc.RenewGet?
    ensures JobInv(s, rid, job.(pc := RenewGetPc(s, job, c)))
  {
  }

  lemma {:induction false} RenewStampJob(s: Store, rid: nat, job: Job, c: Choice)
    requires JobInv(s, rid, job) && job.pc.RenewStamp?
    ensures JobInv(s, rid, job.(pc := RenewStampPc(s, job, c)))
  {
  }

  lemma {:induction false} RevokeLoadJob(s: Store, rid: nat, job: Job, c: Choice)
    requires JobInv(s, rid, job) && job.pc.RevokeLoad?
    requires job.request.id in s.records ==>
               Seen(s, s.records[job.request.id]) && s.records[job.request.id].id == job.request.id
    ensures JobInv(s, rid, job.(pc := RevokeLoadPc(s, job, c)))
  {
  }

  lemma {:induction false} ReloadJob(s: Store, rid: nat, job: Job, c: Choice)
    requires JobInv(s, rid, job) && job.pc.Reload?
    requires job.request.id in s.records ==>
               Seen(s, s.records[job.request.id]) && s.records[job.request.id].id == job.request.id
    ensures JobInv(s, rid, job.(pc := ReloadPc(s, job, c)))
  {
  }

  lemma {:induction false} SweepListJob(s: Store, rid: nat, job: Job, c: Choice)
    requires JobInv(s, rid, job) && job.pc.SweepList?
    ensures JobInv(s, rid, job.(pc := SweepListPc(s, job, c)))
  {
  }

  lemma {:induction false} GrowsNot(s: Store, rid: nat)
    ensures Grows(s, s, rid)
  {
  }

  lemma {:induction false} ReadOnly(s: Store, rid: nat, job: Job, pc: Pc)
    requires StoreInv(s) && JobInv(s, rid, job.(pc := pc))
    ensures Keeps(s, rid, job, (s, pc))
  {
    GrowsNot(s, rid);
  }

  /** The steps that only read the store. */
  lemma {:induction false} RenewGetKeeps(s: Store, rid: nat, job: Job, c: Choice)
    requires StoreInv(s) && JobInv(s, rid, job) && job.pc.RenewGet?
    ensures Keeps(s, rid, job, StepJob(s, rid, job, c))
  {
    RenewGetJob(s, rid, job, c);
    ReadOnly(s, rid, job, RenewGetPc(s, job, c));
  }

  lemma {:induction false} RenewStampKeeps(s: Store, rid: nat, job: Job, c: Choice)
    requires StoreInv(s) && JobInv(s, rid, job) && job.pc.RenewStamp?
    ensures Keeps(s, rid, job, StepJob(s, rid, job, c))
  {
    RenewStampJob(s, rid, job, c);
    ReadOnly(s, rid, job, RenewStampPc(s, job, c));
  }

  lemma {:induction false} SweepListKeeps(s: Store, rid: nat, job: Job, c: Choice)
    requires StoreInv(s) && JobInv(s, rid, job) && job.pc.SweepList?
    ensures Keeps(s, rid, job, StepJob(s, rid, job, c))
  {
    SweepListJob(s, rid, job, c);
    ReadOnly(s, rid, job, SweepListPc(s, job, c));
  }

  /** The steps that load the manifest. */
  lemma {:induction false} LoadKeeps(s: Store, rid: nat, job: Job, c: Choice)
    requires StoreInv(s) && JobInv(s, rid, job)
    requires job.pc.Authorize? || job.pc.RevokeLoad? || job.pc.Reload?
    ensures Keeps(s, rid, job, StepJob(s, rid, job, c))
  {
    GrowsNot(s, rid);
    if job.request.id in s.records { Load(s, job.request.id); }
    match job.pc {
      case Authorize => AuthorizeJob(s, rid, job, c);
      case RevokeLoad(_) => RevokeLoadJob(s, rid, job, c);
      case Reload => ReloadJob(s, rid, job, c);
    }
  }

  /** Drawing a fresh revision, and for a creation a fresh page id. */
  function Drawn(s: Store, rid: nat, r: Record, u: Upload, newPage: bool): Store {
    s.(issued := s.issued[r.Rev() := Issue(rid, u)], pages := if newPage then s.pages[r.id := rid] else s.pages)
  }

  lemma {:induction false} DrawnGrows(s: Store, rid: nat, r: Record, u: Upload, newPage: bool)
    requires r.Rev() !in s.issued && (newPage ==> r.id !in s.pages)
    ensures Grows(s, Drawn(s, rid, r, u, newPage), rid)
  {
  }

  lemma {:induction false} DrawnKeeps(s: Store, rid: nat, r: Record, u: Upload, newPage: bool)
    requires StoreInv(s) && r.Rev() !in s.issued && u.Valid() && (newPage ==> r.id !in s.pages)
    ensures StoreInv(Drawn(s, rid, r, u, newPage)) && Grows(s, Drawn(s, rid, r, u, newPage), rid)
  {
    var t := Drawn(s, rid, r, u, newPage);
    DrawnGrows(s, rid, r, u, newPage);
    forall id | id in t.records ensures ManifestInv(t, id) { DrawnOther(s, rid, r, u, newPage, id); }
  }

  lemma {:induction false} DrawnOther(s: Store, rid: nat, r: Record, u: Upload, newPage: bool, id: nat)
    requires id in s.records && ManifestInv(s, id) && r.Rev() !in s.issued && (newPage ==> r.id !in s.pages)
    ensures ManifestInv(Drawn(s, rid, r, u, newPage), id)
  {
  }

  lemma {:induction false} PrepareJob(s: Store, rid: nat, job: Job, c: Choice)
    requires JobInv(s, rid, job) && job.pc.Prepare?
    requires s.placed <= s.issued.Keys && forall id | id in s.records :: id in s.pages
    ensures var next := StepPrepare(s, rid, job, c);
            && JobInv(next.0, rid, job.(pc := next.1))
            && (next == (s, job.pc)
                || (next.1.PutPart? && next.1.record.Rev() !in s.issued
                    && UploadOf(job.request).Some? && UploadOf(job.request).value.Valid()
                    && (next.1.base.None? ==> next.1.record.id !in s.pages)
                    && next.0 == Drawn(s, rid, next.1.record, UploadOf(job.request).value, next.1.base.None?)))
  {
  }

  lemma {:induction false} PrepareKeeps(s: Store, rid: nat, job: Job, c: Choice)
    requires StoreInv(s) && JobInv(s, rid, job) && job.pc.Prepare?
    ensures Keeps(s, rid, job, StepPrepare(s, rid, job, c))
  {
    forall id | id in s.records ensures id in s.pages { assert ManifestInv(s, id); }
    PrepareJob(s, rid, job, c);
    GrowsNot(s, rid);
    var next := StepPrepare(s, rid, job, c);
    if next != (s, job.pc) {
      DrawnKeeps(s, rid, next.1.record, UploadOf(job.request).value, next.1.base.None?);
    }
  }

  lemma {:induction false} PutPartFails(s: Store, rid: nat, job: Job)
    requires JobInv(s, rid, job) && job.pc.PutPart?
    ensures JobInv(s, rid, job.(pc := FailPc(job, job.pc.record, false)))
  {
  }

  lemma {:induction false} PutPartSucceeds(s: Store, rid: nat, job: Job)
    requires JobInv(s, rid, job) && job.pc.PutPart? && BlobsInv(s)
    ensures var next := StepPutPart(s, rid, job, Call(Succeeds)); JobInv(next.0, rid, job.(pc := next.1))
  {
  }

  lemma {:induction false} PutPartJob(s: Store, rid: nat, job: Job, c: Choice)
    requires JobInv(s, rid, job) && job.pc.PutPart? && BlobsInv(s) && HistoryInv(s)
    ensures var next := StepPutPart(s, rid, job, c); JobInv(next.0, rid, job.(pc := next.1))
  {
    if c == Call(Succeeds) { PutPartSucceeds(s, rid, job); }
    else if c.Call? { PutPartFails(s, rid, job); }
  }

  lemma {:induction false} PutPartKeeps(s: Store, rid: nat, job: Job, c: Choice)
    requires StoreInv(s) && JobInv(s, rid, job) && job.pc.PutPart?
    ensures Keeps(s, rid, job, StepPutPart(s, rid, job, c))
  {
    PutPartJob(s, rid, job, c);
    GrowsNot(s, rid);
    if c.Call? && c.outcome.Succeeds? {
      var PutPart(_, r, part) := job.pc;
      var part_ := PartOf(UploadOf(job.request).value, part);
      if part_.Some? { PutKeeps(s, rid, r.Key(part), part_.value); }
    }
  }

  lemma {:induction false} RenewPutJob(s: Store, rid: nat, job: Job, c: Choice)
    requires JobInv(s, rid, job) && job.pc.RenewPut?
    ensures var next := StepRenewPut(s, rid, job, c); JobInv(next.0, rid, job.(pc := next.1))
  {
  }

  lemma {:induction false} RenewPutKeeps(s: Store, rid: nat, job: Job, c: Choice)
    requires StoreInv(s) && JobInv(s, rid, job) && job.pc.RenewPut?
    ensures Keeps(s, rid, job, StepRenewPut(s, rid, job, c))
  {
    RenewPutJob(s, rid, job, c);
    GrowsNot(s, rid);
    if c.Call? && c.outcome.Succeeds? {
      var RenewPut(r, _, todo, bytes) := job.pc;
      PutKeeps(s, rid, r.Key(todo[0]), bytes);
    }
  }

  lemma {:induction false} DiscardJob(s: Store, rid: nat, job: Job, c: Choice)
    requires JobInv(s, rid, job) && job.pc.Discard?
    ensures var next := StepDiscard(s, rid, job, c); JobInv(next.0, rid, job.(pc := next.1))
  {
  }

  /** What becomes of manifest objects says nothing about records, as long as only old ones go. */
  lemma {:induction false} GoneStable(s: Store, gone: set<nat>, id: nat)
    requires id in s.records && ManifestInv(s, id)
    requires id in gone && id !in s.gone ==> s.clock - s.savedAt[id] > RETENTION_MS
    ensures ManifestInv(s.(gone := gone), id)
  {
    var t := s.(gone := gone);
    var r := s.records[id];
    assert forall p :: Present(s, r.Key(p)) <==> Present(t, r.Key(p));
  }

  /** Deleting the manifest key of a page that never had a manifest. */
  lemma {:induction false} UnwriteKeeps(s: Store, rid: nat, id: nat)
    requires StoreInv(s) && id !in s.records
    ensures StoreInv(s.(gone := s.gone + {id})) && Grows(s, s.(gone := s.gone + {id}), rid)
  {
    var t := s.(gone := s.gone + {id});
    forall other | other in t.records ensures ManifestInv(t, other) { GoneStable(s, t.gone, other); }
  }

  lemma {:induction false} DiscardStore(s: Store, rid: nat, job: Job, c: Choice)
    requires StoreInv(s) && job.pc.Discard?
    requires var r := job.pc.record;
             r.Rev() in s.issued && s.issued[r.Rev()].request == rid && r.Rev() !in s.placed
             && (job.pc.withManifest ==> r.id !in s.records)
    ensures StoreInv(StepDiscard(s, rid, job, c).0) && Grows(s, StepDiscard(s, rid, job, c).0, rid)
  {
    GrowsNot(s, rid);
    var r := job.pc.record;
    if c.Remove? && c.part in job.pc.parts { DropKeeps(s, rid, r.Key(c.part)); }
    else if c.RemoveManifest? && job.pc.withManifest { UnwriteKeeps(s, rid, r.id); }
  }

  lemma {:induction false} DiscardKeeps(s: Store, rid: nat, job: Job, c: Choice)
    requires StoreInv(s) && JobInv(s, rid, job) && job.pc.Discard?
    ensures Keeps(s, rid, job, StepDiscard(s, rid, job, c))
  {
    DiscardJob(s, rid, job, c);
    DiscardStore(s, rid, job, c);
  }

  lemma {:induction false} SupersedeStore(s: Store, rid: nat, job: Job, c: Choice)
    requires StoreInv(s) && job.pc.Supersede? && job.pc.superseded in s.retired
    ensures StoreInv(StepSupersede(s, rid, job, c).0) && Grows(s, StepSupersede(s, rid, job, c).0, rid)
  {
    GrowsNot(s, rid);
    if c.Remove? { DropKeeps(s, rid, BlobKey(job.pc.superseded, c.part)); }
  }

  lemma {:induction false} SupersedeJob(s: Store, rid: nat, job: Job, c: Choice)
    requires JobInv(s, rid, job) && job.pc.Supersede?
    ensures var next := StepSupersede(s, rid, job, c); JobInv(next.0, rid, job.(pc := next.1))
  {
  }

  lemma {:induction false} SupersedeKeeps(s: Store, rid: nat, job: Job, c: Choice)
    requires StoreInv(s) && JobInv(s, rid, job) && job.pc.Supersede?
    ensures Keeps(s, rid, job, StepSupersede(s, rid, job, c))
  {
    SupersedeJob(s, rid, job, c);
    SupersedeStore(s, rid, job, c);
  }

  lemma {:induction false} SweepDeleteJob(s: Store, rid: nat, job: Job, c: Choice)
    requires JobInv(s, rid, job) && job.pc.SweepDelete?
    ensures var next := StepSweepDelete(s, rid, job, c); JobInv(next.0, rid, job.(pc := next.1))
  {
  }

  lemma {:induction false} SweepDeleteKeeps(s: Store, rid: nat, job: Job, c: Choice)
    requires StoreInv(s) && JobInv(s, rid, job) && job.pc.SweepDelete?
    ensures Keeps(s, rid, job, StepSweepDelete(s, rid, job, c))
  {
    SweepDeleteJob(s, rid, job, c);
    SweepDeleteStore(s, rid, job, c);
  }

  lemma {:induction false} SweepDeleteStore(s: Store, rid: nat, job: Job, c: Choice)
    requires StoreInv(s) && job.pc.SweepDelete?
    requires forall k | k in job.pc.left :: Revoked(s, k.at.id)
    ensures StoreInv(StepSweepDelete(s, rid, job, c).0) && Grows(s, StepSweepDelete(s, rid, job, c).0, rid)
  {
    GrowsNot(s, rid);
    if c.Delete? && c.key in job.pc.left { DropKeeps(s, rid, c.key); }
  }

  /* ---- The four conditional manifest writes ---- */

  lemma {:induction false} BundleCommittable(s: Store, rid: nat, job: Job)
    requires JobInv(s, rid, job) && job.pc.SaveBundle? && EtagMatches(s, job.pc.base)
    requires job.pc.base.Some? ==> job.pc.base.value.id in s.pages
    ensures var SaveBundle(base, r) := job.pc;
            Committable(s, rid, r.id, base, BundleEdit(job.request, r), r)
  {
    var SaveBundle(base, r) := job.pc;
    AppendedRenewal(s.log, Entry(rid, r.id, base, BundleEdit(job.request, r)));
  }

  lemma {:induction false} SaveBundleJob(s: Store, rid: nat, job: Job, c: Choice)
    requires JobInv(s, rid, job) && job.pc.SaveBundle?
    ensures var next := StepSaveBundle(s, rid, job, c); JobInv(next.0, rid, job.(pc := next.1))
  {
    var SaveBundle(base, r) := job.pc;
    AppendedEdits(s.log, Entry(rid, r.id, base, BundleEdit(job.request, r)));
  }

  lemma {:induction false} SaveBundleKeeps(s: Store, rid: nat, job: Job, c: Choice)
    requires StoreInv(s) && JobInv(s, rid, job) && job.pc.SaveBundle?
    ensures Keeps(s, rid, job, StepSaveBundle(s, rid, job, c))
  {
    GrowsNot(s, rid);
    SaveBundleJob(s, rid, job, c);
    var SaveBundle(base, r) := job.pc;
    if c.Call? && c.outcome.Succeeds? && EtagMatches(s, base) {
      if base.Some? { assert ManifestInv(s, base.value.id); }
      BundleCommittable(s, rid, job);
      CommitKeeps(s, rid, r.id, base, BundleEdit(job.request, r), r);
    }
  }

  lemma {:induction false} RenewCommittable(s: Store, rid: nat, job: Job)
    requires JobInv(s, rid, job) && job.pc.RenewSave? && EtagMatches(s, Some(job.pc.loaded))
    requires ManifestInv(s, job.pc.loaded.id)
    ensures var RenewSave(r, since, record) := job.pc;
            Committable(s, rid, r.id, Some(r), Protect(record.password, record.anchor, since), record)
  {
    var RenewSave(r, since, record) := job.pc;
    AppendedRenewal(s.log, Entry(rid, r.id, Some(r), Protect(record.password, record.anchor, since)));
  }

  lemma {:induction false} RenewSaveJob(s: Store, rid: nat, job: Job, c: Choice)
    requires JobInv(s, rid, job) && job.pc.RenewSave?
    ensures var next := StepRenewSave(s, rid, job, c); JobInv(next.0, rid, job.(pc := next.1))
  {
    var RenewSave(r, since, record) := job.pc;
    AppendedEdits(s.log, Entry(rid, r.id, Some(r), Protect(record.password, record.anchor, since)));
  }

  lemma {:induction false} RenewSaveKeeps(s: Store, rid: nat, job: Job, c: Choice)
    requires StoreInv(s) && JobInv(s, rid, job) && job.pc.RenewSave?
    ensures Keeps(s, rid, job, StepRenewSave(s, rid, job, c))
  {
    RenewSaveJob(s, rid, job, c);
    GrowsNot(s, rid);
    var RenewSave(r, since, record) := job.pc;
    if c.Call? && c.outcome.Succeeds? && EtagMatches(s, Some(r)) {
      RenewCommittable(s, rid, job);
      CommitKeeps(s, rid, r.id, Some(r), Protect(record.password, record.anchor, since), record);
    }
  }

  /** Marking a page revoked, or noting how far its sweep got, changes nothing else. */
  lemma {:induction false} MarkCommittable(s: Store, rid: nat, r: Record, edit: Edit)
    requires Stored(s, r.id) == Some(r) && ManifestInv(s, r.id)
    requires edit.Revoke? || (edit.NoteCleanup? && r.status.Unpublished?)
    ensures Committable(s, rid, r.id, Some(r), edit, Apply(Some(r), edit).value)
  {
    AppendedRenewal(s.log, Entry(rid, r.id, Some(r), edit));
  }

  lemma {:induction false} RevokeSaveJob(s: Store, rid: nat, job: Job, c: Choice)
    requires JobInv(s, rid, job) && job.pc.RevokeSave?
    ensures var next := StepRevokeSave(s, rid, job, c); JobInv(next.0, rid, job.(pc := next.1))
  {
    AppendedEdits(s.log, Entry(rid, job.pc.loaded.id, Some(job.pc.loaded), Revoke));
  }

  lemma {:induction false} RevokeSaveKeeps(s: Store, rid: nat, job: Job, c: Choice)
    requires StoreInv(s) && JobInv(s, rid, job) && job.pc.RevokeSave?
    ensures Keeps(s, rid, job, StepRevokeSave(s, rid, job, c))
  {
    GrowsNot(s, rid);
    RevokeSaveJob(s, rid, job, c);
    var r := job.pc.loaded;
    if c.Call? && c.outcome.Succeeds? && EtagMatches(s, Some(r)) {
      MarkCommittable(s, rid, r, Revoke);
      CommitKeeps(s, rid, r.id, Some(r), Revoke, Apply(Some(r), Revoke).value);
    }
  }

  lemma {:induction false} SweepSaveJob(s: Store, rid: nat, job: Job, c: Choice)
    requires JobInv(s, rid, job) && job.pc.SweepSave?
    ensures var next := StepSweepSave(s, rid, job, c); JobInv(next.0, rid, job.(pc := next.1))
  {
    AppendedEdits(s.log, Entry(rid, job.pc.loaded.id, Some(job.pc.loaded), CleanupNote(job.pc.loaded, job.pc.failed)));
  }

  lemma {:induction false} SweepSaveKeeps(s: Store, rid: nat, job: Job, c: Choice)
    requires StoreInv(s) && JobInv(s, rid, job) && job.pc.SweepSave?
    ensures Keeps(s, rid, job, StepSweepSave(s, rid, job, c))
  {
    GrowsNot(s, rid);
    SweepSaveJob(s, rid, job, c);
    var r := job.pc.loaded;
    if c.Call? && c.outcome.Succeeds? && EtagMatches(s, Some(r)) {
      var edit := CleanupNote(r, job.pc.failed);
      MarkCommittable(s, rid, r, edit);
      CommitKeeps(s, rid, r.id, Some(r), edit, Apply(Some(r), edit).value);
    }
  }

  lemma {:induction false} WriteStepKeeps(s: Store, rid: nat, job: Job, c: Choice)
    requires StoreInv(s) && JobInv(s, rid, job)
    requires job.pc.Prepare? || job.pc.PutPart? || job.pc.SaveBundle? || job.pc.Discard? || job.pc.Supersede?
    ensures Keeps(s, rid, job, StepJob(s, rid, job, c))
  {
    match job.pc {
      case Prepare(_) => PrepareKeeps(s, rid, job, c);
      case PutPart(_, _, _) => PutPartKeeps(s, rid, job, c);
      case SaveBundle(_, _) => SaveBundleKeeps(s, rid, job, c);
      case Discard(_, _, _, _) => DiscardKeeps(s, rid, job, c);
      case Supersede(_, _) => SupersedeKeeps(s, rid, job, c);
    }
  }

  lemma {:induction false} RenewStepKeeps(s: Store, rid: nat, job: Job, c: Choice)
    requires StoreInv(s) && JobInv(s, rid, job) && (job.pc.RenewPut? || job.pc.RenewSave?)
    ensures Keeps(s, rid, job, StepJob(s, rid, job, c))
  {
    if job.pc.RenewPut? { RenewPutKeeps(s, rid, job, c); } else { RenewSaveKeeps(s, rid, job, c); }
  }

  lemma {:induction false} RevokeStepKeeps(s: Store, rid: nat, job: Job, c: Choice)
    requires StoreInv(s) && JobInv(s, rid, job)
    requires job.pc.RevokeSave? || job.pc.SweepDelete? || job.pc.SweepSave?
    ensures Keeps(s, rid, job, StepJob(s, rid, job, c))
  {
    match job.pc {
      case RevokeSave(_, _) => RevokeSaveKeeps(s, rid, job, c);
      case SweepDelete(_, _, _) => SweepDeleteKeeps(s, rid, job, c);
      case SweepSave(_, _) => SweepSaveKeeps(s, rid, job, c);
    }
  }

  lemma {:induction false} JobStepKeeps(s: Store, rid: nat, job: Job, c: Choice)
    requires StoreInv(s) && JobInv(s, rid, job)
    ensures Keeps(s, rid, job, StepJob(s, rid, job, c))
  {
    var pc := job.pc;
    if pc.Prepare? || pc.PutPart? || pc.SaveBundle? || pc.Discard? || pc.Supersede? { WriteStepKeeps(s, rid, job, c); }
    else if pc.RenewGet? { RenewGetKeeps(s, rid, job, c); }
    else if pc.RenewStamp? { RenewStampKeeps(s, rid, job, c); }
    else if pc.SweepList? { SweepListKeeps(s, rid, job, c); }
    else if pc.Authorize? || pc.RevokeLoad? || pc.Reload? { LoadKeeps(s, rid, job, c); }
    else if pc.RenewPut? || pc.RenewSave? { RenewStepKeeps(s, rid, job, c); }
    else if pc.Done? { GrowsNot(s, rid); }
    else { RevokeStepKeeps(s, rid, job, c); }
  }
}
