/** Every event keeps the invariant, and no guard of the board raises on the way. */
module Preservation {
  import opened Wrappers
  import opened Contract
  import opened Steps
  import opened Lifecycles
  import opened Credential
  import opened Keys
  import opened BoardTables
  import opened BoardRows
  import opened World
  import opened Invariant
  import opened Frames
  import opened Shapes

  // ---------------------------------------------------------------- the upload request

  /** Nothing is known about an id before it is reserved. */
  ghost predicate Unknown(w: World, id: Id) {
    && id !in w.db.jobs && id !in w.db.uploads && id !in w.inputs && id !in w.marked && JobPrefix(id) !in w.condemned
    && OfUpload(id) !in w.db.writes
    && Unstarted(w, id)
    && (forall rev: nat :: (id, rev) !in w.db.attempts)
    && (forall l: Lease :: (id, l) !in w.db.completions)
    && (forall t | t in w.putting :: w.putting[t].id != id)
    && (forall r | r in w.completing :: w.completing[r].id != id)
  }

  lemma FreshIsUnknown(w: World, id: Id)
    requires Slice(w, id) && id !in w.reserved
    ensures Unknown(w, id)
  {
    hide RowInv; hide PipelineRow;
  }

  lemma ReserveSlice(w: World, v: World, id: Id)
    requires Unknown(w, id) && v.condemned == w.condemned
    requires v == At(w, ReserveUpload(w.db, id, v.clock), v.clock).(reserved := w.reserved + {id}, transfers := w.transfers + {id})
    ensures Slice(v, id)
  {
    hide RowInv; hide PipelineRow;
  }

  lemma ReserveOthers(w: World, v: World, id: Id)
    requires CleaningKept(w) && w.clock <= v.clock
    requires v == At(w, ReserveUpload(w.db, id, v.clock), v.clock).(reserved := w.reserved + {id}, transfers := w.transfers + {id})
    ensures v.condemned == w.condemned && CleaningKept(v) && v.db.jobs == w.db.jobs
    ensures forall other | other != id :: SameSlice(w, v, other)
  {
    assert v.condemned == w.condemned;
  }

  lemma InputPutSlice(w: World, v: World, id: Id, bytes: Bytes)
    requires Slice(w, id) && id in w.transfers
    requires v == w.(store := w.store[InputKey(id) := bytes], inputs := w.inputs[id := bytes], transfers := w.transfers - {id})
    ensures Slice(v, id)
  {
    hide RowInv; hide PipelineRow;
    assert forall rev: nat, seen :: Intact(w.store, id, rev, seen) ==> Intact(v.store, id, rev, seen);
    assert RevisionsOf(v, id);
    assert DecisionsOf(v, id);
  }

  lemma InputPutOthers(w: World, v: World, id: Id, bytes: Bytes)
    requires v == w.(store := w.store[InputKey(id) := bytes], inputs := w.inputs[id := bytes], transfers := w.transfers - {id})
    ensures forall other | other != id :: SameSlice(w, v, other)
  {
  }

  lemma UnchangedKeeps(w: World, v: World)
    requires Inv(w) && w.clock <= v.clock
    requires v == At(w, w.db, v.clock).(completing := v.completing, transfers := v.transfers)
    requires forall r | r in v.completing :: r in w.completing && v.completing[r] == w.completing[r]
    requires v.transfers <= w.transfers
    ensures Inv(v) && Moves(w, v)
  {
    hide Slice; hide AdmissionKept;
    assert v.condemned == w.condemned;
    NoneChanged(w, v);
  }

  lemma ReserveKeeps(w: World, v: World, id: Id)
    requires Inv(w) && Slice(w, id) && id !in w.reserved && w.clock <= v.clock
    requires v == At(w, ReserveUpload(w.db, id, v.clock), v.clock).(reserved := w.reserved + {id}, transfers := w.transfers + {id})
    ensures Inv(v) && Moves(w, v)
  {
    hide Moves;
    StandStill(w, v);
    hide Slice; hide SameSlice; hide CleaningKept; hide AdmissionKept; hide At; hide ReserveUpload; hide Unknown;
    FreshIsUnknown(w, id);
    ReserveOthers(w, v, id);
    ReserveSlice(w, v, id);
    OnlyOneChanged(w, v, id);
  }

  lemma InputPutKeeps(w: World, v: World, id: Id, bytes: Bytes)
    requires Inv(w) && Slice(w, id) && id in w.transfers
    requires v == w.(store := w.store[InputKey(id) := bytes], inputs := w.inputs[id := bytes], transfers := w.transfers - {id})
    ensures Inv(v) && Moves(w, v)
  {
    hide Slice; hide AdmissionKept; hide Moves;
    StandStill(w, v);
    assert CleaningKept(v);
    hide CleaningKept; hide SameSlice;
    InputPutOthers(w, v, id, bytes);
    InputPutSlice(w, v, id, bytes);
    OnlyOneChanged(w, v, id);
  }

  /** The tables after the upload request reported its input. */
  function StoredDb(db: Db, id: Id): Db {
    if id in db.uploads then db.(uploads := db.uploads[id := db.uploads[id].(state := Stored)]) else db
  }

  lemma MarkStoredKeeps(w: World, v: World, id: Id)
    requires Inv(w) && Slice(w, id) && id in w.inputs
    requires v == At(w, StoredDb(w.db, id), w.clock).(marked := w.marked + {id})
    ensures Inv(v) && Moves(w, v)
  {
    InvParts(w);
    hide Slice; hide AdmissionKept; hide Inv; hide CleaningKept; hide At; hide StoredDb; hide SameSlice; hide Moves;
    MarkStoredOthers(w, v, id);
    MarkStoredSlice(w, v, id);
    StandStill(w, v);
    OnlyOneChanged(w, v, id);
  }

  lemma MarkStoredOthers(w: World, v: World, id: Id)
    requires CleaningKept(w) && v == At(w, StoredDb(w.db, id), w.clock).(marked := w.marked + {id})
    ensures v == w.(db := w.db.(uploads := v.db.uploads), marked := w.marked + {id})
    ensures v.db.uploads.Keys == w.db.uploads.Keys && CleaningKept(v)
    ensures forall other | other != id :: SameSlice(w, v, other)
  {
    assert v.condemned == w.condemned;
  }

  lemma MarkStoredSlice(w: World, v: World, id: Id)
    requires Slice(w, id) && id in w.inputs && v.condemned == w.condemned
    requires v == At(w, StoredDb(w.db, id), w.clock).(marked := w.marked + {id})
    ensures Slice(v, id)
  {
    hide RowInv; hide PipelineRow; hide ValidSteps; hide Intact;
    SameTablesSlices(w, v, id);
    hide RevisionsOf; hide DecisionsOf;
    assert UploadOf(v, id) by {
      assert UploadOf(w, id);
      hide Slice;
    }
    hide UploadOf;
  }

  /** Attempts, receipts, jobs and tickets as they were: revisions and decisions are accounted for. */
  lemma SameTablesSlices(w: World, v: World, id: Id)
    requires Slice(w, id) && v.db.attempts == w.db.attempts && v.db.completions == w.db.completions && v.db.jobs == w.db.jobs
    requires v.tickets == w.tickets && v.condemned == w.condemned && v.decisions == w.decisions && v.reserved == w.reserved
    ensures RevisionsOf(v, id) && DecisionsOf(v, id)
  {
    assert RevisionsOf(w, id) && DecisionsOf(w, id);
    hide Slice;
    forall r: nat | (id, r) in v.db.attempts ensures RevisionAccounted(v, id, r) {
      assert RevisionAccounted(w, id, r);
    }
    forall d | Rendered(w, d) ensures Rendered(v, d) {
      var r: nat :| RenderedAt(w, d, r);
      assert RenderedAt(v, d, r);
    }
  }

  lemma CreateSlice(w: World, v: World, id: Id, owner: string, jwt: string, exp: int)
    requires Slice(w, id) && id in w.db.uploads && w.db.uploads[id].state == Stored && v.condemned == w.condemned
    requires w.clock <= v.clock
    requires v == At(w, PutJob(w.db, id, NewRow(owner, jwt, exp, v.clock)).(
                          uploads := w.db.uploads - {id}, writes := w.db.writes - {OfUpload(id)}), v.clock)
    ensures Slice(v, id)
  {
    NewRowKeeps(owner, jwt, exp, v.clock);
    PipelineIsSeven();
    hide RowInv; hide ValidSteps;
    assert Unstarted(w, id);
  }

  lemma CreateOthers(w: World, v: World, id: Id, owner: string, jwt: string, exp: int)
    requires CleaningKept(w) && w.clock <= v.clock
    requires v == At(w, PutJob(w.db, id, NewRow(owner, jwt, exp, v.clock)).(
                          uploads := w.db.uploads - {id}, writes := w.db.writes - {OfUpload(id)}), v.clock)
    ensures v.condemned == w.condemned && CleaningKept(v)
    ensures forall other | other != id :: SameSlice(w, v, other)
  {
    hide NewRow;
    assert v.condemned == w.condemned;
  }

  ghost predicate ProcessIsActive(jobs: map<Id, Job>) {
    forall id | id in jobs && IsKind(jobs[id], Process) :: Active(jobs[id].status)
  }

  lemma RowsSayActive(w: World)
    requires forall id :: Slice(w, id)
    ensures ProcessIsActive(w.db.jobs)
  {
    forall id | id in w.db.jobs && IsKind(w.db.jobs[id], Process) ensures Active(w.db.jobs[id].status) {
      var j := w.db.jobs[id];
      assert Slice(w, id) && RowOf(w, id) && TaskColumns(j) && StatusMatches(j);
      match j.taskState.value
      case Waiting =>
      case Claimed =>
    }
  }

  /** Admission counts active jobs, and every process task belongs to an active job. */
  lemma CreateAdmits(w: World, id: Id, owner: string, jwt: string, exp: int, now: int)
    requires ProcessIsActive(w.db.jobs)
    requires AdmissionKept(w.db.jobs) && id !in w.db.jobs
    requires |ActiveOf(w.db, owner)| < ACTIVE_PER_PERSON && |ActiveAll(w.db)| < ACTIVE_GLOBAL
    ensures AdmissionKept(w.db.jobs[id := NewRow(owner, jwt, exp, now)])
  {
    var jobs := w.db.jobs;
    var after := jobs[id := NewRow(owner, jwt, exp, now)];
    Smaller(ProcessAll(jobs), ActiveAll(w.db));
    Smaller(ProcessOf(jobs, owner), ActiveOf(w.db, owner));
    assert ProcessAll(after) == ProcessAll(jobs) + {id};
    assert ProcessOf(after, owner) == ProcessOf(jobs, owner) + {id};
    forall person ensures |ProcessOf(after, person)| <= ACTIVE_PER_PERSON {
      if person != owner {
        assert ProcessOf(after, person) == ProcessOf(jobs, person);
      }
    }
  }

  lemma CreateKeeps(w: World, v: World, id: Id, owner: string, jwt: string, exp: int)
    requires Inv(w) && Slice(w, id) && id in w.db.uploads && w.db.uploads[id].state == Stored
    requires w.clock <= v.clock && AdmitUpload(w.db, owner, exp, v.clock) == Admit
    requires v == At(w, PutJob(w.db, id, NewRow(owner, jwt, exp, v.clock)).(
                          uploads := w.db.uploads - {id}, writes := w.db.writes - {OfUpload(id)}), v.clock)
    ensures Inv(v) && Moves(w, v)
  {
    hide RowOf; hide PipelineOf; hide RevisionsOf; hide ReceiptsOf; hide CondemnedOf; hide WritesOf;
    hide StoreOf; hide CompletingOf; hide DecisionsOf; hide RollbackOf; hide SameSlice;
    hide CleaningKept; hide AdmissionKept;
    assert OneOwner(w, id);
    hide Slice; hide UploadOf; hide ProcessIsActive;
    RowsSayActive(w);
    CreateAdmits(w, id, owner, jwt, exp, v.clock);
    CreateOthers(w, v, id, owner, jwt, exp);
    CreateSlice(w, v, id, owner, jwt, exp);
    OnlyOneChanged(w, v, id);
  }

  /** The reservation is given up: by its request, or by the sweep while the transfer still runs. */
  ghost predicate GivenUp(w: World, v: World, id: Id, writes: map<WriteId, Prefix>) {
    && w.clock <= v.clock && v.transfers <= w.transfers
    && (writes == w.db.writes || (writes == w.db.writes - {OfUpload(id)} && id !in v.transfers))
    && v.db.jobs == w.db.jobs && v.db.completions == w.db.completions && v.db.attempts == w.db.attempts
    && v.db.uploads == w.db.uploads - {id} && v.db.writes == writes
    && v == w.(db := v.db, clock := v.clock, transfers := v.transfers, condemned := w.condemned + {JobPrefix(id)})
  }

  lemma GiveUpSlice(w: World, v: World, id: Id, writes: map<WriteId, Prefix>)
    requires Slice(w, id) && id !in w.db.jobs && id in w.reserved && GivenUp(w, v, id, writes)
    ensures Slice(v, id)
  {
    hide RowInv; hide PipelineRow;
    assert forall rev: nat :: (id, rev) !in w.db.attempts;
    assert forall l: Lease :: (id, l) !in w.db.completions;
    assert RevisionsOf(v, id) && ReceiptsOf(v, id);
    assert CondemnedOf(v, id);
    assert WritesOf(v, id);
    assert UploadOf(v, id) && StoreOf(v, id);
    assert CompletingOf(v, id);
  }

  lemma GiveUpIs(w: World, v: World, id: Id, writes: map<WriteId, Prefix>, notBefore: int)
    requires CleaningKept(w) && w.clock <= v.clock && v.transfers <= w.transfers
    requires v == At(w, RequestCleanup(w.db.(uploads := w.db.uploads - {id}, writes := writes), JobPrefix(id), notBefore), v.clock)
                  .(transfers := v.transfers)
    requires writes == w.db.writes || (writes == w.db.writes - {OfUpload(id)} && id !in v.transfers)
    ensures GivenUp(w, v, id, writes) && CleaningKept(v)
  {
    assert w.db.cleanup.Keys <= w.condemned;
    hide CleaningKept;
    assert v.db.cleanup == CleanupWith(w.db.cleanup, JobPrefix(id), notBefore);
    assert v.condemned == w.condemned + {JobPrefix(id)};
    assert GivenUp(w, v, id, writes);
    hide At; hide RequestCleanup; hide GivenUp;
    GiveUpCleaning(w, v, id, writes, notBefore);
  }

  lemma GiveUpCleaning(w: World, v: World, id: Id, writes: map<WriteId, Prefix>, notBefore: int)
    requires CleaningKept(w) && GivenUp(w, v, id, writes)
    requires v.db.cleanup == CleanupWith(w.db.cleanup, JobPrefix(id), notBefore)
    ensures CleaningKept(v)
  {
    forall token | OfArtifact(token) in v.db.writes ensures OfArtifact(token) in w.db.writes {
    }
  }

  lemma GiveUpOthers(w: World, v: World, id: Id, writes: map<WriteId, Prefix>)
    requires GivenUp(w, v, id, writes)
    ensures forall other | other != id :: SameSlice(w, v, other)
  {
  }

  lemma GiveUpKeeps(w: World, v: World, id: Id, writes: map<WriteId, Prefix>, notBefore: int)
    requires Inv(w) && Slice(w, id) && id !in w.db.jobs && id in w.reserved && w.clock <= v.clock && v.transfers <= w.transfers
    requires v == At(w, RequestCleanup(w.db.(uploads := w.db.uploads - {id}, writes := writes), JobPrefix(id), notBefore), v.clock)
                  .(transfers := v.transfers)
    requires writes == w.db.writes || (writes == w.db.writes - {OfUpload(id)} && id !in v.transfers)
    ensures Inv(v) && Moves(w, v)
  {
    hide Slice; hide SameSlice; hide CleaningKept; hide AdmissionKept; hide At; hide RequestCleanup;
    GiveUpIs(w, v, id, writes, notBefore);
    GiveUpOthers(w, v, id, writes);
    GiveUpSlice(w, v, id, writes);
    OnlyOneChanged(w, v, id);
  }

  // ---------------------------------------------------------------- keep, resolve and review

  function OverrideRow(j: Job, kind: ItemKind, item: int, now: int): Job {
    var recorded := RecordedRow(j, kind, item, now);
    if j.taskKind == None && j.hasState then Enqueued(recorded, Sync, None, now) else recorded
  }

  /** Keep and resolve never raise, and leave exactly one row changed. */
  lemma OverrideIs(db: Db, owner: string, id: Id, kind: ItemKind, item: int, now: int)
    requires Owned(db, owner, id) && RowInv(db.jobs[id])
    ensures SetOverride(db, owner, id, kind, item, now) == Answer(PutJob(db, id, OverrideRow(db.jobs[id], kind, item, now)), true)
  {
    var j := db.jobs[id];
    PutPutJob(db, id, RecordedRow(j, kind, item, now), OverrideRow(j, kind, item, now));
  }

  lemma RecordGrows(j: Job, kind: ItemKind, item: int, now: int)
    requires OverlayRow(j)
    ensures OverlayGrows(j, RecordedRow(j, kind, item, now))
    ensures OverlayGrows(j, OverrideRow(j, kind, item, now))
    ensures Layered(OverrideRow(j, kind, item, now), Decision("", kind, item, j.overridesVersion + 1))
  {
    assert OverrideRow(j, kind, item, now).overrides == RecordedRow(j, kind, item, now).overrides;
  }

  lemma IdleHasNoTask(j: Job)
    requires RowInv(j) && j.taskKind == None
    ensures !IsClaimed(j) && j.lease == None && j.nextRev == None && j.deadline == None && j.leaseExpires == None
  {
    hide OverlayRow; hide StatusMatches;
  }

  lemma RecordedSameTask(j: Job, kind: ItemKind, item: int, now: int)
    requires PipelineRow(j) && RowInv(RecordedRow(j, kind, item, now)) && OverlayGrows(j, RecordedRow(j, kind, item, now))
    ensures SameTask(j, RecordedRow(j, kind, item, now), now)
  {
    hide OverlayGrows; hide ValidSteps; hide RowInv; hide Holds;
  }

  lemma QueuedSameTask(j: Job, k: Job, now: int)
    requires j.taskKind == None && RowInv(j) && PipelineRow(j)
    requires RowInv(Enqueued(k, Sync, None, now)) && OverlayGrows(j, Enqueued(k, Sync, None, now))
    requires k.rev == j.rev && k.files == j.files && k.hasState == j.hasState
    requires k.owner == j.owner && k.steps == j.steps && k.prior == j.prior
    ensures SameTask(j, Enqueued(k, Sync, None, now), now)
  {
    IdleHasNoTask(j);
    hide OverlayGrows; hide ValidSteps; hide RowInv; hide Holds;
  }

  lemma OverrideKeepsRow(j: Job, kind: ItemKind, item: int, now: int)
    requires RowInv(j) && !FailedWithState(j)
    ensures var recorded := RecordedRow(j, kind, item, now);
      if j.taskKind == None && j.hasState
      then OverrideRow(j, kind, item, now) == Enqueued(recorded, Sync, None, now) && RowInv(Enqueued(recorded, Sync, None, now))
      else OverrideRow(j, kind, item, now) == recorded && RowInv(recorded)
  {
    RecordKeeps(j, kind, item, now);
    hide RowInv; hide Enqueued;
  }

  lemma OverrideGrows(j: Job, kind: ItemKind, item: int, now: int)
    requires RowInv(j)
    ensures OverlayGrows(j, RecordedRow(j, kind, item, now)) && OverlayGrows(j, OverrideRow(j, kind, item, now))
  {
    assert OverlayRow(j);
    hide *;
    RecordGrows(j, kind, item, now);
  }

  lemma RecordedFields(j: Job, kind: ItemKind, item: int, now: int)
    ensures var k := RecordedRow(j, kind, item, now);
      && k.rev == j.rev && k.files == j.files && k.hasState == j.hasState
      && k.owner == j.owner && k.steps == j.steps && k.prior == j.prior
  {
  }

  lemma OverrideSameTask(j: Job, kind: ItemKind, item: int, now: int)
    requires RowInv(j) && PipelineRow(j) && !FailedWithState(j)
    ensures SameTask(j, OverrideRow(j, kind, item, now), now)
  {
    hide *;
    OverrideKeepsRow(j, kind, item, now);
    OverrideGrows(j, kind, item, now);
    RecordedFields(j, kind, item, now);
    if j.taskKind == None && j.hasState {
      QueuedSameTask(j, RecordedRow(j, kind, item, now), now);
    } else {
      RecordedSameTask(j, kind, item, now);
    }
  }

  lemma OverrideKeeps(w: World, v: World, owner: string, id: Id, kind: ItemKind, item: int)
    requires Inv(w) && Slice(w, id) && Owned(w.db, owner, id) && !FailedWithState(w.db.jobs[id]) && w.clock <= v.clock
    requires v == Touched(w, id, OverrideRow(w.db.jobs[id], kind, item, v.clock), v.clock,
                          w.decisions + {Decision(id, kind, item, w.db.jobs[id].overridesVersion + 1)}, w.rollback)
    ensures Inv(v) && Moves(w, v)
  {
    var j := w.db.jobs[id];
    var k := OverrideRow(j, kind, item, v.clock);
    assert RowOf(w, id) && PipelineOf(w, id) && RollbackOf(w, id);
    hide Slice; hide Inv;
    RecordGrows(j, kind, item, v.clock);
    hide OverlayGrows;
    OverrideSameTask(j, kind, item, v.clock);
    hide ValidSteps; hide RowInv; hide SameTask;
    assert NewDecisionsLayered(w, k, id, v.decisions);
    assert RollbackOf(v, id);
    hide *;
    TouchKeeps(w, v, id, k, {});
  }

  function ReviewRow(j: Job, action: ReviewAction, jwt: string, exp: int, now: int): Job {
    var r := Reviewing(j, jwt, exp, now);
    if j.taskKind == Some(Sync) && j.taskState == Some(Claimed) then r.(pending := Some(PendingReview(action, jwt, exp)))
    else Enqueued(r, Review, Some(action), now)
  }

  /** A review that is not refused at the door never raises, and leaves exactly one row changed. */
  lemma ReviewIs(db: Db, owner: string, id: Id, action: ReviewAction, jwt: string, exp: int, now: int)
    requires Owned(db, owner, id) ==> RowInv(db.jobs[id])
    ensures var call := QueueReview(db, owner, id, action, jwt, exp, now);
      && call.Answer?
      && (call.reply != Accepted ==> call.db == db)
      && (call.reply == Accepted ==>
            Owned(db, owner, id) && !ReviewBusy(db.jobs[id])
            && call.db == PutJob(db, id, ReviewRow(db.jobs[id], action, jwt, exp, now)))
  {
    if Owned(db, owner, id) && !ReviewBusy(db.jobs[id]) {
      var j := db.jobs[id];
      ReviewingKeeps(j, action, jwt, exp, now);
      hide RowInv;
      var r := Reviewing(j, jwt, exp, now);
      PutPutJob(db, id, r, ReviewRow(j, action, jwt, exp, now));
      assert PutJob(db, id, r).jobs[id] == r;
    }
  }

  lemma ReviewSameTask(j: Job, action: ReviewAction, jwt: string, exp: int, now: int)
    requires RowInv(j) && PipelineRow(j) && !ReviewBusy(j)
    ensures SameTask(j, ReviewRow(j, action, jwt, exp, now), now)
  {
    ReviewingKeeps(j, action, jwt, exp, now);
    ResetAndFailKeepThePipeline(j.steps, true, "", 0);
    assert ReviewRow(j, action, jwt, exp, now).overrides == j.overrides;
    assert !IsClaimed(j) ==> j.lease == None && j.nextRev == None;
    hide ValidSteps; hide OverlayRow; hide RowInv;
  }

  lemma ReviewPrior(j: Job, action: ReviewAction, jwt: string, exp: int, now: int)
    ensures ReviewRow(j, action, jwt, exp, now).prior == Some(Prior(j.status, j.steps))
  {
  }

  lemma ReviewKeeps(w: World, v: World, id: Id, action: ReviewAction, jwt: string, exp: int)
    requires Inv(w) && Slice(w, id) && id in w.db.jobs && !ReviewBusy(w.db.jobs[id]) && w.clock <= v.clock
    requires v == Touched(w, id, ReviewRow(w.db.jobs[id], action, jwt, exp, v.clock), v.clock, w.decisions,
                          w.rollback[id := Prior(w.db.jobs[id].status, w.db.jobs[id].steps)])
    ensures Inv(v) && Moves(w, v)
  {
    var j := w.db.jobs[id];
    var k := ReviewRow(j, action, jwt, exp, v.clock);
    assert RowOf(w, id) && PipelineOf(w, id);
    hide Slice; hide Inv; hide RowInv; hide PipelineRow; hide ReviewBusy;
    ReviewSameTask(j, action, jwt, exp, v.clock);
    ReviewPrior(j, action, jwt, exp, v.clock);
    hide SameTask; hide ReviewRow;
    assert NewDecisionsLayered(w, k, id, v.decisions);
    assert RollbackOf(v, id);
    hide *;
    TouchKeeps(w, v, id, k, {});
  }

  // ---------------------------------------------------------------- claiming

  lemma FailedRowIs(j: Job, error: string, now: int)
    requires RowInv(j) && PipelineRow(j)
    ensures var k := FailedRow(j, error, now);
      && RowInv(k) && PipelineRow(k) && k.rev == j.rev && k.files == j.files && k.owner == j.owner && k.overrides == j.overrides
      && k.syncedVersion == j.syncedVersion && k.overridesVersion == j.overridesVersion
      && k.taskKind == None && k.taskState == None && k.lease == None && k.leaseExpires == None && k.deadline == None
      && k.nextRev == None && k.prior == None
  {
    FailedKeeps(j, error, now);
    ResetAndFailKeepThePipeline(j.steps, false, error, now);
    hide ValidSteps; hide RowInv;
  }

  lemma SameOverlayGrows(j: Job, k: Job)
    requires OverlayRow(j) && k.overrides == j.overrides && k.syncedVersion == j.syncedVersion && k.overridesVersion == j.overridesVersion
    ensures OverlayGrows(j, k)
  {
  }

  lemma WaitingHasNoLease(j: Job)
    requires RowInv(j) && IsWaiting(j)
    ensures !IsClaimed(j) && j.lease == None && j.leaseExpires == None && j.deadline == None && j.nextRev == None
  {
    hide OverlayRow; hide StatusMatches; hide Token; hide Attempts;
  }

  lemma FailedSameTask(j: Job, error: string, now: int)
    requires RowInv(j) && PipelineRow(j) && IsWaiting(j)
    ensures SameTask(j, FailedRow(j, error, now), now)
  {
    assert OverlayRow(j);
    WaitingHasNoLease(j);
    FailedRowIs(j, error, now);
    hide RowInv; hide PipelineRow; hide OverlayRow; hide OverlayGrows; hide FailedRow; hide Holds;
    SameOverlayGrows(j, FailedRow(j, error, now));
  }

  lemma RetireKeeps(w: World, v: World, id: Id, error: string)
    requires Inv(w) && Slice(w, id) && id in w.db.jobs && IsWaiting(w.db.jobs[id]) && w.clock <= v.clock
    requires v == At(w, FailRow(w.db, id, error, v.clock).db, v.clock)
    ensures Inv(v) && Moves(w, v) && FailRow(w.db, id, error, v.clock).Done?
  {
    var j := w.db.jobs[id];
    var k := FailedRow(j, error, v.clock);
    assert RowOf(w, id) && PipelineOf(w, id);
    hide Slice; hide Inv; hide PipelineRow;
    assert RowInv(j);
    WaitingHasNoLease(j);
    hide RowInv;
    FailRowIs(w.db, id, error, v.clock);
    FailedSameTask(j, error, v.clock);
    FailedRowIs(j, error, v.clock);
    hide FailRow; hide FailedRow; hide SameTask;
    assert v == Touched(w, id, k, v.clock, w.decisions, w.rollback);
    assert RollbackOf(v, id) && NewDecisionsLayered(w, k, id, v.decisions);
    hide *;
    TouchKeeps(w, v, id, k, {});
  }

  lemma ClaimKeeps(w: World, v: World, id: Id, lease: Lease, highest: nat)
    requires Inv(w) && Slice(w, id) && id in w.db.jobs && IsWaiting(w.db.jobs[id]) && w.clock <= v.clock
    requires lease !in w.tickets && IsHighest(w.db, id, highest) && ClaimVerdict(w.db.jobs[id], v.clock) == Grant
    requires v == Granted(w, id, lease, highest, v.clock)
    ensures Inv(v) && Moves(w, v)
  {
    assert RowOf(w, id);
    assert KnownRevision(w.db, id, w.db.jobs[id].rev);
    ClaimedKeeps(w.db.jobs[id], lease, highest + 1, v.clock);
    assert AdmissionKept(v.db.jobs) by {
      hide Slice; hide RowInv;
      FewerProcesses(w.db.jobs, v.db.jobs);
    }
    hide *;
    GrantKeeps(w, v, id, lease, highest);
  }

  // ---------------------------------------------------------------- a claimed task ends or goes back

  /** A live claim's revision is staging, under that claim's lease. */
  lemma ClaimIsStaging(w: World, id: Id)
    requires RowOf(w, id) && RevisionsOf(w, id) && id in w.db.jobs && IsClaimed(w.db.jobs[id])
    ensures StagingHere(w.db, id) && w.db.jobs[id].lease.Some?
    ensures w.db.attempts[(id, w.db.jobs[id].nextRev.value)] == Attempt(w.db.jobs[id].lease.value, Staging)
    ensures w.db.jobs[id].lease.value in w.tickets
    ensures w.tickets[w.db.jobs[id].lease.value].id == id && w.tickets[w.db.jobs[id].lease.value].rev == w.db.jobs[id].nextRev.value
  {
    hide RowInv;
  }

  lemma LetGoRow(w: World, v: World, id: Id, k: Job, receipt: Option<CompleteRequest>)
    requires Inv(w) && Slice(w, id) && w.clock <= v.clock && id in w.db.jobs && IsClaimed(w.db.jobs[id])
    requires LetsGo(w.db.jobs[id], k) && w.db.jobs[id].lease.Some? && w.db.jobs[id].nextRev.Some?
    requires receipt.Some? ==>
               Held(w.db, id, w.db.jobs[id].lease.value, v.clock) && (id, w.db.jobs[id].lease.value) !in w.db.completions
    requires v == LetGo(w, id, k, v.clock, receipt) && RollbackOf(v, id)
    ensures Inv(v) && Moves(w, v)
  {
    assert AdmissionKept(v.db.jobs) by {
      hide Slice; hide RowInv; hide OverlayGrows; hide PipelineRow;
      FewerProcesses(w.db.jobs, v.db.jobs);
    }
    hide *;
    LetGoKeeps(w, v, id, k, receipt);
  }

  lemma FailedLetsGo(j: Job, error: string, now: int)
    requires RowInv(j) && PipelineRow(j)
    ensures LetsGo(j, FailedRow(j, error, now))
  {
    assert OverlayRow(j);
    FailedRowIs(j, error, now);
    hide RowInv; hide PipelineRow; hide OverlayRow; hide OverlayGrows; hide FailedRow;
    SameOverlayGrows(j, FailedRow(j, error, now));
  }

  /** Failing a claimed task. */
  lemma FailKeeps(w: World, v: World, id: Id, error: string)
    requires Inv(w) && Slice(w, id) && id in w.db.jobs && IsClaimed(w.db.jobs[id]) && w.clock <= v.clock
    requires v == At(w, FailRow(w.db, id, error, v.clock).db, v.clock)
    ensures Inv(v) && Moves(w, v) && FailRow(w.db, id, error, v.clock).Done?
  {
    var j := w.db.jobs[id];
    var k := FailedRow(j, error, v.clock);
    assert RowOf(w, id) && PipelineOf(w, id) && RevisionsOf(w, id);
    hide Slice; hide Inv; hide RowInv; hide PipelineRow; hide RevisionsOf;
    ClaimIsStaging(w, id);
    FailRowIs(w.db, id, error, v.clock);
    FailedLetsGo(j, error, v.clock);
    FailedRowIs(j, error, v.clock);
    hide FailRow; hide FailedRow; hide LetsGo;
    LetGoIs(w.db, id, k, v.clock, None);
    hide StagingHere; hide WithoutStaging; hide PutJob;
    assert v == LetGo(w, id, k, v.clock, None);
    assert RollbackOf(v, id);
    hide *;
    LetGoRow(w, v, id, k, None);
  }

  lemma RequeuedLetsGo(j: Job, now: int)
    requires RowInv(j) && PipelineRow(j) && IsClaimed(j) && j.attempt < ATTEMPTS && j.pending == None
    ensures LetsGo(j, RequeuedRow(j, now)) && RequeuedRow(j, now).prior == j.prior
  {
    assert OverlayRow(j);
    RequeuedKeeps(j, now);
    ResetAndFailKeepThePipeline(j.steps, IsKind(j, Review), "", 0);
    hide RowInv; hide ValidSteps; hide OverlayRow; hide OverlayGrows;
    SameOverlayGrows(j, RequeuedRow(j, now));
  }

  /** Requeueing a claimed task for its second try. */
  lemma RequeueKeeps(w: World, v: World, id: Id)
    requires Inv(w) && Slice(w, id) && id in w.db.jobs && IsClaimed(w.db.jobs[id]) && w.clock <= v.clock
    requires w.db.jobs[id].attempt < ATTEMPTS && w.db.jobs[id].pending == None
    requires v == At(w, Requeue(w.db, id, v.clock).db, v.clock)
    ensures Inv(v) && Moves(w, v) && Requeue(w.db, id, v.clock).Done?
  {
    var j := w.db.jobs[id];
    var k := RequeuedRow(j, v.clock);
    assert RowOf(w, id) && PipelineOf(w, id) && RevisionsOf(w, id) && RollbackOf(w, id);
    hide Slice; hide Inv; hide RowInv; hide PipelineRow; hide RevisionsOf;
    ClaimIsStaging(w, id);
    RequeueIs(w.db, id, v.clock);
    RequeuedLetsGo(j, v.clock);
    hide Requeue; hide RequeuedRow; hide LetsGo;
    LetGoIs(w.db, id, k, v.clock, None);
    hide StagingHere; hide WithoutStaging; hide PutJob;
    assert v == LetGo(w, id, k, v.clock, None);
    assert RollbackOf(v, id);
    hide *;
    LetGoRow(w, v, id, k, None);
  }

  /** Giving a re-render up. */
  lemma StopKeeps(w: World, v: World, id: Id)
    requires Inv(w) && Slice(w, id) && id in w.db.jobs && IsClaimed(w.db.jobs[id]) && w.clock <= v.clock
    requires IsKind(w.db.jobs[id], Sync)
    requires v == At(w, StopSync(w.db, id, v.clock).db, v.clock)
    ensures Inv(v) && Moves(w, v) && StopSync(w.db, id, v.clock).Done?
  {
    var j := w.db.jobs[id];
    var k := StoppedRow(j, v.clock);
    assert RowOf(w, id) && PipelineOf(w, id) && RevisionsOf(w, id) && RollbackOf(w, id);
    ClaimIsStaging(w, id);
    StopSyncIs(w.db, id, v.clock);
    LetGoIs(w.db, id, k, v.clock, None);
    assert v == LetGo(w, id, k, v.clock, None) && v.db.jobs[id] == k && v.rollback == w.rollback;
    StopLetsGo(j, v.clock);
    assert RollbackOf(v, id) by {
      hide Slice; hide Inv; hide LetsGo; hide LetGo; hide At; hide StopSync;
      StoppedPrior(j, v.clock);
    }
    hide *;
    LetGoRow(w, v, id, k, None);
  }

  lemma StopLetsGo(j: Job, now: int)
    requires RowInv(j) && PipelineRow(j) && IsClaimed(j) && IsKind(j, Sync)
    ensures LetsGo(j, StoppedRow(j, now))
  {
    StoppedKeeps(j, now);
    hide ValidSteps;
    assert StoppedRow(j, now).overrides == j.overrides;
  }

  lemma StoppedPrior(j: Job, now: int)
    ensures StoppedRow(j, now).prior == None || StoppedRow(j, now).prior == j.prior
  {
    hide Dirty;
  }

  lemma RetryKeeps(w: World, v: World, id: Id)
    requires Inv(w) && Slice(w, id) && id in w.db.jobs && IsClaimed(w.db.jobs[id]) && w.clock <= v.clock
    requires IsKind(w.db.jobs[id], Sync)
    requires v == At(w, RetrySync(w.db, id, v.clock).db, v.clock)
    ensures Inv(v) && Moves(w, v) && RetrySync(w.db, id, v.clock).Done?
  {
    hide Slice; hide Inv; hide Requeue; hide StopSync; hide At;
    if w.db.jobs[id].pending.Some? || w.db.jobs[id].attempt >= ATTEMPTS {
      StopKeeps(w, v, id);
    } else {
      RequeueKeeps(w, v, id);
    }
  }

  lemma SweepKeeps(w: World, v: World, id: Id)
    requires Inv(w) && Slice(w, id) && w.clock <= v.clock
    requires v == At(w, SweepRow(w.db, id, v.clock).db, v.clock)
    ensures Inv(v) && Moves(w, v) && SweepRow(w.db, id, v.clock).Done?
  {
    if id in w.db.jobs && IsClaimed(w.db.jobs[id]) {
      var j := w.db.jobs[id];
      assert RowOf(w, id);
      assert !IsKind(j, Sync) ==> j.pending == None;
      hide Slice; hide Inv; hide Requeue; hide StopSync; hide RetrySync; hide FailRow; hide RowOf;
      if j.deadline.GetOr(0) <= v.clock {
        if j.taskKind == Some(Sync) {
          StopKeeps(w, v, id);
        } else {
          FailKeeps(w, v, id, DEADLINE);
        }
      } else if j.leaseExpires.GetOr(0) <= v.clock {
        if j.taskKind == Some(Sync) {
          RetryKeeps(w, v, id);
        } else if j.attempt < ATTEMPTS {
          RequeueKeeps(w, v, id);
        } else {
          FailKeeps(w, v, id, INTERRUPTED);
        }
      } else {
        UnchangedKeeps(w, v);
      }
    } else {
      hide Slice; hide Inv;
      UnchangedKeeps(w, v);
    }
  }

  lemma FailByKeeps(w: World, v: World, id: Id, lease: Lease, error: string)
    requires Inv(w) && Slice(w, id) && w.clock <= v.clock
    requires v == At(w, FailTask(w.db, id, lease, error, v.clock).db, v.clock)
    ensures Inv(v) && Moves(w, v) && FailTask(w.db, id, lease, error, v.clock).Answer?
  {
    hide Slice; hide Inv; hide RetrySync; hide FailRow;
    if Held(w.db, id, lease, v.clock) {
      if w.db.jobs[id].taskKind == Some(Sync) {
        RetryKeeps(w, v, id);
      } else {
        FailKeeps(w, v, id, error);
      }
    } else {
      UnchangedKeeps(w, v);
    }
  }

  // ---------------------------------------------------------------- renewing and reporting

  function RenewedRow(j: Job, steps: seq<Step>, now: int): Job {
    j.(steps := steps, leaseExpires := Some(now + LEASE_MS), updatedAt := now)
  }

  /** In time, or late where that is safe. */
  ghost predicate MayRenew(w: World, id: Id, lease: Lease, now: int) {
    w.clock <= now || LateIsSafe(w, id, lease, now)
  }

  lemma RenewedSameTask(w: World, id: Id, lease: Lease, steps: seq<Step>, now: int)
    requires Held(w.db, id, lease, now) && RowOf(w, id) && PipelineOf(w, id) && ValidSteps(steps) && MayRenew(w, id, lease, now)
    ensures var k := RenewedRow(w.db.jobs[id], steps, now);
      var late := LateOf(w, id, lease, now);
      && SameTask(w.db.jobs[id], k, Later(w.clock, now), late)
      && (late == {} || KeepsLapsed(w, id, k, Later(w.clock, now)))
  {
    var j := w.db.jobs[id];
    var k := RenewedRow(j, steps, now);
    RenewedKeeps(j, steps, now + LEASE_MS, now);
    hide ValidSteps; hide RowInv;
    assert k.overrides == j.overrides;
  }

  lemma RenewKeeps(w: World, v: World, id: Id, lease: Lease, steps: seq<Step>, now: int)
    requires Inv(w) && Slice(w, id) && Held(w.db, id, lease, now) && ValidSteps(steps) && MayRenew(w, id, lease, now)
    requires v == At(w, PutJob(w.db, id, RenewedRow(w.db.jobs[id], steps, now)), Later(w.clock, now))
    ensures Inv(v) && Moves(w, v, LateOf(w, id, lease, now))
  {
    var k := RenewedRow(w.db.jobs[id], steps, now);
    assert v == Touched(w, id, k, v.clock, w.decisions, w.rollback);
    assert RowOf(w, id) && PipelineOf(w, id) && RollbackOf(w, id);
    hide Slice; hide Inv;
    RenewedSameTask(w, id, lease, steps, now);
    hide ValidSteps; hide RowInv; hide SameTask; hide KeepsLapsed; hide MayRenew;
    assert NewDecisionsLayered(w, k, id, v.decisions);
    assert RollbackOf(v, id);
    assert w.clock <= v.clock == Later(w.clock, now) && id in w.db.jobs;
    hide *;
    TouchKeeps(w, v, id, k, LateOf(w, id, lease, now));
  }

  /** A call whose lease is not held changes nothing but the clock. */
  lemma UnheldKeeps(w: World, v: World, id: Id, lease: Lease, now: int)
    requires Inv(w) && !Held(w.db, id, lease, now) && v == At(w, w.db, Later(w.clock, now))
    ensures Inv(v) && Moves(w, v, LateOf(w, id, lease, now))
  {
    hide Inv; hide Held; hide Moves;
    UnchangedKeeps(w, v);
  }

  lemma MovesLate(w: World, v: World, late: set<Lease>)
    requires Moves(w, v)
    ensures Moves(w, v, late)
  {
  }

  /** A report that is applied renews the row with a valid step list; any other leaves it. */
  lemma ProgressIs(db: Db, id: Id, lease: Lease, event: ProgressEvent, now: int) returns (steps: seq<Step>)
    requires Held(db, id, lease, now) && RowInv(db.jobs[id]) && PipelineRow(db.jobs[id])
    ensures ValidSteps(steps) && Progress(db, id, lease, event, now).Answer?
    ensures var after := Progress(db, id, lease, event, now).db;
      after == db || after == PutJob(db, id, RenewedRow(db.jobs[id], steps, now))
  {
    var row := db.jobs[id];
    assert TaskColumns(row);
    hide RowInv;
    steps := row.steps;
    if row.taskKind != Some(Sync) && ApplyStepProgress(row.steps, event, now).Ok? {
      ProgressIsMonotone(row.steps, event, now);
      steps := ApplyStepProgress(row.steps, event, now).value;
    }
    hide ApplyStepProgress; hide ValidSteps;
  }

  lemma ProgressKeeps(w: World, v: World, id: Id, lease: Lease, event: ProgressEvent, now: int)
    requires Inv(w) && Slice(w, id) && MayRenew(w, id, lease, now)
    requires v == At(w, Progress(w.db, id, lease, event, now).db, Later(w.clock, now))
    ensures Inv(v) && Moves(w, v, LateOf(w, id, lease, now)) && Progress(w.db, id, lease, event, now).Answer?
  {
    assert RowOf(w, id) && PipelineOf(w, id);
    hide Slice; hide Inv; hide Moves; hide MayRenew; hide LateOf; hide RowInv; hide PipelineRow; hide ValidSteps; hide At;
    if Held(w.db, id, lease, now) {
      var steps := ProgressIs(w.db, id, lease, event, now);
      hide Progress; hide RenewedRow;
      if Progress(w.db, id, lease, event, now).db == w.db {
        LaterTimePasses(w, v, now);
        MovesLate(w, v, LateOf(w, id, lease, now));
      } else {
        RenewKeeps(w, v, id, lease, steps, now);
      }
    } else {
      hide RowOf; hide PipelineOf;
      UnheldKeeps(w, v, id, lease, now);
    }
  }

  lemma LaterTimePasses(w: World, v: World, now: int)
    requires Inv(w) && v == At(w, w.db, Later(w.clock, now))
    ensures Inv(v) && Moves(w, v)
  {
    hide Inv; hide Moves;
    UnchangedKeeps(w, v);
  }

  lemma RenewByKeeps(w: World, v: World, id: Id, lease: Lease, now: int)
    requires Inv(w) && Slice(w, id) && MayRenew(w, id, lease, now)
    requires v == At(w, RenewLease(w.db, id, lease, now), Later(w.clock, now))
    ensures Inv(v) && Moves(w, v, LateOf(w, id, lease, now))
  {
    hide Inv; hide Moves; hide MayRenew;
    if Held(w.db, id, lease, now) {
      assert PipelineOf(w, id);
      hide Slice; hide At; hide ValidSteps; hide LateOf;
      RenewKeeps(w, v, id, lease, w.db.jobs[id].steps, now);
    } else {
      hide Slice;
      UnheldKeeps(w, v, id, lease, now);
    }
  }

  // ---------------------------------------------------------------- artifact uploads

  /** A held lease's row names the revision on the lease's ticket. */
  lemma HeldTicket(w: World, id: Id, lease: Lease, now: int)
    requires Slice(w, id) && Held(w.db, id, lease, now)
    ensures lease in w.tickets && w.tickets[lease].id == id
    ensures w.db.jobs[id].nextRev == Some(w.tickets[lease].rev) && NextRevision(w.db.jobs[id]) == w.tickets[lease].rev
    ensures StagingHere(w.db, id)
  {
    assert RowOf(w, id) && RevisionsOf(w, id);
    hide Slice;
    ClaimIsStaging(w, id);
  }

  /** Requests come and go, the store may gain what was absent; nothing a job relies on changes. */
  ghost predicate PuttingChanged(w: World, v: World, token: string, id: Id) {
    && w.clock <= v.clock && v.db.jobs == w.db.jobs && v.db.completions == w.db.completions
    && v.db.attempts == w.db.attempts && v.db.uploads == w.db.uploads && v.db.cleanup == w.db.cleanup
    && v == w.(db := v.db, clock := v.clock, putting := v.putting)
    && (token in w.putting ==> w.putting[token].id == id)
    && (token in v.putting ==> v.putting[token].id == id)
    && (forall t | t != token :: SameAt(w.putting, v.putting, t) && SameAt(w.db.writes, v.db.writes, OfArtifact(t)))
    && (forall other :: SameAt(w.db.writes, v.db.writes, OfUpload(other)))
    && (OfArtifact(token) in v.db.writes <==> token in v.putting && v.putting[token].begun)
    && (token in v.putting ==>
          var p := v.putting[token];
          && p.lease in w.tickets && w.tickets[p.lease].id == id && w.tickets[p.lease].rev == p.rev
          && (p.begun ==> v.db.writes[OfArtifact(token)] == RevPrefix(id, p.rev)))
  }

  lemma PuttingOthers(w: World, v: World, token: string, id: Id)
    requires PuttingChanged(w, v, token, id)
    ensures forall other | other != id :: SameSlice(w, v, other)
  {
    forall other | other != id ensures SameSlice(w, v, other) {
      assert SameAt(w.db.writes, v.db.writes, OfUpload(other));
      forall t | t in v.putting && v.putting[t].id == other
        ensures t in w.putting && w.putting[t] == v.putting[t] && SameAt(w.db.writes, v.db.writes, OfArtifact(t))
      {
        assert SameAt(w.putting, v.putting, t);
      }
      assert SameRequests(w, v, other);
    }
  }

  lemma PuttingWrites(w: World, v: World, token: string, id: Id)
    requires PuttingChanged(w, v, token, id) && WritesOf(w, id)
    ensures WritesOf(v, id)
  {
    assert SameAt(w.db.writes, v.db.writes, OfUpload(id));
    forall t | t in v.putting && t != token
      ensures t in w.putting && w.putting[t] == v.putting[t] && SameAt(w.db.writes, v.db.writes, OfArtifact(t))
    {
      assert SameAt(w.putting, v.putting, t);
    }
  }

  lemma PuttingSlice(w: World, v: World, token: string, id: Id)
    requires PuttingChanged(w, v, token, id) && Slice(w, id)
    ensures Slice(v, id)
  {
    hide RowInv; hide PipelineRow; hide ValidSteps; hide Intact;
    PuttingWrites(w, v, token, id);
    SameTablesSlices(w, v, id);
    hide RevisionsOf; hide DecisionsOf; hide WritesOf;
    assert RowOf(v, id) && PipelineOf(v, id) && ReceiptsOf(v, id) && CondemnedOf(v, id);
    assert UploadOf(v, id) && StoreOf(v, id) && RollbackOf(v, id);
    assert CompletingOf(v, id);
  }

  lemma PuttingKeeps(w: World, v: World, token: string, id: Id)
    requires Inv(w) && Slice(w, id) && PuttingChanged(w, v, token, id)
    ensures Inv(v) && Moves(w, v)
  {
    assert CleaningKept(v) by {
      hide Slice; hide AdmissionKept;
    }
    assert v.db.jobs == w.db.jobs;
    hide Slice; hide SameSlice; hide CleaningKept; hide AdmissionKept; hide PuttingChanged;
    PuttingOthers(w, v, token, id);
    PuttingSlice(w, v, token, id);
    OnlyOneChanged(w, v, id);
  }

  lemma NotYetWriting(w: World, token: string)
    requires CleaningKept(w) && token !in w.putting
    ensures OfArtifact(token) !in w.db.writes
  {
  }

  lemma RegisteredCheck(w: World, u: World, token: string, id: Id, lease: Lease, name: string, bytes: Bytes, now: int)
    requires Held(w.db, id, lease, now) && token !in w.putting && OfArtifact(token) !in w.db.writes
    requires lease in w.tickets && w.tickets[lease].id == id && NextRevision(w.db.jobs[id]) == w.tickets[lease].rev
    requires u == At(w, RenewLease(w.db, id, lease, now), Later(w.clock, now))
    ensures PuttingChanged(u, PutCheckStep(w, token, id, lease, name, bytes, now), token, id)
  {
    hide NextRevision; hide Held;
  }

  /** Registering the request moves nothing that `Moves` looks at. */
  lemma RegisteredMoves(w: World, u: World, v: World, late: set<Lease>)
    requires Moves(w, u, late) && v == u.(putting := v.putting)
    ensures Moves(w, v, late)
  {
  }

  lemma PutCheckKeeps(w: World, v: World, token: string, id: Id, lease: Lease, name: string, bytes: Bytes, now: int)
    requires Inv(w) && Slice(w, id) && MayRenew(w, id, lease, now) && token !in w.putting
    requires v == PutCheckStep(w, token, id, lease, name, bytes, now)
    ensures Inv(v) && Moves(w, v, LateOf(w, id, lease, now))
  {
    InvParts(w);
    hide Moves; hide Inv; hide Slice; hide CleaningKept; hide AdmissionKept; hide RenewLease; hide NextRevision; hide PuttingChanged;
    hide MayRenew; hide LateOf; hide At; hide Held;
    if Held(w.db, id, lease, now) {
      var u := At(w, RenewLease(w.db, id, lease, now), Later(w.clock, now));
      HeldTicket(w, id, lease, now);
      NotYetWriting(w, token);
      RenewByKeeps(w, u, id, lease, now);
      RegisteredCheck(w, u, token, id, lease, name, bytes, now);
      SliceOf(u, id);
      PuttingKeeps(u, v, token, id);
      RegisteredMoves(w, u, v, LateOf(w, id, lease, now));
    } else {
      UnheldKeeps(w, v, id, lease, now);
    }
  }

  lemma SliceOf(w: World, id: Id)
    requires Inv(w)
    ensures Slice(w, id)
  {
    hide Slice; hide CleaningKept; hide AdmissionKept;
  }

  lemma PutBeginChanges(w: World, v: World, token: string)
    requires w.clock <= v.clock && token in w.putting && !w.putting[token].begun && OfArtifact(token) !in w.db.writes
    requires w.db.cleanup.Keys <= w.condemned
    requires var p := w.putting[token];
      && p.lease in w.tickets && w.tickets[p.lease].id == p.id && w.tickets[p.lease].rev == p.rev
      && (Held(w.db, p.id, p.lease, v.clock) ==>
            StagingHere(w.db, p.id) && w.db.jobs[p.id].nextRev == Some(p.rev))
    requires v == PutBeginStep(w, token, v.clock)
    ensures PuttingChanged(w, v, token, w.putting[token].id)
    ensures var p := w.putting[token]; BeginArtifactUpload(w.db, p.id, p.lease, token, v.clock).Answer?
  {
    assert v.condemned == w.condemned;
  }

  lemma PutBeginKeeps(w: World, v: World, token: string)
    requires Inv(w) && w.clock <= v.clock && token in w.putting && !w.putting[token].begun
    requires Slice(w, w.putting[token].id)
    requires v == PutBeginStep(w, token, v.clock)
    ensures Inv(v) && Moves(w, v)
    ensures var p := w.putting[token]; BeginArtifactUpload(w.db, p.id, p.lease, token, v.clock).Answer?
  {
    var p := w.putting[token];
    assert WritesOf(w, p.id);
    InvParts(w);
    if Held(w.db, p.id, p.lease, v.clock) {
      HeldTicket(w, p.id, p.lease, v.clock);
    }
    hide Slice; hide Inv; hide PutBeginStep; hide PuttingChanged; hide BeginArtifactUpload; hide AdmissionKept;
    PutBeginChanges(w, v, token);
    PuttingKeeps(w, v, token, p.id);
  }

  lemma PutStoreOthers(w: World, v: World, token: string)
    requires token in w.putting
    requires var p := w.putting[token]; v == w.(store := PutIfAbsent(w.store, FileKey(p.id, p.rev, p.name), p.bytes))
    ensures forall other | other != w.putting[token].id :: SameSlice(w, v, other)
    ensures forall id, rev: nat, seen :: Intact(w.store, id, rev, seen) ==> Intact(v.store, id, rev, seen)
  {
  }

  lemma PutStoreSlice(w: World, v: World, token: string, id: Id)
    requires token in w.putting && w.putting[token].id == id && Slice(w, id)
    requires var p := w.putting[token]; v == w.(store := PutIfAbsent(w.store, FileKey(p.id, p.rev, p.name), p.bytes))
    requires forall rev: nat, seen :: Intact(w.store, id, rev, seen) ==> Intact(v.store, id, rev, seen)
    ensures Slice(v, id)
  {
    hide RowInv; hide PipelineRow; hide ValidSteps; hide Intact;
    assert RevisionsOf(v, id) && DecisionsOf(v, id) by {
      assert RevisionsOf(w, id) && DecisionsOf(w, id);
      hide Slice;
      forall rev: nat | (id, rev) in v.db.attempts ensures RevisionAccounted(v, id, rev) {
        assert RevisionAccounted(w, id, rev);
      }
      forall d | Rendered(w, d) ensures Rendered(v, d) {
        var rev: nat :| RenderedAt(w, d, rev);
        assert RenderedAt(v, d, rev);
      }
    }
    hide RevisionsOf; hide DecisionsOf;
    assert StoreOf(v, id) && CompletingOf(v, id);
  }

  lemma PutStoreKeeps(w: World, v: World, token: string)
    requires Inv(w) && token in w.putting && Slice(w, w.putting[token].id)
    requires var p := w.putting[token]; v == w.(store := PutIfAbsent(w.store, FileKey(p.id, p.rev, p.name), p.bytes))
    ensures Inv(v) && Moves(w, v)
  {
    var id := w.putting[token].id;
    hide Slice; hide AdmissionKept; hide SameSlice; hide PutIfAbsent; hide Intact;
    assert CleaningKept(v);
    hide CleaningKept;
    PutStoreOthers(w, v, token);
    PutStoreSlice(w, v, token, id);
    OnlyOneChanged(w, v, id);
  }

  /** A write that ends after its lease, with no receipt, leaves files nobody will publish. */
  lemma EndedWriteIsDeletable(w: World, token: string, now: int)
    requires token in w.putting && w.clock <= now
    requires var p := w.putting[token];
      && Slice(w, p.id) && !Held(w.db, p.id, p.lease, now) && (p.id, p.lease) !in w.db.completions
    ensures var p := w.putting[token];
      && p.id in w.reserved
      && (p.id in w.db.jobs ==>
            && (p.id, p.rev) in w.db.attempts && p.rev != w.db.jobs[p.id].rev
            && (w.db.attempts[(p.id, p.rev)].state == Staging ==> Lapsed(w.db.jobs[p.id], now)))
      && p.id !in w.db.uploads
  {
    var p := w.putting[token];
    assert WritesOf(w, p.id) && RevisionsOf(w, p.id) && UploadOf(w, p.id) && RowOf(w, p.id);
    hide Slice;
    if p.id in w.db.jobs {
      assert TaskColumns(w.db.jobs[p.id]);
      hide RowInv;
      assert RevisionAccounted(w, p.id, p.rev);
    }
  }

  function Released(w: World, token: string, now: int): World {
    w.(db := w.db.(writes := w.db.writes - {OfArtifact(token)}), clock := now, putting := w.putting - {token})
  }

  lemma PutEndIs(w: World, v: World, token: string)
    requires token in w.putting && w.db.cleanup.Keys <= w.condemned && OfArtifact(token) in w.db.writes
    requires var p := w.putting[token];
      && w.db.writes[OfArtifact(token)] == RevPrefix(p.id, p.rev)
      && v == At(w, EndArtifactUpload(w.db, p.id, p.lease, token, v.clock), v.clock).(putting := w.putting - {token})
    ensures var p := w.putting[token];
      var u := Released(w, token, v.clock);
      if Held(w.db, p.id, p.lease, v.clock) || (p.id, p.lease) in w.db.completions then v == u
      else v == At(u, RequestCleanup(u.db, RevPrefix(p.id, p.rev), v.clock), v.clock)
  {
    var u := Released(w, token, v.clock);
    assert u.condemned == w.condemned && u.db.cleanup == w.db.cleanup;
    assert w.condemned + u.db.cleanup.Keys == w.condemned;
  }

  lemma PutEndReady(w: World, token: string)
    requires token in w.putting && w.putting[token].begun && Slice(w, w.putting[token].id)
    ensures var p := w.putting[token];
      OfArtifact(token) in w.db.writes && w.db.writes[OfArtifact(token)] == RevPrefix(p.id, p.rev)
  {
    assert WritesOf(w, w.putting[token].id);
    hide Slice;
  }

  lemma PutEndMoves(w: World, v: World, token: string)
    requires w.clock <= v.clock && token in w.putting
    requires var p := w.putting[token];
      v == At(w, EndArtifactUpload(w.db, p.id, p.lease, token, v.clock), v.clock).(putting := w.putting - {token})
    ensures Moves(w, v)
  {
    hide Moves;
    StandStill(w, v);
  }

  lemma ReleasedChanged(w: World, token: string, now: int)
    requires w.clock <= now && token in w.putting
    ensures PuttingChanged(w, Released(w, token, now), token, w.putting[token].id)
  {
  }

  lemma PutEndKeeps(w: World, v: World, token: string)
    requires Inv(w) && w.clock <= v.clock && token in w.putting && w.putting[token].begun
    requires Slice(w, w.putting[token].id)
    requires var p := w.putting[token];
      v == At(w, EndArtifactUpload(w.db, p.id, p.lease, token, v.clock), v.clock).(putting := w.putting - {token})
    ensures Inv(v) && Moves(w, v)
  {
    var p := w.putting[token];
    var u := Released(w, token, v.clock);
    assert w.db.cleanup.Keys <= w.condemned by {
      InvParts(w);
    }
    hide Slice; hide Inv; hide AdmissionKept; hide Moves; hide CleaningKept; hide At; hide EndArtifactUpload;
    hide RequestCleanup; hide PuttingChanged; hide Held; hide Lapsed;
    PutEndMoves(w, v, token);
    PutEndReady(w, token);
    PutEndIs(w, v, token);
    ReleasedChanged(w, token, v.clock);
    PuttingKeeps(w, u, token, p.id);
    if !Held(w.db, p.id, p.lease, v.clock) && (p.id, p.lease) !in w.db.completions {
      EndedWriteIsDeletable(w, token, v.clock);
      SliceOf(u, p.id);
      CondemnKeeps(u, v, p.id, p.rev);
    }
  }

  lemma CondemnKeeps(w: World, v: World, id: Id, rev: nat)
    requires Inv(w) && Slice(w, id) && id in w.reserved && id !in w.db.uploads
    requires id in w.db.jobs ==>
               && (id, rev) in w.db.attempts && rev != w.db.jobs[id].rev
               && (w.db.attempts[(id, rev)].state == Staging ==> Lapsed(w.db.jobs[id], w.clock))
    requires v == At(w, RequestCleanup(w.db, RevPrefix(id, rev), w.clock), w.clock)
    ensures Inv(v) && Moves(w, v)
  {
    InvParts(w);
    hide Slice; hide Inv; hide AdmissionKept; hide At; hide RequestCleanup; hide CleaningKept; hide SameSlice;
    CondemnIs(w, v, id, rev);
    CondemnSlice(w, v, id, rev);
    OnlyOneChanged(w, v, id);
  }

  lemma CondemnIs(w: World, v: World, id: Id, rev: nat)
    requires CleaningKept(w) && v == At(w, RequestCleanup(w.db, RevPrefix(id, rev), w.clock), w.clock)
    ensures v == w.(db := v.db, condemned := w.condemned + {RevPrefix(id, rev)}) && v.db == w.db.(cleanup := v.db.cleanup)
    ensures CleaningKept(v) && forall other | other != id :: SameSlice(w, v, other)
  {
    assert v.condemned == w.condemned + {RevPrefix(id, rev)};
    forall other | other != id ensures SameSlice(w, v, other) {
      assert SameHistory(w, v, other);
    }
  }

  lemma CondemnSlice(w: World, v: World, id: Id, rev: nat)
    requires Slice(w, id) && id in w.reserved && id !in w.db.uploads
    requires id in w.db.jobs ==>
               && (id, rev) in w.db.attempts && rev != w.db.jobs[id].rev
               && (w.db.attempts[(id, rev)].state == Staging ==> Lapsed(w.db.jobs[id], w.clock))
    requires v == w.(db := v.db, condemned := w.condemned + {RevPrefix(id, rev)}) && v.db == w.db.(cleanup := v.db.cleanup)
    ensures Slice(v, id)
  {
    hide RowInv; hide PipelineRow; hide ValidSteps; hide Intact;
    assert RevisionsOf(v, id) && DecisionsOf(v, id) && CondemnedOf(v, id) by {
      assert RevisionsOf(w, id) && DecisionsOf(w, id) && CondemnedOf(w, id);
      hide Slice;
      forall r: nat | (id, r) in v.db.attempts ensures RevisionAccounted(v, id, r) {
        assert RevisionAccounted(w, id, r);
      }
      forall d | Rendered(w, d) ensures Rendered(v, d) {
        var r: nat :| RenderedAt(w, d, r);
        assert RenderedAt(v, d, r);
      }
    }
    hide RevisionsOf; hide DecisionsOf; hide CondemnedOf;
  }

  // ---------------------------------------------------------------- completion

  lemma CompletingKeepsInv(w: World, v: World, req: string, c: Completing)
    requires Inv(w) && Slice(w, c.id) && w.clock <= v.clock
    requires v == At(w, w.db, v.clock).(completing := w.completing[req := c])
    requires c.result.Finished? && Terminal(c.result.job.status) && ValidSteps(c.result.job.steps) && c.now <= v.clock
    requires AsReported(c.files, c.result)
    requires c.lease in w.tickets && w.tickets[c.lease].id == c.id && w.tickets[c.lease].rev == c.rev
    requires c.result.overridesVersion == w.tickets[c.lease].version
    requires req in w.completing ==> w.completing[req].id == c.id
    requires JobPrefix(c.id) !in w.condemned && RevPrefix(c.id, c.rev) !in w.condemned ==> Intact(w.store, c.id, c.rev, c.seen)
    ensures Inv(v)
  {
    hide *;
    var u := WithoutRequest(w, v.clock, req);
    UnchangedKeeps(w, u);
    RequestPutBack(w, u, v, req, c);
    AddRequest(u, v, req, c);
  }

  ghost function WithoutRequest(w: World, now: int, req: string): (u: World)
    ensures u == At(w, w.db, now).(completing := u.completing, transfers := u.transfers) && u.clock == now
    ensures u.transfers <= w.transfers && forall r | r in u.completing :: r in w.completing && u.completing[r] == w.completing[r]
  {
    At(w, w.db, now).(completing := w.completing - {req})
  }

  lemma RequestPutBack(w: World, u: World, v: World, req: string, c: Completing)
    requires Inv(w) && u == WithoutRequest(w, v.clock, req)
    requires v == At(w, w.db, v.clock).(completing := w.completing[req := c])
    ensures v == u.(completing := u.completing[req := c]) && req !in u.completing
    ensures u.tickets == w.tickets && u.condemned == w.condemned && u.store == w.store && u.clock == v.clock
  {
    InvParts(w);
    CondemnedAll(w);
    hide Inv;
    assert (w.completing - {req})[req := c] == w.completing[req := c];
    assert w.condemned + w.db.cleanup.Keys == w.condemned;
  }

  lemma AddRequest(w: World, v: World, req: string, c: Completing)
    requires Inv(w) && req !in w.completing && v == w.(completing := w.completing[req := c])
    requires c.result.Finished? && Terminal(c.result.job.status) && ValidSteps(c.result.job.steps) && c.now <= v.clock
    requires AsReported(c.files, c.result)
    requires c.lease in w.tickets && w.tickets[c.lease].id == c.id && w.tickets[c.lease].rev == c.rev
    requires c.result.overridesVersion == w.tickets[c.lease].version
    requires JobPrefix(c.id) !in w.condemned && RevPrefix(c.id, c.rev) !in w.condemned ==> Intact(w.store, c.id, c.rev, c.seen)
    ensures Inv(v)
  {
    InvParts(w);
    SliceOf(w, c.id);
    hide Inv; hide Slice; hide ValidSteps; hide Intact; hide AdmissionKept;
    assert CleaningKept(v);
    hide CleaningKept; hide SameSlice;
    CompletingSlice(w, v, req, c);
    CompletingOthers(w, v, req, c);
    OnlyOneChanged(w, v, c.id);
  }

  lemma CompletingKeeps(w: World, v: World, req: string, c: Completing)
    requires Inv(w) && Slice(w, c.id) && w.clock <= v.clock
    requires v == At(w, w.db, v.clock).(completing := w.completing[req := c])
    requires c.result.Finished? && Terminal(c.result.job.status) && ValidSteps(c.result.job.steps) && c.now <= v.clock
    requires AsReported(c.files, c.result)
    requires c.lease in w.tickets && w.tickets[c.lease].id == c.id && w.tickets[c.lease].rev == c.rev
    requires c.result.overridesVersion == w.tickets[c.lease].version
    requires req in w.completing ==> w.completing[req].id == c.id
    requires JobPrefix(c.id) !in w.condemned && RevPrefix(c.id, c.rev) !in w.condemned ==> Intact(w.store, c.id, c.rev, c.seen)
    ensures Inv(v) && Moves(w, v)
  {
    InvParts(w);
    hide Inv; hide Slice; hide ValidSteps; hide Intact; hide AdmissionKept; hide CleaningKept; hide Moves;
    StandStill(w, v);
    CompletingKeepsInv(w, v, req, c);
  }

  lemma CompletingOthers(w: World, v: World, req: string, c: Completing)
    requires req !in w.completing && v == w.(completing := w.completing[req := c])
    ensures forall other | other != c.id :: SameSlice(w, v, other)
  {
  }

  lemma InvParts(w: World)
    requires Inv(w)
    ensures CleaningKept(w) && AdmissionKept(w.db.jobs)
  {
    hide Slice; hide CleaningKept; hide AdmissionKept;
  }

  lemma CompletingSlice(w: World, v: World, req: string, c: Completing)
    requires Slice(w, c.id) && req !in w.completing && v == w.(completing := w.completing[req := c])
    requires c.result.Finished? && Terminal(c.result.job.status) && ValidSteps(c.result.job.steps) && c.now <= w.clock
    requires AsReported(c.files, c.result)
    requires c.lease in w.tickets && w.tickets[c.lease].id == c.id && w.tickets[c.lease].rev == c.rev
    requires c.result.overridesVersion == w.tickets[c.lease].version
    requires JobPrefix(c.id) !in w.condemned && RevPrefix(c.id, c.rev) !in w.condemned ==> Intact(w.store, c.id, c.rev, c.seen)
    ensures Slice(v, c.id)
  {
    hide RowInv; hide PipelineRow; hide ValidSteps; hide Intact;
    var id := c.id;
    assert RevisionsOf(v, id) && DecisionsOf(v, id) by {
      assert RevisionsOf(w, id) && DecisionsOf(w, id);
      hide Slice;
      forall r: nat | (id, r) in v.db.attempts ensures RevisionAccounted(v, id, r) {
        assert RevisionAccounted(w, id, r);
      }
      forall d | Rendered(w, d) ensures Rendered(v, d) {
        var r: nat :| RenderedAt(w, d, r);
        assert RenderedAt(v, d, r);
      }
    }
    hide RevisionsOf; hide DecisionsOf;
    assert CompletingOf(v, id);
  }

  lemma RefusedLetsGo(j: Job, reason: string, now: int)
    requires RowInv(j) && PipelineRow(j) && IsKind(j, Review) && IsClaimed(j) && j.prior.Some?
    ensures LetsGo(j, RefusedRow(j, reason, now)) && RefusedRow(j, reason, now).prior == None
  {
    assert OverlayRow(j) && j.pending == None;
    RefusedKeeps(j, reason, now);
    hide ValidSteps; hide RowInv; hide OverlayGrows; hide OverlayRow;
    SameOverlayGrows(j, RefusedRow(j, reason, now));
  }

  lemma RefusalWithoutPrior(db: Db, id: Id, lease: Lease, result: CompleteRequest, now: int)
    requires id in db.jobs && result.Refused? && db.jobs[id].prior.Some? && !OutputReady(db.jobs[id].prior.value.status)
    ensures var call := RefuseReview(db, id, lease, result, now); call.Answer? && call.db == db
  {
  }

  lemma RefuseKeeps(w: World, v: World, id: Id, lease: Lease, result: CompleteRequest)
    requires Inv(w) && Slice(w, id) && Held(w.db, id, lease, v.clock) && w.clock <= v.clock && result.Refused?
    requires IsKind(w.db.jobs[id], Review) && (id, lease) !in w.db.completions
    requires v == At(w, RefuseReview(w.db, id, lease, result, v.clock).db, v.clock)
    ensures Inv(v) && Moves(w, v) && RefuseReview(w.db, id, lease, result, v.clock).Answer?
  {
    var j := w.db.jobs[id];
    assert RowOf(w, id) && PipelineOf(w, id) && RevisionsOf(w, id);
    hide Inv; hide Slice; hide RevisionsOf; hide PipelineRow;
    assert j.prior.Some? && IsClaimed(j) && j.lease == Some(lease);
    hide RowInv; hide RefuseReview; hide Moves; hide OutputReady;
    if !OutputReady(j.prior.value.status) {
      RefusalWithoutPrior(w.db, id, lease, result, v.clock);
      UnchangedKeeps(w, v);
    } else {
      var k := RefusedRow(j, result.reason, v.clock);
      ClaimIsStaging(w, id);
      RefuseIs(w.db, id, lease, result, v.clock);
      RefusedLetsGo(j, result.reason, v.clock);
      hide RefusedRow; hide StagingHere; hide LetsGo;
      assert v == LetGo(w, id, k, v.clock, Some(result));
      assert RollbackOf(v, id);
      hide *;
      LetGoRow(w, v, id, k, Some(result));
    }
  }

  lemma RefuseIs(db: Db, id: Id, lease: Lease, result: CompleteRequest, now: int)
    requires id in db.jobs && RowInv(db.jobs[id]) && IsKind(db.jobs[id], Review) && IsClaimed(db.jobs[id])
    requires db.jobs[id].lease == Some(lease) && StagingHere(db, id) && result.Refused?
    requires db.attempts[(id, db.jobs[id].nextRev.value)].lease == lease
    requires (id, lease) !in db.completions && OutputReady(db.jobs[id].prior.value.status)
    ensures RefuseReview(db, id, lease, result, now)
         == Answer(LetGoDb(db, id, RefusedRow(db.jobs[id], result.reason, now), now, Some(result)), Accepted)
  {
    var j := db.jobs[id];
    var k := RefusedRow(j, result.reason, now);
    var marked := j.(status := j.prior.value.status, steps := j.prior.value.steps, notice := Some(result.reason), updatedAt := now);
    var recorded := db.(completions := db.completions[(id, lease) := result]);
    var put := PutJob(recorded, id, marked);
    assert JobAllows(j.status, j.prior.value.status);
    assert RecordCompletion(PutJob(db, id, marked), id, lease, result) == Done(put);
    hide RowInv; hide JobAllows;
    EndTaskIs(put, id, now, true);
    DroppedIgnoresTheRest(recorded, id, marked, now);
    PutPutJob(WithoutStaging(recorded, id, now), id, marked, k);
    LetGoIs(db, id, k, now, Some(result));
  }

  /** The commit, on a row its invariant holds of: no guard raises, and the tables end as stated. */
  lemma PublishIs(db: Db, c: Completing)
    requires c.id in db.jobs && RowInv(db.jobs[c.id]) && IsClaimed(db.jobs[c.id])
    requires db.jobs[c.id].lease == Some(c.lease) && db.jobs[c.id].nextRev == Some(c.rev)
    requires HasAttempt(db, c.id, Some(c.rev)) && db.attempts[(c.id, c.rev)] == Attempt(c.lease, Staging)
    requires (c.id, c.lease) !in db.completions && c.result.Finished?
    requires JobAllows(db.jobs[c.id].status, if db.jobs[c.id].pending.Some? then db.jobs[c.id].status else c.result.job.status)
    ensures Publish(db, c.id, c.lease, c.result, c.files, c.now)
         == Done(PublishedDb(db, c.id, EndedRow(PublishedRow(db.jobs[c.id], c.result, c.files, c.now), c.now, true), c))
  {
    hide RowInv; hide JobAllows;
    var j := db.jobs[c.id];
    var p := PublishedRow(j, c.result, c.files, c.now);
    var k := EndedRow(p, c.now, true);
    var sealed := db.(attempts := db.attempts[(c.id, c.rev) := Attempt(c.lease, Sealed)]);
    assert ArtifactTransition(db, c.id, j.nextRev, Sealed) == Done(sealed);
    var put := PutJob(sealed, c.id, p);
    var published := put.(attempts := put.attempts[(c.id, c.rev) := Attempt(c.lease, Published)]);
    assert ArtifactTransition(put, c.id, j.nextRev, Published) == Done(published);
    var recorded := published.(completions := published.completions[(c.id, c.lease) := c.result]);
    assert RecordCompletion(published, c.id, c.lease, c.result) == Done(recorded);
    EndTaskIs(recorded, c.id, c.now, true);
    assert WithoutStaging(recorded, c.id, c.now) == recorded;
    assert published.attempts == db.attempts[(c.id, c.rev) := Attempt(c.lease, Published)];
    assert PutJob(recorded, c.id, k).jobs == db.jobs[c.id := k];
  }

  lemma PublishedLeaves(j: Job, c: Completing)
    requires RowInv(j) && PipelineRow(j) && IsClaimed(j) && j.nextRev == Some(c.rev) && c.rev > 0
    requires c.result.Finished? && Terminal(c.result.job.status) && ValidSteps(c.result.job.steps)
    requires j.syncedVersion <= c.result.overridesVersion <= j.overridesVersion
    ensures Publishing(j, EndedRow(PublishedRow(j, c.result, c.files, c.now), c.now, true), c)
    ensures JobAllows(j.status, if j.pending.Some? then j.status else c.result.job.status)
  {
    var p := PublishedRow(j, c.result, c.files, c.now);
    var k := EndedRow(p, c.now, true);
    PublishedKeeps(j, c.result, c.files, c.now);
    assert k.overrides == OverridesAfter(j.overrides, c.result.overridesVersion);
    assert PipelineRow(k) && !IsClaimed(k) by {
      hide ValidSteps; hide RowInv;
    }
    assert !IsKind(k, Process);
    hide RowInv; hide ValidSteps;
    forall kind: ItemKind, item | item in j.overrides.Of(kind) && j.overrides.Of(kind)[item] > c.result.overridesVersion
      ensures item in k.overrides.Of(kind) && k.overrides.Of(kind)[item] == j.overrides.Of(kind)[item]
    {
      NewerKeeps(j.overrides.Of(kind), c.result.overridesVersion);
    }
  }

  lemma IdleAnswer(db: Db, id: Id, lease: Lease, result: CompleteRequest, files: seq<string>, all: bool, now: int, later: int)
    requires result.Finished? && now <= later && !(all && (id, lease) !in db.completions && Held(db, id, lease, later))
    ensures var call := CompleteCommit(db, id, lease, result, files, all, now, later); call.Answer? && call.db == db
  {
    hide Publish; hide Held;
  }

  /** A commit that does not publish answers without effect. */
  lemma IdleCommit(w: World, req: string, now: int)
    requires req in w.completing && w.completing[req].result.Finished? && w.completing[req].now <= now
    requires !Publishes(w, w.completing[req], now)
    ensures CommitStep(w, req, now) == At(w, w.db, now).(completing := w.completing - {req})
    ensures var c := w.completing[req];
      CompleteCommit(w.db, c.id, c.lease, c.result, c.files, AllSeen(c), c.now, now).Answer?
  {
    var c := w.completing[req];
    hide AllSeen; hide Held;
    IdleAnswer(w.db, c.id, c.lease, c.result, c.files, AllSeen(c), c.now, now);
    hide At; hide CompleteCommit; hide Publishes;
  }

  lemma CommitKeeps(w: World, v: World, req: string)
    requires Inv(w) && req in w.completing && w.completing[req].result.Finished? && w.clock <= v.clock
    requires Slice(w, w.completing[req].id)
    requires v == CommitStep(w, req, v.clock)
    ensures Inv(v) && Moves(w, v)
    ensures var c := w.completing[req];
      CompleteCommit(w.db, c.id, c.lease, c.result, c.files, AllSeen(c), c.now, v.clock).Answer?
  {
    var c := w.completing[req];
    assert CompletingOf(w, c.id);
    hide Inv; hide Slice; hide ValidSteps; hide Intact;
    assert c.now <= v.clock;
    hide CompletingOf; hide CommitStep; hide CompleteCommit; hide Moves; hide AllSeen; hide Publishes;
    if Publishes(w, c, v.clock) {
      CommitPublishes(w, v, req);
    } else {
      IdleCommit(w, req, v.clock);
      UnchangedKeeps(w, v);
    }
  }

  lemma CommitIsPublishing(w: World, v: World, req: string, k: Job)
    requires req in w.completing && w.completing[req].result.Finished? && w.clock <= v.clock && w.completing[req].now <= v.clock
    requires v == CommitStep(w, req, v.clock) && Publishes(w, w.completing[req], v.clock)
    requires var c := w.completing[req];
      && w.db.jobs[c.id].nextRev == Some(c.rev)
      && Publish(w.db, c.id, c.lease, c.result, c.files, c.now) == Done(PublishedDb(w.db, c.id, k, c))
    ensures PublishedBy(w, v, req, k)
    ensures var c := w.completing[req];
      CompleteCommit(w.db, c.id, c.lease, c.result, c.files, AllSeen(c), c.now, v.clock).Answer?
    ensures v.rollback == if w.db.jobs[w.completing[req].id].pending.Some?
                          then w.rollback[w.completing[req].id := Prior(w.completing[req].result.job.status, w.completing[req].result.job.steps)]
                          else w.rollback
  {
    hide Publish; hide PublishedDb;
  }

  lemma CommitPublishes(w: World, v: World, req: string)
    requires Inv(w) && req in w.completing && w.completing[req].result.Finished? && w.clock <= v.clock
    requires Slice(w, w.completing[req].id) && w.completing[req].now <= v.clock
    requires v == CommitStep(w, req, v.clock) && Publishes(w, w.completing[req], v.clock)
    ensures Inv(v) && Moves(w, v)
    ensures var c := w.completing[req];
      CompleteCommit(w.db, c.id, c.lease, c.result, c.files, AllSeen(c), c.now, v.clock).Answer?
  {
    var c := w.completing[req];
    var j := w.db.jobs[c.id];
    var k := EndedRow(PublishedRow(j, c.result, c.files, c.now), c.now, true);
    assert RowOf(w, c.id) && PipelineOf(w, c.id) && RevisionsOf(w, c.id) && CompletingOf(w, c.id)
        && DecisionsOf(w, c.id) && RollbackOf(w, c.id);
    InvParts(w);
    hide Inv;
    HeldTicket(w, c.id, c.lease, v.clock);
    ClaimIsStaging(w, c.id);
    assert c.rev > 0 && j.syncedVersion <= c.result.overridesVersion <= j.overridesVersion;
    hide Slice; hide RevisionsOf; hide DecisionsOf; hide CleaningKept; hide AdmissionKept; hide CommitStep;
    PublishedLeaves(j, c);
    PublishIs(w.db, c);
    CommitIsPublishing(w, v, req, k);
    CommitRest(w, v, req, k);
    hide *;
    PublishKeeps(w, v, req, k);
  }

  lemma CommitRest(w: World, v: World, req: string, k: Job)
    requires PublishedBy(w, v, req, k) && w.completing[req].result.Finished? && AdmissionKept(w.db.jobs)
    requires var c := w.completing[req];
      && Publishing(w.db.jobs[c.id], k, c) && RollbackOf(w, c.id)
      && k == EndedRow(PublishedRow(w.db.jobs[c.id], c.result, c.files, c.now), c.now, true)
      && v.rollback == if w.db.jobs[c.id].pending.Some? then w.rollback[c.id := Prior(c.result.job.status, c.result.job.steps)]
                       else w.rollback
    ensures RollbackOf(v, w.completing[req].id) && AdmissionKept(v.db.jobs)
  {
    hide RowInv; hide PipelineRow;
    FewerProcesses(w.db.jobs, v.db.jobs);
  }

  // ---------------------------------------------------------------- cleaning

  lemma CleaningChanges(w: World, v: World)
    requires Inv(w) && w.clock <= v.clock && CleaningKept(v)
    requires v == w.(db := w.db.(cleanup := v.db.cleanup), clock := v.clock, cleaning := v.cleaning)
    ensures Inv(v) && Moves(w, v)
  {
    hide Slice; hide CleaningKept; hide AdmissionKept;
    NoneChanged(w, v);
  }

  lemma CleanStartKeeps(w: World, v: World, loop: string, todo: seq<(Prefix, RetentionState)>)
    requires Inv(w) && w.clock <= v.clock
    requires forall i | 0 <= i < |todo| :: todo[i].0 in Due(w.db, v.clock) && Due(w.db, v.clock)[todo[i].0] == todo[i].1
    requires v == At(w, w.db, v.clock).(cleaning := w.cleaning[loop := Cleaning(todo, None)])
    ensures Inv(v) && Moves(w, v)
  {
    InvParts(w);
    hide Slice; hide Inv; hide AdmissionKept;
    assert v.condemned == w.condemned;
    CleaningChanges(w, v);
  }

  lemma CleanNextKeeps(w: World, v: World, loop: string)
    requires Inv(w) && loop in w.cleaning && w.cleaning[loop].todo != []
    requires var c := w.cleaning[loop];
      v == At(w, MarkCleanup(w.db, c.todo[0].0, Deleting), w.clock).(
             cleaning := w.cleaning[loop := Cleaning(c.todo[1..], Some(c.todo[0].0))])
    ensures Inv(v) && Moves(w, v) && RetentionAllows(w.cleaning[loop].todo[0].1, Deleting)
  {
    InvParts(w);
    hide Slice; hide Inv; hide AdmissionKept;
    assert v.condemned == w.condemned;
    assert CleaningKept(v) by {
      var c := w.cleaning[loop];
      forall i | 0 <= i < |c.todo[1..]| ensures c.todo[1..][i] == c.todo[i + 1] {
      }
    }
    CleaningChanges(w, v);
  }

  lemma CleanSettleKeeps(w: World, v: World, loop: string, deleted: bool)
    requires Inv(w) && loop in w.cleaning && w.cleaning[loop].current.Some?
    requires var c := w.cleaning[loop];
      v == At(w, SettleCleanup(w.db, c.current.value, deleted), w.clock).(cleaning := w.cleaning[loop := c.(current := None)])
    ensures Inv(v) && Moves(w, v)
  {
    InvParts(w);
    hide Slice; hide Inv; hide AdmissionKept;
    assert v.condemned == w.condemned;
    CleaningChanges(w, v);
  }

  /** Deleting under a condemned prefix takes nothing any job relies on. */
  lemma CleanDeleteKeeps(w: World, v: World, p: Prefix, keys: set<Key>)
    requires Inv(w) && Slice(w, p.id) && p in w.condemned && (forall k | k in keys :: Covers(p, k))
    requires v == w.(store := w.store - keys)
    ensures Inv(v) && Moves(w, v)
  {
    InvParts(w);
    hide Inv; hide Slice; hide AdmissionKept;
    assert CleaningKept(v);
    hide CleaningKept; hide SameSlice; hide Covers;
    CleanDeleteSlice(w, v, p, keys);
    CleanDeleteOthers(w, v, p, keys);
    OnlyOneChanged(w, v, p.id);
  }

  lemma CleanDeleteOthers(w: World, v: World, p: Prefix, keys: set<Key>)
    requires (forall k | k in keys :: Covers(p, k)) && v == w.(store := w.store - keys)
    ensures forall other | other != p.id :: SameSlice(w, v, other)
  {
    forall other | other != p.id ensures SameSlice(w, v, other) {
      assert SameFiles(w, v, other);
    }
  }

  lemma CleanDeleteSlice(w: World, v: World, p: Prefix, keys: set<Key>)
    requires Slice(w, p.id) && p in w.condemned && (forall k | k in keys :: Covers(p, k))
    requires v == w.(store := w.store - keys)
    ensures Slice(v, p.id)
  {
    var id := p.id;
    hide RowInv; hide PipelineRow; hide ValidSteps;
    assert RevisionsOf(v, id) && DecisionsOf(v, id) by {
      assert RevisionsOf(w, id) && DecisionsOf(w, id);
      hide Slice;
      forall r: nat | (id, r) in v.db.attempts ensures RevisionAccounted(v, id, r) {
        assert RevisionAccounted(w, id, r);
      }
      forall d | Rendered(w, d) ensures Rendered(v, d) {
        var r: nat :| RenderedAt(w, d, r);
        assert RenderedAt(v, d, r);
      }
    }
    assert StoreOf(v, id) by {
      assert StoreOf(w, id) && CondemnedOf(w, id);
      hide Slice;
    }
    assert CompletingOf(v, id) by {
      assert CompletingOf(w, id);
      hide Slice;
    }
    hide RevisionsOf; hide DecisionsOf; hide StoreOf; hide CompletingOf;
  }

  // ---------------------------------------------------------------- every event

  /** A guard of the board raises in this step, or an insert meets its own primary key. */
  ghost predicate Raises(w: World, e: Event) {
    Enabled(w, e) &&
    match e
    case Reserve(id, _) => id in w.db.uploads || OfUpload(id) in w.db.writes
    case MarkStored(id) => MarkUploadStored(w.db, id).Throw?
    case Create(id, owner, jwt, exp, now) => CreateJob(w.db, id, owner, jwt, exp, now).Throw?
    case Abandon(id, now) => AbandonUpload(w.db, id, now).Threw?
    case Override(owner, id, kind, item, now) => SetOverride(w.db, owner, id, kind, item, now).Throw?
    case AskReview(owner, id, action, jwt, exp, now) => QueueReview(w.db, owner, id, action, jwt, exp, now).Throw?
    case ClaimRetire(id, now) => Retire(w.db, id, now).Threw?
    case ClaimGrant(id, _, highest, _) => (id, highest + 1) in w.db.attempts
    case RenewBy(id, lease, now) => RenewalRaises(w.db, id, lease, now)
    case PutCheck(_, id, lease, _, _, now) => RenewalRaises(w.db, id, lease, now)
    case ProgressBy(id, lease, event, now) => Progress(w.db, id, lease, event, now).Throw?
    case FailBy(id, lease, error, now) => FailTask(w.db, id, lease, error, now).Throw?
    case CompleteAsk(req, id, lease, result, now) =>
      var opening := CompleteOpen(w.db, id, lease, result, now); opening.Answered? && opening.call.Throw?
    case CompleteCommits(req, now) =>
      var c := w.completing[req];
      CompleteCommit(w.db, c.id, c.lease, c.result, c.files, AllSeen(c), c.now, now).Throw?
    case PutBegin(token, now) =>
      BeginArtifactUpload(w.db, w.putting[token].id, w.putting[token].lease, token, now).Throw? || OfArtifact(token) in w.db.writes
    case Sweep(id, now) => SweepRow(w.db, id, now).Threw?
    case Expire(id, now) => ExpireUpload(w.db, id, now).Threw?
    case CleanNext(loop) => !RetentionAllows(w.cleaning[loop].todo[0].1, Deleting)
    case _ => false
  }

  ghost predicate RenewalRaises(db: Db, id: Id, lease: Lease, now: int) {
    Held(db, id, lease, now) && TaskTransitionError(db.jobs[id], Renew).Some?
  }

  /** An upload request that leaves its own order: it reports its input twice, or asks for its job
      before it reported the input, while its reservation is live. */
  ghost predicate OutOfOrder(w: World, e: Event) {
    match e
    case MarkStored(id) => id in w.db.uploads && id in w.marked
    case Create(id, _, _, _, now) =>
      id in w.db.uploads && id !in w.marked && now < w.db.uploads[id].expires && JobPrefix(id) !in w.db.cleanup
    case _ => false
  }

  lemma UploadNext(w: World, e: Event)
    requires Enabled(w, e) && (e.MarkStored? || e.Create? || e.Abandon? || e.Expire?)
    ensures match e
      case MarkStored(id) =>
        && id in w.inputs && Next(w, e) == At(w, MarkUploadStored(w.db, id).db, w.clock).(marked := w.marked + {id})
        && Raises(w, e) == MarkUploadStored(w.db, id).Throw?
      case Create(id, owner, jwt, exp, now) =>
        && w.clock <= now && Next(w, e) == At(w, CreateJob(w.db, id, owner, jwt, exp, now).db, now)
        && Raises(w, e) == CreateJob(w.db, id, owner, jwt, exp, now).Throw?
      case Abandon(id, now) =>
        && w.clock <= now && id in w.reserved && Raises(w, e) == AbandonUpload(w.db, id, now).Threw?
        && Next(w, e) == At(w, AbandonUpload(w.db, id, now).db, now).(transfers := w.transfers - {id})
      case Expire(id, now) =>
        && w.clock <= now && id in w.db.uploads && w.db.uploads[id].expires <= now
        && Next(w, e) == At(w, ExpireUpload(w.db, id, now).db, now) && Raises(w, e) == ExpireUpload(w.db, id, now).Threw?
      case _ => true
  {
    hide MarkUploadStored; hide AbandonUpload; hide ExpireUpload;
    hide At; hide Retire; hide ClaimVerdict; hide CreateJob; hide QueueReview; hide SetOverride; hide DeleteJob;
    hide CompleteAskStep; hide CommitStep; hide PutCheckStep; hide PutBeginStep; hide LateIsSafe; hide Due; hide Covers;
    hide GrantClaim; hide Progress; hide FailTask; hide SweepRow; hide Forget; hide SettleCleanup; hide QueuedBefore;
    hide IsHighest; hide Held;
  }

  lemma MarkStoredIs(db: Db, id: Id)
    ensures var call := MarkUploadStored(db, id);
      && (call.Answer? ==> call.db == StoredDb(db, id))
      && (call.Throw? ==> call.db == db && id in db.uploads)
      && (call.Throw? <==> id in db.uploads && db.uploads[id].state != Receiving)
  {
  }

  lemma StoredAlready(db: Db, id: Id)
    requires id in db.uploads ==> db.uploads[id].state == Stored
    ensures StoredDb(db, id) == db
  {
  }

  lemma OnMarkStored(w: World, id: Id)
    requires Inv(w) && Slice(w, id) && Enabled(w, MarkStored(id))
    ensures Inv(Next(w, MarkStored(id))) && Moves(w, Next(w, MarkStored(id)))
    ensures Raises(w, MarkStored(id)) <==> OutOfOrder(w, MarkStored(id))
  {
    UploadNext(w, MarkStored(id));
    MarkStoredIs(w.db, id);
    UploadStateIs(w, id);
    if id in w.db.uploads && id in w.marked {
      StoredAlready(w.db, id);
    }
    hide Slice; hide Inv; hide Moves; hide Next; hide Raises; hide Enabled; hide At; hide StoredDb; hide MarkUploadStored;
    MarkStoredKeeps(w, Next(w, MarkStored(id)), id);
  }

  lemma UploadStateIs(w: World, id: Id)
    requires Slice(w, id)
    ensures id in w.db.uploads ==>
      && w.db.uploads[id].state == (if id in w.marked then Stored else Receiving)
      && id in w.reserved && id !in w.db.jobs && JobPrefix(id) !in w.condemned
    ensures id in w.reserved && id !in w.db.jobs ==> id in w.db.uploads || JobPrefix(id) in w.condemned
  {
    assert UploadOf(w, id);
    hide Slice; hide Unstarted;
  }

  lemma CreateCases(db: Db, id: Id, owner: string, jwt: string, exp: int, now: int)
    requires id in db.uploads ==> db.uploads[id].state in {Receiving, Stored} && id !in db.jobs
    ensures var call := CreateJob(db, id, owner, jwt, exp, now);
      && (call.Throw? <==> id in db.uploads && db.uploads[id].state == Receiving && now < db.uploads[id].expires && JobPrefix(id) !in db.cleanup)
      && (call.db == db
          || (id in db.uploads && db.uploads[id].state == Stored && AdmitUpload(db, owner, exp, now) == Admit
              && call.db == PutJob(db, id, NewRow(owner, jwt, exp, now)).(uploads := db.uploads - {id}, writes := db.writes - {OfUpload(id)})))
  {
    hide AdmitUpload; hide NewRow;
  }

  lemma CreateStep(w: World, v: World, id: Id, owner: string, jwt: string, exp: int, now: int)
    requires Inv(w) && Slice(w, id) && w.clock <= now && v == At(w, CreateJob(w.db, id, owner, jwt, exp, now).db, now)
    ensures Inv(v) && Moves(w, v)
  {
    UploadStateIs(w, id);
    CreateCases(w.db, id, owner, jwt, exp, now);
    hide Slice; hide Inv; hide Moves; hide CreateJob; hide AdmitUpload; hide NewRow; hide PutJob;
    if CreateJob(w.db, id, owner, jwt, exp, now).db == w.db {
      UnchangedKeeps(w, v);
    } else {
      assert v.clock == now;
      hide At;
      CreateKeeps(w, v, id, owner, jwt, exp);
    }
  }

  lemma OnCreate(w: World, id: Id, owner: string, jwt: string, exp: int, now: int)
    requires Inv(w) && Slice(w, id) && Enabled(w, Create(id, owner, jwt, exp, now))
    ensures var e := Create(id, owner, jwt, exp, now);
      Inv(Next(w, e)) && Moves(w, Next(w, e)) && (Raises(w, e) <==> OutOfOrder(w, e))
  {
    var e := Create(id, owner, jwt, exp, now);
    UploadNext(w, e);
    UploadStateIs(w, id);
    CreateCases(w.db, id, owner, jwt, exp, now);
    hide Slice; hide Inv; hide Moves; hide Next; hide Raises; hide Enabled; hide At; hide CreateJob; hide AdmitUpload; hide NewRow;
    CreateStep(w, Next(w, e), id, owner, jwt, exp, now);
  }

  lemma AbandonStep(w: World, v: World, id: Id, now: int)
    requires Inv(w) && Slice(w, id) && w.clock <= now && id in w.reserved
    requires v == At(w, AbandonUpload(w.db, id, now).db, now).(transfers := w.transfers - {id})
    ensures Inv(v) && Moves(w, v) && AbandonUpload(w.db, id, now).Done?
  {
    UploadStateIs(w, id);
    assert v.clock == now && v.transfers == w.transfers - {id};
    hide Slice; hide Inv; hide Moves;
    if id in w.db.jobs {
      UnchangedKeeps(w, v);
    } else {
      hide At; hide RequestCleanup;
      GiveUpKeeps(w, v, id, w.db.writes - {OfUpload(id)}, now);
    }
  }

  lemma ExpireStep(w: World, v: World, id: Id, now: int)
    requires Inv(w) && Slice(w, id) && w.clock <= now && id in w.db.uploads
    requires v == At(w, ExpireUpload(w.db, id, now).db, now)
    ensures Inv(v) && Moves(w, v) && ExpireUpload(w.db, id, now).Done?
  {
    UploadStateIs(w, id);
    ExpireIsGivingUp(w.db, id, now);
    assert v.clock == now && v.transfers == w.transfers;
    hide Slice; hide Inv; hide Moves; hide At; hide RequestCleanup; hide ExpireUpload;
    GiveUpKeeps(w, v, id, w.db.writes, now);
  }

  lemma ExpireIsGivingUp(db: Db, id: Id, now: int)
    requires id in db.uploads && db.uploads[id].state in {Receiving, Stored}
    ensures ExpireUpload(db, id, now)
         == Done(RequestCleanup(db.(uploads := db.uploads - {id}, writes := db.writes), JobPrefix(id), now))
  {
  }

  lemma OnDelete(w: World, owner: string, id: Id, now: int)
    requires Inv(w) && Slice(w, id) && Enabled(w, Delete(owner, id, now))
    ensures Inv(Next(w, Delete(owner, id, now))) && Moves(w, Next(w, Delete(owner, id, now))) && !Raises(w, Delete(owner, id, now))
  {
    var v := Next(w, Delete(owner, id, now));
    hide Slice; hide Inv; hide Forget;
    if Owned(w.db, owner, id) {
      ForgetKeeps(w, v, id);
    } else {
      UnchangedKeeps(w, v);
    }
  }

  lemma PersonNext(w: World, e: Event)
    requires Enabled(w, e) && (e.Override? || e.AskReview?)
    ensures w.clock <= e.now
    ensures match e
      case Override(owner, id, kind, item, now) =>
        var after := At(w, SetOverride(w.db, owner, id, kind, item, now).db, now);
        && (Owned(w.db, owner, id) ==> !FailedWithState(w.db.jobs[id]))
        && Next(w, e) == (if !Owned(w.db, owner, id) then after
                          else after.(decisions := w.decisions + {Decision(id, kind, item, w.db.jobs[id].overridesVersion + 1)}))
        && Raises(w, e) == SetOverride(w.db, owner, id, kind, item, now).Throw?
      case AskReview(owner, id, action, jwt, exp, now) =>
        var call := QueueReview(w.db, owner, id, action, jwt, exp, now);
        var after := At(w, call.db, now);
        && (call.Answer? && call.reply == Accepted ==>
              id in w.db.jobs && Next(w, e) == after.(rollback := w.rollback[id := Prior(w.db.jobs[id].status, w.db.jobs[id].steps)]))
        && (!(call.Answer? && call.reply == Accepted) ==> Next(w, e) == after)
        && Raises(w, e) == call.Throw?
      case _ => true
  {
    if e.AskReview? {
      AcceptedIsOwned(w.db, e.owner, e.id, e.action, e.jwt, e.exp, e.now);
    }
    hide FailedWithState;
    hide At; hide Retire; hide ClaimVerdict; hide CreateJob; hide QueueReview; hide SetOverride; hide DeleteJob;
    hide CompleteAskStep; hide CommitStep; hide PutCheckStep; hide PutBeginStep; hide LateIsSafe; hide Due; hide Covers;
    hide GrantClaim; hide Progress; hide FailTask; hide SweepRow; hide Forget; hide SettleCleanup; hide QueuedBefore;
    hide IsHighest; hide Held;
  }

  lemma AcceptedIsOwned(db: Db, owner: string, id: Id, action: ReviewAction, jwt: string, exp: int, now: int)
    ensures var call := QueueReview(db, owner, id, action, jwt, exp, now);
      call.Answer? && call.reply == Accepted ==> id in db.jobs
  {
    hide QueueTask; hide ReviewBusy; hide CredentialEligibility; hide JobAllows; hide Reviewing;
  }

  /** Time passes, and nothing else. */
  lemma TimePasses(w: World, v: World, now: int)
    requires Inv(w) && w.clock <= now && v == At(w, w.db, now)
    ensures Inv(v) && Moves(w, v)
  {
    hide Inv; hide Moves;
    UnchangedKeeps(w, v);
  }

  lemma OverrideStep(w: World, v: World, owner: string, id: Id, kind: ItemKind, item: int, now: int)
    requires Inv(w) && Slice(w, id) && Owned(w.db, owner, id) && !FailedWithState(w.db.jobs[id]) && w.clock <= now
    requires v == At(w, SetOverride(w.db, owner, id, kind, item, now).db, now).(
                    decisions := w.decisions + {Decision(id, kind, item, w.db.jobs[id].overridesVersion + 1)})
    ensures Inv(v) && Moves(w, v) && SetOverride(w.db, owner, id, kind, item, now).Answer?
  {
    assert RowOf(w, id);
    hide Slice; hide Inv; hide Moves; hide FailedWithState; hide RowInv;
    assert RowInv(w.db.jobs[id]);
    OverrideIs(w.db, owner, id, kind, item, now);
    hide SetOverride; hide OverrideRow; hide Owned;
    OverrideTouches(w, v, id, OverrideRow(w.db.jobs[id], kind, item, now), now, v.decisions);
    hide At; hide PutJob; hide Touched;
    OverrideKeeps(w, v, owner, id, kind, item);
  }

  lemma OverrideTouches(w: World, v: World, id: Id, k: Job, now: int, decisions: set<Decision>)
    requires v == At(w, PutJob(w.db, id, k), now).(decisions := decisions)
    ensures v == Touched(w, id, k, now, decisions, w.rollback) && v.clock == now
  {
    hide PutJob;
  }

  lemma UnownedStays(db: Db, owner: string, id: Id, kind: ItemKind, item: int, now: int)
    requires !Owned(db, owner, id)
    ensures SetOverride(db, owner, id, kind, item, now) == Answer(db, false)
  {
    hide Owned;
  }

  lemma ReviewStep(w: World, v: World, owner: string, id: Id, action: ReviewAction, jwt: string, exp: int, now: int)
    requires Inv(w) && Slice(w, id) && w.clock <= now
    requires var call := QueueReview(w.db, owner, id, action, jwt, exp, now);
      && (call.Answer? && call.reply == Accepted ==>
            && id in w.db.jobs
            && v == At(w, call.db, now).(rollback := w.rollback[id := Prior(w.db.jobs[id].status, w.db.jobs[id].steps)]))
      && (!(call.Answer? && call.reply == Accepted) ==> v == At(w, call.db, now))
    ensures Inv(v) && Moves(w, v) && QueueReview(w.db, owner, id, action, jwt, exp, now).Answer?
  {
    assert RowOf(w, id);
    hide Slice; hide Inv; hide RowInv; hide Moves;
    ReviewIs(w.db, owner, id, action, jwt, exp, now);
    var call := QueueReview(w.db, owner, id, action, jwt, exp, now);
    hide QueueReview; hide ReviewRow;
    if call.reply == Accepted {
      hide ReviewBusy;
      ReviewTouches(w, v, id, ReviewRow(w.db.jobs[id], action, jwt, exp, now), now, v.rollback);
      hide At; hide PutJob; hide Touched;
      ReviewKeeps(w, v, id, action, jwt, exp);
    } else {
      TimePasses(w, v, now);
    }
  }

  lemma ReviewTouches(w: World, v: World, id: Id, k: Job, now: int, rollback: map<Id, Prior>)
    requires v == At(w, PutJob(w.db, id, k), now).(rollback := rollback)
    ensures v == Touched(w, id, k, now, w.decisions, rollback) && v.clock == now
  {
    hide PutJob;
  }

  lemma ClaimRetireNext(w: World, id: Id, now: int)
    requires Enabled(w, ClaimRetire(id, now))
    ensures id in w.db.jobs && IsWaiting(w.db.jobs[id]) && w.clock <= now
    ensures Next(w, ClaimRetire(id, now)) == At(w, Retire(w.db, id, now).db, now)
    ensures Raises(w, ClaimRetire(id, now)) == Retire(w.db, id, now).Threw?
  {
    hide At; hide Retire; hide ClaimVerdict; hide CreateJob; hide QueueReview; hide SetOverride; hide DeleteJob;
    hide CompleteAskStep; hide CommitStep; hide PutCheckStep; hide PutBeginStep; hide LateIsSafe; hide Due; hide Covers;
    hide GrantClaim; hide Progress; hide FailTask; hide SweepRow; hide Forget; hide SettleCleanup; hide QueuedBefore;
  }

  lemma RetireNext(w: World, v: World, id: Id, now: int)
    requires Inv(w) && Slice(w, id) && id in w.db.jobs && IsWaiting(w.db.jobs[id]) && w.clock <= now
    requires v == At(w, Retire(w.db, id, now).db, now)
    ensures Inv(v) && Moves(w, v) && Retire(w.db, id, now).Done?
  {
    var error := if ClaimVerdict(w.db.jobs[id], now) == RetireSignIn then SIGN_IN_ENDING else INCONSISTENT;
    hide Inv; hide Slice; hide Moves; hide FailRow; hide ClaimVerdict;
    assert v.clock == now;
    RetireKeeps(w, v, id, error);
  }

  lemma GrantedIsNew(db: Db, id: Id, highest: nat)
    requires id in db.jobs && IsHighest(db, id, highest)
    ensures (id, highest + 1) !in db.attempts
  {
    assert (id, highest + 1) in db.attempts ==> KnownRevision(db, id, highest + 1);
  }

  lemma HeldRenews(w: World, id: Id, lease: Lease, now: int)
    requires Slice(w, id)
    ensures !RenewalRaises(w.db, id, lease, now)
  {
    assert RowOf(w, id);
    hide Slice; hide OverlayRow; hide StatusMatches; hide Token; hide Attempts;
  }

  lemma ClaimGrantNext(w: World, id: Id, lease: Lease, highest: nat, now: int)
    requires Enabled(w, ClaimGrant(id, lease, highest, now))
    ensures id in w.db.jobs && IsWaiting(w.db.jobs[id]) && w.clock <= now && lease !in w.tickets
    ensures IsHighest(w.db, id, highest) && ClaimVerdict(w.db.jobs[id], now) == Grant
    ensures Next(w, ClaimGrant(id, lease, highest, now)) == Granted(w, id, lease, highest, now)
    ensures Raises(w, ClaimGrant(id, lease, highest, now)) == ((id, highest + 1) in w.db.attempts)
  {
    hide At; hide Retire; hide ClaimVerdict; hide CreateJob; hide QueueReview; hide SetOverride; hide DeleteJob;
    hide CompleteAskStep; hide CommitStep; hide PutCheckStep; hide PutBeginStep; hide LateIsSafe; hide Due; hide Covers;
    hide GrantClaim; hide Progress; hide FailTask; hide SweepRow; hide Forget; hide SettleCleanup; hide QueuedBefore;
    hide IsHighest;
  }

  lemma GrantedClock(w: World, id: Id, lease: Lease, highest: nat, now: int)
    requires id in w.db.jobs
    ensures Granted(w, id, lease, highest, now).clock == now
  {
    hide GrantClaim;
  }

  lemma RunnerNext(w: World, e: Event)
    requires Enabled(w, e) && (e.RenewBy? || e.ProgressBy? || e.FailBy? || e.Sweep? || e.PutCheck?)
    ensures Renews(e) ==> MayRenew(w, e.id, e.lease, e.now) && LateBy(w, e) == LateOf(w, e.id, e.lease, e.now)
    ensures !Renews(e) ==> w.clock <= e.now && LateBy(w, e) == {}
    ensures match e
      case RenewBy(id, lease, now) =>
        && Next(w, e) == At(w, RenewLease(w.db, id, lease, now), Later(w.clock, now))
        && Raises(w, e) == RenewalRaises(w.db, id, lease, now)
      case ProgressBy(id, lease, event, now) =>
        && Next(w, e) == At(w, Progress(w.db, id, lease, event, now).db, Later(w.clock, now))
        && Raises(w, e) == Progress(w.db, id, lease, event, now).Throw?
      case FailBy(id, lease, error, now) =>
        && Next(w, e) == At(w, FailTask(w.db, id, lease, error, now).db, now)
        && Raises(w, e) == FailTask(w.db, id, lease, error, now).Throw?
      case Sweep(id, now) =>
        && Next(w, e) == At(w, SweepRow(w.db, id, now).db, now) && Raises(w, e) == SweepRow(w.db, id, now).Threw?
      case PutCheck(token, id, lease, name, bytes, now) =>
        && token !in w.putting && Next(w, e) == PutCheckStep(w, token, id, lease, name, bytes, now)
        && Raises(w, e) == RenewalRaises(w.db, id, lease, now)
      case _ => true
  {
    hide RenewLease; hide RenewalRaises; hide LateOf; hide Later;
    hide At; hide Retire; hide ClaimVerdict; hide CreateJob; hide QueueReview; hide SetOverride; hide DeleteJob;
    hide CompleteAskStep; hide CommitStep; hide PutCheckStep; hide PutBeginStep; hide LateIsSafe; hide Due; hide Covers;
    hide GrantClaim; hide Progress; hide FailTask; hide SweepRow; hide Forget; hide SettleCleanup; hide QueuedBefore;
    hide IsHighest; hide Held;
  }

  lemma OnFailBy(w: World, e: Event)
    requires e.FailBy? || e.Sweep?
    requires Inv(w) && Slice(w, e.id) && w.clock <= e.now
    requires Next(w, e) == At(w, if e.FailBy? then FailTask(w.db, e.id, e.lease, e.error, e.now).db else SweepRow(w.db, e.id, e.now).db, e.now)
    ensures Inv(Next(w, e)) && Moves(w, Next(w, e))
    ensures if e.FailBy? then FailTask(w.db, e.id, e.lease, e.error, e.now).Answer? else SweepRow(w.db, e.id, e.now).Done?
  {
    hide Slice; hide Inv; hide FailTask; hide SweepRow; hide Moves; hide Next; hide Enabled;
    assert Next(w, e).clock == e.now;
    match e
    case FailBy(id, lease, error, now) => FailByKeeps(w, Next(w, e), id, lease, error);
    case Sweep(id, now) => SweepKeeps(w, Next(w, e), id);
  }

  lemma RenewsMeans(e: Event)
    ensures Renews(e) <==> e.RenewBy? || e.ProgressBy? || e.PutCheck?
  {
  }

  lemma AwaitKeeps(w: World, v: World, req: string, id: Id, lease: Lease, result: CompleteRequest, now: int)
    requires Inv(w) && Slice(w, id) && Held(w.db, id, lease, now) && w.clock <= now
    requires lease in w.tickets ==> result.overridesVersion == w.tickets[lease].version
    requires req !in w.completing && result.Finished? && Terminal(result.job.status) && ValidSteps(result.job.steps)
    requires v == At(w, w.db, now).(completing := w.completing[req :=
               Completing(id, lease, result, Manifest(result), NextRevision(w.db.jobs[id]), now, {}, map[])])
    ensures Inv(v) && Moves(w, v)
  {
    HeldTicket(w, id, lease, now);
    hide Slice; hide Inv; hide ValidSteps; hide NextRevision;
    CompletingKeeps(w, v, req, v.completing[req]);
  }

  /** What the first half of `complete` can do: answer without effect, refuse a review, or wait. */
  lemma OpeningCases(db: Db, id: Id, lease: Lease, result: CompleteRequest, now: int)
    ensures match CompleteOpen(db, id, lease, result, now)
      case AwaitStore(files, rev) =>
        && Held(db, id, lease, now) && result.Finished? && Terminal(result.job.status) && ValidSteps(result.job.steps)
        && files == Manifest(result) && rev == NextRevision(db.jobs[id])
      case Answered(call) =>
        || (call.Answer? && call.db == db)
        || (Held(db, id, lease, now) && (id, lease) !in db.completions && result.Refused?
            && db.jobs[id].taskKind == Some(Review) && call == RefuseReview(db, id, lease, result, now))
  {
    hide ValidSteps; hide Manifest; hide IsRunnerFileName; hide RefuseReview;
  }

  lemma OnCompleteAsk(w: World, req: string, id: Id, lease: Lease, result: CompleteRequest, now: int)
    requires Inv(w) && Slice(w, id) && Enabled(w, CompleteAsk(req, id, lease, result, now))
    ensures Inv(Next(w, CompleteAsk(req, id, lease, result, now))) && Moves(w, Next(w, CompleteAsk(req, id, lease, result, now))) && !Raises(w, CompleteAsk(req, id, lease, result, now))
  {
    var v := Next(w, CompleteAsk(req, id, lease, result, now));
    var opening := CompleteOpen(w.db, id, lease, result, now);
    hide Inv; hide Slice; hide ValidSteps; hide RefuseReview; hide Manifest; hide CompleteOpen;
    OpeningCases(w.db, id, lease, result, now);
    if opening.AwaitStore? {
      AwaitKeeps(w, v, req, id, lease, result, now);
    } else if opening.call.Answer? && opening.call.db == w.db {
      UnchangedKeeps(w, v);
    } else {
      RefuseKeeps(w, v, id, lease, result);
    }
  }

  /** A lookup adds what it found to what the request has seen. */
  function Looked(w: World, c: Completing, name: string): Completing {
    var key := FileKey(c.id, c.rev, name);
    c.(asked := c.asked + {name}, seen := if key in w.store then c.seen[name := w.store[key]] else c.seen)
  }

  lemma HeadNext(w: World, req: string, name: string)
    requires Enabled(w, CompleteHead(req, name)) && w.db.cleanup.Keys <= w.condemned
    ensures req in w.completing
    ensures Next(w, CompleteHead(req, name))
         == At(w, w.db, w.clock).(completing := w.completing[req := Looked(w, w.completing[req], name)])
    ensures !Raises(w, CompleteHead(req, name))
  {
    assert w.condemned + w.db.cleanup.Keys == w.condemned;
    hide CommitStep; hide PutCheckStep; hide CompleteAskStep; hide PutBeginStep; hide InTime;
  }

  lemma CondemnedAll(w: World)
    requires CleaningKept(w)
    ensures w.db.cleanup.Keys <= w.condemned
  {
  }

  lemma LookedFits(w: World, req: string, name: string)
    requires req in w.completing && Slice(w, w.completing[req].id)
    ensures var c := w.completing[req];
      var d := Looked(w, c, name);
      && c.result.Finished? && d == c.(asked := d.asked, seen := d.seen)
      && Terminal(d.result.job.status) && ValidSteps(d.result.job.steps) && AsReported(d.files, d.result) && d.now <= w.clock
      && d.lease in w.tickets && w.tickets[d.lease].id == d.id && w.tickets[d.lease].rev == d.rev
      && d.result.overridesVersion == w.tickets[d.lease].version
      && (JobPrefix(d.id) !in w.condemned && RevPrefix(d.id, d.rev) !in w.condemned ==> Intact(w.store, d.id, d.rev, d.seen))
  {
    assert CompletingOf(w, w.completing[req].id);
    hide Slice; hide ValidSteps; hide AsReported;
  }

  lemma CompleteHeadKeeps(w: World, v: World, req: string, name: string)
    requires Inv(w) && req in w.completing && Slice(w, w.completing[req].id)
    requires v == At(w, w.db, w.clock).(completing := w.completing[req := Looked(w, w.completing[req], name)])
    ensures Inv(v) && Moves(w, v)
  {
    var d := Looked(w, w.completing[req], name);
    LookedFits(w, req, name);
    assert v.clock == w.clock && d.id == w.completing[req].id;
    hide Inv; hide Slice; hide ValidSteps; hide AsReported; hide Intact; hide Looked; hide At; hide Moves; hide Terminal;
    CompletingKeeps(w, v, req, d);
  }

  /** The events of files and of the cleaning loop, by what they do to the tables. */
  lemma FileNext(w: World, e: Event)
    requires Enabled(w, e)
    requires e.CompleteHead? || e.PutBegin? || e.PutStore? || e.PutEnd?
    ensures match e
      case CompleteHead(_, _) => Next(w, e).db == w.db
      case PutBegin(token, now) => token in w.putting && Next(w, e) == PutBeginStep(w, token, now)
      case PutStore(_) => Next(w, e).db == w.db
      case PutEnd(token, now) =>
        token in w.putting && Next(w, e).db == EndArtifactUpload(w.db, w.putting[token].id, w.putting[token].lease, token, now)
      case _ => true
  {
    if e.PutEnd? {
      AtIs(w, EndArtifactUpload(w.db, w.putting[e.token].id, w.putting[e.token].lease, e.token, e.now), e.now);
    }
    hide EndArtifactUpload; hide PutIfAbsent;
    hide At; hide Retire; hide ClaimVerdict; hide CreateJob; hide QueueReview; hide SetOverride; hide DeleteJob;
    hide CompleteAskStep; hide CommitStep; hide PutCheckStep; hide PutBeginStep; hide LateIsSafe; hide Due; hide Covers;
    hide GrantClaim; hide Progress; hide FailTask; hide SweepRow; hide Forget; hide SettleCleanup; hide QueuedBefore;
    hide IsHighest; hide Held;
  }

  lemma CleaningTables(db: Db, p: Prefix, state: RetentionState, deleted: bool)
    ensures MarkCleanup(db, p, state) == db.(cleanup := MarkCleanup(db, p, state).cleanup)
    ensures SettleCleanup(db, p, deleted) == db.(cleanup := SettleCleanup(db, p, deleted).cleanup)
  {
    hide Outstanding;
  }

  lemma CleaningNext(w: World, e: Event)
    requires Enabled(w, e)
    requires e.CleanStart? || e.CleanNext? || e.CleanDelete? || e.CleanSettle?
    ensures Next(w, e).db == w.db.(cleanup := Next(w, e).db.cleanup)
  {
    if e.CleanStart? {
      AtIs(w, w.db, e.now);
    } else if e.CleanNext? {
      var p := w.cleaning[e.loop].todo[0].0;
      CleaningTables(w.db, p, Deleting, true);
      AtIs(w, MarkCleanup(w.db, p, Deleting), w.clock);
    } else if e.CleanSettle? {
      var p := w.cleaning[e.loop].current.value;
      CleaningTables(w.db, p, Deleting, e.deleted);
      AtIs(w, SettleCleanup(w.db, p, e.deleted), w.clock);
    }
    hide MarkCleanup; hide InTime;
    hide At; hide Due; hide Covers; hide SettleCleanup; hide CommitStep; hide CompleteAskStep; hide PutCheckStep; hide PutBeginStep;
  }

  lemma CommitNext(w: World, e: Event)
    requires Enabled(w, e) && e.CompleteCommits?
    ensures e.req in w.completing && w.completing[e.req].result.Finished? && w.clock <= e.now
    ensures Next(w, e) == CommitStep(w, e.req, e.now)
    ensures var c := w.completing[e.req];
      Raises(w, e) == CompleteCommit(w.db, c.id, c.lease, c.result, c.files, AllSeen(c), c.now, e.now).Throw?
  {
    hide CompleteCommit; hide AllSeen;
    hide At; hide Retire; hide ClaimVerdict; hide CreateJob; hide QueueReview; hide SetOverride; hide DeleteJob;
    hide CompleteAskStep; hide CommitStep; hide PutCheckStep; hide PutBeginStep; hide LateIsSafe; hide Due; hide Covers;
    hide GrantClaim; hide Progress; hide FailTask; hide SweepRow; hide Forget; hide SettleCleanup; hide QueuedBefore;
    hide IsHighest; hide Held;
  }

  lemma CommitClock(w: World, req: string, now: int)
    requires req in w.completing && w.completing[req].result.Finished?
    ensures CommitStep(w, req, now).clock == now
  {
    var c := w.completing[req];
    AtIs(w, CompleteCommit(w.db, c.id, c.lease, c.result, c.files, AllSeen(c), c.now, now).db, now);
    hide CompleteCommit; hide AllSeen; hide Publishes; hide At; hide Held;
  }

  lemma NotYetRegistered(w: World, token: string)
    requires Inv(w) && token in w.putting && !w.putting[token].begun
    ensures OfArtifact(token) !in w.db.writes
  {
    InvParts(w);
    hide Inv;
  }

  lemma PutBeginNext(w: World, token: string, now: int)
    requires Enabled(w, PutBegin(token, now))
    ensures w.clock <= now && token in w.putting && !w.putting[token].begun
    ensures Next(w, PutBegin(token, now)) == PutBeginStep(w, token, now)
    ensures var p := w.putting[token];
      Raises(w, PutBegin(token, now)) == (BeginArtifactUpload(w.db, p.id, p.lease, token, now).Throw? || OfArtifact(token) in w.db.writes)
  {
    hide BeginArtifactUpload;
    hide At; hide Retire; hide ClaimVerdict; hide CreateJob; hide QueueReview; hide SetOverride; hide DeleteJob;
    hide CompleteAskStep; hide CommitStep; hide PutCheckStep; hide PutBeginStep; hide LateIsSafe; hide Due; hide Covers;
    hide GrantClaim; hide Progress; hide FailTask; hide SweepRow; hide Forget; hide SettleCleanup; hide QueuedBefore;
    hide IsHighest; hide Held;
  }

  lemma AtIs(w: World, db: Db, now: int)
    ensures At(w, db, now).db == db && At(w, db, now).clock == now
  {
  }

  lemma PutBeginClock(w: World, token: string, now: int)
    requires token in w.putting
    ensures PutBeginStep(w, token, now).clock == now
  {
    var p := w.putting[token];
    AtIs(w, BeginArtifactUpload(w.db, p.id, p.lease, token, now).db, now);
    hide BeginArtifactUpload; hide At;
  }

  lemma OnPutStore(w: World, token: string)
    requires Inv(w) && Enabled(w, PutStore(token)) && Slice(w, w.putting[token].id)
    ensures Inv(Next(w, PutStore(token))) && Moves(w, Next(w, PutStore(token))) && !Raises(w, PutStore(token))
  {
    hide Slice; hide Inv; hide PutIfAbsent; hide Moves;
    PutStoreKeeps(w, Next(w, PutStore(token)), token);
  }

  lemma OnPutEnd(w: World, token: string, now: int)
    requires Inv(w) && Enabled(w, PutEnd(token, now)) && Slice(w, w.putting[token].id)
    ensures Inv(Next(w, PutEnd(token, now))) && Moves(w, Next(w, PutEnd(token, now))) && !Raises(w, PutEnd(token, now))
  {
    hide Slice; hide Inv; hide EndArtifactUpload; hide Held; hide Moves;
    PutEndKeeps(w, Next(w, PutEnd(token, now)), token);
  }

  lemma OnCleanStart(w: World, loop: string, todo: seq<(Prefix, RetentionState)>, now: int)
    requires Inv(w) && Enabled(w, CleanStart(loop, todo, now))
    ensures Inv(Next(w, CleanStart(loop, todo, now))) && Moves(w, Next(w, CleanStart(loop, todo, now)))
    ensures !Raises(w, CleanStart(loop, todo, now))
  {
    InvParts(w);
    hide Inv; hide AdmissionKept; hide Moves;
    CleanStartKeeps(w, Next(w, CleanStart(loop, todo, now)), loop, todo);
  }

  lemma OnCleanNext(w: World, loop: string)
    requires Inv(w) && Enabled(w, CleanNext(loop))
    ensures Inv(Next(w, CleanNext(loop))) && Moves(w, Next(w, CleanNext(loop))) && !Raises(w, CleanNext(loop))
  {
    InvParts(w);
    hide Inv; hide AdmissionKept; hide Moves;
    CleanNextKeeps(w, Next(w, CleanNext(loop)), loop);
  }

  lemma OnCleanDelete(w: World, loop: string, keys: set<Key>)
    requires Inv(w) && Enabled(w, CleanDelete(loop, keys))
    ensures Inv(Next(w, CleanDelete(loop, keys))) && Moves(w, Next(w, CleanDelete(loop, keys))) && !Raises(w, CleanDelete(loop, keys))
  {
    SliceOf(w, w.cleaning[loop].current.value.id);
    InvParts(w);
    hide Slice; hide Inv; hide AdmissionKept; hide Moves;
    CleanDeleteKeeps(w, Next(w, CleanDelete(loop, keys)), w.cleaning[loop].current.value, keys);
  }

  lemma OnCleanSettle(w: World, loop: string, deleted: bool)
    requires Inv(w) && Enabled(w, CleanSettle(loop, deleted))
    ensures Inv(Next(w, CleanSettle(loop, deleted))) && Moves(w, Next(w, CleanSettle(loop, deleted)))
    ensures !Raises(w, CleanSettle(loop, deleted))
  {
    InvParts(w);
    hide Inv; hide AdmissionKept; hide Moves;
    CleanSettleKeeps(w, Next(w, CleanSettle(loop, deleted)), loop, deleted);
  }

  lemma OthersAreInTime(w: World, e: Event)
    requires Enabled(w, e)
    ensures !Renews(e) ==> LateBy(w, e) == {}
    ensures Renews(e) <==> e.RenewBy? || e.ProgressBy? || e.PutCheck?
    ensures !e.MarkStored? && !e.Create? ==> !OutOfOrder(w, e)
  {
    hide Held; hide LateOf; hide LateIsSafe;
  }

  lemma UploadKeeps(w: World, e: Event)
    requires Inv(w) && Enabled(w, e)
    requires e.Reserve? || e.InputPut? || e.MarkStored? || e.Create? || e.Abandon? || e.Expire? || e.Delete? || e.Retain?
    ensures Inv(Next(w, e)) && Moves(w, Next(w, e)) && (Raises(w, e) <==> OutOfOrder(w, e))
  {
    hide *;
    OthersAreInTime(w, e);
    SliceOf(w, e.id);
    match e
    case Reserve(_, _) => OnInput(w, e);
    case InputPut(_, _) => OnInput(w, e);
    case MarkStored(id) => OnMarkStored(w, id);
    case Create(id, owner, jwt, exp, now) => OnCreate(w, id, owner, jwt, exp, now);
    case Abandon(id, now) =>
      UploadNext(w, e);
      AbandonStep(w, Next(w, e), id, now);
    case Expire(id, now) =>
      UploadNext(w, e);
      ExpireStep(w, Next(w, e), id, now);
    case Delete(owner, id, now) => OnDelete(w, owner, id, now);
    case Retain(id, now) => OnRetain(w, id, now);
  }

  lemma TaskKeeps(w: World, e: Event)
    requires Inv(w) && Enabled(w, e)
    requires e.Override? || e.AskReview? || e.ClaimRetire? || e.ClaimGrant? || e.CompleteAsk?
    ensures Inv(Next(w, e)) && Moves(w, Next(w, e)) && !Raises(w, e)
  {
    hide *;
    SliceOf(w, e.id);
    match e
    case Override(owner, id, kind, item, now) =>
      PersonNext(w, e);
      if Owned(w.db, owner, id) {
        OverrideStep(w, Next(w, e), owner, id, kind, item, now);
      } else {
        UnownedStays(w.db, owner, id, kind, item, now);
        TimePasses(w, Next(w, e), now);
      }
    case AskReview(owner, id, action, jwt, exp, now) =>
      PersonNext(w, e);
      ReviewStep(w, Next(w, e), owner, id, action, jwt, exp, now);
    case ClaimRetire(id, now) =>
      ClaimRetireNext(w, id, now);
      RetireNext(w, Next(w, e), id, now);
    case ClaimGrant(id, lease, highest, now) =>
      ClaimGrantNext(w, id, lease, highest, now);
      GrantedIsNew(w.db, id, highest);
      GrantedClock(w, id, lease, highest, now);
      ClaimKeeps(w, Next(w, e), id, lease, highest);
    case CompleteAsk(req, id, lease, result, now) => OnCompleteAsk(w, req, id, lease, result, now);
  }

  lemma LeaseKeeps(w: World, e: Event)
    requires Inv(w) && Enabled(w, e)
    requires e.RenewBy? || e.ProgressBy? || e.FailBy? || e.Sweep? || e.PutCheck?
    ensures Inv(Next(w, e)) && Moves(w, Next(w, e), LateBy(w, e)) && !Raises(w, e)
  {
    hide *;
    SliceOf(w, e.id);
    RunnerNext(w, e);
    RenewsMeans(e);
    match e
    case RenewBy(id, lease, now) =>
      HeldRenews(w, id, lease, now);
      RenewByKeeps(w, Next(w, e), id, lease, now);
    case ProgressBy(id, lease, event, now) => ProgressKeeps(w, Next(w, e), id, lease, event, now);
    case FailBy(_, _, _, _) => OnFailBy(w, e);
    case Sweep(_, _) => OnFailBy(w, e);
    case PutCheck(token, id, lease, name, bytes, now) =>
      HeldRenews(w, id, lease, now);
      PutCheckKeeps(w, Next(w, e), token, id, lease, name, bytes, now);
  }

  lemma CleaningKeeps(w: World, e: Event)
    requires Inv(w) && Enabled(w, e)
    requires e.CleanStart? || e.CleanNext? || e.CleanDelete? || e.CleanSettle?
    ensures Inv(Next(w, e)) && Moves(w, Next(w, e)) && !Raises(w, e)
  {
    hide *;
    match e
    case CleanStart(loop, todo, now) => OnCleanStart(w, loop, todo, now);
    case CleanNext(loop) => OnCleanNext(w, loop);
    case CleanDelete(loop, keys) => OnCleanDelete(w, loop, keys);
    case CleanSettle(loop, deleted) => OnCleanSettle(w, loop, deleted);
  }

  /** The heart of the board: one inductive invariant, kept by every event, under which a guard raises
      exactly when an upload request leaves its own order. */
  lemma NextKeeps(w: World, e: Event)
    requires Inv(w) && Enabled(w, e)
    ensures Inv(Next(w, e)) && Moves(w, Next(w, e), LateBy(w, e)) && (Raises(w, e) <==> OutOfOrder(w, e))
  {
    hide *;
    OthersAreInTime(w, e);
    if e.Override? || e.AskReview? || e.ClaimRetire? || e.ClaimGrant? || e.CompleteAsk? {
      TaskKeeps(w, e);
    } else if e.RenewBy? || e.ProgressBy? || e.FailBy? || e.Sweep? || e.PutCheck? {
      LeaseKeeps(w, e);
    } else if e.CompleteHead? || e.CompleteCommits? || e.PutBegin? || e.PutStore? || e.PutEnd? {
      RequestKeeps(w, e);
    } else if e.CleanStart? || e.CleanNext? || e.CleanDelete? || e.CleanSettle? {
      CleaningKeeps(w, e);
    } else {
      UploadKeeps(w, e);
    }
  }

  lemma OnInput(w: World, e: Event)
    requires Inv(w) && Enabled(w, e) && (e.Reserve? || e.InputPut?) && Slice(w, e.id)
    ensures Inv(Next(w, e)) && Moves(w, Next(w, e)) && !Raises(w, e)
  {
    hide Slice; hide Inv; hide ReserveUpload;
    match e
    case Reserve(id, _) =>
      FreshIsUnknown(w, id);
      hide Unstarted;
      ReserveKeeps(w, Next(w, e), id);
    case InputPut(id, bytes) => InputPutKeeps(w, Next(w, e), id, bytes);
  }

  lemma OnRetain(w: World, id: Id, now: int)
    requires Inv(w) && Slice(w, id) && Enabled(w, Retain(id, now))
    ensures Inv(Next(w, Retain(id, now))) && Moves(w, Next(w, Retain(id, now))) && !Raises(w, Retain(id, now))
  {
    hide Slice; hide Inv; hide Forget;
    ForgetKeeps(w, Next(w, Retain(id, now)), id);
  }

  lemma RequestNames(w: World, e: Event)
    requires Enabled(w, e)
    ensures e.CompleteHead? ==> e.req in w.completing
    ensures e.PutStore? || e.PutEnd? ==> e.token in w.putting
  {
    hide InTime;
  }

  lemma RequestKeeps(w: World, e: Event)
    requires Inv(w) && Enabled(w, e)
    requires e.CompleteHead? || e.CompleteCommits? || e.PutBegin? || e.PutStore? || e.PutEnd?
    ensures Inv(Next(w, e)) && Moves(w, Next(w, e)) && !Raises(w, e)
  {
    hide *;
    RequestNames(w, e);
    match e
    case CompleteHead(req, name) =>
      SliceOf(w, w.completing[req].id);
      InvParts(w);
      CondemnedAll(w);
      HeadNext(w, req, name);
      CompleteHeadKeeps(w, Next(w, e), req, name);
    case CompleteCommits(req, now) =>
      CommitNext(w, e);
      SliceOf(w, w.completing[req].id);
      CommitClock(w, req, now);
      CommitKeeps(w, Next(w, e), req);
    case PutBegin(token, now) =>
      PutBeginNext(w, token, now);
      SliceOf(w, w.putting[token].id);
      PutBeginClock(w, token, now);
      NotYetRegistered(w, token);
      PutBeginKeeps(w, Next(w, e), token);
    case PutStore(token) =>
      SliceOf(w, w.putting[token].id);
      OnPutStore(w, token);
    case PutEnd(token, now) =>
      SliceOf(w, w.putting[token].id);
      OnPutEnd(w, token, now);
  }
}
