/** The few shapes an event's effect on a job has, each shown to keep the invariant. */
module Shapes {
  import opened Wrappers
  import opened Contract
  import opened Steps
  import opened Lifecycles
  import opened Credential
  import opened Keys
  import opened BoardTables
  import opened BoardRows
  import opened World
  import opened Invariant
  import opened Frames

  // ---------------------------------------------------------------- admission

  lemma Smaller<T>(a: set<T>, b: set<T>)
    requires a <= b
    ensures |a| <= |b|
  {
    assert b == a + (b - a);
  }

  /** No process tasks that were not there before: both limits still hold. */
  lemma FewerProcesses(a: map<Id, Job>, b: map<Id, Job>)
    requires AdmissionKept(a)
    requires forall id | id in b && IsKind(b[id], Process) ::
               id in a && IsKind(a[id], Process) && a[id].owner == b[id].owner
    ensures AdmissionKept(b)
  {
    Smaller(ProcessAll(b), ProcessAll(a));
    forall owner ensures |ProcessOf(b, owner)| <= ACTIVE_PER_PERSON {
      Smaller(ProcessOf(b, owner), ProcessOf(a, owner));
    }
  }

  // ---------------------------------------------------------------- a row changes, its task does not

  ghost predicate OverlayGrows(j: Job, k: Job) {
    && k.syncedVersion == j.syncedVersion
    && k.overridesVersion >= j.overridesVersion
    && (forall kind: ItemKind, item | item in j.overrides.Of(kind) ::
          item in k.overrides.Of(kind) && k.overrides.Of(kind)[item] >= j.overrides.Of(kind)[item])
    && (forall kind: ItemKind, item | item in k.overrides.Of(kind) && k.overrides.Of(kind)[item] <= j.overridesVersion ::
          item in j.overrides.Of(kind) && j.overrides.Of(kind)[item] == k.overrides.Of(kind)[item])
  }

  /** The task's identity, the pointer and the stored decisions survive; a lapsed lease stays lapsed
      unless a late call renews it. */
  ghost predicate SameTask(j: Job, k: Job, now: int, late: set<Lease> := {}) {
    && RowInv(k) && PipelineRow(k)
    && k.rev == j.rev && k.files == j.files && k.hasState == j.hasState && k.owner == j.owner
    && (IsClaimed(j) <==> IsClaimed(k)) && k.lease == j.lease && k.nextRev == j.nextRev
    && k.deadline == j.deadline
    && (k.leaseExpires == j.leaseExpires || (j.lease.Some? && (Holds(j, j.lease.value, now) || j.lease.value in late)))
    && (IsKind(k, Process) ==> IsKind(j, Process))
    && OverlayGrows(j, k)
  }

  ghost function Touched(w: World, id: Id, k: Job, now: int, decisions: set<Decision>, rollback: map<Id, Prior>): World {
    At(w, PutJob(w.db, id, k), now).(decisions := decisions, rollback := rollback)
  }

  ghost predicate NewDecisionsLayered(w: World, k: Job, id: Id, decisions: set<Decision>) {
    forall d | d in decisions && d !in w.decisions ::
      d.id == id && d.version <= k.overridesVersion && Layered(k, d)
  }

  lemma TouchOthers(w: World, v: World, id: Id, k: Job)
    requires w.clock <= v.clock && CleaningKept(w)
    requires v == Touched(w, id, k, v.clock, v.decisions, v.rollback)
    requires NewDecisionsLayered(w, k, id, v.decisions) && w.decisions <= v.decisions
    requires forall other | other != id :: SameAt(w.rollback, v.rollback, other)
    ensures v.condemned == w.condemned && CleaningKept(v)
    ensures forall other | other != id :: SameSlice(w, v, other)
  {
    assert v.condemned == w.condemned;
  }

  /** A staging revision already handed to cleanup is not brought back. */
  ghost predicate KeepsLapsed(w: World, id: Id, k: Job, now: int) {
    k.nextRev.Some? && RevPrefix(id, k.nextRev.value) in w.condemned ==> Lapsed(k, now)
  }

  lemma TouchTables(w: World, v: World, id: Id, k: Job, late: set<Lease>)
    requires id in w.db.jobs && SameTask(w.db.jobs[id], k, v.clock, late) && w.clock <= v.clock
    requires late == {} || KeepsLapsed(w, id, k, v.clock)
    requires v == Touched(w, id, k, v.clock, v.decisions, v.rollback) && v.condemned == w.condemned
    requires RevisionsOf(w, id) && ReceiptsOf(w, id) && CondemnedOf(w, id) && WritesOf(w, id) && UploadOf(w, id)
    requires RowOf(w, id)
    ensures RevisionsOf(v, id) && ReceiptsOf(v, id) && CondemnedOf(v, id) && WritesOf(v, id) && UploadOf(v, id)
    ensures RowOf(v, id) && PipelineOf(v, id)
  {
    hide OverlayGrows;
    hide PipelineRow;
    hide OverlayRow;
    forall rev: nat | (id, rev) in v.db.attempts ensures RevisionAccounted(v, id, rev) {
      assert RevisionAccounted(w, id, rev);
    }
  }

  lemma TouchStore(w: World, v: World, id: Id, k: Job)
    requires id in w.db.jobs && k.rev == w.db.jobs[id].rev && k.files == w.db.jobs[id].files && w.clock <= v.clock
    requires v == Touched(w, id, k, v.clock, v.decisions, v.rollback) && v.condemned == w.condemned
    requires StoreOf(w, id) && CompletingOf(w, id)
    ensures StoreOf(v, id) && CompletingOf(v, id)
  {
    hide Intact; hide ValidSteps;
  }

  lemma TouchDecisions(w: World, v: World, id: Id, k: Job, late: set<Lease>)
    requires id in w.db.jobs && SameTask(w.db.jobs[id], k, v.clock, late)
    requires v == Touched(w, id, k, v.clock, v.decisions, v.rollback)
    requires NewDecisionsLayered(w, k, id, v.decisions) && w.decisions <= v.decisions
    requires DecisionsOf(w, id)
    ensures DecisionsOf(v, id)
  {
    hide RowInv;
    hide PipelineRow;
    var j := w.db.jobs[id];
    if IsClaimed(k) {
      OverlayGrowsFits(j, k, w.tickets[k.lease.value]);
    }
    forall d | d in v.decisions && d.id == id
      ensures d.version <= k.overridesVersion && (Layered(k, d) || Rendered(v, d))
    {
      if d in w.decisions && Rendered(w, d) {
        var rev: nat :| RenderedAt(w, d, rev);
        assert RenderedAt(v, d, rev);
      }
    }
  }

  lemma OverlayGrowsFits(j: Job, k: Job, t: Ticket)
    requires OverlayGrows(j, k) && SnapshotFits(j, t)
    ensures SnapshotFits(k, t)
  {
  }

  lemma TouchKeeps(w: World, v: World, id: Id, k: Job, late: set<Lease>)
    requires Inv(w) && w.clock <= v.clock && id in w.db.jobs && SameTask(w.db.jobs[id], k, v.clock, late)
    requires late == {} || KeepsLapsed(w, id, k, v.clock)
    requires v == Touched(w, id, k, v.clock, v.decisions, v.rollback)
    requires NewDecisionsLayered(w, k, id, v.decisions) && w.decisions <= v.decisions
    requires forall other | other != id :: SameAt(w.rollback, v.rollback, other)
    requires RollbackOf(v, id)
    ensures Inv(v) && Moves(w, v, late)
  {
    assert Slice(w, id);
    assert AdmissionKept(v.db.jobs) by {
      hide Slice;
      FewerProcesses(w.db.jobs, v.db.jobs);
    }
    hide *;
    TouchFinal(w, v, id, k, late);
  }

  lemma TouchMoves(w: World, v: World, id: Id, k: Job, late: set<Lease>)
    requires id in w.db.jobs && w.clock <= v.clock && SameTask(w.db.jobs[id], k, v.clock, late) && w.decisions <= v.decisions
    requires v == Touched(w, id, k, v.clock, v.decisions, v.rollback)
    ensures Moves(w, v, late)
  {
    hide RowInv; hide PipelineRow;
  }

  lemma SameTaskKeepsPointer(j: Job, k: Job, now: int, late: set<Lease>)
    requires SameTask(j, k, now, late)
    ensures k.rev == j.rev && k.files == j.files
  {
    hide RowInv; hide PipelineRow; hide OverlayGrows;
  }

  lemma TouchFinal(w: World, v: World, id: Id, k: Job, late: set<Lease>)
    requires Inv(w) && Slice(w, id) && w.clock <= v.clock && id in w.db.jobs && SameTask(w.db.jobs[id], k, v.clock, late)
    requires late == {} || KeepsLapsed(w, id, k, v.clock)
    requires v == Touched(w, id, k, v.clock, v.decisions, v.rollback)
    requires NewDecisionsLayered(w, k, id, v.decisions) && w.decisions <= v.decisions
    requires forall other | other != id :: SameAt(w.rollback, v.rollback, other)
    requires RollbackOf(v, id) && AdmissionKept(v.db.jobs)
    ensures Inv(v) && Moves(w, v, late)
  {
    hide RowOf; hide PipelineOf; hide RevisionsOf; hide ReceiptsOf; hide CondemnedOf; hide WritesOf;
    hide UploadOf; hide StoreOf; hide CompletingOf; hide DecisionsOf; hide RollbackOf; hide SameSlice;
    hide CleaningKept; hide AdmissionKept; hide SameTask; hide NewDecisionsLayered; hide Touched; hide Moves; hide KeepsLapsed;
    TouchMoves(w, v, id, k, late);
    TouchOthers(w, v, id, k);
    TouchTables(w, v, id, k, late);
    SameTaskKeepsPointer(w.db.jobs[id], k, v.clock, late);
    TouchStore(w, v, id, k);
    TouchDecisions(w, v, id, k, late);
    OnlyOneChanged(w, v, id);
  }

  // ---------------------------------------------------------------- a task lets go of its revision

  /** The row no longer holds a lease; pointer, files and decisions survive. */
  ghost predicate LetsGo(j: Job, k: Job) {
    && RowInv(k) && PipelineRow(k)
    && k.rev == j.rev && k.files == j.files && k.hasState == j.hasState && k.owner == j.owner
    && !IsClaimed(k) && k.lease == None && k.nextRev == None
    && (IsKind(k, Process) ==> IsKind(j, Process))
    && OverlayGrows(j, k)
  }

  function CleanupWith(cleanup: map<Prefix, Cleanup>, p: Prefix, notBefore: int): map<Prefix, Cleanup> {
    if p in cleanup then cleanup else cleanup[p := Cleanup(DeletionRequested, notBefore)]
  }

  function Receipts(db: Db, id: Id, lease: Lease, receipt: Option<CompleteRequest>): map<(Id, Lease), CompleteRequest> {
    if receipt.Some? then db.completions[(id, lease) := receipt.value] else db.completions
  }

  /** The staging revision is abandoned and condemned, with or without a receipt for its lease. */
  function LetGoDb(db: Db, id: Id, k: Job, now: int, receipt: Option<CompleteRequest>): Db
    requires id in db.jobs && db.jobs[id].lease.Some? && db.jobs[id].nextRev.Some?
  {
    var lease, rev := db.jobs[id].lease.value, db.jobs[id].nextRev.value;
    Db(db.jobs[id := k], Receipts(db, id, lease, receipt), db.attempts[(id, rev) := Attempt(lease, Abandoned)],
       CleanupWith(db.cleanup, RevPrefix(id, rev), now + GRACE_MS), db.uploads, db.writes)
  }

  ghost function LetGo(w: World, id: Id, k: Job, now: int, receipt: Option<CompleteRequest>): World
    requires id in w.db.jobs && w.db.jobs[id].lease.Some? && w.db.jobs[id].nextRev.Some?
  {
    At(w, LetGoDb(w.db, id, k, now, receipt), now)
  }

  lemma LetGoIs(db: Db, id: Id, k: Job, now: int, receipt: Option<CompleteRequest>)
    requires id in db.jobs && db.jobs[id].lease.Some? && StagingHere(db, id)
    requires db.attempts[(id, db.jobs[id].nextRev.value)].lease == db.jobs[id].lease.value
    ensures receipt == None ==> PutJob(WithoutStaging(db, id, now), id, k) == LetGoDb(db, id, k, now, receipt)
    ensures receipt.Some? ==>
              var put := db.(completions := db.completions[(id, db.jobs[id].lease.value) := receipt.value]);
              PutJob(WithoutStaging(put, id, now), id, k) == LetGoDb(db, id, k, now, receipt)
  {
  }

  lemma LetGoOtherTables(db: Db, id: Id, k: Job, now: int, receipt: Option<CompleteRequest>, other: Id)
    requires id in db.jobs && db.jobs[id].lease.Some? && db.jobs[id].nextRev.Some? && other != id
    ensures var after := LetGoDb(db, id, k, now, receipt); SameTables(db, after, other) && after.writes == db.writes
  {
    assert forall r: nat :: (other, r) != (id, db.jobs[id].nextRev.value);
    assert forall l: Lease :: (other, l) != (id, db.jobs[id].lease.value);
  }

  lemma LetGoCleaning(w: World, v: World, id: Id, k: Job, receipt: Option<CompleteRequest>)
    requires id in w.db.jobs && w.db.jobs[id].lease.Some? && w.db.jobs[id].nextRev.Some?
    requires CleaningKept(w) && v == LetGo(w, id, k, v.clock, receipt)
    ensures v.condemned == w.condemned + {RevPrefix(id, w.db.jobs[id].nextRev.value)} && CleaningKept(v)
  {
    assert v.condemned == w.condemned + {RevPrefix(id, w.db.jobs[id].nextRev.value)};
  }

  lemma LetGoOthers(w: World, v: World, id: Id, k: Job, receipt: Option<CompleteRequest>)
    requires id in w.db.jobs && w.db.jobs[id].lease.Some? && w.db.jobs[id].nextRev.Some?
    requires w.clock <= v.clock && CleaningKept(w)
    requires v == LetGo(w, id, k, v.clock, receipt)
    ensures v.condemned == w.condemned + {RevPrefix(id, w.db.jobs[id].nextRev.value)}
    ensures CleaningKept(v)
    ensures forall other | other != id :: SameSlice(w, v, other)
  {
    LetGoCleaning(w, v, id, k, receipt);
    hide CleaningKept; hide LetGoDb;
    forall other | other != id ensures SameSlice(w, v, other) {
      LetGoOtherTables(w.db, id, k, v.clock, receipt, other);
      hide SameTables;
      assert SameHistory(w, v, other);
    }
  }

  lemma LetGoTables(w: World, v: World, id: Id, k: Job, receipt: Option<CompleteRequest>)
    requires id in w.db.jobs && IsClaimed(w.db.jobs[id]) && LetsGo(w.db.jobs[id], k) && w.clock <= v.clock
    requires w.db.jobs[id].lease.Some? && w.db.jobs[id].nextRev.Some?
    requires v == LetGo(w, id, k, v.clock, receipt)
    requires v.condemned == w.condemned + {RevPrefix(id, w.db.jobs[id].nextRev.value)}
    requires RowOf(w, id) && RevisionsOf(w, id) && ReceiptsOf(w, id) && CondemnedOf(w, id) && WritesOf(w, id) && UploadOf(w, id)
    ensures RevisionsOf(v, id) && ReceiptsOf(v, id) && CondemnedOf(v, id) && WritesOf(v, id) && UploadOf(v, id)
    ensures RowOf(v, id) && PipelineOf(v, id)
  {
    hide OverlayGrows;
    hide PipelineRow;
    hide RowInv;
    var j := w.db.jobs[id];
    LetGoRevisions(w, v, id, k, receipt);
    assert WritesOf(v, id);
    assert UploadOf(v, id);
  }

  lemma LetGoRevisions(w: World, v: World, id: Id, k: Job, receipt: Option<CompleteRequest>)
    requires id in w.db.jobs && IsClaimed(w.db.jobs[id]) && LetsGo(w.db.jobs[id], k) && w.clock <= v.clock
    requires w.db.jobs[id].lease.Some? && w.db.jobs[id].nextRev.Some?
    requires v == LetGo(w, id, k, v.clock, receipt)
    requires v.condemned == w.condemned + {RevPrefix(id, w.db.jobs[id].nextRev.value)}
    requires RowOf(w, id) && RevisionsOf(w, id) && ReceiptsOf(w, id) && CondemnedOf(w, id) && UploadOf(w, id)
    ensures RevisionsOf(v, id) && ReceiptsOf(v, id) && CondemnedOf(v, id)
  {
    hide OverlayGrows;
    hide PipelineRow;
    hide RowInv;
    var j := w.db.jobs[id];
    forall rev: nat | (id, rev) in v.db.attempts ensures RevisionAccounted(v, id, rev) {
      assert RevisionAccounted(w, id, rev);
    }
    assert ReceiptsOf(v, id);
    assert CondemnedOf(v, id);
  }

  lemma LetGoStore(w: World, v: World, id: Id, k: Job, receipt: Option<CompleteRequest>)
    requires id in w.db.jobs && IsClaimed(w.db.jobs[id]) && LetsGo(w.db.jobs[id], k) && w.clock <= v.clock
    requires w.db.jobs[id].lease.Some? && w.db.jobs[id].nextRev.Some?
    requires v == LetGo(w, id, k, v.clock, receipt)
    requires v.condemned == w.condemned + {RevPrefix(id, w.db.jobs[id].nextRev.value)}
    requires StoreOf(w, id) && CompletingOf(w, id) && CondemnedOf(w, id)
    ensures StoreOf(v, id) && CompletingOf(v, id)
  {
    hide OverlayGrows;
    hide PipelineRow;
    hide RowInv;
  }

  lemma LetGoDecisions(w: World, v: World, id: Id, k: Job, receipt: Option<CompleteRequest>)
    requires id in w.db.jobs && IsClaimed(w.db.jobs[id]) && LetsGo(w.db.jobs[id], k)
    requires w.db.jobs[id].lease.Some? && w.db.jobs[id].nextRev.Some?
    requires v == LetGo(w, id, k, v.clock, receipt)
    requires DecisionsOf(w, id) && RevisionsOf(w, id)
    ensures DecisionsOf(v, id)
  {
    hide RowInv;
    hide PipelineRow;
    forall d | d in v.decisions && d.id == id
      ensures d.version <= k.overridesVersion && (Layered(k, d) || Rendered(v, d))
    {
      if Rendered(w, d) {
        var rev: nat :| RenderedAt(w, d, rev);
        assert RenderedAt(v, d, rev);
      }
    }
  }

  lemma LetGoMoves(w: World, v: World, id: Id, k: Job, receipt: Option<CompleteRequest>)
    requires id in w.db.jobs && w.clock <= v.clock && LetsGo(w.db.jobs[id], k)
    requires w.db.jobs[id].lease.Some? && w.db.jobs[id].nextRev.Some?
    requires receipt.Some? ==>
               Held(w.db, id, w.db.jobs[id].lease.value, v.clock) && (id, w.db.jobs[id].lease.value) !in w.db.completions
    requires v == LetGo(w, id, k, v.clock, receipt)
    ensures Moves(w, v)
  {
    hide RowInv; hide PipelineRow;
  }

  lemma LetGoKeeps(w: World, v: World, id: Id, k: Job, receipt: Option<CompleteRequest>)
    requires Inv(w) && Slice(w, id) && w.clock <= v.clock
    requires id in w.db.jobs && IsClaimed(w.db.jobs[id]) && LetsGo(w.db.jobs[id], k)
    requires w.db.jobs[id].lease.Some? && w.db.jobs[id].nextRev.Some?
    requires receipt.Some? ==>
               Held(w.db, id, w.db.jobs[id].lease.value, v.clock) && (id, w.db.jobs[id].lease.value) !in w.db.completions
    requires v == LetGo(w, id, k, v.clock, receipt)
    requires RollbackOf(v, id) && AdmissionKept(v.db.jobs)
    ensures Inv(v) && Moves(w, v)
  {
    hide RowOf; hide PipelineOf; hide RevisionsOf; hide ReceiptsOf; hide CondemnedOf; hide WritesOf;
    hide UploadOf; hide StoreOf; hide CompletingOf; hide DecisionsOf; hide RollbackOf; hide SameSlice;
    hide CleaningKept; hide AdmissionKept; hide LetsGo; hide LetGo; hide Moves;
    LetGoMoves(w, v, id, k, receipt);
    LetGoOthers(w, v, id, k, receipt);
    LetGoTables(w, v, id, k, receipt);
    LetGoStore(w, v, id, k, receipt);
    LetGoDecisions(w, v, id, k, receipt);
    OnlyOneChanged(w, v, id);
  }

  // ---------------------------------------------------------------- publication

  /** The row a publication leaves: the pointer moves to the staging revision. */
  ghost predicate Publishing(j: Job, k: Job, c: Completing) {
    && RowInv(k) && PipelineRow(k)
    && Some(k.rev) == j.nextRev && k.files == c.files && k.owner == j.owner
    && !IsClaimed(k) && k.lease == None && k.nextRev == None
    && (IsKind(k, Process) ==> IsKind(j, Process))
    && k.overridesVersion == j.overridesVersion && k.syncedVersion >= j.syncedVersion && k.rev > j.rev
    && forall kind: ItemKind, item | item in j.overrides.Of(kind) && j.overrides.Of(kind)[item] > c.result.overridesVersion ::
         item in k.overrides.Of(kind) && k.overrides.Of(kind)[item] == j.overrides.Of(kind)[item]
  }

  /** The tables after a publication: revision published, receipt stored, old pointer condemned. */
  function PublishedDb(db: Db, id: Id, k: Job, c: Completing): Db
    requires id in db.jobs && db.jobs[id].nextRev.Some?
  {
    var j := db.jobs[id];
    Db(db.jobs[id := k],
       db.completions[(id, c.lease) := c.result],
       db.attempts[(id, j.nextRev.value) := Attempt(c.lease, Published)],
       if j.rev > 0 then CleanupWith(db.cleanup, RevPrefix(id, j.rev), c.now + GRACE_MS) else db.cleanup,
       db.uploads, db.writes)
  }

  function Verified(c: Completing): map<string, Bytes>
    requires AllSeen(c)
  {
    map name | name in c.files :: c.seen[name]
  }

  /** The commit of the waiting request `req`, which still holds the lease it was opened with. */
  ghost predicate PublishedBy(w: World, v: World, req: string, k: Job) {
    && req in w.completing && w.clock <= v.clock
    && var c := w.completing[req];
    && c.id in w.db.jobs && Holds(w.db.jobs[c.id], c.lease, v.clock) && AllSeen(c)
    && w.db.jobs[c.id].nextRev == Some(c.rev)
    && v == At(w, PublishedDb(w.db, c.id, k, c), v.clock).(
              completing := w.completing - {req},
              verified := w.verified[(c.id, c.rev) := Verified(c)],
              rollback := v.rollback)
    && (forall other | other != c.id :: SameAt(w.rollback, v.rollback, other))
  }

  /** The old pointer's prefix, when there was one. */
  function Superseded(w: World, c: Completing): set<Prefix>
    requires c.id in w.db.jobs
  {
    if w.db.jobs[c.id].rev > 0 then {RevPrefix(c.id, w.db.jobs[c.id].rev)} else {}
  }

  lemma PublishCondemns(w: World, v: World, req: string, k: Job)
    requires PublishedBy(w, v, req, k) && CleaningKept(w)
    ensures v.condemned == w.condemned + Superseded(w, w.completing[req])
    ensures CleaningKept(v)
  {
  }

  lemma PublishOthers(w: World, v: World, req: string, k: Job)
    requires PublishedBy(w, v, req, k) && v.condemned == w.condemned + Superseded(w, w.completing[req])
    ensures forall other | other != w.completing[req].id :: SameSlice(w, v, other)
  {
    var c := w.completing[req];
    forall other | other != c.id ensures SameSlice(w, v, other) {
      PublishTables(w.db, c, k, other);
      assert w.clock <= v.clock && v.db == PublishedDb(w.db, c.id, k, c);
      hide PublishedDb; hide SameTables;
      assert SameFiles(w, v, other) by {
        assert forall r: nat :: (other, r) != (c.id, c.rev);
      }
      assert SameHistory(w, v, other);
      PublishRequests(w, v, req, other);
    }
  }

  lemma PublishTables(db: Db, c: Completing, k: Job, other: Id)
    requires c.id in db.jobs && db.jobs[c.id].nextRev.Some? && other != c.id
    ensures SameTables(db, PublishedDb(db, c.id, k, c), other) && PublishedDb(db, c.id, k, c).writes == db.writes
  {
    assert forall r: nat :: (other, r) != (c.id, db.jobs[c.id].nextRev.value);
    assert forall l: Lease :: (other, l) != (c.id, c.lease);
  }

  lemma PublishRequests(w: World, v: World, req: string, other: Id)
    requires v.putting == w.putting && v.completing == w.completing - {req} && v.db.writes == w.db.writes
    ensures SameRequests(w, v, other)
  {
  }

  lemma PublishRevisions(w: World, v: World, req: string, k: Job)
    requires PublishedBy(w, v, req, k) && v.condemned == w.condemned + Superseded(w, w.completing[req])
    requires var c := w.completing[req]; Publishing(w.db.jobs[c.id], k, c)
    requires var id := w.completing[req].id;
      RowOf(w, id) && RevisionsOf(w, id) && ReceiptsOf(w, id) && CondemnedOf(w, id) && UploadOf(w, id)
    ensures var id := w.completing[req].id; RevisionsOf(v, id) && ReceiptsOf(v, id) && CondemnedOf(v, id)
  {
    hide PipelineRow;
    hide RowInv;
    var c := w.completing[req];
    var id := c.id;
    var j := w.db.jobs[id];
    assert (id, c.rev) in w.db.attempts && w.db.attempts[(id, c.rev)] == Attempt(c.lease, Staging);
    forall rev: nat | (id, rev) in v.db.attempts ensures RevisionAccounted(v, id, rev) {
      assert RevisionAccounted(w, id, rev);
    }
    assert ReceiptsOf(v, id);
    assert RevPrefix(id, c.rev) !in w.condemned;
    assert CondemnedOf(v, id);
  }

  lemma PublishRest(w: World, v: World, req: string, k: Job)
    requires PublishedBy(w, v, req, k) && v.condemned == w.condemned + Superseded(w, w.completing[req])
    requires var c := w.completing[req]; Publishing(w.db.jobs[c.id], k, c)
    requires var id := w.completing[req].id;
      WritesOf(w, id) && UploadOf(w, id) && StoreOf(w, id) && CompletingOf(w, id)
    requires var c := w.completing[req]; JobPrefix(c.id) !in w.condemned && RevPrefix(c.id, c.rev) !in w.condemned
    ensures var id := w.completing[req].id;
      RowOf(v, id) && PipelineOf(v, id) && WritesOf(v, id) && UploadOf(v, id) && StoreOf(v, id) && CompletingOf(v, id)
  {
    hide PipelineRow;
    hide RowInv;
    var c := w.completing[req];
    assert Intact(v.store, c.id, c.rev, Verified(c));
  }

  /** The revision about to be published was never handed to cleanup: its lease is held. */
  lemma HeldIsNotCondemned(w: World, id: Id, lease: Lease, rev: nat, now: int)
    requires Held(w.db, id, lease, now) && w.clock <= now && w.db.jobs[id].nextRev == Some(rev)
    requires RevisionsOf(w, id) && CondemnedOf(w, id)
    ensures JobPrefix(id) !in w.condemned && RevPrefix(id, rev) !in w.condemned
  {
    assert IsClaimed(w.db.jobs[id]);
  }

  lemma PublisherIsHeld(w: World, v: World, req: string, k: Job)
    requires PublishedBy(w, v, req, k)
    ensures var c := w.completing[req];
      Held(w.db, c.id, c.lease, v.clock) && w.clock <= v.clock && w.db.jobs[c.id].nextRev == Some(c.rev)
  {
    hide Holds;
  }

  lemma PublishDecisions(w: World, v: World, req: string, k: Job)
    requires PublishedBy(w, v, req, k)
    requires var c := w.completing[req]; Publishing(w.db.jobs[c.id], k, c)
    requires var id := w.completing[req].id; DecisionsOf(w, id) && RevisionsOf(w, id) && CompletingOf(w, id)
    ensures DecisionsOf(v, w.completing[req].id)
  {
    hide PipelineRow;
    hide RowInv;
    var c := w.completing[req];
    var id := c.id;
    var j := w.db.jobs[id];
    assert w.db.attempts[(id, c.rev)] == Attempt(c.lease, Staging);
    forall d | d in v.decisions && d.id == id
      ensures d.version <= k.overridesVersion && (Layered(k, d) || Rendered(v, d))
    {
      if Rendered(w, d) {
        var rev: nat :| RenderedAt(w, d, rev);
        assert RenderedAt(v, d, rev);
      } else if j.overrides.Of(d.kind)[d.item] <= c.result.overridesVersion {
        assert RenderedAt(v, d, c.rev);
      }
    }
  }

  lemma PublishMoves(w: World, v: World, req: string, k: Job)
    requires PublishedBy(w, v, req, k)
    requires var c := w.completing[req]; Publishing(w.db.jobs[c.id], k, c) && (c.id, c.lease) !in w.db.completions
    ensures Moves(w, v)
  {
    hide RowInv; hide PipelineRow;
  }

  lemma PublishKeeps(w: World, v: World, req: string, k: Job)
    requires Inv(w) && PublishedBy(w, v, req, k)
    requires var c := w.completing[req]; Publishing(w.db.jobs[c.id], k, c) && Slice(w, c.id) && RollbackOf(v, c.id)
    requires var c := w.completing[req]; (c.id, c.lease) !in w.db.completions
    requires AdmissionKept(v.db.jobs)
    ensures Inv(v) && Moves(w, v)
  {
    var id := w.completing[req].id;
    hide RowOf; hide PipelineOf; hide RevisionsOf; hide ReceiptsOf; hide CondemnedOf; hide WritesOf;
    hide UploadOf; hide StoreOf; hide CompletingOf; hide DecisionsOf; hide RollbackOf; hide SameSlice;
    hide CleaningKept; hide AdmissionKept; hide PublishedBy; hide Publishing; hide Moves;
    PublishMoves(w, v, req, k);
    PublishCondemns(w, v, req, k);
    PublishOthers(w, v, req, k);
    PublishRevisions(w, v, req, k);
    PublisherIsHeld(w, v, req, k);
    hide Held;
    HeldIsNotCondemned(w, id, w.completing[req].lease, w.completing[req].rev, v.clock);
    PublishRest(w, v, req, k);
    PublishDecisions(w, v, req, k);
    OnlyOneChanged(w, v, id);
  }

  // ---------------------------------------------------------------- claim

  ghost function Granted(w: World, id: Id, lease: Lease, highest: nat, now: int): World
    requires id in w.db.jobs
  {
    At(w, GrantClaim(w.db, id, lease, highest, now), now).(
      tickets := w.tickets[lease := Ticket(id, highest + 1, w.db.jobs[id].overridesVersion, w.db.jobs[id].overrides)])
  }

  lemma GrantOtherTables(db: Db, id: Id, lease: Lease, highest: nat, now: int, other: Id)
    requires id in db.jobs && other != id
    ensures var after := GrantClaim(db, id, lease, highest, now);
      SameTables(db, after, other) && after.writes == db.writes && after.cleanup == db.cleanup
  {
    assert forall r: nat :: (other, r) != (id, highest + 1);
    hide ClaimedRow;
  }

  lemma GrantCleanup(db: Db, id: Id, lease: Lease, highest: nat, now: int)
    requires id in db.jobs
    ensures var after := GrantClaim(db, id, lease, highest, now); after.cleanup == db.cleanup && after.writes == db.writes
  {
  }

  lemma GrantedOnly(w: World, v: World, id: Id, lease: Lease, highest: nat)
    requires id in w.db.jobs && lease !in w.tickets && CleaningKept(w)
    requires v == Granted(w, id, lease, highest, v.clock)
    ensures v == w.(db := GrantClaim(w.db, id, lease, highest, v.clock), clock := v.clock, tickets := v.tickets)
    ensures v.tickets.Keys == w.tickets.Keys + {lease} && v.tickets[lease].id == id
    ensures forall l | l in w.tickets :: v.tickets[l] == w.tickets[l]
  {
    GrantCleanup(w.db, id, lease, highest, v.clock);
    hide GrantClaim;
    assert v.condemned == w.condemned;
  }

  lemma GrantOthers(w: World, v: World, id: Id, lease: Lease, highest: nat)
    requires id in w.db.jobs && lease !in w.tickets && w.clock <= v.clock && CleaningKept(w)
    requires v == Granted(w, id, lease, highest, v.clock)
    ensures v.condemned == w.condemned && CleaningKept(v)
    ensures forall other | other != id :: SameSlice(w, v, other)
  {
    GrantedOnly(w, v, id, lease, highest);
    GrantCleanup(w.db, id, lease, highest, v.clock);
    hide GrantClaim; hide Granted;
    assert CleaningKept(v);
    hide CleaningKept;
    forall other | other != id ensures SameSlice(w, v, other) {
      GrantOtherTables(w.db, id, lease, highest, v.clock, other);
      hide SameTables;
      assert SameHistory(w, v, other) && SameFiles(w, v, other);
    }
  }

  /** The next revision is above everything the job was ever given. */
  lemma NextRevisionIsFree(w: World, id: Id, highest: nat)
    requires id in w.db.jobs && IsHighest(w.db, id, highest) && CondemnedOf(w, id)
    ensures (id, highest + 1) !in w.db.attempts && w.db.jobs[id].rev <= highest
    ensures RevPrefix(id, highest + 1) !in w.condemned
  {
    assert KnownRevision(w.db, id, w.db.jobs[id].rev);
    assert (id, highest + 1) in w.db.attempts ==> KnownRevision(w.db, id, highest + 1);
  }

  lemma GrantAccounted(w: World, v: World, id: Id, lease: Lease, highest: nat)
    requires id in w.db.jobs && lease !in w.tickets && (id, highest + 1) !in w.db.attempts
    requires v == Granted(w, id, lease, highest, v.clock) && v.condemned == w.condemned
    requires w.db.jobs[id].nextRev == None && w.db.jobs[id].lease == None && w.db.jobs[id].rev <= highest
    requires id in w.reserved && RevisionsOf(w, id)
    ensures RevisionsOf(v, id)
  {
    forall rev: nat | (id, rev) in v.db.attempts ensures RevisionAccounted(v, id, rev) {
      if rev != highest + 1 {
        assert RevisionAccounted(w, id, rev);
      }
    }
  }

  lemma GrantRevisions(w: World, v: World, id: Id, lease: Lease, highest: nat)
    requires id in w.db.jobs && lease !in w.tickets && w.clock <= v.clock
    requires v == Granted(w, id, lease, highest, v.clock) && v.condemned == w.condemned
    requires IsWaiting(w.db.jobs[id]) && IsHighest(w.db, id, highest)
    requires RowOf(w, id) && RevisionsOf(w, id) && ReceiptsOf(w, id) && CondemnedOf(w, id) && UploadOf(w, id)
    ensures RevisionsOf(v, id) && ReceiptsOf(v, id) && CondemnedOf(v, id)
  {
    assert w.db.jobs[id].nextRev == None && w.db.jobs[id].lease == None && id in w.reserved by {
      hide RevisionsOf; hide CondemnedOf; hide ReceiptsOf;
    }
    NextRevisionIsFree(w, id, highest);
    hide RowOf; hide UploadOf; hide IsHighest; hide RevisionsOf;
    GrantAccounted(w, v, id, lease, highest);
    assert ReceiptsOf(v, id);
    assert CondemnedOf(v, id);
  }

  lemma GrantTables(w: World, v: World, id: Id, lease: Lease, highest: nat)
    requires id in w.db.jobs && lease !in w.tickets && w.clock <= v.clock
    requires v == Granted(w, id, lease, highest, v.clock) && v.condemned == w.condemned
    requires RowInv(v.db.jobs[id])
    requires PipelineOf(w, id) && WritesOf(w, id) && UploadOf(w, id)
    ensures RowOf(v, id) && PipelineOf(v, id) && WritesOf(v, id) && UploadOf(v, id)
  {
    hide ValidSteps;
    hide RowInv;
  }

  lemma GrantFiles(w: World, v: World, id: Id, lease: Lease, highest: nat)
    requires id in w.db.jobs && lease !in w.tickets && w.clock <= v.clock
    requires v == Granted(w, id, lease, highest, v.clock) && v.condemned == w.condemned
    requires StoreOf(w, id) && CompletingOf(w, id) && RollbackOf(w, id)
    ensures StoreOf(v, id) && CompletingOf(v, id) && RollbackOf(v, id)
  {
    hide Intact; hide ValidSteps;
  }

  lemma GrantRest(w: World, v: World, id: Id, lease: Lease, highest: nat)
    requires id in w.db.jobs && lease !in w.tickets && w.clock <= v.clock
    requires v == Granted(w, id, lease, highest, v.clock) && v.condemned == w.condemned
    requires IsHighest(w.db, id, highest) && RowInv(w.db.jobs[id])
    requires DecisionsOf(w, id) && RevisionsOf(w, id)
    ensures DecisionsOf(v, id)
  {
    var j := w.db.jobs[id];
    assert j.syncedVersion <= j.overridesVersion;
    hide RowInv;
    assert forall r: nat | (id, r) in w.db.attempts :: KnownRevision(w.db, id, r) && r <= highest;
    hide IsHighest; hide KnownRevision;
    assert SnapshotFits(v.db.jobs[id], v.tickets[lease]);
    forall d | d in v.decisions && d.id == id
      ensures d.version <= j.overridesVersion && (Layered(v.db.jobs[id], d) || Rendered(v, d))
    {
      if Rendered(w, d) {
        var rev: nat :| RenderedAt(w, d, rev);
        assert RenderedAt(v, d, rev);
      }
    }
  }

  lemma GrantMoves(w: World, v: World, id: Id, lease: Lease, highest: nat)
    requires id in w.db.jobs && lease !in w.tickets && w.clock <= v.clock && w.db.jobs[id].lease == None
    requires v == Granted(w, id, lease, highest, v.clock)
    ensures Moves(w, v)
  {
  }

  lemma GrantKeeps(w: World, v: World, id: Id, lease: Lease, highest: nat)
    requires Inv(w) && Slice(w, id) && id in w.db.jobs && lease !in w.tickets && w.clock <= v.clock
    requires v == Granted(w, id, lease, highest, v.clock)
    requires IsWaiting(w.db.jobs[id]) && IsHighest(w.db, id, highest)
    requires RowInv(w.db.jobs[id]) && RowInv(v.db.jobs[id]) && AdmissionKept(v.db.jobs)
    ensures Inv(v) && Moves(w, v)
  {
    assert w.db.jobs[id].lease == None;
    hide RowOf; hide PipelineOf; hide RevisionsOf; hide ReceiptsOf; hide CondemnedOf; hide WritesOf;
    hide UploadOf; hide StoreOf; hide CompletingOf; hide DecisionsOf; hide RollbackOf; hide SameSlice;
    hide CleaningKept; hide AdmissionKept; hide RowInv; hide Granted; hide IsHighest; hide Moves;
    GrantMoves(w, v, id, lease, highest);
    GrantOthers(w, v, id, lease, highest);
    GrantRevisions(w, v, id, lease, highest);
    GrantTables(w, v, id, lease, highest);
    GrantFiles(w, v, id, lease, highest);
    GrantRest(w, v, id, lease, highest);
    OnlyOneChanged(w, v, id);
  }

  // ---------------------------------------------------------------- a job is forgotten

  lemma ForgetTables(db: Db, id: Id, now: int, other: Id)
    requires other != id
    ensures SameTables(db, Forget(db, id, now), other) && Forget(db, id, now).writes == db.writes
  {
  }

  lemma ForgetCleaning(w: World, v: World, id: Id)
    requires CleaningKept(w) && v == At(w, Forget(w.db, id, v.clock), v.clock)
    ensures v.condemned == w.condemned + {JobPrefix(id)} && CleaningKept(v)
  {
    assert v.condemned == w.condemned + {JobPrefix(id)};
  }

  lemma ForgetOthers(w: World, v: World, id: Id)
    requires w.clock <= v.clock && CleaningKept(w)
    requires v == At(w, Forget(w.db, id, v.clock), v.clock)
    ensures v.condemned == w.condemned + {JobPrefix(id)} && CleaningKept(v)
    ensures forall other | other != id :: SameSlice(w, v, other)
  {
    ForgetCleaning(w, v, id);
    hide CleaningKept; hide Forget;
    forall other | other != id ensures SameSlice(w, v, other) {
      ForgetTables(w.db, id, v.clock, other);
      hide SameTables;
      assert SameHistory(w, v, other);
    }
  }

  lemma ForgetSlice(w: World, v: World, id: Id)
    requires Slice(w, id) && id in w.db.jobs && w.clock <= v.clock
    requires v == At(w, Forget(w.db, id, v.clock), v.clock) && v.condemned == w.condemned + {JobPrefix(id)}
    ensures Slice(v, id)
  {
    hide RowInv; hide PipelineRow; hide ValidSteps; hide Intact;
    assert forall rev: nat :: (id, rev) !in v.db.attempts;
    assert forall l: Lease :: (id, l) !in v.db.completions;
    assert CompletingOf(v, id);
    assert WritesOf(v, id);
  }

  lemma ForgetMoves(w: World, v: World, id: Id)
    requires w.clock <= v.clock && v == At(w, Forget(w.db, id, v.clock), v.clock)
    ensures Moves(w, v)
  {
  }

  lemma ForgetKeeps(w: World, v: World, id: Id)
    requires Inv(w) && Slice(w, id) && id in w.db.jobs && w.clock <= v.clock
    requires v == At(w, Forget(w.db, id, v.clock), v.clock)
    ensures Inv(v) && Moves(w, v)
  {
    assert AdmissionKept(v.db.jobs) by {
      hide Slice;
      FewerProcesses(w.db.jobs, v.db.jobs);
    }
    hide *;
    ForgetParts(w, v, id);
  }

  lemma ForgetParts(w: World, v: World, id: Id)
    requires Inv(w) && Slice(w, id) && id in w.db.jobs && w.clock <= v.clock && AdmissionKept(v.db.jobs)
    requires v == At(w, Forget(w.db, id, v.clock), v.clock)
    ensures Inv(v) && Moves(w, v)
  {
    hide Slice; hide SameSlice; hide CleaningKept; hide AdmissionKept; hide At; hide Forget; hide Moves;
    ForgetMoves(w, v, id);
    ForgetOthers(w, v, id);
    ForgetSlice(w, v, id);
    OnlyOneChanged(w, v, id);
  }
}
