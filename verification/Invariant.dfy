/** The invariant of every reachable world. */
module Invariant {
  import opened Wrappers
  import opened Contract
  import opened Steps
  import opened Lifecycles
  import opened Credential
  import opened Keys
  import opened BoardTables
  import opened BoardRows
  import opened World

  /** Past its lease or its deadline: no call of this runner is honoured any more. */
  predicate Lapsed(j: Job, now: int) {
    j.leaseExpires.GetOr(0) <= now || j.deadline.GetOr(0) <= now
  }

  // Each part below speaks of one job id; an event touches one id and leaves the others' parts alone.

  ghost predicate RowOf(w: World, id: Id) {
    id in w.db.jobs ==> RowInv(w.db.jobs[id])
  }

  predicate PipelineRow(j: Job) {
    && ValidSteps(j.steps)
    && (j.prior.Some? ==> ValidSteps(j.prior.value.steps))
  }

  /** Every stored step list is the whole pipeline. */
  ghost predicate PipelineOf(w: World, id: Id) {
    id in w.db.jobs ==> PipelineRow(w.db.jobs[id])
  }

  /** Each revision a job was ever given is its live staging, its published pointer, or condemned. */
  ghost predicate RevisionAccounted(w: World, id: Id, rev: nat)
    requires id in w.db.jobs && (id, rev) in w.db.attempts
  {
    var j := w.db.jobs[id];
    match w.db.attempts[(id, rev)].state
    case Staging => j.nextRev == Some(rev) && j.lease == Some(w.db.attempts[(id, rev)].lease)
    case Sealed => false
    case Published =>
      && (id, w.db.attempts[(id, rev)].lease) in w.db.completions
      && (rev == j.rev || RevPrefix(id, rev) in w.condemned)
    case Abandoned => rev != j.rev && RevPrefix(id, rev) in w.condemned
  }

  ghost predicate RevisionsOf(w: World, id: Id) {
    && (forall rev: nat | (id, rev) in w.db.attempts ::
          && id in w.db.jobs && rev >= 1
          && w.db.attempts[(id, rev)].lease in w.tickets
          && w.tickets[w.db.attempts[(id, rev)].lease].id == id
          && w.tickets[w.db.attempts[(id, rev)].lease].rev == rev
          && RevisionAccounted(w, id, rev))
    && (id in w.db.jobs ==>
          var j := w.db.jobs[id];
          && (j.rev > 0 ==> (id, j.rev) in w.db.attempts && w.db.attempts[(id, j.rev)].state == Published)
          && (IsClaimed(j) ==>
                && j.nextRev.Some? && j.lease.Some?
                && (id, j.nextRev.value) in w.db.attempts
                && w.db.attempts[(id, j.nextRev.value)] == Attempt(j.lease.value, Staging)))
    && (forall l | l in w.tickets && w.tickets[l].id == id ::
          && id in w.reserved && w.tickets[l].rev >= 1
          && (id in w.db.jobs ==>
                (id, w.tickets[l].rev) in w.db.attempts && w.db.attempts[(id, w.tickets[l].rev)].lease == l))
  }

  /** A receipt belongs to a lease that has ended, for a job that exists. */
  ghost predicate ReceiptsOf(w: World, id: Id) {
    forall l: Lease | (id, l) in w.db.completions ::
      && id in w.db.jobs && l in w.tickets && w.tickets[l].id == id
      && w.db.jobs[id].lease != Some(l)
  }

  /** What may be deleted: never a job that exists, its pointer, or a revision its runner can still publish. */
  ghost predicate CondemnedOf(w: World, id: Id) {
    && (JobPrefix(id) in w.condemned ==> id in w.reserved && id !in w.db.jobs && id !in w.db.uploads)
    && (forall rev: nat | RevPrefix(id, rev) in w.condemned ::
          && id in w.reserved
          && (id in w.db.jobs ==>
                && (id, rev) in w.db.attempts
                && rev != w.db.jobs[id].rev
                && (w.db.attempts[(id, rev)].state == Staging ==> Lapsed(w.db.jobs[id], w.clock))))
  }

  /** Every request that may still write to the store has its write registered. */
  ghost predicate WritesOf(w: World, id: Id) {
    && (OfUpload(id) in w.db.writes ==> w.db.writes[OfUpload(id)] == JobPrefix(id) && id in w.reserved)
    && (id in w.transfers ==> OfUpload(id) in w.db.writes && id !in w.inputs)
    && (forall token | token in w.putting && w.putting[token].id == id ::
          var p := w.putting[token];
          && p.lease in w.tickets && w.tickets[p.lease].id == id && w.tickets[p.lease].rev == p.rev
          && (p.begun ==> OfArtifact(token) in w.db.writes && w.db.writes[OfArtifact(token)] == RevPrefix(id, p.rev)))
  }

  /** Each reserved id has exactly one owner: a reservation, a job, or cleanup. */
  ghost predicate OneOwner(w: World, id: Id) {
    && (id in w.db.uploads || id in w.db.jobs || JobPrefix(id) in w.condemned)
    && !(id in w.db.uploads && id in w.db.jobs)
    && !(id in w.db.uploads && JobPrefix(id) in w.condemned)
    && !(id in w.db.jobs && JobPrefix(id) in w.condemned)
  }

  /** A reservation precedes everything else about its id. */
  ghost predicate Unstarted(w: World, id: Id) {
    && (forall l | l in w.tickets :: w.tickets[l].id != id)
    && (forall d | d in w.decisions :: d.id != id)
    && (forall rev: nat :: RevPrefix(id, rev) !in w.condemned)
  }

  ghost predicate UploadOf(w: World, id: Id) {
    && (id in w.reserved ==> OneOwner(w, id))
    && (id in w.db.uploads || id !in w.reserved ==> Unstarted(w, id))
    && (id in w.db.jobs ==> id in w.reserved && id in w.inputs)
    && (id in w.db.uploads ==>
          && id in w.reserved
          && w.db.uploads[id].state == (if id in w.marked then Stored else Receiving))
    && (id in w.marked ==> id in w.inputs)
    && (id in w.inputs ==> id in w.reserved)
  }

  /** The objects a publication saw are still there, byte for byte. */
  ghost predicate Intact(store: map<Key, Bytes>, id: Id, rev: nat, seen: map<string, Bytes>) {
    forall name | name in seen :: FileKey(id, rev, name) in store && store[FileKey(id, rev, name)] == seen[name]
  }

  ghost predicate StoreOf(w: World, id: Id) {
    && (id in w.inputs && JobPrefix(id) !in w.condemned ==>
          InputKey(id) in w.store && w.store[InputKey(id)] == w.inputs[id])
    && (id in w.db.jobs && w.db.jobs[id].rev > 0 ==>
          && (id, w.db.jobs[id].rev) in w.verified
          && (forall name :: name in w.verified[(id, w.db.jobs[id].rev)] <==> name in w.db.jobs[id].files)
          && Intact(w.store, id, w.db.jobs[id].rev, w.verified[(id, w.db.jobs[id].rev)]))
  }

  ghost predicate CompletingOf(w: World, id: Id) {
    forall req | req in w.completing && w.completing[req].id == id ::
      var c := w.completing[req];
      && c.result.Finished? && Terminal(c.result.job.status) && ValidSteps(c.result.job.steps)
      && AsReported(c.files, c.result)
      && c.now <= w.clock
      && c.lease in w.tickets && w.tickets[c.lease].id == id && w.tickets[c.lease].rev == c.rev
      && c.result.overridesVersion == w.tickets[c.lease].version
      && (JobPrefix(id) !in w.condemned && RevPrefix(id, c.rev) !in w.condemned ==> Intact(w.store, id, c.rev, c.seen))
  }

  /** A decision is still layered on the views, or a published revision was rendered with it. */
  ghost predicate Layered(j: Job, d: Decision) {
    d.item in j.overrides.Of(d.kind) && j.overrides.Of(d.kind)[d.item] >= d.version
  }

  ghost predicate Includes(ticket: Ticket, d: Decision) {
    d.item in ticket.overlay.Of(d.kind) && ticket.overlay.Of(d.kind)[d.item] >= d.version
  }

  ghost predicate RenderedAt(w: World, d: Decision, rev: nat) {
    && (d.id, rev) in w.db.attempts && w.db.attempts[(d.id, rev)].state == Published
    && w.db.attempts[(d.id, rev)].lease in w.tickets
    && Includes(w.tickets[w.db.attempts[(d.id, rev)].lease], d)
  }

  ghost predicate Rendered(w: World, d: Decision) {
    exists rev: nat :: RenderedAt(w, d, rev)
  }

  /** A running task's snapshot has every stored decision up to its version. */
  ghost predicate SnapshotFits(j: Job, t: Ticket) {
    && j.syncedVersion <= t.version <= j.overridesVersion
    && forall kind: ItemKind, item | item in j.overrides.Of(kind) && j.overrides.Of(kind)[item] <= t.version ::
         item in t.overlay.Of(kind) && t.overlay.Of(kind)[item] == j.overrides.Of(kind)[item]
  }

  ghost predicate DecisionsOf(w: World, id: Id) {
    id in w.db.jobs ==>
      && (IsClaimed(w.db.jobs[id]) ==>
            && w.db.jobs[id].lease.Some? && w.db.jobs[id].lease.value in w.tickets
            && SnapshotFits(w.db.jobs[id], w.tickets[w.db.jobs[id].lease.value]))
      && (forall d | d in w.decisions && d.id == id ::
            d.version <= w.db.jobs[id].overridesVersion && (Layered(w.db.jobs[id], d) || Rendered(w, d)))
  }

  ghost predicate RollbackOf(w: World, id: Id) {
    id in w.db.jobs && w.db.jobs[id].prior.Some? ==>
      id in w.rollback && w.db.jobs[id].prior.value == w.rollback[id]
  }

  ghost predicate Slice(w: World, id: Id) {
    && RowOf(w, id)
    && PipelineOf(w, id)
    && RevisionsOf(w, id)
    && ReceiptsOf(w, id)
    && CondemnedOf(w, id)
    && WritesOf(w, id)
    && UploadOf(w, id)
    && StoreOf(w, id)
    && CompletingOf(w, id)
    && DecisionsOf(w, id)
    && RollbackOf(w, id)
  }

  // ---------------------------------------------------------------- across jobs

  predicate Pendable(state: RetentionState) {
    state in {DeletionRequested, Deleting, DeleteFailed}
  }

  ghost predicate CleaningKept(w: World) {
    && w.db.cleanup.Keys <= w.condemned
    && (forall p | p in w.db.cleanup :: Pendable(w.db.cleanup[p].state))
    && (forall l | l in w.cleaning ::
          && (w.cleaning[l].current.Some? ==> w.cleaning[l].current.value in w.condemned)
          && (forall i | 0 <= i < |w.cleaning[l].todo| ::
                w.cleaning[l].todo[i].0 in w.condemned && Pendable(w.cleaning[l].todo[i].1)))
    && (forall token | OfArtifact(token) in w.db.writes :: token in w.putting && w.putting[token].begun)
  }

  ghost function ProcessOf(jobs: map<Id, Job>, owner: string): set<Id> {
    set id | id in jobs && IsKind(jobs[id], Process) && jobs[id].owner == owner
  }

  ghost function ProcessAll(jobs: map<Id, Job>): set<Id> {
    set id | id in jobs && IsKind(jobs[id], Process)
  }

  ghost predicate AdmissionKept(jobs: map<Id, Job>) {
    && |ProcessAll(jobs)| <= ACTIVE_GLOBAL
    && forall owner :: |ProcessOf(jobs, owner)| <= ACTIVE_PER_PERSON
  }

  ghost predicate Inv(w: World) {
    && (forall id: Id :: Slice(w, id))
    && CleaningKept(w)
    && AdmissionKept(w.db.jobs)
  }

  lemma StartsKept()
    ensures Inv(Start)
  {
    assert ProcessAll(map[]) == {};
    forall owner ensures ProcessOf(map[], owner) == {} {
    }
  }
}
