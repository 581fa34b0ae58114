/** Where the board's promises stop: the two assumptions of the World module that its code does not
    check, each with the exact condition and with what goes wrong beyond it. The Witnesses module
    reaches both situations from the empty board. */
module Boundaries {
  import opened Wrappers
  import opened Contract
  import opened Steps
  import opened Lifecycles
  import opened Credential
  import opened Keys
  import opened BoardTables
  import opened BoardRows
  import opened World
  import opened Invariant
  import opened Frames
  import opened Shapes
  import opened Preservation

  lemma FailedMeansIdle(j: Job)
    requires RowInv(j) && j.status == Failed
    ensures j.taskKind == None && j.taskState == None && j.pending == None && j.lease == None && j.nextRev == None
  {
    if j.taskKind.Some? {
      match (j.taskKind.value, j.taskState.value)
      case (Process, Waiting) =>
      case (Process, Claimed) =>
      case (Review, _) =>
      case (Sync, _) =>
    }
  }

  /** Keep and resolve preserve a row's invariant exactly when the job is not failed with saved state. */
  lemma OverrideIsSafeIff(j: Job, kind: ItemKind, item: int, now: int)
    requires RowInv(j)
    ensures RowInv(OverrideRow(j, kind, item, now)) <==> !FailedWithState(j)
  {
    if !FailedWithState(j) {
      OverrideKeepsRow(j, kind, item, now);
      hide RowInv; hide OverrideRow;
    } else {
      var k := OverrideRow(j, kind, item, now);
      FailedMeansIdle(j);
      assert k.taskKind == Some(Sync) && k.status == Failed && k.pending == None;
      assert !StatusMatches(k);
    }
  }

  /** The tables once the commit sealed the revision and raised. */
  ghost function SealedOnly(db: Db, id: Id, lease: Lease, rev: nat): Db {
    db.(attempts := db.attempts[(id, rev) := Attempt(lease, Sealed)])
  }

  /** Ended without a trace: the revision is neither staging, published nor handed to cleanup. */
  ghost predicate Leaked(db: Db, id: Id, rev: nat) {
    && id in db.jobs && db.jobs[id].taskKind == None && db.jobs[id].rev < rev
    && (id, rev) in db.attempts && db.attempts[(id, rev)].state == Sealed && RevPrefix(id, rev) !in db.cleanup
  }

  /** Back in the queue for another try, the revision handed to cleanup. */
  ghost predicate Recovered(db: Db, id: Id, rev: nat) {
    && id in db.jobs && Unrenderable(db.jobs[id]) && db.jobs[id].taskState == Some(Waiting)
    && (id, rev) in db.attempts && db.attempts[(id, rev)].state == Abandoned && RevPrefix(id, rev) in db.cleanup
  }

  /** A re-render queued for a failed job. */
  predicate Unrenderable(j: Job) {
    j.taskKind == Some(Sync) && j.status == Failed && j.pending == None
  }

  /** Its claimed row, once the commit sealed the revision and raised. */
  ghost predicate Stuck(db: Db, id: Id, lease: Lease, rev: nat) {
    && id in db.jobs && Unrenderable(db.jobs[id]) && db.jobs[id].taskState == Some(Claimed)
    && db.jobs[id].lease == Some(lease) && db.jobs[id].nextRev == Some(rev) && db.jobs[id].rev < rev
    && (id, rev) in db.attempts && db.attempts[(id, rev)] == Attempt(lease, Sealed) && RevPrefix(id, rev) !in db.cleanup
  }

  /** Each try of such a re-render, whatever its number: it is granted; completing it with any result
      but a failure raises after the revision was sealed. */
  lemma EveryTryGetsStuck(db: Db, id: Id, lease: Lease, highest: nat, result: CompleteRequest, files: seq<string>, now: int)
    requires id in db.jobs && Unrenderable(db.jobs[id]) && db.jobs[id].taskState == Some(Waiting)
    requires IsHighest(db, id, highest) && (id, lease) !in db.completions && RevPrefix(id, highest + 1) !in db.cleanup
    requires result.Finished? && OutputReady(result.job.status) && now >= 0
    ensures ClaimVerdict(db.jobs[id], now) == Grant
    ensures var claimed := GrantClaim(db, id, lease, highest, now);
      var sealed := SealedOnly(claimed, id, lease, highest + 1);
      && CompleteCommit(claimed, id, lease, result, files, true, now, now) == Throw(sealed)
      && Stuck(sealed, id, lease, highest + 1)
      && sealed.jobs[id].attempt == db.jobs[id].attempt + 1
      && sealed.jobs[id].leaseExpires == Some(now + LEASE_MS) && sealed.jobs[id].deadline == Some(now + SYNC_MAX_MS)
  {
    assert KnownRevision(db, id, db.jobs[id].rev);
    hide IsHighest;
    var claimed := GrantClaim(db, id, lease, highest, now);
    assert claimed.jobs[id] == ClaimedRow(db.jobs[id], lease, highest + 1, now);
    SealedAndStuck(claimed, id, lease, highest + 1, result, files, now);
    hide CompleteCommit;
  }

  /** How the sweep ends a stuck try, exactly: the revision leaks when the deadline is past or the try
      was the last one, is recovered when only the lease of an earlier try is, and waits otherwise. */
  lemma StuckTryLeaksIff(db: Db, id: Id, lease: Lease, rev: nat, later: int)
    requires Stuck(db, id, lease, rev)
    ensures var lapsed := db.jobs[id].leaseExpires.GetOr(0) <= later;
      var last := db.jobs[id].deadline.GetOr(0) <= later || (lapsed && db.jobs[id].attempt >= ATTEMPTS);
      var swept := SweepRow(db, id, later);
      && swept.Done?
      && (Leaked(swept.db, id, rev) <==> last)
      && (Recovered(swept.db, id, rev) <==> lapsed && !last)
      && (!lapsed && !last ==> swept.db == db)
  {
    hide StopSync; hide FailRow; hide Requeue;
    StopSyncIs(db, id, later);
    assert WithoutStaging(db, id, later) == db;
    if db.jobs[id].attempt < ATTEMPTS {
      RequeueStuck(db, id, lease, rev, later);
    }
  }

  ghost function RequeuedDb(db: Db, id: Id, lease: Lease, rev: nat, now: int): Db
    requires id in db.jobs
  {
    Db(db.jobs[id := RequeuedRow(db.jobs[id], now)], db.completions, db.attempts[(id, rev) := Attempt(lease, Abandoned)],
       db.cleanup[RevPrefix(id, rev) := Cleanup(DeletionRequested, now + GRACE_MS)], db.uploads, db.writes)
  }

  lemma RequeueStuck(db: Db, id: Id, lease: Lease, rev: nat, now: int)
    requires Stuck(db, id, lease, rev) && db.jobs[id].attempt < ATTEMPTS
    ensures Requeue(db, id, now) == Done(RequeuedDb(db, id, lease, rev, now))
  {
  }

  /** Beyond the condition: a keep on a failed job with saved state queues a re-render; the runner
      completes it, which raises; its lease lapses and the sweep recovers that first revision; the
      runner completes the second try, which raises again; and when that lease lapses the sweep leaves
      the second revision neither staging, published nor handed to cleanup. */
  lemma OverrideOnAFailedJobLeaksARevision(
      db: Db, owner: string, id: Id, kind: ItemKind, item: int, first: Lease, second: Lease, highest: nat,
      result: CompleteRequest, files: seq<string>, now: int)
    requires Owned(db, owner, id) && RowInv(db.jobs[id]) && FailedWithState(db.jobs[id])
    requires IsHighest(db, id, highest) && (id, first) !in db.completions && (id, second) !in db.completions
    requires RevPrefix(id, highest + 1) !in db.cleanup && RevPrefix(id, highest + 2) !in db.cleanup
    requires result.Finished? && OutputReady(result.job.status) && now >= 0
    ensures SetOverride(db, owner, id, kind, item, now) == Answer(PutJob(db, id, OverrideRow(db.jobs[id], kind, item, now)), true)
    ensures var queued := PutJob(db, id, OverrideRow(db.jobs[id], kind, item, now));
      var claimed := GrantClaim(queued, id, first, highest, now);
      var sealed := SealedOnly(claimed, id, first, highest + 1);
      var recovered := SweepRow(sealed, id, now + LEASE_MS).db;
      && ClaimVerdict(queued.jobs[id], now) == Grant
      && CompleteCommit(claimed, id, first, result, files, true, now, now) == Throw(sealed)
      && Recovered(recovered, id, highest + 1) && IsHighest(recovered, id, highest + 1)
      && var again := now + LEASE_MS;
      var reclaimed := GrantClaim(recovered, id, second, highest + 1, again);
      var resealed := SealedOnly(reclaimed, id, second, highest + 2);
      && ClaimVerdict(recovered.jobs[id], again) == Grant
      && CompleteCommit(reclaimed, id, second, result, files, true, again, again) == Throw(resealed)
      && Leaked(SweepRow(resealed, id, again + LEASE_MS).db, id, highest + 2)
  {
    OverrideIs(db, owner, id, kind, item, now);
    QueuedForFailed(db.jobs[id], kind, item, now);
    QueuedKeepsHighest(db, id, OverrideRow(db.jobs[id], kind, item, now), highest);
    assert id in db.jobs;
    hide *;
    TwoTries(db, PutJob(db, id, OverrideRow(db.jobs[id], kind, item, now)), id, first, second, highest, result, files, now);
  }

  lemma TwoTries(
      db: Db, queued: Db, id: Id, first: Lease, second: Lease, highest: nat,
      result: CompleteRequest, files: seq<string>, now: int)
    requires id in queued.jobs && queued == db.(jobs := queued.jobs) && IsHighest(queued, id, highest)
    requires Unrenderable(queued.jobs[id]) && queued.jobs[id].taskState == Some(Waiting) && queued.jobs[id].attempt == 0
    requires (id, first) !in db.completions && (id, second) !in db.completions
    requires RevPrefix(id, highest + 1) !in db.cleanup && RevPrefix(id, highest + 2) !in db.cleanup
    requires result.Finished? && OutputReady(result.job.status) && now >= 0
    ensures
      var claimed := GrantClaim(queued, id, first, highest, now);
      var sealed := SealedOnly(claimed, id, first, highest + 1);
      var recovered := SweepRow(sealed, id, now + LEASE_MS).db;
      && ClaimVerdict(queued.jobs[id], now) == Grant
      && CompleteCommit(claimed, id, first, result, files, true, now, now) == Throw(sealed)
      && Recovered(recovered, id, highest + 1) && IsHighest(recovered, id, highest + 1)
      && var again := now + LEASE_MS;
      var reclaimed := GrantClaim(recovered, id, second, highest + 1, again);
      var resealed := SealedOnly(reclaimed, id, second, highest + 2);
      && ClaimVerdict(recovered.jobs[id], again) == Grant
      && CompleteCommit(reclaimed, id, second, result, files, true, again, again) == Throw(resealed)
      && Leaked(SweepRow(resealed, id, again + LEASE_MS).db, id, highest + 2)
  {
    hide CompleteCommit; hide SweepRow; hide ClaimVerdict; hide IsHighest; hide Leaked; hide Stuck; hide Unrenderable;
    EveryTryGetsStuck(queued, id, first, highest, result, files, now);
    var sealed := SealedOnly(GrantClaim(queued, id, first, highest, now), id, first, highest + 1);
    var again := now + LEASE_MS;
    SecondTry(queued, sealed, id, first, highest, again);
    var recovered := SweepRow(sealed, id, again).db;
    EveryTryGetsStuck(recovered, id, second, highest + 1, result, files, again);
    var resealed := SealedOnly(GrantClaim(recovered, id, second, highest + 1, again), id, second, highest + 2);
    hide GrantClaim; hide SealedOnly;
    StuckTryLeaksIff(resealed, id, second, highest + 2, again + LEASE_MS);
  }

  lemma QueuedKeepsHighest(db: Db, id: Id, k: Job, highest: nat)
    requires id in db.jobs && IsHighest(db, id, highest)
    requires k.rev == db.jobs[id].rev && k.nextRev == None
    requires db.jobs[id].nextRev == None
    ensures IsHighest(PutJob(db, id, k), id, highest)
  {
    assert forall r: nat :: KnownRevision(PutJob(db, id, k), id, r) <==> KnownRevision(db, id, r);
  }

  /** After the first lapse the row waits again, with one try left and the next revision still free. */
  lemma SecondTry(db: Db, sealed: Db, id: Id, lease: Lease, highest: nat, again: int)
    requires id in db.jobs && IsHighest(db, id, highest) && db.jobs[id].attempt == 0
    requires Stuck(sealed, id, lease, highest + 1) && sealed.jobs[id].attempt == 1 && sealed.jobs[id].rev == db.jobs[id].rev
    requires sealed.attempts == db.attempts[(id, highest + 1) := Attempt(lease, Sealed)]
    requires sealed.completions == db.completions && sealed.cleanup == db.cleanup
    requires sealed.jobs[id].leaseExpires == Some(again) && again < sealed.jobs[id].deadline.GetOr(0)
    ensures var recovered := SweepRow(sealed, id, again).db;
      && Recovered(recovered, id, highest + 1) && IsHighest(recovered, id, highest + 1)
      && recovered.jobs[id].attempt == 1 && recovered.completions == db.completions
      && recovered.cleanup.Keys == db.cleanup.Keys + {RevPrefix(id, highest + 1)}
  {
    StuckTryLeaksIff(sealed, id, lease, highest + 1, again);
    RequeueStuck(sealed, id, lease, highest + 1, again);
    var recovered := SweepRow(sealed, id, again).db;
    assert recovered == RequeuedDb(sealed, id, lease, highest + 1, again) by {
      hide IsHighest; hide Requeue; hide StopSync; hide RequeuedDb;
    }
    hide SweepRow; hide Requeue;
    assert KnownRevision(recovered, id, highest + 1);
    forall r: nat | KnownRevision(recovered, id, r) ensures r <= highest + 1 {
      if r != highest + 1 && r != 0 {
        assert KnownRevision(db, id, r);
      }
    }
  }

  lemma QueuedForFailed(j: Job, kind: ItemKind, item: int, now: int)
    requires RowInv(j) && FailedWithState(j)
    ensures var k := OverrideRow(j, kind, item, now);
      && Unrenderable(k) && k.taskState == Some(Waiting) && k.attempt == 0 && k.rev == j.rev && k.nextRev == None
      && j.nextRev == None
  {
    FailedMeansIdle(j);
    hide RowInv;
  }

  /** On a failed job the commit seals the revision, then raises. */
  lemma SealedAndStuck(db: Db, id: Id, lease: Lease, rev: nat, result: CompleteRequest, files: seq<string>, now: int)
    requires Held(db, id, lease, now) && db.jobs[id].status == Failed && db.jobs[id].pending == None
    requires db.jobs[id].nextRev == Some(rev) && HasAttempt(db, id, Some(rev)) && db.attempts[(id, rev)] == Attempt(lease, Staging)
    requires result.Finished? && OutputReady(result.job.status) && (id, lease) !in db.completions
    ensures CompleteCommit(db, id, lease, result, files, true, now, now)
         == Throw(db.(attempts := db.attempts[(id, rev) := Attempt(lease, Sealed)]))
  {
  }

  /** Calls may reach the board out of order. A renewal with an earlier time keeps the invariant
      exactly when the revision was not handed to cleanup, or the renewed lease is over all the same. */
  lemma LateRenewalIsSafeIff(w: World, id: Id, lease: Lease, stale: int)
    requires Inv(w) && Held(w.db, id, lease, stale) && stale <= w.clock
    ensures Inv(At(w, RenewLease(w.db, id, lease, stale), w.clock)) <==>
      || RevPrefix(id, NextRevision(w.db.jobs[id])) !in w.condemned
      || stale + LEASE_MS <= w.clock
      || w.db.jobs[id].deadline.GetOr(0) <= w.clock
  {
    var v := At(w, RenewLease(w.db, id, lease, stale), w.clock);
    SliceOf(w, id);
    if LateIsSafe(w, id, lease, stale) {
      hide Inv; hide Slice; hide RenewLease; hide LateIsSafe; hide At; hide Moves;
      RenewByKeeps(w, v, id, lease, stale);
    } else {
      RevivedBreaks(w, v, id, lease, stale);
      hide Slice;
      assert !Slice(v, id);
    }
  }

  lemma RevivedBreaks(w: World, v: World, id: Id, lease: Lease, stale: int)
    requires Slice(w, id) && Held(w.db, id, lease, stale) && !LateIsSafe(w, id, lease, stale)
    requires v == At(w, RenewLease(w.db, id, lease, stale), w.clock)
    ensures !Slice(v, id)
  {
    HeldTicket(w, id, lease, stale);
    hide Slice;
    var rev := w.db.jobs[id].nextRev.value;
    assert RevPrefix(id, rev) in v.condemned && v.db.attempts[(id, rev)].state == Staging;
    assert !Lapsed(v.db.jobs[id], v.clock);
    assert !CondemnedOf(v, id);
    hide CondemnedOf;
    NotASlice(v, id);
  }

  lemma NotASlice(w: World, id: Id)
    requires !CondemnedOf(w, id)
    ensures !Slice(w, id)
  {
    hide CondemnedOf; hide RowOf; hide PipelineOf; hide RevisionsOf; hide ReceiptsOf; hide WritesOf;
    hide UploadOf; hide StoreOf; hide CompletingOf; hide DecisionsOf; hide RollbackOf;
  }

  /** Beyond that condition: a write that ends after its lease lapsed hands its revision to cleanup;
      one renewal that carries an older time revives the lease; and the commit then publishes a
      revision that is already due for deletion. */
  lemma AStaleClockPublishesACondemnedRevision(db: Db, c: Completing, token: string, stale: int, now: int)
    requires c.id in db.jobs && RowInv(db.jobs[c.id])
    requires (c.id, c.lease) !in db.completions && c.result.Finished? && c.now <= now
    requires var j := db.jobs[c.id];
      && IsClaimed(j) && j.lease == Some(c.lease) && j.nextRev == Some(c.rev)
      && 0 <= stale < j.leaseExpires.GetOr(0) <= now < j.deadline.GetOr(0) && now < stale + LEASE_MS
      && JobAllows(j.status, if j.pending.Some? then j.status else c.result.job.status)
    requires HasAttempt(db, c.id, Some(c.rev)) && db.attempts[(c.id, c.rev)] == Attempt(c.lease, Staging)
    requires OfArtifact(token) in db.writes && db.writes[OfArtifact(token)] == RevPrefix(c.id, c.rev)
    requires RevPrefix(c.id, c.rev) !in db.cleanup
    ensures var ended := EndArtifactUpload(db, c.id, c.lease, token, now);
      var revived := RenewLease(ended, c.id, c.lease, stale);
      var call := CompleteCommit(revived, c.id, c.lease, c.result, c.files, true, c.now, now);
      && call.Answer? && call.reply == Accepted
      && c.id in call.db.jobs && call.db.jobs[c.id].rev == c.rev
      && RevPrefix(c.id, c.rev) in Due(call.db, now)
  {
    var ended := EndArtifactUpload(db, c.id, c.lease, token, now);
    var revived := RenewLease(ended, c.id, c.lease, stale);
    var j := db.jobs[c.id];
    var r := j.(leaseExpires := Some(stale + LEASE_MS), updatedAt := stale);
    EndedAfterItsLease(db, c.id, c.lease, token, c.rev, now);
    assert Held(ended, c.id, c.lease, stale);
    assert revived == PutJob(ended, c.id, r);
    hide EndArtifactUpload; hide RenewLease;
    RenewedKeeps(j, j.steps, stale + LEASE_MS, stale);
    hide RowInv;
    CommitsOnRevivedLease(revived, c, now);
  }

  lemma EndedAfterItsLease(db: Db, id: Id, lease: Lease, token: string, rev: nat, now: int)
    requires id in db.jobs && !Held(db, id, lease, now) && (id, lease) !in db.completions
    requires OfArtifact(token) in db.writes && db.writes[OfArtifact(token)] == RevPrefix(id, rev)
    requires RevPrefix(id, rev) !in db.cleanup
    ensures var ended := EndArtifactUpload(db, id, lease, token, now);
      && ended == db.(writes := ended.writes, cleanup := ended.cleanup) && RevPrefix(id, rev) in Due(ended, now)
  {
    hide Held;
  }

  lemma CommitsOnRevivedLease(db: Db, c: Completing, now: int)
    requires c.id in db.jobs && RowInv(db.jobs[c.id]) && IsClaimed(db.jobs[c.id]) && Held(db, c.id, c.lease, now)
    requires db.jobs[c.id].lease == Some(c.lease) && db.jobs[c.id].nextRev == Some(c.rev)
    requires HasAttempt(db, c.id, Some(c.rev)) && db.attempts[(c.id, c.rev)] == Attempt(c.lease, Staging)
    requires (c.id, c.lease) !in db.completions && c.result.Finished? && c.now <= now
    requires JobAllows(db.jobs[c.id].status, if db.jobs[c.id].pending.Some? then db.jobs[c.id].status else c.result.job.status)
    requires RevPrefix(c.id, c.rev) in Due(db, now)
    ensures var call := CompleteCommit(db, c.id, c.lease, c.result, c.files, true, c.now, now);
      && call.Answer? && call.reply == Accepted
      && c.id in call.db.jobs && call.db.jobs[c.id].rev == c.rev && RevPrefix(c.id, c.rev) in Due(call.db, now)
  {
    hide RowInv; hide JobAllows; hide IsClaimed;
    PublishIs(db, c);
    hide Publish; hide Held;
    EndedKeepsPointer(PublishedRow(db.jobs[c.id], c.result, c.files, c.now), c.now);
  }

  lemma EndedKeepsPointer(j: Job, now: int)
    ensures EndedRow(j, now, true).rev == j.rev
  {
    hide Dirty;
  }
}
