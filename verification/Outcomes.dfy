/** What each call of worker/src/board.ts that ends, restarts, grants or queues a task leaves, column by
    column: statements about the rows before and after, for every row that keeps its invariant. */
module Outcomes {
  import opened Wrappers
  import opened Contract
  import opened Steps
  import opened Lifecycles
  import opened Credential
  import opened Keys
  import opened BoardTables
  import opened BoardRows

  // ---------------------------------------------------------------- rows

  predicate Unleased(k: Job) {
    k.lease == None && k.leaseExpires == None && k.deadline == None && k.nextRev == None
  }

  predicate Taskless(k: Job) {
    && k.taskKind == None && k.taskState == None && k.action == None && k.taskQueuedAt == None && k.attempt == 0
    && Unleased(k) && k.pending == None && k.prior == None && k.gatewayJwt == None && k.gatewayExp == None
  }

  /** Waiting for its first try. */
  predicate JustQueued(k: Job, kind: TaskKind, action: Option<ReviewAction>, now: int) {
    && k.taskKind == Some(kind) && k.taskState == Some(Waiting) && k.action == action
    && k.taskQueuedAt == Some(now) && k.attempt == 0 && Unleased(k)
  }

  /** The rows agree but for the columns of a task. */
  predicate OnlyItsTask(j: Job, k: Job) {
    k == j.(taskKind := k.taskKind, taskState := k.taskState, action := k.action, taskQueuedAt := k.taskQueuedAt,
            attempt := k.attempt, lease := k.lease, leaseExpires := k.leaseExpires, deadline := k.deadline,
            nextRev := k.nextRev, gatewayJwt := k.gatewayJwt, gatewayExp := k.gatewayExp, pending := k.pending, prior := k.prior)
  }

  /** The task of `j` is over, and `k` goes on with the review that waited for that, with a re-render
      for the decisions its views lack, or with nothing. */
  predicate TaskOver(j: Job, k: Job, now: int, refresh: bool) {
    && OnlyItsTask(j, k) && k.pending == None
    && if j.pending.Some? then
         && JustQueued(k, Review, Some(j.pending.value.action), now) && k.prior == j.prior
         && k.gatewayJwt == Some(j.pending.value.jwt) && k.gatewayExp == Some(j.pending.value.exp)
       else if refresh && j.overridesVersion > j.syncedVersion && j.hasState && j.status in {Complete, ManualRemediation} then
         JustQueued(k, Sync, None, now) && k.prior == None && k.gatewayJwt == None && k.gatewayExp == None
       else Taskless(k)
  }

  /** The job failed with this message: nothing of a task is left, and no step is unsettled. */
  predicate FailedWith(j: Job, k: Job, error: string, now: int) {
    && Taskless(k)
    && OnlyItsTask(j.(status := Failed, error := Some(error), steps := k.steps, updatedAt := now), k)
    && BrokenOff(j.steps, k.steps, error, now)
  }

  /** The same task waits for its next try: its action, token, prior and count stay. */
  predicate WaitsAgain(j: Job, k: Job, now: int) {
    && k == j.(taskState := Some(Waiting), taskQueuedAt := Some(now), lease := None, leaseExpires := None, deadline := None,
               nextRev := None, status := k.status, steps := k.steps)
    && k.status == (if j.taskKind == Some(Process) then Queued else j.status)
    && if j.taskKind == Some(Sync) then k.steps == j.steps else Reset(j.steps, k.steps, j.taskKind == Some(Review))
  }

  /** The re-render is given up with a notice; the published result stands, and a review that waited
      for it is queued. */
  predicate GivenUp(j: Job, k: Job, now: int) {
    TaskOver(j.(notice := Some(REFRESH_INTERRUPTED)), k, now, false)
  }

  predicate Overdue(j: Job, now: int) {
    j.taskState == Some(Claimed) && (j.deadline.GetOr(0) <= now || j.leaseExpires.GetOr(0) <= now)
  }

  /** Another try, or giving up, for a re-render whose runner did not finish. */
  predicate Retried(j: Job, k: Job, now: int) {
    if j.pending.Some? || j.attempt >= 2 then GivenUp(j, k, now) else WaitsAgain(j, k, now)
  }

  /** The sweep's word on a row. */
  predicate SweptRow(j: Job, k: Job, now: int) {
    if !Overdue(j, now) then k == j
    else if j.deadline.GetOr(0) <= now then
      if j.taskKind == Some(Sync) then GivenUp(j, k, now) else FailedWith(j, k, DEADLINE, now)
    else if j.taskKind == Some(Sync) then Retried(j, k, now)
    else if j.attempt < 2 then WaitsAgain(j, k, now)
    else FailedWith(j, k, INTERRUPTED, now)
  }

  // ---------------------------------------------------------------- tables

  /** Only this job's row may differ, and what the board keeps of revisions and deletions. */
  predicate OneJob(before: Db, after: Db, id: Id) {
    && id in before.jobs && id in after.jobs
    && after == Db(before.jobs[id := after.jobs[id]], before.completions, after.attempts, after.cleanup, before.uploads, before.writes)
  }

  function Recorded(cleanup: map<Prefix, Cleanup>, p: Prefix, notBefore: int): map<Prefix, Cleanup> {
    if p in cleanup then cleanup else cleanup[p := Cleanup(DeletionRequested, notBefore)]
  }

  /** The revision is written off; its files may go in five minutes, unless they were to go already. */
  predicate WritesOff(before: Db, after: Db, id: Id, rev: nat, now: int) {
    && (id, rev) in before.attempts
    && after.attempts == before.attempts[(id, rev) := before.attempts[(id, rev)].(state := Abandoned)]
    && after.cleanup == Recorded(before.cleanup, RevPrefix(id, rev), now + 5 * MINUTE)
  }

  predicate Swept(before: Db, after: Db, id: Id, now: int)
    requires id in before.jobs
  {
    && OneJob(before, after, id) && SweptRow(before.jobs[id], after.jobs[id], now)
    && if Overdue(before.jobs[id], now)
       then before.jobs[id].nextRev.Some? && WritesOff(before, after, id, before.jobs[id].nextRev.value, now)
       else after == before
  }

  /** Every claim has the columns of a claim, and its revision is being written. */
  ghost predicate ClaimsInOrder(db: Db) {
    forall id | id in db.jobs && IsClaimed(db.jobs[id]) :: RowInv(db.jobs[id]) && StagingHere(db, id)
  }

  // ---------------------------------------------------------------- the ends of a task

  lemma EndedIsOver(j: Job, now: int, refresh: bool)
    ensures TaskOver(j, EndedRow(j, now, refresh), now, refresh)
  {
  }

  lemma FailedIs(j: Job, error: string, now: int)
    ensures FailedWith(j, FailedRow(j, error, now), error, now)
  {
    FailStepsBreakOff(j.steps, error, now);
    hide BrokenOff; hide FailSteps;
  }

  lemma StoppedIs(j: Job, now: int)
    ensures GivenUp(j, StoppedRow(j, now), now)
  {
    EndedIsOver(j.(notice := Some(REFRESH_INTERRUPTED)), now, false);
    hide TaskOver; hide EndedRow;
  }

  lemma RequeuedIs(j: Job, now: int)
    ensures WaitsAgain(j, RequeuedRow(j, now), now)
  {
    ResetStepsReset(j.steps, IsKind(j, Review));
    hide Reset; hide ResetSteps;
  }

  lemma LetGoOf(db: Db, id: Id, k: Job, now: int)
    requires id in db.jobs && StagingHere(db, id)
    ensures var after := PutJob(WithoutStaging(db, id, now), id, k);
      OneJob(db, after, id) && after.jobs[id] == k && WritesOff(db, after, id, db.jobs[id].nextRev.value, now)
  {
  }

  /** A claimed row that fails, is given up, or goes back to the queue. */
  lemma ClaimLetGo(db: Db, id: Id, error: string, now: int)
    requires id in db.jobs && RowInv(db.jobs[id]) && IsClaimed(db.jobs[id]) && StagingHere(db, id)
    ensures var j := db.jobs[id];
      && var failed, stopped := FailRow(db, id, error, now), StopSync(db, id, now);
      && failed.Done? && OneJob(db, failed.db, id) && WritesOff(db, failed.db, id, j.nextRev.value, now)
      && FailedWith(j, failed.db.jobs[id], error, now)
      && stopped.Done? && OneJob(db, stopped.db, id) && WritesOff(db, stopped.db, id, j.nextRev.value, now)
      && GivenUp(j, stopped.db.jobs[id], now)
  {
    var j := db.jobs[id];
    FailRowIs(db, id, error, now);
    StopSyncIs(db, id, now);
    hide *;
    LetGoOf(db, id, FailedRow(j, error, now), now);
    LetGoOf(db, id, StoppedRow(j, now), now);
    FailedIs(j, error, now);
    StoppedIs(j, now);
  }

  lemma ClaimWaitsAgain(db: Db, id: Id, now: int)
    requires id in db.jobs && RowInv(db.jobs[id]) && IsClaimed(db.jobs[id]) && StagingHere(db, id) && db.jobs[id].attempt < ATTEMPTS
    ensures var again := Requeue(db, id, now);
      && again.Done? && OneJob(db, again.db, id) && WritesOff(db, again.db, id, db.jobs[id].nextRev.value, now)
      && WaitsAgain(db.jobs[id], again.db.jobs[id], now)
  {
    RequeueIs(db, id, now);
    hide *;
    LetGoOf(db, id, RequeuedRow(db.jobs[id], now), now);
    RequeuedIs(db.jobs[id], now);
  }

  lemma ClaimRetried(db: Db, id: Id, now: int)
    requires id in db.jobs && RowInv(db.jobs[id]) && IsClaimed(db.jobs[id]) && StagingHere(db, id)
    ensures var e := RetrySync(db, id, now);
      && e.Done? && OneJob(db, e.db, id) && WritesOff(db, e.db, id, db.jobs[id].nextRev.value, now)
      && Retried(db.jobs[id], e.db.jobs[id], now)
  {
    ClaimLetGo(db, id, "", now);
    if db.jobs[id].attempt < ATTEMPTS {
      ClaimWaitsAgain(db, id, now);
    }
    hide RowInv; hide StopSync; hide Requeue; hide GivenUp; hide WaitsAgain; hide OneJob; hide WritesOff; hide FailRow;
  }

  lemma SameJobs(db: Db, id: Id)
    requires id in db.jobs
    ensures OneJob(db, db, id)
  {
  }

  /** The sweep of one claimed row, whatever its task: it never raises, and does just that. */
  lemma SweptAsStated(db: Db, id: Id, now: int)
    requires id in db.jobs && RowInv(db.jobs[id]) && IsClaimed(db.jobs[id]) && StagingHere(db, id)
    ensures SweepRow(db, id, now).Done? && Swept(db, SweepRow(db, id, now).db, id, now)
  {
    hide RowInv; hide StopSync; hide Requeue; hide RetrySync; hide FailRow;
    hide GivenUp; hide WaitsAgain; hide OneJob; hide WritesOff; hide FailedWith; hide Retried;
    SameJobs(db, id);
    if db.jobs[id].deadline.GetOr(0) <= now {
      ClaimLetGo(db, id, DEADLINE, now);
    } else if IsKind(db.jobs[id], Sync) {
      ClaimRetried(db, id, now);
    } else if db.jobs[id].attempt < ATTEMPTS {
      ClaimWaitsAgain(db, id, now);
    } else {
      ClaimLetGo(db, id, INTERRUPTED, now);
    }
  }

  /** What a runner's failure report does: nothing without the lease; a re-render is retried, any other
      task fails with the reported message. */
  lemma FailedAsStated(db: Db, id: Id, lease: Lease, error: string, now: int)
    requires id in db.jobs && IsClaimed(db.jobs[id]) ==> RowInv(db.jobs[id]) && StagingHere(db, id)
    ensures var call := FailTask(db, id, lease, error, now);
      if !Held(db, id, lease, now) then call == Answer(db, false)
      else
        var j := db.jobs[id];
        && call.Answer? && call.reply && OneJob(db, call.db, id)
        && j.nextRev.Some? && WritesOff(db, call.db, id, j.nextRev.value, now)
        && if j.taskKind == Some(Sync) then Retried(j, call.db.jobs[id], now) else FailedWith(j, call.db.jobs[id], error, now)
  {
    hide RowInv; hide RetrySync; hide FailRow; hide StopSync; hide OneJob; hide WritesOff; hide FailedWith; hide Retried; hide GivenUp;
    if Held(db, id, lease, now) {
      ClaimLetGo(db, id, error, now);
      ClaimRetried(db, id, now);
    }
  }

  // ---------------------------------------------------------------- claiming

  /** Less than a quarter of an hour of the person's token is left, or there is none. */
  predicate TokenTooShort(j: Job, now: int) {
    j.taskKind != Some(Sync)
    && (j.gatewayJwt == None || j.gatewayJwt == Some("") || j.gatewayExp == None || j.gatewayExp.value - now < 15 * MINUTE)
  }

  /** The row a runner is given: one more try, three minutes of lease, and a deadline of fifteen minutes
      for a re-render, else of three hours or ten minutes before the token ends. */
  predicate GivenOut(j: Job, k: Job, lease: Lease, rev: nat, now: int) {
    && k == j.(taskState := Some(Claimed), attempt := j.attempt + 1, lease := Some(lease), leaseExpires := Some(now + 3 * MINUTE),
               deadline := k.deadline, nextRev := Some(rev), updatedAt := now,
               status := if j.taskKind == Some(Process) then Processing else j.status)
    && k.deadline.Some?
    && if j.taskKind == Some(Sync) then k.deadline.value == now + 15 * MINUTE
       else
         && j.gatewayExp.Some? && k.deadline.value <= now + 3 * HOUR && k.deadline.value <= j.gatewayExp.value - 10 * MINUTE
         && k.deadline.value in {now + 3 * HOUR, j.gatewayExp.value - 10 * MINUTE}
  }

  /** A waiting row is given out exactly when its token lasts long enough; otherwise it fails for that. */
  lemma ClaimedAsStated(db: Db, id: Id, lease: Lease, highest: nat, now: int)
    requires id in db.jobs && RowInv(db.jobs[id]) && IsWaiting(db.jobs[id])
    ensures ClaimVerdict(db.jobs[id], now) == Grant <==> !TokenTooShort(db.jobs[id], now)
    ensures !TokenTooShort(db.jobs[id], now) ==>
              var after := GrantClaim(db, id, lease, highest, now);
              && OneJob(db, after, id) && GivenOut(db.jobs[id], after.jobs[id], lease, highest + 1, now)
              && after.attempts == db.attempts[(id, highest + 1) := Attempt(lease, Staging)] && after.cleanup == db.cleanup
    ensures TokenTooShort(db.jobs[id], now) ==>
              var e := Retire(db, id, now);
              && e.Done? && e.db == db.(jobs := e.db.jobs) && OneJob(db, e.db, id)
              && FailedWith(db.jobs[id], e.db.jobs[id], SIGN_IN_ENDING, now)
  {
    var j := db.jobs[id];
    assert HOUR == 60 * MINUTE;
    if TokenTooShort(j, now) {
      RetiredIs(db, id, now);
    }
    hide FailRow; hide FailedWith; hide FailedRow;
  }

  lemma RetiredIs(db: Db, id: Id, now: int)
    requires id in db.jobs && RowInv(db.jobs[id]) && IsWaiting(db.jobs[id])
    ensures var e := FailRow(db, id, SIGN_IN_ENDING, now);
      && e.Done? && e.db == db.(jobs := e.db.jobs) && OneJob(db, e.db, id)
      && FailedWith(db.jobs[id], e.db.jobs[id], SIGN_IN_ENDING, now)
  {
    FailRowIs(db, id, SIGN_IN_ENDING, now);
    FailedIs(db.jobs[id], SIGN_IN_ENDING, now);
    assert WithoutStaging(db, id, now) == db;
    hide FailRow; hide FailedRow; hide FailedWith;
  }

  /** A runner is given the oldest waiting review or re-render, and an upload only when there is none. */
  lemma QueueOrder(db: Db, first: Id, other: Id)
    requires NextInQueue(db, first) && other in db.jobs && db.jobs[other].taskState == Some(Waiting)
    requires db.jobs[first].taskKind.Some? && db.jobs[first].taskQueuedAt.Some?
    requires db.jobs[other].taskKind.Some? && db.jobs[other].taskQueuedAt.Some?
    ensures db.jobs[first].taskKind == Some(Process) ==> db.jobs[other].taskKind == Some(Process)
    ensures (db.jobs[first].taskKind == Some(Process) <==> db.jobs[other].taskKind == Some(Process)) ==>
              db.jobs[first].taskQueuedAt.value <= db.jobs[other].taskQueuedAt.value
  {
    assert QueuedBefore(db.jobs[first], db.jobs[other]);
  }

  // ---------------------------------------------------------------- the person's calls

  predicate IsOwn(db: Db, owner: string, id: Id) {
    id in db.jobs && db.jobs[id].owner == owner
  }

  /** Processing again for a review, with the status and steps to return to kept aside. */
  predicate UnderReview(j: Job, k: Job, action: ReviewAction, jwt: string, exp: int, now: int) {
    var r := j.(status := Processing, error := None, notice := None, prior := Some(Prior(j.status, j.steps)), steps := k.steps,
                gatewayJwt := Some(jwt), gatewayExp := Some(exp), updatedAt := now);
    && Reset(j.steps, k.steps, true)
    && if j.taskKind == Some(Sync) && j.taskState == Some(Claimed) then k == r.(pending := Some(PendingReview(action, jwt, exp)))
       else
         && OnlyItsTask(r, k) && JustQueued(k, Review, Some(action), now)
         && k.gatewayJwt == r.gatewayJwt && k.gatewayExp == r.gatewayExp && k.pending == None && k.prior == r.prior
  }

  predicate Reviewable(j: Job) {
    j.status in {Complete, ManualRemediation} && j.taskKind !in {Some(Process), Some(Review)} && j.pending == None
  }

  lemma QueuedIs(db: Db, id: Id, r: Job, kind: TaskKind, action: Option<ReviewAction>, now: int)
    requires id in db.jobs && TaskTransitionError(r, Enqueue) == None
    ensures QueueTask(PutJob(db, id, r), id, kind, action, now) == Done(PutJob(db, id, Enqueued(r, kind, action, now)))
  {
    hide Enqueued;
    PutPutJob(db, id, r, Enqueued(r, kind, action, now));
  }

  lemma ReviewAccepted(db: Db, owner: string, id: Id, action: ReviewAction, jwt: string, exp: int, now: int)
    requires IsOwn(db, owner, id) && RowInv(db.jobs[id]) && Reviewable(db.jobs[id])
    requires jwt != "" && exp - now >= HOUR && db.jobs[id].hasState
    ensures var call := QueueReview(db, owner, id, action, jwt, exp, now);
      && call.Answer? && call.reply == Accepted
      && OneJob(db, call.db, id) && call.db == db.(jobs := call.db.jobs)
      && UnderReview(db.jobs[id], call.db.jobs[id], action, jwt, exp, now)
  {
    var j := db.jobs[id];
    var r := Reviewing(j, jwt, exp, now);
    assert CredentialEligibility(Review, Some(jwt), Some(exp), now) == QueueEligible;
    ReviewingKeeps(j, action, jwt, exp, now);
    ReviewRowIs(j, action, jwt, exp, now);
    hide RowInv; hide Reviewing; hide UnderReview; hide JobAllows; hide Enqueued; hide OneJob; hide CredentialEligibility;
    hide TaskTransitionError; hide QueueTask;
    if IsKind(j, Sync) && IsClaimed(j) {
      OneJobPut(db, id, r.(pending := Some(PendingReview(action, jwt, exp))));
    } else {
      QueuedIs(db, id, r, Review, Some(action), now);
      OneJobPut(db, id, Enqueued(r, Review, Some(action), now));
    }
  }

  /** The answers to a review request, in the order they are looked for, and what an accepted one does. */
  lemma ReviewAsStated(db: Db, owner: string, id: Id, action: ReviewAction, jwt: string, exp: int, now: int)
    requires IsOwn(db, owner, id) ==> RowInv(db.jobs[id])
    ensures var call := QueueReview(db, owner, id, action, jwt, exp, now);
      && call.Answer?
      && if !IsOwn(db, owner, id) then call == Answer(db, Rejected(404, "Job not found"))
         else if !Reviewable(db.jobs[id]) then call.db == db && call.reply.Rejected? && call.reply.status == 409
         else if jwt == "" || exp - now < HOUR then call == Answer(db, Rejected(401, SIGN_IN_ENDING))
         else if !db.jobs[id].hasState then call.db == db && call.reply.Rejected? && call.reply.status == 409
         else
           && call.reply == Accepted && OneJob(db, call.db, id) && call.db == db.(jobs := call.db.jobs)
           && UnderReview(db.jobs[id], call.db.jobs[id], action, jwt, exp, now)
  {
    assert HOUR == QUEUE_MINIMUM;
    hide RowInv; hide Reviewing; hide UnderReview; hide JobAllows; hide Enqueued; hide OneJob; hide QueueTask;
    if IsOwn(db, owner, id) && Reviewable(db.jobs[id]) && jwt != "" && exp - now >= HOUR && db.jobs[id].hasState {
      ReviewAccepted(db, owner, id, action, jwt, exp, now);
    }
  }

  lemma ReviewRowIs(j: Job, action: ReviewAction, jwt: string, exp: int, now: int)
    requires RowInv(j) && Reviewable(j)
    ensures var r := Reviewing(j, jwt, exp, now);
      && (IsKind(j, Sync) && IsClaimed(j) ==> UnderReview(j, r.(pending := Some(PendingReview(action, jwt, exp))), action, jwt, exp, now))
      && (!(IsKind(j, Sync) && IsClaimed(j)) ==> UnderReview(j, Enqueued(r, Review, Some(action), now), action, jwt, exp, now))
  {
    ResetStepsReset(j.steps, true);
    hide Reset; hide ResetSteps;
  }

  /** The decision is layered on the views under the next version, and every other one stays. */
  ghost predicate Decided(j: Job, k: Job, kind: ItemKind, item: int, now: int) {
    && k.overridesVersion == j.overridesVersion + 1 && k.updatedAt == now
    && (forall x: ItemKind, i: int :: i in k.overrides.Of(x) <==> i in j.overrides.Of(x) || (x == kind && i == item))
    && (forall x: ItemKind, i: int | i in k.overrides.Of(x) ::
          k.overrides.Of(x)[i] == if x == kind && i == item then k.overridesVersion else j.overrides.Of(x)[i])
  }

  /** What an accepted keep or resolve makes of the row. */
  ghost predicate Kept(j: Job, k: Job, kind: ItemKind, item: int, now: int) {
    var r := j.(overrides := k.overrides, overridesVersion := k.overridesVersion, updatedAt := now);
    && Decided(j, k, kind, item, now)
    && if j.taskKind == None && j.hasState then
         && OnlyItsTask(r, k) && JustQueued(k, Sync, None, now)
         && k.gatewayJwt == r.gatewayJwt && k.gatewayExp == r.gatewayExp && k.pending == None && k.prior == None
       else k == r
  }

  lemma KeptRow(j: Job, kind: ItemKind, item: int, now: int)
    requires RowInv(j)
    ensures Kept(j, if j.taskKind == None && j.hasState then Enqueued(RecordedRow(j, kind, item, now), Sync, None, now)
                    else RecordedRow(j, kind, item, now), kind, item, now)
  {
    DecidedRow(j, kind, item, now);
    hide Decided;
  }

  lemma OverrideOnOwn(db: Db, owner: string, id: Id, kind: ItemKind, item: int, now: int)
    requires IsOwn(db, owner, id) && RowInv(db.jobs[id])
    ensures var j := db.jobs[id];
      SetOverride(db, owner, id, kind, item, now)
      == Answer(PutJob(db, id, if j.taskKind == None && j.hasState then Enqueued(RecordedRow(j, kind, item, now), Sync, None, now)
                               else RecordedRow(j, kind, item, now)), true)
  {
    hide Enqueued;
    var j := db.jobs[id];
    if j.taskKind == None && j.hasState {
      QueuedIs(db, id, RecordedRow(j, kind, item, now), Sync, None, now);
    }
  }

  /** A keep or resolve on one's own job is stored; with a saved state and no task it asks for a re-render. */
  lemma OverrideAsStated(db: Db, owner: string, id: Id, kind: ItemKind, item: int, now: int)
    requires IsOwn(db, owner, id) ==> RowInv(db.jobs[id])
    ensures var call := SetOverride(db, owner, id, kind, item, now);
      && call.Answer? && call.reply == IsOwn(db, owner, id)
      && if !IsOwn(db, owner, id) then call.db == db
         else
           && OneJob(db, call.db, id) && call.db == db.(jobs := call.db.jobs)
           && Kept(db.jobs[id], call.db.jobs[id], kind, item, now)
  {
    hide RowInv; hide Kept; hide OneJob; hide Enqueued; hide RecordedRow;
    if IsOwn(db, owner, id) {
      var j := db.jobs[id];
      OverrideOnOwn(db, owner, id, kind, item, now);
      KeptRow(j, kind, item, now);
      hide SetOverride;
      OneJobPut(db, id, if j.taskKind == None && j.hasState then Enqueued(RecordedRow(j, kind, item, now), Sync, None, now)
                        else RecordedRow(j, kind, item, now));
    }
  }

  lemma OneJobPut(db: Db, id: Id, k: Job)
    requires id in db.jobs
    ensures OneJob(db, PutJob(db, id, k), id)
  {
  }

  lemma DecidedRow(j: Job, kind: ItemKind, item: int, now: int)
    ensures Decided(j, RecordedRow(j, kind, item, now), kind, item, now)
    ensures Decided(j, Enqueued(RecordedRow(j, kind, item, now), Sync, None, now), kind, item, now)
  {
    var k := RecordedRow(j, kind, item, now);
    assert Enqueued(k, Sync, None, now).overrides == k.overrides;
  }

  /** Delete forgets one's own job, its receipts and its revisions, and hands its files to cleanup;
      anyone else's is left alone. */
  lemma DeleteAsStated(db: Db, owner: string, id: Id, now: int)
    ensures var call := DeleteJob(db, owner, id, now);
      && call.Answer? && call.reply == IsOwn(db, owner, id)
      && if !IsOwn(db, owner, id) then call.db == db
         else
           && call.db.jobs == db.jobs - {id} && call.db.uploads == db.uploads && call.db.writes == db.writes
           && (forall k: (Id, Lease) :: k in call.db.completions <==> k in db.completions && k.0 != id)
           && (forall k | k in call.db.completions :: call.db.completions[k] == db.completions[k])
           && (forall k: (Id, nat) :: k in call.db.attempts <==> k in db.attempts && k.0 != id)
           && (forall k | k in call.db.attempts :: call.db.attempts[k] == db.attempts[k])
           && call.db.cleanup == Recorded(db.cleanup, JobPrefix(id), now)
  {
  }

  // ---------------------------------------------------------------- admission

  predicate AtWork(j: Job) {
    j.status == Queued || j.status == Processing
  }

  /** The jobs at work, of everyone and of one person. */
  function AtWorkAll(db: Db): set<Id> {
    set id | id in db.jobs && AtWork(db.jobs[id])
  }

  function AtWorkOf(db: Db, owner: string): set<Id> {
    set id | id in AtWorkAll(db) && db.jobs[id].owner == owner
  }

  /** A job nobody has touched yet. */
  predicate Fresh(k: Job, owner: string, jwt: string, exp: int, now: int) {
    && k.owner == owner && k.status == Queued && k.error == None && k.notice == None && k.createdAt == k.updatedAt == now
    && ValidSteps(k.steps) && (forall i | 0 <= i < |k.steps| :: k.steps[i].status == Pending)
    && JustQueued(k, Process, None, now) && k.gatewayJwt == Some(jwt) && k.gatewayExp == Some(exp)
    && k.prior == None && k.pending == None && k.rev == 0 && k.files == [] && !k.hasState
    && k.overridesVersion == k.syncedVersion == 0 && k.overrides == Overlay(map[], map[])
  }

  /** An upload becomes a job exactly when its reservation lasts, its prefix is not being deleted, an
      hour of its person's token is left, and neither limit is reached. */
  lemma CreateAsStated(db: Db, id: Id, owner: string, jwt: string, exp: int, now: int)
    requires id in db.uploads ==> db.uploads[id].state == Stored && id !in db.jobs
    ensures var call := CreateJob(db, id, owner, jwt, exp, now);
      && call.Answer?
      && (call.reply == Admit <==>
            && id in db.uploads && db.uploads[id].expires > now && JobPrefix(id) !in db.cleanup
            && exp - now >= HOUR && |AtWorkOf(db, owner)| < 3 && |AtWorkAll(db)| < 12)
      && if call.reply == Admit then
           && call.db.jobs == db.jobs[id := call.db.jobs[id]] && Fresh(call.db.jobs[id], owner, jwt, exp, now)
           && call.db == db.(jobs := call.db.jobs, uploads := db.uploads - {id}, writes := db.writes - {OfUpload(id)})
         else call.db == db
  {
    assert AtWorkAll(db) == ActiveAll(db) && AtWorkOf(db, owner) == ActiveOf(db, owner);
    assert HOUR == QUEUE_MINIMUM;
    PipelineIsSeven();
    PendingStepsAre();
    hide ValidSteps; hide ActiveAll; hide ActiveOf; hide AtWorkAll; hide AtWorkOf; hide PendingSteps;
  }

  /** A reservation lasts three minutes and counts as a write under way; given up or expired, it leaves
      its files to cleanup, and only giving up says that nothing more will be written. */
  lemma ReservationsAsStated(db: Db, id: Id, now: int)
    ensures ReserveUpload(db, id, now)
         == db.(uploads := db.uploads[id := Upload(now + 3 * MINUTE, Receiving)], writes := db.writes[OfUpload(id) := JobPrefix(id)])
    ensures id in db.jobs ==> AbandonUpload(db, id, now) == Done(db)
    ensures id !in db.jobs && (id !in db.uploads || db.uploads[id].state in {Receiving, Stored}) ==>
              AbandonUpload(db, id, now)
              == Done(db.(uploads := db.uploads - {id}, writes := db.writes - {OfUpload(id)},
                          cleanup := Recorded(db.cleanup, JobPrefix(id), now)))
    ensures id in db.uploads && db.uploads[id].state in {Receiving, Stored} ==>
              ExpireUpload(db, id, now)
              == Done(db.(uploads := db.uploads - {id}, cleanup := Recorded(db.cleanup, JobPrefix(id), now)))
  {
  }

  // ---------------------------------------------------------------- a runner's other calls

  /** A held lease is renewed for three minutes from now, and a model call under it gets the person's
      token unless the task is a re-render; without the lease nothing happens and nothing is told. */
  lemma LeaseCallsAsStated(db: Db, id: Id, lease: Lease, now: int)
    requires id in db.jobs && IsClaimed(db.jobs[id]) ==> RowInv(db.jobs[id])
    ensures var held := Held(db, id, lease, now);
      && RenewLease(db, id, lease, now)
         == (if held then db.(jobs := db.jobs[id := db.jobs[id].(leaseExpires := Some(now + 3 * MINUTE), updatedAt := now)]) else db)
      && RelayCredential(db, id, lease, now)
         == (if held && db.jobs[id].taskKind != Some(Sync) then db.jobs[id].gatewayJwt else None)
      && (held && db.jobs[id].taskKind != Some(Sync) ==> RelayCredential(db, id, lease, now).Some?)
  {
    if Held(db, id, lease, now) && db.jobs[id].taskKind != Some(Sync) {
      var j := db.jobs[id];
      match j.taskKind.value
      case Process =>
      case Review =>
    }
  }

  /** An artifact write starts exactly under a held lease, and is listed until it ends; if by then the
      lease is lost and no result was filed under it, what it wrote goes to cleanup. */
  lemma ArtifactWritesAsStated(db: Db, id: Id, lease: Lease, token: string, now: int)
    requires id in db.jobs && IsClaimed(db.jobs[id]) ==> RowInv(db.jobs[id]) && StagingHere(db, id)
    ensures var begun := BeginArtifactUpload(db, id, lease, token, now);
      && begun.Answer? && (begun.reply <==> Held(db, id, lease, now))
      && begun.db == if begun.reply then db.(writes := db.writes[OfArtifact(token) := RevPrefix(id, NextRevision(db.jobs[id]))]) else db
    ensures var after := EndArtifactUpload(db, id, lease, token, now);
      && after == db.(writes := db.writes - {OfArtifact(token)}, cleanup := after.cleanup)
      && after.cleanup
         == if OfArtifact(token) in db.writes && !Held(db, id, lease, now) && (id, lease) !in db.completions
            then Recorded(db.cleanup, db.writes[OfArtifact(token)], now) else db.cleanup
  {
  }

  // ---------------------------------------------------------------- completion, up to the store check

  /** A refused review: back to the status and steps it came from, with the reason for a notice. */
  predicate SentBack(j: Job, k: Job, reason: string, now: int) {
    && j.prior.Some?
    && TaskOver(j.(status := j.prior.value.status, steps := j.prior.value.steps, notice := Some(reason), updatedAt := now), k, now, true)
  }

  lemma RefusedIs(j: Job, reason: string, now: int)
    requires j.prior.Some?
    ensures SentBack(j, RefusedRow(j, reason, now), reason, now)
  {
    EndedIsOver(j.(status := j.prior.value.status, steps := j.prior.value.steps, notice := Some(reason), updatedAt := now), now, true);
    hide TaskOver; hide EndedRow;
  }

  lemma RefusalOf(db: Db, id: Id, lease: Lease, result: CompleteRequest, now: int)
    requires id in db.jobs && RowInv(db.jobs[id]) && IsKind(db.jobs[id], Review) && IsClaimed(db.jobs[id]) && StagingHere(db, id)
    requires (id, lease) !in db.completions && result.Refused? && OutputReady(db.jobs[id].prior.value.status)
    ensures var call := RefuseReview(db, id, lease, result, now);
      && call.Answer? && call.reply == Accepted
      && call.db.completions == db.completions[(id, lease) := result]
      && OneJob(db.(completions := call.db.completions), call.db, id)
      && WritesOff(db, call.db, id, db.jobs[id].nextRev.value, now)
      && SentBack(db.jobs[id], call.db.jobs[id], result.reason, now)
  {
    var j := db.jobs[id];
    var marked := j.(status := j.prior.value.status, steps := j.prior.value.steps, notice := Some(result.reason), updatedAt := now);
    var recorded := db.(completions := db.completions[(id, lease) := result]);
    assert PutJob(recorded, id, marked) == PutJob(db, id, marked).(completions := recorded.completions);
    EndTaskIs(PutJob(recorded, id, marked), id, now, true);
    DroppedIgnoresTheRest(recorded, id, marked, now);
    PutPutJob(WithoutStaging(recorded, id, now), id, marked, RefusedRow(j, result.reason, now));
    assert JobAllows(j.status, j.prior.value.status);
    LetGoOf(recorded, id, RefusedRow(j, result.reason, now), now);
    RefusedIs(j, result.reason, now);
    hide RowInv; hide EndTask; hide JobAllows; hide WithoutStaging; hide SentBack; hide OneJob; hide RefusedRow; hide TaskOver;
  }

  lemma ManifestIsAsReported(result: CompleteRequest)
    requires result.Finished?
    ensures AsReported(Manifest(result), result)
  {
  }

  /** The answers of `complete` to a result, in the order they are looked for; one that passes them all
      waits for the store's word on every file it reports, under the revision its lease was given. */
  lemma ResultAsStated(db: Db, id: Id, lease: Lease, result: CompleteRequest, now: int)
    requires id in db.jobs && IsClaimed(db.jobs[id]) ==> RowInv(db.jobs[id])
    requires result.Finished?
    ensures var opening := CompleteOpen(db, id, lease, result, now);
      if result.job.status !in {Complete, ManualRemediation, Failed} then Refuses(db, opening, 422)
      else if (id, lease) in db.completions
      then opening == Answered(Answer(db, if db.completions[(id, lease)] == result then Accepted else CONFLICT))
      else if !Held(db, id, lease, now) then opening == Answered(Answer(db, NOT_HELD))
      else if ValidSteps(result.job.steps) && (forall name | name in result.files :: IsRunnerFileName(name))
      then opening.AwaitStore? && AsReported(opening.files, result) && Some(opening.rev) == db.jobs[id].nextRev
      else Refuses(db, opening, 422)
  {
    if Held(db, id, lease, now) {
      assert db.jobs[id].taskKind.Some? && db.jobs[id].nextRev.Some?;
    }
    hide RowInv; hide ValidSteps; hide Manifest; hide IsRunnerFileName; hide AsReported;
    RunnerNames(result);
  }

  predicate Refuses(db: Db, opening: Opening, status: nat) {
    opening.Answered? && opening.call.Answer? && opening.call.db == db && opening.call.reply.Rejected? && opening.call.reply.status == status
  }

  /** The same for a runner that refuses a review: only a review of a result that was ready can be sent
      back to it. */
  lemma RefusalAsStated(db: Db, id: Id, lease: Lease, result: CompleteRequest, now: int)
    requires id in db.jobs && IsClaimed(db.jobs[id]) ==> RowInv(db.jobs[id]) && StagingHere(db, id)
    requires result.Refused?
    ensures var opening := CompleteOpen(db, id, lease, result, now);
      if (id, lease) in db.completions
      then opening == Answered(Answer(db, if db.completions[(id, lease)] == result then Accepted else CONFLICT))
      else if !Held(db, id, lease, now) then opening == Answered(Answer(db, NOT_HELD))
      else
        var j := db.jobs[id];
        if j.taskKind != Some(Review) || j.prior.value.status !in {Complete, ManualRemediation} then Refuses(db, opening, 409)
        else
          && opening.Answered? && opening.call.Answer? && opening.call.reply == Accepted
          && var after := opening.call.db;
          && after.completions == db.completions[(id, lease) := result] && OneJob(db.(completions := after.completions), after, id)
          && WritesOff(db, after, id, j.nextRev.value, now) && SentBack(j, after.jobs[id], result.reason, now)
  {
    if Held(db, id, lease, now) && (id, lease) !in db.completions {
      var j := db.jobs[id];
      assert j.taskKind.Some? && (j.taskKind == Some(Review) ==> j.prior.Some?);
      if j.taskKind == Some(Review) {
        if OutputReady(j.prior.value.status) {
          RefusalOf(db, id, lease, result, now);
        } else {
          NotReadyRefusal(db, id, lease, result, now);
        }
      }
    }
    hide RowInv; hide RefuseReview; hide SentBack; hide OneJob; hide WritesOff;
  }

  lemma NotReadyRefusal(db: Db, id: Id, lease: Lease, result: CompleteRequest, now: int)
    requires id in db.jobs && result.Refused? && db.jobs[id].prior.Some? && !OutputReady(db.jobs[id].prior.value.status)
    ensures RefuseReview(db, id, lease, result, now)
         == Answer(db, Rejected(409, "Review refusal requires a prior terminal result"))
  {
  }

  lemma RunnerNames(result: CompleteRequest)
    ensures result.Finished? ==> AsReported(Manifest(result), result)
    ensures result.Finished? ==>
              ((forall name | name in result.files :: IsRunnerFileName(name)) <==> (forall name | name in Manifest(result) :: IsRunnerFileName(name)))
  {
    if result.Finished? {
      ManifestIsAsReported(result);
      assert IsRunnerFileName(STATE_FILE);
      hide IsRunnerFileName; hide Manifest;
    }
  }
}
