/** What every job row keeps, and why no guard of the board raises on such a row. */
module BoardRows {
  import opened Wrappers
  import opened Contract
  import opened Steps
  import opened Lifecycles
  import opened Credential
  import opened Keys
  import opened BoardTables

  predicate IsKind(j: Job, kind: TaskKind) {
    j.taskKind == Some(kind)
  }

  predicate IsClaimed(j: Job) {
    j.taskState == Some(Claimed)
  }

  predicate IsWaiting(j: Job) {
    j.taskState == Some(Waiting)
  }

  /** A task's columns come and go together. */
  predicate TaskColumns(j: Job) {
    && (j.taskKind.Some? <==> j.taskState.Some?)
    && (IsClaimed(j) <==> j.lease.Some?)
    && (j.lease.Some? <==> j.leaseExpires.Some?)
    && (j.lease.Some? <==> j.deadline.Some?)
    && (j.lease.Some? <==> j.nextRev.Some?)
    && (j.nextRev.Some? ==> j.nextRev.value > j.rev)
    && (j.action.Some? <==> IsKind(j, Review))
    && (j.pending.Some? ==> IsKind(j, Sync) && IsClaimed(j))
    && (j.prior.Some? <==> IsKind(j, Review) || j.pending.Some?)
  }

  /** Two tries per task. */
  predicate Attempts(j: Job) {
    && (j.taskKind == None ==> j.attempt == 0)
    && (IsWaiting(j) ==> j.attempt < ATTEMPTS)
    && (IsClaimed(j) ==> 1 <= j.attempt <= ATTEMPTS)
  }

  /** The status a person sees says exactly what the task columns say. */
  predicate StatusMatches(j: Job) {
    && (j.status == Queued <==> IsKind(j, Process) && IsWaiting(j))
    && (j.status == Processing <==> (IsKind(j, Process) && IsClaimed(j)) || IsKind(j, Review) || j.pending.Some?)
    && (IsKind(j, Sync) && j.pending == None ==> OutputReady(j.status))
    && (j.prior.Some? ==> Terminal(j.prior.value.status))
    && (OutputReady(j.status) || j.prior.Some? ==> j.rev > 0)
  }

  /** The person's token is kept only for work that calls models as the person, and outlives it. */
  predicate Token(j: Job) {
    && (j.gatewayJwt.Some? <==> IsKind(j, Process) || IsKind(j, Review) || j.pending.Some?)
    && (j.gatewayJwt.Some? <==> j.gatewayExp.Some?)
    && (IsClaimed(j) && !IsKind(j, Sync) ==>
          j.gatewayJwt != Some("") && j.deadline.GetOr(0) <= j.gatewayExp.GetOr(0) - GATEWAY_MARGIN)
  }

  /** Stored decisions are the ones newer than the rendered views; a job left with some of them
      unrendered says so. */
  predicate OverlayRow(j: Job) {
    && j.syncedVersion <= j.overridesVersion
    && (forall kind: ItemKind, item | item in j.overrides.Of(kind) ::
          j.syncedVersion < j.overrides.Of(kind)[item] <= j.overridesVersion)
    && (j.taskKind == None && Dirty(j) ==> j.notice == Some(REFRESH_INTERRUPTED))
  }

  predicate RowInv(j: Job) {
    TaskColumns(j) && Attempts(j) && StatusMatches(j) && Token(j) && OverlayRow(j)
  }

  /** The names are those of the files reported, and of the state's archive if there is one, each once. */
  ghost predicate AsReported(files: seq<string>, result: CompleteRequest)
    requires result.Finished?
  {
    && (forall name: string :: name in files <==> name in result.files || (result.hasState && name == STATE_FILE))
    && (forall a, b | 0 <= a < b < |files| :: files[a] != files[b])
  }

  // ---------------------------------------------------------------- the end of a task, as a row

  function EndedRow(j: Job, now: int, dirtySync: bool): Job {
    var row := Cleared(j);
    if row.pending.Some? then
      var waiting := row.pending.value;
      Enqueued(row.(pending := None, gatewayJwt := Some(waiting.jwt), gatewayExp := Some(waiting.exp)),
               Review, Some(waiting.action), now)
    else if dirtySync && Dirty(row) then Enqueued(row, Sync, None, now)
    else row
  }

  function WithoutStaging(db: Db, id: Id, now: int): Db
    requires id in db.jobs
  {
    var rev := db.jobs[id].nextRev;
    if HasAttempt(db, id, rev) && db.attempts[(id, rev.value)].state == Staging then
      RequestCleanup(
        db.(attempts := db.attempts[(id, rev.value) := db.attempts[(id, rev.value)].(state := Abandoned)]),
        RevPrefix(id, rev.value), now + GRACE_MS)
    else db
  }

  lemma DropStagingIs(db: Db, id: Id, now: int)
    requires id in db.jobs
    ensures DropStaging(db, id, now) == Done(WithoutStaging(db, id, now))
  {
  }

  /** Ending any running task raises nothing, whatever else the row says. */
  lemma EndTaskIs(db: Db, id: Id, now: int, dirtySync: bool)
    requires id in db.jobs && db.jobs[id].taskState.Some?
    ensures EndTask(db, id, now, dirtySync) == Done(PutJob(WithoutStaging(db, id, now), id, EndedRow(db.jobs[id], now, dirtySync)))
  {
    var j := db.jobs[id];
    var row := Cleared(j);
    var dropped := WithoutStaging(db, id, now);
    DropStagingIs(db, id, now);
    hide DropStaging; hide WithoutStaging; hide Dirty;
    if row.pending.Some? {
      var waiting := row.pending.value;
      var next := row.(pending := None, gatewayJwt := Some(waiting.jwt), gatewayExp := Some(waiting.exp));
      var put := PutJob(dropped, id, next);
      assert put.jobs[id] == next;
      assert PutJob(put, id, EndedRow(j, now, dirtySync)) == PutJob(dropped, id, EndedRow(j, now, dirtySync));
    } else if dirtySync && Dirty(row) {
      var put := PutJob(dropped, id, row);
      assert put.jobs[id] == row;
      assert PutJob(put, id, EndedRow(j, now, dirtySync)) == PutJob(dropped, id, EndedRow(j, now, dirtySync));
    }
  }

  function FailedRow(j: Job, error: string, now: int): Job {
    EndedRow(j.(status := Failed, error := Some(error), steps := FailSteps(j.steps, error, now),
                updatedAt := now, pending := None), now, true)
  }

  function RequeuedRow(j: Job, now: int): Job {
    j.(taskState := Some(Waiting), taskQueuedAt := Some(now), lease := None, leaseExpires := None,
       deadline := None, nextRev := None, status := if IsKind(j, Process) then Queued else j.status,
       steps := if IsKind(j, Sync) then j.steps else ResetSteps(j.steps, IsKind(j, Review)))
  }

  function StoppedRow(j: Job, now: int): Job {
    EndedRow(j.(notice := Some(REFRESH_INTERRUPTED)), now, false)
  }

  function RefusedRow(j: Job, reason: string, now: int): Job
    requires j.prior.Some?
  {
    EndedRow(j.(status := j.prior.value.status, steps := j.prior.value.steps, notice := Some(reason), updatedAt := now),
             now, true)
  }

  lemma PutPutJob(db: Db, id: Id, a: Job, b: Job)
    ensures PutJob(PutJob(db, id, a), id, b) == PutJob(db, id, b)
  {
  }

  lemma DroppedIgnoresTheRest(db: Db, id: Id, j: Job, now: int)
    requires id in db.jobs && j.nextRev == db.jobs[id].nextRev
    ensures WithoutStaging(PutJob(db, id, j), id, now) == PutJob(WithoutStaging(db, id, now), id, j)
  {
  }

  /** On a row that keeps its invariant, failing, requeueing and stopping never raise. */
  lemma FailRowIs(db: Db, id: Id, error: string, now: int)
    requires id in db.jobs && RowInv(db.jobs[id]) && db.jobs[id].taskState.Some?
    ensures FailRow(db, id, error, now) == Done(PutJob(WithoutStaging(db, id, now), id, FailedRow(db.jobs[id], error, now)))
  {
    var j := db.jobs[id];
    var marked := j.(status := Failed, error := Some(error), steps := FailSteps(j.steps, error, now),
                     updatedAt := now, pending := None);
    EndTaskIs(PutJob(db, id, marked), id, now, true);
    DroppedIgnoresTheRest(db, id, marked, now);
    PutPutJob(WithoutStaging(db, id, now), id, marked, FailedRow(j, error, now));
  }

  lemma StopSyncIs(db: Db, id: Id, now: int)
    requires id in db.jobs && db.jobs[id].taskState.Some?
    ensures StopSync(db, id, now) == Done(PutJob(WithoutStaging(db, id, now), id, StoppedRow(db.jobs[id], now)))
  {
    var j := db.jobs[id];
    var marked := j.(notice := Some(REFRESH_INTERRUPTED));
    EndTaskIs(PutJob(db, id, marked), id, now, false);
    DroppedIgnoresTheRest(db, id, marked, now);
    PutPutJob(WithoutStaging(db, id, now), id, marked, StoppedRow(j, now));
  }

  predicate StagingHere(db: Db, id: Id)
    requires id in db.jobs
  {
    HasAttempt(db, id, db.jobs[id].nextRev) && db.attempts[(id, db.jobs[id].nextRev.value)].state == Staging
  }

  lemma RequeueIs(db: Db, id: Id, now: int)
    requires id in db.jobs && RowInv(db.jobs[id]) && IsClaimed(db.jobs[id]) && db.jobs[id].attempt < ATTEMPTS
    requires StagingHere(db, id)
    ensures Requeue(db, id, now) == Done(PutJob(WithoutStaging(db, id, now), id, RequeuedRow(db.jobs[id], now)))
  {
  }

  // ---------------------------------------------------------------- rows keep their invariant

  lemma NewRowKeeps(owner: string, jwt: string, exp: int, now: int)
    ensures RowInv(NewRow(owner, jwt, exp, now))
  {
  }

  lemma EndedKeepsOverlay(j: Job, now: int, dirtySync: bool)
    requires OverlayRow(j.(taskKind := Some(Process)))
    requires dirtySync || j.notice == Some(REFRESH_INTERRUPTED)
    ensures OverlayRow(EndedRow(j, now, dirtySync))
  {
    assert EndedRow(j, now, dirtySync).overrides == j.overrides;
    assert j.(taskKind := Some(Process)).overrides == j.overrides;
  }

  /** A row whose task ends, with a status its columns allow once the task is gone. */
  lemma EndedKeeps(j: Job, now: int, dirtySync: bool)
    requires OverlayRow(j.(taskKind := Some(Process)))
    requires dirtySync || j.notice == Some(REFRESH_INTERRUPTED)
    requires j.pending == None ==> Terminal(j.status) && (OutputReady(j.status) ==> j.rev > 0)
    requires j.pending.Some? ==> j.status == Processing && j.rev > 0 && j.prior.Some? && Terminal(j.prior.value.status)
    ensures RowInv(EndedRow(j, now, dirtySync))
  {
    EndedKeepsOverlay(j, now, dirtySync);
  }

  lemma FailedKeeps(j: Job, error: string, now: int)
    requires RowInv(j)
    ensures RowInv(FailedRow(j, error, now))
  {
    var marked := j.(status := Failed, error := Some(error), steps := FailSteps(j.steps, error, now),
                     updatedAt := now, pending := None);
    assert marked.(taskKind := Some(Process)).overrides == j.overrides;
    EndedKeeps(marked, now, true);
  }

  lemma StoppedKeeps(j: Job, now: int)
    requires RowInv(j) && IsKind(j, Sync)
    ensures RowInv(StoppedRow(j, now))
  {
    var marked := j.(notice := Some(REFRESH_INTERRUPTED));
    assert marked.(taskKind := Some(Process)).overrides == j.overrides;
    EndedKeeps(marked, now, false);
  }

  lemma RefusedKeeps(j: Job, reason: string, now: int)
    requires RowInv(j) && IsKind(j, Review) && IsClaimed(j)
    ensures RowInv(RefusedRow(j, reason, now))
  {
    var marked := j.(status := j.prior.value.status, steps := j.prior.value.steps, notice := Some(reason), updatedAt := now);
    assert marked.(taskKind := Some(Process)).overrides == j.overrides;
    EndedKeeps(marked, now, true);
  }

  lemma RequeuedKeeps(j: Job, now: int)
    requires RowInv(j) && IsClaimed(j) && j.attempt < ATTEMPTS && j.pending == None
    ensures RowInv(RequeuedRow(j, now))
  {
    assert RequeuedRow(j, now).overrides == j.overrides;
  }

  lemma ClaimedKeeps(j: Job, lease: Lease, nextRev: nat, now: int)
    requires RowInv(j) && IsWaiting(j) && ClaimVerdict(j, now) == Grant && nextRev > j.rev
    ensures RowInv(ClaimedRow(j, lease, nextRev, now))
  {
    assert ClaimedRow(j, lease, nextRev, now).overrides == j.overrides;
  }

  lemma NewerKeeps(entries: map<int, nat>, version: nat)
    ensures forall item :: item in Newer(entries, version) <==> item in entries && entries[item] > version
    ensures forall item | item in Newer(entries, version) :: Newer(entries, version)[item] == entries[item]
  {
  }

  /** Publication: the committed row, before and after its task ends. */
  lemma PublishedKeeps(j: Job, result: CompleteRequest, files: seq<string>, now: int)
    requires RowInv(j) && IsClaimed(j) && result.Finished? && Terminal(result.job.status)
    requires j.syncedVersion <= result.overridesVersion <= j.overridesVersion
    requires j.nextRev.value > 0
    ensures RowInv(EndedRow(PublishedRow(j, result, files, now), now, true))
    ensures JobAllows(j.status, if j.pending.Some? then j.status else result.job.status)
  {
    var p := PublishedRow(j, result, files, now);
    var q := p.(taskKind := Some(Process));
    NewerKeeps(j.overrides.changes, result.overridesVersion);
    NewerKeeps(j.overrides.tasks, result.overridesVersion);
    forall kind: ItemKind, item | item in q.overrides.Of(kind)
      ensures q.syncedVersion < q.overrides.Of(kind)[item] <= q.overridesVersion
    {
      assert item in j.overrides.Of(kind) && q.overrides.Of(kind)[item] == j.overrides.Of(kind)[item];
    }
    EndedKeeps(p, now, true);
    match j.taskKind.value
    case Process =>
    case Review =>
    case Sync =>
  }

  /** The row of an accepted keep or resolve. */
  function RecordedRow(j: Job, kind: ItemKind, item: int, now: int): Job {
    var version := j.overridesVersion + 1;
    j.(overrides := j.overrides.Record(kind, item, version), overridesVersion := version, updatedAt := now)
  }

  lemma RecordedOverlay(j: Job, kind: ItemKind, item: int, now: int)
    requires OverlayRow(j)
    ensures var k := RecordedRow(j, kind, item, now);
      forall x: ItemKind, i | i in k.overrides.Of(x) :: k.syncedVersion < k.overrides.Of(x)[i] <= k.overridesVersion
  {
    var k := RecordedRow(j, kind, item, now);
    forall x: ItemKind, i | i in k.overrides.Of(x) ensures k.syncedVersion < k.overrides.Of(x)[i] <= k.overridesVersion {
      if !(x == kind && i == item) {
        assert i in j.overrides.Of(x);
      }
    }
  }

  lemma RecordKeeps(j: Job, kind: ItemKind, item: int, now: int)
    requires RowInv(j) && !(j.status == Failed && j.hasState)
    ensures var recorded := RecordedRow(j, kind, item, now);
      && (j.taskKind == None && j.hasState ==> RowInv(Enqueued(recorded, Sync, None, now)))
      && (j.taskKind.Some? || !j.hasState ==> RowInv(recorded))
  {
    RecordedOverlay(j, kind, item, now);
    var recorded := RecordedRow(j, kind, item, now);
    assert Enqueued(recorded, Sync, None, now).overrides == recorded.overrides;
  }

  lemma ReviewingKeeps(j: Job, action: ReviewAction, jwt: string, exp: int, now: int)
    requires RowInv(j) && !ReviewBusy(j)
    ensures var r := Reviewing(j, jwt, exp, now);
      && (IsKind(j, Sync) && IsClaimed(j) ==> RowInv(r.(pending := Some(PendingReview(action, jwt, exp)))))
      && (!(IsKind(j, Sync) && IsClaimed(j)) ==>
            TaskTransitionError(r, Enqueue) == None && RowInv(Enqueued(r, Review, Some(action), now)))
      && JobAllows(j.status, Processing)
  {
    var r := Reviewing(j, jwt, exp, now);
    if j.taskKind.Some? {
      match j.taskKind.value
      case Process =>
      case Review =>
      case Sync =>
    }
    assert r.overrides == j.overrides;
    assert Enqueued(r, Review, Some(action), now).overrides == j.overrides;
    assert r.(pending := Some(PendingReview(action, jwt, exp))).overrides == j.overrides;
  }

  lemma RenewedKeeps(j: Job, steps: seq<Step>, expires: int, now: int)
    requires RowInv(j) && IsClaimed(j)
    ensures RowInv(j.(steps := steps, leaseExpires := Some(expires), updatedAt := now))
  {
    assert j.(steps := steps, leaseExpires := Some(expires), updatedAt := now).overrides == j.overrides;
  }

  /** A row that keeps its invariant is never retired as inconsistent at claim. */
  lemma ClaimNeverFindsAnInconsistentRow(j: Job, now: int)
    requires RowInv(j) && IsWaiting(j)
    ensures ClaimVerdict(j, now) != RetireInconsistent
  {
  }
}
