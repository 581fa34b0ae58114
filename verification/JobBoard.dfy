/** worker/src/board.ts as the object it is: six tables updated in place. Each method is proved to
    leave exactly the tables its function in BoardTables describes, and to raise exactly when it does. */
module JobBoard {
  import opened Wrappers
  import opened Contract
  import opened Steps
  import opened Lifecycles
  import opened Credential
  import opened Keys
  import opened BoardTables
  import opened BoardRows
  import opened Outcomes
  import opened FileStore

  /** The rows still waiting for a runner. */
  function WaitingIds(db: Db): set<Id> {
    set id | id in db.jobs && db.jobs[id].taskState == Some(Waiting)
  }

  /** A claim retires these rows, one after another, each the next in the queue at its turn. */
  ghost predicate Retires(db: Db, ids: seq<Id>, now: int, after: Db)
    decreases |ids|
  {
    if ids == [] then after == db
    else
      && NextInQueue(db, ids[0]) && ClaimVerdict(db.jobs[ids[0]], now) != Grant
      && Retire(db, ids[0], now).Done?
      && Retires(Retire(db, ids[0], now).db, ids[1..], now, after)
  }

  lemma {:induction false} RetiresOneMore(db: Db, ids: seq<Id>, id: Id, now: int, mid: Db, after: Db)
    requires Retires(db, ids, now, mid)
    requires NextInQueue(mid, id) && ClaimVerdict(mid.jobs[id], now) != Grant && Retire(mid, id, now) == Done(after)
    ensures Retires(db, ids + [id], now, after)
    decreases |ids|
  {
    if ids == [] {
      assert [id][1..] == [];
    } else {
      hide Retire; hide NextInQueue;
      RetiresOneMore(Retire(db, ids[0], now).db, ids[1..], id, now, mid, after);
      assert (ids + [id])[1..] == ids[1..] + [id];
    }
  }

  /** A retired row leaves the queue, and no row joins it: the claim loop ends. */
  lemma RetireShrinksTheQueue(db: Db, id: Id, now: int)
    requires id in db.jobs && db.jobs[id].taskState == Some(Waiting) && Retire(db, id, now).Done?
    ensures WaitingIds(Retire(db, id, now).db) == WaitingIds(db) - {id}
  {
    hide FailSteps; hide ClaimVerdict;
  }

  /** No claim past its lease or its deadline. */
  predicate Current(row: Job, now: int) {
    row.taskState == Some(Claimed) ==> row.deadline.GetOr(0) > now && row.leaseExpires.GetOr(0) > now
  }

  /** The two tables agree on every job but one, and on the uploads. */
  ghost predicate OnlyRow(before: Db, after: Db, id: Id) {
    && after.jobs.Keys == before.jobs.Keys && after.uploads == before.uploads
    && forall other | other in before.jobs && other != id :: after.jobs[other] == before.jobs[other]
  }

  predicate NotClaimed(row: Job) {
    row.taskState != Some(Claimed)
  }

  /** A helper that touches one row, and ends its claim unless it raises. */
  ghost predicate Ends(db: Db, e: Exec, id: Id)
    requires id in db.jobs
  {
    OnlyRow(db, e.db, id) && (e.Done? ==> NotClaimed(e.db.jobs[id]))
  }

  lemma EndedIsNotClaimed(j: Job, now: int, dirtySync: bool)
    ensures NotClaimed(EndedRow(j, now, dirtySync))
  {
    hide Dirty;
  }

  lemma EndTaskEndsTheClaim(db: Db, id: Id, now: int, dirtySync: bool)
    requires id in db.jobs
    ensures var e := EndTask(db, id, now, dirtySync);
      Ends(db, e, id)
  {
    if db.jobs[id].taskState.Some? {
      EndTaskIs(db, id, now, dirtySync);
      EndedIsNotClaimed(db.jobs[id], now, dirtySync);
      hide EndTask; hide EndedRow;
    }
  }

  lemma FailRowEndsTheClaim(db: Db, id: Id, error: string, now: int)
    requires id in db.jobs
    ensures var e := FailRow(db, id, error, now);
      Ends(db, e, id)
  {
    hide EndTask; hide FailSteps; hide TaskTransitionError; hide NotClaimed;
    var row := db.jobs[id];
    var marked := PutJob(db, id, row.(status := Failed, error := Some(error), steps := FailSteps(row.steps, error, now),
                                      updatedAt := now, pending := None));
    EndTaskEndsTheClaim(marked, id, now, true);
  }

  lemma StopSyncEndsTheClaim(db: Db, id: Id, now: int)
    requires id in db.jobs
    ensures var e := StopSync(db, id, now);
      Ends(db, e, id)
  {
    hide EndTask; hide NotClaimed;
    EndTaskEndsTheClaim(PutJob(db, id, db.jobs[id].(notice := Some(REFRESH_INTERRUPTED))), id, now, false);
  }

  lemma RequeueEndsTheClaim(db: Db, id: Id, now: int)
    requires id in db.jobs
    ensures var e := Requeue(db, id, now);
      Ends(db, e, id)
  {
    hide ResetSteps; hide TaskTransitionError; hide JobAllows;
  }

  lemma RetrySyncEndsTheClaim(db: Db, id: Id, now: int)
    requires id in db.jobs
    ensures var e := RetrySync(db, id, now);
      Ends(db, e, id)
  {
    hide StopSync; hide Requeue; hide NotClaimed; hide OnlyRow;
    StopSyncEndsTheClaim(db, id, now);
    RequeueEndsTheClaim(db, id, now);
  }

  lemma SweepRowEndsOrWaits(db: Db, id: Id, now: int)
    requires id in db.jobs
    ensures if Current(db.jobs[id], now) then SweepRow(db, id, now) == Done(db) else Ends(db, SweepRow(db, id, now), id)
  {
    hide FailRow; hide StopSync; hide Requeue; hide RetrySync; hide Ends;
    FailRowEndsTheClaim(db, id, DEADLINE, now);
    FailRowEndsTheClaim(db, id, INTERRUPTED, now);
    StopSyncEndsTheClaim(db, id, now);
    RequeueEndsTheClaim(db, id, now);
    RetrySyncEndsTheClaim(db, id, now);
  }

  /** One row of the sweep touches that row alone, even when it raises, and leaves it current; with its
      claim in order it does not raise, and the row, its revision and its deletion are as stated. */
  lemma SweepRowSettles(db: Db, id: Id, now: int)
    requires id in db.jobs
    ensures var e := SweepRow(db, id, now);
      && OnlyRow(db, e.db, id) && (e.Done? ==> Current(e.db.jobs[id], now))
      && (Current(db.jobs[id], now) ==> e == Done(db))
      && (IsClaimed(db.jobs[id]) && RowInv(db.jobs[id]) && StagingHere(db, id) ==> e.Done? && Swept(db, e.db, id, now))
  {
    hide SweepRow; hide RowInv; hide Swept;
    SweepRowEndsOrWaits(db, id, now);
    if IsClaimed(db.jobs[id]) && RowInv(db.jobs[id]) && StagingHere(db, id) {
      SweptAsStated(db, id, now);
    }
  }

  /** The revision of a claim that is past its lease or its deadline, among the rows already gone through. */
  predicate WrittenOff(before: Db, rest: set<Id>, id: Id, rev: nat, now: int) {
    id in before.jobs && id !in rest && Overdue(before.jobs[id], now) && before.jobs[id].nextRev == Some(rev)
  }

  ghost predicate RowsSwept(before: Db, after: Db, rest: set<Id>, now: int) {
    && after.jobs.Keys == before.jobs.Keys
    && forall id | id in before.jobs ::
         if id in rest then after.jobs[id] == before.jobs[id] else SweptRow(before.jobs[id], after.jobs[id], now)
  }

  ghost predicate RevisionsSwept(before: Db, after: Db, rest: set<Id>, now: int) {
    && after.attempts.Keys == before.attempts.Keys
    && forall k | k in before.attempts ::
         after.attempts[k] == if WrittenOff(before, rest, k.0, k.1, now) then before.attempts[k].(state := Abandoned) else before.attempts[k]
  }

  ghost predicate DeletionsSwept(before: Db, after: Db, rest: set<Id>, now: int) {
    && (forall p :: p in after.cleanup <==> p in before.cleanup || (p.RevPrefix? && WrittenOff(before, rest, p.id, p.rev, now)))
    && forall p | p in after.cleanup ::
         after.cleanup[p] == if p in before.cleanup then before.cleanup[p] else Cleanup(DeletionRequested, now + 5 * MINUTE)
  }

  /** All tables, once the sweep has gone through every claim but these. */
  ghost predicate SweptBut(before: Db, after: Db, rest: set<Id>, now: int) {
    && RowsSwept(before, after, rest, now)
    && RevisionsSwept(before, after, rest, now)
    && DeletionsSwept(before, after, rest, now)
    && after.completions == before.completions && after.uploads == before.uploads && after.writes == before.writes
  }

  lemma SweepStarts(db: Db, rest: set<Id>, now: int)
    requires forall id | id in db.jobs && IsClaimed(db.jobs[id]) :: id in rest
    ensures SweptBut(db, db, rest, now)
  {
  }

  lemma RowsSweptOneMore(before: Db, mid: Db, after: Db, rest: set<Id>, id: Id, now: int)
    requires RowsSwept(before, mid, rest, now) && id in rest && id in before.jobs && Swept(mid, after, id, now)
    ensures RowsSwept(before, after, rest - {id}, now)
  {
    hide SweptRow; hide WritesOff;
  }

  lemma RevisionsSweptOneMore(before: Db, mid: Db, after: Db, rest: set<Id>, id: Id, now: int)
    requires RowsSwept(before, mid, rest, now) && RevisionsSwept(before, mid, rest, now)
    requires id in rest && id in before.jobs && Swept(mid, after, id, now)
    ensures RevisionsSwept(before, after, rest - {id}, now)
  {
    hide SweptRow; hide Recorded;
  }

  lemma DeletionsSweptOneMore(before: Db, mid: Db, after: Db, rest: set<Id>, id: Id, now: int)
    requires RowsSwept(before, mid, rest, now) && DeletionsSwept(before, mid, rest, now)
    requires id in rest && id in before.jobs && Swept(mid, after, id, now)
    ensures DeletionsSwept(before, after, rest - {id}, now)
  {
    hide SweptRow;
  }

  lemma SweptOneMore(before: Db, mid: Db, after: Db, rest: set<Id>, id: Id, now: int)
    requires SweptBut(before, mid, rest, now) && id in rest && id in before.jobs && Swept(mid, after, id, now)
    ensures SweptBut(before, after, rest - {id}, now)
  {
    RowsSweptOneMore(before, mid, after, rest, id, now);
    RevisionsSweptOneMore(before, mid, after, rest, id, now);
    DeletionsSweptOneMore(before, mid, after, rest, id, now);
    hide RowsSwept; hide RevisionsSwept; hide DeletionsSwept; hide SweptRow; hide WritesOff;
  }

  lemma StillInOrder(before: Db, mid: Db, rest: set<Id>, id: Id, now: int)
    requires ClaimsInOrder(before) && SweptBut(before, mid, rest, now) && id in rest && id in before.jobs && IsClaimed(before.jobs[id])
    ensures id in mid.jobs && mid.jobs[id] == before.jobs[id] && RowInv(mid.jobs[id]) && StagingHere(mid, id)
  {
    hide RowInv; hide SweptRow;
  }

  /** The sweep dates no row back. */
  lemma SweptTimes(before: Db, after: Db, now: int)
    requires RowsSwept(before, after, {}, now)
    ensures forall id | id in before.jobs :: after.jobs[id].updatedAt == before.jobs[id].updatedAt || after.jobs[id].updatedAt == now
  {
    hide Taskless; hide JustQueued; hide BrokenOff; hide Reset;
  }

  /** One turn of the loop over the claims. */
  lemma SweepTurn(before: Db, mid: Db, rest: set<Id>, id: Id, now: int)
    requires ClaimsInOrder(before) && SweptBut(before, mid, rest, now) && id in rest && id in before.jobs && IsClaimed(before.jobs[id])
    ensures SweepRow(mid, id, now).Done? && SweptBut(before, SweepRow(mid, id, now).db, rest - {id}, now)
  {
    hide SweepRow; hide RowInv; hide SweptBut; hide ClaimsInOrder; hide Swept;
    StillInOrder(before, mid, rest, id, now);
    SweptAsStated(mid, id, now);
    SweptOneMore(before, mid, SweepRow(mid, id, now).db, rest, id, now);
  }

  /** The cleanup records left once those prefixes were emptied. */
  function RecordsLeft(db: Db, cleaned: set<Prefix>, failing: Failures): set<Prefix> {
    set p | p in db.cleanup && (p !in cleaned || p in failing || Outstanding(db, p))
  }

  function PastRetentionIds(db: Db, now: int): set<Id> {
    set id | id in db.jobs && PastRetention(db, id, now)
  }

  /** The entries of a table keyed by job that belong to none of these jobs. */
  function WithoutJobs<K(==), V>(table: map<(Id, K), V>, ids: set<Id>): map<(Id, K), V> {
    map k | k in table && k.0 !in ids :: table[k]
  }

  lemma WithoutNoJobs<K, V>(table: map<(Id, K), V>)
    ensures WithoutJobs(table, {}) == table
  {
  }

  lemma WithoutOneMoreJob<K, V>(table: map<(Id, K), V>, ids: set<Id>, id: Id)
    ensures WithoutJobs(table, ids + {id})
         == map k | k in WithoutJobs(table, ids) && k.0 != id :: WithoutJobs(table, ids)[k]
  {
  }

  lemma ForgetLeaves(db: Db, id: Id, now: int)
    ensures var after := Forget(db, id, now);
      && after == Db(db.jobs - {id}, after.completions, after.attempts, after.cleanup, db.uploads, db.writes)
      && after.attempts == (map k | k in db.attempts && k.0 != id :: db.attempts[k])
      && after.completions == (map k | k in db.completions && k.0 != id :: db.completions[k])
      && JobPrefix(id) in after.cleanup && forall p | p in db.cleanup :: p in after.cleanup && after.cleanup[p] == db.cleanup[p]
  {
  }

  lemma RecordsLeftOneMore(db: Db, cleaned: set<Prefix>, p: Prefix, failing: Failures)
    requires p in RecordsLeft(db, cleaned, failing) && p !in cleaned
    ensures RecordsLeft(db, cleaned + {p}, failing)
         == if p in failing || Outstanding(db, p) then RecordsLeft(db, cleaned, failing) else RecordsLeft(db, cleaned, failing) - {p}
  {
    hide Outstanding;
  }

  /** How far `cleanFiles` is once it went through these prefixes. */
  ghost predicate Progressed(start: Db, files: Files, db: Db, objects: Files, cleaned: set<Prefix>, failing: Failures) {
    && db == start.(cleanup := db.cleanup)
    && objects == Remaining(files, cleaned, failing)
    && db.cleanup.Keys == RecordsLeft(start, cleaned, failing)
    && (forall p | p in db.cleanup :: p in start.cleanup && db.cleanup[p].notBefore == start.cleanup[p].notBefore)
    && (forall p | p in db.cleanup && p !in cleaned :: db.cleanup[p] == start.cleanup[p])
    && (forall p | p in cleaned && p in failing :: p in db.cleanup && db.cleanup[p].state == DeleteFailed)
  }

  lemma ProgressStarts(start: Db, files: Files, failing: Failures)
    ensures Progressed(start, files, start, files, {}, failing)
  {
    RemainingNothing(files, failing);
    RecordsLeftAtFirst(start, failing);
    hide Remaining; hide RecordsLeft;
  }

  lemma NotYetGone(start: Db, files: Files, db: Db, objects: Files, cleaned: set<Prefix>, p: Prefix, failing: Failures)
    requires Progressed(start, files, db, objects, cleaned, failing) && p in start.cleanup && p !in cleaned
    ensures p in db.cleanup
  {
    StillThere(start, cleaned, p, failing);
    hide Remaining; hide RecordsLeft;
  }

  /** One entry of the loop. */
  ghost predicate EntryDone(before: Db, after: Db, p: Prefix, failing: Failures) {
    && after == before.(cleanup := after.cleanup)
    && after.cleanup.Keys == (if p in failing || Outstanding(before, p) then before.cleanup.Keys else before.cleanup.Keys - {p})
    && (p in failing ==> p in after.cleanup && after.cleanup[p].state == DeleteFailed)
    && forall q | q in after.cleanup ::
         && q in before.cleanup && after.cleanup[q].notBefore == before.cleanup[q].notBefore
         && (q != p ==> after.cleanup[q] == before.cleanup[q])
  }

  lemma ProgressStep(start: Db, files: Files, before: Db, objects: Files, after: Db, left: Files,
                     cleaned: set<Prefix>, p: Prefix, failing: Failures)
    requires Progressed(start, files, before, objects, cleaned, failing) && p in before.cleanup && p !in cleaned
    requires EntryDone(before, after, p, failing) && left == Emptied(objects, p, failing)
    ensures Progressed(start, files, after, left, cleaned + {p}, failing)
  {
    OutstandingIgnoresCleanup(start, before.cleanup, p);
    RecordsLeftOneMore(start, cleaned, p, failing);
    RemainingOneMore(files, cleaned, p, failing);
    hide Remaining; hide RecordsLeft; hide Outstanding; hide Emptied;
  }

  lemma ProgressEnds(start: Db, files: Files, db: Db, objects: Files, cleaned: set<Prefix>, failing: Failures)
    requires Progressed(start, files, db, objects, cleaned, failing)
    ensures objects == Remaining(files, cleaned, failing) && db.cleanup.Keys == RecordsLeft(start, cleaned, failing)
    ensures forall p | p in cleaned && p in failing :: p in db.cleanup && db.cleanup[p].state == DeleteFailed
    ensures forall p | p in db.cleanup :: p in start.cleanup && db.cleanup[p].notBefore == start.cleanup[p].notBefore
    ensures forall p | p in db.cleanup && p !in cleaned :: db.cleanup[p] == start.cleanup[p]
  {
    hide Remaining; hide RecordsLeft;
  }

  lemma DueIs(db: Db, now: int)
    ensures forall p :: p in Due(db, now) <==> p in db.cleanup && db.cleanup[p].notBefore <= now
  {
  }

  lemma RecordsLeftAtFirst(db: Db, failing: Failures)
    ensures RecordsLeft(db, {}, failing) == db.cleanup.Keys
  {
  }

  lemma StillThere(db: Db, cleaned: set<Prefix>, p: Prefix, failing: Failures)
    requires p in db.cleanup && p !in cleaned
    ensures p in RecordsLeft(db, cleaned, failing)
  {
  }

  lemma OutstandingIgnoresCleanup(db: Db, records: map<Prefix, Cleanup>, p: Prefix)
    ensures Outstanding(db.(cleanup := records), p) == Outstanding(db, p)
  {
  }

  /** A re-render's reports are taken and forgotten; any other task's must fit its steps. */
  ghost predicate TakesReport(j: Job, event: ProgressEvent) {
    j.taskKind == Some(Sync) || Ignored(event) || exists k: nat :: Recordable(event, j.steps, k)
  }

  ghost predicate ShowsReport(j: Job, k: Job, event: ProgressEvent, now: int) {
    && k == j.(steps := k.steps, leaseExpires := Some(now + LEASE_MS), updatedAt := now)
    && if j.taskKind == Some(Sync) then k.steps == j.steps else Tells(j.steps, k.steps, event, now)
  }

  class Board {
    var jobs: map<Id, Job>
    var completions: map<(Id, Lease), CompleteRequest>
    var attempts: map<(Id, nat), Attempt>
    var cleanup: map<Prefix, Cleanup>
    var uploads: map<Id, Upload>
    var writes: map<WriteId, Prefix>

    function Tables(): Db
      reads this
    {
      Db(jobs, completions, attempts, cleanup, uploads, writes)
    }

    constructor ()
      ensures Tables() == EmptyDb
    {
      jobs, completions, attempts, cleanup, uploads, writes := map[], map[], map[], map[], map[], map[];
    }

    // -------------------------------------------------------------- private helpers

    method ArtifactTransition(id: Id, rev: Option<nat>, target: ArtifactState) returns (raised: bool)
      modifies this`attempts
      ensures var e := BoardTables.ArtifactTransition(old(Tables()), id, rev, target);
        Tables() == e.db && raised == e.Threw?
    {
      if !HasAttempt(Tables(), id, rev) {
        return false;
      }
      var stored := attempts[(id, rev.value)];
      if !ArtifactAllows(stored.state, target) {
        return true;
      }
      attempts := attempts[(id, rev.value) := stored.(state := target)];
      return false;
    }

    method RequestCleanup(prefix: Prefix, notBefore: int)
      modifies this`cleanup
      ensures Tables() == BoardTables.RequestCleanup(old(Tables()), prefix, notBefore)
    {
      if prefix !in cleanup {
        cleanup := cleanup[prefix := Cleanup(DeletionRequested, notBefore)];
      }
    }

    method QueueTask(id: Id, kind: TaskKind, action: Option<ReviewAction>, now: int) returns (raised: bool)
      modifies this`jobs
      ensures var e := BoardTables.QueueTask(old(Tables()), id, kind, action, now);
        Tables() == e.db && raised == e.Threw?
    {
      if id !in jobs || TaskTransitionError(jobs[id], Enqueue).Some? {
        return true;
      }
      jobs := jobs[id := Enqueued(jobs[id], kind, action, now)];
      return false;
    }

    /** The columns are cleared, the staging dropped, and a review or an overdue re-render queued. */
    method EndTask(id: Id, now: int, dirtySync: bool) returns (raised: bool)
      modifies this`jobs, this`attempts, this`cleanup
      ensures var e := BoardTables.EndTask(old(Tables()), id, now, dirtySync);
        Tables() == e.db && raised == e.Threw?
    {
      hide Cleared; hide Dirty; hide BoardTables.QueueTask; hide BoardTables.RequestCleanup; hide TaskTransitionError;
      if id !in jobs || TaskTransitionError(jobs[id], End).Some? {
        return true;
      }
      var current := jobs[id];
      if HasAttempt(Tables(), id, current.nextRev) && attempts[(id, current.nextRev.value)].state == Staging {
        raised := ArtifactTransition(id, current.nextRev, Abandoned);
        if raised {
          return;
        }
        RequestCleanup(RevPrefix(id, current.nextRev.value), now + GRACE_MS);
      }
      ghost var dropped := Tables();
      assert DropStaging(old(Tables()), id, now) == Done(dropped);
      hide DropStaging;
      jobs := jobs[id := Cleared(current)];
      var row := jobs[id];
      assert Tables() == PutJob(dropped, id, row);
      if row.pending.Some? {
        var waiting := row.pending.value;
        jobs := jobs[id := row.(pending := None, gatewayJwt := Some(waiting.jwt), gatewayExp := Some(waiting.exp))];
        assert Tables() == PutJob(dropped, id, jobs[id]);
        raised := QueueTask(id, Review, Some(waiting.action), now);
      } else if dirtySync && Dirty(row) {
        raised := QueueTask(id, Sync, None, now);
      } else {
        raised := false;
      }
    }

    method FailRow(id: Id, error: string, now: int) returns (raised: bool)
      modifies this`jobs, this`attempts, this`cleanup
      ensures var e := BoardTables.FailRow(old(Tables()), id, error, now);
        Tables() == e.db && raised == e.Threw?
    {
      hide BoardTables.EndTask; hide FailSteps; hide TaskTransitionError; hide JobAllows;
      if id !in jobs || TaskTransitionError(jobs[id], End).Some? || !JobAllows(jobs[id].status, Failed) {
        return true;
      }
      var row := jobs[id];
      var marked := row.(status := Failed, error := Some(error), steps := FailSteps(row.steps, error, now),
                         updatedAt := now);
      jobs := jobs[id := marked];
      jobs := jobs[id := jobs[id].(pending := None)];
      assert Tables() == PutJob(old(Tables()), id, marked.(pending := None));
      raised := EndTask(id, now, true);
    }

    method Requeue(id: Id, now: int) returns (raised: bool)
      modifies this`jobs, this`attempts, this`cleanup
      ensures var e := BoardTables.Requeue(old(Tables()), id, now);
        Tables() == e.db && raised == e.Threw?
    {
      if id !in jobs || TaskTransitionError(jobs[id], Retry).Some? {
        return true;
      }
      var row := jobs[id];
      raised := ArtifactTransition(id, row.nextRev, Abandoned);
      if raised {
        return;
      }
      if row.nextRev.Some? {
        RequestCleanup(RevPrefix(id, row.nextRev.value), now + GRACE_MS);
      }
      var status := if row.taskKind == Some(Process) then Queued else row.status;
      if !JobAllows(row.status, status) {
        return true;
      }
      jobs := jobs[id := row.(taskState := Some(Waiting), taskQueuedAt := Some(now), lease := None, leaseExpires := None,
                              deadline := None, nextRev := None, status := status,
                              steps := if row.taskKind == Some(Sync) then row.steps
                                       else ResetSteps(row.steps, row.taskKind == Some(Review)))];
      return false;
    }

    method StopSync(id: Id, now: int) returns (raised: bool)
      modifies this`jobs, this`attempts, this`cleanup
      ensures var e := BoardTables.StopSync(old(Tables()), id, now);
        Tables() == e.db && raised == e.Threw?
    {
      if id !in jobs {
        return true;
      }
      jobs := jobs[id := jobs[id].(notice := Some(REFRESH_INTERRUPTED))];
      raised := EndTask(id, now, false);
    }

    method RetrySync(id: Id, now: int) returns (raised: bool)
      modifies this`jobs, this`attempts, this`cleanup
      ensures var e := BoardTables.RetrySync(old(Tables()), id, now);
        Tables() == e.db && raised == e.Threw?
    {
      if id !in jobs {
        return true;
      }
      if jobs[id].pending.Some? || jobs[id].attempt >= ATTEMPTS {
        raised := StopSync(id, now);
      } else {
        raised := Requeue(id, now);
      }
    }

    method Forget(id: Id, now: int)
      modifies this`jobs, this`attempts, this`cleanup, this`completions
      ensures Tables() == BoardTables.Forget(old(Tables()), id, now)
    {
      RequestCleanup(JobPrefix(id), now);
      completions := map k | k in completions && k.0 != id :: completions[k];
      jobs := jobs - {id};
      attempts := map k | k in attempts && k.0 != id :: attempts[k];
    }

    // -------------------------------------------------------------- uploads

    method ReserveUpload(id: Id, now: int)
      modifies this`uploads, this`writes
      ensures Tables() == BoardTables.ReserveUpload(old(Tables()), id, now)
      ensures forall p | Contains(p, JobPrefix(id)) :: Outstanding(Tables(), p)
    {
      uploads := uploads[id := Upload(now + LEASE_MS, Receiving)];
      writes := writes[OfUpload(id) := JobPrefix(id)];
      assert OfUpload(id) in writes && writes[OfUpload(id)] == JobPrefix(id);
    }

    method MarkUploadStored(id: Id) returns (raised: bool, reply: QueueResult)
      modifies this`uploads
      ensures var c := BoardTables.MarkUploadStored(old(Tables()), id);
        Tables() == c.db && raised == c.Throw? && (!raised ==> reply == c.reply)
      ensures raised <==> id in old(uploads) && old(uploads)[id].state != Receiving
      ensures reply == Accepted && !raised ==> id in uploads && uploads[id] == old(uploads)[id].(state := Stored)
    {
      if id !in uploads {
        return false, Rejected(409, "Upload reservation expired");
      }
      if !UploadAllows(uploads[id].state, Stored) {
        return true, Accepted;
      }
      uploads := uploads[id := uploads[id].(state := Stored)];
      return false, Accepted;
    }

    method CreateJob(id: Id, owner: string, jwt: string, exp: int, now: int) returns (raised: bool, admission: Admission)
      modifies this`jobs, this`uploads, this`writes
      ensures var c := BoardTables.CreateJob(old(Tables()), id, owner, jwt, exp, now);
        Tables() == c.db && raised == c.Throw? && (!raised ==> admission == c.reply)
    {
      raised, admission := false, Admit;
      if id !in uploads || uploads[id].expires <= now {
        return false, SignInEnding;
      }
      if JobPrefix(id) in cleanup {
        return false, Global;
      }
      if !UploadAllows(uploads[id].state, Admitted) {
        return true, Admit;
      }
      admission := AdmitUpload(Tables(), owner, exp, now);
      if admission != Admit {
        return;
      }
      if id in jobs {
        return true, Admit;
      }
      jobs := jobs[id := NewRow(owner, jwt, exp, now)];
      uploads := uploads[id := uploads[id].(state := Admitted)];
      uploads := uploads - {id};
      writes := writes - {OfUpload(id)};
    }

    method AbandonUpload(id: Id, now: int) returns (raised: bool)
      modifies this`uploads, this`writes, this`cleanup
      ensures var e := BoardTables.AbandonUpload(old(Tables()), id, now);
        Tables() == e.db && raised == e.Threw?
    {
      if id in jobs {
        return false;
      }
      if id in uploads && !UploadAllows(uploads[id].state, Dropped) {
        return true;
      }
      uploads := uploads - {id};
      writes := writes - {OfUpload(id)};
      RequestCleanup(JobPrefix(id), now);
      return false;
    }

    // -------------------------------------------------------------- the person's calls

    method DeleteJob(owner: string, id: Id, now: int) returns (deleted: bool)
      modifies this`jobs, this`attempts, this`cleanup, this`completions
      ensures BoardTables.DeleteJob(old(Tables()), owner, id, now) == Answer(Tables(), deleted)
    {
      if !Owned(Tables(), owner, id) {
        return false;
      }
      Forget(id, now);
      return true;
    }

    method SetOverride(owner: string, id: Id, kind: ItemKind, item: int, now: int) returns (raised: bool, known: bool)
      modifies this`jobs
      ensures var c := BoardTables.SetOverride(old(Tables()), owner, id, kind, item, now);
        Tables() == c.db && raised == c.Throw? && (!raised ==> known == c.reply)
    {
      if !Owned(Tables(), owner, id) {
        return false, false;
      }
      var row := jobs[id];
      var version := row.overridesVersion + 1;
      jobs := jobs[id := row.(overrides := row.overrides.Record(kind, item, version),
                              overridesVersion := version, updatedAt := now)];
      raised, known := false, true;
      if row.taskKind == None && row.hasState {
        raised := QueueTask(id, Sync, None, now);
      }
    }

    method QueueReview(owner: string, id: Id, action: ReviewAction, jwt: string, exp: int, now: int)
      returns (raised: bool, reply: QueueResult)
      modifies this`jobs
      ensures var c := BoardTables.QueueReview(old(Tables()), owner, id, action, jwt, exp, now);
        Tables() == c.db && raised == c.Throw? && (!raised ==> reply == c.reply)
    {
      hide Reviewing; hide CredentialEligibility; hide JobAllows; hide ReviewBusy; hide BoardTables.QueueTask;
      raised, reply := false, Accepted;
      if !Owned(Tables(), owner, id) {
        return false, Rejected(404, "Job not found");
      }
      var row := jobs[id];
      if ReviewBusy(row) {
        return false, Rejected(409, "Accessibility processing is already running for this PDF.");
      }
      if CredentialEligibility(Review, Some(jwt), Some(exp), now) != QueueEligible {
        return false, Rejected(401, SIGN_IN_ENDING);
      }
      if !row.hasState {
        return false, Rejected(409, "This PDF can no longer be changed in the app.");
      }
      if !JobAllows(row.status, Processing) {
        return true, Accepted;
      }
      jobs := jobs[id := Reviewing(row, jwt, exp, now)];
      if row.taskKind == Some(Sync) && row.taskState == Some(Claimed) {
        jobs := jobs[id := jobs[id].(pending := Some(PendingReview(action, jwt, exp)))];
        assert jobs == old(jobs)[id := Reviewing(row, jwt, exp, now).(pending := Some(PendingReview(action, jwt, exp)))];
      } else {
        assert Tables() == PutJob(old(Tables()), id, Reviewing(row, jwt, exp, now));
        raised := QueueTask(id, Review, Some(action), now);
      }
    }

    // -------------------------------------------------------------- claiming

    /** The queue query: re-renders and reviews before uploads, oldest first. */
    method FirstWaiting() returns (first: Option<Id>)
      ensures first.Some? ==> NextInQueue(Tables(), first.value)
      ensures first == None ==> WaitingIds(Tables()) == {}
    {
      var rest := WaitingIds(Tables());
      first := None;
      while rest != {}
        invariant rest <= WaitingIds(Tables())
        invariant first == None ==> rest == WaitingIds(Tables())
        invariant first.Some? ==>
                    && first.value in WaitingIds(Tables())
                    && forall id | id in WaitingIds(Tables()) - rest :: QueuedBefore(jobs[first.value], jobs[id])
        decreases rest
      {
        var id :| id in rest;
        if first == None || !QueuedBefore(jobs[first.value], jobs[id]) {
          first := Some(id);
        }
        rest := rest - {id};
      }
    }

    /** `MAX(rev)` over the revisions known for a job. */
    method HighestRevision(id: Id) returns (highest: nat)
      requires id in jobs
      ensures IsHighest(Tables(), id, highest)
    {
      highest := if jobs[id].rev >= jobs[id].nextRev.GetOr(0) then jobs[id].rev else jobs[id].nextRev.GetOr(0);
      assert KnownRevision(Tables(), id, highest);
      var rest: set<(Id, nat)> := attempts.Keys;
      while rest != {}
        invariant rest <= attempts.Keys
        invariant KnownRevision(Tables(), id, highest)
        invariant jobs[id].rev <= highest && jobs[id].nextRev.GetOr(0) <= highest
        invariant forall k | k in attempts.Keys - rest && k.0 == id :: k.1 <= highest
        decreases rest
      {
        var k: (Id, nat) :| k in rest;
        if k.0 == id && k.1 > highest {
          highest := k.1;
        }
        rest := rest - {k};
      }
      forall r: nat | KnownRevision(Tables(), id, r) ensures r <= highest {
        if (id, r) in attempts {
          assert (id, r) in attempts.Keys - rest;
        }
      }
    }

    /** Grants the first task in queue order. Rows that cannot be claimed are retired on the way;
        each leaves the queue, so the loop ends with a grant or an empty queue. */
    method Claim(lease: Lease, now: int) returns (raised: bool, granted: Option<Id>, ghost retired: seq<Id>, ghost queue: Db)
      modifies this`jobs, this`attempts, this`cleanup
      ensures !raised ==> Retires(old(Tables()), retired, now, queue)
      ensures !raised && granted == None ==> Tables() == queue && WaitingIds(queue) == {}
      ensures !raised && granted.Some? ==>
                && NextInQueue(queue, granted.value) && ClaimVerdict(queue.jobs[granted.value], now) == Grant
                && exists highest: nat ::
                     IsHighest(queue, granted.value, highest)
                     && Tables() == GrantClaim(queue, granted.value, lease, highest, now)
    {
      raised, granted, retired, queue := false, None, [], Tables();
      while true
        invariant !raised && granted == None && queue == Tables()
        invariant Retires(old(Tables()), retired, now, queue)
        decreases |WaitingIds(Tables())|
      {
        var first := FirstWaiting();
        if first == None {
          return;
        }
        var id := first.value;
        var verdict := ClaimVerdict(jobs[id], now);
        if verdict != Grant {
          ghost var before := Tables();
          raised := FailRow(id, if verdict == RetireSignIn then SIGN_IN_ENDING else INCONSISTENT, now);
          if raised {
            return;
          }
          RetiresOneMore(old(Tables()), retired, id, now, before, Tables());
          RetireShrinksTheQueue(before, id, now);
          assert id in WaitingIds(before);
          retired, queue := retired + [id], Tables();
        } else {
          var highest := HighestRevision(id);
          attempts := attempts[(id, highest + 1) := Attempt(lease, Staging)];
          jobs := jobs[id := ClaimedRow(jobs[id], lease, highest + 1, now)];
          granted := Some(id);
          return;
        }
      }
    }

    // -------------------------------------------------------------- a runner's calls

    method CheckLease(id: Id, lease: Lease, now: int, renew: bool) returns (held: Option<nat>)
      modifies this`jobs
      ensures Tables() == if renew then RenewLease(old(Tables()), id, lease, now) else old(Tables())
      ensures held == if Held(old(Tables()), id, lease, now) then Some(NextRevision(old(jobs)[id])) else None
    {
      if !Held(Tables(), id, lease, now) {
        return None;
      }
      held := Some(NextRevision(jobs[id]));
      if renew {
        jobs := jobs[id := jobs[id].(leaseExpires := Some(now + LEASE_MS), updatedAt := now)];
      }
    }

    /** A report under a held lease renews the lease, and shows in the steps unless the task is a
        re-render; a report the steps cannot take is refused, and nothing moves. */
    method Progress(id: Id, lease: Lease, event: ProgressEvent, now: int) returns (raised: bool, reply: QueueResult)
      modifies this`jobs
      ensures var c := BoardTables.Progress(old(Tables()), id, lease, event, now);
        Tables() == c.db && raised == c.Throw? && (!raised ==> reply == c.reply)
      ensures var held := Held(old(Tables()), id, lease, now);
        && (raised <==> held && old(jobs)[id].taskKind == None)
        && (!held ==> reply == NOT_HELD)
        && (held && !raised ==> if TakesReport(old(jobs)[id], event) then reply == Accepted else reply.Rejected? && reply.status == 422)
        && if held && !raised && reply == Accepted
           then id in jobs && Tables() == PutJob(old(Tables()), id, jobs[id]) && ShowsReport(old(jobs)[id], jobs[id], event, now)
           else Tables() == old(Tables())
    {
      if !Held(Tables(), id, lease, now) {
        return false, NOT_HELD;
      }
      var row := jobs[id];
      if TaskTransitionError(row, Renew).Some? {
        return true, Accepted;
      }
      var applied := if row.taskKind == Some(Sync) then Ok(row.steps) else ApplyStepProgress(row.steps, event, now);
      ProgressTellsTheReport(row.steps, event, now);
      hide ApplyStepProgress; hide Recordable; hide Tells; hide Ignored;
      if applied.Raised? {
        return false, Rejected(422, applied.message);
      }
      jobs := jobs[id := row.(steps := applied.value, leaseExpires := Some(now + LEASE_MS), updatedAt := now)];
      return false, Accepted;
    }

    method Fail(id: Id, lease: Lease, error: string, now: int) returns (raised: bool, known: bool)
      modifies this`jobs, this`attempts, this`cleanup
      ensures var c := FailTask(old(Tables()), id, lease, error, now);
        Tables() == c.db && raised == c.Throw? && (!raised ==> known == c.reply)
    {
      if !Held(Tables(), id, lease, now) {
        return false, false;
      }
      known := true;
      if jobs[id].taskKind == Some(Sync) {
        raised := RetrySync(id, now);
      } else {
        raised := FailRow(id, error, now);
      }
    }

    method RecordCompletion(id: Id, lease: Lease, result: CompleteRequest) returns (raised: bool)
      modifies this`completions
      ensures var e := BoardTables.RecordCompletion(old(Tables()), id, lease, result);
        Tables() == e.db && raised == e.Threw?
    {
      if (id, lease) in completions {
        return true;
      }
      completions := completions[(id, lease) := result];
      return false;
    }

    method RefuseReview(id: Id, lease: Lease, result: CompleteRequest, now: int) returns (raised: bool, reply: QueueResult)
      requires id in jobs && result.Refused?
      modifies this`jobs, this`attempts, this`cleanup, this`completions
      ensures var c := BoardTables.RefuseReview(old(Tables()), id, lease, result, now);
        Tables() == c.db && raised == c.Throw? && (!raised ==> reply == c.reply)
    {
      var row := jobs[id];
      if row.prior == None || !OutputReady(row.prior.value.status) {
        return false, Rejected(409, "Review refusal requires a prior terminal result");
      }
      if !JobAllows(row.status, row.prior.value.status) {
        return true, Accepted;
      }
      jobs := jobs[id := row.(status := row.prior.value.status, steps := row.prior.value.steps,
                              notice := Some(result.reason), updatedAt := now)];
      reply := Accepted;
      raised := RecordCompletion(id, lease, result);
      if raised {
        return;
      }
      raised := EndTask(id, now, true);
    }

    /** `complete` up to its store check: an answer, or the files to ask the store about. */
    method CompleteOpen(id: Id, lease: Lease, result: CompleteRequest, now: int)
      returns (raised: bool, reply: QueueResult, wait: Option<(seq<string>, nat)>)
      modifies this`jobs, this`attempts, this`cleanup, this`completions
      ensures match BoardTables.CompleteOpen(old(Tables()), id, lease, result, now)
        case Answered(c) => Tables() == c.db && raised == c.Throw? && wait == None && (!raised ==> reply == c.reply)
        case AwaitStore(files, rev) => Tables() == old(Tables()) && !raised && wait == Some((files, rev))
      ensures wait.Some? ==> result.Finished? && AsReported(wait.value.0, result)
    {
      raised, reply, wait := false, Accepted, None;
      if result.Finished? && !Terminal(result.job.status) {
        return false, Rejected(422, "Completion requires a defined terminal job status"), None;
      }
      if (id, lease) in completions {
        return false, Replay(Tables(), id, lease, result), None;
      }
      if !Held(Tables(), id, lease, now) {
        return false, NOT_HELD, None;
      }
      var row := jobs[id];
      var error := TaskTransitionError(row, if result.Refused? then Refuse else Finish);
      if error.Some? {
        return false, Rejected(409, error.value), None;
      }
      if result.Refused? {
        raised, reply := RefuseReview(id, lease, result, now);
        return;
      }
      if !ValidSteps(result.job.steps) {
        return false, Rejected(422, "Illegal steps"), None;
      }
      var files := Manifest(result);
      ManifestIsAsReported(result);
      hide Manifest; hide AsReported;
      if exists name | name in files :: !IsRunnerFileName(name) {
        return false, Rejected(422, "Invalid artifact manifest"), None;
      }
      wait := Some((files, NextRevision(row)));
    }

    /** Seal, move the pointer, publish, file the receipt, end the task: one uninterrupted stretch. */
    method Publish(id: Id, lease: Lease, result: CompleteRequest, files: seq<string>, now: int) returns (raised: bool)
      requires id in jobs && result.Finished?
      modifies this`jobs, this`attempts, this`cleanup, this`completions
      ensures var e := BoardTables.Publish(old(Tables()), id, lease, result, files, now);
        Tables() == e.db && raised == e.Threw?
    {
      hide BoardTables.EndTask; hide BoardTables.ArtifactTransition; hide PublishedRow; hide JobAllows;
      hide BoardTables.RequestCleanup; hide BoardTables.RecordCompletion;
      var row := jobs[id];
      raised := ArtifactTransition(id, row.nextRev, Sealed);
      if raised {
        return;
      }
      ghost var sealed := Tables();
      if !JobAllows(row.status, if row.pending.Some? then row.status else result.job.status) {
        return true;
      }
      jobs := jobs[id := PublishedRow(row, result, files, now)];
      assert Tables() == PutJob(sealed, id, PublishedRow(row, result, files, now));
      raised := ArtifactTransition(id, row.nextRev, Published);
      if raised {
        return;
      }
      raised := RecordCompletion(id, lease, result);
      if raised {
        return;
      }
      raised := EndTask(id, now, true);
      if raised {
        return;
      }
      if row.rev > 0 {
        RequestCleanup(RevPrefix(id, row.rev), now + GRACE_MS);
      }
    }

    /** `complete` after its store check: no other call comes between the re-read and the receipt. */
    method CompleteCommit(id: Id, lease: Lease, result: CompleteRequest, files: seq<string>, allPresent: bool,
                          now: int, later: int)
      returns (raised: bool, reply: QueueResult)
      requires result.Finished?
      modifies this`jobs, this`attempts, this`cleanup, this`completions
      ensures var c := BoardTables.CompleteCommit(old(Tables()), id, lease, result, files, allPresent, now, later);
        Tables() == c.db && raised == c.Throw? && (!raised ==> reply == c.reply)
    {
      raised, reply := false, Accepted;
      if !allPresent {
        return false, Rejected(422, "Artifact manifest is incomplete");
      }
      if (id, lease) in completions {
        return false, Replay(Tables(), id, lease, result);
      }
      if !Held(Tables(), id, lease, if now <= later then later else now) {
        return false, NOT_HELD;
      }
      hide BoardTables.Publish;
      raised := Publish(id, lease, result, files, now);
    }

    method BeginArtifactUpload(id: Id, lease: Lease, token: string, now: int) returns (raised: bool, begun: bool)
      modifies this`writes
      ensures var c := BoardTables.BeginArtifactUpload(old(Tables()), id, lease, token, now);
        Tables() == c.db && raised == c.Throw? && (!raised ==> begun == c.reply)
      ensures begun ==> Held(Tables(), id, lease, now) && Outstanding(Tables(), RevPrefix(id, NextRevision(jobs[id])))
      ensures !begun ==> writes == old(writes)
    {
      if !Held(Tables(), id, lease, now) {
        return false, false;
      }
      var row := jobs[id];
      if HasAttempt(Tables(), id, row.nextRev) && attempts[(id, row.nextRev.value)].state != Staging {
        return false, false;
      }
      if row.nextRev == None {
        return true, false;
      }
      writes := writes[OfArtifact(token) := RevPrefix(id, row.nextRev.value)];
      assert OfArtifact(token) in writes && Contains(RevPrefix(id, row.nextRev.value), writes[OfArtifact(token)]);
      return false, true;
    }

    method EndArtifactUpload(id: Id, lease: Lease, token: string, now: int)
      modifies this`writes, this`cleanup
      ensures Tables() == BoardTables.EndArtifactUpload(old(Tables()), id, lease, token, now)
    {
      var entry := if OfArtifact(token) in writes then Some(writes[OfArtifact(token)]) else None;
      writes := writes - {OfArtifact(token)};
      if entry.Some? && !Held(Tables(), id, lease, now) && (id, lease) !in completions {
        RequestCleanup(entry.value, now);
      }
    }

    // -------------------------------------------------------------- the alarm

    method SweepRow(id: Id, now: int) returns (raised: bool)
      modifies this`jobs, this`attempts, this`cleanup
      ensures var e := BoardTables.SweepRow(old(Tables()), id, now);
        Tables() == e.db && raised == e.Threw?
    {
      hide BoardTables.FailRow; hide BoardTables.StopSync; hide BoardTables.RetrySync; hide BoardTables.Requeue;
      raised := false;
      if id !in jobs || jobs[id].taskState != Some(Claimed) {
        return;
      }
      var row := jobs[id];
      if row.deadline.GetOr(0) <= now {
        if row.taskKind == Some(Sync) {
          raised := StopSync(id, now);
        } else {
          raised := FailRow(id, DEADLINE, now);
        }
      } else if row.leaseExpires.GetOr(0) <= now {
        if row.taskKind == Some(Sync) {
          raised := RetrySync(id, now);
        } else if row.attempt < ATTEMPTS {
          raised := Requeue(id, now);
        } else {
          raised := FailRow(id, INTERRUPTED, now);
        }
      }
    }

    method ExpireUpload(id: Id, now: int) returns (raised: bool)
      modifies this`uploads, this`cleanup
      ensures var e := BoardTables.ExpireUpload(old(Tables()), id, now);
        Tables() == e.db && raised == e.Threw?
    {
      if id !in uploads || !UploadAllows(uploads[id].state, Dropped) {
        return true;
      }
      RequestCleanup(JobPrefix(id), now);
      uploads := uploads - {id};
      return false;
    }

    /** The first pass: every claim past its lease or its deadline is put back, failed or given up.
        With its claims in order the sweep never raises, and leaves every row, revision and deletion
        as stated. */
    method SweepClaims(now: int) returns (raised: bool)
      modifies this`jobs, this`attempts, this`cleanup
      ensures ClaimsInOrder(old(Tables())) ==> !raised && SweptBut(old(Tables()), Tables(), {}, now)
      ensures jobs.Keys == old(jobs).Keys
      ensures forall id | id in jobs && Current(old(jobs)[id], now) :: jobs[id] == old(jobs)[id]
      ensures !raised ==> forall id | id in jobs :: Current(jobs[id], now)
    {
      hide BoardTables.SweepRow; hide ClaimsInOrder; hide SweptBut;
      raised := false;
      var rest := set id | id in jobs && jobs[id].taskState == Some(Claimed);
      SweepStarts(Tables(), rest, now);
      while rest != {}
        invariant !raised && jobs.Keys == old(jobs).Keys && rest <= jobs.Keys
        invariant ClaimsInOrder(old(Tables())) ==> SweptBut(old(Tables()), Tables(), rest, now)
        invariant forall id | id in rest :: jobs[id] == old(jobs)[id] && jobs[id].taskState == Some(Claimed)
        invariant forall id | id in jobs && id !in rest :: Current(jobs[id], now)
        invariant forall id | id in jobs && Current(old(jobs)[id], now) :: jobs[id] == old(jobs)[id]
        decreases |rest|
      {
        var id :| id in rest;
        ghost var before := Tables();
        if ClaimsInOrder(old(Tables())) {
          SweepTurn(old(Tables()), before, rest, id, now);
        }
        raised := SweepRow(id, now);
        SweepRowSettles(before, id, now);
        if raised {
          return;
        }
        rest := rest - {id};
      }
    }

    /** The second pass: every expired reservation goes to cleanup, and no other is touched. */
    method SweepUploads(now: int) returns (raised: bool)
      modifies this`uploads, this`cleanup
      ensures !raised ==> uploads == map id | id in old(uploads) && old(uploads)[id].expires > now :: old(uploads)[id]
      ensures !raised ==> forall id | id in old(uploads) && old(uploads)[id].expires <= now :: JobPrefix(id) in cleanup
      ensures forall p | p in old(cleanup) :: p in cleanup && cleanup[p] == old(cleanup)[p]
    {
      raised := false;
      var rest := set id | id in uploads && uploads[id].expires <= now;
      while rest != {}
        invariant !raised
        invariant uploads == map id | id in old(uploads) && (id in rest || old(uploads)[id].expires > now) :: old(uploads)[id]
        invariant forall id | id in rest :: id in old(uploads) && old(uploads)[id].expires <= now
        invariant forall id | id in old(uploads) && old(uploads)[id].expires <= now :: id in rest || JobPrefix(id) in cleanup
        invariant forall p | p in old(cleanup) :: p in cleanup && cleanup[p] == old(cleanup)[p]
        decreases |rest|
      {
        var id :| id in rest;
        raised := ExpireUpload(id, now);
        if raised {
          return;
        }
        rest := rest - {id};
      }
    }

    /** The third pass: jobs past retention are forgotten, their files left to cleanup. */
    method SweepJobs(now: int)
      modifies this`jobs, this`attempts, this`cleanup, this`completions
      ensures var stale := PastRetentionIds(old(Tables()), now);
        && jobs == old(jobs) - stale
        && attempts == WithoutJobs(old(attempts), stale) && completions == WithoutJobs(old(completions), stale)
        && forall id | id in stale :: JobPrefix(id) in cleanup
      ensures forall p | p in old(cleanup) :: p in cleanup && cleanup[p] == old(cleanup)[p]
    {
      hide PastRetentionIds; hide WithoutJobs; hide BoardTables.Forget;
      var stale := PastRetentionIds(Tables(), now);
      var rest := stale;
      ghost var done: set<Id> := {};
      WithoutNoJobs(attempts);
      WithoutNoJobs(completions);
      while rest != {}
        invariant rest + done == stale && jobs == old(jobs) - done
        invariant attempts == WithoutJobs(old(attempts), done) && completions == WithoutJobs(old(completions), done)
        invariant forall id | id in done :: JobPrefix(id) in cleanup
        invariant forall p | p in old(cleanup) :: p in cleanup && cleanup[p] == old(cleanup)[p]
        decreases |rest|
      {
        var id :| id in rest;
        WithoutOneMoreJob(old(attempts), done, id);
        WithoutOneMoreJob(old(completions), done, id);
        ForgetLeaves(Tables(), id, now);
        Forget(id, now);
        assert old(jobs) - done - {id} == old(jobs) - (done + {id});
        rest, done := rest - {id}, done + {id};
      }
    }

    /** `sweep` up to its last line: afterwards no claim is past its lease or deadline, no
        reservation has expired, and no job is past retention. */
    method Sweep(now: int) returns (raised: bool)
      modifies this`jobs, this`attempts, this`cleanup, this`completions, this`uploads
      ensures !raised ==> forall id | id in jobs :: Current(jobs[id], now) && !PastRetention(Tables(), id, now)
      ensures !raised ==> forall id | id in uploads :: uploads[id].expires > now
      ensures !raised ==> forall id | id in old(uploads) && id !in uploads :: JobPrefix(id) in cleanup
      ensures !raised ==> forall id | id in old(jobs) && id !in jobs :: JobPrefix(id) in cleanup
      ensures !raised ==> forall id | id in old(jobs) && Current(old(jobs)[id], now) && !PastRetention(old(Tables()), id, now) ::
                id in jobs && jobs[id] == old(jobs)[id]
      ensures ClaimsInOrder(old(Tables())) && !raised ==>
                && jobs.Keys <= old(jobs).Keys && (forall id | id in jobs :: SweptRow(old(jobs)[id], jobs[id], now))
                && forall id | id in old(jobs) && id !in jobs :: old(jobs)[id].updatedAt <= now - 12 * HOUR
    {
      hide SweptRow; hide ClaimsInOrder; hide RevisionsSwept; hide DeletionsSwept;
      ghost var before := Tables();
      raised := SweepClaims(now);
      if raised {
        return;
      }
      if ClaimsInOrder(before) {
        SweptTimes(before, Tables(), now);
      }
      raised := SweepUploads(now);
      if raised {
        return;
      }
      SweepJobs(now);
    }

    method CleanEntry(store: Store, p: Prefix, failing: Failures)
      requires p in cleanup
      modifies this`cleanup, store
      ensures store.objects == Emptied(old(store.objects), p, failing)
      ensures Tables() == SettleCleanup(MarkCleanup(old(Tables()), p, Deleting), p, p !in failing)
      ensures EntryDone(old(Tables()), Tables(), p, failing)
    {
      cleanup := cleanup[p := cleanup[p].(state := Deleting)];
      var raised := store.TryDelete(p, failing);
      if raised {
        cleanup := cleanup[p := cleanup[p].(state := DeleteFailed)];
      } else if !Outstanding(Tables(), p) {
        cleanup := cleanup - {p};
      }
    }

    /** `cleanFiles` with nothing interleaved: every due prefix is emptied but for the part a failed
        deletion did not reach, a record goes exactly when its deletion worked and no registered write
        can still land under it, and nothing else in the store or the tables moves. */
    method CleanFiles(store: Store, now: int, failing: Failures)
      modifies this`cleanup, store
      ensures store.objects == Remaining(old(store.objects), Due(old(Tables()), now).Keys, failing)
      ensures cleanup.Keys == RecordsLeft(old(Tables()), Due(old(Tables()), now).Keys, failing)
      ensures forall p | p in Due(old(Tables()), now) && p in failing :: p in cleanup && cleanup[p].state == DeleteFailed
      ensures forall p | p in cleanup :: cleanup[p].notBefore == old(cleanup)[p].notBefore
      ensures forall p | p in cleanup && cleanup[p].notBefore > now :: cleanup[p] == old(cleanup)[p]
    {
      DueIs(Tables(), now);
      hide Due; hide Progressed; hide Emptied; hide Outstanding; hide SettleCleanup; hide MarkCleanup; hide Remaining; hide RecordsLeft;
      ghost var start, files := Tables(), store.objects;
      var due := Due(Tables(), now).Keys;
      var rest := due;
      ProgressStarts(start, files, failing);
      assert due - rest == {};
      while rest != {}
        invariant rest <= due && Progressed(start, files, Tables(), store.objects, due - rest, failing)
        decreases |rest|
      {
        var p :| p in rest;
        NotYetGone(start, files, Tables(), store.objects, due - rest, p, failing);
        ghost var db, objects := Tables(), store.objects;
        CleanEntry(store, p, failing);
        ProgressStep(start, files, db, objects, Tables(), store.objects, due - rest, p, failing);
        assert due - (rest - {p}) == (due - rest) + {p};
        rest := rest - {p};
      }
      assert due - rest == due;
      ProgressEnds(start, files, Tables(), store.objects, due, failing);
    }
  }
}
