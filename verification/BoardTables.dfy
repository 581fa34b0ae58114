/** worker/src/board.ts as functions on its six SQL tables. Each function is one entry point, or one
    private helper, between two points where the Durable Object can be interleaved; a guard that
    raises leaves the writes made before it in place. */
module BoardTables {
  import opened Wrappers
  import opened Contract
  import opened Steps
  import opened Lifecycles
  import opened Credential
  import opened Keys

  type Lease = string

  const HOUR := 60 * MINUTE
  const ACTIVE_PER_PERSON := 3
  const ACTIVE_GLOBAL := 12
  const ATTEMPTS := 2
  const LEASE_MS := 3 * MINUTE
  const JOB_MAX_MS := 3 * HOUR
  const SYNC_MAX_MS := 15 * MINUTE
  const RETENTION_MS := 12 * HOUR
  const GRACE_MS := 5 * MINUTE

  const SIGN_IN_ENDING := "Your sign-in ends before this PDF could finish. Sign in again and upload the PDF again."
  const INTERRUPTED := "Processing was interrupted twice. Upload the PDF again."
  const DEADLINE := "Processing took longer than the time limit, so it was stopped."
  const INCONSISTENT := "This PDF's processing record was inconsistent, so it was stopped. Upload the PDF again."
  const REFRESH_INTERRUPTED := "Report refresh was interrupted. Your review choices are saved."

  // ---------------------------------------------------------------- rows

  datatype TaskState = Waiting | Claimed

  datatype Prior = Prior(status: JobStatus, steps: seq<Step>)

  datatype ItemKind = Changes | Tasks

  /** Keep and resolve, each with the overrides version it was recorded at. */
  datatype Overlay = Overlay(changes: map<int, nat>, tasks: map<int, nat>) {
    function Of(kind: ItemKind): map<int, nat> {
      if kind == Changes then changes else tasks
    }

    function Record(kind: ItemKind, item: int, version: nat): Overlay {
      if kind == Changes then this.(changes := changes[item := version])
      else this.(tasks := tasks[item := version])
    }
  }

  function Newer(entries: map<int, nat>, version: nat): map<int, nat> {
    map item | item in entries && entries[item] > version :: entries[item]
  }

  function OverridesAfter(stored: Overlay, version: nat): Overlay {
    Overlay(Newer(stored.changes, version), Newer(stored.tasks, version))
  }

  datatype PendingReview = PendingReview(action: ReviewAction, jwt: string, exp: int)

  datatype Job = Job(
    owner: string,
    status: JobStatus,
    error: Option<string>,
    notice: Option<string>,
    createdAt: int,
    updatedAt: int,
    steps: seq<Step>,
    prior: Option<Prior>,
    rev: nat,
    files: seq<string>,
    hasState: bool,
    overrides: Overlay,
    overridesVersion: nat,
    syncedVersion: nat,
    taskKind: Option<TaskKind>,
    taskState: Option<TaskState>,
    action: Option<ReviewAction>,
    taskQueuedAt: Option<int>,
    pending: Option<PendingReview>,
    attempt: nat,
    lease: Option<Lease>,
    leaseExpires: Option<int>,
    deadline: Option<int>,
    nextRev: Option<nat>,
    gatewayJwt: Option<string>,
    gatewayExp: Option<int>)

  datatype Attempt = Attempt(lease: Lease, state: ArtifactState)

  datatype Cleanup = Cleanup(state: RetentionState, notBefore: int)

  datatype Upload = Upload(expires: int, state: UploadState)

  /** Registered writes: an upload under its job id, an artifact under a random token. */
  datatype WriteId = OfUpload(id: Id) | OfArtifact(token: string)

  datatype Db = Db(
    jobs: map<Id, Job>,
    completions: map<(Id, Lease), CompleteRequest>,
    attempts: map<(Id, nat), Attempt>,
    cleanup: map<Prefix, Cleanup>,
    uploads: map<Id, Upload>,
    writes: map<WriteId, Prefix>)

  const EmptyDb := Db(map[], map[], map[], map[], map[], map[])

  function PutJob(db: Db, id: Id, j: Job): Db {
    db.(jobs := db.jobs[id := j])
  }

  /** A private helper either finishes or raises, having made the writes in `db`. */
  datatype Exec = Done(db: Db) | Threw(db: Db) {
    predicate IsFailure() { Threw? }
    function PropagateFailure(): Exec
      requires Threw?
    {
      this
    }
    function Extract(): Db
      requires Done?
    {
      db
    }
    function Answering<R>(reply: R): Call<R> {
      if Done? then Answer(db, reply) else Throw(db)
    }
  }

  /** What an entry point does to the tables and tells its caller. */
  datatype Call<+R> = Answer(db: Db, reply: R) | Throw(db: Db)

  datatype QueueResult = Accepted | Rejected(status: nat, detail: string)

  // ---------------------------------------------------------------- guards

  datatype TaskEvent = Enqueue | Claim | Renew | Finish | Refuse | Retry | End

  predicate TaskAllows(event: TaskEvent, state: Option<TaskState>) {
    match event
    case Enqueue => state != Some(Claimed)
    case Claim => state == Some(Waiting)
    case End => state.Some?
    case _ => state == Some(Claimed)
  }

  function TaskTransitionError(row: Job, event: TaskEvent): Option<string> {
    if event != End && event != Enqueue && row.taskKind == None then Some("Illegal task kind")
    else if !TaskAllows(event, row.taskState) then Some("Illegal task transition")
    else if event == Refuse && row.taskKind != Some(Review) then Some("Only a review task may report review_refused")
    else if event == Retry && row.attempt >= ATTEMPTS then Some("Task retry limit reached")
    else if event == Enqueue && row.taskKind != None && row.taskKind != Some(Sync)
    then Some("Cannot replace an active process or review task")
    else None
  }

  predicate JobAllows(current: JobStatus, target: JobStatus) {
    || target == current
    || match current
       case Queued => target in {Processing, Failed}
       case Processing => true
       case Complete => target != Queued
       case ManualRemediation => target != Queued
       case Failed => false
  }

  ghost function Guard(db: Db, holds: bool): Exec {
    if holds then Done(db) else Threw(db)
  }

  /** The lease is current: right holder, not past its expiry or the task's deadline. */
  predicate Holds(row: Job, lease: Lease, now: int) {
    && row.taskState == Some(Claimed)
    && row.lease == Some(lease)
    && row.leaseExpires.GetOr(0) > now
    && row.deadline.GetOr(0) > now
  }

  predicate Held(db: Db, id: Id, lease: Lease, now: int) {
    id in db.jobs && Holds(db.jobs[id], lease, now)
  }

  function NextRevision(row: Job): nat {
    row.nextRev.GetOr(row.rev + 1)
  }

  // ---------------------------------------------------------------- cleanup and revisions

  function RequestCleanup(db: Db, prefix: Prefix, notBefore: int): Db {
    if prefix in db.cleanup then db
    else db.(cleanup := db.cleanup[prefix := Cleanup(DeletionRequested, notBefore)])
  }

  predicate HasAttempt(db: Db, id: Id, rev: Option<nat>) {
    rev.Some? && (id, rev.value) in db.attempts
  }

  ghost function ArtifactTransition(db: Db, id: Id, rev: Option<nat>, target: ArtifactState): Exec {
    if !HasAttempt(db, id, rev) then Done(db)
    else
      var stored := db.attempts[(id, rev.value)];
      if !ArtifactAllows(stored.state, target) then Threw(db)
      else Done(db.(attempts := db.attempts[(id, rev.value) := stored.(state := target)]))
  }

  // ---------------------------------------------------------------- tasks

  function Enqueued(row: Job, kind: TaskKind, action: Option<ReviewAction>, now: int): Job {
    row.(taskKind := Some(kind), taskState := Some(Waiting), action := action, taskQueuedAt := Some(now),
         attempt := 0, lease := None, leaseExpires := None, deadline := None, nextRev := None)
  }

  ghost function QueueTask(db: Db, id: Id, kind: TaskKind, action: Option<ReviewAction>, now: int): Exec {
    if id !in db.jobs then Threw(db)
    else if TaskTransitionError(db.jobs[id], Enqueue).Some? then Threw(db)
    else Done(PutJob(db, id, Enqueued(db.jobs[id], kind, action, now)))
  }

  function Cleared(row: Job): Job {
    row.(taskKind := None, taskState := None, action := None, taskQueuedAt := None,
         attempt := 0, lease := None, leaseExpires := None, deadline := None, nextRev := None,
         gatewayJwt := None, gatewayExp := None,
         prior := if row.pending == None then None else row.prior)
  }

  predicate Dirty(row: Job) {
    row.overridesVersion > row.syncedVersion && row.hasState && OutputReady(row.status)
  }

  ghost function DropStaging(db: Db, id: Id, now: int): Exec
    requires id in db.jobs
  {
    var rev := db.jobs[id].nextRev;
    if HasAttempt(db, id, rev) && db.attempts[(id, rev.value)].state == Staging then
      var dropped :- ArtifactTransition(db, id, rev, Abandoned);
      Done(RequestCleanup(dropped, RevPrefix(id, rev.value), now + GRACE_MS))
    else Done(db)
  }

  /** A task lets go of its columns and its staging; a waiting review, or else an overdue re-render,
      takes its place. */
  ghost function EndTask(db: Db, id: Id, now: int, dirtySync: bool): Exec {
    if id !in db.jobs || TaskTransitionError(db.jobs[id], End).Some? then Threw(db)
    else
      var row := Cleared(db.jobs[id]);
      var dropped :- DropStaging(db, id, now);
      if row.pending.Some? then
        var waiting := row.pending.value;
        QueueTask(
          PutJob(dropped, id, row.(pending := None, gatewayJwt := Some(waiting.jwt), gatewayExp := Some(waiting.exp))),
          id, Review, Some(waiting.action), now)
      else if dirtySync && Dirty(row) then QueueTask(PutJob(dropped, id, row), id, Sync, None, now)
      else Done(PutJob(dropped, id, row))
  }

  ghost function FailRow(db: Db, id: Id, error: string, now: int): Exec {
    if id !in db.jobs then Threw(db)
    else
      var row := db.jobs[id];
      var _ :- Guard(db, TaskTransitionError(row, End) == None && JobAllows(row.status, Failed));
      EndTask(
        PutJob(db, id, row.(status := Failed, error := Some(error), steps := FailSteps(row.steps, error, now),
                            updatedAt := now, pending := None)),
        id, now, true)
  }

  ghost function Requeue(db: Db, id: Id, now: int): Exec {
    if id !in db.jobs || TaskTransitionError(db.jobs[id], Retry).Some? then Threw(db)
    else
      var row := db.jobs[id];
      var dropped :- ArtifactTransition(db, id, row.nextRev, Abandoned);
      var cleaned := if row.nextRev == None then dropped
                     else RequestCleanup(dropped, RevPrefix(id, row.nextRev.value), now + GRACE_MS);
      var status := if row.taskKind == Some(Process) then Queued else row.status;
      var _ :- Guard(cleaned, JobAllows(row.status, status));
      Done(PutJob(cleaned, id,
        row.(taskState := Some(Waiting), taskQueuedAt := Some(now), lease := None, leaseExpires := None,
             deadline := None, nextRev := None, status := status,
             steps := if row.taskKind == Some(Sync) then row.steps
                      else ResetSteps(row.steps, row.taskKind == Some(Review)))))
  }

  ghost function StopSync(db: Db, id: Id, now: int): Exec {
    if id !in db.jobs then Threw(db)
    else EndTask(PutJob(db, id, db.jobs[id].(notice := Some(REFRESH_INTERRUPTED))), id, now, false)
  }

  ghost function RetrySync(db: Db, id: Id, now: int): Exec {
    if id !in db.jobs then Threw(db)
    else if db.jobs[id].pending.Some? || db.jobs[id].attempt >= ATTEMPTS then StopSync(db, id, now)
    else Requeue(db, id, now)
  }

  // ---------------------------------------------------------------- uploads and admission

  function ActiveOf(db: Db, owner: string): set<Id> {
    set id | id in db.jobs && Active(db.jobs[id].status) && db.jobs[id].owner == owner
  }

  function ActiveAll(db: Db): set<Id> {
    set id | id in db.jobs && Active(db.jobs[id].status)
  }

  datatype Admission = Admit | PerPerson | Global | SignInEnding

  function AdmitUpload(db: Db, owner: string, exp: int, now: int): Admission {
    // The source passes the literal "admission" as the token: only the expiry matters here.
    if CredentialEligibility(Process, Some("admission"), Some(exp), now) != QueueEligible then SignInEnding
    else if |ActiveOf(db, owner)| >= ACTIVE_PER_PERSON then PerPerson
    else if |ActiveAll(db)| >= ACTIVE_GLOBAL then Global
    else Admit
  }

  ghost function ReserveUpload(db: Db, id: Id, now: int): Db {
    db.(uploads := db.uploads[id := Upload(now + LEASE_MS, Receiving)],
        writes := db.writes[OfUpload(id) := JobPrefix(id)])
  }

  ghost function MarkUploadStored(db: Db, id: Id): Call<QueueResult> {
    if id !in db.uploads then Answer(db, Rejected(409, "Upload reservation expired"))
    else if !UploadAllows(db.uploads[id].state, Stored) then Throw(db)
    else Answer(db.(uploads := db.uploads[id := db.uploads[id].(state := Stored)]), Accepted)
  }

  function NewRow(owner: string, jwt: string, exp: int, now: int): Job {
    Job(owner, Queued, None, None, now, now, PendingSteps(), None, 0, [], false,
        Overlay(map[], map[]), 0, 0,
        Some(Process), Some(Waiting), None, Some(now), None, 0, None, None, None, None, Some(jwt), Some(exp))
  }

  /** Admission, checked again on create; a refusal leaves the reservation for the caller to abandon. */
  ghost function CreateJob(db: Db, id: Id, owner: string, jwt: string, exp: int, now: int): Call<Admission> {
    if id !in db.uploads || db.uploads[id].expires <= now then Answer(db, SignInEnding)
    else if JobPrefix(id) in db.cleanup then Answer(db, Global)
    else if !UploadAllows(db.uploads[id].state, Admitted) then Throw(db)
    else
      var admission := AdmitUpload(db, owner, exp, now);
      if admission != Admit then Answer(db, admission)
      else if id in db.jobs then Throw(db)
      else
        Answer(PutJob(db, id, NewRow(owner, jwt, exp, now)).(
               uploads := db.uploads - {id}, writes := db.writes - {OfUpload(id)}), Admit)
  }

  ghost function AbandonUpload(db: Db, id: Id, now: int): Exec {
    if id in db.jobs then Done(db)
    else if id in db.uploads && !UploadAllows(db.uploads[id].state, Dropped) then Threw(db)
    else Done(RequestCleanup(db.(uploads := db.uploads - {id}, writes := db.writes - {OfUpload(id)}),
                             JobPrefix(id), now))
  }

  ghost function ExpireUpload(db: Db, id: Id, now: int): Exec {
    if id !in db.uploads || !UploadAllows(db.uploads[id].state, Dropped) then Threw(db)
    else
      var requested := RequestCleanup(db, JobPrefix(id), now);
      Done(requested.(uploads := requested.uploads - {id}))
  }

  /** The job and everything the board keeps about it, leaving its files to cleanup. */
  ghost function Forget(db: Db, id: Id, now: int): Db {
    RequestCleanup(db, JobPrefix(id), now).(
      completions := map k | k in db.completions && k.0 != id :: db.completions[k],
      jobs := db.jobs - {id},
      attempts := map k | k in db.attempts && k.0 != id :: db.attempts[k])
  }

  predicate Owned(db: Db, owner: string, id: Id) {
    id in db.jobs && db.jobs[id].owner == owner
  }

  ghost function DeleteJob(db: Db, owner: string, id: Id, now: int): Call<bool> {
    if !Owned(db, owner, id) then Answer(db, false) else Answer(Forget(db, id, now), true)
  }

  // ---------------------------------------------------------------- review

  ghost function SetOverride(db: Db, owner: string, id: Id, kind: ItemKind, item: int, now: int): Call<bool> {
    if !Owned(db, owner, id) then Answer(db, false)
    else
      var row := db.jobs[id];
      var version := row.overridesVersion + 1;
      var recorded := PutJob(db, id, row.(overrides := row.overrides.Record(kind, item, version),
                                          overridesVersion := version, updatedAt := now));
      if row.taskKind == None && row.hasState then QueueTask(recorded, id, Sync, None, now).Answering(true)
      else Answer(recorded, true)
  }

  predicate ReviewBusy(row: Job) {
    || !OutputReady(row.status)
    || row.taskKind == Some(Process) || row.taskKind == Some(Review)
    || row.pending.Some?
  }

  function Reviewing(row: Job, jwt: string, exp: int, now: int): Job {
    row.(status := Processing, error := None, notice := None, prior := Some(Prior(row.status, row.steps)),
         steps := ResetSteps(row.steps, true), gatewayJwt := Some(jwt), gatewayExp := Some(exp), updatedAt := now)
  }

  ghost function QueueReview(db: Db, owner: string, id: Id, action: ReviewAction, jwt: string, exp: int, now: int)
    : Call<QueueResult>
  {
    if !Owned(db, owner, id) then Answer(db, Rejected(404, "Job not found"))
    else if ReviewBusy(db.jobs[id]) then Answer(db, Rejected(409, "Accessibility processing is already running for this PDF."))
    else if CredentialEligibility(Review, Some(jwt), Some(exp), now) != QueueEligible
    then Answer(db, Rejected(401, SIGN_IN_ENDING))
    else if !db.jobs[id].hasState then Answer(db, Rejected(409, "This PDF can no longer be changed in the app."))
    else if !JobAllows(db.jobs[id].status, Processing) then Throw(db)
    else
      var row := db.jobs[id];
      var reviewing := Reviewing(row, jwt, exp, now);
      if row.taskKind == Some(Sync) && row.taskState == Some(Claimed)
      then Answer(PutJob(db, id, reviewing.(pending := Some(PendingReview(action, jwt, exp)))), Accepted)
      else QueueTask(PutJob(db, id, reviewing), id, Review, Some(action), now).Answering(Accepted)
  }

  // ---------------------------------------------------------------- claiming

  function KindRank(row: Job): nat {
    match row.taskKind
    case None => 0
    case Some(Process) => 2
    case Some(_) => 1
  }

  predicate QueuedBefore(a: Job, b: Job) {
    || KindRank(a) < KindRank(b)
    || (KindRank(a) == KindRank(b)
        && (a.taskQueuedAt == None || (b.taskQueuedAt.Some? && a.taskQueuedAt.value <= b.taskQueuedAt.value)))
  }

  /** A row the queue query may return first: reviews and re-renders before uploads, oldest first. */
  ghost predicate NextInQueue(db: Db, id: Id) {
    && id in db.jobs && db.jobs[id].taskState == Some(Waiting)
    && forall other | other in db.jobs && db.jobs[other].taskState == Some(Waiting) ::
         QueuedBefore(db.jobs[id], db.jobs[other])
  }

  datatype Verdict = Grant | RetireSignIn | RetireInconsistent

  function KindOf(row: Job): TaskKind {
    row.taskKind.GetOr(Process)
  }

  function StatusAtClaim(row: Job): JobStatus {
    if KindOf(row) == Process then Processing else row.status
  }

  function ClaimVerdict(row: Job, now: int): Verdict {
    if KindOf(row) != Sync && !MayClaim(CredentialEligibility(KindOf(row), row.gatewayJwt, row.gatewayExp, now))
    then RetireSignIn
    else if TaskTransitionError(row, Claim) == None && JobAllows(row.status, StatusAtClaim(row)) then Grant
    else RetireInconsistent
  }

  function ClaimDeadline(row: Job, now: int): int {
    if KindOf(row) == Sync then now + SYNC_MAX_MS
    else
      var margin := row.gatewayExp.GetOr(0) - GATEWAY_MARGIN;
      if now + JOB_MAX_MS <= margin then now + JOB_MAX_MS else margin
  }

  ghost function Retire(db: Db, id: Id, now: int): Exec
    requires id in db.jobs
  {
    FailRow(db, id, if ClaimVerdict(db.jobs[id], now) == RetireSignIn then SIGN_IN_ENDING else INCONSISTENT, now)
  }

  /** Every revision number the board knows for a job. */
  ghost predicate KnownRevision(db: Db, id: Id, rev: nat)
    requires id in db.jobs
  {
    (id, rev) in db.attempts || rev == db.jobs[id].rev || rev == db.jobs[id].nextRev.GetOr(0)
  }

  ghost predicate IsHighest(db: Db, id: Id, rev: nat)
    requires id in db.jobs
  {
    KnownRevision(db, id, rev) && forall r: nat | KnownRevision(db, id, r) :: r <= rev
  }

  function ClaimedRow(row: Job, lease: Lease, nextRev: nat, now: int): Job {
    row.(taskState := Some(Claimed), attempt := row.attempt + 1, lease := Some(lease),
         leaseExpires := Some(now + LEASE_MS), deadline := Some(ClaimDeadline(row, now)),
         nextRev := Some(nextRev), status := StatusAtClaim(row), updatedAt := now)
  }

  ghost function GrantClaim(db: Db, id: Id, lease: Lease, highest: nat, now: int): Db
    requires id in db.jobs
  {
    PutJob(db, id, ClaimedRow(db.jobs[id], lease, highest + 1, now)).(
      attempts := db.attempts[(id, highest + 1) := Attempt(lease, Staging)])
  }

  // ---------------------------------------------------------------- a held task

  ghost function RenewLease(db: Db, id: Id, lease: Lease, now: int): Db {
    if !Held(db, id, lease, now) then db
    else PutJob(db, id, db.jobs[id].(leaseExpires := Some(now + LEASE_MS), updatedAt := now))
  }

  ghost function Progress(db: Db, id: Id, lease: Lease, event: ProgressEvent, now: int): Call<QueueResult> {
    if !Held(db, id, lease, now) then Answer(db, Rejected(409, "This task is no longer held by the runner"))
    else
      var row := db.jobs[id];
      if TaskTransitionError(row, Renew).Some? then Throw(db)
      else
        var applied := if row.taskKind == Some(Sync) then Ok(row.steps) else ApplyStepProgress(row.steps, event, now);
        if applied.Raised? then Answer(db, Rejected(422, applied.message))
        else Answer(PutJob(db, id, row.(steps := applied.value, leaseExpires := Some(now + LEASE_MS), updatedAt := now)),
                    Accepted)
  }

  /** The stored token, for a relayed model call; none for a re-render or a lease that is not held. */
  function RelayCredential(db: Db, id: Id, lease: Lease, now: int): Option<string> {
    if !Held(db, id, lease, now) then None
    else
      var row := db.jobs[id];
      if row.taskKind == Some(Sync) || row.gatewayJwt == None then None
      else if !MayRelay(CredentialEligibility(KindOf(row), row.gatewayJwt, row.gatewayExp, now)) then None
      else row.gatewayJwt
  }

  ghost function FailTask(db: Db, id: Id, lease: Lease, error: string, now: int): Call<bool> {
    if !Held(db, id, lease, now) then Answer(db, false)
    else if db.jobs[id].taskKind == Some(Sync) then RetrySync(db, id, now).Answering(true)
    else FailRow(db, id, error, now).Answering(true)
  }

  // ---------------------------------------------------------------- completion

  function Dedupe(names: seq<string>): (r: seq<string>)
    ensures forall n :: n in r <==> n in names
    ensures forall i, j | 0 <= i < j < |r| :: r[i] != r[j]
  {
    if names == [] then []
    else
      var init := Dedupe(names[..|names| - 1]);
      var last := names[|names| - 1];
      assert names == names[..|names| - 1] + [last];
      if last in init then init else init + [last]
  }

  function Manifest(result: CompleteRequest): seq<string>
    requires result.Finished?
  {
    Dedupe(result.files + if result.hasState then [STATE_FILE] else [])
  }

  const NOT_HELD := Rejected(409, "This task is no longer held by the runner")
  const CONFLICT := Rejected(409, "Conflicting completion for this attempt")

  function Replay(db: Db, id: Id, lease: Lease, result: CompleteRequest): QueueResult
    requires (id, lease) in db.completions
  {
    if db.completions[(id, lease)] == result then Accepted else CONFLICT
  }

  /** The first half of `complete` either answers, or waits for the store's word on a manifest. */
  datatype Opening = Answered(call: Call<QueueResult>) | AwaitStore(files: seq<string>, rev: nat)

  ghost function RecordCompletion(db: Db, id: Id, lease: Lease, result: CompleteRequest): Exec {
    if (id, lease) in db.completions then Threw(db)
    else Done(db.(completions := db.completions[(id, lease) := result]))
  }

  ghost function RefuseReview(db: Db, id: Id, lease: Lease, result: CompleteRequest, now: int): Call<QueueResult>
    requires id in db.jobs && result.Refused?
  {
    var row := db.jobs[id];
    if row.prior == None || !OutputReady(row.prior.value.status)
    then Answer(db, Rejected(409, "Review refusal requires a prior terminal result"))
    else if !JobAllows(row.status, row.prior.value.status) then Throw(db)
    else
      var restored := PutJob(db, id, row.(status := row.prior.value.status, steps := row.prior.value.steps,
                                          notice := Some(result.reason), updatedAt := now));
      match RecordCompletion(restored, id, lease, result)
      case Threw(d) => Throw(d)
      case Done(d) => EndTask(d, id, now, true).Answering(Accepted)
  }

  ghost function CompleteOpen(db: Db, id: Id, lease: Lease, result: CompleteRequest, now: int): Opening {
    if result.Finished? && !Terminal(result.job.status)
    then Answered(Answer(db, Rejected(422, "Completion requires a defined terminal job status")))
    else if (id, lease) in db.completions then Answered(Answer(db, Replay(db, id, lease, result)))
    else if !Held(db, id, lease, now) then Answered(Answer(db, NOT_HELD))
    else
      var row := db.jobs[id];
      var error := TaskTransitionError(row, if result.Refused? then Refuse else Finish);
      if error.Some? then Answered(Answer(db, Rejected(409, error.value)))
      else if result.Refused? then Answered(RefuseReview(db, id, lease, result, now))
      else if !ValidSteps(result.job.steps) then Answered(Answer(db, Rejected(422, "Illegal steps")))
      else if exists name | name in Manifest(result) :: !IsRunnerFileName(name)
      then Answered(Answer(db, Rejected(422, "Invalid artifact manifest")))
      else AwaitStore(Manifest(result), NextRevision(row))
  }

  function PublishedRow(row: Job, result: CompleteRequest, files: seq<string>, now: int): Job
    requires result.Finished?
  {
    var waiting := row.pending.Some?;
    row.(status := if waiting then row.status else result.job.status,
         error := result.job.error,
         steps := if waiting then row.steps else result.job.steps,
         prior := if waiting then Some(Prior(result.job.status, result.job.steps)) else row.prior,
         rev := NextRevision(row),
         files := files,
         hasState := result.hasState,
         syncedVersion := result.overridesVersion,
         overrides := OverridesAfter(row.overrides, result.overridesVersion),
         updatedAt := now)
  }

  ghost function Publish(db: Db, id: Id, lease: Lease, result: CompleteRequest, files: seq<string>, now: int): Exec
    requires id in db.jobs && result.Finished?
  {
    var row := db.jobs[id];
    var db1 :- ArtifactTransition(db, id, row.nextRev, Sealed);
    var db2 :- Guard(db1, JobAllows(row.status, if row.pending.Some? then row.status else result.job.status));
    var db3 :- ArtifactTransition(PutJob(db2, id, PublishedRow(row, result, files, now)), id, row.nextRev, Published);
    var db4 :- RecordCompletion(db3, id, lease, result);
    var db5 :- EndTask(db4, id, now, true);
    Done(if row.rev > 0 then RequestCleanup(db5, RevPrefix(id, row.rev), now + GRACE_MS) else db5)
  }

  /** The second half, after the store answered: nothing is interleaved from here to the receipt.
      `now` is when the request came, `later` the clock after the store check. */
  ghost function CompleteCommit(db: Db, id: Id, lease: Lease, result: CompleteRequest, files: seq<string>,
                                allPresent: bool, now: int, later: int): Call<QueueResult>
    requires result.Finished?
  {
    if !allPresent then Answer(db, Rejected(422, "Artifact manifest is incomplete"))
    else if (id, lease) in db.completions then Answer(db, Replay(db, id, lease, result))
    else if !Held(db, id, lease, if now <= later then later else now) then Answer(db, NOT_HELD)
    else Publish(db, id, lease, result, files, now).Answering(Accepted)
  }

  // ---------------------------------------------------------------- artifact uploads

  ghost function BeginArtifactUpload(db: Db, id: Id, lease: Lease, token: string, now: int): Call<bool> {
    if !Held(db, id, lease, now) then Answer(db, false)
    else
      var row := db.jobs[id];
      if HasAttempt(db, id, row.nextRev) && db.attempts[(id, row.nextRev.value)].state != Staging then Answer(db, false)
      else if row.nextRev == None then Throw(db)
      else Answer(db.(writes := db.writes[OfArtifact(token) := RevPrefix(id, row.nextRev.value)]), true)
  }

  ghost function EndArtifactUpload(db: Db, id: Id, lease: Lease, token: string, now: int): Db {
    var released := db.(writes := db.writes - {OfArtifact(token)});
    if OfArtifact(token) !in db.writes || Held(db, id, lease, now) || (id, lease) in db.completions then released
    else RequestCleanup(released, db.writes[OfArtifact(token)], now)
  }

  // ---------------------------------------------------------------- sweeping and cleaning

  ghost function SweepRow(db: Db, id: Id, now: int): Exec {
    if id !in db.jobs || db.jobs[id].taskState != Some(Claimed) then Done(db)
    else
      var row := db.jobs[id];
      if row.deadline.GetOr(0) <= now then
        if row.taskKind == Some(Sync) then StopSync(db, id, now) else FailRow(db, id, DEADLINE, now)
      else if row.leaseExpires.GetOr(0) <= now then
        if row.taskKind == Some(Sync) then RetrySync(db, id, now)
        else if row.attempt < ATTEMPTS then Requeue(db, id, now)
        else FailRow(db, id, INTERRUPTED, now)
      else Done(db)
  }

  predicate PastRetention(db: Db, id: Id, now: int) {
    id in db.jobs && db.jobs[id].updatedAt <= now - RETENTION_MS
  }

  function Due(db: Db, now: int): map<Prefix, RetentionState> {
    map p | p in db.cleanup && db.cleanup[p].notBefore <= now :: db.cleanup[p].state
  }

  function MarkCleanup(db: Db, p: Prefix, state: RetentionState): Db {
    if p in db.cleanup then db.(cleanup := db.cleanup[p := db.cleanup[p].(state := state)]) else db
  }

  predicate Outstanding(db: Db, p: Prefix) {
    exists w | w in db.writes :: Contains(p, db.writes[w])
  }

  /** One entry's end: gone when the deletion worked and no registered write can still land under it. */
  function SettleCleanup(db: Db, p: Prefix, deleted: bool): Db {
    if !deleted then MarkCleanup(db, p, DeleteFailed)
    else if Outstanding(db, p) then db
    else db.(cleanup := db.cleanup - {p})
  }
}
