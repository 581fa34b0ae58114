/** Review decisions, roll-back, tokens and limits over whole runs. */
module ReviewTheorems {
  import opened Wrappers
  import opened Contract
  import opened Steps
  import opened Lifecycles
  import opened Credential
  import opened Keys
  import opened BoardTables
  import opened BoardRows
  import opened World
  import opened Invariant
  import opened Frames
  import opened Preservation
  import opened Shapes
  import opened BoardTheorems

  // ---------------------------------------------------------------- decisions

  /** An accepted keep or resolve. */
  predicate Decides(w: World, e: Event, d: Decision) {
    && e.Override? && Owned(w.db, e.owner, e.id)
    && d == Decision(e.id, e.kind, e.item, w.db.jobs[e.id].overridesVersion + 1)
  }

  lemma {:induction false} DecisionsAreRemembered(w: World, es: seq<Event>, d: Decision)
    requires Inv(w) && Runs(w, es) && d in w.decisions
    ensures d in Run(w, es).decisions
    decreases |es|
  {
    if es != [] {
      NextKeeps(w, es[0]);
      hide Inv; hide Enabled; hide Next; hide Raises; hide JobsMove;
      DecisionsAreRemembered(Next(w, es[0]), es[1..], d);
    }
  }

  /** No review decision is lost. However the run goes on, as long as the job exists, the decision is
      still stored, newer than what the views were rendered with, or a revision was published whose
      task was claimed with it. */
  lemma NoDecisionIsLost(w: World, e: Event, es: seq<Event>, d: Decision)
    requires Inv(w) && Enabled(w, e) && Decides(w, e, d) && Runs(Next(w, e), es)
    requires d.id in Run(Next(w, e), es).db.jobs
    ensures var v := Run(Next(w, e), es);
      var j := v.db.jobs[d.id];
      || Rendered(v, d)
      || (d.item in j.overrides.Of(d.kind) && d.version <= j.overrides.Of(d.kind)[d.item]
          && j.syncedVersion < j.overrides.Of(d.kind)[d.item] <= j.overridesVersion)
  {
    assert d in Next(w, e).decisions;
    hide Next; hide Enabled; hide Raises; hide Moves; hide Inv;
    NextKeeps(w, e);
    RunKeeps(Next(w, e), es);
    DecisionsAreRemembered(Next(w, e), es, d);
    var v := Run(Next(w, e), es);
    SliceOf(v, d.id);
    assert DecisionsOf(v, d.id) && RowOf(v, d.id);
    hide Slice; hide Runs; hide Run;
    var j := v.db.jobs[d.id];
    assert OverlayRow(j);
    assert Layered(j, d) || Rendered(v, d);
  }

  // ---------------------------------------------------------------- re-rendering

  /** Idle, with decisions its views do not show. */
  predicate Unsynced(j: Job) {
    j.taskKind == None && Dirty(j)
  }

  ghost predicate UnsyncedAt(db: Db, id: Id) {
    id in db.jobs && Unsynced(db.jobs[id])
  }

  /** This step gives up the re-render that a job is running: its deadline is past, or its last try
      lapsed or failed. */
  ghost predicate GivesUp(w: World, e: Event, id: Id) {
    && id in w.db.jobs && IsKind(w.db.jobs[id], Sync) && IsClaimed(w.db.jobs[id])
    && var j := w.db.jobs[id];
    match e
    case Sweep(x, now) =>
      x == id && (j.deadline.GetOr(0) <= now || (j.leaseExpires.GetOr(0) <= now && j.attempt >= ATTEMPTS))
    case FailBy(x, lease, _, now) => x == id && Held(w.db, id, lease, now) && j.attempt >= ATTEMPTS
    case _ => false
  }

  /** At the end of the run, the job's last re-render was given up and nothing was queued since. */
  ghost predicate GivenUp(w: World, es: seq<Event>, id: Id, before: bool)
    requires Runs(w, es)
    decreases |es|
  {
    if es == [] then before
    else
      var v := Next(w, es[0]);
      GivenUp(v, es[1..], id, (before || GivesUp(w, es[0], id)) && id in v.db.jobs && v.db.jobs[id].taskKind == None)
  }

  lemma EndedIsSynced(j: Job, now: int)
    ensures !Unsynced(EndedRow(j, now, true))
  {
  }

  lemma WithoutStagingKeepsJobs(db: Db, id: Id, now: int)
    requires id in db.jobs
    ensures WithoutStaging(db, id, now).jobs == db.jobs
  {
  }

  /** Nothing became unsynced but where a re-render was given up. */
  ghost predicate StaysSynced(a: Db, b: Db, id: Id, gaveUp: bool) {
    UnsyncedAt(b, id) ==> UnsyncedAt(a, id) || gaveUp
  }

  lemma FailedIsSynced(db: Db, id: Id, other: Id, error: string, now: int)
    requires id in db.jobs && RowInv(db.jobs[id]) && db.jobs[id].taskState.Some?
    ensures StaysSynced(db, FailRow(db, id, error, now).db, other, false)
  {
    FailRowIs(db, id, error, now);
    WithoutStagingKeepsJobs(db, id, now);
    var j := db.jobs[id];
    EndedIsSynced(j.(status := Failed, error := Some(error), steps := FailSteps(j.steps, error, now),
                     updatedAt := now, pending := None), now);
    hide RowInv; hide FailRow; hide WithoutStaging; hide Unsynced; hide EndedRow;
  }

  lemma StoppedWaits(j: Job, now: int)
    requires j.pending.Some?
    ensures !Unsynced(StoppedRow(j, now))
  {
    hide Dirty;
  }

  lemma StoppedIsSynced(db: Db, id: Id, other: Id, now: int)
    requires id in db.jobs && db.jobs[id].taskState.Some?
    ensures StaysSynced(db, StopSync(db, id, now).db, other, other == id && db.jobs[id].pending == None)
  {
    StopSyncIs(db, id, now);
    WithoutStagingKeepsJobs(db, id, now);
    if db.jobs[id].pending.Some? {
      StoppedWaits(db.jobs[id], now);
    }
    hide StopSync; hide WithoutStaging; hide Unsynced; hide StoppedRow;
  }

  lemma RetriedIsSynced(db: Db, id: Id, other: Id, now: int)
    requires id in db.jobs && RowInv(db.jobs[id]) && IsClaimed(db.jobs[id]) && IsKind(db.jobs[id], Sync) && StagingHere(db, id)
    ensures StaysSynced(db, RetrySync(db, id, now).db, other, other == id && db.jobs[id].attempt >= ATTEMPTS)
  {
    StoppedIsSynced(db, id, other, now);
    if db.jobs[id].attempt < ATTEMPTS {
      RequeueIs(db, id, now);
      WithoutStagingKeepsJobs(db, id, now);
      assert !Unsynced(RequeuedRow(db.jobs[id], now)) by {
        hide RowInv; hide Dirty;
      }
    }
    hide RowInv; hide StopSync; hide Requeue; hide WithoutStaging; hide Unsynced; hide RequeuedRow; hide StagingHere;
  }

  lemma RequeuedIsSynced(db: Db, id: Id, other: Id, now: int)
    requires id in db.jobs && RowInv(db.jobs[id]) && IsClaimed(db.jobs[id]) && StagingHere(db, id) && db.jobs[id].attempt < ATTEMPTS
    ensures StaysSynced(db, Requeue(db, id, now).db, other, false)
  {
    RequeueIs(db, id, now);
    WithoutStagingKeepsJobs(db, id, now);
    assert db.jobs[id].taskKind.Some?;
    assert !Unsynced(RequeuedRow(db.jobs[id], now)) by {
      hide RowInv; hide Dirty;
    }
    hide RowInv; hide Requeue; hide WithoutStaging; hide Unsynced; hide RequeuedRow; hide StagingHere;
  }

  lemma StaysSyncedBy(a: Db, b: Db, id: Id, x: bool, y: bool)
    requires StaysSynced(a, b, id, x) && (x ==> y)
    ensures StaysSynced(a, b, id, y)
  {
  }

  lemma SweptIsSynced(w: World, id: Id, other: Id, now: int)
    requires Slice(w, id)
    ensures StaysSynced(w.db, SweepRow(w.db, id, now).db, other, GivesUp(w, Sweep(id, now), other))
  {
    var db := SweepRow(w.db, id, now).db;
    var gaveUp := GivesUp(w, Sweep(id, now), other);
    hide FailRow; hide StopSync; hide RetrySync; hide Requeue;
    if id in w.db.jobs && IsClaimed(w.db.jobs[id]) {
      var j := w.db.jobs[id];
      assert RowOf(w, id) && RevisionsOf(w, id);
      hide Slice; hide RevisionsOf; hide RowInv; hide StaysSynced; hide StagingHere;
      ClaimIsStaging(w, id);
      if j.deadline.GetOr(0) <= now {
        if IsKind(j, Sync) {
          StoppedIsSynced(w.db, id, other, now);
          StaysSyncedBy(w.db, db, other, other == id && j.pending == None, gaveUp);
        } else {
          FailedIsSynced(w.db, id, other, DEADLINE, now);
          StaysSyncedBy(w.db, db, other, false, gaveUp);
        }
      } else if j.leaseExpires.GetOr(0) <= now {
        if IsKind(j, Sync) {
          RetriedIsSynced(w.db, id, other, now);
          StaysSyncedBy(w.db, db, other, other == id && j.attempt >= ATTEMPTS, gaveUp);
        } else if j.attempt < ATTEMPTS {
          RequeuedIsSynced(w.db, id, other, now);
          StaysSyncedBy(w.db, db, other, false, gaveUp);
        } else {
          FailedIsSynced(w.db, id, other, INTERRUPTED, now);
          StaysSyncedBy(w.db, db, other, false, gaveUp);
        }
      } else {
        SameIsSynced(w.db, other, gaveUp);
      }
    } else {
      SameIsSynced(w.db, other, gaveUp);
      hide Slice; hide StaysSynced;
    }
  }

  lemma SameIsSynced(db: Db, id: Id, gaveUp: bool)
    ensures StaysSynced(db, db, id, gaveUp)
  {
    hide UnsyncedAt;
  }

  lemma FailByIsSynced(w: World, id: Id, lease: Lease, error: string, other: Id, now: int)
    requires Slice(w, id)
    ensures StaysSynced(w.db, FailTask(w.db, id, lease, error, now).db, other, GivesUp(w, FailBy(id, lease, error, now), other))
  {
    if Held(w.db, id, lease, now) {
      assert RowOf(w, id) && RevisionsOf(w, id);
      ClaimIsStaging(w, id);
      hide Slice; hide RevisionsOf;
      FailedIsSynced(w.db, id, other, error, now);
      if IsKind(w.db.jobs[id], Sync) {
        RetriedIsSynced(w.db, id, other, now);
      }
    }
    hide Slice; hide FailRow; hide RetrySync; hide RowInv; hide UnsyncedAt;
  }

  lemma RefusedIsSynced(w: World, id: Id, lease: Lease, result: CompleteRequest, other: Id, now: int)
    requires Slice(w, id) && Held(w.db, id, lease, now) && result.Refused? && IsKind(w.db.jobs[id], Review)
    requires (id, lease) !in w.db.completions
    ensures StaysSynced(w.db, RefuseReview(w.db, id, lease, result, now).db, other, false)
  {
    assert RowOf(w, id) && RevisionsOf(w, id);
    ClaimIsStaging(w, id);
    var j := w.db.jobs[id];
    assert TaskColumns(j) && StatusMatches(j);
    hide Slice; hide RevisionsOf;
    if OutputReady(j.prior.value.status) {
      RefuseIs(w.db, id, lease, result, now);
      EndedIsSynced(j.(status := j.prior.value.status, steps := j.prior.value.steps, notice := Some(result.reason), updatedAt := now), now);
    }
    hide RowInv; hide EndTask; hide JobAllows; hide Unsynced; hide EndedRow; hide OutputReady; hide TaskColumns; hide StatusMatches;
  }

  lemma AskedIsSynced(w: World, req: string, id: Id, lease: Lease, result: CompleteRequest, other: Id, now: int)
    requires Slice(w, id)
    ensures StaysSynced(w.db, CompleteAskStep(w, req, id, lease, result, now).db, other, false)
  {
    OpeningCases(w.db, id, lease, result, now);
    AskIs(w, req, id, lease, result, now);
    var opening := CompleteOpen(w.db, id, lease, result, now);
    if opening.Answered? && opening.call.db != w.db {
      hide CompleteOpen; hide Slice; hide RefuseReview; hide ValidSteps; hide Holds;
      RefusedIsSynced(w, id, lease, result, other, now);
      AtIs(w, opening.call.db, now);
      hide StaysSynced; hide At;
    } else {
      AwaitingKeepsDb(w, req, id, lease, result, now);
      hide CompleteOpen; hide CompleteAskStep; hide Slice; hide UnsyncedAt;
    }
  }

  lemma AwaitingKeepsDb(w: World, req: string, id: Id, lease: Lease, result: CompleteRequest, now: int)
    requires var opening := CompleteOpen(w.db, id, lease, result, now); opening.Answered? ==> opening.call.db == w.db
    ensures CompleteAskStep(w, req, id, lease, result, now).db == w.db
  {
    AtIs(w, w.db, now);
    hide CompleteOpen; hide At;
  }

  lemma PublicationIsSynced(w: World, req: string, other: Id, now: int)
    requires req in w.completing && Slice(w, w.completing[req].id)
    requires w.completing[req].result.Finished? && Publishes(w, w.completing[req], now)
    ensures StaysSynced(w.db, Publish(w.db, w.completing[req].id, w.completing[req].lease, w.completing[req].result,
                                      w.completing[req].files, w.completing[req].now).db, other, false)
  {
    var c := w.completing[req];
    assert CompletingOf(w, c.id) && RowOf(w, c.id) && RevisionsOf(w, c.id) && DecisionsOf(w, c.id) && PipelineOf(w, c.id);
    HeldTicket(w, c.id, c.lease, now);
    ClaimIsStaging(w, c.id);
    hide Slice; hide RevisionsOf; hide ValidSteps; hide Intact;
    PublishedLeaves(w.db.jobs[c.id], c);
    PublishIs(w.db, c);
    EndedIsSynced(PublishedRow(w.db.jobs[c.id], c.result, c.files, c.now), c.now);
    hide RowInv; hide Publish; hide Publishing; hide DecisionsOf; hide CompletingOf; hide AllSeen; hide Holds;
    hide JobAllows; hide EndedRow; hide PublishedRow; hide Unsynced; hide PipelineRow;
  }

  lemma PublishedIsSynced(w: World, req: string, other: Id, now: int)
    requires req in w.completing && Slice(w, w.completing[req].id) && w.clock <= now
    requires w.completing[req].result.Finished?
    ensures StaysSynced(w.db, CommitStep(w, req, now).db, other, false)
  {
    var c := w.completing[req];
    CommitStepIs(w, req, now);
    hide CommitStep; hide Publish; hide AllSeen; hide UnsyncedAt; hide Holds;
    if Publishes(w, c, now) {
      PublicationIsSynced(w, req, other, now);
      CompletingBegan(w, req);
      hide Slice;
    } else {
      CompletingBegan(w, req);
      hide Slice; hide Publishes; hide CompleteCommit;
      IdleCommit(w, req, now);
      AtIs(w, w.db, now);
      hide At;
    }
  }

  lemma ReviewedIsSynced(db: Db, owner: string, id: Id, action: ReviewAction, jwt: string, exp: int, now: int, other: Id)
    requires id in db.jobs ==> RowInv(db.jobs[id])
    ensures StaysSynced(db, QueueReview(db, owner, id, action, jwt, exp, now).db, other, false)
  {
    ReviewIs(db, owner, id, action, jwt, exp, now);
    if id in db.jobs {
      assert !Unsynced(ReviewRow(db.jobs[id], action, jwt, exp, now)) by {
        hide RowInv; hide Dirty;
      }
    }
    hide QueueReview; hide RowInv; hide ReviewRow; hide Unsynced;
  }

  lemma OverriddenIsSynced(db: Db, owner: string, id: Id, kind: ItemKind, item: int, now: int, other: Id)
    requires id in db.jobs ==> RowInv(db.jobs[id])
    ensures StaysSynced(db, SetOverride(db, owner, id, kind, item, now).db, other, false)
  {
    if Owned(db, owner, id) {
      OverrideIs(db, owner, id, kind, item, now);
      var j := db.jobs[id];
      assert !Unsynced(OverrideRow(j, kind, item, now)) || j.taskKind.Some?;
      hide SetOverride; hide RowInv; hide OverrideRow; hide Unsynced;
    }
  }

  lemma RenewingIsSynced(w: World, e: Event, other: Id)
    requires Enabled(w, e) && Renews(e)
    ensures StaysSynced(w.db, Next(w, e).db, other, false)
  {
    RenewingStep(w, e);
    RenewedIsSynced(w.db, e.id, e.lease, if e.ProgressBy? then e.event else ProgressEvent(None, None, None, None), e.now, other);
    hide Next; hide Enabled; hide RenewLease; hide Progress; hide UnsyncedAt;
  }

  lemma RenewedIsSynced(db: Db, id: Id, lease: Lease, event: ProgressEvent, now: int, other: Id)
    ensures StaysSynced(db, RenewLease(db, id, lease, now), other, false)
    ensures StaysSynced(db, Progress(db, id, lease, event, now).db, other, false)
  {
    hide ApplyStepProgress; hide Holds; hide TaskTransitionError; hide OutputReady;
  }

  lemma UploadIsSynced(w: World, e: Event, other: Id)
    requires Enabled(w, e)
    requires e.Reserve? || e.InputPut? || e.MarkStored? || e.Create? || e.Abandon? || e.Delete? || e.Expire? || e.Retain?
    ensures StaysSynced(w.db, Next(w, e).db, other, false)
  {
    hide Enabled; hide AdmitUpload; hide UploadAllows; hide Owned;
  }

  lemma FileIsSynced(w: World, e: Event, other: Id)
    requires Enabled(w, e)
    requires e.CompleteHead? || e.PutBegin? || e.PutStore? || e.PutEnd? || e.CleanStart? || e.CleanNext? || e.CleanDelete? || e.CleanSettle?
    ensures StaysSynced(w.db, Next(w, e).db, other, false)
  {
    assert Next(w, e).db.jobs == w.db.jobs by {
      FileKeepsJobs(w, e);
    }
    hide Next; hide Enabled; hide Unsynced;
  }

  lemma BeginKeepsJobs(db: Db, id: Id, lease: Lease, token: string, now: int)
    ensures BeginArtifactUpload(db, id, lease, token, now).db.jobs == db.jobs
    ensures EndArtifactUpload(db, id, lease, token, now).jobs == db.jobs
  {
    hide Holds;
  }

  lemma PutBeginKeepsJobs(w: World, token: string, now: int)
    requires token in w.putting
    ensures PutBeginStep(w, token, now).db.jobs == w.db.jobs
  {
    var p := w.putting[token];
    BeginKeepsJobs(w.db, p.id, p.lease, token, now);
    AtIs(w, BeginArtifactUpload(w.db, p.id, p.lease, token, now).db, now);
    hide BeginArtifactUpload; hide At;
  }

  lemma FileKeepsJobs(w: World, e: Event)
    requires Enabled(w, e)
    requires e.CompleteHead? || e.PutBegin? || e.PutStore? || e.PutEnd? || e.CleanStart? || e.CleanNext? || e.CleanDelete? || e.CleanSettle?
    ensures Next(w, e).db.jobs == w.db.jobs
  {
    hide *;
    if e.CompleteHead? || e.PutBegin? || e.PutStore? || e.PutEnd? {
      FileNext(w, e);
      if e.PutBegin? {
        PutBeginKeepsJobs(w, e.token, e.now);
      } else if e.PutEnd? {
        BeginKeepsJobs(w.db, w.putting[e.token].id, w.putting[e.token].lease, e.token, e.now);
      }
    } else {
      CleaningNext(w, e);
    }
  }

  lemma RetiredIsSynced(w: World, id: Id, other: Id, now: int)
    requires Slice(w, id) && id in w.db.jobs && IsWaiting(w.db.jobs[id])
    ensures StaysSynced(w.db, Retire(w.db, id, now).db, other, false)
  {
    assert RowOf(w, id);
    hide Slice;
    FailedIsSynced(w.db, id, other, SIGN_IN_ENDING, now);
    FailedIsSynced(w.db, id, other, INCONSISTENT, now);
    hide FailRow; hide RowInv; hide ClaimVerdict; hide StaysSynced;
  }

  lemma GrantedIsSynced(w: World, id: Id, lease: Lease, highest: nat, other: Id, now: int)
    requires Slice(w, id) && id in w.db.jobs && IsWaiting(w.db.jobs[id])
    ensures StaysSynced(w.db, Granted(w, id, lease, highest, now).db, other, false)
  {
    assert RowOf(w, id);
    hide Slice;
    assert w.db.jobs[id].taskKind.Some?;
    hide RowInv; hide Dirty;
  }

  lemma ClaimIsSynced(w: World, e: Event, other: Id)
    requires Enabled(w, e) && (e.ClaimRetire? || e.ClaimGrant?) && Slice(w, e.id)
    ensures StaysSynced(w.db, Next(w, e).db, other, false)
  {
    hide *;
    match e
    case ClaimRetire(id, now) =>
      ClaimRetireNext(w, id, now);
      AtIs(w, Retire(w.db, id, now).db, now);
      RetiredIsSynced(w, id, other, now);
    case ClaimGrant(id, lease, highest, now) =>
      ClaimGrantNext(w, id, lease, highest, now);
      GrantedIsSynced(w, id, lease, highest, other, now);
  }

  lemma PersonIsSynced(w: World, e: Event, id: Id)
    requires Inv(w) && Enabled(w, e) && (e.Override? || e.AskReview?)
    ensures StaysSynced(w.db, Next(w, e).db, id, false)
  {
    hide *;
    SliceOf(w, e.id);
    RowOfSlice(w, e.id);
    PersonNext(w, e);
    match e
    case Override(owner, x, kind, item, now) =>
      OverriddenIsSynced(w.db, owner, x, kind, item, now, id);
      AtIs(w, SetOverride(w.db, owner, x, kind, item, now).db, now);
    case AskReview(owner, x, action, jwt, exp, now) =>
      ReviewedIsSynced(w.db, owner, x, action, jwt, exp, now, id);
      AtIs(w, QueueReview(w.db, owner, x, action, jwt, exp, now).db, now);
  }

  lemma LapseIsSynced(w: World, e: Event, id: Id)
    requires Inv(w) && Enabled(w, e) && (e.FailBy? || e.Sweep?)
    ensures StaysSynced(w.db, Next(w, e).db, id, GivesUp(w, e, id))
  {
    hide *;
    SliceOf(w, e.id);
    RunnerNext(w, e);
    match e
    case FailBy(x, lease, error, now) =>
      FailByIsSynced(w, x, lease, error, id, now);
      AtIs(w, FailTask(w.db, x, lease, error, now).db, now);
    case Sweep(x, now) =>
      SweptIsSynced(w, x, id, now);
      AtIs(w, SweepRow(w.db, x, now).db, now);
  }

  lemma CompletionIsSynced(w: World, e: Event, id: Id)
    requires Inv(w) && Enabled(w, e) && (e.CompleteAsk? || e.CompleteCommits?)
    ensures StaysSynced(w.db, Next(w, e).db, id, false)
  {
    hide *;
    if e.CompleteAsk? {
      AskNext(w, e);
      SliceOf(w, e.id);
      AskedIsSynced(w, e.req, e.id, e.lease, e.result, id, e.now);
    } else {
      CommitNext(w, e);
      SliceOf(w, w.completing[e.req].id);
      PublishedIsSynced(w, e.req, id, e.now);
    }
  }

  lemma StepStaysSynced(w: World, e: Event, id: Id)
    requires Inv(w) && Enabled(w, e)
    ensures StaysSynced(w.db, Next(w, e).db, id, GivesUp(w, e, id))
  {
    RenewsMeans(e);
    hide *;
    if e.FailBy? || e.Sweep? {
      LapseIsSynced(w, e, id);
    } else {
      if e.Override? || e.AskReview? {
        PersonIsSynced(w, e, id);
      } else if e.ClaimRetire? || e.ClaimGrant? {
        SliceOf(w, e.id);
        ClaimIsSynced(w, e, id);
      } else if e.CompleteAsk? || e.CompleteCommits? {
        CompletionIsSynced(w, e, id);
      } else if e.RenewBy? || e.ProgressBy? || e.PutCheck? {
        RenewingIsSynced(w, e, id);
      } else if e.Reserve? || e.InputPut? || e.MarkStored? || e.Create? || e.Abandon? || e.Delete? || e.Expire? || e.Retain? {
        UploadIsSynced(w, e, id);
      } else {
        FileIsSynced(w, e, id);
      }
      StaysSyncedBy(w.db, Next(w, e).db, id, false, GivesUp(w, e, id));
    }
  }

  lemma RowOfSlice(w: World, id: Id)
    requires Slice(w, id)
    ensures id in w.db.jobs ==> RowInv(w.db.jobs[id])
  {
    assert RowOf(w, id);
    hide Slice; hide RowInv;
  }

  lemma {:induction false} UnsyncedWasGivenUp(w: World, es: seq<Event>, id: Id, before: bool)
    requires Inv(w) && Runs(w, es) && (UnsyncedAt(w.db, id) ==> before) && UnsyncedAt(Run(w, es).db, id)
    ensures GivenUp(w, es, id, before)
    decreases |es|
  {
    hide Inv; hide Enabled; hide Next; hide GivesUp; hide Raises; hide Moves; hide OutOfOrder; hide LateBy; hide Dirty;
    if es != [] {
      NextKeeps(w, es[0]);
      StepStaysSynced(w, es[0], id);
      var v := Next(w, es[0]);
      UnsyncedWasGivenUp(v, es[1..], id, (before || GivesUp(w, es[0], id)) && id in v.db.jobs && v.db.jobs[id].taskKind == None);
    }
  }

  /** A finished job at rest with saved state shows every decision its person made, unless its last
      re-render was given up and nothing was queued since, and then it says so. */
  lemma IdleJobsAreSynced(es: seq<Event>, id: Id)
    requires Runs(Start, es) && id in Run(Start, es).db.jobs
    requires var j := Run(Start, es).db.jobs[id]; j.taskKind == None && OutputReady(j.status) && j.hasState
    ensures var j := Run(Start, es).db.jobs[id];
      if GivenUp(Start, es, id, false)
      then j.syncedVersion < j.overridesVersion ==> j.notice == Some(REFRESH_INTERRUPTED)
      else j.syncedVersion == j.overridesVersion && forall kind: ItemKind :: j.overrides.Of(kind) == map[]
  {
    StartsKept();
    hide Inv; hide Next; hide Enabled; hide GivesUp;
    RunKeeps(Start, es);
    SliceOf(Run(Start, es), id);
    assert RowOf(Run(Start, es), id);
    if UnsyncedAt(Run(Start, es).db, id) {
      UnsyncedWasGivenUp(Start, es, id, false);
    }
    hide Slice; hide Runs; hide Run; hide GivenUp;
    var j := Run(Start, es).db.jobs[id];
    assert OverlayRow(j);
    if j.syncedVersion == j.overridesVersion {
      forall kind: ItemKind ensures j.overrides.Of(kind) == map[] {
        assert forall item :: item !in j.overrides.Of(kind);
      }
    }
  }

  // ---------------------------------------------------------------- status, token and limits

  /** What every reachable row says: status and task agree, tries are bounded, and the person's token
      is stored exactly while a task or a waiting review needs it. */
  lemma StatusAndTaskAgree(es: seq<Event>, id: Id)
    requires Runs(Start, es) && id in Run(Start, es).db.jobs
    ensures var j := Run(Start, es).db.jobs[id];
      && (j.status == Queued <==> j.taskKind == Some(Process) && j.taskState == Some(Waiting))
      && (j.status == Processing <==>
            || (j.taskKind == Some(Process) && j.taskState == Some(Claimed))
            || j.taskKind == Some(Review)
            || (j.pending.Some? && j.taskKind == Some(Sync) && j.taskState == Some(Claimed)))
      && (j.gatewayJwt.Some? <==> Active(j.status))
      && (j.taskState == Some(Waiting) ==> j.attempt < ATTEMPTS)
      && (j.taskState == Some(Claimed) ==> 1 <= j.attempt <= ATTEMPTS)
      && (OutputReady(j.status) ==> j.rev > 0)
      && ValidSteps(j.steps)
  {
    StartsKept();
    hide Inv; hide Next; hide Enabled;
    RunKeeps(Start, es);
    SliceOf(Run(Start, es), id);
    assert RowOf(Run(Start, es), id) && PipelineOf(Run(Start, es), id);
    hide Slice; hide Runs; hide Run; hide ValidSteps;
    var j := Run(Start, es).db.jobs[id];
    if j.taskState.Some? {
      match j.taskState.value
      case Waiting =>
      case Claimed =>
    }
  }

  /** A held process or review lease always gets the person's token: it never lapses first. */
  lemma RelayNeverRefusesAHeldLease(w: World, id: Id, lease: Lease, now: int)
    requires Inv(w) && Held(w.db, id, lease, now) && w.db.jobs[id].taskKind != Some(Sync)
    ensures RelayCredential(w.db, id, lease, now).Some?
    ensures RelayCredential(w.db, id, lease, now) == w.db.jobs[id].gatewayJwt != Some("")
  {
    SliceOf(w, id);
    hide Inv;
    assert RowOf(w, id);
    hide Slice; hide OverlayRow;
    var j := w.db.jobs[id];
    match j.taskKind.value
    case Process =>
    case Review =>
  }

  /** Admission limits hold at every moment: process tasks, through every retry and failure. */
  lemma LimitsHold(es: seq<Event>, owner: string)
    requires Runs(Start, es)
    ensures |ProcessAll(Run(Start, es).db.jobs)| <= 12 && |ProcessOf(Run(Start, es).db.jobs, owner)| <= 3
  {
    StartsKept();
    hide Inv; hide Next; hide Enabled;
    RunKeeps(Start, es);
    InvParts(Run(Start, es));
  }

  // ---------------------------------------------------------------- roll-back

  predicate InReview(w: World, id: Id) {
    id in w.db.jobs && w.db.jobs[id].prior.Some?
  }

  /** A re-render that publishes while a review waits behind it. */
  ghost predicate RendersBefore(w: World, e: Event, id: Id) {
    e.CompleteCommits? && e.req in w.completing && w.completing[e.req].id == id && Publishes(w, w.completing[e.req], e.now)
  }

  lemma UploadEventsSetNoRollback(w: World, e: Event)
    requires Enabled(w, e)
    requires e.Reserve? || e.InputPut? || e.MarkStored? || e.Create? || e.Abandon? || e.Delete? || e.Expire? || e.Retain?
    ensures Next(w, e).rollback == w.rollback
  {
    hide Forget; hide CreateJob; hide MarkUploadStored; hide AbandonUpload; hide ExpireUpload; hide DeleteJob; hide Enabled;
  }

  lemma TaskEventsSetNoRollback(w: World, e: Event)
    requires Enabled(w, e)
    requires e.Override? || e.ClaimRetire? || e.ClaimGrant? || e.RenewBy? || e.ProgressBy? || e.FailBy? || e.Sweep?
    ensures Next(w, e).rollback == w.rollback
  {
    hide SetOverride; hide Progress; hide FailTask; hide SweepRow; hide Retire; hide GrantClaim; hide RenewLease; hide Enabled;
    hide At; hide Owned;
  }

  lemma RequestEventsSetNoRollback(w: World, e: Event)
    requires Enabled(w, e)
    requires e.CompleteAsk? || e.CompleteHead? || e.PutCheck? || e.PutBegin? || e.PutStore? || e.PutEnd?
    ensures Next(w, e).rollback == w.rollback
  {
    hide CompleteOpen; hide BeginArtifactUpload; hide EndArtifactUpload; hide RenewLease; hide Enabled; hide Held;
    hide At; hide PutIfAbsent; hide NextRevision;
  }

  lemma CleaningEventsSetNoRollback(w: World, e: Event)
    requires Enabled(w, e)
    requires e.CleanStart? || e.CleanNext? || e.CleanDelete? || e.CleanSettle?
    ensures Next(w, e).rollback == w.rollback
  {
    hide SettleCleanup; hide MarkCleanup; hide Enabled;
  }

  lemma BusyReviewIsRefused(w: World, e: Event, id: Id)
    requires Enabled(w, e) && e.AskReview? && InReview(w, id) && id in w.db.jobs && RowInv(w.db.jobs[id])
    ensures SameAt(w.rollback, Next(w, e).rollback, id)
  {
    assert TaskColumns(w.db.jobs[id]) && StatusMatches(w.db.jobs[id]);
    assert ReviewBusy(w.db.jobs[id]);
    hide Enabled; hide RowInv; hide ReviewBusy; hide QueueTask; hide TaskColumns; hide StatusMatches; hide CredentialEligibility;
    hide Reviewing; hide JobAllows;
  }

  lemma CommitSetsItsOwnRollback(w: World, e: Event, id: Id)
    requires Enabled(w, e) && e.CompleteCommits? && !RendersBefore(w, e, id)
    ensures SameAt(w.rollback, Next(w, e).rollback, id)
  {
    hide CompleteCommit; hide AllSeen; hide Held;
  }

  lemma RollbackStep(w: World, e: Event, id: Id)
    requires Inv(w) && Enabled(w, e) && InReview(w, id) && !RendersBefore(w, e, id)
    ensures SameAt(w.rollback, Next(w, e).rollback, id)
  {
    if e.AskReview? {
      SliceOf(w, id);
      assert RowOf(w, id);
      hide *;
      RowOfMeans(w, id);
      BusyReviewIsRefused(w, e, id);
    } else if e.CompleteCommits? {
      hide *;
      CommitSetsItsOwnRollback(w, e, id);
    } else {
      hide Inv; hide InReview; hide RendersBefore; hide Enabled; hide Next;
      if e.Override? || e.ClaimRetire? || e.ClaimGrant? || e.RenewBy? || e.ProgressBy? || e.FailBy? || e.Sweep? {
        TaskEventsSetNoRollback(w, e);
      } else if e.CompleteAsk? || e.CompleteHead? || e.PutCheck? || e.PutBegin? || e.PutStore? || e.PutEnd? {
        RequestEventsSetNoRollback(w, e);
      } else if e.CleanStart? || e.CleanNext? || e.CleanDelete? || e.CleanSettle? {
        CleaningEventsSetNoRollback(w, e);
      } else {
        UploadEventsSetNoRollback(w, e);
      }
    }
  }

  lemma RowOfMeans(w: World, id: Id)
    requires RowOf(w, id) && InReview(w, id)
    ensures id in w.db.jobs && RowInv(w.db.jobs[id])
  {
    hide RowInv;
  }

  /** The review goes on through the whole run, with no re-render publishing ahead of it. */
  ghost predicate ReviewGoesOn(w: World, es: seq<Event>, id: Id)
    requires Runs(w, es)
    decreases |es|
  {
    InReview(w, id) && (es == [] || (!RendersBefore(w, es[0], id) && ReviewGoesOn(Next(w, es[0]), es[1..], id)))
  }

  lemma {:induction false} RollbackStays(w: World, es: seq<Event>, id: Id)
    requires Inv(w) && Runs(w, es) && ReviewGoesOn(w, es, id)
    ensures InReview(Run(w, es), id) && SameAt(w.rollback, Run(w, es).rollback, id)
    decreases |es|
  {
    if es != [] {
      hide Inv; hide Enabled; hide Next; hide Raises; hide Moves; hide RendersBefore; hide OutOfOrder; hide LateBy;
      NextKeeps(w, es[0]);
      RollbackStep(w, es[0], id);
      RollbackStays(Next(w, es[0]), es[1..], id);
    }
  }

  /** A review's refusal, accepted. */
  ghost predicate Refuses(w: World, e: Event, id: Id) {
    && e.CompleteAsk? && e.id == id && e.result.Refused?
    && CompleteOpen(w.db, id, e.lease, e.result, e.now).Answered?
    && CompleteOpen(w.db, id, e.lease, e.result, e.now).call.Answer?
    && CompleteOpen(w.db, id, e.lease, e.result, e.now).call.reply == Accepted
    && (id, e.lease) !in w.db.completions
  }

  /** An acknowledged refusal is of a claimed review whose lease is held, with a result to go back to. */
  lemma RefusalIsOfAReview(w: World, e: Event, id: Id)
    requires Enabled(w, e) && Refuses(w, e, id)
    ensures Held(w.db, id, e.lease, e.now) && IsKind(w.db.jobs[id], Review)
    ensures w.db.jobs[id].prior.Some? && OutputReady(w.db.jobs[id].prior.value.status)
    ensures Next(w, e).db == RefuseReview(w.db, id, e.lease, e.result, e.now).db
  {
    hide Held; hide EndTask; hide JobAllows; hide OutputReady; hide RecordCompletion; hide Enabled;
  }

  lemma RefusedIntoRollback(db: Db, id: Id, lease: Lease, result: CompleteRequest, now: int)
    requires id in db.jobs && db.jobs[id].prior.Some? && result.Refused? && db.jobs[id].lease == Some(lease) && db.jobs[id].nextRev.Some?
    ensures var after := LetGoDb(db, id, RefusedRow(db.jobs[id], result.reason, now), now, Some(result));
      && id in after.jobs
      && after.jobs[id].status == db.jobs[id].prior.value.status && after.jobs[id].steps == db.jobs[id].prior.value.steps
      && after.jobs[id].notice == Some(result.reason) && PublicationUntouched(db.jobs[id], after.jobs[id])
  {
    hide Dirty;
  }

  lemma RefusalRestoresRollback(w: World, e: Event, id: Id)
    requires Inv(w) && Enabled(w, e) && Refuses(w, e, id)
    ensures id in w.db.jobs && id in w.rollback && id in Next(w, e).db.jobs
    ensures var k := Next(w, e).db.jobs[id];
      k.status == w.rollback[id].status && k.steps == w.rollback[id].steps && k.notice == Some(e.result.reason)
    ensures PublicationUntouched(w.db.jobs[id], Next(w, e).db.jobs[id])
  {
    RefusalIsOfAReview(w, e, id);
    SliceOf(w, id);
    assert RowOf(w, id) && RevisionsOf(w, id) && RollbackOf(w, id);
    hide Inv; hide Slice; hide Next; hide Enabled; hide RefuseReview; hide RowInv; hide RevisionsOf; hide LetGoDb; hide RefusedRow;
    assert (id, e.lease) !in w.db.completions;
    hide Refuses;
    ClaimIsStaging(w, id);
    RefuseIs(w.db, id, e.lease, e.result, e.now);
    RefusedIntoRollback(w.db, id, e.lease, e.result, e.now);
  }

  /** What a refusal leaves alone: the published revision and the stored decisions. */
  predicate PublicationUntouched(j: Job, k: Job) {
    k.rev == j.rev && k.files == j.files && k.overrides == j.overrides && k.syncedVersion == j.syncedVersion
  }

  /** A refused review puts the job back exactly as it was when the review was asked for: status and
      steps, with the published revision and every decision untouched. */
  lemma RefusalRollsBack(w: World, ask: Event, es: seq<Event>, refuse: Event)
    requires Inv(w) && ask.AskReview? && Enabled(w, ask)
    requires var call := QueueReview(w.db, ask.owner, ask.id, ask.action, ask.jwt, ask.exp, ask.now);
      call.Answer? && call.reply == Accepted
    requires Runs(Next(w, ask), es) && ReviewGoesOn(Next(w, ask), es, ask.id)
    requires Enabled(Run(Next(w, ask), es), refuse) && Refuses(Run(Next(w, ask), es), refuse, ask.id)
    ensures ask.id in w.db.jobs
    ensures var v := Next(Run(Next(w, ask), es), refuse);
      && ask.id in v.db.jobs
      && v.db.jobs[ask.id].status == w.db.jobs[ask.id].status
      && v.db.jobs[ask.id].steps == w.db.jobs[ask.id].steps
  {
    var u := Next(w, ask);
    assert ask.id in w.db.jobs && u.rollback[ask.id] == Prior(w.db.jobs[ask.id].status, w.db.jobs[ask.id].steps) by {
      hide Inv; hide QueueTask;
    }
    NextKeeps(w, ask);
    hide Inv; hide Enabled; hide Next; hide Raises; hide Moves; hide Refuses; hide ReviewGoesOn; hide InReview; hide QueueReview;
    assert ask.id in u.rollback by {
      AskedIsInReview(u, es, ask.id);
    }
    RunKeeps(u, es);
    RollbackStays(u, es, ask.id);
    RefusalRestoresRollback(Run(u, es), refuse, ask.id);
  }

  lemma AskedIsInReview(u: World, es: seq<Event>, id: Id)
    requires Inv(u) && Runs(u, es) && ReviewGoesOn(u, es, id)
    ensures id in u.rollback
  {
    SliceOf(u, id);
    assert RollbackOf(u, id);
    hide Inv; hide Slice; hide Next; hide Enabled;
  }
}
