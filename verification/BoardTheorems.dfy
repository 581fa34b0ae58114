/** What the board promises over whole runs. Every statement is about an arbitrary run from the empty
    board, or about what any run from a state with the invariant can still do. */
module BoardTheorems {
  import opened Wrappers
  import opened Contract
  import opened Steps
  import opened Lifecycles
  import opened Credential
  import opened Keys
  import opened BoardTables
  import opened BoardRows
  import opened World
  import opened Invariant
  import opened Frames
  import opened Shapes
  import opened Preservation

  ghost predicate Runs(w: World, es: seq<Event>)
    decreases |es|
  {
    es == [] || (Enabled(w, es[0]) && Runs(Next(w, es[0]), es[1..]))
  }

  ghost function Run(w: World, es: seq<Event>): World
    requires Runs(w, es)
    decreases |es|
  {
    if es == [] then w else Run(Next(w, es[0]), es[1..])
  }

  lemma {:induction false} RunKeeps(w: World, es: seq<Event>)
    requires Inv(w) && Runs(w, es)
    ensures Inv(Run(w, es))
    decreases |es|
  {
    hide Inv; hide Enabled; hide Next; hide Raises; hide Moves;
    if es != [] {
      NextKeeps(w, es[0]);
      RunKeeps(Next(w, es[0]), es[1..]);
    }
  }

  /** In any run a guard of the board raises, or an insert fails, exactly when an upload request
      reports its input twice or asks for its job first; every other event, and every upload request
      that keeps its order, leaves no write half done. */
  lemma GuardsRaiseOnlyOutOfOrder(es: seq<Event>, e: Event)
    requires Runs(Start, es) && Enabled(Run(Start, es), e)
    ensures Inv(Run(Start, es))
    ensures Raises(Run(Start, es), e) <==> OutOfOrder(Run(Start, es), e)
  {
    StartsKept();
    hide Inv; hide Enabled; hide Next; hide Raises; hide Moves; hide OutOfOrder; hide LateBy;
    RunKeeps(Start, es);
    NextKeeps(Run(Start, es), e);
  }

  /** An upload request reports its input once, and asks for its job after that. */
  predicate KeepsOrder(es: seq<Event>, e: Event) {
    && (e.MarkStored? ==> e !in es)
    && (e.Create? ==> MarkStored(e.id) in es)
  }

  lemma RequestsMarkNothing(w: World, e: Event)
    requires Enabled(w, e) && (e.CompleteAsk? || e.CompleteCommits? || e.PutCheck? || e.PutBegin?)
    ensures Next(w, e).marked == w.marked
  {
    hide CompleteOpen; hide BeginArtifactUpload; hide RenewLease; hide Held; hide At; hide NextRevision;
    hide CompleteCommit; hide AllSeen; hide InTime;
  }

  lemma MarkedByStep(w: World, e: Event)
    requires Enabled(w, e)
    ensures Next(w, e).marked == if e.MarkStored? then w.marked + {e.id} else w.marked
  {
    if e.CompleteAsk? || e.CompleteCommits? || e.PutCheck? || e.PutBegin? {
      RequestsMarkNothing(w, e);
    } else {
      hide Enabled; hide At; hide CreateJob; hide QueueReview; hide SetOverride; hide DeleteJob; hide RenewLease; hide Progress;
      hide FailTask; hide SweepRow; hide Forget; hide SettleCleanup; hide MarkCleanup; hide ReserveUpload; hide MarkUploadStored;
      hide AbandonUpload; hide ExpireUpload; hide Retire; hide GrantClaim; hide EndArtifactUpload; hide PutIfAbsent; hide Owned;
      hide CommitStep; hide CompleteAskStep; hide PutCheckStep; hide PutBeginStep;
    }
  }

  lemma {:induction false} MarkedInRun(w: World, es: seq<Event>, id: Id)
    requires Runs(w, es)
    ensures id in Run(w, es).marked <==> id in w.marked || MarkStored(id) in es
    decreases |es|
  {
    hide Enabled; hide Next;
    if es != [] {
      MarkedByStep(w, es[0]);
      MarkedInRun(Next(w, es[0]), es[1..], id);
      assert es == [es[0]] + es[1..];
    }
  }

  /** No guard of the board raises in a run whose next event keeps its request's order. */
  lemma NoGuardEverRaises(es: seq<Event>, e: Event)
    requires Runs(Start, es) && Enabled(Run(Start, es), e) && KeepsOrder(es, e)
    ensures !Raises(Run(Start, es), e)
  {
    hide Enabled; hide Next; hide Raises; hide Runs; hide Run; hide Inv;
    GuardsRaiseOnlyOutOfOrder(es, e);
    if e.MarkStored? || e.Create? {
      MarkedInRun(Start, es, e.id);
    }
  }

  // ---------------------------------------------------------------- one step, as seen by one job

  /** Reserved, but neither a reservation nor a job any more. */
  ghost predicate Gone(w: World, id: Id) {
    id in w.reserved && id !in w.db.uploads && id !in w.db.jobs
  }

  /** The pointer and the versions only grow; under an unmoved pointer the manifest is the same. */
  ghost predicate Forward(w: World, v: World, id: Id)
    requires id in w.db.jobs && id in v.db.jobs
  {
    var j, k := w.db.jobs[id], v.db.jobs[id];
    && j.rev <= k.rev && j.syncedVersion <= k.syncedVersion && j.overridesVersion <= k.overridesVersion
    && (j.rev == k.rev ==> j.files == k.files)
    && (j.rev == k.rev && j.rev > 0 ==> SameAt(w.verified, v.verified, (id, j.rev)))
  }

  lemma StepOfJob(w: World, e: Event, id: Id)
    requires Inv(w) && Enabled(w, e) && id in w.db.jobs
    ensures var v := Next(w, e);
      Inv(v) && if id in v.db.jobs then Forward(w, v, id) else Gone(v, id)
  {
    hide *;
    var v := Next(w, e);
    NextKeeps(w, e);
    SliceOf(w, id);
    SliceOf(v, id);
    MovedJob(w, v, id, LateBy(w, e));
  }

  lemma MovedJob(w: World, v: World, id: Id, late: set<Lease>)
    requires Slice(w, id) && Slice(v, id) && Moves(w, v, late) && id in w.db.jobs
    ensures if id in v.db.jobs then Forward(w, v, id) else Gone(v, id)
  {
    assert RowOf(w, id) && StoreOf(w, id) && UploadOf(w, id);
    assert UploadOf(v, id);
    hide Slice; hide Unstarted;
    assert id in w.reserved;
    if id in v.db.jobs {
      assert RowMoves(w, w.db.jobs[id], v.db.jobs[id], v.clock, late);
    } else {
      GoneNotReserved(w, v, id, late);
    }
  }

  lemma GoneNotReserved(w: World, v: World, id: Id, late: set<Lease>)
    requires UploadOf(w, id) && UploadOf(v, id) && Moves(w, v, late) && id in w.db.jobs && id !in v.db.jobs
    ensures Gone(v, id)
  {
  }

  lemma StepOfGone(w: World, e: Event, id: Id)
    requires Inv(w) && Enabled(w, e) && Gone(w, id)
    ensures Inv(Next(w, e)) && Gone(Next(w, e), id)
  {
    NextKeeps(w, e);
    hide Inv; hide Enabled; hide Next; hide Raises; hide RowMoves;
  }

  /** A deleted job's id is never a job again. */
  lemma {:induction false} GoneForGood(w: World, es: seq<Event>, id: Id)
    requires Inv(w) && Runs(w, es) && Gone(w, id)
    ensures Gone(Run(w, es), id)
    decreases |es|
  {
    hide Inv; hide Enabled; hide Next; hide Gone;
    if es != [] {
      StepOfGone(w, es[0], id);
      GoneForGood(Next(w, es[0]), es[1..], id);
    }
  }

  lemma ForwardChain(u: World, v: World, w: World, id: Id)
    requires id in u.db.jobs && id in v.db.jobs && id in w.db.jobs && Forward(u, v, id) && Forward(v, w, id)
    ensures Forward(u, w, id)
  {
  }

  lemma {:induction false} JobsOnlyMoveForward(w: World, es: seq<Event>, id: Id)
    requires Inv(w) && Runs(w, es) && id in w.db.jobs && id in Run(w, es).db.jobs
    ensures Forward(w, Run(w, es), id)
    decreases |es|
  {
    hide Inv; hide Enabled; hide Next; hide Forward;
    if es == [] {
      ForwardSelf(w, id);
    } else {
      var v := Next(w, es[0]);
      StepOfJob(w, es[0], id);
      if id in v.db.jobs {
        JobsOnlyMoveForward(v, es[1..], id);
        ForwardChain(w, v, Run(w, es), id);
      } else {
        GoneForGood(v, es[1..], id);
      }
    }
  }

  lemma ForwardSelf(w: World, id: Id)
    requires id in w.db.jobs
    ensures Forward(w, w, id)
  {
  }

  // ---------------------------------------------------------------- published results

  /** No deletion can reach a published file: not a recorded one, not one a loop is already making. */
  lemma CleanupNeverCoversAPublishedFile(w: World, id: Id, name: string, p: Prefix)
    requires Inv(w) && id in w.db.jobs && w.db.jobs[id].rev > 0
    requires p in w.db.cleanup || (exists l | l in w.cleaning :: w.cleaning[l].current == Some(p))
    ensures !Covers(p, FileKey(id, w.db.jobs[id].rev, name))
  {
    SliceOf(w, id);
    InvParts(w);
    hide Inv; hide AdmissionKept;
    assert p in w.condemned;
    hide CleaningKept;
    assert CondemnedOf(w, id);
    hide Slice;
  }

  /** While the pointer stays on a revision, every file of its manifest is there with the same bytes:
      across uploads, retries, expiries, sweeps and deletions, for any length of run. */
  lemma PublishedResultsAreStable(w: World, es: seq<Event>, id: Id, name: string)
    requires Inv(w) && Runs(w, es) && id in w.db.jobs && id in Run(w, es).db.jobs
    requires w.db.jobs[id].rev > 0 && Run(w, es).db.jobs[id].rev == w.db.jobs[id].rev
    requires name in w.db.jobs[id].files
    ensures var key := FileKey(id, w.db.jobs[id].rev, name);
      && name in Run(w, es).db.jobs[id].files
      && key in w.store && key in Run(w, es).store && Run(w, es).store[key] == w.store[key]
  {
    hide Next; hide Enabled; hide Forward;
    JobsOnlyMoveForward(w, es, id);
    RunKeeps(w, es);
    var v := Run(w, es);
    SliceOf(w, id);
    SliceOf(v, id);
    hide Inv; hide Runs; hide Run;
    assert StoreOf(w, id) && StoreOf(v, id);
    hide Slice;
    StableFile(w, v, id, name);
  }

  lemma StableFile(w: World, v: World, id: Id, name: string)
    requires id in w.db.jobs && id in v.db.jobs && Forward(w, v, id) && StoreOf(w, id) && StoreOf(v, id)
    requires w.db.jobs[id].rev > 0 && v.db.jobs[id].rev == w.db.jobs[id].rev && name in w.db.jobs[id].files
    ensures var key := FileKey(id, w.db.jobs[id].rev, name);
      name in v.db.jobs[id].files && key in w.store && key in v.store && v.store[key] == w.store[key]
  {
    assert SameAt(w.verified, v.verified, (id, w.db.jobs[id].rev));
    assert name in w.verified[(id, w.db.jobs[id].rev)];
  }

  /** What is published is what `complete` saw: the manifest, each name with the bytes it had then. */
  lemma PublishedIsWhatWasVerified(es: seq<Event>, id: Id)
    requires Runs(Start, es) && id in Run(Start, es).db.jobs && Run(Start, es).db.jobs[id].rev > 0
    ensures var w := Run(Start, es);
      var rev := w.db.jobs[id].rev;
      && (id, rev) in w.verified
      && (forall name :: name in w.verified[(id, rev)] <==> name in w.db.jobs[id].files)
      && Intact(w.store, id, rev, w.verified[(id, rev)])
  {
    StartsKept();
    hide Inv; hide Next; hide Enabled;
    RunKeeps(Start, es);
    SliceOf(Run(Start, es), id);
    assert StoreOf(Run(Start, es), id);
  }

  // ---------------------------------------------------------------- uploads

  /** A reserved id has exactly one owner, and an admitted job has the input its person uploaded. */
  lemma EveryUploadHasOneOwner(es: seq<Event>, id: Id)
    requires Runs(Start, es) && id in Run(Start, es).reserved
    ensures var w := Run(Start, es);
      && OneOwner(w, id)
      && (id in w.db.jobs ==>
            && id in w.inputs && InputKey(id) in w.store && w.store[InputKey(id)] == w.inputs[id]
            && forall p | p in w.db.cleanup :: !Covers(p, InputKey(id)))
  {
    StartsKept();
    hide Inv; hide Next; hide Enabled;
    RunKeeps(Start, es);
    var w := Run(Start, es);
    SliceOf(w, id);
    InvParts(w);
    assert UploadOf(w, id) && StoreOf(w, id);
    hide Slice; hide AdmissionKept; hide Runs; hide Run; hide Unstarted;
  }

  /** A cleanup record is retired only when no request in flight can still write under it. */
  lemma RetiredCleanupHasNoWriter(w: World, p: Prefix, id: Id, token: string)
    requires Inv(w) && p in w.db.cleanup && p !in SettleCleanup(w.db, p, true).cleanup
    ensures id in w.transfers ==> !Covers(p, InputKey(id))
    ensures token in w.putting && w.putting[token].begun ==>
              !Covers(p, FileKey(w.putting[token].id, w.putting[token].rev, w.putting[token].name))
  {
    assert forall x | x in w.db.writes :: !Contains(p, w.db.writes[x]);
    SliceOf(w, id);
    assert WritesOf(w, id);
    if token in w.putting {
      SliceOf(w, w.putting[token].id);
      assert WritesOf(w, w.putting[token].id);
    }
    hide Inv; hide Slice;
  }

  // ---------------------------------------------------------------- revisions

  /** A claim's revision was never used before: no attempt, ticket, write or deletion names it. */
  lemma ClaimedRevisionIsFresh(w: World, id: Id, lease: Lease, highest: nat, now: int)
    requires Inv(w) && Enabled(w, ClaimGrant(id, lease, highest, now))
    ensures (id, highest + 1) !in w.db.attempts && highest + 1 > w.db.jobs[id].rev
    ensures RevPrefix(id, highest + 1) !in w.condemned
    ensures forall l | l in w.tickets && w.tickets[l].id == id :: w.tickets[l].rev <= highest
    ensures forall t | t in w.putting && w.putting[t].id == id :: w.putting[t].rev <= highest
  {
    SliceOf(w, id);
    hide Inv;
    assert RevisionsOf(w, id) && CondemnedOf(w, id) && WritesOf(w, id);
    hide Slice;
    assert KnownRevision(w.db, id, w.db.jobs[id].rev);
    forall rev: nat | (id, rev) in w.db.attempts ensures rev <= highest {
      assert KnownRevision(w.db, id, rev);
    }
    hide KnownRevision; hide NextInQueue; hide ClaimVerdict;
  }

  /** Every revision a job was ever given is accounted for, exactly once while its claim is live. */
  lemma EveryRevisionIsAccountedFor(w: World, lease: Lease)
    requires Inv(w) && lease in w.tickets && w.tickets[lease].id in w.db.jobs
    ensures var t := w.tickets[lease];
      var j := w.db.jobs[t.id];
      var live := IsClaimed(j) && j.lease == Some(lease);
      && (live || t.rev == j.rev || RevPrefix(t.id, t.rev) in w.condemned)
      && (live ==> j.nextRev == Some(t.rev) && t.rev != j.rev)
      && (t.rev == j.rev ==> RevPrefix(t.id, t.rev) !in w.condemned)
      && (live && Held(w.db, t.id, lease, w.clock) ==> RevPrefix(t.id, t.rev) !in w.condemned)
  {
    var t := w.tickets[lease];
    SliceOf(w, t.id);
    hide Inv;
    assert RowOf(w, t.id) && RevisionsOf(w, t.id) && CondemnedOf(w, t.id);
    hide Slice;
    assert TaskColumns(w.db.jobs[t.id]);
    hide RowInv;
    assert RevisionAccounted(w, t.id, t.rev);
  }

  // ---------------------------------------------------------------- fencing

  /** This runner's lease is not held: expired, requeued, ended, or its job gone. */
  ghost predicate Dead(w: World, lease: Lease) {
    lease in w.tickets && forall id :: !Held(w.db, id, lease, w.clock)
  }

  lemma DeadOnceMoved(w: World, v: World, lease: Lease, late: set<Lease>)
    requires Moves(w, v, late) && Dead(w, lease) && lease !in late
    ensures Dead(v, lease)
  {
    forall id ensures !Held(v.db, id, lease, v.clock) {
      assert !Held(w.db, id, lease, w.clock);
    }
  }

  lemma DeadStep(w: World, e: Event, lease: Lease)
    requires Inv(w) && Enabled(w, e) && Dead(w, lease) && lease !in LateBy(w, e)
    ensures Inv(Next(w, e)) && Dead(Next(w, e), lease)
  {
    hide *;
    NextKeeps(w, e);
    DeadOnceMoved(w, Next(w, e), lease, LateBy(w, e));
  }

  /** No call that was overtaken by a later time renews this lease in the run. */
  ghost predicate NeverLate(w: World, es: seq<Event>, lease: Lease)
    requires Runs(w, es)
    decreases |es|
  {
    es == [] || (lease !in LateBy(w, es[0]) && NeverLate(Next(w, es[0]), es[1..], lease))
  }

  /** A lease that is dead stays dead, but for a renewal that came late. */
  lemma {:induction false} DeadLeasesStayDead(w: World, es: seq<Event>, lease: Lease)
    requires Inv(w) && Runs(w, es) && Dead(w, lease) && NeverLate(w, es, lease)
    ensures Dead(Run(w, es), lease)
    decreases |es|
  {
    hide Inv; hide Enabled; hide Next; hide Dead; hide LateBy;
    if es != [] {
      DeadStep(w, es[0], lease);
      DeadLeasesStayDead(Next(w, es[0]), es[1..], lease);
    }
  }

  /** Beyond recall: no row carries the lease any more, its deadline passed, or its revision was
      handed to cleanup. */
  ghost predicate Over(w: World, lease: Lease) {
    && lease in w.tickets
    && forall id | id in w.db.jobs && IsClaimed(w.db.jobs[id]) && w.db.jobs[id].lease == Some(lease) ::
         || w.db.jobs[id].deadline.GetOr(0) <= w.clock
         || RevPrefix(id, w.tickets[lease].rev) in w.condemned
  }

  lemma OverIsDead(w: World, lease: Lease)
    requires Inv(w) && Over(w, lease)
    ensures Dead(w, lease)
  {
    forall id ensures !Held(w.db, id, lease, w.clock) {
      if id in w.db.jobs && IsClaimed(w.db.jobs[id]) && w.db.jobs[id].lease == Some(lease) {
        SliceOf(w, id);
        assert RevisionsOf(w, id) && CondemnedOf(w, id);
        hide Inv; hide Slice;
        assert Lapsed(w.db.jobs[id], w.clock);
      }
    }
  }

  lemma OverOnceMoved(w: World, v: World, lease: Lease, late: set<Lease>)
    requires Moves(w, v, late) && Over(w, lease)
    ensures Over(v, lease)
  {
    MovedTicket(w, v, lease, late);
    forall id | id in v.db.jobs && IsClaimed(v.db.jobs[id]) && v.db.jobs[id].lease == Some(lease)
      ensures v.db.jobs[id].deadline.GetOr(0) <= v.clock || RevPrefix(id, v.tickets[lease].rev) in v.condemned
    {
      MovedClaim(w, v, id, lease, late);
    }
  }

  lemma MovedTicket(w: World, v: World, lease: Lease, late: set<Lease>)
    requires Moves(w, v, late) && lease in w.tickets
    ensures lease in v.tickets && v.tickets[lease] == w.tickets[lease]
    ensures w.clock <= v.clock && w.condemned <= v.condemned
  {
    hide JobsMove;
  }

  /** A claim seen after a step was there before it, under the same deadline. */
  lemma MovedClaim(w: World, v: World, id: Id, lease: Lease, late: set<Lease>)
    requires Moves(w, v, late) && lease in w.tickets
    requires id in v.db.jobs && IsClaimed(v.db.jobs[id]) && v.db.jobs[id].lease == Some(lease)
    ensures id in w.db.jobs && IsClaimed(w.db.jobs[id]) && w.db.jobs[id].lease == Some(lease)
    ensures w.db.jobs[id].deadline == v.db.jobs[id].deadline
  {
    assert JobsMove(w, v, late);
    hide Moves;
    if id in w.db.jobs {
      assert RowMoves(w, w.db.jobs[id], v.db.jobs[id], v.clock, late);
    }
  }

  lemma OverStep(w: World, e: Event, lease: Lease)
    requires Inv(w) && Enabled(w, e) && Over(w, lease)
    ensures Inv(Next(w, e)) && Over(Next(w, e), lease)
  {
    hide *;
    NextKeeps(w, e);
    OverOnceMoved(w, Next(w, e), lease, LateBy(w, e));
  }

  /** Such a lease is never held again, whatever calls come late. */
  lemma {:induction false} OverLeasesStayOver(w: World, es: seq<Event>, lease: Lease)
    requires Inv(w) && Runs(w, es) && Over(w, lease)
    ensures Over(Run(w, es), lease) && Dead(Run(w, es), lease)
    decreases |es|
  {
    hide Inv; hide Enabled; hide Next; hide Dead; hide Over;
    if es == [] {
      OverIsDead(w, lease);
    } else {
      OverStep(w, es[0], lease);
      OverLeasesStayOver(Next(w, es[0]), es[1..], lease);
    }
  }

  /** The events a runner causes with its lease. */
  predicate MadeBy(w: World, e: Event, lease: Lease) {
    match e
    case RenewBy(_, l, _) => l == lease
    case ProgressBy(_, l, _, _) => l == lease
    case FailBy(_, l, _, _) => l == lease
    case CompleteAsk(_, _, l, _, _) => l == lease
    case CompleteCommits(req, _) => req in w.completing && w.completing[req].lease == lease
    case PutCheck(_, _, l, _, _, _) => l == lease
    case PutBegin(token, _) => token in w.putting && w.putting[token].lease == lease
    case PutEnd(token, _) => token in w.putting && w.putting[token].lease == lease
    case _ => false
  }

  ghost predicate SameOutcomes(a: Db, b: Db) {
    a.jobs == b.jobs && a.completions == b.completions && a.attempts == b.attempts
  }

  /** No entry point does anything to jobs, receipts or revisions for a lease that is not held. */
  lemma UnheldCallsDoNothing(db: Db, id: Id, lease: Lease, now: int)
    requires !Held(db, id, lease, now)
    ensures RenewLease(db, id, lease, now) == db
    ensures forall event :: Progress(db, id, lease, event, now).db == db
    ensures forall error :: FailTask(db, id, lease, error, now).db == db
    ensures forall result: CompleteRequest ::
              var opening := CompleteOpen(db, id, lease, result, now); opening.Answered? && opening.call.db == db
    ensures forall result: CompleteRequest, files, all, before: int | result.Finished? && before <= now ::
              CompleteCommit(db, id, lease, result, files, all, before, now).db == db
    ensures forall token :: BeginArtifactUpload(db, id, lease, token, now).db == db
    ensures forall token :: SameOutcomes(EndArtifactUpload(db, id, lease, token, now), db)
  {
    hide ValidSteps; hide Manifest; hide Publish; hide RefuseReview; hide FailRow; hide RetrySync; hide ApplyStepProgress;
  }

  lemma HeldBefore(db: Db, id: Id, lease: Lease, before: int, now: int)
    requires before <= now && Held(db, id, lease, now)
    ensures Held(db, id, lease, before)
  {
  }

  function JobOf(w: World, e: Event): Id {
    match e
    case RenewBy(id, _, _) => id
    case ProgressBy(id, _, _, _) => id
    case FailBy(id, _, _, _) => id
    case CompleteAsk(_, id, _, _, _) => id
    case PutCheck(_, id, _, _, _, _) => id
    case CompleteCommits(req, _) => if req in w.completing then w.completing[req].id else ""
    case PutBegin(token, _) => if token in w.putting then w.putting[token].id else ""
    case PutEnd(token, _) => if token in w.putting then w.putting[token].id else ""
    case _ => ""
  }

  lemma DeadMeansUnheld(w: World, e: Event, lease: Lease)
    requires Inv(w) && Enabled(w, e) && Dead(w, lease) && MadeBy(w, e, lease) && lease !in LateBy(w, e)
    ensures !Held(w.db, JobOf(w, e), lease, e.now)
    ensures e.CompleteCommits? ==> w.completing[e.req].now <= e.now
  {
    hide Slice; hide CleaningKept; hide AdmissionKept;
    var id := JobOf(w, e);
    if Held(w.db, id, lease, e.now) && w.clock <= e.now {
      HeldBefore(w.db, id, lease, w.clock, e.now);
    }
    if e.CompleteCommits? {
      SliceOf(w, id);
      CompletingBegan(w, e.req);
    }
  }

  lemma CompletingBegan(w: World, req: string)
    requires req in w.completing && Slice(w, w.completing[req].id)
    ensures w.completing[req].now <= w.clock
  {
    assert CompletingOf(w, w.completing[req].id);
    hide Slice;
  }

  lemma UnheldTaskCall(w: World, e: Event, lease: Lease)
    requires Enabled(w, e) && MadeBy(w, e, lease) && !Held(w.db, JobOf(w, e), lease, e.now)
    requires e.RenewBy? || e.ProgressBy? || e.FailBy? || e.PutCheck?
    ensures SameOutcomes(Next(w, e).db, w.db)
  {
    hide Enabled; hide Held; hide RenewLease; hide Progress; hide FailTask; hide NextRevision;
    UnheldCallsDoNothing(w.db, JobOf(w, e), lease, e.now);
  }

  lemma UnheldCompletion(w: World, e: Event, lease: Lease)
    requires Enabled(w, e) && MadeBy(w, e, lease) && !Held(w.db, JobOf(w, e), lease, e.now)
    requires e.CompleteAsk? || (e.CompleteCommits? && w.completing[e.req].now <= e.now)
    ensures SameOutcomes(Next(w, e).db, w.db)
  {
    hide Held; hide AllSeen; hide CompleteOpen; hide CompleteCommit; hide NextRevision;
    UnheldCallsDoNothing(w.db, JobOf(w, e), lease, e.now);
  }

  lemma UnheldBegin(db: Db, id: Id, lease: Lease, token: string, now: int)
    requires !Held(db, id, lease, now)
    ensures BeginArtifactUpload(db, id, lease, token, now) == Answer(db, false)
  {
    hide Held;
  }

  lemma UnheldPutBegin(w: World, token: string, now: int)
    requires Enabled(w, PutBegin(token, now)) && !Held(w.db, w.putting[token].id, w.putting[token].lease, now)
    ensures SameOutcomes(Next(w, PutBegin(token, now)).db, w.db)
  {
    UnheldBegin(w.db, w.putting[token].id, w.putting[token].lease, token, now);
    hide Held; hide BeginArtifactUpload;
  }

  lemma UnheldPutEnd(w: World, token: string, now: int)
    requires Enabled(w, PutEnd(token, now)) && !Held(w.db, w.putting[token].id, w.putting[token].lease, now)
    ensures SameOutcomes(Next(w, PutEnd(token, now)).db, w.db)
  {
    hide Held; hide EndArtifactUpload; hide NextRevision;
    UnheldCallsDoNothing(w.db, w.putting[token].id, w.putting[token].lease, now);
  }

  lemma UnheldUpload(w: World, e: Event, lease: Lease)
    requires Enabled(w, e) && MadeBy(w, e, lease) && !Held(w.db, JobOf(w, e), lease, e.now)
    requires e.PutBegin? || e.PutEnd?
    ensures SameOutcomes(Next(w, e).db, w.db)
  {
    hide Held; hide Next; hide Enabled; hide SameOutcomes;
    match e
    case PutBegin(token, now) => UnheldPutBegin(w, token, now);
    case PutEnd(token, now) => UnheldPutEnd(w, token, now);
  }

  lemma DeadLeaseStepHasNoEffect(w: World, e: Event, lease: Lease)
    requires Inv(w) && Enabled(w, e) && Dead(w, lease) && MadeBy(w, e, lease) && lease !in LateBy(w, e)
    ensures SameOutcomes(Next(w, e).db, w.db)
  {
    DeadMeansUnheld(w, e, lease);
    hide Inv; hide Dead; hide Held; hide Next; hide SameOutcomes; hide JobOf; hide Enabled;
    if e.RenewBy? || e.ProgressBy? || e.FailBy? || e.PutCheck? {
      UnheldTaskCall(w, e, lease);
    } else if e.CompleteAsk? || e.CompleteCommits? {
      UnheldCompletion(w, e, lease);
    } else {
      UnheldUpload(w, e, lease);
    }
  }

  /** Fencing: once dead, a lease changes no job, no receipt and no revision ever again, in any run
      without a late renewal of it, not even through a `complete` that was already waiting for the
      store. */
  lemma DeadLeasesHaveNoEffect(w: World, es: seq<Event>, e: Event, lease: Lease)
    requires Inv(w) && Runs(w, es) && Dead(w, lease) && NeverLate(w, es, lease)
    requires Enabled(Run(w, es), e) && MadeBy(Run(w, es), e, lease) && lease !in LateBy(Run(w, es), e)
    ensures SameOutcomes(Next(Run(w, es), e).db, Run(w, es).db)
  {
    hide Inv; hide Enabled; hide Next; hide Dead; hide MadeBy; hide SameOutcomes; hide LateBy;
    DeadLeasesStayDead(w, es, lease);
    RunKeeps(w, es);
    DeadLeaseStepHasNoEffect(Run(w, es), e, lease);
  }

  /** Receipts, revisions, and what each job has published and stored of its person's decisions. */
  ghost predicate SamePublications(a: Db, b: Db) {
    && a.completions == b.completions && a.attempts == b.attempts && a.jobs.Keys == b.jobs.Keys
    && forall id | id in a.jobs ::
         var j, k := a.jobs[id], b.jobs[id];
         && j.status == k.status && j.rev == k.rev && j.files == k.files && j.overrides == k.overrides
         && j.taskKind == k.taskKind && j.taskState == k.taskState && j.lease == k.lease
  }

  lemma OneRowTouched(db: Db, id: Id, steps: seq<Step>, now: int)
    requires id in db.jobs
    ensures SamePublications(PutJob(db, id, RenewedRow(db.jobs[id], steps, now)), db)
  {
  }

  lemma RenewalsPublishNothing(db: Db, id: Id, lease: Lease, event: ProgressEvent, now: int)
    ensures SamePublications(RenewLease(db, id, lease, now), db)
    ensures SamePublications(Progress(db, id, lease, event, now).db, db)
  {
    SamePublicationsSelf(db);
    if id in db.jobs {
      OneRowTouched(db, id, db.jobs[id].steps, now);
      var applied := ApplyStepProgress(db.jobs[id].steps, event, now);
      if applied.Ok? {
        OneRowTouched(db, id, applied.value, now);
      }
    }
    hide SamePublications; hide ApplyStepProgress; hide Holds; hide TaskTransitionError;
  }

  lemma CheckingStep(w: World, token: string, id: Id, lease: Lease, name: string, bytes: Bytes, now: int)
    ensures PutCheckStep(w, token, id, lease, name, bytes, now).db
         == if Held(w.db, id, lease, now) then RenewLease(w.db, id, lease, now) else w.db
  {
    AtIs(w, w.db, Later(w.clock, now));
    AtIs(w, RenewLease(w.db, id, lease, now), Later(w.clock, now));
    hide Held; hide RenewLease; hide NextRevision; hide Later; hide At;
  }

  lemma RenewingStep(w: World, e: Event)
    requires Enabled(w, e) && Renews(e)
    ensures Next(w, e).db == w.db || Next(w, e).db == RenewLease(w.db, e.id, e.lease, e.now)
      || (e.ProgressBy? && Next(w, e).db == Progress(w.db, e.id, e.lease, e.event, e.now).db)
  {
    hide Enabled; hide InTime;
    hide CreateJob; hide QueueReview; hide SetOverride; hide DeleteJob; hide RenewLease; hide Progress; hide PutCheckStep;
    if e.PutCheck? {
      CheckingStep(w, e.token, e.id, e.lease, e.name, e.bytes, e.now);
    }
  }

  lemma LateCallsPublishNothing(w: World, e: Event)
    requires Enabled(w, e) && Renews(e)
    ensures SamePublications(Next(w, e).db, w.db)
  {
    RenewingStep(w, e);
    var event := if e.ProgressBy? then e.event else ProgressEvent(None, None, None, None);
    RenewalsPublishNothing(w.db, e.id, e.lease, event, e.now);
    hide *;
    SamePublicationsSelf(w.db);
  }

  lemma SamePublicationsSelf(db: Db)
    ensures SamePublications(db, db)
  {
  }

  /** Without that proviso: whatever comes late, a lease that is over publishes nothing, ends nothing
      and gets no receipt. */
  lemma OverLeasesPublishNothing(w: World, es: seq<Event>, e: Event, lease: Lease)
    requires Inv(w) && Runs(w, es) && Over(w, lease)
    requires Enabled(Run(w, es), e) && MadeBy(Run(w, es), e, lease)
    ensures SamePublications(Next(Run(w, es), e).db, Run(w, es).db)
  {
    hide Inv; hide Enabled; hide Next; hide Dead; hide Over; hide MadeBy; hide Renews; hide Held;
    OverLeasesStayOver(w, es, lease);
    RunKeeps(w, es);
    if Renews(e) {
      LateCallsPublishNothing(Run(w, es), e);
    } else {
      DeadLeaseStepHasNoEffect(Run(w, es), e, lease);
    }
  }

  /** The lease has had its one result, or its job is gone. */
  ghost predicate Spent(w: World, lease: Lease) {
    && lease in w.tickets
    && ((w.tickets[lease].id, lease) in w.db.completions || Gone(w, w.tickets[lease].id))
  }

  /** This step records a result for the lease. */
  ghost predicate Commits(w: World, e: Event, lease: Lease) {
    exists id :: (id, lease) !in w.db.completions && (id, lease) in Next(w, e).db.completions
  }

  ghost function CommitCount(w: World, es: seq<Event>, lease: Lease): nat
    requires Runs(w, es)
    decreases |es|
  {
    if es == [] then 0
    else (if Commits(w, es[0], lease) then 1 else 0) + CommitCount(Next(w, es[0]), es[1..], lease)
  }

  lemma ReceiptsNameTheirTicket(w: World, id: Id, lease: Lease)
    requires Inv(w) && (id, lease) in w.db.completions
    ensures id in w.db.jobs && lease in w.tickets && w.tickets[lease].id == id
  {
    SliceOf(w, id);
    hide Inv;
    assert ReceiptsOf(w, id);
    hide Slice;
  }

  lemma SpentOnceMoved(w: World, v: World, lease: Lease, late: set<Lease>)
    requires Inv(w) && Inv(v) && Moves(w, v, late) && Spent(w, lease)
    requires var id := w.tickets[lease].id;
      && (id in w.db.jobs ==> id in v.db.jobs || Gone(v, id))
      && (Gone(w, id) ==> Gone(v, id))
    ensures Spent(v, lease)
    ensures forall other | (other, lease) in v.db.completions :: (other, lease) in w.db.completions
  {
    var id := w.tickets[lease].id;
    hide Inv; hide Moves; hide Gone;
    MovedTicket(w, v, lease, late);
    if (id, lease) in w.db.completions {
      ReceiptsNameTheirTicket(w, id, lease);
      if id in v.db.jobs {
        ReceiptStep(w, v, id, lease, late);
      }
    } else {
      GoneMeans(v, id);
    }
    forall other | (other, lease) in v.db.completions ensures (other, lease) in w.db.completions {
      ReceiptsNameTheirTicket(v, other, lease);
    }
  }

  /** A reserved id's job stays, or is gone for good. */
  lemma StepOfId(w: World, e: Event, id: Id)
    requires Inv(w) && Enabled(w, e)
    ensures id in w.db.jobs ==> id in Next(w, e).db.jobs || Gone(Next(w, e), id)
    ensures Gone(w, id) ==> Gone(Next(w, e), id)
  {
    hide *;
    if id in w.db.jobs {
      StepOfJob(w, e, id);
    }
    if Gone(w, id) {
      StepOfGone(w, e, id);
    }
  }

  lemma CommitsMeans(w: World, e: Event, lease: Lease)
    requires forall id | (id, lease) in Next(w, e).db.completions :: (id, lease) in w.db.completions
    ensures !Commits(w, e, lease)
  {
    hide Next;
  }

  lemma SpentStep(w: World, e: Event, lease: Lease)
    requires Inv(w) && Enabled(w, e) && Spent(w, lease)
    ensures Inv(Next(w, e)) && Spent(Next(w, e), lease) && !Commits(w, e, lease)
  {
    SpentHasTicket(w, lease);
    hide *;
    NextKeeps(w, e);
    StepOfId(w, e, w.tickets[lease].id);
    SpentOnceMoved(w, Next(w, e), lease, LateBy(w, e));
    CommitsMeans(w, e, lease);
  }

  lemma SpentHasTicket(w: World, lease: Lease)
    requires Spent(w, lease)
    ensures lease in w.tickets
  {
  }

  lemma GoneMeans(w: World, id: Id)
    requires Gone(w, id)
    ensures id !in w.db.jobs
  {
  }

  lemma {:induction false} SpentLeasesCommitNothing(w: World, es: seq<Event>, lease: Lease)
    requires Inv(w) && Runs(w, es) && Spent(w, lease)
    ensures CommitCount(w, es, lease) == 0
    decreases |es|
  {
    hide Inv; hide Enabled; hide Next; hide Spent; hide Commits;
    if es != [] {
      SpentStep(w, es[0], lease);
      SpentLeasesCommitNothing(Next(w, es[0]), es[1..], lease);
    }
  }

  lemma CommitSpends(w: World, e: Event, lease: Lease)
    requires Inv(w) && Enabled(w, e) && Commits(w, e, lease)
    ensures Inv(Next(w, e)) && Spent(Next(w, e), lease)
  {
    var v := Next(w, e);
    NextKeeps(w, e);
    var id :| (id, lease) !in w.db.completions && (id, lease) in v.db.completions;
    hide Inv; hide Enabled; hide Next; hide Raises; hide Moves; hide Gone;
    ReceiptsNameTheirTicket(v, id, lease);
  }

  /** At most once: over any run from the start, a lease commits at most one result, whatever
      completes race, repeat or arrive late. */
  lemma {:induction false} EachLeaseCommitsAtMostOnce(w: World, es: seq<Event>, lease: Lease)
    requires Inv(w) && Runs(w, es)
    ensures CommitCount(w, es, lease) <= 1
    decreases |es|
  {
    hide Inv; hide Enabled; hide Next; hide Spent; hide Commits; hide Raises; hide Moves;
    if es != [] {
      NextKeeps(w, es[0]);
      if Commits(w, es[0], lease) {
        CommitSpends(w, es[0], lease);
        SpentLeasesCommitNothing(Next(w, es[0]), es[1..], lease);
      } else {
        EachLeaseCommitsAtMostOnce(Next(w, es[0]), es[1..], lease);
      }
    }
  }

  // ---------------------------------------------------------------- receipts

  ghost predicate SameReceipts(e: Exec, db: Db) {
    e.db.completions == db.completions
  }

  lemma EndTaskReceipts(db: Db, id: Id, now: int, dirtySync: bool)
    ensures SameReceipts(EndTask(db, id, now, dirtySync), db)
  {
    hide TaskTransitionError; hide Dirty; hide Cleared;
  }

  lemma EndingsGiveNoReceipt(db: Db, id: Id, error: string, now: int)
    ensures SameReceipts(FailRow(db, id, error, now), db)
    ensures SameReceipts(StopSync(db, id, now), db)
  {
    hide EndTask; hide TaskTransitionError; hide JobAllows; hide FailSteps;
    if id in db.jobs {
      var row := db.jobs[id];
      var failed := row.(status := Failed, error := Some(error), steps := FailSteps(row.steps, error, now),
                         updatedAt := now, pending := None);
      EndTaskReceipts(PutJob(db, id, failed), id, now, true);
      EndTaskReceipts(PutJob(db, id, row.(notice := Some(REFRESH_INTERRUPTED))), id, now, false);
    }
  }

  lemma RetriesGiveNoReceipt(db: Db, id: Id, now: int)
    ensures SameReceipts(Requeue(db, id, now), db)
    ensures SameReceipts(RetrySync(db, id, now), db)
  {
    EndingsGiveNoReceipt(db, id, "", now);
    hide StopSync; hide TaskTransitionError; hide JobAllows; hide ResetSteps;
  }

  lemma LapsesGiveNoReceipt(db: Db, id: Id, lease: Lease, error: string, now: int)
    ensures SweepRow(db, id, now).db.completions == db.completions
    ensures FailTask(db, id, lease, error, now).db.completions == db.completions
  {
    EndingsGiveNoReceipt(db, id, DEADLINE, now);
    EndingsGiveNoReceipt(db, id, INTERRUPTED, now);
    EndingsGiveNoReceipt(db, id, error, now);
    RetriesGiveNoReceipt(db, id, now);
    hide FailRow; hide StopSync; hide RetrySync; hide Requeue; hide Held;
  }

  lemma RefusalGivesOneReceipt(db: Db, id: Id, lease: Lease, result: CompleteRequest, now: int)
    requires id in db.jobs && result.Refused?
    ensures var after := RefuseReview(db, id, lease, result, now).db.completions;
      after == db.completions || after == db.completions[(id, lease) := result]
  {
    hide EndTask; hide JobAllows; hide OutputReady; hide RecordCompletion;
    var row := db.jobs[id];
    if row.prior.Some? {
      var restored := PutJob(db, id, row.(status := row.prior.value.status, steps := row.prior.value.steps,
                                          notice := Some(result.reason), updatedAt := now));
      RecordGivesOneReceipt(restored, id, lease, result);
      EndTaskReceipts(RecordCompletion(restored, id, lease, result).db, id, now, true);
    }
  }

  lemma TransitionGivesNoReceipt(db: Db, id: Id, rev: Option<nat>, target: ArtifactState)
    ensures SameReceipts(ArtifactTransition(db, id, rev, target), db)
  {
  }

  lemma RecordGivesOneReceipt(db: Db, id: Id, lease: Lease, result: CompleteRequest)
    ensures var after := RecordCompletion(db, id, lease, result).db.completions;
      after == db.completions || after == db.completions[(id, lease) := result]
  {
  }

  lemma PublicationGivesOneReceipt(db: Db, id: Id, lease: Lease, result: CompleteRequest, files: seq<string>, now: int)
    requires id in db.jobs && result.Finished?
    ensures var after := Publish(db, id, lease, result, files, now).db.completions;
      after == db.completions || after == db.completions[(id, lease) := result]
  {
    var row := db.jobs[id];
    var sealed := ArtifactTransition(db, id, row.nextRev, Sealed);
    var put := PutJob(sealed.db, id, PublishedRow(row, result, files, now));
    var published := ArtifactTransition(put, id, row.nextRev, Published);
    var recorded := RecordCompletion(published.db, id, lease, result);
    TransitionGivesNoReceipt(db, id, row.nextRev, Sealed);
    TransitionGivesNoReceipt(put, id, row.nextRev, Published);
    RecordGivesOneReceipt(published.db, id, lease, result);
    EndTaskReceipts(recorded.db, id, now, true);
    hide EndTask; hide JobAllows; hide ArtifactTransition; hide PublishedRow; hide RecordCompletion;
  }

  /** The result a call carries, for the job and lease it names. */
  predicate Carries(w: World, e: Event, id: Id, lease: Lease, result: CompleteRequest) {
    || (e.CompleteAsk? && e.id == id && e.lease == lease && e.result == result)
    || (e.CompleteCommits? && e.req in w.completing && w.completing[e.req].id == id
        && w.completing[e.req].lease == lease && w.completing[e.req].result == result)
  }

  lemma AskGivesItsReceipt(w: World, req: string, id: Id, lease: Lease, result: CompleteRequest, now: int)
    ensures var after := CompleteAskStep(w, req, id, lease, result, now).db.completions;
      after == w.db.completions || after == w.db.completions[(id, lease) := result]
  {
    if id in w.db.jobs && result.Refused? {
      RefusalGivesOneReceipt(w.db, id, lease, result, now);
    }
    AskIs(w, req, id, lease, result, now);
    hide CompleteAskStep; hide RefuseReview;
  }

  lemma AskIs(w: World, req: string, id: Id, lease: Lease, result: CompleteRequest, now: int)
    ensures var after := CompleteAskStep(w, req, id, lease, result, now).db;
      || after == w.db
      || (id in w.db.jobs && result.Refused? && after == RefuseReview(w.db, id, lease, result, now).db)
  {
    OpeningCases(w.db, id, lease, result, now);
    hide CompleteOpen; hide RefuseReview; hide Holds; hide NextRevision; hide Manifest; hide ValidSteps;
  }

  lemma CommitStepIs(w: World, req: string, now: int)
    requires req in w.completing && w.completing[req].result.Finished?
    ensures var c := w.completing[req];
      CommitStep(w, req, now).db == CompleteCommit(w.db, c.id, c.lease, c.result, c.files, AllSeen(c), c.now, now).db
  {
    var c := w.completing[req];
    var db := CompleteCommit(w.db, c.id, c.lease, c.result, c.files, AllSeen(c), c.now, now).db;
    AtIs(w, db, now);
    var after := At(w, db, now).(completing := w.completing - {req});
    assert after.db == db;
    hide At; hide CompleteCommit; hide AllSeen; hide Held; hide Publishes;
    var v := CommitStep(w, req, now);
    assert v.db == after.db;
  }

  lemma CommitGivesOneReceipt(db: Db, id: Id, lease: Lease, result: CompleteRequest, files: seq<string>, all: bool, now: int, later: int)
    requires result.Finished?
    ensures var after := CompleteCommit(db, id, lease, result, files, all, now, later).db.completions;
      after == db.completions || after == db.completions[(id, lease) := result]
  {
    if id in db.jobs {
      PublicationGivesOneReceipt(db, id, lease, result, files, now);
    }
    hide Publish; hide Holds;
  }

  lemma CommitGivesItsReceipt(w: World, req: string, now: int)
    requires req in w.completing && w.completing[req].result.Finished?
    ensures var c := w.completing[req];
      var after := CommitStep(w, req, now).db.completions;
      after == w.db.completions || after == w.db.completions[(c.id, c.lease) := c.result]
  {
    var c := w.completing[req];
    CommitStepIs(w, req, now);
    CommitGivesOneReceipt(w.db, c.id, c.lease, c.result, c.files, AllSeen(c), c.now, now);
    hide *;
  }

  lemma UploadsGiveNoReceipt(w: World, e: Event)
    requires Enabled(w, e)
    requires e.Reserve? || e.InputPut? || e.MarkStored? || e.Create? || e.Abandon? || e.Delete? || e.Expire? || e.Retain?
    ensures Next(w, e).db.completions.Keys <= w.db.completions.Keys
  {
    hide Enabled; hide AdmitUpload; hide UploadAllows; hide Owned; hide NewRow;
  }

  lemma ReviewsGiveNoReceipt(db: Db, owner: string, id: Id, action: ReviewAction, jwt: string, exp: int, now: int)
    ensures QueueReview(db, owner, id, action, jwt, exp, now).db.completions == db.completions
  {
    hide TaskTransitionError; hide Enqueued; hide ReviewBusy; hide CredentialEligibility; hide JobAllows; hide Reviewing;
  }

  lemma OverridesGiveNoReceipt(db: Db, owner: string, id: Id, kind: ItemKind, item: int, now: int)
    ensures SetOverride(db, owner, id, kind, item, now).db.completions == db.completions
  {
    hide TaskTransitionError; hide Enqueued;
  }

  lemma QueueingGivesNoReceipt(w: World, e: Event)
    requires Enabled(w, e) && (e.Override? || e.AskReview?)
    ensures Next(w, e).db.completions == w.db.completions
  {
    hide *;
    PersonNext(w, e);
    match e
    case Override(owner, id, kind, item, now) =>
      OverridesGiveNoReceipt(w.db, owner, id, kind, item, now);
      AtIs(w, SetOverride(w.db, owner, id, kind, item, now).db, now);
    case AskReview(owner, id, action, jwt, exp, now) =>
      ReviewsGiveNoReceipt(w.db, owner, id, action, jwt, exp, now);
      AtIs(w, QueueReview(w.db, owner, id, action, jwt, exp, now).db, now);
  }

  lemma RetiringGivesNoReceipt(db: Db, id: Id, now: int)
    requires id in db.jobs
    ensures Retire(db, id, now).db.completions == db.completions
  {
    EndingsGiveNoReceipt(db, id, SIGN_IN_ENDING, now);
    EndingsGiveNoReceipt(db, id, INCONSISTENT, now);
    hide FailRow; hide ClaimVerdict;
  }

  lemma GrantingGivesNoReceipt(w: World, id: Id, lease: Lease, highest: nat, now: int)
    requires id in w.db.jobs
    ensures Granted(w, id, lease, highest, now).db.completions == w.db.completions
  {
  }

  lemma SamePublicationsReceipts(a: Db, b: Db)
    requires SamePublications(a, b)
    ensures a.completions == b.completions
  {
  }

  lemma RunnerGivesNoReceipt(w: World, e: Event)
    requires Enabled(w, e)
    requires e.ClaimRetire? || e.ClaimGrant? || e.RenewBy? || e.ProgressBy? || e.FailBy? || e.Sweep? || e.PutCheck?
    ensures Next(w, e).db.completions == w.db.completions
  {
    RenewsMeans(e);
    hide *;
    if e.ClaimRetire? {
      ClaimRetireNext(w, e.id, e.now);
      AtIs(w, Retire(w.db, e.id, e.now).db, e.now);
      RetiringGivesNoReceipt(w.db, e.id, e.now);
    } else if e.ClaimGrant? {
      ClaimGrantNext(w, e.id, e.lease, e.highest, e.now);
      GrantingGivesNoReceipt(w, e.id, e.lease, e.highest, e.now);
    } else if e.FailBy? {
      RunnerNext(w, e);
      LapsesGiveNoReceipt(w.db, e.id, e.lease, e.error, e.now);
      AtIs(w, FailTask(w.db, e.id, e.lease, e.error, e.now).db, e.now);
    } else if e.Sweep? {
      RunnerNext(w, e);
      LapsesGiveNoReceipt(w.db, e.id, "", "", e.now);
      AtIs(w, SweepRow(w.db, e.id, e.now).db, e.now);
    } else {
      LateCallsPublishNothing(w, e);
      SamePublicationsReceipts(Next(w, e).db, w.db);
    }
  }

  lemma BeginGivesNoReceipt(db: Db, id: Id, lease: Lease, token: string, now: int)
    ensures BeginArtifactUpload(db, id, lease, token, now).db.completions == db.completions
  {
    hide Holds;
  }

  lemma PutBeginGivesNoReceipt(w: World, token: string, now: int)
    requires token in w.putting
    ensures PutBeginStep(w, token, now).db.completions == w.db.completions
  {
    var p := w.putting[token];
    var call := BeginArtifactUpload(w.db, p.id, p.lease, token, now);
    BeginGivesNoReceipt(w.db, p.id, p.lease, token, now);
    AtIs(w, call.db, now);
    hide BeginArtifactUpload; hide At;
  }

  lemma EndGivesNoReceipt(db: Db, id: Id, lease: Lease, token: string, now: int)
    ensures EndArtifactUpload(db, id, lease, token, now).completions == db.completions
  {
    hide Holds;
  }

  lemma FilesGiveNoReceipt(w: World, e: Event)
    requires Enabled(w, e)
    requires e.CompleteHead? || e.PutBegin? || e.PutStore? || e.PutEnd? || e.CleanStart? || e.CleanNext? || e.CleanDelete? || e.CleanSettle?
    ensures Next(w, e).db.completions == w.db.completions
  {
    hide *;
    if e.CompleteHead? || e.PutBegin? || e.PutStore? || e.PutEnd? {
      FileNext(w, e);
      if e.PutBegin? {
        PutBeginGivesNoReceipt(w, e.token, e.now);
      } else if e.PutEnd? {
        EndGivesNoReceipt(w.db, w.putting[e.token].id, w.putting[e.token].lease, e.token, e.now);
      }
    } else {
      CleaningNext(w, e);
    }
  }

  lemma OthersGiveNoReceipt(w: World, e: Event)
    requires Enabled(w, e) && !e.CompleteAsk? && !e.CompleteCommits?
    ensures Next(w, e).db.completions.Keys <= w.db.completions.Keys
  {
    hide *;
    if e.Override? || e.AskReview? {
      QueueingGivesNoReceipt(w, e);
    } else if e.ClaimRetire? || e.ClaimGrant? || e.RenewBy? || e.ProgressBy? || e.FailBy? || e.Sweep? || e.PutCheck? {
      RunnerGivesNoReceipt(w, e);
    } else if e.Reserve? || e.InputPut? || e.MarkStored? || e.Create? || e.Abandon? || e.Delete? || e.Expire? || e.Retain? {
      UploadsGiveNoReceipt(w, e);
    } else {
      FilesGiveNoReceipt(w, e);
    }
  }

  lemma AskNext(w: World, e: Event)
    requires Enabled(w, e) && e.CompleteAsk?
    ensures Next(w, e) == CompleteAskStep(w, e.req, e.id, e.lease, e.result, e.now)
  {
    hide CompleteAskStep; hide CommitStep; hide PutCheckStep; hide PutBeginStep; hide InTime;
  }

  /** Only a completion gives a receipt, and it keeps the result that the call carried. */
  lemma ReceiptsKeepTheResult(w: World, e: Event, id: Id, lease: Lease)
    requires Enabled(w, e)
    requires (id, lease) !in w.db.completions && (id, lease) in Next(w, e).db.completions
    ensures Carries(w, e, id, lease, Next(w, e).db.completions[(id, lease)])
  {
    if e.CompleteAsk? {
      AskNext(w, e);
      AskGivesItsReceipt(w, e.req, e.id, e.lease, e.result, e.now);
      hide CompleteAskStep; hide Enabled; hide Next;
    } else if e.CompleteCommits? {
      CommitNext(w, e);
      CommitGivesItsReceipt(w, e.req, e.now);
      hide CommitStep; hide Enabled; hide Next;
    } else {
      hide Next; hide Enabled;
      OthersGiveNoReceipt(w, e);
    }
  }

  lemma ReceiptStep(w: World, v: World, id: Id, lease: Lease, late: set<Lease>)
    requires Moves(w, v, late) && (id, lease) in w.db.completions && id in v.db.jobs
    ensures (id, lease) in v.db.completions && v.db.completions[(id, lease)] == w.db.completions[(id, lease)]
  {
    hide JobsMove;
  }

  /** A receipt lasts, unchanged, as long as its job. */
  lemma {:induction false} ReceiptsStay(w: World, es: seq<Event>, id: Id, lease: Lease)
    requires Inv(w) && Runs(w, es) && (id, lease) in w.db.completions && id in Run(w, es).db.jobs
    ensures (id, lease) in Run(w, es).db.completions
    ensures Run(w, es).db.completions[(id, lease)] == w.db.completions[(id, lease)]
    decreases |es|
  {
    hide Inv; hide Enabled; hide Next; hide Raises; hide Moves; hide OutOfOrder; hide LateBy; hide Forward;
    if es != [] {
      var v := Next(w, es[0]);
      NextKeeps(w, es[0]);
      ReceiptsNameTheirTicket(w, id, lease);
      StepOfJob(w, es[0], id);
      NotGoneBefore(v, es[1..], id);
      ReceiptStep(w, v, id, lease, LateBy(w, es[0]));
      ReceiptsStay(v, es[1..], id, lease);
    }
  }

  lemma NotGoneBefore(w: World, es: seq<Event>, id: Id)
    requires Inv(w) && Runs(w, es) && id in Run(w, es).db.jobs
    ensures !Gone(w, id)
  {
    hide Inv; hide Runs; hide Run;
    if Gone(w, id) {
      GoneForGood(w, es, id);
    }
  }

  function ReplyTo(result: CompleteRequest, recorded: CompleteRequest): QueueResult {
    if result == recorded then Accepted else CONFLICT
  }

  /** At a state with a receipt: both halves of `complete` read it before anything else they would do. */
  lemma AnsweredFromReceipt(db: Db, id: Id, lease: Lease, result: CompleteRequest, files: seq<string>, all: bool, now: int, later: int)
    requires (id, lease) in db.completions && (result.Finished? ==> Terminal(result.job.status))
    ensures CompleteOpen(db, id, lease, result, now) == Answered(Answer(db, ReplyTo(result, db.completions[(id, lease)])))
    ensures result.Finished? ==>
              CompleteCommit(db, id, lease, result, files, all, now, later)
              == Answer(db, if all then ReplyTo(result, db.completions[(id, lease)]) else Rejected(422, "Artifact manifest is incomplete"))
  {
  }

  /** Once a result was committed, then for as long as the job exists, however the run goes on: the
      same result is acknowledged again, any other valid one is a conflict, and neither changes the
      tables. */
  lemma RepeatsAreAcknowledged(w: World, e: Event, es: seq<Event>, id: Id, lease: Lease, r: CompleteRequest, ask: Event)
    requires Inv(w) && Enabled(w, e) && Commits(w, e, lease) && Carries(w, e, id, lease, r)
    requires Runs(Next(w, e), es) && id in Run(Next(w, e), es).db.jobs
    requires Enabled(Run(Next(w, e), es), ask) && ask.CompleteAsk? && ask.id == id && ask.lease == lease
    requires ask.result.Finished? ==> Terminal(ask.result.job.status)
    ensures var v := Run(Next(w, e), es);
      && CompleteOpen(v.db, id, lease, ask.result, ask.now) == Answered(Answer(v.db, ReplyTo(ask.result, r)))
      && Next(v, ask).db == v.db
  {
    CommittedResultStays(w, e, es, id, lease, r);
    var v := Run(Next(w, e), es);
    AnsweredFromReceipt(v.db, id, lease, ask.result, [], true, ask.now, ask.now);
    AtIs(v, v.db, ask.now);
    hide Inv; hide Commits; hide Carries; hide Runs; hide Run; hide Enabled; hide CompleteOpen; hide ReplyTo; hide At;
  }

  predicate Waits(w: World, req: string, id: Id, lease: Lease) {
    && req in w.completing && w.completing[req].result.Finished?
    && w.completing[req].id == id && w.completing[req].lease == lease
  }

  /** The same for a completion that was already waiting for the store when the other one committed;
      one whose files were not all there is told so first. */
  lemma WaitingRepeatsAreAcknowledged(w: World, e: Event, es: seq<Event>, id: Id, lease: Lease, r: CompleteRequest, commit: Event)
    requires Inv(w) && Enabled(w, e) && Commits(w, e, lease) && Carries(w, e, id, lease, r)
    requires Runs(Next(w, e), es) && id in Run(Next(w, e), es).db.jobs
    requires Enabled(Run(Next(w, e), es), commit) && commit.CompleteCommits? && Waits(Run(Next(w, e), es), commit.req, id, lease)
    ensures var v := Run(Next(w, e), es);
      var c := v.completing[commit.req];
      && CompleteCommit(v.db, id, lease, c.result, c.files, AllSeen(c), c.now, commit.now)
         == Answer(v.db, if AllSeen(c) then ReplyTo(c.result, r) else Rejected(422, "Artifact manifest is incomplete"))
      && Next(v, commit).db == v.db
  {
    hide *;
    CommittedResultStays(w, e, es, id, lease, r);
    var v := Run(Next(w, e), es);
    CommitNext(v, commit);
    WaitingIsAnswered(v, commit.req, commit.now, id, lease);
  }

  lemma WaitingIsAnswered(w: World, req: string, now: int, id: Id, lease: Lease)
    requires Inv(w) && Waits(w, req, id, lease) && (id, lease) in w.db.completions
    ensures var c := w.completing[req];
      && CompleteCommit(w.db, id, lease, c.result, c.files, AllSeen(c), c.now, now)
         == Answer(w.db, if AllSeen(c) then ReplyTo(c.result, w.db.completions[(id, lease)])
                         else Rejected(422, "Artifact manifest is incomplete"))
      && CommitStep(w, req, now).db == w.db
  {
    var c := w.completing[req];
    SliceOf(w, id);
    assert CompletingOf(w, id);
    hide Inv; hide Slice; hide ValidSteps;
    assert Terminal(c.result.job.status);
    AnsweredFromReceipt(w.db, id, lease, c.result, c.files, AllSeen(c), c.now, now);
    CommitStepIs(w, req, now);
    hide *;
    WaitsFor(w, req, id, lease);
  }

  lemma WaitsFor(w: World, req: string, id: Id, lease: Lease)
    requires Waits(w, req, id, lease)
    ensures req in w.completing && w.completing[req].id == id && w.completing[req].lease == lease
  {
  }

  lemma CommittedResultStays(w: World, e: Event, es: seq<Event>, id: Id, lease: Lease, r: CompleteRequest)
    requires Inv(w) && Enabled(w, e) && Commits(w, e, lease) && Carries(w, e, id, lease, r)
    requires Runs(Next(w, e), es) && id in Run(Next(w, e), es).db.jobs
    ensures Inv(Run(Next(w, e), es))
    ensures (id, lease) in Run(Next(w, e), es).db.completions && Run(Next(w, e), es).db.completions[(id, lease)] == r
  {
    var v := Next(w, e);
    var other :| (other, lease) !in w.db.completions && (other, lease) in v.db.completions;
    NextKeeps(w, e);
    hide Inv; hide Enabled; hide Next; hide Raises; hide Moves; hide OutOfOrder; hide LateBy;
    ReceiptsKeepTheResult(w, e, other, lease);
    assert other == id;
    RunKeeps(v, es);
    ReceiptsStay(v, es, id, lease);
  }
}
