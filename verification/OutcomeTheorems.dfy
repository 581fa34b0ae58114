/** What calls leave in every reachable world: commits, what a job shows of its runner's report over whole
    runs, and sweeps. */
module OutcomeTheorems {
  import opened Wrappers
  import opened Contract
  import opened Steps
  import opened Lifecycles
  import opened Credential
  import opened Keys
  import opened BoardTables
  import opened BoardRows
  import opened Outcomes
  import opened World
  import opened Invariant
  import opened Frames
  import opened Shapes
  import opened Preservation
  import opened BoardTheorems

  // ---------------------------------------------------------------- one commit

  /** The decisions the published views were not rendered with, and no others. */
  ghost predicate KeepsNewer(before: Overlay, after: Overlay, version: nat) {
    forall kind: ItemKind, item: int ::
      && (item in after.Of(kind) <==> item in before.Of(kind) && before.Of(kind)[item] > version)
      && (item in after.Of(kind) ==> after.Of(kind)[item] == before.Of(kind)[item])
  }

  /** The row shows the result: its files and its error, and its status and steps, unless a review waits;
      then these are what a refused review would return to. */
  ghost predicate ShowsResult(j: Job, k: Job, result: CompleteRequest, rev: nat, now: int)
    requires result.Finished?
  {
    var waits := j.pending.Some?;
    && TaskOver(
         j.(status := if waits then j.status else result.job.status, steps := if waits then j.steps else result.job.steps,
            prior := if waits then Some(Prior(result.job.status, result.job.steps)) else j.prior,
            error := result.job.error, rev := rev, files := k.files, hasState := result.hasState,
            overrides := k.overrides, syncedVersion := result.overridesVersion, updatedAt := now),
         k, now, true)
    && AsReported(k.files, result)
    && KeepsNewer(j.overrides, k.overrides, result.overridesVersion)
  }

  /** The tables after a publication: the pointer moved, the revision published, the receipt filed, and
      the old pointer's files due in five minutes. */
  ghost predicate Committed(before: Db, after: Db, c: Completing)
    requires c.result.Finished?
  {
    && c.id in before.jobs && c.id in after.jobs
    && ShowsResult(before.jobs[c.id], after.jobs[c.id], c.result, c.rev, c.now)
    && after == Db(before.jobs[c.id := after.jobs[c.id]],
                   before.completions[(c.id, c.lease) := c.result],
                   before.attempts[(c.id, c.rev) := Attempt(c.lease, Published)],
                   if before.jobs[c.id].rev > 0
                   then Recorded(before.cleanup, RevPrefix(c.id, before.jobs[c.id].rev), c.now + 5 * MINUTE) else before.cleanup,
                   before.uploads, before.writes)
  }

  lemma NewerKept(before: Overlay, version: nat)
    ensures KeepsNewer(before, OverridesAfter(before, version), version)
  {
    NewerKeeps(before.changes, version);
    NewerKeeps(before.tasks, version);
  }

  lemma PublishedShows(j: Job, c: Completing)
    requires c.result.Finished? && AsReported(c.files, c.result) && j.nextRev == Some(c.rev)
    ensures ShowsResult(j, EndedRow(PublishedRow(j, c.result, c.files, c.now), c.now, true), c.result, c.rev, c.now)
  {
    EndedIsOver(PublishedRow(j, c.result, c.files, c.now), c.now, true);
    NewerKept(j.overrides, c.result.overridesVersion);
    hide AsReported; hide KeepsNewer; hide OverridesAfter; hide JustQueued; hide Unleased; hide EndedRow;
  }

  lemma PublishedTables(db: Db, k: Job, c: Completing)
    requires c.id in db.jobs && db.jobs[c.id].nextRev == Some(c.rev) && c.result.Finished?
    requires ShowsResult(db.jobs[c.id], k, c.result, c.rev, c.now)
    ensures Committed(db, PublishedDb(db, c.id, k, c), c)
  {
    hide ShowsResult;
  }

  /** What the invariant says of a waiting request whose lease is still held. */
  lemma HeldRequest(w: World, req: string, now: int)
    requires Inv(w) && req in w.completing && Held(w.db, w.completing[req].id, w.completing[req].lease, now)
    ensures var c := w.completing[req];
      var j := w.db.jobs[c.id];
      && c.result.Finished? && Terminal(c.result.job.status) && AsReported(c.files, c.result)
      && RowInv(j) && PipelineRow(j) && IsClaimed(j) && j.lease == Some(c.lease) && j.nextRev == Some(c.rev) && c.rev > 0
      && HasAttempt(w.db, c.id, Some(c.rev)) && w.db.attempts[(c.id, c.rev)] == Attempt(c.lease, Staging)
      && ValidSteps(c.result.job.steps) && j.syncedVersion <= c.result.overridesVersion <= j.overridesVersion
      && c.now <= w.clock
  {
    var c := w.completing[req];
    SliceOf(w, c.id);
    hide Inv;
    assert CompletingOf(w, c.id) && RowOf(w, c.id) && PipelineOf(w, c.id) && RevisionsOf(w, c.id) && DecisionsOf(w, c.id);
    hide Slice; hide AsReported; hide ValidSteps; hide Intact;
    ClaimIsStaging(w, c.id);
    hide RowInv; hide RevisionAccounted;
  }

  /** After the store check: the answer is yes exactly when every reported file was seen and the lease is
      still held, and then the tables show the result; the same for a result already filed; and no
      other answer changes anything. */
  lemma CommitAsStated(w: World, req: string, now: int)
    requires Inv(w) && Enabled(w, CompleteCommits(req, now))
    ensures var c := w.completing[req];
      var call := CompleteCommit(w.db, c.id, c.lease, c.result, c.files, AllSeen(c), c.now, now);
      var seen := (forall name | name in c.result.files :: name in c.seen) && (c.result.hasState ==> STATE_FILE in c.seen);
      && call.Answer? && Next(w, CompleteCommits(req, now)).db == call.db
      && if !seen then call.db == w.db && call.reply == Rejected(422, "Artifact manifest is incomplete")
         else if (c.id, c.lease) in w.db.completions
         then call == Answer(w.db, if w.db.completions[(c.id, c.lease)] == c.result then Accepted else CONFLICT)
         else if !Held(w.db, c.id, c.lease, now) then call == Answer(w.db, NOT_HELD)
         else call.reply == Accepted && Committed(w.db, call.db, c)
  {
    hide *;
    CommitEnabled(w, req, now);
    var c := w.completing[req];
    CommitNext(w, CompleteCommits(req, now));
    CommitStepIs(w, req, now);
    WaitingFits(w, req);
    SeenIsAllSeen(c);
    if Held(w.db, c.id, c.lease, now) {
      HeldRequest(w, req, now);
    }
    CommitAnswers(w.db, c, now);
  }

  lemma CommitEnabled(w: World, req: string, now: int)
    requires Enabled(w, CompleteCommits(req, now))
    ensures req in w.completing && w.completing[req].result.Finished? && w.clock <= now
  {
    hide LateIsSafe;
  }

  lemma WaitingFits(w: World, req: string)
    requires Inv(w) && req in w.completing
    ensures w.completing[req].result.Finished? && AsReported(w.completing[req].files, w.completing[req].result)
    ensures w.completing[req].now <= w.clock
  {
    SliceOf(w, w.completing[req].id);
    hide Inv;
    assert CompletingOf(w, w.completing[req].id);
    hide Slice; hide AsReported; hide ValidSteps;
  }

  lemma SeenIsAllSeen(c: Completing)
    requires c.result.Finished? && AsReported(c.files, c.result)
    ensures AllSeen(c) <==> (forall name | name in c.result.files :: name in c.seen) && (c.result.hasState ==> STATE_FILE in c.seen)
  {
  }

  lemma CommitAnswers(db: Db, c: Completing, now: int)
    requires c.result.Finished? && c.now <= now && AsReported(c.files, c.result)
    requires Held(db, c.id, c.lease, now) ==>
               var j := db.jobs[c.id];
               && RowInv(j) && PipelineRow(j) && IsClaimed(j) && j.lease == Some(c.lease) && j.nextRev == Some(c.rev) && c.rev > 0
               && HasAttempt(db, c.id, Some(c.rev)) && db.attempts[(c.id, c.rev)] == Attempt(c.lease, Staging)
               && Terminal(c.result.job.status) && ValidSteps(c.result.job.steps)
               && j.syncedVersion <= c.result.overridesVersion <= j.overridesVersion
    ensures var call := CompleteCommit(db, c.id, c.lease, c.result, c.files, AllSeen(c), c.now, now);
      && call.Answer?
      && if !AllSeen(c) then call.db == db && call.reply == Rejected(422, "Artifact manifest is incomplete")
         else if (c.id, c.lease) in db.completions
         then call == Answer(db, if db.completions[(c.id, c.lease)] == c.result then Accepted else CONFLICT)
         else if !Held(db, c.id, c.lease, now) then call == Answer(db, NOT_HELD)
         else call.reply == Accepted && Committed(db, call.db, c)
  {
    hide RowInv; hide PipelineRow; hide ValidSteps; hide AsReported; hide AllSeen; hide Publish; hide Committed; hide PublishedDb; hide Holds;
    if AllSeen(c) && (c.id, c.lease) !in db.completions && Held(db, c.id, c.lease, now) {
      var j := db.jobs[c.id];
      PublishedLeaves(j, c);
      PublishIs(db, c);
      PublishedShows(j, c);
      PublishedTables(db, EndedRow(PublishedRow(j, c.result, c.files, c.now), c.now, true), c);
    }
  }

  // ---------------------------------------------------------------- over runs

  /** The job's files are those its runner reported under the revision the pointer is on, and they are
      there. */
  ghost predicate AsItsReceipt(w: World, id: Id)
    requires id in w.db.jobs
  {
    var j := w.db.jobs[id];
    && (id, j.rev) in w.db.attempts
    && var lease := w.db.attempts[(id, j.rev)].lease;
    && (id, lease) in w.db.completions
    && w.db.completions[(id, lease)].Finished?
    && AsReported(j.files, w.db.completions[(id, lease)])
    && j.hasState == w.db.completions[(id, lease)].hasState
  }

  ghost predicate ReceiptShown(w: World, id: Id) {
    id in w.db.jobs && w.db.jobs[id].rev > 0 ==> AsItsReceipt(w, id)
  }

  lemma MovedRow(w: World, v: World, id: Id, late: set<Lease>)
    requires Moves(w, v, late) && id in v.db.jobs
    ensures if id in w.db.jobs then RowMoves(w, w.db.jobs[id], v.db.jobs[id], v.clock, late) else v.db.jobs[id].rev == 0
  {
    assert JobsMove(w, v, late);
    hide Moves; hide RowMoves;
  }

  lemma SamePointer(w: World, v: World, id: Id, late: set<Lease>)
    requires Moves(w, v, late) && RevisionsOf(w, id) && RevisionsOf(v, id)
    requires id in w.db.jobs && id in v.db.jobs && w.db.jobs[id].rev == v.db.jobs[id].rev > 0
    requires AsItsReceipt(w, id)
    ensures AsItsReceipt(v, id)
  {
    var rev := v.db.jobs[id].rev;
    var lease := w.db.attempts[(id, rev)].lease;
    MovedRow(w, v, id, late);
    MovedTicket(w, v, lease, late);
    ReceiptStep(w, v, id, lease, late);
    hide Moves; hide AsReported; hide RevisionAccounted;
    assert v.db.attempts[(id, rev)].lease == lease;
  }

  /** A lease with a receipt has its revision under the pointer, or condemned. */
  lemma ReceiptMeansSettled(w: World, id: Id, lease: Lease)
    requires RevisionsOf(w, id) && ReceiptsOf(w, id) && (id, lease) in w.db.completions
    ensures id in w.db.jobs && lease in w.tickets
    ensures w.tickets[lease].rev == w.db.jobs[id].rev || RevPrefix(id, w.tickets[lease].rev) in w.condemned
  {
    var rev := w.tickets[lease].rev;
    assert (id, rev) in w.db.attempts && w.db.attempts[(id, rev)].lease == lease;
    assert RevisionAccounted(w, id, rev);
  }

  /** A revision the pointer has just reached had no receipt before. */
  lemma NewPointerNewReceipt(w: World, v: World, id: Id, late: set<Lease>)
    requires Moves(w, v, late) && RevisionsOf(w, id) && RevisionsOf(v, id) && ReceiptsOf(w, id) && CondemnedOf(v, id)
    requires id in w.db.jobs && id in v.db.jobs && v.db.jobs[id].rev > 0 && w.db.jobs[id].rev != v.db.jobs[id].rev
    ensures var rev := v.db.jobs[id].rev;
      && (id, rev) in v.db.attempts
      && (id, v.db.attempts[(id, rev)].lease) in v.db.completions && (id, v.db.attempts[(id, rev)].lease) !in w.db.completions
  {
    var rev := v.db.jobs[id].rev;
    var lease := v.db.attempts[(id, rev)].lease;
    assert RevisionAccounted(v, id, rev);
    if (id, lease) in w.db.completions {
      ReceiptMeansSettled(w, id, lease);
      MovedTicket(w, v, lease, late);
      assert false;
    }
  }

  lemma OpeningMovesNoPointer(db: Db, id: Id, lease: Lease, result: CompleteRequest, now: int, other: Id)
    requires id in db.jobs && IsClaimed(db.jobs[id]) ==> RowInv(db.jobs[id]) && StagingHere(db, id)
    ensures var opening := CompleteOpen(db, id, lease, result, now);
      opening.Answered? && other in db.jobs && other in opening.call.db.jobs ==>
        opening.call.db.jobs[other].rev == db.jobs[other].rev
  {
    if result.Finished? {
      ResultAsStated(db, id, lease, result, now);
    } else {
      RefusalAsStated(db, id, lease, result, now);
    }
    hide CompleteOpen; hide RowInv; hide ValidSteps; hide Holds; hide IsRunnerFileName; hide AsReported;
    hide JustQueued; hide Taskless; hide WritesOff;
  }

  lemma AskStepIs(w: World, req: string, id: Id, lease: Lease, result: CompleteRequest, now: int)
    ensures var opening := CompleteOpen(w.db, id, lease, result, now);
      CompleteAskStep(w, req, id, lease, result, now).db == if opening.Answered? then opening.call.db else w.db
  {
    hide CompleteOpen;
  }

  /** What a claim's row and revision look like, wherever the invariant holds. */
  lemma ClaimsFit(w: World, id: Id)
    requires Inv(w)
    ensures id in w.db.jobs ==> RowInv(w.db.jobs[id])
    ensures id in w.db.jobs && IsClaimed(w.db.jobs[id]) ==> StagingHere(w.db, id)
  {
    SliceOf(w, id);
    hide Inv;
    assert RowOf(w, id) && RevisionsOf(w, id);
    hide Slice; hide RowInv; hide RevisionsOf;
    if id in w.db.jobs && IsClaimed(w.db.jobs[id]) {
      ClaimIsStaging(w, id);
    }
  }

  lemma AskMovesNoPointer(w: World, e: Event, id: Id)
    requires Inv(w) && Enabled(w, e) && e.CompleteAsk? && id in w.db.jobs && id in Next(w, e).db.jobs
    ensures Next(w, e).db.jobs[id].rev == w.db.jobs[id].rev
  {
    hide *;
    AskNext(w, e);
    AskStepIs(w, e.req, e.id, e.lease, e.result, e.now);
    ClaimsFit(w, e.id);
    OpeningMovesNoPointer(w.db, e.id, e.lease, e.result, e.now, id);
  }

  lemma CommittedIsShown(before: Db, v: World, c: Completing, id: Id)
    requires c.result.Finished? && Committed(before, v.db, c)
    requires id in before.jobs && id in v.db.jobs && before.jobs[id].rev != v.db.jobs[id].rev
    ensures AsItsReceipt(v, id)
  {
    hide KeepsNewer; hide AsReported; hide JustQueued; hide Taskless;
    assert id == c.id && v.db.jobs[id].rev == c.rev;
  }

  lemma CommittedShows(w: World, req: string, now: int, id: Id)
    requires Inv(w) && Enabled(w, CompleteCommits(req, now))
    requires var v := Next(w, CompleteCommits(req, now));
      id in w.db.jobs && id in v.db.jobs && w.db.jobs[id].rev != v.db.jobs[id].rev
    ensures AsItsReceipt(Next(w, CompleteCommits(req, now)), id)
  {
    hide *;
    CommitEnabled(w, req, now);
    WaitingFits(w, req);
    CommitAsStated(w, req, now);
    CommittedIsShown(w.db, Next(w, CompleteCommits(req, now)), w.completing[req], id);
  }

  lemma ShownStep(w: World, e: Event, id: Id)
    requires Inv(w) && Enabled(w, e) && ReceiptShown(w, id)
    ensures Inv(Next(w, e)) && ReceiptShown(Next(w, e), id)
  {
    hide *;
    NextKeeps(w, e);
    var v := Next(w, e);
    if id in v.db.jobs && v.db.jobs[id].rev > 0 {
      PartsOf(w, id);
      PartsOf(v, id);
      MovedRow(w, v, id, LateBy(w, e));
      if v.db.jobs[id].rev == w.db.jobs[id].rev {
        ShownMeans(w, id);
        SamePointer(w, v, id, LateBy(w, e));
      } else {
        NewPointerNewReceipt(w, v, id, LateBy(w, e));
        var lease := v.db.attempts[(id, v.db.jobs[id].rev)].lease;
        ReceiptsKeepTheResult(w, e, id, lease);
        OnlyCompletions(w, e, id, lease, v.db.completions[(id, lease)]);
        if e.CompleteAsk? {
          AskMovesNoPointer(w, e, id);
        } else {
          CommittedShows(w, e.req, e.now, id);
        }
      }
    }
    ShownMeans(v, id);
  }

  lemma OnlyCompletions(w: World, e: Event, id: Id, lease: Lease, result: CompleteRequest)
    requires Carries(w, e, id, lease, result)
    ensures e.CompleteAsk? || e.CompleteCommits?
  {
  }

  lemma ShownMeans(w: World, id: Id)
    ensures ReceiptShown(w, id) <==> (id in w.db.jobs && w.db.jobs[id].rev > 0 ==> AsItsReceipt(w, id))
  {
  }

  lemma PartsOf(w: World, id: Id)
    requires Inv(w)
    ensures RevisionsOf(w, id) && ReceiptsOf(w, id) && CondemnedOf(w, id)
  {
    SliceOf(w, id);
  }

  lemma {:induction false} ShownOverRuns(w: World, es: seq<Event>, id: Id)
    requires Inv(w) && Runs(w, es) && ReceiptShown(w, id)
    ensures Inv(Run(w, es)) && ReceiptShown(Run(w, es), id)
    decreases |es|
  {
    hide Inv; hide Enabled; hide Next; hide ReceiptShown;
    if es != [] {
      ShownStep(w, es[0], id);
      ShownOverRuns(Next(w, es[0]), es[1..], id);
    }
  }

  /** At every moment of every run, a job with a result shows exactly the files its runner reported for
      the revision the pointer is on, each once and each in the store, and a saved state exactly when
      one was reported. */
  lemma PublishedIsWhatWasReported(es: seq<Event>, id: Id)
    requires Runs(Start, es) && id in Run(Start, es).db.jobs && Run(Start, es).db.jobs[id].rev > 0
    ensures var w := Run(Start, es);
      var j := w.db.jobs[id];
      && (id, j.rev) in w.db.attempts && (id, w.db.attempts[(id, j.rev)].lease) in w.db.completions
      && var r := w.db.completions[(id, w.db.attempts[(id, j.rev)].lease)];
      && r.Finished? && j.hasState == r.hasState
      && (forall name: string :: name in j.files <==> name in r.files || (r.hasState && name == STATE_FILE))
      && (forall a, b | 0 <= a < b < |j.files| :: j.files[a] != j.files[b])
      && (forall name | name in j.files :: FileKey(id, j.rev, name) in w.store)
  {
    StartsKept();
    hide Inv; hide Next; hide Enabled;
    assert ReceiptShown(Start, id);
    ShownOverRuns(Start, es, id);
    PublishedIsWhatWasVerified(es, id);
    hide Runs; hide Run;
    ShownMeans(Run(Start, es), id);
  }

  // ---------------------------------------------------------------- the sweep

  /** In every reachable world claims have their columns and their revisions in order: what the contracts
      of the sweep ask for. */
  lemma ClaimsAreInOrder(es: seq<Event>)
    requires Runs(Start, es)
    ensures ClaimsInOrder(Run(Start, es).db)
  {
    StartsKept();
    hide Inv; hide Next; hide Enabled; hide RowInv;
    RunKeeps(Start, es);
    var w := Run(Start, es);
    hide Run; hide Runs;
    forall id | id in w.db.jobs && IsClaimed(w.db.jobs[id]) ensures RowInv(w.db.jobs[id]) && StagingHere(w.db, id) {
      ClaimsFit(w, id);
    }
  }

  lemma SweptWorld(w: World, id: Id, now: int)
    requires Inv(w) && w.clock <= now && id in w.db.jobs
    ensures Enabled(w, Sweep(id, now)) && Swept(w.db, Next(w, Sweep(id, now)).db, id, now)
  {
    SweepEnabled(w, id, now);
    hide *;
    RunnerNext(w, Sweep(id, now));
    AtIs(w, SweepRow(w.db, id, now).db, now);
    ClaimsFit(w, id);
    SweptEither(w.db, id, now);
  }

  lemma SweepEnabled(w: World, id: Id, now: int)
    requires w.clock <= now
    ensures Enabled(w, Sweep(id, now))
  {
  }

  lemma SweptEither(db: Db, id: Id, now: int)
    requires id in db.jobs && RowInv(db.jobs[id]) && (IsClaimed(db.jobs[id]) ==> StagingHere(db, id))
    ensures Swept(db, SweepRow(db, id, now).db, id, now)
  {
    if IsClaimed(db.jobs[id]) {
      SweptAsStated(db, id, now);
    } else {
      SameJobs(db, id);
    }
    hide RowInv; hide WritesOff; hide OneJob;
  }

  /** In every reachable world, what the sweep makes of any row: a claim past its deadline fails, or its
      re-render is given up; one that only lost its runner waits for its second try, or ends the same
      way after it; every other row, and every other table entry, is as it was. */
  lemma SweepLeaves(es: seq<Event>, id: Id, now: int)
    requires Runs(Start, es) && Run(Start, es).clock <= now && id in Run(Start, es).db.jobs
    ensures var w := Run(Start, es);
      Enabled(w, Sweep(id, now)) && Swept(w.db, Next(w, Sweep(id, now)).db, id, now)
  {
    StartsKept();
    hide Inv; hide Next; hide Enabled; hide Swept;
    RunKeeps(Start, es);
    SweptWorld(Run(Start, es), id, now);
  }
}
