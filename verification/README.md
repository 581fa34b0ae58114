# Verified model of the PDF accessibility service

A Dafny model of the parts of the service whose correctness spans calls: the job board that hands PDFs
to runners and publishes what they return, and six algorithms of the processing pipeline. The proofs
are about the model, which follows the source branch by branch.

## The job board (`worker/src/board.ts` and what surrounds it)

One durable object holds every job, its single task, lease, revision pointer, completion receipts,
artifact attempts, cleanup records and upload reservations. The model has three layers.

- `BoardTables` states every entry point and private helper as a function on the six tables, including
  the point at which a guard raises with earlier writes already made. `Steps`, `Lifecycles`,
  `Credential`, `Contract` and `Keys` are the modules it rests on.
- `JobBoard.Board`, `FileStore.Store` and `Worker` are the same things as objects updated in place, with
  the source's loops. Each method is proved to leave exactly the tables its function describes and to
  raise exactly when the function does. `Sweep`, `CleanFiles`, `Claim`, `Upload` and `PutArtifact` also
  state what they achieve as a whole.
- `World` puts the tables beside the object store, a clock and every request that is between two of its
  await points: the upload request, the two halves of `complete` with one store check per file, the
  check, begin, put and end of an artifact upload, and the cleaning loop. A run is any sequence of its 27
  events. `Invariant` is one inductive invariant over that state, `Preservation.NextKeeps` proves that
  every event keeps it and that a guard raises exactly when an upload request leaves its own order, and
  `BoardTheorems` and `ReviewTheorems` draw the promises from it, over whole runs.

What the calls do is also stated without the functions that compute it: `Outcomes` gives the answers and
the columns each call leaves, for every row that satisfies the row invariant, and `OutcomeTheorems` the
same for commits and sweeps in every reachable world, and what a job shows of its runner's report over
whole runs.

`World.Enabled` lists the assumptions: calls whose times do not run backwards, but for a renewal that was
overtaken and is harmless; job ids and lease tokens that are never reused; a lease that stands for its own
hash; a runner that reports back the overrides version its task was claimed with, as
`backend/app/runner/tasks.py` does; and keep or resolve calls that do not reach a failed job with saved
state. The board checks neither the first nor the last of these. `Boundaries` gives the exact condition of
each (`LateRenewalIsSafeIff`, `OverrideIsSafeIff`) and the harm beyond it
(`AStaleClockPublishesACondemnedRevision`, `OverrideOnAFailedJobLeaksARevision`), and `Witnesses` reaches
both situations from the empty board.

## The pipeline algorithms

- `FormXObjects`: un-sharing Form XObjects, over a heap of streams whose names are rebound while they
  are read. What a page draws is a tree; the rewrite keeps its marks and makes its forms distinct.
- `Kendall`, `XyCut`, `Columns`, `ReadingOrder`: the Fenwick-tree Kendall tau, the recursive XY-cut, slot
  filling, and the vote that may replace Docling's order.
- `HexText`, `CMapLines`, `CMap`, `CMapRanges`: the ToUnicode CMap writer and reader, down to digits,
  surrogate pairs and line splitting, and what a text of character and range blocks means.
- `UnionArea`: the sweep-line union of rectangles and the text-box test.
- `Subsequence`: the longest nondecreasing subsequence and the reading-order rates.
- `DuplicateGlyphs`: the bucketed search for coincident glyphs.
- `Docling`: the remote conversion against an arbitrary script of replies, failures, deadlines and
  cancellation, and the scripts on which it succeeds.

`Counting` and `Sorting` hold what several of these share.

## Model

| member | source | states |
|---|---|---|
| Preservation.NextKeeps | worker/src/board.ts:308-1033 | every event of the board, the store and the requests in flight keeps one invariant and moves jobs only forward, and a guard raises if and only if an upload request reports its input twice or asks for its job first |
| BoardTheorems.GuardsRaiseOnlyOutOfOrder | worker/src/board.ts:186-228 | in any run a task, job, artifact, retention or upload guard raises, or an insert meets its own key, if and only if an upload request leaves its own order |
| BoardTheorems.NoGuardEverRaises | worker/src/user-api.ts:245-259 | while upload requests report their input once and ask for their job after that, no guard raises in any run, so no write is left half done |
| BoardTheorems.PublishedResultsAreStable | worker/src/board.ts:733-775 | while a revision stays published, every file of its manifest stays in the store with the same bytes, over any run |
| BoardTheorems.PublishedIsWhatWasVerified | worker/src/board.ts:739-767 | a published manifest is exactly the set of names `complete` checked, each still holding the bytes the check saw |
| BoardTheorems.CleanupNeverCoversAPublishedFile | worker/src/board.ts:775-775 | no cleanup record and no deletion under way covers a file of the published revision |
| BoardTheorems.EveryUploadHasOneOwner | worker/src/board.ts:826-853 | a reserved id is a reservation, a job or cleanup's, never two of them, and a job keeps the input its person uploaded out of reach of cleanup |
| BoardTheorems.RetiredCleanupHasNoWriter | worker/src/board.ts:862-868 | a cleanup record is retired only when no registered upload or artifact write can still land under it |
| BoardTheorems.ClaimedRevisionIsFresh | worker/src/board.ts:611-616 | a claim's revision is above every revision the job used, and no attempt, ticket, write or deletion names it |
| BoardTheorems.EveryRevisionIsAccountedFor | worker/src/board.ts:546-554 | each revision ever handed out is the live claim's, the published one, or handed to cleanup |
| BoardTheorems.JobsOnlyMoveForward | worker/src/board.ts:755-765 | revision, synced version and overrides version never decrease over a run, and the manifest changes only with the revision |
| BoardTheorems.GoneForGood | worker/src/board.ts:455-464 | a deleted job's id is never a job or a reservation again |
| BoardTheorems.DeadLeasesStayDead | worker/src/board.ts:645-650 | a lease once expired, requeued or ended is never held again, for any job, in any run without an overtaken renewal of it |
| BoardTheorems.OverLeasesStayOver | worker/src/board.ts:645-650 | a lease that no row carries, or whose deadline passed, or whose revision went to cleanup, is never held again, overtaken renewals included |
| BoardTheorems.DeadLeasesHaveNoEffect | worker/src/board.ts:741-748 | a call made with a dead lease, even a `complete` already waiting for the store, changes no job, receipt or revision, in any run without an overtaken renewal of it |
| BoardTheorems.OverLeasesPublishNothing | worker/src/board.ts:677-748 | without that proviso, a lease that is over gets no receipt, moves no revision and ends no task |
| BoardTheorems.UnheldCallsDoNothing | worker/src/board.ts:653-748 | every runner call with a lease that is not held leaves jobs, receipts and revisions as they were |
| BoardTheorems.RepeatsAreAcknowledged | worker/src/board.ts:705-711 | once a result was committed, then in every later state of its job a completion with that result is accepted again, any other valid one is a conflict, and the tables stay as they are |
| BoardTheorems.WaitingRepeatsAreAcknowledged | worker/src/board.ts:740-746 | the same for a completion that was waiting for the store when another committed, after the answer that files are missing |
| BoardTheorems.ReceiptsKeepTheResult | worker/src/board.ts:877-879 | only a completion gives a receipt, for the job and lease it names and with the result it carried |
| BoardTheorems.ReceiptsStay | worker/src/board.ts:459-462 | a receipt lasts unchanged over any run that keeps its job |
| BoardTheorems.EachLeaseCommitsAtMostOnce | worker/src/board.ts:741-769 | over any run a lease commits at most one result |
| ReviewTheorems.NoDecisionIsLost | worker/src/board.ts:257-261 | a keep or resolve is, in every later state of its job, stored as newer than the views or included in a published revision's claim snapshot |
| ReviewTheorems.IdleJobsAreSynced | worker/src/board.ts:572-579 | in every reachable state a finished job at rest with saved state has nothing unsynced, unless its last re-render was given up with nothing queued since, and then its notice says so |
| ReviewTheorems.StepStaysSynced | worker/src/board.ts:1013-1022 | no step leaves a resting job with unrendered decisions, but for the one that gives up its re-render past the deadline or after the last try |
| ReviewTheorems.StatusAndTaskAgree | worker/src/board.ts:488-580 | which statuses go with which tasks, in both directions; attempts stay below 2 waiting and within 1 to 2 claimed; the token is stored exactly while the job is active |
| ReviewTheorems.RefusalRestoresRollback | worker/src/board.ts:715-732 | a refused review sets exactly the status and steps kept to return to, and leaves the published revision and decisions alone |
| ReviewTheorems.RefusalRollsBack | worker/src/board.ts:506-529 | over a run from an accepted review to its refusal, the job ends with the status and steps it had when the review was asked for |
| ReviewTheorems.RelayNeverRefusesAHeldLease | worker/src/board.ts:669-675 | a held process or review lease always gets the stored token: the credential outlasts the deadline |
| ReviewTheorems.LimitsHold | worker/src/board.ts:392-444 | in every reachable state at most 3 process tasks per person and 12 in all |
| OutcomeTheorems.PublishedIsWhatWasReported | worker/src/board.ts:733-767 | at every moment of every run a job with a result shows exactly the files its runner reported for the revision under its pointer, and the state's archive exactly when one was reported, each once and each in the store |
| OutcomeTheorems.CommitAsStated | worker/src/board.ts:738-775 | after the store check the answer is yes exactly when every reported file was seen and the lease is still held, or the same result is on file; then the tables show the result: error, state, files, newer decisions, and status and steps unless a review waits, the receipt, the published revision and the old one due in five minutes |
| OutcomeTheorems.SweepLeaves | worker/src/board.ts:972-983 | in every reachable world, what the sweep makes of any row by its columns, and that it touches nothing else |
| OutcomeTheorems.ClaimsAreInOrder | worker/src/board.ts:617-629 | in every reachable world each claim has its columns in order and its revision staging |
| Outcomes.SweptAsStated | worker/src/board.ts:972-1022 | a claim past its deadline fails with the deadline message; one that lost its runner waits for its second try with its action, token and prior result, or fails as interrupted after it; a re-render is retried or given up with a notice; its revision is written off, due for deletion in five minutes |
| Outcomes.FailedAsStated | worker/src/board.ts:917-960 | a failure report does nothing without the lease, retries a re-render, and otherwise fails the job with the reported message, nothing of the task left and no step unsettled |
| Outcomes.ClaimedAsStated | worker/src/board.ts:590-629 | a waiting row is given out exactly when a quarter of an hour of its token is left, with three minutes of lease, one more try, the deadline of its kind and the next revision; otherwise it fails for its sign-in |
| Outcomes.QueueOrder | worker/src/board.ts:587-589 | the row given out first is the oldest review or re-render, and an upload only when there is none |
| Outcomes.ReviewAsStated | worker/src/board.ts:488-529 | the refusals of a review request in order, by columns; an accepted one is processing with what it would return to kept, its token and action stored, queued or waiting behind a claimed re-render |
| Outcomes.OverrideAsStated | worker/src/board.ts:467-485 | one's own job gets the decision at the next version with every other one kept, and a re-render when it is idle with saved state; anyone else's is left alone |
| Outcomes.DeleteAsStated | worker/src/board.ts:455-464 | one's own job goes with its receipts and revisions, its files to cleanup; anyone else's is left alone |
| Outcomes.CreateAsStated | worker/src/board.ts:392-444 | an upload becomes a job, fresh and queued with its person's token, exactly when its reservation lasts, its prefix is not being deleted, an hour of token is left, and fewer than 3 of the person's jobs and 12 in all are at work |
| Outcomes.ReservationsAsStated | worker/src/board.ts:826-853 | a reservation lasts three minutes and registers a write; given up or expired, its prefix goes to cleanup |
| Outcomes.LeaseCallsAsStated | worker/src/board.ts:653-675 | only a held lease is renewed, by three minutes, or gets the stored token, always unless it re-renders |
| Outcomes.ArtifactWritesAsStated | worker/src/board.ts:786-807 | an artifact write begins exactly under a held lease; at its end it is handed to cleanup exactly when it was registered, the lease is lost and no receipt was filed |
| Outcomes.ResultAsStated | worker/src/board.ts:699-738 | the answers to a result in the order they are looked for; one that passes them all waits for the store's word on exactly the files it reports, under the revision of its lease |
| Outcomes.RefusalAsStated | worker/src/board.ts:705-732 | a review may be refused exactly under its lease and with an output to return to; then status, steps and notice are those, the receipt is filed and the revision written off |
| Boundaries.OverrideIsSafeIff | worker/src/board.ts:467-485 | keep and resolve preserve a row's invariant if and only if the job is not failed with saved state |
| Boundaries.OverrideOnAFailedJobLeaksARevision | worker/src/board.ts:481-481 | beyond that condition both tries of the re-render are granted and raise after sealing; the first revision is recovered when its lease lapses, and the second ends neither staging, published nor handed to cleanup |
| Boundaries.EveryTryGetsStuck | worker/src/board.ts:749-754 | a re-render of a failed job is granted, and completing it with any result but a failure raises after the revision was sealed |
| Boundaries.StuckTryLeaksIff | worker/src/board.ts:974-982 | the sweep leaks the sealed revision of such a try if and only if the deadline is past or the last try lapsed, and recovers it if and only if an earlier try lapsed |
| Boundaries.LateRenewalIsSafeIff | worker/src/board.ts:653-658 | a held lease renewed with an earlier time keeps the invariant if and only if its revision was not handed to cleanup or the lease stays lapsed all the same |
| Boundaries.AStaleClockPublishesACondemnedRevision | worker/src/board.ts:741-741 | beyond that condition a commit publishes a revision already due for deletion |
| Witnesses.AFailedJobWithStateIsReached | worker/src/board.ts:917-938 | a run from the empty board ends at a failed job with saved state where the leak can start |
| Witnesses.AnUnsafeLateRenewalIsReached | worker/src/runner-api.ts:29-86 | a run from the empty board ends where an overtaken renewal breaks the condition |
| Witnesses.TheCondemnedRevisionIsPublished | worker/src/runner-api.ts:120-120 | from tables such a run reaches, one overtaken renewal lets a commit publish a revision that is due for deletion |
| Invariant.StartsKept | worker/src/board.ts:311-350 | the empty board satisfies the invariant |
| Frames.FrameSlice | worker/src/board.ts:371-383 | the invariant of one job depends only on that job's rows, files and requests |
| BoardRows.EndTaskIs | worker/src/board.ts:546-580 | ending any running task raises nothing: it clears the task, abandons a staging revision, and starts a waiting review or an owed re-render |
| BoardRows.RequeueIs | worker/src/board.ts:1000-1011 | requeueing a claimed task with a staging revision raises nothing and abandons the revision to cleanup |
| BoardRows.PublishedKeeps | worker/src/board.ts:749-765 | the row a completion publishes, once its task ends, satisfies the row invariant |
| BoardRows.ReviewingKeeps | worker/src/board.ts:502-526 | the row of a job a review was accepted for satisfies the row invariant |
| BoardRows.ClaimNeverFindsAnInconsistentRow | worker/src/board.ts:602-610 | a waiting row that satisfies the row invariant is never retired at claim as inconsistent |
| Preservation.OverrideIs | worker/src/board.ts:467-485 | keep and resolve never raise on a valid row and change that row alone |
| Preservation.PublishIs | worker/src/board.ts:749-775 | on a held claim the stretch from sealing to the receipt raises nothing and leaves exactly the published tables |
| Preservation.CreateAdmits | worker/src/board.ts:403-444 | an admitted job keeps the process-task limits |
| JobBoard.Board.constructor | worker/src/board.ts:311-350 | a new board has empty tables |
| JobBoard.Board.CreateJob | worker/src/board.ts:410-444 | creates the job and releases its reservation exactly as the table function says, re-checking expiry, cleanup and limits |
| JobBoard.Board.ReserveUpload | worker/src/board.ts:826-830 | adds the reservation and its write, after which no cleanup record over the job can be retired |
| JobBoard.Board.MarkUploadStored | worker/src/board.ts:832-838 | marks a receiving reservation stored with its expiry kept, answers when it is gone, and raises exactly when it was marked before |
| JobBoard.Board.AbandonUpload | worker/src/board.ts:840-853 | gives an unadmitted id to cleanup and leaves an admitted job alone |
| JobBoard.Board.DeleteJob | worker/src/board.ts:455-464 | forgets an owned job and hands its prefix to cleanup |
| JobBoard.Board.SetOverride | worker/src/board.ts:467-485 | records the decision at the next version and queues a re-render for an idle job with saved state |
| JobBoard.Board.QueueReview | worker/src/board.ts:488-529 | every refusal in order, then the row processing with its prior result kept, the review queued or waiting behind a claimed re-render |
| JobBoard.Board.EndTask | worker/src/board.ts:546-580 | leaves exactly the tables of the table function, and raises when it does |
| JobBoard.Board.FirstWaiting | worker/src/board.ts:587-589 | finds a waiting row that no other waiting row precedes, or says there is none |
| JobBoard.Board.HighestRevision | worker/src/board.ts:611-614 | the greatest revision among the attempts, the published one and the next one |
| JobBoard.RetireShrinksTheQueue | worker/src/board.ts:596-599 | a retired row leaves the queue and no row joins it |
| JobBoard.Board.Claim | worker/src/board.ts:583-642 | retires rows that cannot be claimed, each first in the queue at its turn, and ends with a grant of a fresh revision or an empty queue |
| JobBoard.Board.CheckLease | worker/src/board.ts:653-666 | answers the held revision and renews only when asked and held |
| JobBoard.Board.Progress | worker/src/board.ts:677-697 | without the lease nothing moves; a re-render's report only renews the lease; any other report is accepted exactly when its step is there and the table allows the move, or it is to be ignored, and then the step named shows it and every other step is as it was |
| JobBoard.Board.CompleteOpen | worker/src/board.ts:699-738 | leaves exactly the table function's tables and answer, or waits; then for exactly the files reported and the state's archive if there is one, each once |
| JobBoard.Board.CompleteCommit | worker/src/board.ts:741-784 | everything after it: re-reads receipt and lease, and publishes only if held |
| JobBoard.Board.Publish | worker/src/board.ts:749-775 | seals, moves the published revision, files the receipt and ends the task in one uninterrupted stretch |
| JobBoard.Board.RefuseReview | worker/src/board.ts:715-732 | restores the prior status and steps, files the receipt and ends the task |
| JobBoard.Board.BeginArtifactUpload | worker/src/board.ts:786-795 | answers only for a held lease, and then the staging prefix has an outstanding write |
| JobBoard.Board.EndArtifactUpload | worker/src/board.ts:797-808 | releases the write and hands its prefix to cleanup if the lease died without a receipt |
| JobBoard.Board.Fail | worker/src/board.ts:917-924 | fails a held task, or retries a re-render |
| JobBoard.Board.FailRow | worker/src/board.ts:926-938 | marks the job failed, drops a waiting review and ends the task |
| JobBoard.Board.Requeue | worker/src/board.ts:1000-1011 | puts a claimed task back in the queue and abandons its revision |
| JobBoard.SweepRowSettles | worker/src/board.ts:973-983 | one row of the sweep touches that row alone; its claim, when overdue, fails, is given up or waits again by its deadline, tries and kind, and its revision is written off |
| JobBoard.Board.SweepClaims | worker/src/board.ts:973-983 | with its claims in order, as every reachable table has them, it never raises, and states every row, revision and deletion it leaves: second tries, failures with their messages, re-renders given up, and the rest as it was |
| JobBoard.Board.SweepUploads | worker/src/board.ts:984-990 | exactly the expired reservations are dropped, each to cleanup |
| JobBoard.Board.SweepJobs | worker/src/board.ts:991-996 | exactly the jobs past retention are forgotten with their receipts and attempts, each to cleanup |
| JobBoard.Board.Sweep | worker/src/board.ts:972-996 | every row left is what the sweep makes of the old one, column by column; no claim is overdue, no reservation has expired, and only jobs past retention are gone, each to cleanup |
| JobBoard.Board.CleanEntry | worker/src/board.ts:857-873 | one record, not interleaved: its prefix is emptied as far as the deletion gets, a failed deletion is marked, and it goes unless the deletion failed or a registered write is outstanding |
| JobBoard.Board.CleanFiles | worker/src/board.ts:855-874 | not interleaved: every due prefix is emptied but for what a failed deletion did not reach, nothing else is deleted, and exactly the due records whose deletion worked and without outstanding writes go |
| FileStore.Store.PutIfAbsentAt | worker/src/runner-api.ts:115-118 | the first PUT of a key wins: a stored file keeps its bytes |
| FileStore.Store.DeleteFiles | worker/src/board.ts:1024-1031 | the paged loop ends with nothing under the prefix and everything else untouched |
| Worker.PutArtifact | worker/src/runner-api.ts:88-122 | not interleaved: checks the lease, registers, puts only where nothing is stored and releases, also when the PUT fails with or without landing; a write that outlived its lease is handed to cleanup |
| Worker.Upload | worker/src/user-api.ts:197-269 | not interleaved: the reply is 201 exactly when the id became a job; any other reply leaves nothing registered and what landed in the store with cleanup, a broken transfer included |
| Worker.CreateOrAbandon | worker/src/user-api.ts:245-268 | not interleaved: a stored input becomes a job within the limits or is given up |
| Keys.CoversIsTextPrefix | worker/src/board.ts:1027-1028 | deleting by text prefix touches exactly the keys of that job or revision: `r1/` never reaches `r10/` |
| Keys.ContainsIsTextPrefix | worker/src/board.ts:863-863 | the text comparison against registered writes decides the same containment |
| Keys.KeyTextInjective | worker/src/runner-api.ts:115-115 | distinct keys have distinct texts |
| Steps.ProgressIsMonotone | worker/src/steps.ts:33-48 | progress changes at most one step, as its table allows, and never unsettles or renames one |
| Steps.ProgressTellsTheReport | worker/src/steps.ts:33-48 | a report is accepted exactly when it is ignored or names a step its status may follow; the first step of that name then has that status, and start, end, error and result as its case demands, every other step unchanged |
| Steps.ValidStepsMeans | worker/src/steps.ts:17-25 | reported steps pass exactly when there are seven, every pipeline step is among them and every status is known |
| Steps.PipelineIsSeven | worker/src/board.ts:230-239 | a new job's steps are the seven pipeline steps |
| Steps.ResetAndFailKeepThePipeline | worker/src/steps.ts:27-31 | both keep the pipeline whole; a reset leaves only the names, sparing for a review the steps not run again; failing ends the unsettled steps alone, with the reason and the time |
| FormXObjects.Pdf.UniqueFormInstances | backend/app/pipeline/form_xobjects.py:17-79 | every page draws the marks it drew, every drawn form is a new stream with exactly one invocation in the document, and nothing changes when no form is drawn |
| FormXObjects.Pdf.Visit | backend/app/pipeline/form_xobjects.py:28-69 | one owner: same marks, forms all new and distinct, everything older untouched; ends by nesting height |
| FormXObjects.Pdf.Instance | backend/app/pipeline/form_xobjects.py:47-51 | a copy of a form carries its own resources and draws the same marks |
| FormXObjects.RebindKeepsMarks | backend/app/pipeline/form_xobjects.py:60-61 | binding a name to such a copy changes no mark, not even in forms that inherit the resources |
| FormXObjects.FreshName | backend/app/pipeline/form_xobjects.py:53-56 | finds the first tagged name not bound yet, and ends |
| FormXObjects.DrawsOneThing | backend/app/pipeline/form_xobjects.py:1-7 | a content stream has at most one expansion |
| FormXObjects.DistinctMeansOneInvocation | backend/app/pipeline/form_xobjects.py:1-7 | in a distinct expansion each form is invoked exactly once |
| Kendall.KendallTau | backend/app/pipeline/reading_order.py:95-113 | the Fenwick loop computes tau by its definition over the set of discordant pairs |
| Kendall.NextCover | backend/app/pipeline/reading_order.py:110-112 | adding the lowest set bit leads to the next tree slot responsible for a rank, skipping none |
| Kendall.LowBitIsGreatestPower | backend/app/pipeline/reading_order.py:102-112 | the lowest set bit is worth the greatest power of two that divides the position |
| Kendall.DiscordantCount | backend/app/pipeline/reading_order.py:97-109 | the inversions of the ranks are the discordant pairs, each once |
| Kendall.TauInRange | backend/app/pipeline/reading_order.py:113-113 | tau is between -1 and 1, and 1 exactly when the shared elements have the same order |
| Kendall.TauIsSymmetric | backend/app/pipeline/reading_order.py:95-113 | tau does not depend on which order comes first |
| XyCut.FindGaps | backend/app/pipeline/reading_order.py:19-27 | the gap loop computes the gaps its specification lists |
| XyCut.GapSplits | backend/app/pipeline/reading_order.py:19-27 | every gap leaves each box wholly on one side, neither side empty |
| XyCut.WidestUsableGutter | backend/app/pipeline/reading_order.py:56-70 | the gutter taken is the widest usable gap of the projection, leftmost of equals, and none is taken only when none is usable |
| XyCut.GutterIsChosen | backend/app/pipeline/reading_order.py:53-70 | the gutter of a region is the widest usable gap between all its boxes, and when there is none the widest usable one between the boxes narrower than seven tenths of it |
| XyCut.UsableMeans | backend/app/pipeline/reading_order.py:59-69 | a gap is usable exactly when it is six points and a fiftieth of the region wide and the boxes on its two sides share a stretch of height |
| XyCut.WidestGap | backend/app/pipeline/reading_order.py:86-86 | the horizontal cut is at the widest gap, the highest of equals |
| XyCut.GutterParts | backend/app/pipeline/reading_order.py:60-83 | left of a gutter, right of it and across it are the whole region, each box once |
| XyCut.PlanFits | backend/app/pipeline/reading_order.py:53-90 | whatever cut is chosen, its parts hold every box once and each part cut again is smaller |
| XyCut.CutIsPermutation | backend/app/pipeline/reading_order.py:47-90 | the recursion loses and repeats nothing, bands included |
| XyCut.CapIsSpare | backend/app/pipeline/reading_order.py:51-52 | the depth cap changes nothing on a page with at most one box more than levels |
| XyCut.HigherBoxesComeFirst | backend/app/pipeline/reading_order.py:72-82 | in a banded region a box is read before a spanning box if and only if its centre is above that one's or an earlier one's |
| Columns.OneColumnReadsDown | backend/app/pipeline/reading_order.py:84-90 | a single column is read from top to bottom |
| Columns.TwoColumnsReadLeftThenRight | backend/app/pipeline/reading_order.py:56-83 | two columns far enough apart are read left column first, each downwards, however their boxes were mixed |
| Columns.HeadingThenColumns | backend/app/pipeline/reading_order.py:53-83 | a heading wide enough to be masked over two columns it would otherwise join is read first, then the left column, then the right one, each downwards |
| ReadingOrder.FillSlotsFacts | backend/app/pipeline/reading_order.py:12-16 | a permutation in which the others keep their slots and the movable ones stand in the new order |
| ReadingOrder.XyCutOrderIsPermutation | backend/app/pipeline/reading_order.py:30-92 | every element once, boxes without valid geometry in their slots, the rest in the order of the cuts |
| ReadingOrder.ChosenOrderIsSafe | backend/app/pipeline/reading_order.py:116-165 | a permutation, different from Docling's exactly when it says drawing, and then different over the evidence as well |
| ReadingOrder.DrawingIsChosenIff | backend/app/pipeline/reading_order.py:116-165 | the drawing order replaces Docling's exactly on two clear votes, over the page and over at least two elements of evidence: the same order up to five elements, else at most a twentieth of the pairs between drawing and layout and at least a tenth between either and Docling's |
| HexText.HexRoundTrip | backend/scripts/corpus_benchmark.py:487-498 | a valid text written as UTF-16BE in hexadecimal is decoded to itself, surrogate pairs included |
| HexText.PaddedHexValue | backend/scripts/corpus_benchmark.py:612-612 | padding never changes the code read back |
| CMapLines.SplitOfJoin | backend/scripts/corpus_benchmark.py:515-515 | lines joined by newlines are split into the same lines |
| CMapLines.FindTwo | backend/scripts/corpus_benchmark.py:81-81 | a line with two bracketed groups yields both |
| CMap.ParseToUnicodeMap | backend/scripts/corpus_benchmark.py:501-582 | the line loop with its mode computes the parsed mapping, whose meaning is what CMapRanges.ReadAsWritten and CMap.RoundTrip say |
| CMapRanges.ReadAsWritten | backend/scripts/corpus_benchmark.py:521-582 | any text of bfchar blocks, bfrange blocks with seeds or lists, and other lines is read as written: each code has the text the last line about it gives, and nothing else has one |
| CMap.ReadRange | backend/scripts/corpus_benchmark.py:545-580 | the two loops over a range line compute what the range says |
| CMap.RangeMeans | backend/scripts/corpus_benchmark.py:574-580 | a range maps each code to the code point as far from the seed as the code is from the start, leaving out invalid ones |
| CMap.ListMeans | backend/scripts/corpus_benchmark.py:545-559 | a range with a list maps its codes to the list's decodable texts in order |
| CMap.RenderToUnicodeCMap | backend/scripts/corpus_benchmark.py:585-623 | the writer's loops, a hundred entries to a block, produce the specified lines |
| CMap.RoundTrip | backend/scripts/corpus_benchmark.py:501-623 | reading a rendered CMap gives back exactly the entries its width can hold with valid texts |
| CMap.WrittenToFormat | backend/scripts/corpus_benchmark.py:585-615 | every code written has the digits of the declared code space and lies in it, and the entries come in blocks of a hundred at most, each saying how many |
| CMap.ChosenWidthDropsNothing | backend/scripts/corpus_benchmark.py:788-790 | for any map, the caller's width drops exactly the codes outside four bytes and the texts that are not valid |
| CMap.RewritingIsStable | backend/scripts/corpus_benchmark.py:780-791 | whatever was read can be written and read again unchanged while its codes fit in four bytes |
| UnionArea.FindUnionArea | backend/app/pipeline/tagger_figure_text.py:12-26 | the sweep returns the number of unit cells some box covers |
| UnionArea.StripHeight | backend/app/pipeline/tagger_figure_text.py:19-24 | the inner loop returns the length the strip's intervals cover |
| UnionArea.OrderAndCopiesDoNotMatter | backend/app/pipeline/tagger_figure_text.py:13-13 | the area depends only on the set of boxes |
| UnionArea.UnionIsAtMostTheSum | backend/app/pipeline/tagger_figure_text.py:13-13 | the union is at most the sum of the areas |
| UnionArea.SumIsOnlyAPrefilter | backend/app/pipeline/tagger_figure_text.py:58-60 | testing the sum first changes no answer |
| UnionArea.IsTextBox | backend/app/pipeline/tagger_figure_text.py:46-60 | a figure is a text box exactly when glyphs cover at least half of its cells |
| UnionArea.AreaCountsCells | backend/app/pipeline/tagger_geometry.py:321-325 | a box's area is its number of cells, none for an ill-formed box |
| UnionArea.ClipIsIntersection | backend/app/pipeline/tagger_geometry.py:341-354 | clipping keeps exactly the cells of both boxes |
| Subsequence.LongestNondecreasingSubsequenceLen | backend/app/pipeline/fidelity.py:774-782 | some nondecreasing subsequence has the returned length and none is longer |
| Subsequence.BisectRight | backend/app/pipeline/fidelity.py:777-777 | everything before the index is at most the value and everything from it on is above |
| Subsequence.AllPickedIffOrdered | backend/app/pipeline/fidelity.py:826-827 | the longest takes everything exactly when the values never fall |
| Subsequence.ReadingOrderMetrics | backend/app/pipeline/fidelity.py:808-836 | the hit rate is the share of the fragments found and the order rate the share of those in the longest ordered run, 1 exactly when the hits are in order, and dense wins exactly when it has more hits or as many in better order |
| DuplicateGlyphs.FindDuplicates | backend/app/pipeline/pdfium_text.py:142-174 | the bucketed scan marks exactly the unmarked glyphs with a marked coincident copy |
| DuplicateGlyphs.NineCoverTheNeighbours | backend/app/pipeline/pdfium_text.py:159-161 | the nine buckets hold exactly the earlier glyphs of that character in neighbouring rows and columns |
| DuplicateGlyphs.BetweenTheTwoLimits | backend/app/pipeline/pdfium_text.py:142-148 | no marked glyph is removed; copies strictly under half a point always are, copies beyond it never |
| DuplicateGlyphs.CoincideIff | backend/app/pipeline/pdfium_text.py:158-166 | within half a point two copies come together if and only if no corner coordinate splits on a rounding tie |
| DuplicateGlyphs.ATieCanHideACopy | backend/app/pipeline/pdfium_text.py:158-158 | left edges at 0.25 and 0.75: a copy within the limit that is not found |
| DuplicateGlyphs.ScanOrderDoesNotMatter | backend/app/pipeline/pdfium_text.py:153-171 | reading the same glyphs in another order removes the same ones |
| Docling.DoclingConversion.Transition | backend/app/pipeline/docling_io.py:159-166 | raises exactly on a forbidden target or a spent budget, changing nothing, and otherwise counts submissions |
| Docling.DoclingConversion.Submit | backend/app/pipeline/docling_io.py:168-201 | goes where the script leads: ends polling with a task id, unknown with the budget spent, or with an error from a submitting phase; no transition is illegal |
| Docling.DoclingConversion.Run | backend/app/pipeline/docling_io.py:203-252 | the outcome is what the script leads to, one event at a time: a document exactly on the scripts that submit, poll and fetch one, and every failure reports the event, or the deadline, that ended it; bounded POSTs, no illegal transition, and a terminal phase or a spent budget at the end |
| Docling.Get | backend/app/pipeline/docling_io.py:139-149 | a GET sends at most three requests and gives a retryable result back only after three, and its answer leads on as the script does |
| Docling.SucceedsIff | backend/app/pipeline/docling_io.py:168-238 | following the script ends with a document exactly when some POST within the budget is taken after only doubtful ones, polls say pending or started until one says success, and the result is delivered, each GET within three requests and every sleep slept |
| Docling.FailureHasItsEvent | backend/app/pipeline/docling_io.py:168-252 | every failure is reported by one event at the stage it found, or by the deadline after the last event |

## Left out

- Assumed of the surroundings: what `World.Enabled` lists; an artifact or input PUT takes effect at one moment between its begin and its end, or not at all; upload and artifact write ids are distinct.
- Job rows outside the status and task vocabulary, the schema upgrade of the constructor (worker/src/board.ts:351-361) and rows without an attempt record (worker/src/board.ts:812-813): the model starts from an empty board.
- `checkLease`'s own guard (worker/src/board.ts:657): it cannot raise on a row whose task has a kind, which every claimed row has.
- `job_json`, file names and sizes, logging, outcome events, alarms and `keepSweeping`: they do not feed back into the protocol.
- JobBoard.Board.CleanFiles: runs with nothing interleaved; `World` has the loop in separate steps that may race. That a prefix is empty once its record goes is not claimed across interleavings, because listing and the check for outstanding writes are separate steps.
- Worker.Upload: one request with nothing interleaved and its reply delivered; lost replies, races and expiries are the separate events of `World`. Content length, file name and `%PDF-` checks are not modelled, and a reservation always succeeds.
- Worker.PutArtifact: one request with nothing interleaved; `World` has its four steps apart. Content length and body checks are not modelled.
- JobBoard.Board.BeginArtifactUpload: a held row without a next revision makes the source register a nonsense prefix; the model raises there instead. A claimed row always has one.
- Boundaries.LateRenewalIsSafeIff: only the calls that renew a lease may be overtaken in `World`; of the other calls it is assumed that the board sees their times in order.
- The private helpers of the board (`queueTask`, `requestCleanup`, `artifactTransition`, `retrySync`, `stopSync` and the like) have methods whose contracts name their table functions and no more; what they achieve is stated by the callers' rows.
- The object store's page order and cursors: a page is any nonempty part of what is left.
- Views (worker/src/views.ts): the overlay lookup is a per-item substitution; the theorems stop at the stored overlay.
- FormXObjects.Pdf.UniqueFormInstances: every drawn name resolves and no form is drawn inside itself. An unresolved name can come to resolve when a tagged name is added, and the ancestor test on cyclic input compares the object found, which may be a copy. Content streams are instruction lists; parsing, encoding and saving are not modelled.
- XyCut.CutIsPermutation: real coordinates; the float rounding of thresholds and middles is not modelled.
- Kendall.KendallTau: exact rationals, and orders without repeats, as the source's own description says.
- ReadingOrder.ChosenOrderIsSafe: the diagnostic record beside the order is not modelled.
- CMap.ParseToUnicodeMap: a carriage return with a line feed counts as two line breaks, with an empty line between that is skipped; unreadable streams give the empty map in the source and have no counterpart here.
- UnionArea.FindUnionArea: integer coordinates.
- Subsequence.ReadingOrderMetrics: takes the positions found; searching text and rounding the rates are not modelled, and there is at most one position per fragment.
- DuplicateGlyphs.FindDuplicates: real coordinates, and glyphs as a list; reading them from pdfium is not modelled.
- Docling.DoclingConversion.Run: deadlines and cancellation arrive at awaits; response bodies are reduced to what each step looks for. The local conversion machine is the same shape and is left out, as is the page-attempt machine of `ocr_vlm_plugin.py`.
- Routing, sign-in, JSON schemas, headers, the front end, the threshold checks of `fidelity.py` and the corpus scripts other than the CMap functions.
