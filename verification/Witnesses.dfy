/** Runs from the empty board into the two situations of the Boundaries module: a failed job with saved
    state, and a lapsed lease whose revision went to cleanup while an earlier call is still under way. */
module Witnesses {
  import opened Wrappers
  import opened Contract
  import opened Steps
  import opened Lifecycles
  import opened Credential
  import opened Keys
  import opened BoardTables
  import opened BoardRows
  import opened World
  import opened Invariant
  import opened Preservation
  import opened Shapes
  import opened BoardTheorems
  import opened Boundaries

  ghost predicate Reachable(w: World) {
    exists es: seq<Event> :: Runs(Start, es) && Run(Start, es) == w
  }

  lemma {:induction false} RunExtends(w: World, es: seq<Event>, e: Event)
    requires Runs(w, es) && Enabled(Run(w, es), e)
    ensures Runs(w, es + [e]) && Run(w, es + [e]) == Next(Run(w, es), e)
    decreases |es|
  {
    hide Enabled; hide Next;
    if es == [] {
      assert [e][1..] == [];
      assert es + [e] == [e];
    } else {
      assert (es + [e])[1..] == es[1..] + [e];
      RunExtends(Next(w, es[0]), es[1..], e);
    }
  }

  lemma Reaches(w: World, e: Event)
    requires Reachable(w) && Enabled(w, e)
    ensures Reachable(Next(w, e))
  {
    hide Enabled; hide Next; hide Runs; hide Run;
    var es: seq<Event> :| Runs(Start, es) && Run(Start, es) == w;
    RunExtends(Start, es, e);
  }

  const JOB: Id := "job"
  const PERSON := "person"
  const TOKEN := "token"
  const SIGNED_IN_UNTIL := 10 * HOUR
  const FIRST: Lease := "first"
  const SECOND: Lease := "second"

  function Uploaded(): Job {
    NewRow(PERSON, TOKEN, SIGNED_IN_UNTIL, 0)
  }

  function FirstClaim(): Job {
    ClaimedRow(Uploaded(), FIRST, 1, 0)
  }

  /** One job, its first claim running, and whatever writes are registered. */
  function ClaimedTables(writes: map<WriteId, Prefix>): Db {
    Db(map[JOB := FirstClaim()], map[], map[(JOB, 1) := Attempt(FIRST, Staging)], map[], map[], writes)
  }

  function FirstTicket(): Ticket {
    Ticket(JOB, 1, 0, Overlay(map[], map[]))
  }

  // ---------------------------------------------------------------- the upload and its first claim

  ghost predicate Quiet(w: World) {
    w.clock == 0 && w.completing == map[] && w.putting == map[] && w.condemned == {}
  }

  ghost predicate Receives(w: World) {
    && Quiet(w) && w.tickets == map[] && w.inputs == map[] && w.transfers == {JOB} && w.marked == {}
    && w.db == Db(map[], map[], map[], map[], map[JOB := Upload(LEASE_MS, Receiving)], map[OfUpload(JOB) := JobPrefix(JOB)])
  }

  lemma Reserves()
    ensures Enabled(Start, Reserve(JOB, 0)) && Receives(Next(Start, Reserve(JOB, 0)))
  {
  }

  ghost predicate HasInput(w: World, state: UploadState) {
    && Quiet(w) && w.tickets == map[] && JOB in w.inputs
    && w.db == Db(map[], map[], map[], map[], map[JOB := Upload(LEASE_MS, state)], map[OfUpload(JOB) := JobPrefix(JOB)])
  }

  lemma Puts(w: World)
    requires Receives(w)
    ensures Enabled(w, InputPut(JOB, "pdf")) && HasInput(Next(w, InputPut(JOB, "pdf")), Receiving)
  {
  }

  lemma Marks(w: World)
    requires HasInput(w, Receiving)
    ensures Enabled(w, MarkStored(JOB)) && HasInput(Next(w, MarkStored(JOB)), Stored)
  {
  }

  ghost predicate Admitted(w: World) {
    && Quiet(w) && w.tickets == map[]
    && w.db == Db(map[JOB := Uploaded()], map[], map[], map[], map[], map[])
  }

  lemma Creates(w: World)
    requires HasInput(w, Stored)
    ensures var e := Create(JOB, PERSON, TOKEN, SIGNED_IN_UNTIL, 0); Enabled(w, e) && Admitted(Next(w, e))
  {
    hide NewRow;
    assert ActiveOf(w.db, PERSON) == {} && ActiveAll(w.db) == {};
    assert CreateJob(w.db, JOB, PERSON, TOKEN, SIGNED_IN_UNTIL, 0).db == Db(map[JOB := Uploaded()], map[], map[], map[], map[], map[]);
    hide CreateJob;
  }

  ghost predicate Running(w: World) {
    Quiet(w) && w.tickets == map[FIRST := FirstTicket()] && w.db == ClaimedTables(map[])
  }

  /** What makes a claim possible, and what it does. */
  lemma ClaimHappens(w: World, id: Id, lease: Lease, highest: nat)
    requires w.clock == 0 && NextInQueue(w.db, id) && ClaimVerdict(w.db.jobs[id], 0) == Grant
    requires lease !in w.tickets && IsHighest(w.db, id, highest)
    ensures var e := ClaimGrant(id, lease, highest, 0); Enabled(w, e) && Next(w, e) == Granted(w, id, lease, highest, 0)
  {
    ClaimIsEnabled(w, id, lease, highest);
    ClaimGrantNext(w, id, lease, highest, 0);
    hide Next; hide Enabled; hide Granted;
  }

  lemma ClaimIsEnabled(w: World, id: Id, lease: Lease, highest: nat)
    requires w.clock == 0 && NextInQueue(w.db, id) && ClaimVerdict(w.db.jobs[id], 0) == Grant
    requires lease !in w.tickets && IsHighest(w.db, id, highest)
    ensures Enabled(w, ClaimGrant(id, lease, highest, 0))
  {
    hide NextInQueue; hide ClaimVerdict; hide IsHighest;
    NextIsAJob(w.db, id);
  }

  lemma NextIsAJob(db: Db, id: Id)
    requires NextInQueue(db, id)
    ensures id in db.jobs
  {
  }

  lemma OneJobIsNext(db: Db, id: Id)
    requires db.jobs.Keys == {id} && db.jobs[id].taskState == Some(Waiting)
    ensures NextInQueue(db, id)
  {
  }

  lemma HighestIs(db: Db, id: Id, rev: nat)
    requires id in db.jobs && db.jobs[id].rev == rev && db.jobs[id].nextRev == None
    requires forall k | k in db.attempts :: k.1 <= rev
    ensures IsHighest(db, id, rev)
  {
    assert KnownRevision(db, id, rev);
  }

  lemma UploadedRowIs()
    ensures var j := Uploaded();
      && ClaimVerdict(j, 0) == Grant && j.taskState == Some(Waiting) && j.rev == 0 && j.nextRev == None
      && j.overrides == Overlay(map[], map[]) && j.overridesVersion == 0
  {
    hide PendingSteps;
  }

  lemma Claims(w: World)
    requires Admitted(w)
    ensures var e := ClaimGrant(JOB, FIRST, 0, 0); Enabled(w, e) && Running(Next(w, e))
  {
    hide Enabled; hide Next; hide NextInQueue; hide IsHighest; hide PendingSteps;
    UploadedRowIs();
    hide ClaimVerdict; hide ClaimedRow; hide Uploaded;
    OneJobIsNext(w.db, JOB);
    HighestIs(w.db, JOB, 0);
    ClaimHappens(w, JOB, FIRST, 0);
    hide Enabled; hide Next; hide NextInQueue; hide IsHighest;
  }

  lemma FirstClaimIsReached() returns (w: World)
    ensures Reachable(w) && Running(w)
  {
    hide Enabled; hide Next; hide Receives; hide HasInput; hide Admitted; hide Running;
    assert Reachable(Start) by {
      assert Runs(Start, []) && Run(Start, []) == Start;
    }
    hide Reachable;
    Reserves();
    Reaches(Start, Reserve(JOB, 0));
    w := Next(Start, Reserve(JOB, 0));
    Puts(w);
    Reaches(w, InputPut(JOB, "pdf"));
    w := Next(w, InputPut(JOB, "pdf"));
    Marks(w);
    Reaches(w, MarkStored(JOB));
    w := Next(w, MarkStored(JOB));
    Creates(w);
    Reaches(w, Create(JOB, PERSON, TOKEN, SIGNED_IN_UNTIL, 0));
    w := Next(w, Create(JOB, PERSON, TOKEN, SIGNED_IN_UNTIL, 0));
    Claims(w);
    Reaches(w, ClaimGrant(JOB, FIRST, 0, 0));
    w := Next(w, ClaimGrant(JOB, FIRST, 0, 0));
  }

  // ---------------------------------------------------------------- a late renewal

  const WRITE := "write"

  ghost predicate Writing(w: World, begun: bool) {
    && w.clock == 0 && w.completing == map[] && w.condemned == {} && w.tickets == map[FIRST := FirstTicket()]
    && w.db == ClaimedTables(if begun then map[OfArtifact(WRITE) := RevPrefix(JOB, 1)] else map[])
    && w.putting == map[WRITE := Putting(JOB, FIRST, 1, STATE_FILE, "state", begun)]
  }

  function Checks(): Event {
    PutCheck(WRITE, JOB, FIRST, STATE_FILE, "state", 0)
  }

  lemma FirstClaimIsHeld(writes: map<WriteId, Prefix>, now: int)
    requires 0 <= now < LEASE_MS
    ensures Held(ClaimedTables(writes), JOB, FIRST, now)
  {
  }

  lemma ChecksLease(w: World)
    requires Running(w)
    ensures Enabled(w, Checks()) && Writing(Next(w, Checks()), false)
  {
    FirstClaimIsHeld(map[], 0);
    assert RenewLease(w.db, JOB, FIRST, 0) == w.db;
    hide RenewLease;
  }

  lemma BeginsWrite(w: World)
    requires Writing(w, false)
    ensures Enabled(w, PutBegin(WRITE, 0)) && Writing(Next(w, PutBegin(WRITE, 0)), true)
  {
    FirstClaimIsHeld(map[], 0);
    var db := w.db.(writes := w.db.writes[OfArtifact(WRITE) := RevPrefix(JOB, 1)]);
    assert BeginArtifactUpload(w.db, JOB, FIRST, WRITE, 0) == Answer(db, true);
    hide BeginArtifactUpload; hide Held;
  }

  lemma WriteIsReached() returns (w: World)
    ensures Reachable(w) && Writing(w, true)
  {
    w := FirstClaimIsReached();
    hide Enabled; hide Next; hide Running; hide Writing; hide Reachable;
    ChecksLease(w);
    Reaches(w, Checks());
    w := Next(w, Checks());
    BeginsWrite(w);
    Reaches(w, PutBegin(WRITE, 0));
    w := Next(w, PutBegin(WRITE, 0));
  }

  lemma LapsedWrite(w: World)
    requires Writing(w, true)
    ensures Enabled(w, PutEnd(WRITE, LEASE_MS))
    ensures var v := Next(w, PutEnd(WRITE, LEASE_MS));
      && v.db.jobs == w.db.jobs && v.clock == LEASE_MS && RevPrefix(JOB, 1) in v.condemned
  {
    assert !Held(w.db, JOB, FIRST, LEASE_MS);
    hide Held;
  }

  /** A reachable board on which a renewal that took its time one millisecond after the claim would
      bring a lapsed lease back to a revision that is already due for deletion. */
  lemma AnUnsafeLateRenewalIsReached()
    ensures exists w ::
      && Reachable(w) && Inv(w)
      && Held(w.db, JOB, FIRST, 1) && 1 <= w.clock && !LateIsSafe(w, JOB, FIRST, 1)
  {
    var u := WriteIsReached();
    LapsedWrite(u);
    FirstClaimIsHeld(u.db.writes, 1);
    assert NextRevision(u.db.jobs[JOB]) == 1 && u.db.jobs[JOB].deadline.GetOr(0) > LEASE_MS;
    hide Writing; hide Enabled; hide Next; hide Reachable; hide Inv; hide Runs; hide Run; hide NextRevision;
    Reaches(u, PutEnd(WRITE, LEASE_MS));
    var v := Next(u, PutEnd(WRITE, LEASE_MS));
    ReachableKeeps(v);
    assert Held(v.db, JOB, FIRST, 1) && !LateIsSafe(v, JOB, FIRST, 1);
  }

  lemma ReachableKeeps(w: World)
    requires Reachable(w)
    ensures Inv(w)
  {
    StartsKept();
    hide Inv; hide Runs; hide Run;
    var es: seq<Event> :| Runs(Start, es) && Run(Start, es) == w;
    RunKeeps(Start, es);
  }

  function RenderResult(): CompleteRequest {
    Finished(JobResult(Complete, None, PendingSteps()), [], true, 0)
  }

  ghost predicate PublishesCondemned(db: Db) {
    var ended := EndArtifactUpload(db, JOB, FIRST, WRITE, LEASE_MS);
    var revived := RenewLease(ended, JOB, FIRST, 1);
    var call := CompleteCommit(revived, JOB, FIRST, RenderResult(), [STATE_FILE], true, 1, LEASE_MS);
    && call.Answer? && call.reply == Accepted
    && JOB in call.db.jobs && call.db.jobs[JOB].rev == 1 && RevPrefix(JOB, 1) in Due(call.db, LEASE_MS)
  }

  /** And the tables just before that write ends meet every condition under which the commit then
      publishes the condemned revision. */
  lemma TheCondemnedRevisionIsPublished()
    ensures exists w :: Reachable(w) && Writing(w, true) && PublishesCondemned(w.db)
  {
    var w := WriteIsReached();
    var c := Completing(JOB, FIRST, RenderResult(), [STATE_FILE], 1, 1, {}, map[]);
    ReachableKeeps(w);
    SliceOf(w, JOB);
    assert RowOf(w, JOB);
    hide Inv; hide Slice; hide Reachable; hide PendingSteps;
    assert RowInv(w.db.jobs[JOB]);
    hide RowInv;
    AStaleClockPublishesACondemnedRevision(w.db, c, WRITE, 1, LEASE_MS);
    hide EndArtifactUpload; hide RenewLease; hide CompleteCommit; hide Due; hide Writing;
    assert PublishesCondemned(w.db);
  }

  // ---------------------------------------------------------------- a failed job with saved state

  ghost predicate Stored1(w: World) {
    Quiet(w) && w.tickets == map[FIRST := FirstTicket()] && w.db == ClaimedTables(map[])
    && FileKey(JOB, 1, STATE_FILE) in w.store
  }

  lemma StoresFile(w: World)
    requires Writing(w, true)
    ensures Enabled(w, PutStore(WRITE))
    ensures Writing(Next(w, PutStore(WRITE)), true) && FileKey(JOB, 1, STATE_FILE) in Next(w, PutStore(WRITE)).store
  {
  }

  lemma EndsWrite(w: World)
    requires Writing(w, true) && FileKey(JOB, 1, STATE_FILE) in w.store
    ensures Enabled(w, PutEnd(WRITE, 0)) && Stored1(Next(w, PutEnd(WRITE, 0)))
  {
    FirstClaimIsHeld(w.db.writes, 0);
    var db := w.db.(writes := w.db.writes - {OfArtifact(WRITE)});
    assert db == ClaimedTables(map[]);
    assert EndArtifactUpload(w.db, JOB, FIRST, WRITE, 0) == db;
    hide EndArtifactUpload; hide Held;
  }

  const CALL := "call"

  function Waiting1(asked: set<string>, seen: map<string, Bytes>): Completing {
    Completing(JOB, FIRST, RenderResult(), [STATE_FILE], 1, 0, asked, seen)
  }

  ghost predicate Completes(w: World, done: bool) {
    && w.clock == 0 && w.putting == map[] && w.condemned == {} && w.tickets == map[FIRST := FirstTicket()]
    && w.db == ClaimedTables(map[]) && FileKey(JOB, 1, STATE_FILE) in w.store
    && CALL in w.completing && w.completing.Keys == {CALL}
    && var c := w.completing[CALL];
    && c == Waiting1(c.asked, c.seen) && (done ==> STATE_FILE in c.asked && STATE_FILE in c.seen)
  }

  function Asks(): Event {
    CompleteAsk(CALL, JOB, FIRST, RenderResult(), 0)
  }

  lemma ManifestIs()
    ensures Manifest(RenderResult()) == [STATE_FILE] && IsRunnerFileName(STATE_FILE) && ValidSteps(PendingSteps())
  {
    PipelineIsSeven();
    hide ValidSteps; hide PendingSteps;
    assert Dedupe([]) == [];
    var names := RenderResult().files + [STATE_FILE];
    assert names == [STATE_FILE] && names[..|names| - 1] == [];
  }

  lemma CompletionOpens(db: Db)
    requires db == ClaimedTables(map[])
    ensures CompleteOpen(db, JOB, FIRST, RenderResult(), 0) == AwaitStore([STATE_FILE], 1)
  {
    ManifestIs();
    FirstClaimIsHeld(map[], 0);
    hide Manifest; hide ValidSteps; hide PendingSteps; hide IsRunnerFileName; hide Held;
  }

  lemma AskHappens(w: World, result: CompleteRequest, version: nat)
    requires w.clock == 0 && CALL !in w.completing && FIRST in w.tickets && w.tickets[FIRST].version == version
    requires result.overridesVersion == version
    ensures var e := CompleteAsk(CALL, JOB, FIRST, result, 0);
      Enabled(w, e) && Next(w, e) == CompleteAskStep(w, CALL, JOB, FIRST, result, 0)
  {
    AskIsEnabled(w, result);
    AskNext(w, CompleteAsk(CALL, JOB, FIRST, result, 0));
    hide Enabled; hide Next; hide CompleteAskStep;
  }

  lemma AskIsEnabled(w: World, result: CompleteRequest)
    requires w.clock == 0 && CALL !in w.completing && FIRST in w.tickets
    requires result.overridesVersion == w.tickets[FIRST].version
    ensures Enabled(w, CompleteAsk(CALL, JOB, FIRST, result, 0))
  {
  }

  lemma OpensCompletion(w: World)
    requires Stored1(w)
    ensures Enabled(w, Asks()) && Completes(Next(w, Asks()), false)
  {
    CompletionOpens(w.db);
    assert RenderResult().overridesVersion == 0;
    hide CompleteOpen; hide RenderResult; hide ClaimedTables;
    NoCleanupYet();
    AskHappens(w, RenderResult(), 0);
    hide Next; hide Enabled;
  }

  lemma NoCleanupYet()
    ensures ClaimedTables(map[]).cleanup == map[]
  {
  }

  lemma LooksUp(w: World)
    requires Completes(w, false)
    ensures Enabled(w, CompleteHead(CALL, STATE_FILE)) && Completes(Next(w, CompleteHead(CALL, STATE_FILE)), true)
  {
  }

  function Finished1(): Job {
    EndedRow(PublishedRow(FirstClaim(), RenderResult(), [STATE_FILE], 0), 0, true)
  }

  function FinishedTables(): Db {
    Db(map[JOB := Finished1()], map[(JOB, FIRST) := RenderResult()], map[(JOB, 1) := Attempt(FIRST, Published)],
       map[], map[], map[])
  }

  ghost predicate Published1(w: World) {
    Quiet(w) && w.tickets == map[FIRST := FirstTicket()] && w.db == FinishedTables()
  }

  lemma FirstPublication(asked: set<string>, seen: map<string, Bytes>)
    requires RowInv(FirstClaim())
    ensures CompleteCommit(ClaimedTables(map[]), JOB, FIRST, RenderResult(), [STATE_FILE], true, 0, 0)
         == Answer(FinishedTables(), Accepted)
  {
    var db := ClaimedTables(map[]);
    var c := Waiting1(asked, seen);
    FirstClaimIsHeld(map[], 0);
    hide PendingSteps; hide Manifest; hide Held;
    PublishIs(db, c);
    hide RowInv; hide Publish; hide EndedRow; hide PublishedRow;
    assert PublishedDb(db, JOB, Finished1(), c) == FinishedTables() by {
      hide Waiting1; hide FirstClaim; hide Finished1;
      PublishedTables(c);
    }
    hide PublishedDb; hide FinishedTables; hide Finished1; hide FirstClaim;
  }

  lemma PublishedTables(c: Completing)
    requires c.lease == FIRST && c.result == RenderResult() && FirstClaim().nextRev == Some(1) && FirstClaim().rev == 0
    ensures PublishedDb(ClaimedTables(map[]), JOB, Finished1(), c) == FinishedTables()
  {
    hide FirstClaim; hide Finished1; hide RenderResult;
  }

  lemma CommitsResult(w: World)
    requires Completes(w, true) && Inv(w)
    ensures Enabled(w, CompleteCommits(CALL, 0)) && Published1(Next(w, CompleteCommits(CALL, 0)))
  {
    hide Enabled; hide Next; hide Inv; hide RowInv; hide CompleteCommit; hide CommitStep; hide FirstClaim; hide PendingSteps;
    ClaimRowIsKept(w);
    CommitIsEnabled(w);
    var c := w.completing[CALL];
    assert AllSeen(c);
    FirstPublication(c.asked, c.seen);
    CommitStepIs(w, CALL, 0);
    CommitLeaves(w, CALL);
    NoCleanup();
    assert w.completing - {CALL} == map[];
    hide RenderResult; hide FinishedTables; hide FirstTicket; hide AllSeen;
  }

  lemma ClaimRowIsKept(w: World)
    requires Inv(w) && w.db == ClaimedTables(map[])
    ensures RowInv(FirstClaim())
  {
    SliceOf(w, JOB);
    assert RowOf(w, JOB);
    hide Inv; hide Slice; hide RowInv; hide FirstClaim;
  }

  lemma NoCleanup()
    ensures FinishedTables().cleanup == map[]
  {
  }

  lemma CommitIsEnabled(w: World)
    requires Completes(w, true)
    ensures Enabled(w, CompleteCommits(CALL, 0)) && Next(w, CompleteCommits(CALL, 0)) == CommitStep(w, CALL, 0)
  {
    hide CommitStep; hide PendingSteps; hide FirstClaim;
  }

  lemma AtLeaves(w: World, db: Db, now: int)
    ensures var v := At(w, db, now);
      && v.completing == w.completing && v.putting == w.putting && v.tickets == w.tickets && v.clock == now
      && v.condemned == w.condemned + db.cleanup.Keys
  {
  }

  lemma CommitLeaves(w: World, req: string)
    requires req in w.completing && w.completing[req].result.Finished?
    ensures var v := CommitStep(w, req, 0);
      && v.completing == w.completing - {req} && v.putting == w.putting && v.tickets == w.tickets && v.clock == 0
      && v.condemned == w.condemned + v.db.cleanup.Keys
  {
    var c := w.completing[req];
    var db := CompleteCommit(w.db, c.id, c.lease, c.result, c.files, AllSeen(c), c.now, 0).db;
    AtIs(w, db, 0);
    AtLeaves(w, db, 0);
    hide CompleteCommit; hide AllSeen; hide Held; hide Publishes; hide At;
  }

  const CHANGE := ReviewAction(Edit, 0, "")

  /** The finished row, its review asked for, claimed, and failed. */
  function Asked(): Job {
    ReviewRow(Finished1(), CHANGE, TOKEN, SIGNED_IN_UNTIL, 0)
  }

  function SecondClaim(): Job {
    ClaimedRow(Asked(), SECOND, 2, 0)
  }

  function FailedReview(): Job {
    FailedRow(SecondClaim(), "stopped", 0)
  }

  ghost predicate ReviewAsked(w: World) {
    && w.clock == 0 && w.tickets == map[FIRST := FirstTicket()]
    && w.db == FinishedTables().(jobs := map[JOB := Asked()])
  }

  function AsksReview(): Event {
    AskReview(PERSON, JOB, CHANGE, TOKEN, SIGNED_IN_UNTIL, 0)
  }

  lemma FinishedRowIs()
    ensures var j := Finished1();
      && j.owner == PERSON && j.status == Complete && j.hasState && j.taskKind == None && j.taskState == None
      && j.pending == None && j.rev == 1 && j.nextRev == None && j.attempt == 0
  {
  }

  lemma ReviewIsAccepted()
    ensures var db := FinishedTables();
      QueueReview(db, PERSON, JOB, CHANGE, TOKEN, SIGNED_IN_UNTIL, 0)
      == Answer(db.(jobs := map[JOB := Asked()]), Accepted)
  {
    FinishedRowIs();
    var db := FinishedTables();
    var r := Reviewing(Finished1(), TOKEN, SIGNED_IN_UNTIL, 0);
    hide Finished1; hide RenderResult;
    assert PutJob(PutJob(db, JOB, r), JOB, Asked()) == db.(jobs := map[JOB := Asked()]);
  }

  lemma AsksForReview(w: World)
    requires Published1(w)
    ensures Enabled(w, AsksReview()) && ReviewAsked(Next(w, AsksReview()))
  {
    ReviewIsAccepted();
    hide QueueReview; hide FinishedTables; hide Asked; hide FirstTicket; hide PendingSteps;
  }

  ghost predicate ReviewClaimed(w: World) {
    && w.clock == 0
    && w.db == FinishedTables().(
         jobs := map[JOB := SecondClaim()],
         attempts := map[(JOB, 1) := Attempt(FIRST, Published), (JOB, 2) := Attempt(SECOND, Staging)])
  }

  lemma AskedRowIs()
    ensures var j := Asked();
      && ClaimVerdict(j, 0) == Grant && j.taskState == Some(Waiting) && j.rev == 1 && j.nextRev == None
  {
    FinishedRowIs();
    hide Finished1; hide RenderResult;
  }

  lemma ReviewGranted(db: Db)
    requires db == FinishedTables().(jobs := map[JOB := Asked()])
    ensures GrantClaim(db, JOB, SECOND, 1, 0) == FinishedTables().(
              jobs := map[JOB := SecondClaim()],
              attempts := map[(JOB, 1) := Attempt(FIRST, Published), (JOB, 2) := Attempt(SECOND, Staging)])
  {
    hide ClaimedRow; hide Asked; hide Finished1; hide RenderResult;
    assert GrantClaim(db, JOB, SECOND, 1, 0).jobs == map[JOB := SecondClaim()];
    assert GrantClaim(db, JOB, SECOND, 1, 0).attempts
        == map[(JOB, 1) := Attempt(FIRST, Published), (JOB, 2) := Attempt(SECOND, Staging)];
  }

  lemma AskedTables()
    ensures var db := FinishedTables().(jobs := map[JOB := Asked()]);
      && db.jobs.Keys == {JOB} && db.jobs[JOB] == Asked() && forall k | k in db.attempts :: k.1 <= 1
  {
    hide Asked; hide Finished1; hide RenderResult;
  }

  lemma AskedHasNoSecond(w: World)
    requires ReviewAsked(w)
    ensures w.clock == 0 && SECOND !in w.tickets && w.db == FinishedTables().(jobs := map[JOB := Asked()])
  {
    hide FinishedTables; hide Asked; hide FirstTicket;
  }

  lemma GrantedIs(w: World, id: Id, lease: Lease, highest: nat)
    requires id in w.db.jobs
    ensures var v := Granted(w, id, lease, highest, 0); v.clock == 0 && v.db == GrantClaim(w.db, id, lease, highest, 0)
  {
    AtIs(w, GrantClaim(w.db, id, lease, highest, 0), 0);
    hide GrantClaim; hide At;
  }

  lemma ClaimsReview(w: World)
    requires ReviewAsked(w)
    ensures var e := ClaimGrant(JOB, SECOND, 1, 0); Enabled(w, e) && ReviewClaimed(Next(w, e))
  {
    hide Enabled; hide Next; hide NextInQueue; hide IsHighest; hide PendingSteps; hide Granted; hide GrantClaim; hide ClaimVerdict;
    hide Asked; hide SecondClaim; hide FinishedTables; hide ReviewAsked;
    AskedHasNoSecond(w);
    AskedRowIs();
    AskedTables();
    OneJobIsNext(w.db, JOB);
    HighestIs(w.db, JOB, 1);
    ClaimHappens(w, JOB, SECOND, 1);
    GrantedIs(w, JOB, SECOND, 1);
    ReviewGranted(w.db);
  }

  /** Everything the two tries of a re-render need in order to leak the second one's revision. */
  ghost predicate LeakReady(db: Db, third: Lease, fourth: Lease) {
    && Owned(db, PERSON, JOB) && RowInv(db.jobs[JOB]) && FailedWithState(db.jobs[JOB]) && IsHighest(db, JOB, 2)
    && (JOB, third) !in db.completions && (JOB, fourth) !in db.completions
    && RevPrefix(JOB, 3) !in db.cleanup && RevPrefix(JOB, 4) !in db.cleanup
  }

  lemma SecondClaimIs()
    ensures var j := SecondClaim();
      && j.taskState == Some(Claimed) && j.taskKind == Some(Review) && j.lease == Some(SECOND) && j.nextRev == Some(2)
      && j.rev == 1 && j.leaseExpires == Some(LEASE_MS) && j.deadline.GetOr(0) > 0 && j.owner == PERSON && j.hasState
  {
    FinishedRowIs();
    hide Finished1;
  }

  lemma FailedReviewIs()
    ensures var j := FailedReview(); j.owner == PERSON && j.hasState && j.status == Failed && j.rev == 1 && j.nextRev == None
  {
    SecondClaimIs();
    hide SecondClaim;
  }

  function FailedTables(): Db {
    FinishedTables().(
      jobs := map[JOB := FailedReview()],
      attempts := map[(JOB, 1) := Attempt(FIRST, Published), (JOB, 2) := Attempt(SECOND, Abandoned)],
      cleanup := map[RevPrefix(JOB, 2) := Cleanup(DeletionRequested, GRACE_MS)])
  }

  lemma ReviewFails(db: Db)
    requires db == FinishedTables().(
               jobs := map[JOB := SecondClaim()],
               attempts := map[(JOB, 1) := Attempt(FIRST, Published), (JOB, 2) := Attempt(SECOND, Staging)])
    requires RowInv(SecondClaim())
    ensures FailTask(db, JOB, SECOND, "stopped", 0) == Answer(FailedTables(), true)
  {
    SecondClaimIs();
    hide SecondClaim; hide RenderResult; hide Finished1; hide RowInv; hide FailRow; hide FailedRow;
    FailRowIs(db, JOB, "stopped", 0);
    ReviewDropped(db);
    hide WithoutStaging; hide FailedReview; hide FailedTables; hide FinishedTables;
    assert Held(db, JOB, SECOND, 0);
  }

  lemma ReviewDropped(db: Db)
    requires db == FinishedTables().(
               jobs := map[JOB := SecondClaim()],
               attempts := map[(JOB, 1) := Attempt(FIRST, Published), (JOB, 2) := Attempt(SECOND, Staging)])
    requires SecondClaim().nextRev == Some(2)
    ensures PutJob(WithoutStaging(db, JOB, 0), JOB, FailedReview()) == FailedTables()
  {
    hide SecondClaim; hide RenderResult; hide Finished1; hide FailedReview;
  }

  lemma FailsReview(w: World)
    requires ReviewClaimed(w) && Inv(w)
    ensures var e := FailBy(JOB, SECOND, "stopped", 0); Enabled(w, e) && Next(w, e).db == FailedTables()
  {
    SliceOf(w, JOB);
    assert RowOf(w, JOB);
    hide Inv; hide Slice; hide SecondClaim; hide RenderResult; hide Finished1; hide FailedTables;
    assert RowInv(SecondClaim());
    hide RowInv;
    ReviewFails(w.db);
    FailByNext(w, JOB, SECOND, "stopped");
    hide FailTask; hide Enabled; hide Next;
  }

  lemma FailByNext(w: World, id: Id, lease: Lease, error: string)
    requires w.clock == 0
    ensures var e := FailBy(id, lease, error, 0); Enabled(w, e) && Next(w, e).db == FailTask(w.db, id, lease, error, 0).db
  {
    AtIs(w, FailTask(w.db, id, lease, error, 0).db, 0);
    hide FailTask; hide At; hide CreateJob; hide QueueReview; hide SetOverride; hide DeleteJob; hide CompleteAskStep;
    hide CommitStep; hide PutCheckStep; hide PutBeginStep; hide LateIsSafe; hide Progress; hide SweepRow; hide Retire;
  }

  lemma FailedTablesAreReady(third: Lease, fourth: Lease)
    requires RowInv(FailedReview()) && third != FIRST && fourth != FIRST
    ensures LeakReady(FailedTables(), third, fourth)
  {
    FailedReviewIs();
    hide FailedReview; hide RenderResult; hide Finished1; hide RowInv;
    HighestIsTwo(FailedTables());
    hide IsHighest;
  }

  lemma HighestIsTwo(db: Db)
    requires JOB in db.jobs && db.jobs[JOB].rev == 1 && db.jobs[JOB].nextRev == None
    requires db.attempts.Keys == {(JOB, 1), (JOB, 2)}
    ensures IsHighest(db, JOB, 2)
  {
    assert KnownRevision(db, JOB, 2);
  }

  lemma FinishedJobIsReached() returns (w: World)
    ensures Reachable(w) && Published1(w)
  {
    w := WriteIsReached();
    hide Enabled; hide Next; hide Writing; hide Stored1; hide Completes; hide Published1; hide Reachable; hide Inv;
    StoresFile(w);
    Reaches(w, PutStore(WRITE));
    w := Next(w, PutStore(WRITE));
    EndsWrite(w);
    Reaches(w, PutEnd(WRITE, 0));
    w := Next(w, PutEnd(WRITE, 0));
    OpensCompletion(w);
    Reaches(w, Asks());
    w := Next(w, Asks());
    LooksUp(w);
    Reaches(w, CompleteHead(CALL, STATE_FILE));
    w := Next(w, CompleteHead(CALL, STATE_FILE));
    ReachableKeeps(w);
    CommitsResult(w);
    Reaches(w, CompleteCommits(CALL, 0));
    w := Next(w, CompleteCommits(CALL, 0));
  }

  lemma FailedReviewIsReached() returns (w: World)
    ensures Reachable(w) && w.db == FailedTables()
  {
    w := FinishedJobIsReached();
    hide Enabled; hide Next; hide Published1; hide ReviewAsked; hide ReviewClaimed; hide Reachable; hide Inv; hide FailedTables;
    AsksForReview(w);
    Reaches(w, AsksReview());
    w := Next(w, AsksReview());
    ClaimsReview(w);
    Reaches(w, ClaimGrant(JOB, SECOND, 1, 0));
    w := Next(w, ClaimGrant(JOB, SECOND, 1, 0));
    ReachableKeeps(w);
    FailsReview(w);
    Reaches(w, FailBy(JOB, SECOND, "stopped", 0));
    w := Next(w, FailBy(JOB, SECOND, "stopped", 0));
  }

  lemma RowOfFailed(w: World)
    requires Inv(w) && w.db == FailedTables()
    ensures RowInv(FailedReview())
  {
    SliceOf(w, JOB);
    assert RowOf(w, JOB);
    hide Inv; hide Slice; hide RowInv; hide FailedReview;
  }

  /** A run reaches a failed job with saved state: a review of a finished job that then fails. All that
      OverrideOnAFailedJobLeaksARevision asks for holds there. */
  lemma AFailedJobWithStateIsReached()
    ensures exists w :: Reachable(w) && LeakReady(w.db, "third", "fourth")
  {
    var w := FailedReviewIsReached();
    ReachableKeeps(w);
    hide Reachable; hide Inv; hide LeakReady;
    RowOfFailed(w);
    hide RowInv; hide FailedTables;
    FailedTablesAreReady("third", "fourth");
  }
}
