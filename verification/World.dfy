/** The board with everything it runs against: the object store, the requests in flight between its
    await points, a clock, and the history its promises are about. A run is a sequence of events. */
module World {
  import opened Wrappers
  import opened Contract
  import opened Steps
  import opened Lifecycles
  import opened Credential
  import opened Keys
  import opened BoardTables

  type Bytes = string

  /** What a lease was handed: its job, its revision, and the review decisions its task includes. */
  datatype Ticket = Ticket(id: Id, rev: nat, version: nat, overlay: Overlay)

  /** One keep or resolve, with the version it was recorded at. */
  datatype Decision = Decision(id: Id, kind: ItemKind, item: int, version: nat)

  /** A `complete` call waiting for the store: which names it asked about and what it saw. */
  datatype Completing = Completing(
    id: Id, lease: Lease, result: CompleteRequest, files: seq<string>, rev: nat, now: int,
    asked: set<string>, seen: map<string, Bytes>)

  /** An artifact PUT: the revision its lease check named, and whether its write is registered. */
  datatype Putting = Putting(id: Id, lease: Lease, rev: nat, name: string, bytes: Bytes, begun: bool)

  /** A `cleanFiles` loop: the entries it read, and the prefix it is deleting under. */
  datatype Cleaning = Cleaning(todo: seq<(Prefix, RetentionState)>, current: Option<Prefix>)

  datatype World = World(
    db: Db,
    store: map<Key, Bytes>,
    clock: int,
    transfers: set<Id>,                          // uploads whose input PUT has not settled
    completing: map<string, Completing>,
    putting: map<string, Putting>,
    cleaning: map<string, Cleaning>,
    // history
    reserved: set<Id>,
    inputs: map<Id, Bytes>,                      // the bytes each upload stored
    marked: set<Id>,                             // uploads reported as stored
    tickets: map<Lease, Ticket>,
    condemned: set<Prefix>,                      // every prefix ever handed to cleanup
    decisions: set<Decision>,
    rollback: map<Id, Prior>,                    // what a refused review must return to
    verified: map<(Id, nat), map<string, Bytes>>) // what `complete` saw when it published a revision

  const Start := World(EmptyDb, map[], 0, {}, map[], map[], map[], {}, map[], {}, map[], {}, {}, map[], map[])

  datatype Event =
    // the upload request
    | Reserve(id: Id, now: int)
    | InputPut(id: Id, bytes: Bytes)
    | MarkStored(id: Id)
    | Create(id: Id, owner: string, jwt: string, exp: int, now: int)
    | Abandon(id: Id, now: int)
    // the person
    | Delete(owner: string, id: Id, now: int)
    | Override(owner: string, id: Id, kind: ItemKind, item: int, now: int)
    | AskReview(owner: string, id: Id, action: ReviewAction, jwt: string, exp: int, now: int)
    // the runner
    | ClaimRetire(id: Id, now: int)
    | ClaimGrant(id: Id, lease: Lease, highest: nat, now: int)
    | RenewBy(id: Id, lease: Lease, now: int)
    | ProgressBy(id: Id, lease: Lease, event: ProgressEvent, now: int)
    | FailBy(id: Id, lease: Lease, error: string, now: int)
    | CompleteAsk(req: string, id: Id, lease: Lease, result: CompleteRequest, now: int)
    | CompleteHead(req: string, name: string)
    | CompleteCommits(req: string, now: int)
    | PutCheck(token: string, id: Id, lease: Lease, name: string, bytes: Bytes, now: int)
    | PutBegin(token: string, now: int)
    | PutStore(token: string)
    | PutEnd(token: string, now: int)
    // the alarm
    | Sweep(id: Id, now: int)
    | Expire(id: Id, now: int)
    | Retain(id: Id, now: int)
    | CleanStart(loop: string, todo: seq<(Prefix, RetentionState)>, now: int)
    | CleanNext(loop: string)
    | CleanDelete(loop: string, keys: set<Key>)
    | CleanSettle(loop: string, deleted: bool)

  /** The one kind of row a keep or resolve must not reach: see the Boundaries module. */
  predicate FailedWithState(j: Job) {
    j.status == Failed && j.hasState
  }

  predicate Timed(e: Event) {
    !(e.InputPut? || e.MarkStored? || e.CompleteHead? || e.PutStore?
      || e.CleanNext? || e.CleanDelete? || e.CleanSettle?)
  }

  function Time(w: World, e: Event): int {
    if Timed(e) then e.now else w.clock
  }

  function Later(a: int, b: int): int {
    if a <= b then b else a
  }

  /** The calls that renew a lease. Each reads the time before it reaches the board, so a call with a
      later time can get there first. */
  predicate Renews(e: Event) {
    e.RenewBy? || e.ProgressBy? || e.PutCheck?
  }

  /** A renewal with an earlier time than the board has seen must not bring back a lease whose
      revision was handed to cleanup; the Boundaries module shows this condition to be exact. */
  ghost predicate LateIsSafe(w: World, id: Id, lease: Lease, now: int) {
    Held(w.db, id, lease, now) ==>
      || RevPrefix(id, NextRevision(w.db.jobs[id])) !in w.condemned
      || now + LEASE_MS <= w.clock
      || w.db.jobs[id].deadline.GetOr(0) <= w.clock
  }

  ghost predicate InTime(w: World, e: Event) {
    w.clock <= Time(w, e) || (Renews(e) && LateIsSafe(w, e.id, e.lease, e.now))
  }

  /** The lease a renewal that came late renews. */
  ghost function LateOf(w: World, id: Id, lease: Lease, now: int): set<Lease> {
    if now < w.clock && Held(w.db, id, lease, now) then {lease} else {}
  }

  ghost function LateBy(w: World, e: Event): set<Lease> {
    if Renews(e) then LateOf(w, e.id, e.lease, e.now) else {}
  }

  /** The assumptions: a clock that runs backwards for harmless renewals only, fresh ids and tokens,
      requests that go through their own steps in order, a runner that reports back the overrides
      version it was claimed with, and keep/resolve calls that do not reach a failed job with saved
      state. */
  ghost predicate Enabled(w: World, e: Event) {
    && InTime(w, e)
    && match e
       case Reserve(id, _) => id !in w.reserved
       case InputPut(id, _) => id in w.transfers
       case MarkStored(id) => id in w.inputs
       case Abandon(id, _) => id in w.reserved
       case Override(owner, id, _, _, _) => Owned(w.db, owner, id) ==> !FailedWithState(w.db.jobs[id])
       case ClaimRetire(id, now) => NextInQueue(w.db, id) && ClaimVerdict(w.db.jobs[id], now) != Grant
       case ClaimGrant(id, lease, highest, now) =>
         && NextInQueue(w.db, id) && ClaimVerdict(w.db.jobs[id], now) == Grant
         && lease !in w.tickets && IsHighest(w.db, id, highest)
       case CompleteAsk(req, _, lease, result, _) =>
         && req !in w.completing
         && (lease in w.tickets ==> result.overridesVersion == w.tickets[lease].version)
       case CompleteHead(req, name) => req in w.completing && name in w.completing[req].files
       case CompleteCommits(req, _) =>
         && req in w.completing && w.completing[req].result.Finished?
         && forall name | name in w.completing[req].files :: name in w.completing[req].asked
       case PutCheck(token, _, _, _, _, _) => token !in w.putting
       case PutBegin(token, _) => token in w.putting && !w.putting[token].begun
       case PutStore(token) => token in w.putting && w.putting[token].begun
       case PutEnd(token, _) => token in w.putting && w.putting[token].begun
       case Expire(id, now) => id in w.db.uploads && w.db.uploads[id].expires <= now
       case Retain(id, now) => PastRetention(w.db, id, now)
       case CleanStart(loop, todo, now) =>
         && loop !in w.cleaning
         && forall i | 0 <= i < |todo| :: todo[i].0 in Due(w.db, now) && Due(w.db, now)[todo[i].0] == todo[i].1
       case CleanNext(loop) => loop in w.cleaning && w.cleaning[loop].current == None && w.cleaning[loop].todo != []
       case CleanDelete(loop, keys) =>
         && loop in w.cleaning && w.cleaning[loop].current.Some?
         && forall k | k in keys :: Covers(w.cleaning[loop].current.value, k)
       case CleanSettle(loop, _) => loop in w.cleaning && w.cleaning[loop].current.Some?
       case _ => true
  }

  /** The tables an entry point leaves, whether it answered or raised; what it handed to cleanup
      stays condemned. */
  ghost function At(w: World, db: Db, now: int): (v: World)
    ensures v.rollback == w.rollback && v.marked == w.marked
  {
    w.(db := db, clock := now, condemned := w.condemned + db.cleanup.Keys)
  }

  ghost function CompleteAskStep(w: World, req: string, id: Id, lease: Lease, result: CompleteRequest, now: int): World {
    match CompleteOpen(w.db, id, lease, result, now)
    case Answered(call) => At(w, call.db, now)
    case AwaitStore(files, rev) =>
      At(w, w.db, now).(completing := w.completing[req := Completing(id, lease, result, files, rev, now, {}, map[])])
  }

  predicate AllSeen(c: Completing) {
    forall name | name in c.files :: name in c.seen
  }

  /** A commit that publishes, as opposed to one that answers without effect. */
  predicate Publishes(w: World, c: Completing, now: int) {
    AllSeen(c) && (c.id, c.lease) !in w.db.completions && Held(w.db, c.id, c.lease, now)
  }

  ghost function CommitStep(w: World, req: string, now: int): World
    requires req in w.completing && w.completing[req].result.Finished?
  {
    var c := w.completing[req];
    var after := At(w, CompleteCommit(w.db, c.id, c.lease, c.result, c.files, AllSeen(c), c.now, now).db, now)
                 .(completing := w.completing - {req});
    if !Publishes(w, c, now) then after
    else
      after.(
        verified := w.verified[(c.id, c.rev) := map name | name in c.files :: c.seen[name]],
        rollback := if w.db.jobs[c.id].pending.Some?
                    then w.rollback[c.id := Prior(c.result.job.status, c.result.job.steps)] else w.rollback)
  }

  ghost function PutCheckStep(w: World, token: string, id: Id, lease: Lease, name: string, bytes: Bytes, now: int): World {
    if !Held(w.db, id, lease, now) then At(w, w.db, Later(w.clock, now))
    else At(w, RenewLease(w.db, id, lease, now), Later(w.clock, now)).(
           putting := w.putting[token := Putting(id, lease, NextRevision(w.db.jobs[id]), name, bytes, false)])
  }

  ghost function PutBeginStep(w: World, token: string, now: int): World
    requires token in w.putting
  {
    var p := w.putting[token];
    match BeginArtifactUpload(w.db, p.id, p.lease, token, now)
    case Answer(db, true) => At(w, db, now).(putting := w.putting[token := p.(begun := true)])
    case other => At(w, other.db, now).(putting := w.putting - {token})
  }

  /** The first successful PUT of a key wins. */
  function PutIfAbsent(store: map<Key, Bytes>, key: Key, bytes: Bytes): map<Key, Bytes> {
    if key in store then store else store[key := bytes]
  }

  /** One event's effect; an event that is not enabled has none. */
  ghost function Next(w: World, e: Event): World {
    if !Enabled(w, e) then w else
    match e
    case Reserve(id, now) =>
      At(w, ReserveUpload(w.db, id, now), now).(reserved := w.reserved + {id}, transfers := w.transfers + {id})
    case InputPut(id, bytes) =>
      w.(store := w.store[InputKey(id) := bytes], inputs := w.inputs[id := bytes], transfers := w.transfers - {id})
    case MarkStored(id) => At(w, MarkUploadStored(w.db, id).db, w.clock).(marked := w.marked + {id})
    case Create(id, owner, jwt, exp, now) => At(w, CreateJob(w.db, id, owner, jwt, exp, now).db, now)
    case Abandon(id, now) => At(w, AbandonUpload(w.db, id, now).db, now).(transfers := w.transfers - {id})
    case Delete(owner, id, now) => At(w, DeleteJob(w.db, owner, id, now).db, now)
    case Override(owner, id, kind, item, now) =>
      var after := At(w, SetOverride(w.db, owner, id, kind, item, now).db, now);
      if !Owned(w.db, owner, id) then after
      else after.(decisions := w.decisions + {Decision(id, kind, item, w.db.jobs[id].overridesVersion + 1)})
    case AskReview(owner, id, action, jwt, exp, now) =>
      var call := QueueReview(w.db, owner, id, action, jwt, exp, now);
      var after := At(w, call.db, now);
      if call.Answer? && call.reply == Accepted
      then after.(rollback := w.rollback[id := Prior(w.db.jobs[id].status, w.db.jobs[id].steps)])
      else after
    case ClaimRetire(id, now) => At(w, Retire(w.db, id, now).db, now)
    case ClaimGrant(id, lease, highest, now) =>
      At(w, GrantClaim(w.db, id, lease, highest, now), now).(
        tickets := w.tickets[lease := Ticket(id, highest + 1, w.db.jobs[id].overridesVersion, w.db.jobs[id].overrides)])
    case RenewBy(id, lease, now) => At(w, RenewLease(w.db, id, lease, now), Later(w.clock, now))
    case ProgressBy(id, lease, event, now) => At(w, Progress(w.db, id, lease, event, now).db, Later(w.clock, now))
    case FailBy(id, lease, error, now) => At(w, FailTask(w.db, id, lease, error, now).db, now)
    case CompleteAsk(req, id, lease, result, now) => CompleteAskStep(w, req, id, lease, result, now)
    case CompleteHead(req, name) =>
      var c := w.completing[req];
      var key := FileKey(c.id, c.rev, name);
      w.(completing := w.completing[req := c.(asked := c.asked + {name},
           seen := if key in w.store then c.seen[name := w.store[key]] else c.seen)])
    case CompleteCommits(req, now) => CommitStep(w, req, now)
    case PutCheck(token, id, lease, name, bytes, now) => PutCheckStep(w, token, id, lease, name, bytes, now)
    case PutBegin(token, now) => PutBeginStep(w, token, now)
    case PutStore(token) =>
      var p := w.putting[token];
      w.(store := PutIfAbsent(w.store, FileKey(p.id, p.rev, p.name), p.bytes))
    case PutEnd(token, now) =>
      var p := w.putting[token];
      At(w, EndArtifactUpload(w.db, p.id, p.lease, token, now), now).(putting := w.putting - {token})
    case Sweep(id, now) => At(w, SweepRow(w.db, id, now).db, now)
    case Expire(id, now) => At(w, ExpireUpload(w.db, id, now).db, now)
    case Retain(id, now) => At(w, Forget(w.db, id, now), now)
    case CleanStart(loop, todo, now) => At(w, w.db, now).(cleaning := w.cleaning[loop := Cleaning(todo, None)])
    case CleanNext(loop) =>
      var c := w.cleaning[loop];
      At(w, MarkCleanup(w.db, c.todo[0].0, Deleting), w.clock).(
        cleaning := w.cleaning[loop := Cleaning(c.todo[1..], Some(c.todo[0].0))])
    case CleanDelete(loop, keys) => w.(store := w.store - keys)
    case CleanSettle(loop, deleted) =>
      var c := w.cleaning[loop];
      At(w, SettleCleanup(w.db, c.current.value, deleted), w.clock).(
        cleaning := w.cleaning[loop := c.(current := None)])
  }
}
