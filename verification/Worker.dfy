/** The two request handlers that write files: worker/src/user-api.ts `upload` and the artifact PUT of
    worker/src/runner-api.ts, each run with nothing interleaved. World has the same steps apart. */
module Worker {
  import opened Wrappers
  import opened Contract
  import opened Credential
  import opened Keys
  import Lifecycles
  import opened World
  import opened BoardTables
  import opened FileStore
  import opened JobBoard

  /** What the id of an upload request has come to: nobody's, an admitted job, or cleanup's. */
  datatype Owner = Nobody | AdmittedJob | HandedToCleanup

  ghost predicate Settles(before: Db, after: Db, id: Id, owner: Owner) {
    && id !in after.uploads && OfUpload(id) !in after.writes
    && (id in after.jobs <==> owner == AdmittedJob)
    && (JobPrefix(id) in after.cleanup <==> owner == HandedToCleanup)
    && forall other | other in before.jobs :: other in after.jobs && after.jobs[other] == before.jobs[other]
  }

  /** An id no request has used. */
  ghost predicate FreshId(db: Db, id: Id) {
    id !in db.jobs && id !in db.uploads && OfUpload(id) !in db.writes && JobPrefix(id) !in db.cleanup
  }

  function RefusalStatus(admission: Admission): nat {
    match admission
    case PerPerson => 429
    case Global => 503
    case _ => 401
  }

  /** Admission means the person and the whole board are below their limits. */
  lemma AdmittedWithinLimits(db: Db, owner: string, exp: int, now: int)
    requires AdmitUpload(db, owner, exp, now) == Admit
    ensures |ActiveOf(db, owner)| < ACTIVE_PER_PERSON && |ActiveAll(db)| < ACTIVE_GLOBAL
  {
    hide ActiveOf; hide ActiveAll;
  }

  /** Admission looks only at the jobs. */
  lemma AdmissionReadsJobs(db: Db, other: Db, owner: string, exp: int, now: int)
    requires other.jobs == db.jobs
    ensures AdmitUpload(other, owner, exp, now) == AdmitUpload(db, owner, exp, now)
    ensures ActiveOf(other, owner) == ActiveOf(db, owner) && ActiveAll(other) == ActiveAll(db)
  {
  }

  /** Only the reservation and the registered write of `id` were added. */
  ghost predicate Reserved(before: Db, after: Db, id: Id) {
    && after == before.(uploads := after.uploads, writes := after.writes)
    && id in after.uploads && after.uploads == before.uploads[id := after.uploads[id]]
    && after.writes == before.writes[OfUpload(id) := JobPrefix(id)]
  }

  lemma StoredStaysReserved(before: Db, db: Db, id: Id)
    requires Reserved(before, db, id) && db.uploads[id].state == Lifecycles.Receiving
    ensures var call := MarkUploadStored(db, id);
      call.Answer? && call.reply == Accepted && Reserved(before, call.db, id) && call.db.uploads[id].state == Lifecycles.Stored
  {
  }

  lemma CreatedSettles(before: Db, db: Db, id: Id, owner: string, jwt: string, exp: int, now: int)
    requires FreshId(before, id) && Reserved(before, db, id) && db.uploads[id].state == Lifecycles.Stored
    ensures var call := CreateJob(db, id, owner, jwt, exp, now);
      && call.Answer?
      && (call.reply != Admit ==> call.db == db)
      && (call.reply == Admit ==>
            && Settles(before, call.db, id, AdmittedJob) && AdmitUpload(db, owner, exp, now) == Admit
            && call.db.jobs[id].owner == owner && call.db.jobs[id].taskKind == Some(Process))
  {
    hide AdmitUpload;
  }

  lemma AbandonedSettles(before: Db, db: Db, id: Id, now: int)
    requires FreshId(before, id) && Reserved(before, db, id) && db.uploads[id].state in {Lifecycles.Receiving, Lifecycles.Stored}
    ensures AbandonUpload(db, id, now).Done? && Settles(before, AbandonUpload(db, id, now).db, id, HandedToCleanup)
  {
  }

  /** The handler's last part: the input is stored; create the job or give the id up. */
  method CreateOrAbandon(board: Board, id: Id, owner: string, jwt: string, exp: int, ended: int, ghost before: Db)
    returns (status: nat, ghost became: Owner)
    requires FreshId(before, id) && Reserved(before, board.Tables(), id) && board.uploads[id].state == Lifecycles.Receiving
    modifies board
    ensures Settles(before, board.Tables(), id, became) && became != Nobody
    ensures status == 201 <==> became == AdmittedJob
    ensures became == AdmittedJob ==>
              && board.jobs[id].owner == owner && board.jobs[id].taskKind == Some(Process)
              && |ActiveOf(before, owner)| < ACTIVE_PER_PERSON && |ActiveAll(before)| < ACTIVE_GLOBAL
  {
    hide AdmitUpload; hide ActiveOf; hide ActiveAll; hide Settles; hide FreshId;
    hide MarkUploadStored; hide CreateJob; hide AbandonUpload;
    StoredStaysReserved(before, board.Tables(), id);
    var raised, stored := board.MarkUploadStored(id);
    CreatedSettles(before, board.Tables(), id, owner, jwt, exp, ended);
    AdmissionReadsJobs(before, board.Tables(), owner, exp, ended);
    AbandonedSettles(before, board.Tables(), id, ended);
    var caught, admission := board.CreateJob(id, owner, jwt, exp, ended);
    // Nothing else ran since the reservation, so neither guard raises and the catch branch stays idle.
    assert !raised && !caught;
    if admission != Admit {
      var stuck := board.AbandonUpload(id, ended);
      return RefusalStatus(admission), HandedToCleanup;
    }
    AdmittedWithinLimits(before, owner, exp, ended);
    return 201, AdmittedJob;
  }

  /** The input's transfer: taken whole, or broken off on either side, with or without an object
      landing all the same. */
  datatype Transfer = Taken(bytes: Bytes) | Broken(landed: Option<Bytes>)

  /** The reply is 201 exactly when the id became a job; any other reply leaves nothing registered,
      and whatever landed in the store is cleanup's. */
  method Upload(board: Board, store: Store, id: Id, owner: string, jwt: string, exp: int,
                transfer: Transfer, began: int, reserved: int, ended: int)
    returns (status: nat, ghost became: Owner)
    requires FreshId(board.Tables(), id)
    modifies board, store
    ensures Settles(old(board.Tables()), board.Tables(), id, became)
    ensures status == 201 <==> became == AdmittedJob
    ensures became == Nobody ==> board.Tables() == old(board.Tables()) && store.objects == old(store.objects)
    ensures became == AdmittedJob ==>
              && transfer.Taken? && InputKey(id) in store.objects && store.objects[InputKey(id)] == transfer.bytes
              && board.jobs[id].owner == owner && board.jobs[id].taskKind == Some(Process)
              && |ActiveOf(old(board.Tables()), owner)| < ACTIVE_PER_PERSON && |ActiveAll(old(board.Tables()))| < ACTIVE_GLOBAL
    ensures forall k | k != InputKey(id) ::
              (k in store.objects <==> k in old(store.objects))
              && (k in store.objects ==> store.objects[k] == old(store.objects)[k])
  {
    hide AdmitUpload; hide ActiveOf; hide ActiveAll;
    var admitted := AdmitUpload(board.Tables(), owner, exp, began);
    if admitted != Admit {
      return RefusalStatus(admitted), Nobody;
    }
    board.ReserveUpload(id, reserved);
    if transfer.Broken? {
      if transfer.landed.Some? {
        store.PutInput(id, transfer.landed.value);
      }
      var raised := board.AbandonUpload(id, ended);
      return 400, HandedToCleanup;
    }
    store.PutInput(id, transfer.bytes);
    status, became := CreateOrAbandon(board, id, owner, jwt, exp, ended, old(board.Tables()));
  }

  datatype PutReply = NoContent | LeaseLost | BadName | PutFailed

  /** The store's word on a PUT: done, or an error after which the object may be there or not. */
  datatype PutOutcome = Acknowledged | Lost(landed: bool)

  lemma RenewalKeepsRevision(db: Db, id: Id, lease: Lease, now: int)
    ensures var after := RenewLease(db, id, lease, now);
      if Held(db, id, lease, now)
      then after == db.(jobs := after.jobs) && id in after.jobs && NextRevision(after.jobs[id]) == NextRevision(db.jobs[id])
      else after == db
  {
    hide Holds;
  }

  lemma BegunRegisters(db: Db, id: Id, lease: Lease, token: string, now: int)
    requires id in db.jobs
    ensures var call := BeginArtifactUpload(db, id, lease, token, now);
      && (call.Answer? && call.reply ==>
            call.db == db.(writes := db.writes[OfArtifact(token) := RevPrefix(id, NextRevision(db.jobs[id]))]))
      && ((call.Answer? ==> !call.reply) ==> call.db == db)
  {
    hide Holds;
  }

  lemma EndedReleases(db: Db, id: Id, lease: Lease, token: string, now: int)
    requires OfArtifact(token) in db.writes
    ensures var after := EndArtifactUpload(db, id, lease, token, now);
      && after.writes == db.writes - {OfArtifact(token)} && after.jobs == db.jobs && after.completions == db.completions
      && (Held(after, id, lease, now) || (id, lease) in after.completions || db.writes[OfArtifact(token)] in after.cleanup)
  {
    hide Holds;
  }

  method Transferred(store: Store, key: Key, bytes: Bytes, outcome: PutOutcome)
    modifies store
    ensures store.objects == if outcome == Lost(false) then old(store.objects) else PutIfAbsent(old(store.objects), key, bytes)
  {
    if outcome != Lost(false) {
      var stored := store.PutIfAbsentAt(key, bytes);
    }
  }

  lemma NothingOverwritten(objects: map<Key, Bytes>, key: Key, bytes: Bytes)
    ensures forall k | k in objects :: k in PutIfAbsent(objects, key, bytes) && PutIfAbsent(objects, key, bytes)[k] == objects[k]
  {
  }

  /** Check the lease, register the write, put only where nothing is stored, release the write,
      also when the PUT failed. A file once stored keeps its bytes, and a write that ended after the
      lease died goes to cleanup. */
  method PutArtifact(board: Board, store: Store, id: Id, lease: Lease, name: string, bytes: Bytes,
                     token: string, outcome: PutOutcome, checked: int, began: int, ended: int)
    returns (raised: bool, reply: PutReply)
    requires OfArtifact(token) !in board.writes
    modifies board, store
    ensures board.writes == old(board.writes)
    ensures forall k | k in old(store.objects) :: k in store.objects && store.objects[k] == old(store.objects)[k]
    ensures !Held(old(board.Tables()), id, lease, checked) ==>
              !raised && reply == LeaseLost && board.Tables() == old(board.Tables()) && store.objects == old(store.objects)
    ensures !raised && reply in {NoContent, PutFailed} ==>
              && IsRunnerFileName(name) && Held(old(board.Tables()), id, lease, checked)
              && (reply == NoContent <==> outcome.Acknowledged?)
              && store.objects ==
                   (if outcome == Lost(false) then old(store.objects)
                    else PutIfAbsent(old(store.objects), FileKey(id, NextRevision(old(board.jobs)[id]), name), bytes))
              && (Held(board.Tables(), id, lease, ended) || (id, lease) in board.completions
                  || RevPrefix(id, NextRevision(old(board.jobs)[id])) in board.cleanup)
    ensures raised || reply in {LeaseLost, BadName} ==> store.objects == old(store.objects)
  {
    hide IsRunnerFileName; hide Held; hide RenewLease; hide BeginArtifactUpload; hide EndArtifactUpload; hide NextRevision;
    hide PutIfAbsent;
    RenewalKeepsRevision(board.Tables(), id, lease, checked);
    var held := board.CheckLease(id, lease, checked, true);
    if held == None {
      return false, LeaseLost;
    }
    if !IsRunnerFileName(name) {
      return false, BadName;
    }
    BegunRegisters(board.Tables(), id, lease, token, began);
    var failed, begun := board.BeginArtifactUpload(id, lease, token, began);
    if failed || !begun {
      return failed, LeaseLost;
    }
    NothingOverwritten(store.objects, FileKey(id, held.value, name), bytes);
    Transferred(store, FileKey(id, held.value, name), bytes, outcome);
    EndedReleases(board.Tables(), id, lease, token, ended);
    board.EndArtifactUpload(id, lease, token, ended);
    return false, if outcome.Acknowledged? then NoContent else PutFailed;
  }
}
