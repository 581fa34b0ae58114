/** Jobs do not share state: what an event leaves alone keeps its part of the invariant. */
module Frames {
  import opened Wrappers
  import opened Contract
  import opened Steps
  import opened Lifecycles
  import opened Credential
  import opened Keys
  import opened BoardTables
  import opened BoardRows
  import opened World
  import opened Invariant

  ghost predicate SameAt<K, V>(a: map<K, V>, b: map<K, V>, k: K) {
    (k in a <==> k in b) && (k in a ==> a[k] == b[k])
  }

  /** The tables say the same about one id. */
  ghost predicate SameTables(a: Db, b: Db, id: Id) {
    && SameAt(a.jobs, b.jobs, id)
    && SameAt(a.uploads, b.uploads, id)
    && SameAt(a.writes, b.writes, OfUpload(id))
    && (forall rev: nat :: SameAt(a.attempts, b.attempts, (id, rev)))
    && (forall l: Lease :: SameAt(a.completions, b.completions, (id, l)))
  }

  ghost predicate SameTickets(w: World, v: World, id: Id) {
    && (forall l | l in w.tickets && w.tickets[l].id == id :: l in v.tickets && v.tickets[l] == w.tickets[l])
    && (forall l | l in v.tickets && v.tickets[l].id == id :: l in w.tickets && w.tickets[l] == v.tickets[l])
  }

  ghost predicate SameRequests(w: World, v: World, id: Id) {
    && (forall t | t in v.putting && v.putting[t].id == id ::
          && t in w.putting && w.putting[t] == v.putting[t]
          && SameAt(w.db.writes, v.db.writes, OfArtifact(t)))
    && (forall r | r in v.completing && v.completing[r].id == id :: r in w.completing && w.completing[r] == v.completing[r])
  }

  ghost predicate SameFiles(w: World, v: World, id: Id) {
    && SameAt(w.store, v.store, InputKey(id))
    && (forall rev: nat, name: string :: SameAt(w.store, v.store, FileKey(id, rev, name)))
    && (forall rev: nat :: SameAt(w.verified, v.verified, (id, rev)))
  }

  ghost predicate SameHistory(w: World, v: World, id: Id) {
    && (id in w.reserved <==> id in v.reserved)
    && (id in v.transfers ==> id in w.transfers)
    && SameAt(w.inputs, v.inputs, id)
    && (id in w.marked <==> id in v.marked)
    && (JobPrefix(id) in w.condemned <==> JobPrefix(id) in v.condemned)
    && (forall rev: nat :: RevPrefix(id, rev) in w.condemned <==> RevPrefix(id, rev) in v.condemned)
    && (forall d | d in v.decisions && d.id == id :: d in w.decisions)
    && SameAt(w.rollback, v.rollback, id)
  }

  /** Nothing about this id changed, though time may have passed and requests may have ended. */
  ghost predicate SameSlice(w: World, v: World, id: Id) {
    && w.clock <= v.clock
    && SameTables(w.db, v.db, id)
    && SameTickets(w, v, id)
    && SameRequests(w, v, id)
    && SameFiles(w, v, id)
    && SameHistory(w, v, id)
  }

  lemma FrameRevisions(w: World, v: World, id: Id)
    requires RevisionsOf(w, id) && SameSlice(w, v, id)
    ensures RevisionsOf(v, id)
  {
    hide RowInv;
    forall rev: nat | (id, rev) in v.db.attempts
      ensures id in v.db.jobs && rev >= 1 && v.db.attempts[(id, rev)].lease in v.tickets
      ensures v.tickets[v.db.attempts[(id, rev)].lease].id == id && v.tickets[v.db.attempts[(id, rev)].lease].rev == rev
      ensures RevisionAccounted(v, id, rev)
    {
      assert SameAt(w.db.attempts, v.db.attempts, (id, rev));
      assert SameAt(w.db.completions, v.db.completions, (id, w.db.attempts[(id, rev)].lease));
      assert RevisionAccounted(w, id, rev);
    }
    if id in v.db.jobs {
      var j := v.db.jobs[id];
      assert SameAt(w.db.attempts, v.db.attempts, (id, j.rev));
      if IsClaimed(j) {
        assert SameAt(w.db.attempts, v.db.attempts, (id, j.nextRev.value));
      }
    }
    forall l | l in v.tickets && v.tickets[l].id == id
      ensures id in v.reserved && v.tickets[l].rev >= 1
      ensures id in v.db.jobs ==> (id, v.tickets[l].rev) in v.db.attempts && v.db.attempts[(id, v.tickets[l].rev)].lease == l
    {
      assert SameAt(w.db.attempts, v.db.attempts, (id, v.tickets[l].rev));
    }
  }

  lemma FrameReceipts(w: World, v: World, id: Id)
    requires ReceiptsOf(w, id) && SameSlice(w, v, id)
    ensures ReceiptsOf(v, id)
  {
    forall l: Lease | (id, l) in v.db.completions
      ensures id in v.db.jobs && l in v.tickets && v.tickets[l].id == id && v.db.jobs[id].lease != Some(l)
    {
      assert SameAt(w.db.completions, v.db.completions, (id, l));
    }
  }

  lemma FrameCondemned(w: World, v: World, id: Id)
    requires CondemnedOf(w, id) && SameSlice(w, v, id)
    ensures CondemnedOf(v, id)
  {
    forall rev: nat | RevPrefix(id, rev) in v.condemned && id in v.db.jobs
      ensures (id, rev) in v.db.attempts && rev != v.db.jobs[id].rev
      ensures v.db.attempts[(id, rev)].state == Staging ==> Lapsed(v.db.jobs[id], v.clock)
    {
      assert SameAt(w.db.attempts, v.db.attempts, (id, rev));
    }
  }

  lemma FrameWrites(w: World, v: World, id: Id)
    requires WritesOf(w, id) && SameSlice(w, v, id)
    ensures WritesOf(v, id)
  {
  }

  lemma FrameStore(w: World, v: World, id: Id)
    requires StoreOf(w, id) && SameSlice(w, v, id)
    ensures StoreOf(v, id)
  {
    if id in v.db.jobs && v.db.jobs[id].rev > 0 {
      var rev := v.db.jobs[id].rev;
      assert SameAt(w.verified, v.verified, (id, rev));
      FrameIntact(w, v, id, rev, w.verified[(id, rev)]);
    }
  }

  lemma FrameIntact(w: World, v: World, id: Id, rev: nat, seen: map<string, Bytes>)
    requires SameFiles(w, v, id) && Intact(w.store, id, rev, seen)
    ensures Intact(v.store, id, rev, seen)
  {
    forall name | name in seen
      ensures FileKey(id, rev, name) in v.store && v.store[FileKey(id, rev, name)] == seen[name]
    {
      assert SameAt(w.store, v.store, FileKey(id, rev, name));
    }
  }

  lemma FrameCompleting(w: World, v: World, id: Id)
    requires CompletingOf(w, id) && SameSlice(w, v, id)
    ensures CompletingOf(v, id)
  {
    forall req | req in v.completing && v.completing[req].id == id
        && JobPrefix(id) !in v.condemned && RevPrefix(id, v.completing[req].rev) !in v.condemned
      ensures Intact(v.store, id, v.completing[req].rev, v.completing[req].seen)
    {
      FrameIntact(w, v, id, v.completing[req].rev, v.completing[req].seen);
    }
  }

  lemma FrameRendered(w: World, v: World, d: Decision)
    requires Rendered(w, d) && SameTables(w.db, v.db, d.id) && RevisionsOf(w, d.id) && SameTickets(w, v, d.id)
    ensures Rendered(v, d)
  {
    var rev: nat :| RenderedAt(w, d, rev);
    assert SameAt(w.db.attempts, v.db.attempts, (d.id, rev));
    assert RenderedAt(v, d, rev);
  }

  lemma FrameDecisions(w: World, v: World, id: Id)
    requires DecisionsOf(w, id) && RevisionsOf(w, id) && SameSlice(w, v, id)
    ensures DecisionsOf(v, id)
  {
    if id in v.db.jobs {
      var j := w.db.jobs[id];
      if IsClaimed(j) {
        assert w.tickets[j.lease.value].id == id;
      }
      forall d | d in v.decisions && d.id == id
        ensures d.version <= v.db.jobs[id].overridesVersion && (Layered(v.db.jobs[id], d) || Rendered(v, d))
      {
        if Rendered(w, d) {
          FrameRendered(w, v, d);
        }
      }
    }
  }

  lemma FrameRest(w: World, v: World, id: Id)
    requires RowOf(w, id) && PipelineOf(w, id) && UploadOf(w, id) && RollbackOf(w, id) && SameSlice(w, v, id)
    ensures RowOf(v, id) && PipelineOf(v, id) && UploadOf(v, id) && RollbackOf(v, id)
  {
    hide RowInv;
    hide PipelineRow;
  }

  lemma FrameSlice(w: World, v: World, id: Id)
    requires Slice(w, id) && SameSlice(w, v, id)
    ensures Slice(v, id)
  {
    hide RowOf; hide PipelineOf; hide RevisionsOf; hide ReceiptsOf; hide CondemnedOf; hide WritesOf;
    hide UploadOf; hide StoreOf; hide CompletingOf; hide DecisionsOf; hide RollbackOf; hide SameSlice;
    FrameRest(w, v, id);
    FrameRevisions(w, v, id);
    FrameReceipts(w, v, id);
    FrameCondemned(w, v, id);
    FrameWrites(w, v, id);
    FrameStore(w, v, id);
    FrameCompleting(w, v, id);
    FrameDecisions(w, v, id);
  }

  /** One id changed: it is enough to look at that id and at what crosses jobs. */
  lemma OnlyOneChanged(w: World, v: World, id: Id)
    requires Inv(w) && (forall other | other != id :: SameSlice(w, v, other))
    requires Slice(v, id) && CleaningKept(v) && AdmissionKept(v.db.jobs)
    ensures Inv(v)
  {
    hide Slice; hide SameSlice; hide CleaningKept; hide AdmissionKept;
    forall other: Id ensures Slice(v, other) {
      if other != id {
        assert SameSlice(w, v, other);
        FrameSlice(w, v, other);
      }
    }
  }

  /** Nothing about any id changed. */
  lemma NoneChanged(w: World, v: World)
    requires Inv(w) && (forall id :: SameSlice(w, v, id))
    requires CleaningKept(v) && AdmissionKept(v.db.jobs)
    ensures Inv(v)
  {
    hide Slice; hide SameSlice; hide CleaningKept; hide AdmissionKept;
    forall id: Id ensures Slice(v, id) {
      assert SameSlice(w, v, id);
      FrameSlice(w, v, id);
    }
  }

  // ---------------------------------------------------------------- what a step may do to the past

  /** One row, from one state to the next: versions and pointer only grow, and a lease is renewed
      only while it is held, or by a late call. */
  ghost predicate RowMoves(w: World, j: Job, k: Job, now: int, late: set<Lease>) {
    && k.owner == j.owner
    && k.rev >= j.rev && k.syncedVersion >= j.syncedVersion && k.overridesVersion >= j.overridesVersion
    && (k.rev == j.rev ==> k.files == j.files && k.hasState == j.hasState)
    && (k.lease.Some? ==>
          if k.lease == j.lease
          then
            && (IsClaimed(k) ==> IsClaimed(j)) && k.deadline == j.deadline
            && (k.leaseExpires == j.leaseExpires || Holds(j, k.lease.value, now) || k.lease.value in late)
          else k.lease.value !in w.tickets)
  }

  ghost predicate JobsMove(w: World, v: World, late: set<Lease>) {
    forall id | id in v.db.jobs ::
      if id in w.db.jobs then RowMoves(w, w.db.jobs[id], v.db.jobs[id], v.clock, late)
      else id in w.db.uploads && v.db.jobs[id].rev == 0 && v.db.jobs[id].lease == None
  }

  /** History is never rewritten: receipts last as long as their job, and are given to held leases only;
      `late` are the leases a late call renewed in this step. */
  ghost predicate Moves(w: World, v: World, late: set<Lease> := {}) {
    && w.clock <= v.clock && w.reserved <= v.reserved && w.condemned <= v.condemned && w.decisions <= v.decisions
    && (forall l | l in w.tickets :: l in v.tickets && v.tickets[l] == w.tickets[l])
    && JobsMove(w, v, late)
    && (forall id | id in v.db.uploads && id in w.reserved :: id in w.db.uploads)
    && (forall k | k in w.db.completions && k.0 in v.db.jobs ::
          k in v.db.completions && v.db.completions[k] == w.db.completions[k])
    && (forall k | k in v.db.completions && k !in w.db.completions :: Held(w.db, k.0, k.1, v.clock))
    && (forall k | k in w.verified && !(k.0 in w.db.jobs && w.db.jobs[k.0].nextRev == Some(k.1)) ::
          k in v.verified && v.verified[k] == w.verified[k])
  }

  /** Events that leave the jobs, receipts and history alone. */
  lemma StandStill(w: World, v: World)
    requires w.clock <= v.clock && w.reserved <= v.reserved && w.condemned <= v.condemned
    requires v.decisions == w.decisions && v.tickets == w.tickets && v.verified == w.verified
    requires v.db.jobs == w.db.jobs && v.db.completions == w.db.completions
    requires forall id | id in v.db.uploads && id in w.reserved :: id in w.db.uploads
    ensures Moves(w, v)
  {
  }
}
