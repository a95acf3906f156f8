/** Who owns the objects that uploads and media workers store: none is left behind. The
    runs are those in which a failed put stores nothing, a failed commit commits nothing
    and the fallback enqueues succeed; MediaSources and MediaResults say exactly what the
    other runs can do to jobs, records and objects. */
module MediaObjects {
  import opened Ordering
  import opened MediaJobs
  import opened MediaProcessing
  import opened MediaSources
  import opened MediaResults

  predicate Assumed(a: Action) {
    match a
    case Uploading(_, PutFails(stored)) => !stored
    case Uploading(_, RecordFails(_, committed)) => !committed
    case Uploading(_, UndoFails(_, queued)) => queued
    case Working(_, StoreFails(stored)) => !stored
    case Working(_, CompleteFails(committed)) => !committed
    case Working(_, CleanUpFails(_, queued)) => queued
    case _ => true
  }

  // ---- Owners ----

  predicate Pending(s: State, k: Key) {
    k in s.writers && s.writers[k] in s.workers && k in PendingOf(s.workers[s.writers[k]])
  }

  /** No job, record or worker needs the object. */
  predicate Free(s: State, k: Key) {
    match k
    case Quarantine(j) => Settled(s, j)
    case Canonical(id) => id < s.nextKey && !Live(s, k) && !Pending(s, k)
  }

  // ---- What every step keeps ----

  /** An obligation to delete an object means that nothing needs it. */
  ghost predicate DeletionInv(s: State, k: Key) {
    k in s.db.deletions ==> Free(s, k)
  }

  ghost predicate DrainInv(s: State, d: nat) {
    d in s.drains ==> Free(s, s.drains[d].key) && (s.drains[d].pc == Completing ==> s.drains[d].key !in s.objects)
  }

  ghost predicate SweepInv(s: State, w: nat) {
    w in s.sweeps ==> forall k :: k in s.sweeps[w] ==> k.Quarantine? && Free(s, k)
  }

  ghost predicate SourceInv(s: State, j: nat) {
    && (j !in s.uploads || s.uploads[j] in {Putting, Recording} ==> j !in s.db.jobs)
    && (j !in s.uploads || s.uploads[j] == Putting ==> Quarantine(j) !in s.objects)
    && (UploadAt(s, j, Recording) ==> Quarantine(j) in s.objects)
    && (UploadAt(s, j, Undoing) ==> j !in s.db.jobs)
    && (j in s.db.jobs && !Terminal(s.db.jobs[j]) ==> Quarantine(j) in s.objects)
    && (UploadAt(s, j, Finished) && Settled(s, j) ==> Quarantine(j) !in s.objects || Quarantine(j) in s.db.deletions)
  }

  ghost predicate WorkerInv(s: State, w: nat) {
    w in s.workers ==>
      var p := PendingOf(s.workers[w]);
      && (forall i, j :: 0 <= i < j < |p| ==> p[i] != p[j])
      && (forall k :: k in p ==> k in s.writers && s.writers[k] == w && k in s.objects && k !in s.db.records)
      && (s.workers[w].pc == Started ==> s.workers[w].keys == [])
      && s.workers[w].job in s.uploads
  }

  ghost predicate KeyInv(s: State, k: Key) {
    && (k in s.db.records || k in s.writers ==> k.Canonical? && k.id < s.nextKey)
    && (k in s.db.records ==> InsertedFor(s, s.db.records[k].job))
    && (k.Canonical? && k in s.objects ==> k.id < s.nextKey && (Pending(s, k) || Live(s, k) || k in s.db.deletions))
    && (Live(s, k) ==> k in s.objects)
  }

  ghost predicate ObjectsInv(s: State) {
    && (forall k :: DeletionInv(s, k)) && (forall d :: DrainInv(s, d)) && (forall w :: SweepInv(s, w))
    && (forall j :: SourceInv(s, j)) && (forall w :: WorkerInv(s, w)) && (forall k :: KeyInv(s, k))
  }

  lemma RecordedIsNotPending(s: State, k: Key)
    requires (forall w :: WorkerInv(s, w)) && k in s.db.records
    ensures !Pending(s, k)
  {
    if k in s.writers { assert WorkerInv(s, s.writers[k]); }
  }

  /** What nothing needs stays unneeded. */
  ghost predicate StaysFree(s: State, t: State) {
    forall k :: Free(s, k) ==> Free(t, k)
  }

  lemma FreeObligations(s: State, t: State)
    requires ObjectsInv(s) && StaysFree(s, t) && t.drains == s.drains && t.sweeps == s.sweeps
    requires forall d :: d in s.drains && s.drains[d].pc == Completing && s.drains[d].key in t.objects ==> s.drains[d].key in s.objects
    ensures (forall d :: DrainInv(t, d)) && (forall w :: SweepInv(t, w))
  {
    forall d ensures DrainInv(t, d) { assert DrainInv(s, d); }
    forall w ensures SweepInv(t, w) { assert SweepInv(s, w); }
  }

  // ---- Uploads ----

  lemma UploadStaysFree(s: State, j: nat, op: UploadOp)
    requires UploadEnabled(s, j, op) && ObjectsInv(s) && Assumed(Uploading(j, op))
    ensures StaysFree(s, UploadStep(s, j, op))
  {
    var t := UploadStep(s, j, op);
    assert SourceInv(s, j);
    forall k | Free(s, k) ensures Free(t, k) {}
  }

  lemma UploadKeepsSources(s: State, j: nat, op: UploadOp, i: nat)
    requires UploadEnabled(s, j, op) && ObjectsInv(s) && Assumed(Uploading(j, op))
    ensures SourceInv(UploadStep(s, j, op), i)
  {
    hide Enqueued, WorkerInv, KeyInv, DrainInv, SweepInv;
    assert SourceInv(s, j) && SourceInv(s, i);
  }

  lemma UploadKeepsKeys(s: State, j: nat, op: UploadOp)
    requires UploadEnabled(s, j, op) && ObjectsInv(s) && Assumed(Uploading(j, op))
    ensures var t := UploadStep(s, j, op); (forall w :: WorkerInv(t, w)) && (forall k :: KeyInv(t, k))
  {
    hide Enqueued, SourceInv, DrainInv, SweepInv, DeletionInv;
    var t := UploadStep(s, j, op);
    forall w ensures WorkerInv(t, w) { assert WorkerInv(s, w); forall k | w in s.workers && k in PendingOf(s.workers[w]) ensures k.Canonical? { assert KeyInv(s, k); } }
    forall k ensures KeyInv(t, k) { assert KeyInv(s, k); assert Pending(t, k) <==> Pending(s, k); }
  }

  lemma UploadKeepsObjects(s: State, j: nat, op: UploadOp)
    requires UploadEnabled(s, j, op) && ObjectsInv(s) && Assumed(Uploading(j, op))
    ensures ObjectsInv(UploadStep(s, j, op))
  {
    hide Enqueued, WorkerInv, KeyInv, SweepInv;
    var t := UploadStep(s, j, op);
    UploadStaysFree(s, j, op);
    assert SourceInv(s, j);
    forall d | d in s.drains && s.drains[d].pc == Completing && s.drains[d].key in t.objects ensures s.drains[d].key in s.objects {
      assert DrainInv(s, d);
    }
    FreeObligations(s, t);
    forall k ensures DeletionInv(t, k) { assert DeletionInv(s, k); }
    forall i ensures SourceInv(t, i) { UploadKeepsSources(s, j, op, i); }
    UploadKeepsKeys(s, j, op);
  }

  // ---- Workers ----

  lemma WorkerObligations(s: State, t: State)
    requires ObjectsInv(s) && StaysFree(s, t) && t.drains == s.drains && t.sweeps == s.sweeps
    requires t.objects <= s.objects || exists k :: t.objects == s.objects + {k} && !Free(s, k)
    ensures (forall d :: DrainInv(t, d)) && (forall w :: SweepInv(t, w))
  {
    forall d | d in s.drains && s.drains[d].pc == Completing && s.drains[d].key in t.objects ensures s.drains[d].key in s.objects {
      assert DrainInv(s, d);
    }
    FreeObligations(s, t);
  }

  lemma ClaimKeepsObjects(s: State, w: nat, op: WorkerOp)
    requires WorkerEnabled(s, w, op) && op.Claim? && ObjectsInv(s)
    ensures ObjectsInv(WorkerStep(s, w, op))
  {
    var t := WorkerStep(s, w, op);
    forall k ensures Pending(t, k) <==> Pending(s, k) {
      if k in s.writers && s.writers[k] == w { assert w !in s.workers; }
    }
    forall k | Free(s, k) ensures Free(t, k) {}
    WorkerObligations(s, t);
    assert SourceInv(s, op.job);
    forall k ensures DeletionInv(t, k) { assert DeletionInv(s, k); }
    forall i ensures SourceInv(t, i) { assert SourceInv(s, i); }
    forall v ensures WorkerInv(t, v) { assert WorkerInv(s, v); }
    forall k ensures KeyInv(t, k) { assert KeyInv(s, k); }
  }

  /** Steps that only move a worker on, leaving it the same pending objects. */
  lemma MoveKeepsObjects(s: State, w: nat, pc: WorkerPc)
    requires ObjectsInv(s) && w in s.workers && PendingOf(s.workers[w].(pc := pc)) == PendingOf(s.workers[w]) && pc != Started
    ensures ObjectsInv(GotoWorker(s, w, pc))
  {
    var t := GotoWorker(s, w, pc);
    forall k ensures Pending(t, k) <==> Pending(s, k) {}
    forall k | Free(s, k) ensures Free(t, k) {}
    WorkerObligations(s, t);
    forall k ensures DeletionInv(t, k) { assert DeletionInv(s, k); }
    forall i ensures SourceInv(t, i) { assert SourceInv(s, i); }
    forall v ensures WorkerInv(t, v) { assert WorkerInv(s, v); }
    forall k ensures KeyInv(t, k) { assert KeyInv(s, k); }
  }

  lemma StoreKeepsObjects(s: State, w: nat)
    requires CanStore(s, w) && ObjectsInv(s)
    ensures ObjectsInv(AfterStore(s, w))
  {
    var t, n := AfterStore(s, w), Canonical(s.nextKey);
    assert KeyInv(s, n) && WorkerInv(s, w);
    forall k ensures Pending(t, k) <==> Pending(s, k) || k == n {
      if Pending(s, k) { assert KeyInv(s, k); }
    }
    forall k | Free(s, k) ensures Free(t, k) {}
    assert t.objects == s.objects + {n} && !Free(s, n);
    WorkerObligations(s, t);
    forall k ensures DeletionInv(t, k) { assert DeletionInv(s, k); }
    forall i ensures SourceInv(t, i) { assert SourceInv(s, i); }
    forall v ensures WorkerInv(t, v) { assert WorkerInv(s, v); if v in s.workers { forall k | k in PendingOf(s.workers[v]) ensures k != n { assert KeyInv(s, k); } } }
    forall k ensures KeyInv(t, k) { assert KeyInv(s, k); }
  }

  lemma StoreFailsKeepsObjects(s: State, w: nat)
    requires CanStore(s, w) && ObjectsInv(s)
    ensures ObjectsInv(AfterStoreFails(s, w, false))
  {
    var t, n := AfterStoreFails(s, w, false), Canonical(s.nextKey);
    assert KeyInv(s, n) && WorkerInv(s, w);
    forall k ensures Pending(t, k) <==> Pending(s, k) {
      if Pending(s, k) { assert KeyInv(s, k); }
    }
    forall k | Free(s, k) ensures Free(t, k) {}
    WorkerObligations(s, t);
    forall k ensures DeletionInv(t, k) { assert DeletionInv(s, k); }
    forall i ensures SourceInv(t, i) { assert SourceInv(s, i); }
    forall v ensures WorkerInv(t, v) { assert WorkerInv(s, v); if v in s.workers { forall k | k in PendingOf(s.workers[v]) ensures k != n { assert KeyInv(s, k); } } }
    forall k ensures KeyInv(t, k) { assert KeyInv(s, k); }
  }

  lemma CompleteKeepsObjects(s: State, w: nat)
    requires HasStored(s, w) && HasLease(s, w) && ObjectsInv(s) && HistoryInv(s)
    ensures ObjectsInv(GotoWorker(Inserted(s, w), w, Returned))
  {
    var t, j := GotoWorker(Inserted(s, w), w, Returned), s.workers[w].job;
    assert WorkerInv(s, w) && SourceInv(s, j) && JobInv(s, j);
    assert t.insertions[|s.insertions|] == Insertion(j, w);
    forall i | InsertedFor(s, i) ensures InsertedFor(t, i) {
      var n :| 0 <= n < |s.insertions| && s.insertions[n].job == i;
      assert t.insertions[n].job == i;
    }
    forall k ensures Pending(t, k) <==> Pending(s, k) && s.writers[k] != w {}
    forall k ensures Live(t, k) <==> Live(s, k) || k in s.workers[w].keys {}
    forall k | Free(s, k) ensures Free(t, k) {
      if k in s.workers[w].keys { assert Pending(s, k); }
    }
    WorkerObligations(s, t);
    forall k ensures DeletionInv(t, k) { assert DeletionInv(s, k); }
    forall i ensures SourceInv(t, i) { assert SourceInv(s, i); }
    forall v ensures WorkerInv(t, v) {
      assert WorkerInv(s, v);
      if v in s.workers && v != w { forall k | k in PendingOf(s.workers[v]) ensures k !in s.workers[w].keys {} }
    }
    forall k ensures KeyInv(t, k) { assert KeyInv(s, k); }
  }

  lemma CleanUpKeepsObjects(s: State, w: nat, gone: bool, queued: bool)
    requires CanClean(s, w) && ObjectsInv(s) && (gone || queued)
    ensures ObjectsInv(AfterCleanUp(s, w, gone, queued))
  {
    hide Enqueued;
    var t, d := AfterCleanUp(s, w, gone, queued), s.workers[w].pc.todo[0];
    assert WorkerInv(s, w) && KeyInv(s, d);
    forall k ensures Pending(t, k) <==> Pending(s, k) && k != d {}
    forall k | Free(s, k) ensures Free(t, k) {}
    WorkerObligations(s, t);
    assert Free(t, d) && !Live(s, d);
    forall k ensures DeletionInv(t, k) { assert DeletionInv(s, k); }
    forall i ensures SourceInv(t, i) { assert SourceInv(s, i); }
    forall v ensures WorkerInv(t, v) { assert WorkerInv(s, v); if v in s.workers && v != w { forall k | k in PendingOf(s.workers[v]) ensures k != d {} } }
    forall k ensures KeyInv(t, k) { assert KeyInv(s, k); }
  }

  lemma FailKeepsObjects(s: State, w: nat)
    requires HasLease(s, w) && ObjectsInv(s) && HistoryInv(s)
    ensures ObjectsInv(s.(db := FailedJob(s.db, s.workers[w].job)))
  {
    hide Enqueued;
    var j := s.workers[w].job;
    var t := s.(db := FailedJob(s.db, j));
    assert SourceInv(s, j) && JobInv(s, j);
    forall k ensures Pending(t, k) <==> Pending(s, k) {}
    forall k | Free(s, k) ensures Free(t, k) {}
    WorkerObligations(s, t);
    forall k ensures DeletionInv(t, k) { assert DeletionInv(s, k); }
    forall i ensures SourceInv(t, i) { assert SourceInv(s, i); }
    forall v ensures WorkerInv(t, v) { assert WorkerInv(s, v); }
    forall k ensures KeyInv(t, k) { assert KeyInv(s, k); }
  }

  lemma WorkerKeepsObjects(s: State, w: nat, op: WorkerOp)
    requires WorkerEnabled(s, w, op) && ObjectsInv(s) && HistoryInv(s) && Assumed(Working(w, op))
    ensures ObjectsInv(WorkerStep(s, w, op))
  {
    hide ObjectsInv, HistoryInv, AfterStore, AfterStoreFails, AfterCleanUp, Inserted, FailedJob;
    match op
    case Claim(_) => ClaimKeepsObjects(s, w, op);
    case Prepare => assert s.workers[w].keys == [] by { StartedHasNone(s, w); } MoveKeepsObjects(s, w, Storing);
    case PrepareFails => MoveKeepsObjects(s, w, Failing);
    case Store => StoreKeepsObjects(s, w);
    case StoreFails(_) => StoreFailsKeepsObjects(s, w);
    case Complete => CompleteKeepsObjects(s, w);
    case LoseLease => MoveKeepsObjects(s, w, Cleaning(s.workers[w].keys, false));
    case CompleteFails(_) => MoveKeepsObjects(s, w, Cleaning(s.workers[w].keys, true));
    case CleanUp => CleanUpKeepsObjects(s, w, true, false);
    case CleanUpFails(deleted, _) => CleanUpKeepsObjects(s, w, deleted, true);
    case FinishCleanUp => MoveKeepsObjects(s, w, if s.workers[w].pc.thenFail then Failing else Returned);
    case Fail =>
      if HasLease(s, w) {
        FailKeepsObjects(s, w);
        MoveKeepsObjects(s.(db := FailedJob(s.db, s.workers[w].job)), w, Returned);
      } else {
        MoveKeepsObjects(s, w, Returned);
      }
    case FailFails => MoveKeepsObjects(s, w, Returned);
  }

  lemma StartedHasNone(s: State, w: nat)
    requires ObjectsInv(s) && WorkerAt(s, w, Started)
    ensures s.workers[w].keys == []
  {
    assert WorkerInv(s, w);
  }

  // ---- Cleanup ----

  /** Job rows change, but no job is dropped unfinished or revived. */
  lemma JobsKeepObjects(s: State, t: State)
    requires ObjectsInv(s) && t == s.(db := s.db.(jobs := t.db.jobs), now := t.now)
    requires t.db.jobs.Keys <= s.db.jobs.Keys
    requires forall j :: j in s.db.jobs && !Terminal(s.db.jobs[j]) ==> j in t.db.jobs && !Terminal(t.db.jobs[j])
    requires forall j :: j in t.db.jobs ==> (Terminal(t.db.jobs[j]) <==> Terminal(s.db.jobs[j]))
    ensures ObjectsInv(t)
  {
    forall k ensures Pending(t, k) <==> Pending(s, k) {}
    forall k | Free(s, k) ensures Free(t, k) {}
    WorkerObligations(s, t);
    forall k ensures DeletionInv(t, k) { assert DeletionInv(s, k); }
    forall i ensures SourceInv(t, i) { assert SourceInv(s, i); }
    forall v ensures WorkerInv(t, v) { assert WorkerInv(s, v); }
    forall k ensures KeyInv(t, k) { assert KeyInv(s, k); }
  }

  lemma AbandonKeepsObjects(s: State, op: CleanupOp)
    requires CleanupEnabled(s, op) && op.Abandon? && ObjectsInv(s) && HistoryInv(s)
    ensures ObjectsInv(CleanupStep(s, op))
  {
    hide EnqueuedAll;
    var t, items := CleanupStep(s, op), op.items;
    forall k ensures k in QuarantineKeys(items) <==> k.Quarantine? && k.job in items {
      if k.Quarantine? && k.job in items {
        var i :| 0 <= i < |items| && items[i] == k.job;
        assert QuarantineKeys(items)[i] == k;
      }
    }
    forall k ensures Pending(t, k) <==> Pending(s, k) {}
    forall k | Free(s, k) ensures Free(t, k) {}
    forall d ensures DrainInv(t, d) { assert DrainInv(s, d); }
    forall j | j in items ensures Settled(t, j) { assert JobInv(s, j); }
    forall w ensures SweepInv(t, w) { assert SweepInv(s, w); }
    forall k ensures DeletionInv(t, k) { assert DeletionInv(s, k); }
    forall i ensures SourceInv(t, i) { assert SourceInv(s, i); }
    forall v ensures WorkerInv(t, v) { assert WorkerInv(s, v); }
    forall k ensures KeyInv(t, k) { assert KeyInv(s, k); }
  }

  lemma RetireKeepsObjects(s: State, k: Key)
    requires ObjectsInv(s)
    ensures ObjectsInv(s.(db := Retired(s.db, k)))
  {
    hide Enqueued;
    var t := s.(db := Retired(s.db, k));
    if Live(s, k) { RecordedIsNotPending(s, k); }
    assert KeyInv(s, k);
    forall d ensures Pending(t, d) <==> Pending(s, d) {}
    forall d | Free(s, d) ensures Free(t, d) {}
    WorkerObligations(s, t);
    forall d ensures DeletionInv(t, d) { assert DeletionInv(s, d); }
    forall i ensures SourceInv(t, i) { assert SourceInv(s, i); }
    forall v ensures WorkerInv(t, v) { assert WorkerInv(s, v); }
    forall d ensures KeyInv(t, d) { assert KeyInv(s, d); }
  }

  lemma SweepKeepsObjects(s: State, w: nat, gone: bool, queued: bool)
    requires w in s.sweeps && s.sweeps[w] != [] && ObjectsInv(s)
    ensures var k := s.sweeps[w][0];
            ObjectsInv(s.(sweeps := s.sweeps[w := s.sweeps[w][1..]], objects := MaybeDeleted(s.objects, k, gone), db := MaybeEnqueued(s.db, k, queued)))
  {
    hide Enqueued;
    var k := s.sweeps[w][0];
    var t := s.(sweeps := s.sweeps[w := s.sweeps[w][1..]], objects := MaybeDeleted(s.objects, k, gone), db := MaybeEnqueued(s.db, k, queued));
    assert SweepInv(s, w) && k in s.sweeps[w];
    assert k.Quarantine? && Free(s, k) && SourceInv(s, k.job);
    forall d ensures Pending(t, d) <==> Pending(s, d) {}
    forall d | Free(s, d) ensures Free(t, d) {}
    forall d ensures DrainInv(t, d) { assert DrainInv(s, d); }
    forall v ensures SweepInv(t, v) { assert SweepInv(s, v); }
    forall d ensures DeletionInv(t, d) { assert DeletionInv(s, d); }
    forall i ensures SourceInv(t, i) { assert SourceInv(s, i); }
    forall v ensures WorkerInv(t, v) { assert WorkerInv(s, v); forall d | v in s.workers && d in PendingOf(s.workers[v]) ensures d.Canonical? { assert KeyInv(s, d); } }
    forall d ensures KeyInv(t, d) { assert KeyInv(s, d); }
  }

  lemma CleanupKeepsObjects(s: State, op: CleanupOp)
    requires CleanupEnabled(s, op) && ObjectsInv(s) && HistoryInv(s)
    ensures ObjectsInv(CleanupStep(s, op))
  {
    hide ObjectsInv, HistoryInv, ListsAbandoned, Retired, Abandoned, Enqueued;
    match op
    case Tick(_) => JobsKeepObjects(s, CleanupStep(s, op));
    case Requeue => JobsKeepObjects(s, CleanupStep(s, op));
    case Purge => JobsKeepObjects(s, CleanupStep(s, op));
    case Abandon(_, _) => AbandonKeepsObjects(s, op);
    case Retire(k) => RetireKeepsObjects(s, k);
    case Sweep(w) =>
      SweepKeepsObjects(s, w, true, false);
    case SweepFails(w, deleted, queued) => SweepKeepsObjects(s, w, deleted, queued);
  }

  // ---- The deletion queue ----

  /** An obligation's key is not referenced, so the check always leads to a delete. */
  lemma DrainKeepsObjects(s: State, d: nat, op: DrainOp)
    requires DrainEnabled(s, d, op) && ObjectsInv(s)
    ensures ObjectsInv(DrainStep(s, d, op))
  {
    var t := DrainStep(s, d, op);
    if op.Take? { assert DeletionInv(s, op.key); } else { assert DrainInv(s, d); }
    var key := if op.Take? then op.key else s.drains[d].key;
    assert Free(s, key);
    assert SourceInv(s, if key.Quarantine? then key.job else 0) && KeyInv(s, key);
    forall k ensures Pending(t, k) <==> Pending(s, k) {}
    forall k | Free(s, k) ensures Free(t, k) {}
    forall c ensures DrainInv(t, c) { assert DrainInv(s, c); }
    forall v ensures SweepInv(t, v) { assert SweepInv(s, v); }
    forall k ensures DeletionInv(t, k) { assert DeletionInv(s, k); }
    forall i ensures SourceInv(t, i) { assert SourceInv(s, i); }
    forall v ensures WorkerInv(t, v) { assert WorkerInv(s, v); if v in s.workers { forall k | k in PendingOf(s.workers[v]) ensures k != key { assert KeyInv(s, k); } } }
    forall k ensures KeyInv(t, k) { assert KeyInv(s, k); }
  }

  // ---- Runs ----

  lemma StepKeepsObjects(s: State, a: Action)
    requires Enabled(s, a) && Assumed(a) && ObjectsInv(s) && HistoryInv(s)
    ensures ObjectsInv(Step(s, a)) && HistoryInv(Step(s, a))
  {
    hide ObjectsInv, HistoryInv, UploadStep, WorkerStep, CleanupStep, DrainStep;
    StepKeepsHistory(s, a);
    match a
    case Uploading(j, op) => UploadKeepsObjects(s, j, op);
    case Working(w, op) => WorkerKeepsObjects(s, w, op);
    case Cleanup(op) => CleanupKeepsObjects(s, op);
    case Draining(d, op) => DrainKeepsObjects(s, d, op);
  }

  ghost predicate AssumedRun(actions: seq<Action>) {
    forall a :: a in actions ==> Assumed(a)
  }

  lemma {:induction false} RunKeepsObjects(s: State, actions: seq<Action>)
    requires CanRun(s, actions) && AssumedRun(actions) && ObjectsInv(s) && HistoryInv(s)
    ensures ObjectsInv(Run(s, actions)) && HistoryInv(Run(s, actions))
    decreases |actions|
  {
    hide Step, ObjectsInv, HistoryInv, Assumed;
    if actions != [] {
      assert actions[0] in actions && forall a :: a in actions[1..] ==> a in actions;
      StepKeepsObjects(s, actions[0]);
      RunKeepsObjects(Step(s, actions[0]), actions[1..]);
    }
  }

  ghost predicate ReachableAsAssumed(s: State) {
    exists actions :: CanRun(INIT, actions) && AssumedRun(actions) && s == Run(INIT, actions)
  }

  lemma ReachableObjects(s: State)
    requires ReachableAsAssumed(s)
    ensures ObjectsInv(s) && HistoryInv(s)
  {
    var actions :| CanRun(INIT, actions) && AssumedRun(actions) && s == Run(INIT, actions);
    RunKeepsObjects(INIT, actions);
  }

  /** When a worker is done, every canonical object it wrote is referred to by a record
      whose job is ready (or was, before its row was purged), or is gone, or has an active
      deletion job. */
  lemma WorkerLeavesNothing(s: State, w: nat, k: Key)
    requires ReachableAsAssumed(s) && WorkerAt(s, w, Returned) && k in s.writers && s.writers[k] == w
    ensures Live(s, k) || k !in s.objects || k in s.db.deletions
    ensures Live(s, k) ==> var j := s.db.records[k].job; k in s.objects && (j in s.db.jobs ==> s.db.jobs[j].status == Ready)
  {
    ReachableObjects(s);
    assert KeyInv(s, k);
    if Live(s, k) { assert JobInv(s, s.db.records[k].job); }
  }

  /** Every stored object is owned: a raw one by its upload, its job or a deletion job, a
      canonical one by a worker still at work, a live record or a deletion job. And every
      live record has its object. */
  lemma NothingLeaks(s: State, k: Key)
    requires ReachableAsAssumed(s)
    ensures k in s.objects ==>
              match k
              case Quarantine(j) => j in s.uploads && (s.uploads[j] in {Recording, Undoing} || (j in s.db.jobs && !Terminal(s.db.jobs[j])) || k in s.db.deletions)
              case Canonical(_) => Pending(s, k) || Live(s, k) || k in s.db.deletions
    ensures Live(s, k) ==> k in s.objects && k !in s.db.deletions
  {
    ReachableObjects(s);
    assert KeyInv(s, k) && DeletionInv(s, k);
    if k.Quarantine? { assert SourceInv(s, k.job); }
  }
}
