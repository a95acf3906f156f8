/** The raw objects of uploads: what becomes of them in every run, whatever fails and
    whatever a failed call did all the same. A queued or processing job has its raw object
    if and only if its own upload did not compensate for a job that exists; once the job
    has finished, the raw object is gone or has an active deletion job. */
module MediaSources {
  import opened Ordering
  import opened MediaJobs
  import opened MediaProcessing

  predicate Unfinished(db: Db, j: nat) {
    j in db.jobs && !Terminal(db.jobs[j])
  }

  /** The upload has recorded its job, or has given up on it. */
  predicate Recorded(s: State, j: nat) {
    j in s.uploads && s.uploads[j] in {Undoing, Finished}
  }

  /** Nothing needs the raw object of upload `j` any more. */
  predicate Settled(s: State, j: nat) {
    Recorded(s, j) && !Unfinished(s.db, j)
  }

  // ---- What every step keeps, in every run ----

  ghost predicate RawUpload(s: State, j: nat) {
    UploadAt(s, j, Recording) ==> Quarantine(j) in s.objects
  }

  ghost predicate RawDeletion(s: State, j: nat) {
    Quarantine(j) in s.db.deletions ==> Recorded(s, j)
  }

  /** A drain gets to its delete only if its key was not referenced. */
  ghost predicate RawDrain(s: State, d: nat) {
    d in s.drains && s.drains[d].key.Quarantine? ==>
      var j := s.drains[d].key.job;
      Recorded(s, j) && (s.drains[d].pc == Erasing ==> Settled(s, j))
  }

  ghost predicate RawSweep(s: State, w: nat) {
    w in s.sweeps ==> forall k :: k in s.sweeps[w] ==> k.Quarantine? && Settled(s, k.job)
  }

  ghost predicate AllCanonical(keys: seq<Key>) {
    forall k :: k in keys ==> k.Canonical?
  }

  /** Workers write, and records refer to, canonical objects only. */
  ghost predicate CanonicalWorker(s: State, w: nat) {
    w in s.workers ==> AllCanonical(s.workers[w].keys) && (s.workers[w].pc.Cleaning? ==> AllCanonical(s.workers[w].pc.todo))
  }

  ghost predicate CanonicalInv(s: State) {
    (forall w :: CanonicalWorker(s, w)) && (forall k :: k in s.db.records ==> k.Canonical?)
  }

  ghost predicate RawInv(s: State) {
    && CanonicalInv(s)
    && (forall j :: RawUpload(s, j)) && (forall j :: RawDeletion(s, j))
    && (forall d :: RawDrain(s, d)) && (forall w :: RawSweep(s, w))
  }

  /** What is recorded or settled stays so, and deletions of raw objects concern uploads
      that have recorded. */
  ghost predicate KeepsRaw(s: State, t: State) {
    && (forall j :: Recorded(s, j) ==> Recorded(t, j))
    && (forall j :: Settled(s, j) ==> Settled(t, j))
    && (forall j :: Quarantine(j) in t.db.deletions ==> Quarantine(j) in s.db.deletions || Recorded(t, j))
  }

  lemma ObligationsKept(s: State, t: State)
    requires RawInv(s) && KeepsRaw(s, t) && t.drains == s.drains
    ensures (forall j :: RawDeletion(t, j)) && (forall d :: RawDrain(t, d))
  {
    forall j ensures RawDeletion(t, j) { assert RawDeletion(s, j); }
    forall d ensures RawDrain(t, d) { assert RawDrain(s, d); }
  }

  lemma SweepsKept(s: State, t: State)
    requires RawInv(s) && KeepsRaw(s, t) && t.sweeps == s.sweeps
    ensures forall w :: RawSweep(t, w)
  {
    forall w ensures RawSweep(t, w) { assert RawSweep(s, w); }
  }

  lemma UploadKeepsRaw(s: State, j: nat, op: UploadOp)
    requires UploadEnabled(s, j, op) && HistoryInv(s)
    ensures KeepsRaw(s, UploadStep(s, j, op))
  {
    hide Enqueued;
    assert JobInv(s, j);
  }

  lemma UploadKeepsRawInv(s: State, j: nat, op: UploadOp)
    requires UploadEnabled(s, j, op) && HistoryInv(s) && RawInv(s)
    ensures RawInv(UploadStep(s, j, op))
  {
    hide Enqueued, KeepsRaw, RawDrain, RawSweep, RawDeletion, HistoryInv;
    var t := UploadStep(s, j, op);
    UploadKeepsRaw(s, j, op);
    ObligationsKept(s, t);
    SweepsKept(s, t);
    forall w ensures CanonicalWorker(t, w) { assert CanonicalWorker(s, w); }
    forall i ensures RawUpload(t, i) { assert RawUpload(s, i); }
  }

  lemma WorkerKeepsCanonical(s: State, w: nat, op: WorkerOp)
    requires WorkerEnabled(s, w, op) && CanonicalInv(s)
    ensures CanonicalInv(WorkerStep(s, w, op))
    ensures forall j :: Quarantine(j) in WorkerStep(s, w, op).objects <==> Quarantine(j) in s.objects
  {
    hide Enqueued;
    var t := WorkerStep(s, w, op);
    WorkerLeavesRaw(s, w, op);
    assert CanonicalWorker(s, w);
    forall k | k in t.db.records ensures k.Canonical? {}
    hide Completed, FailedJob, Claimed;
    if CanClean(s, w) {
      var todo := s.workers[w].pc.todo;
      assert todo == [todo[0]] + todo[1..];
    }
    forall v ensures CanonicalWorker(t, v) { assert CanonicalWorker(s, v); }
  }

  lemma WorkerLeavesRaw(s: State, w: nat, op: WorkerOp)
    requires WorkerEnabled(s, w, op) && CanonicalWorker(s, w)
    ensures forall j :: Quarantine(j) in WorkerStep(s, w, op).objects <==> Quarantine(j) in s.objects
  {
    hide Enqueued, Completed, FailedJob, Claimed;
    assert CanClean(s, w) ==> s.workers[w].pc.todo[0] in s.workers[w].pc.todo;
  }

  lemma WorkerKeepsRaw(s: State, w: nat, op: WorkerOp)
    requires WorkerEnabled(s, w, op) && HistoryInv(s) && CanonicalInv(s)
    ensures KeepsRaw(s, WorkerStep(s, w, op))
  {
    hide Enqueued, RecordsOf;
    assert CanonicalWorker(s, w) && (CanClean(s, w) ==> s.workers[w].pc.todo[0] in s.workers[w].pc.todo);
    if w in s.workers { assert JobInv(s, s.workers[w].job); }
  }

  lemma WorkerKeepsRawInv(s: State, w: nat, op: WorkerOp)
    requires WorkerEnabled(s, w, op) && HistoryInv(s) && RawInv(s)
    ensures RawInv(WorkerStep(s, w, op))
  {
    hide Enqueued, RecordsOf, KeepsRaw, RawDrain, RawSweep, RawDeletion, HistoryInv, CanonicalInv;
    var t := WorkerStep(s, w, op);
    WorkerKeepsCanonical(s, w, op);
    WorkerKeepsRaw(s, w, op);
    ObligationsKept(s, t);
    SweepsKept(s, t);
    forall i ensures RawUpload(t, i) { assert RawUpload(s, i); }
  }

  lemma AbandonedKeys(items: seq<nat>, j: nat)
    ensures Quarantine(j) in QuarantineKeys(items) <==> j in items
  {
    if j in items {
      var i :| 0 <= i < |items| && items[i] == j;
      assert QuarantineKeys(items)[i] == Quarantine(j);
    }
  }

  lemma CleanupKeepsRaw(s: State, op: CleanupOp)
    requires CleanupEnabled(s, op) && HistoryInv(s) && RawInv(s)
    ensures KeepsRaw(s, CleanupStep(s, op))
  {
    hide Enqueued, EnqueuedAll;
    var t := CleanupStep(s, op);
    forall j | Quarantine(j) in t.db.deletions ensures Quarantine(j) in s.db.deletions || Recorded(t, j) {
      assert JobInv(s, j);
      if op.Abandon? && Quarantine(j) !in s.db.deletions { AbandonedKeys(op.items, j); }
      if op.SweepFails? { assert RawSweep(s, op.sweep) && s.sweeps[op.sweep][0] in s.sweeps[op.sweep]; }
    }
  }

  lemma CleanupKeepsSweeps(s: State, op: CleanupOp, w: nat)
    requires CleanupEnabled(s, op) && HistoryInv(s) && RawInv(s) && KeepsRaw(s, CleanupStep(s, op))
    ensures RawSweep(CleanupStep(s, op), w)
  {
    hide Enqueued, EnqueuedAll;
    var t := CleanupStep(s, op);
    assert RawSweep(s, w);
    if op.Abandon? && w == op.sweep {
      forall j | j in op.items ensures Settled(t, j) { assert JobInv(s, j); }
    }
  }

  lemma CleanupKeepsRawInv(s: State, op: CleanupOp)
    requires CleanupEnabled(s, op) && HistoryInv(s) && RawInv(s)
    ensures RawInv(CleanupStep(s, op))
  {
    var t := CleanupStep(s, op);
    CleanupKeepsRaw(s, op);
    forall w ensures RawSweep(t, w) { CleanupKeepsSweeps(s, op, w); }
    hide Enqueued, EnqueuedAll, KeepsRaw, RawDrain, RawDeletion, HistoryInv, ListsAbandoned;
    ObligationsKept(s, t);
    forall w ensures CanonicalWorker(t, w) { assert CanonicalWorker(s, w); }
    forall i ensures RawUpload(t, i) {
      assert RawUpload(s, i);
      if (op.Sweep? || op.SweepFails?) { assert RawSweep(s, op.sweep) && s.sweeps[op.sweep][0] in s.sweeps[op.sweep]; }
    }
  }

  lemma DrainKeepsRawInv(s: State, d: nat, op: DrainOp)
    requires DrainEnabled(s, d, op) && HistoryInv(s) && RawInv(s)
    ensures RawInv(DrainStep(s, d, op))
  {
    var t := DrainStep(s, d, op);
    hide HistoryInv;
    assert KeepsRaw(s, t);
    SweepsKept(s, t);
    forall w ensures CanonicalWorker(t, w) { assert CanonicalWorker(s, w); }
    forall j ensures RawDeletion(t, j) { assert RawDeletion(s, j); }
    forall c ensures RawDrain(t, c) {
      assert RawDrain(s, c);
      if op.Take? && op.key.Quarantine? { assert RawDeletion(s, op.key.job); }
    }
    forall i ensures RawUpload(t, i) { assert RawUpload(s, i) && RawDrain(s, d); }
  }

  lemma StepKeepsRawInv(s: State, a: Action)
    requires Enabled(s, a) && HistoryInv(s) && RawInv(s)
    ensures HistoryInv(Step(s, a)) && RawInv(Step(s, a))
  {
    hide RawInv, HistoryInv, UploadStep, WorkerStep, CleanupStep, DrainStep;
    StepKeepsHistory(s, a);
    match a
    case Uploading(j, op) => UploadKeepsRawInv(s, j, op);
    case Working(w, op) => WorkerKeepsRawInv(s, w, op);
    case Cleanup(op) => CleanupKeepsRawInv(s, op);
    case Draining(d, op) => DrainKeepsRawInv(s, d, op);
  }

  lemma {:induction false} RunKeepsRawInv(s: State, actions: seq<Action>)
    requires CanRun(s, actions) && HistoryInv(s) && RawInv(s)
    ensures HistoryInv(Run(s, actions)) && RawInv(Run(s, actions))
    decreases |actions|
  {
    hide Step, HistoryInv, RawInv;
    if actions != [] {
      StepKeepsRawInv(s, actions[0]);
      RunKeepsRawInv(Step(s, actions[0]), actions[1..]);
    }
  }

  lemma ReachableRaw(s: State)
    requires Reachable(s)
    ensures HistoryInv(s) && RawInv(s)
  {
    var actions :| CanRun(INIT, actions) && s == Run(INIT, actions);
    RunKeepsRawInv(INIT, actions);
  }

  // ---- An unfinished job has its raw object, unless its own upload compensates ----

  ghost predicate SourcesKept(s: State) {
    forall j :: Unfinished(s.db, j) ==> Quarantine(j) in s.objects
  }

  /** Compensation deletes the raw object of a job that is queued or processing, because
      recording it reported an error and had committed. */
  predicate CompensatesForJob(s: State, a: Action) {
    a.Uploading? && UploadAt(s, a.job, Undoing) && Unfinished(s.db, a.job) && (a.upload == Undo || (a.upload.UndoFails? && a.upload.deleted))
  }

  lemma UploadKeepsSources(s: State, j: nat, op: UploadOp)
    requires UploadEnabled(s, j, op) && RawInv(s) && SourcesKept(s)
    ensures SourcesKept(UploadStep(s, j, op)) <==> !CompensatesForJob(s, Uploading(j, op))
  {
    hide Enqueued, RawDrain, RawSweep, RawDeletion, CanonicalInv;
    assert RawUpload(s, j);
    var t := UploadStep(s, j, op);
    if CompensatesForJob(s, Uploading(j, op)) { assert Unfinished(t.db, j) && Quarantine(j) !in t.objects; }
  }

  lemma WorkerKeepsSources(s: State, w: nat, op: WorkerOp)
    requires WorkerEnabled(s, w, op) && CanonicalInv(s) && SourcesKept(s)
    ensures SourcesKept(WorkerStep(s, w, op))
  {
    WorkerKeepsCanonical(s, w, op);
    hide Enqueued, RecordsOf, CanonicalInv;
  }

  lemma CleanupKeepsSources(s: State, op: CleanupOp)
    requires CleanupEnabled(s, op) && RawInv(s) && SourcesKept(s)
    ensures SourcesKept(CleanupStep(s, op))
  {
    hide Enqueued, EnqueuedAll, RawDrain, RawDeletion, CanonicalInv, ListsAbandoned;
    if (op.Sweep? || op.SweepFails?) { assert RawSweep(s, op.sweep) && s.sweeps[op.sweep][0] in s.sweeps[op.sweep]; }
  }

  lemma DrainKeepsSources(s: State, d: nat, op: DrainOp)
    requires DrainEnabled(s, d, op) && RawInv(s) && SourcesKept(s)
    ensures SourcesKept(DrainStep(s, d, op))
  {
    if !op.Take? { assert RawDrain(s, d); }
  }

  lemma StepKeepsSourcesIff(s: State, a: Action)
    requires Enabled(s, a) && RawInv(s) && SourcesKept(s)
    ensures SourcesKept(Step(s, a)) <==> !CompensatesForJob(s, a)
  {
    hide RawInv, SourcesKept, CompensatesForJob, UploadStep, WorkerStep, CleanupStep, DrainStep;
    match a
    case Uploading(j, op) => UploadKeepsSources(s, j, op);
    case Working(w, op) => CanonicalOf(s); WorkerKeepsSources(s, w, op); OnlyUploadsCompensate(s, a);
    case Cleanup(op) => CleanupKeepsSources(s, op); OnlyUploadsCompensate(s, a);
    case Draining(d, op) => DrainKeepsSources(s, d, op); OnlyUploadsCompensate(s, a);
  }

  lemma OnlyUploadsCompensate(s: State, a: Action)
    ensures CompensatesForJob(s, a) ==> a.Uploading?
  {
  }

  lemma CanonicalOf(s: State)
    requires RawInv(s)
    ensures CanonicalInv(s)
  {
  }

  ghost predicate KeptThroughout(s: State, actions: seq<Action>)
    requires CanRun(s, actions)
    decreases |actions|
  {
    SourcesKept(s) && (actions == [] || KeptThroughout(Step(s, actions[0]), actions[1..]))
  }

  ghost predicate CompensatesForNoJob(s: State, actions: seq<Action>)
    requires CanRun(s, actions)
    decreases |actions|
  {
    actions == [] || (!CompensatesForJob(s, actions[0]) && CompensatesForNoJob(Step(s, actions[0]), actions[1..]))
  }

  lemma {:induction false} RunKeepsSourcesIff(s: State, actions: seq<Action>)
    requires CanRun(s, actions) && HistoryInv(s) && RawInv(s) && SourcesKept(s)
    ensures KeptThroughout(s, actions) <==> CompensatesForNoJob(s, actions)
    decreases |actions|
  {
    hide Step, HistoryInv, RawInv, SourcesKept, CompensatesForJob;
    if actions != [] {
      StepKeepsRawInv(s, actions[0]);
      StepKeepsSourcesIff(s, actions[0]);
      if SourcesKept(Step(s, actions[0])) { RunKeepsSourcesIff(Step(s, actions[0]), actions[1..]); }
    }
  }

  /** Of any run, whatever fails in it: every queued or processing job has its raw object
      at every point if and only if no compensation deletes while the job of its own
      upload is queued or processing. Sweeps, drains and stale workers never do harm. */
  lemma SourcesKeptIff(actions: seq<Action>)
    requires CanRun(INIT, actions)
    ensures KeptThroughout(INIT, actions) <==> CompensatesForNoJob(INIT, actions)
  {
    RunKeepsSourcesIff(INIT, actions);
  }

  /** The same seen from recording: compensation straight after a failure leaves every
      unfinished job its raw object if and only if there is no job row, that is, if the
      failure committed nothing. */
  lemma CompensationSafeIffNoJob(s: State, j: nat, targets: nat, committed: bool)
    requires Reachable(s) && SourcesKept(s) && UploadAt(s, j, Recording)
    ensures var t := UploadStep(s, j, RecordFails(targets, committed));
            && (SourcesKept(UploadStep(t, j, Undo)) <==> j !in t.db.jobs)
            && (j !in t.db.jobs <==> !committed)
  {
    ReachableRaw(s);
    assert JobInv(s, j);
    var t := UploadStep(s, j, RecordFails(targets, committed));
    UploadKeepsRawInv(s, j, RecordFails(targets, committed));
    UploadKeepsSources(s, j, RecordFails(targets, committed));
    UploadKeepsSources(t, j, Undo);
  }

  // ---- Once the job has finished ----

  predicate Covered(s: State, j: nat) {
    Quarantine(j) !in s.objects || Quarantine(j) in s.db.deletions
  }

  /** Compensation, direct or queued, for a job that is queued or processing. */
  predicate MistakesJob(s: State, a: Action) {
    a.Uploading? && Unfinished(s.db, a.job) && (a.upload == Undo || (a.upload.UndoFails? && (a.upload.deleted || a.upload.queued)))
  }

  ghost predicate DueDeletion(s: State, j: nat) {
    Quarantine(j) in s.db.deletions ==> Settled(s, j)
  }

  ghost predicate DueDrain(s: State, d: nat) {
    d in s.drains && s.drains[d].key.Quarantine? ==>
      Settled(s, s.drains[d].key.job) && (s.drains[d].pc == Completing ==> s.drains[d].key !in s.objects)
  }

  ghost predicate CoveredJob(s: State, j: nat) {
    && (Unfinished(s.db, j) ==> Quarantine(j) in s.objects)
    && (j in s.db.jobs && Terminal(s.db.jobs[j]) ==> Covered(s, j))
  }

  ghost predicate CoverInv(s: State) {
    (forall j :: DueDeletion(s, j)) && (forall d :: DueDrain(s, d)) && (forall j :: CoveredJob(s, j))
  }

  lemma UploadKeepsCover(s: State, j: nat, op: UploadOp)
    requires UploadEnabled(s, j, op) && HistoryInv(s) && RawInv(s) && CoverInv(s) && !MistakesJob(s, Uploading(j, op))
    ensures CoverInv(UploadStep(s, j, op))
  {
    var t := UploadStep(s, j, op);
    UploadKeepsRaw(s, j, op);
    assert JobInv(s, j) && RawUpload(s, j) && CoveredJob(s, j);
    hide Enqueued, RawInv, HistoryInv;
    forall i ensures DueDeletion(t, i) { assert DueDeletion(s, i); }
    forall d ensures DueDrain(t, d) { assert DueDrain(s, d); }
    forall i ensures CoveredJob(t, i) { assert CoveredJob(s, i); }
  }

  lemma WorkerKeepsCover(s: State, w: nat, op: WorkerOp)
    requires WorkerEnabled(s, w, op) && HistoryInv(s) && RawInv(s) && CoverInv(s)
    ensures CoverInv(WorkerStep(s, w, op))
  {
    WorkerKeepsRaw(s, w, op);
    WorkerKeepsCanonical(s, w, op);
    WorkerQueues(s, w, op);
    WorkerKeepsJobs(s, w, op);
    hide RawInv, HistoryInv, CoverInv, KeepsRaw;
    assert WorkerStep(s, w, op).drains == s.drains by { hide Enqueued, RecordsOf; }
    hide WorkerStep, WorkerEnabled;
    FinishingKeepsCover(s, WorkerStep(s, w, op));
  }

  lemma WorkerKeepsJobs(s: State, w: nat, op: WorkerOp)
    requires WorkerEnabled(s, w, op)
    ensures var t := WorkerStep(s, w, op);
            t.db.jobs.Keys == s.db.jobs.Keys && forall j :: Unfinished(t.db, j) ==> Unfinished(s.db, j)
  {
    hide Enqueued, RecordsOf;
  }

  /** A step that deletes no raw object and queues those of the jobs that it finishes. */
  lemma FinishingKeepsCover(s: State, t: State)
    requires CoverInv(s) && KeepsRaw(s, t) && t.drains == s.drains && t.db.jobs.Keys == s.db.jobs.Keys
    requires forall j :: Unfinished(t.db, j) ==> Unfinished(s.db, j)
    requires forall j :: Quarantine(j) in t.objects <==> Quarantine(j) in s.objects
    requires forall j :: Quarantine(j) in t.db.deletions <==>
                         Quarantine(j) in s.db.deletions || (Unfinished(s.db, j) && j in t.db.jobs && Terminal(t.db.jobs[j]))
    ensures CoverInv(t)
  {
    forall i ensures DueDeletion(t, i) { assert DueDeletion(s, i); }
    forall d ensures DueDrain(t, d) { assert DueDrain(s, d); }
    forall i ensures CoveredJob(t, i) { assert CoveredJob(s, i); }
  }

  /** A worker queues the raw object of a job only when it finishes the job, and always then. */
  lemma WorkerQueues(s: State, w: nat, op: WorkerOp)
    requires WorkerEnabled(s, w, op) && CanonicalInv(s)
    ensures var t := WorkerStep(s, w, op);
            forall j :: Quarantine(j) in t.db.deletions <==>
                        Quarantine(j) in s.db.deletions || (Unfinished(s.db, j) && j in t.db.jobs && Terminal(t.db.jobs[j]))
  {
    hide Enqueued, RecordsOf;
    assert CanonicalWorker(s, w) && (CanClean(s, w) ==> s.workers[w].pc.todo[0] in s.workers[w].pc.todo);
  }

  /** So does the cleanup. */
  lemma CleanupQueues(s: State, op: CleanupOp, j: nat)
    requires CleanupEnabled(s, op) && RawInv(s)
    ensures var t := CleanupStep(s, op);
            && (Quarantine(j) in t.db.deletions ==> Quarantine(j) in s.db.deletions || Settled(t, j) || !Recorded(s, j))
            && (Quarantine(j) in s.db.deletions ==> Quarantine(j) in t.db.deletions)
            && (Unfinished(s.db, j) && j in t.db.jobs && Terminal(t.db.jobs[j]) ==> Quarantine(j) in t.db.deletions)
            && (Quarantine(j) in t.objects ==> Quarantine(j) in s.objects)
  {
    hide Enqueued, EnqueuedAll;
    if op.Abandon? { AbandonedKeys(op.items, j); }
    if op.SweepFails? { assert RawSweep(s, op.sweep) && s.sweeps[op.sweep][0] in s.sweeps[op.sweep]; }
  }

  lemma CleanupKeepsCover(s: State, op: CleanupOp)
    requires CleanupEnabled(s, op) && HistoryInv(s) && RawInv(s) && CoverInv(s)
    ensures CoverInv(CleanupStep(s, op))
  {
    var t := CleanupStep(s, op);
    CleanupKeepsRaw(s, op);
    assert SourcesKept(s) by { forall j | Unfinished(s.db, j) ensures Quarantine(j) in s.objects { assert CoveredJob(s, j); } }
    CleanupKeepsSources(s, op);
    hide RawInv, ListsAbandoned, Enqueued, EnqueuedAll;
    forall i ensures DueDeletion(t, i) && CoveredJob(t, i) {
      assert DueDeletion(s, i) && CoveredJob(s, i) && JobInv(s, i);
      CleanupQueues(s, op, i);
    }
    forall d ensures DueDrain(t, d) { assert DueDrain(s, d); }
  }

  lemma DrainKeepsCover(s: State, d: nat, op: DrainOp)
    requires DrainEnabled(s, d, op) && CanonicalInv(s) && CoverInv(s)
    ensures CoverInv(DrainStep(s, d, op))
  {
    var t := DrainStep(s, d, op);
    if op.Take? && op.key.Quarantine? { assert DueDeletion(s, op.key.job); }
    assert DueDrain(s, d);
    forall i ensures DueDeletion(t, i) { assert DueDeletion(s, i); }
    forall c ensures DueDrain(t, c) { assert DueDrain(s, c); }
    forall i ensures CoveredJob(t, i) { assert CoveredJob(s, i); }
  }

  lemma StepKeepsCover(s: State, a: Action)
    requires Enabled(s, a) && HistoryInv(s) && RawInv(s) && CoverInv(s) && !MistakesJob(s, a)
    ensures CoverInv(Step(s, a))
  {
    hide RawInv, HistoryInv, CoverInv, MistakesJob, UploadStep, WorkerStep, CleanupStep, DrainStep;
    match a
    case Uploading(j, op) => UploadKeepsCover(s, j, op);
    case Working(w, op) => WorkerKeepsCover(s, w, op);
    case Cleanup(op) => CleanupKeepsCover(s, op);
    case Draining(d, op) => CanonicalOf(s); DrainKeepsCover(s, d, op);
  }

  ghost predicate MistakesNoJob(s: State, actions: seq<Action>)
    requires CanRun(s, actions)
    decreases |actions|
  {
    actions == [] || (!MistakesJob(s, actions[0]) && MistakesNoJob(Step(s, actions[0]), actions[1..]))
  }

  lemma {:induction false} RunKeepsCover(s: State, actions: seq<Action>)
    requires CanRun(s, actions) && MistakesNoJob(s, actions) && HistoryInv(s) && RawInv(s) && CoverInv(s)
    ensures HistoryInv(Run(s, actions)) && RawInv(Run(s, actions)) && CoverInv(Run(s, actions))
    decreases |actions|
  {
    hide Step, HistoryInv, RawInv, CoverInv, MistakesJob;
    if actions != [] {
      StepKeepsRawInv(s, actions[0]);
      StepKeepsCover(s, actions[0]);
      RunKeepsCover(Step(s, actions[0]), actions[1..]);
    }
  }

  /** Reached by a run in which no compensation is for a queued or processing job; all
      else may fail, and failed calls may have stored, deleted or committed. */
  ghost predicate SoundlyReachable(s: State) {
    exists actions :: CanRun(INIT, actions) && MistakesNoJob(INIT, actions) && s == Run(INIT, actions)
  }

  lemma ReachableCover(s: State)
    requires SoundlyReachable(s)
    ensures HistoryInv(s) && RawInv(s) && CoverInv(s)
  {
    var actions :| CanRun(INIT, actions) && MistakesNoJob(INIT, actions) && s == Run(INIT, actions);
    RunKeepsCover(INIT, actions);
  }

  /** The raw object of a queued or processing job is there, and no deletion job, sweep or
      drain has it; once its job has finished it is gone or has an active deletion job. */
  lemma SourceKeptThenCovered(s: State, j: nat)
    requires SoundlyReachable(s) && j in s.db.jobs
    ensures !Terminal(s.db.jobs[j]) ==>
              && Quarantine(j) in s.objects && Quarantine(j) !in s.db.deletions
              && (forall d :: d in s.drains ==> s.drains[d].key != Quarantine(j))
              && (forall w :: w in s.sweeps ==> Quarantine(j) !in s.sweeps[w])
    ensures Terminal(s.db.jobs[j]) ==> Quarantine(j) !in s.objects || Quarantine(j) in s.db.deletions
  {
    ReachableCover(s);
    assert CoveredJob(s, j) && DueDeletion(s, j);
    forall d | d in s.drains ensures !Terminal(s.db.jobs[j]) ==> s.drains[d].key != Quarantine(j) { assert DueDrain(s, d); }
    forall w | w in s.sweeps ensures !Terminal(s.db.jobs[j]) ==> Quarantine(j) !in s.sweeps[w] { assert RawSweep(s, w); }
  }

  /** An obligation on a job's raw object means that the job has finished. */
  lemma ObligationMeansFinished(s: State, j: nat)
    requires SoundlyReachable(s)
    requires Quarantine(j) in s.db.deletions || (exists d :: d in s.drains && s.drains[d].key == Quarantine(j))
    ensures Recorded(s, j) && (j in s.db.jobs ==> Terminal(s.db.jobs[j]))
  {
    ReachableCover(s);
    assert DueDeletion(s, j);
    if d :| d in s.drains && s.drains[d].key == Quarantine(j) { assert DueDrain(s, d); }
  }

  /** What has had a job keeps that coverage, also after its row was purged. */
  ghost predicate StillCovered(s: State, j: nat) {
    Recorded(s, j) && (j !in s.db.jobs ==> Covered(s, j))
  }

  lemma StepStaysCovered(s: State, a: Action, j: nat)
    requires Enabled(s, a) && HistoryInv(s) && RawInv(s) && CoverInv(s) && StillCovered(s, j)
    ensures StillCovered(Step(s, a), j)
  {
    assert CoveredJob(s, j);
    match a
    case Uploading(i, op) => UploadStaysCovered(s, i, op, j);
    case Working(w, op) => WorkerStaysCovered(s, w, op, j);
    case Cleanup(op) => CleanupStaysCovered(s, op, j);
    case Draining(d, op) => DrainStaysCovered(s, d, op, j);
  }

  lemma UploadStaysCovered(s: State, i: nat, op: UploadOp, j: nat)
    requires UploadEnabled(s, i, op) && StillCovered(s, j)
    ensures StillCovered(UploadStep(s, i, op), j)
  {
  }

  lemma WorkerStaysCovered(s: State, w: nat, op: WorkerOp, j: nat)
    requires WorkerEnabled(s, w, op) && CanonicalInv(s) && StillCovered(s, j)
    ensures StillCovered(WorkerStep(s, w, op), j)
  {
    WorkerKeepsCanonical(s, w, op);
    WorkerQueues(s, w, op);
    hide Enqueued, RecordsOf, CanonicalInv;
  }

  lemma CleanupStaysCovered(s: State, op: CleanupOp, j: nat)
    requires CleanupEnabled(s, op) && RawInv(s) && CoveredJob(s, j) && StillCovered(s, j)
    ensures StillCovered(CleanupStep(s, op), j)
  {
    CleanupQueues(s, op, j);
    hide Enqueued, EnqueuedAll, ListsAbandoned, RawInv;
  }

  lemma DrainStaysCovered(s: State, d: nat, op: DrainOp, j: nat)
    requires DrainEnabled(s, d, op) && CoverInv(s) && StillCovered(s, j)
    ensures StillCovered(DrainStep(s, d, op), j)
  {
    assert DueDrain(s, d);
  }

  lemma {:induction false} RunStaysCovered(s: State, actions: seq<Action>, j: nat)
    requires CanRun(s, actions) && MistakesNoJob(s, actions) && HistoryInv(s) && RawInv(s) && CoverInv(s) && StillCovered(s, j)
    ensures StillCovered(Run(s, actions), j) && CoverInv(Run(s, actions))
    decreases |actions|
  {
    hide Step, HistoryInv, RawInv, CoverInv, MistakesJob, StillCovered;
    if actions != [] {
      StepKeepsRawInv(s, actions[0]);
      StepKeepsCover(s, actions[0]);
      StepStaysCovered(s, actions[0], j);
      RunStaysCovered(Step(s, actions[0]), actions[1..], j);
    }
  }

  /** A job's raw object, from any point at which the job exists: it is there while the
      job is unfinished, and gone or due for deletion ever after, purged or not. */
  lemma CoveredForGood(s: State, actions: seq<Action>, j: nat)
    requires SoundlyReachable(s) && j in s.db.jobs && CanRun(s, actions) && MistakesNoJob(s, actions)
    ensures var t := Run(s, actions);
            if Unfinished(t.db, j) then Quarantine(j) in t.objects && Quarantine(j) !in t.db.deletions else Covered(t, j)
  {
    ReachableCover(s);
    assert JobInv(s, j);
    RunStaysCovered(s, actions, j);
    var t := Run(s, actions);
    assert CoveredJob(t, j) && DueDeletion(t, j);
  }

  // ---- Exactly when a finished job's source is forgotten ----

  ghost predicate FinishedCovered(s: State) {
    forall j :: j in s.db.jobs && Terminal(s.db.jobs[j]) ==> Covered(s, j)
  }

  /** A drain that found the key referenced completes the deletion job of a job that has
      finished meanwhile, its raw object still there. */
  predicate ForgetsSource(s: State, a: Action) {
    && a.Draining? && a.drain == Conclude && a.drainer in s.drains
    && var k := s.drains[a.drainer].key;
       k.Quarantine? && k in s.objects && k in s.db.deletions && s.db.deletions[k] == s.drains[a.drainer].deletion
       && k.job in s.db.jobs && Terminal(s.db.jobs[k.job])
  }

  lemma UploadKeepsFinished(s: State, j: nat, op: UploadOp)
    requires UploadEnabled(s, j, op) && HistoryInv(s) && FinishedCovered(s)
    ensures FinishedCovered(UploadStep(s, j, op))
  {
    assert JobInv(s, j);
    hide HistoryInv, Enqueued;
  }

  lemma WorkerKeepsFinished(s: State, w: nat, op: WorkerOp)
    requires WorkerEnabled(s, w, op) && CanonicalInv(s) && FinishedCovered(s)
    ensures FinishedCovered(WorkerStep(s, w, op))
  {
    WorkerKeepsCanonical(s, w, op);
    WorkerQueues(s, w, op);
    hide Enqueued, RecordsOf, CanonicalInv;
  }

  lemma CleanupKeepsFinished(s: State, op: CleanupOp)
    requires CleanupEnabled(s, op) && RawInv(s) && FinishedCovered(s)
    ensures FinishedCovered(CleanupStep(s, op))
  {
    var t := CleanupStep(s, op);
    hide Enqueued, EnqueuedAll, ListsAbandoned, RawInv;
    forall j | j in t.db.jobs && Terminal(t.db.jobs[j]) ensures Covered(t, j) { CleanupQueues(s, op, j); }
  }

  lemma DrainKeepsFinishedIff(s: State, d: nat, op: DrainOp)
    requires DrainEnabled(s, d, op) && FinishedCovered(s)
    ensures FinishedCovered(DrainStep(s, d, op)) <==> !ForgetsSource(s, Draining(d, op))
  {
    if ForgetsSource(s, Draining(d, op)) { assert !Covered(DrainStep(s, d, op), s.drains[d].key.job); }
  }

  lemma StepKeepsFinishedIff(s: State, a: Action)
    requires Enabled(s, a) && HistoryInv(s) && RawInv(s) && FinishedCovered(s)
    ensures FinishedCovered(Step(s, a)) <==> !ForgetsSource(s, a)
  {
    hide RawInv, HistoryInv, FinishedCovered, UploadStep, WorkerStep, CleanupStep, DrainStep;
    CanonicalOf(s);
    match a
    case Uploading(j, op) => UploadKeepsFinished(s, j, op);
    case Working(w, op) => WorkerKeepsFinished(s, w, op);
    case Cleanup(op) => CleanupKeepsFinished(s, op);
    case Draining(d, op) => DrainKeepsFinishedIff(s, d, op);
  }

  ghost predicate CoveredThroughout(s: State, actions: seq<Action>)
    requires CanRun(s, actions)
    decreases |actions|
  {
    FinishedCovered(s) && (actions == [] || CoveredThroughout(Step(s, actions[0]), actions[1..]))
  }

  ghost predicate ForgetsNoSource(s: State, actions: seq<Action>)
    requires CanRun(s, actions)
    decreases |actions|
  {
    actions == [] || (!ForgetsSource(s, actions[0]) && ForgetsNoSource(Step(s, actions[0]), actions[1..]))
  }

  lemma {:induction false} RunKeepsFinishedIff(s: State, actions: seq<Action>)
    requires CanRun(s, actions) && HistoryInv(s) && RawInv(s) && FinishedCovered(s)
    ensures CoveredThroughout(s, actions) <==> ForgetsNoSource(s, actions)
    decreases |actions|
  {
    hide Step, HistoryInv, RawInv, FinishedCovered, ForgetsSource;
    if actions != [] {
      StepKeepsRawInv(s, actions[0]);
      StepKeepsFinishedIff(s, actions[0]);
      if FinishedCovered(Step(s, actions[0])) { RunKeepsFinishedIff(Step(s, actions[0]), actions[1..]); }
    }
  }

  /** Of any run: every finished job's raw object is gone or due for deletion at every
      point if and only if no drain completes the deletion job of a finished job with the
      object still there. */
  lemma FinishedCoveredIff(actions: seq<Action>)
    requires CanRun(INIT, actions)
    ensures CoveredThroughout(INIT, actions) <==> ForgetsNoSource(INIT, actions)
  {
    RunKeepsFinishedIff(INIT, actions);
  }

  // ---- Sources that are lost or left ----

  lemma {:induction false} RunAppend(start: State, so: seq<Action>, a: Action)
    requires CanRun(start, so) && Enabled(Run(start, so), a)
    ensures CanRun(start, so + [a]) && Run(start, so + [a]) == Step(Run(start, so), a)
    decreases |so|
  {
    hide Step;
    if so != [] {
      RunAppend(Step(start, so[0]), so[1..], a);
      assert (so + [a])[1..] == so[1..] + [a];
    }
  }

  lemma Next(s: State, a: Action, t: State)
    requires Reachable(s) && Enabled(s, a) && t == Step(s, a)
    ensures Reachable(t)
  {
    hide Step;
    var actions :| CanRun(INIT, actions) && s == Run(INIT, actions);
    RunAppend(INIT, actions, a);
  }

  /** One upload stored, its job not yet recorded. */
  lemma OneStored() returns (s: State)
    ensures Reachable(s) && s == INIT.(uploads := map[0 := Recording], objects := {Quarantine(0)})
  {
    assert CanRun(INIT, []) && Run(INIT, []) == INIT;
    var a := INIT.(uploads := map[0 := Putting]);
    Next(INIT, Uploading(0, Begin), a);
    s := INIT.(uploads := map[0 := Recording], objects := {Quarantine(0)});
    Next(a, Uploading(0, Put), s);
  }

  /** Recording a job that fails but has committed: the upload's compensation deletes the
      raw object of a queued job. */
  lemma UncertainRecordLosesSource() returns (s: State)
    ensures Reachable(s) && 0 in s.db.jobs && s.db.jobs[0].status == Queued && Quarantine(0) !in s.objects
  {
    hide Reachable;
    var a := OneStored();
    var b := Step(a, Uploading(0, RecordFails(1, true)));
    Next(a, Uploading(0, RecordFails(1, true)), b);
    s := Step(b, Uploading(0, Undo));
    Next(b, Uploading(0, Undo), s);
  }

  /** Compensation that only queues the key: a drain finds the job unfinished, the job
      fails and keeps the active deletion job, and the drain then completes that one. */
  lemma QueuedCompensationLeavesSource() returns (s: State)
    ensures Reachable(s) && 0 in s.db.jobs && s.db.jobs[0].status == Failed
    ensures Quarantine(0) in s.objects && Quarantine(0) !in s.db.deletions && s.drains == map[]
  {
    hide Reachable;
    var k := Quarantine(0);
    var a := OneStored();
    var b := Step(a, Uploading(0, RecordFails(1, true)));
    Next(a, Uploading(0, RecordFails(1, true)), b);
    assert b.db.jobs == map[0 := NewJob(1, 0)];
    var c := Step(b, Uploading(0, UndoFails(false, true)));
    Next(b, Uploading(0, UndoFails(false, true)), c);
    assert c.db.deletions == map[k := 0] && c.objects == {k} && c.drains == map[];
    var d := Step(c, Draining(0, Take(k)));
    Next(c, Draining(0, Take(k)), d);
    var e := Step(d, Draining(0, Check));
    Next(d, Draining(0, Check), e);
    assert e.drains == map[0 := Drainer(k, 0, Completing)] && e.workers == map[];
    var f := ClaimAndFail(e);
    s := Step(f, Draining(0, Conclude));
    Next(f, Draining(0, Conclude), s);
    assert s.drains == map[];
  }

  lemma ClaimAndFail(s: State) returns (t: State)
    requires Reachable(s) && s.db.jobs == map[0 := NewJob(1, 0)] && s.workers == map[] && Quarantine(0) in s.db.deletions
    ensures Reachable(t) && t.objects == s.objects && t.db.deletions == s.db.deletions && t.drains == s.drains
    ensures 0 in t.db.jobs && t.db.jobs[0].status == Failed
  {
    hide Reachable;
    var a := Step(s, Working(0, Claim(0)));
    Next(s, Working(0, Claim(0)), a);
    var b := Step(a, Working(0, PrepareFails));
    Next(a, Working(0, PrepareFails), b);
    t := Step(b, Working(0, Fail));
    Next(b, Working(0, Fail), t);
  }
}
