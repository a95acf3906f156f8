/** backend/internal/mediaprocessing/worker.go with the uploads (backend/handlers/photo.go)
    that feed it and the cleanup (backend/internal/repository/cleanup.go) that runs
    beside it. Transactions and object-store calls are single steps; workers that lost
    their lease go on at any time. */
module MediaProcessing {
  import opened Ordering
  import opened MediaJobs

  datatype UploadPc = Putting | Recording | Undoing | Finished

  /** `thenFail`: the job is to be failed after the cleanup. */
  datatype WorkerPc = Started | Storing | Cleaning(todo: seq<Key>, thenFail: bool) | Failing | Returned

  /** One claim; `keys` are the canonical objects it has written. */
  datatype Worker = Worker(job: nat, targets: nat, keys: seq<Key>, pc: WorkerPc)

  datatype DrainPc = Checking | Erasing | Completing
  datatype Drainer = Drainer(key: Key, deletion: nat, pc: DrainPc)

  /** The records of a job were inserted by the claim `token`. */
  datatype Insertion = Insertion(job: nat, token: nat)

  /** `workers` are named by their lease tokens. `writers` and `insertions` are a record:
      who was to write a canonical key, and what was committed. */
  datatype State = State(
    db: Db,
    objects: set<Key>,
    uploads: map<nat, UploadPc>,
    workers: map<nat, Worker>,
    sweeps: map<nat, seq<Key>>,
    drains: map<nat, Drainer>,
    now: int,
    nextKey: nat,
    writers: map<Key, nat>,
    insertions: seq<Insertion>
  )

  const INIT := State(Db(map[], map[], map[], 0), {}, map[], map[], map[], map[], 0, 0, map[], [])

  /** `stored`: the call failed but stored; `committed`: it failed but committed;
      `deleted`: it failed but deleted; `queued`: the fallback enqueue succeeds. */
  datatype UploadOp =
    | Begin
    | Put
    | PutFails(stored: bool)
    | Record(targets: nat)
    | RecordFails(targets: nat, committed: bool)
    | Undo
    | UndoFails(deleted: bool, queued: bool)

  datatype WorkerOp =
    | Claim(job: nat)
    | Prepare
    | PrepareFails
    | Store
    | StoreFails(stored: bool)
    | Complete
    | LoseLease
    | CompleteFails(committed: bool)
    | CleanUp
    | CleanUpFails(deleted: bool, queued: bool)
    | FinishCleanUp
    | Fail
    | FailFails

  datatype CleanupOp =
    | Tick(now: int)
    | Requeue
    | Abandon(sweep: nat, items: seq<nat>)
    | Purge
    | Retire(key: Key)
    | Sweep(sweep: nat)
    | SweepFails(sweep: nat, deleted: bool, queued: bool)

  datatype DrainOp = Take(key: Key) | Check | Erase | Conclude | GiveUp

  datatype Action =
    | Uploading(job: nat, upload: UploadOp)
    | Working(token: nat, work: WorkerOp)
    | Cleanup(cleanup: CleanupOp)
    | Draining(drainer: nat, drain: DrainOp)

  // ---- When ----

  predicate UploadAt(s: State, j: nat, pc: UploadPc) {
    j in s.uploads && s.uploads[j] == pc
  }

  predicate WorkerAt(s: State, w: nat, pc: WorkerPc) {
    w in s.workers && s.workers[w].pc == pc
  }

  predicate HasStored(s: State, w: nat) {
    WorkerAt(s, w, Storing) && |s.workers[w].keys| == s.workers[w].targets > 0
  }

  predicate CanStore(s: State, w: nat) {
    WorkerAt(s, w, Storing) && |s.workers[w].keys| < s.workers[w].targets
  }

  predicate CanClean(s: State, w: nat) {
    w in s.workers && s.workers[w].pc.Cleaning? && s.workers[w].pc.todo != []
  }

  predicate HasLease(s: State, w: nat) {
    w in s.workers && HoldsLease(s.db, s.workers[w].job, w)
  }

  predicate UploadEnabled(s: State, j: nat, op: UploadOp) {
    match op
    case Begin => j !in s.uploads
    case Put => UploadAt(s, j, Putting)
    case PutFails(_) => UploadAt(s, j, Putting)
    case Record(_) => UploadAt(s, j, Recording)
    case RecordFails(_, _) => UploadAt(s, j, Recording)
    case Undo => UploadAt(s, j, Undoing)
    case UndoFails(_, _) => UploadAt(s, j, Undoing)
  }

  ghost predicate WorkerEnabled(s: State, w: nat, op: WorkerOp) {
    match op
    case Claim(j) => w !in s.workers && OldestQueued(s.db, j)
    case Prepare => WorkerAt(s, w, Started) && Quarantine(s.workers[w].job) in s.objects
    case PrepareFails => WorkerAt(s, w, Started)
    case Store => CanStore(s, w)
    case StoreFails(_) => CanStore(s, w)
    case Complete => HasStored(s, w) && HasLease(s, w)
    case LoseLease => HasStored(s, w) && !HasLease(s, w)
    case CompleteFails(committed) => HasStored(s, w) && (committed ==> HasLease(s, w))
    case CleanUp => CanClean(s, w)
    case CleanUpFails(_, _) => CanClean(s, w)
    case FinishCleanUp => w in s.workers && s.workers[w].pc.Cleaning? && s.workers[w].pc.todo == []
    case Fail => WorkerAt(s, w, Failing)
    case FailFails => WorkerAt(s, w, Failing)
  }

  ghost predicate CleanupEnabled(s: State, op: CleanupOp) {
    match op
    case Tick(now) => s.now <= now
    case Abandon(w, items) => w !in s.sweeps && ListsAbandoned(s.db, s.now, items)
    case Sweep(w) => w in s.sweeps && s.sweeps[w] != []
    case SweepFails(w, _, _) => w in s.sweeps && s.sweeps[w] != []
    case _ => true
  }

  predicate DrainEnabled(s: State, d: nat, op: DrainOp) {
    match op
    case Take(k) => d !in s.drains && k in s.db.deletions
    case Check => d in s.drains && s.drains[d].pc == Checking
    case Erase => d in s.drains && s.drains[d].pc == Erasing
    case Conclude => d in s.drains && s.drains[d].pc == Completing
    case GiveUp => d in s.drains
  }

  ghost predicate Enabled(s: State, a: Action) {
    match a
    case Uploading(j, op) => UploadEnabled(s, j, op)
    case Working(w, op) => WorkerEnabled(s, w, op)
    case Cleanup(op) => CleanupEnabled(s, op)
    case Draining(d, op) => DrainEnabled(s, d, op)
  }

  // ---- What ----

  function GotoUpload(s: State, j: nat, pc: UploadPc): State {
    s.(uploads := s.uploads[j := pc])
  }

  function GotoWorker(s: State, w: nat, pc: WorkerPc): State
    requires w in s.workers
  {
    s.(workers := s.workers[w := s.workers[w].(pc := pc)])
  }

  function MaybeDeleted(objects: set<Key>, k: Key, gone: bool): set<Key> {
    if gone then objects - {k} else objects
  }

  function MaybeEnqueued(db: Db, k: Key, queued: bool): Db {
    if queued then Enqueued(db, k) else db
  }

  function UploadStep(s: State, j: nat, op: UploadOp): State
    requires UploadEnabled(s, j, op)
  {
    match op
    case Begin => GotoUpload(s, j, Putting)
    case Put => GotoUpload(s, j, Recording).(objects := s.objects + {Quarantine(j)})
    case PutFails(stored) => GotoUpload(s, j, Finished).(objects := if stored then s.objects + {Quarantine(j)} else s.objects)
    case Record(targets) => GotoUpload(s, j, Finished).(db := s.db.(jobs := s.db.jobs[j := NewJob(targets, s.now)]))
    case RecordFails(targets, committed) =>
      GotoUpload(s, j, Undoing).(db := if committed then s.db.(jobs := s.db.jobs[j := NewJob(targets, s.now)]) else s.db)
    case Undo => GotoUpload(s, j, Finished).(objects := s.objects - {Quarantine(j)})
    case UndoFails(deleted, queued) =>
      GotoUpload(s, j, Finished).(objects := MaybeDeleted(s.objects, Quarantine(j), deleted), db := MaybeEnqueued(s.db, Quarantine(j), queued))
  }

  /** A canonical object under a fresh key. */
  function AfterStore(s: State, w: nat): State
    requires w in s.workers
  {
    var k := Canonical(s.nextKey);
    s.(workers := s.workers[w := s.workers[w].(keys := s.workers[w].keys + [k])],
       objects := s.objects + {k}, nextKey := s.nextKey + 1, writers := s.writers[k := w])
  }

  /** The key that failed is not among those cleaned up. */
  function AfterStoreFails(s: State, w: nat, stored: bool): State
    requires w in s.workers
  {
    var k := Canonical(s.nextKey);
    GotoWorker(s, w, Cleaning(s.workers[w].keys, true)).(
      objects := if stored then s.objects + {k} else s.objects, nextKey := s.nextKey + 1, writers := s.writers[k := w])
  }

  function Inserted(s: State, w: nat): State
    requires w in s.workers && s.workers[w].job in s.db.jobs
  {
    s.(db := Completed(s.db, s.workers[w].job, s.workers[w].keys), insertions := s.insertions + [Insertion(s.workers[w].job, w)])
  }

  function AfterCleanUp(s: State, w: nat, gone: bool, queued: bool): State
    requires CanClean(s, w)
  {
    var k := s.workers[w].pc.todo[0];
    GotoWorker(s, w, s.workers[w].pc.(todo := s.workers[w].pc.todo[1..])).(
      objects := MaybeDeleted(s.objects, k, gone), db := MaybeEnqueued(s.db, k, queued))
  }

  ghost function WorkerStep(s: State, w: nat, op: WorkerOp): State
    requires WorkerEnabled(s, w, op)
  {
    match op
    case Claim(j) => s.(db := Claimed(s.db, j, w, s.now), workers := s.workers[w := Worker(j, s.db.jobs[j].targets, [], Started)])
    case Prepare => GotoWorker(s, w, Storing)
    case PrepareFails => GotoWorker(s, w, Failing)
    case Store => AfterStore(s, w)
    case StoreFails(stored) => AfterStoreFails(s, w, stored)
    case Complete => GotoWorker(Inserted(s, w), w, Returned)
    case LoseLease => GotoWorker(s, w, Cleaning(s.workers[w].keys, false))
    case CompleteFails(committed) => GotoWorker(if committed then Inserted(s, w) else s, w, Cleaning(s.workers[w].keys, true))
    case CleanUp => AfterCleanUp(s, w, true, false)
    case CleanUpFails(deleted, queued) => AfterCleanUp(s, w, deleted, queued)
    case FinishCleanUp => GotoWorker(s, w, if s.workers[w].pc.thenFail then Failing else Returned)
    case Fail => GotoWorker(if HasLease(s, w) then s.(db := FailedJob(s.db, s.workers[w].job)) else s, w, Returned)
    case FailFails => GotoWorker(s, w, Returned)
  }

  ghost function CleanupStep(s: State, op: CleanupOp): State
    requires CleanupEnabled(s, op)
  {
    match op
    case Tick(now) => s.(now := now)
    case Requeue => s.(db := Requeued(s.db, s.now))
    case Abandon(w, items) => s.(db := Abandoned(s.db, s.now, items), sweeps := s.sweeps[w := QuarantineKeys(items)])
    case Purge => s.(db := Purged(s.db, s.now))
    case Retire(k) => s.(db := Retired(s.db, k))
    case Sweep(w) => s.(sweeps := s.sweeps[w := s.sweeps[w][1..]], objects := s.objects - {s.sweeps[w][0]})
    case SweepFails(w, deleted, queued) =>
      s.(sweeps := s.sweeps[w := s.sweeps[w][1..]], objects := MaybeDeleted(s.objects, s.sweeps[w][0], deleted), db := MaybeEnqueued(s.db, s.sweeps[w][0], queued))
  }

  /** The reference check, the delete and the completion of one claimed deletion job. */
  function DrainStep(s: State, d: nat, op: DrainOp): State
    requires DrainEnabled(s, d, op)
  {
    match op
    case Take(k) => s.(drains := s.drains[d := Drainer(k, s.db.deletions[k], Checking)])
    case Check => s.(drains := s.drains[d := s.drains[d].(pc := if Referenced(s.db, s.drains[d].key) then Completing else Erasing)])
    case Erase => s.(drains := s.drains[d := s.drains[d].(pc := Completing)], objects := s.objects - {s.drains[d].key})
    case Conclude =>
      var k := s.drains[d].key;
      var deletions := if k in s.db.deletions && s.db.deletions[k] == s.drains[d].deletion then s.db.deletions - {k} else s.db.deletions;
      s.(drains := s.drains - {d}, db := s.db.(deletions := deletions))
    case GiveUp => s.(drains := s.drains - {d})
  }

  ghost function Step(s: State, a: Action): State
    requires Enabled(s, a)
  {
    match a
    case Uploading(j, op) => UploadStep(s, j, op)
    case Working(w, op) => WorkerStep(s, w, op)
    case Cleanup(op) => CleanupStep(s, op)
    case Draining(d, op) => DrainStep(s, d, op)
  }

  ghost predicate CanRun(s: State, actions: seq<Action>)
    decreases |actions|
  {
    actions == [] || (Enabled(s, actions[0]) && CanRun(Step(s, actions[0]), actions[1..]))
  }

  ghost function Run(s: State, actions: seq<Action>): State
    requires CanRun(s, actions)
    decreases |actions|
  {
    if actions == [] then s else Run(Step(s, actions[0]), actions[1..])
  }

  // ---- Records are inserted once, by the lease holder ----

  ghost predicate InsertedFor(s: State, j: nat) {
    exists i :: 0 <= i < |s.insertions| && s.insertions[i].job == j
  }

  ghost predicate JobInv(s: State, j: nat) {
    && (j in s.db.jobs || InsertedFor(s, j) ==> j in s.uploads && s.uploads[j] in {Undoing, Finished})
    && (j in s.db.jobs && InsertedFor(s, j) ==> s.db.jobs[j].status == Ready)
    && (j in s.db.jobs && s.db.jobs[j].status == Ready ==> s.db.jobs[j].worker.Some? && Insertion(j, s.db.jobs[j].worker.value) in s.insertions)
    && (j in s.db.jobs && s.db.jobs[j].worker.Some? ==> s.db.jobs[j].worker.value in s.workers)
  }

  ghost predicate OnePerJob(insertions: seq<Insertion>) {
    forall i, j :: 0 <= i < j < |insertions| ==> insertions[i].job != insertions[j].job
  }

  ghost predicate HistoryInv(s: State) {
    (forall j :: JobInv(s, j)) && OnePerJob(s.insertions)
  }

  lemma UploadKeepsHistory(s: State, j: nat, op: UploadOp)
    requires UploadEnabled(s, j, op) && HistoryInv(s)
    ensures HistoryInv(UploadStep(s, j, op))
  {
    var t := UploadStep(s, j, op);
    forall i ensures JobInv(t, i) {
      assert JobInv(s, i);
      assert InsertedFor(t, i) <==> InsertedFor(s, i);
    }
  }

  lemma InsertKeepsHistory(s: State, w: nat)
    requires HasLease(s, w) && HistoryInv(s)
    ensures HistoryInv(Inserted(s, w))
  {
    var t, j := Inserted(s, w), s.workers[w].job;
    assert JobInv(s, j);
    assert t.insertions[|s.insertions|] == Insertion(j, w);
    forall i ensures JobInv(t, i) {
      assert JobInv(s, i);
      if InsertedFor(t, i) && i != j {
        var n :| 0 <= n < |t.insertions| && t.insertions[n].job == i;
        assert s.insertions[n].job == i;
      }
    }
    forall n | 0 <= n < |s.insertions| ensures s.insertions[n].job != j {}
  }

  /** A step that inserts nothing and brings no job to `ready` or back. */
  lemma QuietKeepsHistory(s: State, t: State)
    requires HistoryInv(s) && t.insertions == s.insertions && t.uploads == s.uploads && s.workers.Keys <= t.workers.Keys
    requires t.db.jobs.Keys <= s.db.jobs.Keys
    requires forall j :: j in t.db.jobs ==>
               (t.db.jobs[j].status == Ready <==> s.db.jobs[j].status == Ready)
               && (t.db.jobs[j].worker == s.db.jobs[j].worker || (s.db.jobs[j].status != Ready && (t.db.jobs[j].worker.Some? ==> t.db.jobs[j].worker.value in t.workers)))
    ensures HistoryInv(t)
  {
    forall j ensures JobInv(t, j) {
      assert JobInv(s, j);
      assert InsertedFor(t, j) <==> InsertedFor(s, j);
    }
  }

  lemma WorkerKeepsHistory(s: State, w: nat, op: WorkerOp)
    requires WorkerEnabled(s, w, op) && HistoryInv(s)
    ensures HistoryInv(WorkerStep(s, w, op))
  {
    hide HistoryInv, Enqueued, RecordsOf;
    if op == Complete || op == CompleteFails(true) {
      InsertKeepsHistory(s, w);
      QuietKeepsHistory(Inserted(s, w), WorkerStep(s, w, op));
    } else {
      QuietKeepsHistory(s, WorkerStep(s, w, op));
    }
  }

  lemma CleanupKeepsHistory(s: State, op: CleanupOp)
    requires CleanupEnabled(s, op) && HistoryInv(s)
    ensures HistoryInv(CleanupStep(s, op))
  {
    hide HistoryInv, EnqueuedAll, ListsAbandoned;
    QuietKeepsHistory(s, CleanupStep(s, op));
  }

  lemma StepKeepsHistory(s: State, a: Action)
    requires Enabled(s, a) && HistoryInv(s)
    ensures HistoryInv(Step(s, a))
  {
    hide HistoryInv, UploadStep, WorkerStep, CleanupStep;
    match a
    case Uploading(j, op) => UploadKeepsHistory(s, j, op);
    case Working(w, op) => WorkerKeepsHistory(s, w, op);
    case Cleanup(op) => CleanupKeepsHistory(s, op);
    case Draining(d, op) => QuietKeepsHistory(s, DrainStep(s, d, op));
  }

  lemma {:induction false} RunKeepsHistory(s: State, actions: seq<Action>)
    requires CanRun(s, actions) && HistoryInv(s)
    ensures HistoryInv(Run(s, actions))
    decreases |actions|
  {
    hide Step, HistoryInv;
    if actions != [] {
      StepKeepsHistory(s, actions[0]);
      RunKeepsHistory(Step(s, actions[0]), actions[1..]);
    }
  }

  ghost predicate Reachable(s: State) {
    exists actions :: CanRun(INIT, actions) && s == Run(INIT, actions)
  }

  lemma ReachableHistory(s: State)
    requires Reachable(s)
    ensures HistoryInv(s)
  {
    var actions :| CanRun(INIT, actions) && s == Run(INIT, actions);
    assert HistoryInv(INIT);
    RunKeepsHistory(INIT, actions);
  }

  /** In every run, whatever fails and whenever stale workers resume, a job's records are
      inserted at most once, and a job is `ready` exactly when they were, by the claim
      that its row still names. */
  lemma RecordsInsertedOnce(s: State, j: nat)
    requires Reachable(s)
    ensures forall a, b :: 0 <= a < b < |s.insertions| ==> s.insertions[a].job != s.insertions[b].job
    ensures j in s.db.jobs ==> (s.db.jobs[j].status == Ready <==> InsertedFor(s, j))
    ensures j in s.db.jobs && s.db.jobs[j].status == Ready ==>
              s.db.jobs[j].worker.Some? && Insertion(j, s.db.jobs[j].worker.value) in s.insertions
  {
    ReachableHistory(s);
    assert JobInv(s, j);
    if j in s.db.jobs && s.db.jobs[j].status == Ready {
      var i :| 0 <= i < |s.insertions| && s.insertions[i] == Insertion(j, s.db.jobs[j].worker.value);
      assert InsertedFor(s, j);
    }
  }

  predicate Commits(op: WorkerOp) {
    op == Complete || op == CompleteFails(true)
  }

  /** A step that inserts nothing, as far as records and finished jobs go. */
  ghost predicate KeepsRecords(s: State, t: State) {
    && t.insertions == s.insertions && t.db.records == s.db.records
    && forall j :: j in s.db.jobs && Terminal(s.db.jobs[j]) ==> j in t.db.jobs && t.db.jobs[j] == s.db.jobs[j]
  }

  lemma WorkerKeepsRecords(s: State, w: nat, op: WorkerOp)
    requires WorkerEnabled(s, w, op) && !Commits(op)
    ensures KeepsRecords(s, WorkerStep(s, w, op))
  {
    hide Enqueued, Completed;
  }

  lemma CommitStep(s: State, w: nat, op: WorkerOp)
    requires WorkerEnabled(s, w, op) && Commits(op)
    ensures var t, j := WorkerStep(s, w, op), s.workers[w].job;
            && HasLease(s, w) && t.insertions == s.insertions + [Insertion(j, w)]
            && t.db == Completed(s.db, j, s.workers[w].keys)
            && j in t.db.jobs && s.db.jobs[j].status == Processing && t.db.jobs[j].status == Ready
            && t.db.records == s.db.records + RecordsOf(j, s.workers[w].keys)
  {
    hide Enqueued, RecordsOf;
  }

  lemma UploadKeepsRecords(s: State, j: nat, op: UploadOp)
    requires UploadEnabled(s, j, op) && JobInv(s, j)
    ensures KeepsRecords(s, UploadStep(s, j, op))
  {
    hide Enqueued;
  }

  lemma CleanupKeepsRecords(s: State, op: CleanupOp)
    requires CleanupEnabled(s, op) && !op.Retire? && op != Purge
    ensures KeepsRecords(s, CleanupStep(s, op))
  {
    hide Enqueued, EnqueuedAll, ListsAbandoned;
  }

  lemma DrainKeepsRecords(s: State, d: nat, op: DrainOp)
    requires DrainEnabled(s, d, op)
    ensures KeepsRecords(s, DrainStep(s, d, op))
  {
  }

  /** All but three kinds of step keep the records and the finished jobs. */
  lemma MostStepsKeepRecords(s: State, a: Action)
    requires Enabled(s, a) && Reachable(s)
    requires !(a.Working? && Commits(a.work)) && !(a.Cleanup? && (a.cleanup.Retire? || a.cleanup == Purge))
    ensures KeepsRecords(s, Step(s, a))
  {
    ReachableHistory(s);
    hide KeepsRecords, UploadStep, WorkerStep, CleanupStep, DrainStep;
    match a
    case Uploading(j, op) => assert JobInv(s, j); UploadKeepsRecords(s, j, op);
    case Working(w, op) => WorkerKeepsRecords(s, w, op);
    case Cleanup(op) => CleanupKeepsRecords(s, op);
    case Draining(d, op) => DrainKeepsRecords(s, d, op);
  }

  /** Records appear only in the step that makes their job ready, for exactly the objects
      that its lease holder wrote. */
  lemma InsertedWithReady(s: State, a: Action)
    requires Reachable(s) && Enabled(s, a) && !(Step(s, a).db.records.Keys <= s.db.records.Keys)
    ensures a.Working? && HasLease(s, a.token)
    ensures var t, w := Step(s, a), s.workers[a.token];
            && t.insertions == s.insertions + [Insertion(w.job, a.token)]
            && w.job in t.db.jobs && s.db.jobs[w.job].status == Processing && t.db.jobs[w.job].status == Ready
            && t.db.records == s.db.records + RecordsOf(w.job, w.keys)
  {
    hide Reachable, Step, WorkerStep, WorkerEnabled, Completed;
    if a.Working? && Commits(a.work) {
      StepIsWorkerStep(s, a);
      CommitStep(s, a.token, a.work);
    } else if a.Cleanup? && (a.cleanup.Retire? || a.cleanup == Purge) {
      RetireKeepsKeys(s, a);
    } else {
      MostStepsKeepRecords(s, a);
    }
  }

  lemma StepIsWorkerStep(s: State, a: Action)
    requires Enabled(s, a) && a.Working?
    ensures Step(s, a) == WorkerStep(s, a.token, a.work)
  {
  }

  lemma RetireKeepsKeys(s: State, a: Action)
    requires Enabled(s, a) && a.Cleanup? && (a.cleanup.Retire? || a.cleanup == Purge)
    ensures Step(s, a).db.records.Keys == s.db.records.Keys && Step(s, a).insertions == s.insertions
  {
    hide Enqueued, EnqueuedAll, ListsAbandoned;
  }

  /** `ready` and `failed` are left only by purging. */
  lemma TerminalIsFinal(s: State, a: Action, j: nat)
    requires Reachable(s) && Enabled(s, a) && j in s.db.jobs && Terminal(s.db.jobs[j])
    ensures var t := Step(s, a);
            (j in t.db.jobs && t.db.jobs[j] == s.db.jobs[j]) || (j !in t.db.jobs && a == Cleanup(Purge) && IsExpired(s.db.jobs[j], s.now))
  {
    hide Reachable, Enqueued;
    if a.Working? && Commits(a.work) {
      StepIsWorkerStep(s, a);
      CommitStep(s, a.token, a.work);
    } else if a.Cleanup? && (a.cleanup.Retire? || a.cleanup == Purge) {
      PurgeOrRetire(s, a, j);
    } else {
      MostStepsKeepRecords(s, a);
    }
  }

  lemma PurgeOrRetire(s: State, a: Action, j: nat)
    requires Enabled(s, a) && a.Cleanup? && (a.cleanup.Retire? || a.cleanup == Purge) && j in s.db.jobs && Terminal(s.db.jobs[j])
    ensures var t := Step(s, a);
            (j in t.db.jobs && t.db.jobs[j] == s.db.jobs[j]) || (j !in t.db.jobs && a == Cleanup(Purge) && IsExpired(s.db.jobs[j], s.now))
  {
    hide Enqueued, EnqueuedAll, ListsAbandoned;
  }
}
