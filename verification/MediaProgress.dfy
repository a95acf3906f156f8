/** That the steps of media jobs lead to their end: an upload becomes a queued job, a worker
    that keeps its lease completes it, cleanups and drains delete what they are to delete. */
module MediaProgress {
  import opened Ordering
  import opened MediaJobs
  import opened MediaProcessing
  import opened MediaSources
  import opened MediaResults

  lemma RunOne(s: State, a: Action)
    requires Enabled(s, a)
    ensures CanRun(s, [a]) && Run(s, [a]) == Step(s, a)
  {
    hide Step, Enabled;
    assert [a][1..] == [] && CanRun(Step(s, a), []) && Run(Step(s, a), []) == Step(s, a);
  }

  lemma {:induction false} RunTwice(s: State, a: seq<Action>, b: seq<Action>)
    requires CanRun(s, a) && CanRun(Run(s, a), b)
    ensures CanRun(s, a + b) && Run(s, a + b) == Run(Run(s, a), b)
    decreases |a|
  {
    hide Step, Enabled;
    if a == [] {
      assert a + b == b;
    } else {
      assert (a + b)[1..] == a[1..] + b;
      RunTwice(Step(s, a[0]), a[1..], b);
    }
  }

  lemma RunThree(s: State, a: State, b: State, c: State, x: Action, y: Action, z: Action)
    requires Enabled(s, x) && a == Step(s, x) && Enabled(a, y) && b == Step(a, y) && Enabled(b, z) && c == Step(b, z)
    ensures CanRun(s, [x, y, z]) && Run(s, [x, y, z]) == c
  {
    hide Step, Enabled;
    RunOne(s, x);
    RunOne(a, y);
    RunTwice(s, [x], [y]);
    assert [x] + [y] == [x, y];
    RunOne(b, z);
    RunTwice(s, [x, y], [z]);
    assert [x, y] + [z] == [x, y, z];
  }

  // ---- Uploads ----

  /** An upload in which nothing fails ends as a queued job with its raw object. */
  lemma UploadBecomesJob(s: State, j: nat, targets: nat)
    requires j !in s.uploads
    ensures var run := [Uploading(j, Begin), Uploading(j, Put), Uploading(j, UploadOp.Record(targets))];
            && CanRun(s, run)
            && Run(s, run) == s.(uploads := s.uploads[j := Finished], objects := s.objects + {Quarantine(j)}, db := s.db.(jobs := s.db.jobs[j := NewJob(targets, s.now)]))
  {
    var a := s.(uploads := s.uploads[j := Putting]);
    var b := s.(uploads := s.uploads[j := Recording], objects := s.objects + {Quarantine(j)});
    var c := s.(uploads := s.uploads[j := Finished], objects := s.objects + {Quarantine(j)}, db := s.db.(jobs := s.db.jobs[j := NewJob(targets, s.now)]));
    assert a.uploads[j := Recording] == b.uploads && b.uploads[j := Finished] == c.uploads;
    RunThree(s, a, b, c, Uploading(j, Begin), Uploading(j, Put), Uploading(j, UploadOp.Record(targets)));
  }

  // ---- Workers ----

  /** Some queued job can be claimed whenever there is one, by any new worker, the oldest. */
  lemma QueuedCanBeClaimed(s: State, j: nat, w: nat)
    requires j in s.db.jobs && s.db.jobs[j].status == Queued && w !in s.workers
    ensures exists i :: Enabled(s, Working(w, Claim(i))) && s.db.jobs[i].queuedAt <= s.db.jobs[j].queuedAt
  {
    var i := OldestOf(s.db, s.db.jobs.Keys, j);
    assert Enabled(s, Working(w, Claim(i)));
  }

  lemma {:induction false} OldestOf(db: Db, among: set<nat>, j: nat) returns (i: nat)
    requires among <= db.jobs.Keys && j in among && db.jobs[j].status == Queued
    ensures i in among && db.jobs[i].status == Queued && forall k :: k in among && db.jobs[k].status == Queued ==> db.jobs[i].queuedAt <= db.jobs[k].queuedAt
    decreases |among|
  {
    i := j;
    if k :| k in among && db.jobs[k].status == Queued && db.jobs[k].queuedAt < db.jobs[j].queuedAt {
      i := OldestOf(db, among - {j}, k);
    }
  }

  function Stores(w: nat, n: nat): seq<Action> {
    if n == 0 then [] else [Working(w, Store)] + Stores(w, n - 1)
  }

  function FreshKeys(from: nat, n: nat): (keys: seq<Key>)
    ensures |keys| == n
    decreases n
  {
    if n == 0 then [] else [Canonical(from)] + FreshKeys(from + 1, n - 1)
  }

  /** What a worker has written after `n` more puts that went well. */
  ghost predicate Stored(s: State, t: State, w: nat, n: nat)
    requires w in s.workers
  {
    && t.db == s.db && t.insertions == s.insertions && t.nextKey == s.nextKey + n
    && w in t.workers && t.workers[w].job == s.workers[w].job && t.workers[w].targets == s.workers[w].targets && t.workers[w].pc == Storing
    && t.workers[w].keys == s.workers[w].keys + FreshKeys(s.nextKey, n)
    && (forall k :: k in FreshKeys(s.nextKey, n) ==> k in t.objects) && s.objects <= t.objects
  }

  lemma {:induction false} StoresRun(s: State, w: nat, n: nat)
    requires WorkerAt(s, w, Storing) && |s.workers[w].keys| + n <= s.workers[w].targets
    ensures CanRun(s, Stores(w, n)) && Stored(s, Run(s, Stores(w, n)), w, n)
    decreases n
  {
    if n > 0 {
      var t := AfterStore(s, w);
      assert Enabled(s, Working(w, Store)) && Step(s, Working(w, Store)) == t;
      StoresRun(t, w, n - 1);
      var stores := Stores(w, n);
      assert stores[0] == Working(w, Store) && stores[1..] == Stores(w, n - 1);
      StoredFirst(s, t, Run(t, Stores(w, n - 1)), w, n);
      hide Step, Enabled;
    }
  }

  lemma StoredFirst(s: State, t: State, u: State, w: nat, n: nat)
    requires WorkerAt(s, w, Storing) && n > 0 && t == AfterStore(s, w) && Stored(t, u, w, n - 1)
    ensures Stored(s, u, w, n)
  {
    var keys := FreshKeys(s.nextKey, n);
    assert keys == [Canonical(s.nextKey)] + FreshKeys(t.nextKey, n - 1);
    assert t.workers[w].keys == s.workers[w].keys + [Canonical(s.nextKey)];
    forall k | k in keys ensures k in u.objects { assert k == Canonical(s.nextKey) || k in FreshKeys(t.nextKey, n - 1); }
  }

  /** A worker that keeps its lease and whose calls go well completes its job: one live
      record per target, each with its object, the job ready, and its source queued. */
  lemma WorkerCompletes(s: State, w: nat)
    requires WorkerAt(s, w, Started) && s.workers[w].keys == [] && s.workers[w].targets > 0 && HasLease(s, w)
    requires Quarantine(s.workers[w].job) in s.objects
    ensures var n, j := s.workers[w].targets, s.workers[w].job;
            var run := [Working(w, Prepare)] + Stores(w, n) + [Working(w, Complete)];
            && CanRun(s, run)
            && var t := Run(s, run);
               && t.db.jobs == s.db.jobs[j := s.db.jobs[j].(status := Ready)]
               && (forall k :: k in FreshKeys(s.nextKey, n) ==> k in t.db.records && t.db.records[k] == Record.Record(j, true) && k in t.objects)
               && Quarantine(j) in t.db.deletions && t.insertions == s.insertions + [Insertion(j, w)] && WorkerAt(t, w, Returned)
  {
    var n, j := s.workers[w].targets, s.workers[w].job;
    var a := GotoWorker(s, w, Storing);
    PrepareEffect(s, w);
    RunOne(s, Working(w, Prepare));
    hide Step, Enabled, Enqueued, FreshKeys, Stores;
    StoresRun(a, w, n);
    RunTwice(s, [Working(w, Prepare)], Stores(w, n));
    var b := Run(a, Stores(w, n));
    CompleteEffect(b, w);
    RunOne(b, Working(w, Complete));
    RunTwice(s, [Working(w, Prepare)] + Stores(w, n), [Working(w, Complete)]);
    assert [] + FreshKeys(s.nextKey, n) == FreshKeys(s.nextKey, n);
  }

  lemma PrepareEffect(s: State, w: nat)
    requires WorkerAt(s, w, Started) && Quarantine(s.workers[w].job) in s.objects
    ensures Enabled(s, Working(w, Prepare)) && Step(s, Working(w, Prepare)) == GotoWorker(s, w, Storing)
  {
  }

  lemma CompleteEffect(s: State, w: nat)
    requires HasStored(s, w) && HasLease(s, w)
    ensures Enabled(s, Working(w, Complete))
    ensures var t, j := Step(s, Working(w, Complete)), s.workers[w].job;
            && t.db.jobs == s.db.jobs[j := s.db.jobs[j].(status := Ready)] && t.objects == s.objects
            && (forall k :: k in s.workers[w].keys ==> k in t.db.records && t.db.records[k] == Record.Record(j, true))
            && Quarantine(j) in t.db.deletions && t.insertions == s.insertions + [Insertion(j, w)] && WorkerAt(t, w, Returned)
  {
    hide Enqueued;
  }

  /** What a put, or a completion, that reports an error leads to: the worker deletes the
      objects of all puts before it, and then the job is failed and its source queued, if
      the lease is still held. */
  lemma FailureCleansUpAndFails(s: State, w: nat, op: WorkerOp) returns (actions: seq<Action>, t: State)
    requires WorkerAt(s, w, Storing) && (op == StoreFails(false) || op == CompleteFails(false)) && WorkerEnabled(s, w, op)
    ensures CanRun(s, actions) && t == Run(s, actions) && actions != [] && actions[0] == Working(w, op)
    ensures WorkerAt(t, w, Returned) && t.db.records == s.db.records && t.insertions == s.insertions
    ensures forall k :: k in t.objects <==> k in s.objects && k !in s.workers[w].keys
    ensures var j := s.workers[w].job;
            if HasLease(s, w) then t.db.jobs == s.db.jobs[j := s.db.jobs[j].(status := Failed)] && Quarantine(j) in t.db.deletions else t.db == s.db
  {
    var a := Step(s, Working(w, op));
    var keys := s.workers[w].keys;
    FailureStarts(s, w, op);
    var b := CleanUpsEnd(a, w);
    var c := GotoWorker(b, w, WorkerPc.Failing);
    assert Enabled(b, Working(w, FinishCleanUp)) && Step(b, Working(w, FinishCleanUp)) == c;
    FailEffect(c, w);
    t := Step(c, Working(w, WorkerOp.Fail));
    hide Step, Enabled, CleanUps;
    RunOne(s, Working(w, op));
    RunTwice(s, [Working(w, op)], CleanUps(w, |keys|));
    RunOne(b, Working(w, FinishCleanUp));
    RunTwice(s, [Working(w, op)] + CleanUps(w, |keys|), [Working(w, FinishCleanUp)]);
    RunOne(c, Working(w, WorkerOp.Fail));
    RunTwice(s, [Working(w, op)] + CleanUps(w, |keys|) + [Working(w, FinishCleanUp)], [Working(w, WorkerOp.Fail)]);
    actions := [Working(w, op)] + CleanUps(w, |keys|) + [Working(w, FinishCleanUp)] + [Working(w, WorkerOp.Fail)];
  }

  lemma FailureStarts(s: State, w: nat, op: WorkerOp)
    requires WorkerAt(s, w, Storing) && (op == StoreFails(false) || op == CompleteFails(false)) && WorkerEnabled(s, w, op)
    ensures Enabled(s, Working(w, op))
    ensures var t := Step(s, Working(w, op));
            && t.db == s.db && t.objects == s.objects && t.insertions == s.insertions && w in t.workers
            && t.workers[w] == s.workers[w].(pc := Cleaning(s.workers[w].keys, true))
  {
  }

  /** The worker after an undisturbed cleanup. */
  lemma {:induction false} CleanUpsEnd(s: State, w: nat) returns (t: State)
    requires w in s.workers && s.workers[w].pc.Cleaning?
    ensures var todo := s.workers[w].pc.todo;
            && CanRun(s, CleanUps(w, |todo|)) && t == Run(s, CleanUps(w, |todo|))
            && t.db == s.db && t.insertions == s.insertions && w in t.workers && t.workers[w] == s.workers[w].(pc := s.workers[w].pc.(todo := []))
            && forall k :: k in t.objects <==> k in s.objects && k !in todo
    decreases |s.workers[w].pc.todo|
  {
    var todo := s.workers[w].pc.todo;
    if todo == [] {
      t := s;
      assert CanRun(s, []) && Run(s, []) == s;
    } else {
      var u := AfterCleanUp(s, w, true, false);
      assert u == Step(s, Working(w, CleanUp)) && Enabled(s, Working(w, CleanUp));
      t := CleanUpsEnd(u, w);
      assert CleanUps(w, |todo|)[0] == Working(w, CleanUp) && CleanUps(w, |todo|)[1..] == CleanUps(w, |todo| - 1);
      assert todo == [todo[0]] + todo[1..];
      hide Step, Enabled;
    }
  }

  /** A worker that has lost its lease finds out when it completes: it deletes what it has
      written and returns without touching a row. */
  lemma LoserCleansUpAndReturns(s: State, w: nat) returns (actions: seq<Action>, t: State)
    requires WorkerEnabled(s, w, LoseLease)
    ensures CanRun(s, actions) && t == Run(s, actions) && actions != [] && actions[0] == Working(w, LoseLease)
    ensures WorkerAt(t, w, Returned) && t.db == s.db && forall k :: k in t.objects <==> k in s.objects && k !in s.workers[w].keys
  {
    var keys, a := s.workers[w].keys, GotoWorker(s, w, Cleaning(s.workers[w].keys, false));
    assert Enabled(s, Working(w, LoseLease)) && Step(s, Working(w, LoseLease)) == a;
    var b := CleanUpsEnd(a, w);
    t := GotoWorker(b, w, Returned);
    assert Enabled(b, Working(w, FinishCleanUp)) && Step(b, Working(w, FinishCleanUp)) == t;
    hide Step, Enabled, CleanUps;
    RunOne(s, Working(w, LoseLease));
    RunTwice(s, [Working(w, LoseLease)], CleanUps(w, |keys|));
    RunOne(b, Working(w, FinishCleanUp));
    RunTwice(s, [Working(w, LoseLease)] + CleanUps(w, |keys|), [Working(w, FinishCleanUp)]);
    actions := [Working(w, LoseLease)] + CleanUps(w, |keys|) + [Working(w, FinishCleanUp)];
  }

  // ---- One record per target ----

  ghost predicate WithinTargets(s: State) {
    forall w :: w in s.workers ==>
      |s.workers[w].keys| <= s.workers[w].targets
      && (s.workers[w].job in s.db.jobs ==> s.db.jobs[s.workers[w].job].targets == s.workers[w].targets)
  }

  lemma WorkerKeepsTargets(s: State, w: nat, op: WorkerOp)
    requires WorkerEnabled(s, w, op) && WithinTargets(s)
    ensures WithinTargets(WorkerStep(s, w, op))
  {
    hide Enqueued, RecordsOf;
    match op
    case Claim(_) =>
    case Complete =>
    case CompleteFails(_) =>
    case Fail =>
    case _ =>
  }

  lemma CleanupKeepsTargets(s: State, op: CleanupOp)
    requires CleanupEnabled(s, op) && WithinTargets(s)
    ensures WithinTargets(CleanupStep(s, op))
  {
    hide Enqueued, EnqueuedAll, ListsAbandoned;
  }

  lemma UploadKeepsTargets(s: State, j: nat, op: UploadOp)
    requires UploadEnabled(s, j, op) && WithinTargets(s) && forall w :: w in s.workers ==> Recorded(s, s.workers[w].job)
    ensures WithinTargets(UploadStep(s, j, op))
  {
    hide Enqueued;
  }

  /** Workers are of jobs that were recorded. */
  ghost predicate WorkersRecorded(s: State) {
    forall w :: w in s.workers ==> Recorded(s, s.workers[w].job)
  }

  lemma StepKeepsTargets(s: State, a: Action)
    requires Enabled(s, a) && HistoryInv(s) && RawInv(s) && WithinTargets(s) && WorkersRecorded(s)
    ensures WithinTargets(Step(s, a)) && WorkersRecorded(Step(s, a))
  {
    StepRecords(s, a);
    hide HistoryInv, RawInv, WithinTargets, UploadStep, WorkerStep, CleanupStep;
    match a
    case Uploading(j, op) => UploadKeepsTargets(s, j, op);
    case Working(w, op) => WorkerKeepsTargets(s, w, op);
    case Cleanup(op) => CleanupKeepsTargets(s, op);
    case Draining(_, _) => SameTargets(s, Step(s, a));
  }

  lemma SameTargets(s: State, t: State)
    requires WithinTargets(s) && t.workers == s.workers && t.db.jobs == s.db.jobs
    ensures WithinTargets(t)
  {
  }

  lemma StepRecords(s: State, a: Action)
    requires Enabled(s, a) && HistoryInv(s) && WorkersRecorded(s)
    ensures WorkersRecorded(Step(s, a))
  {
    match a
    case Uploading(j, op) => hide Enqueued;
    case Working(w, op) =>
      if op.Claim? { assert JobInv(s, op.job); }
      WorkerJobs(s, w, op);
      hide WorkerStep, HistoryInv;
    case Cleanup(op) =>
      CleanupWorkers(s, op);
      hide CleanupStep, HistoryInv;
    case Draining(_, _) =>
  }

  lemma WorkerJobs(s: State, w: nat, op: WorkerOp)
    requires WorkerEnabled(s, w, op)
    ensures var t := WorkerStep(s, w, op);
            && t.uploads == s.uploads && t.workers.Keys == s.workers.Keys + {w} && w in t.workers
            && t.workers[w].job == (if op.Claim? then op.job else s.workers[w].job)
            && forall v :: v in s.workers && v != w ==> t.workers[v] == s.workers[v]
  {
    hide Enqueued, Completed, FailedJob, Claimed;
  }

  lemma CleanupWorkers(s: State, op: CleanupOp)
    requires CleanupEnabled(s, op)
    ensures CleanupStep(s, op).workers == s.workers && CleanupStep(s, op).uploads == s.uploads
  {
    hide Enqueued, EnqueuedAll, ListsAbandoned;
  }

  lemma {:induction false} RunKeepsTargets(s: State, actions: seq<Action>)
    requires CanRun(s, actions) && HistoryInv(s) && RawInv(s) && WithinTargets(s) && WorkersRecorded(s)
    ensures WithinTargets(Run(s, actions))
    decreases |actions|
  {
    hide Step, Enabled, HistoryInv, RawInv, WithinTargets, WorkersRecorded;
    if actions != [] {
      StepKeepsRawInv(s, actions[0]);
      StepKeepsTargets(s, actions[0]);
      RunKeepsTargets(Step(s, actions[0]), actions[1..]);
    }
  }

  lemma {:induction false} DistinctCount(keys: seq<Key>)
    requires forall a, b :: 0 <= a < b < |keys| ==> keys[a] != keys[b]
    ensures |set k | k in keys| == |keys|
  {
    if keys == [] {
      assert (set k | k in keys) == {};
    } else {
      DistinctCount(keys[1..]);
      assert keys == [keys[0]] + keys[1..];
      assert (set k | k in keys) == {keys[0]} + set k | k in keys[1..];
    }
  }

  /** A job is completed with exactly as many records as it has targets, each under a key
      of its own; no worker ever writes more. */
  lemma OneRecordPerTarget(s: State, w: nat, op: WorkerOp)
    requires Reachable(s) && w in s.workers
    ensures |s.workers[w].keys| <= s.workers[w].targets
    ensures WorkerEnabled(s, w, op) && Commits(op) ==>
              var j := s.workers[w].job;
              j in s.db.jobs && |RecordsOf(j, s.workers[w].keys)| == s.db.jobs[j].targets > 0 && RecordsOf(j, s.workers[w].keys).Keys !! s.db.records.Keys
  {
    var actions :| CanRun(INIT, actions) && s == Run(INIT, actions);
    RunKeepsTargets(INIT, actions);
    ReachableResults(s);
    if WorkerEnabled(s, w, op) && Commits(op) {
      assert ResultWorker(s, w);
      var keys, records := s.workers[w].keys, RecordsOf(s.workers[w].job, s.workers[w].keys);
      DistinctCount(keys);
      assert records.Keys == set k | k in keys;
      assert |records.Keys| == |records|;
      hide Reachable, HistoryInv, RawInv, Run;
    }
  }

  /** What cannot be prepared is failed, if the lease is still held, and its source queued. */
  lemma FailureIsRecorded(s: State, w: nat)
    requires WorkerAt(s, w, Started)
    ensures var run := [Working(w, PrepareFails), Working(w, WorkerOp.Fail)];
            && CanRun(s, run)
            && var t, j := Run(s, run), s.workers[w].job;
               && WorkerAt(t, w, Returned) && t.objects == s.objects
               && (HasLease(s, w) ==> t.db.jobs == s.db.jobs[j := s.db.jobs[j].(status := Failed)] && Quarantine(j) in t.db.deletions)
               && (!HasLease(s, w) ==> t.db == s.db)
  {
    hide Enqueued;
    var a := GotoWorker(s, w, WorkerPc.Failing);
    var b := Step(a, Working(w, WorkerOp.Fail));
    assert Enabled(s, Working(w, PrepareFails)) && Step(s, Working(w, PrepareFails)) == a && Enabled(a, Working(w, WorkerOp.Fail));
    FailEffect(a, w);
    RunOne(s, Working(w, PrepareFails));
    RunOne(a, Working(w, WorkerOp.Fail));
    hide Step, Enabled;
    RunTwice(s, [Working(w, PrepareFails)], [Working(w, WorkerOp.Fail)]);
    assert [Working(w, PrepareFails)] + [Working(w, WorkerOp.Fail)] == [Working(w, PrepareFails), Working(w, WorkerOp.Fail)];
  }

  lemma FailEffect(s: State, w: nat)
    requires WorkerAt(s, w, WorkerPc.Failing)
    ensures Enabled(s, Working(w, WorkerOp.Fail))
    ensures var t, j := Step(s, Working(w, WorkerOp.Fail)), s.workers[w].job;
            && WorkerAt(t, w, Returned) && t.objects == s.objects
            && (HasLease(s, w) ==> t.db.jobs == s.db.jobs[j := s.db.jobs[j].(status := Failed)] && Quarantine(j) in t.db.deletions)
            && (!HasLease(s, w) ==> t.db == s.db)
  {
    hide Enqueued;
  }

  // ---- The deletion queue ----

  /** A drain of a key that nothing refers to deletes the object and its deletion job. */
  lemma DrainDeletes(s: State, d: nat, k: Key)
    requires d !in s.drains && k in s.db.deletions && !Referenced(s.db, k)
    ensures var run := [Draining(d, Take(k)), Draining(d, Check), Draining(d, Erase)] + [Draining(d, Conclude)];
            && CanRun(s, run)
            && Run(s, run) == s.(objects := s.objects - {k}, db := s.db.(deletions := s.db.deletions - {k}))
  {
    var n := s.db.deletions[k];
    var a := s.(drains := s.drains[d := Drainer(k, n, Checking)]);
    var b := s.(drains := s.drains[d := Drainer(k, n, Erasing)]);
    var c := s.(drains := s.drains[d := Drainer(k, n, Completing)], objects := s.objects - {k});
    assert a.drains[d := Drainer(k, n, Erasing)] == b.drains && b.drains[d := Drainer(k, n, Completing)] == c.drains;
    RunThree(s, a, b, c, Draining(d, Take(k)), Draining(d, Check), Draining(d, Erase));
    var e := s.(objects := s.objects - {k}, db := s.db.(deletions := s.db.deletions - {k}));
    assert c.drains - {d} == s.drains;
    assert Enabled(c, Draining(d, Conclude)) && Step(c, Draining(d, Conclude)) == e;
    RunOne(c, Draining(d, Conclude));
    hide Step, Enabled;
    RunTwice(s, [Draining(d, Take(k)), Draining(d, Check), Draining(d, Erase)], [Draining(d, Conclude)]);
  }

  /** One of a key that is referred to leaves the object alone. */
  lemma DrainSpares(s: State, d: nat, k: Key)
    requires d !in s.drains && k in s.db.deletions && Referenced(s.db, k)
    ensures var run := [Draining(d, Take(k)), Draining(d, Check), Draining(d, Conclude)];
            && CanRun(s, run) && Run(s, run) == s.(db := s.db.(deletions := s.db.deletions - {k}))
  {
    var n := s.db.deletions[k];
    var a := s.(drains := s.drains[d := Drainer(k, n, Checking)]);
    var b := s.(drains := s.drains[d := Drainer(k, n, Completing)]);
    var c := s.(db := s.db.(deletions := s.db.deletions - {k}));
    assert a.drains[d := Drainer(k, n, Completing)] == b.drains && b.drains - {d} == s.drains;
    RunThree(s, a, b, c, Draining(d, Take(k)), Draining(d, Check), Draining(d, Conclude));
  }

  // ---- The sweep ----

  function Sweeps(w: nat, n: nat): seq<Action> {
    if n == 0 then [] else [Cleanup(Sweep(w))] + Sweeps(w, n - 1)
  }

  /** A sweep in which nothing fails deletes the raw object of every job that it failed. */
  lemma {:induction false} SweepDeletes(s: State, w: nat)
    requires w in s.sweeps
    ensures var keys := s.sweeps[w];
            && CanRun(s, Sweeps(w, |keys|))
            && var t := Run(s, Sweeps(w, |keys|)); t.db == s.db && forall k :: k in t.objects <==> k in s.objects && k !in keys
    decreases |s.sweeps[w]|
  {
    if s.sweeps[w] != [] {
      var keys, a := s.sweeps[w], Cleanup(Sweep(w));
      var t := s.(sweeps := s.sweeps[w := keys[1..]], objects := s.objects - {keys[0]});
      assert Enabled(s, a) && Step(s, a) == t;
      SweepDeletes(t, w);
      assert Sweeps(w, |keys|)[0] == a && Sweeps(w, |keys|)[1..] == Sweeps(w, |keys| - 1);
      assert keys == [keys[0]] + keys[1..];
      hide Step, Enabled;
    }
  }
}
