/** The canonical objects that media workers write: in every run, exactly when a live
    record loses its object, and exactly when an object is left that nobody will delete. */
module MediaResults {
  import opened Ordering
  import opened MediaJobs
  import opened MediaProcessing
  import opened MediaSources

  /** The objects a worker still has to commit or clean up. */
  function PendingOf(w: Worker): seq<Key> {
    match w.pc
    case Storing => w.keys
    case Cleaning(todo, _) => todo
    case _ => []
  }

  predicate Live(s: State, k: Key) {
    k in s.db.records && s.db.records[k].live
  }

  // ---- What every step keeps, in every run ----

  ghost predicate InDrain(s: State, k: Key) {
    exists d :: d in s.drains && s.drains[d].key == k
  }

  /** A pending object is there and due for nobody else, unless its record was retired. */
  ghost predicate Secured(s: State, k: Key) {
    (k in s.db.records && !s.db.records[k].live) || (k in s.objects && k !in s.db.deletions && !InDrain(s, k))
  }

  ghost predicate ResultWorker(s: State, w: nat) {
    w in s.workers ==>
      var p := PendingOf(s.workers[w]);
      && (forall k :: k in s.workers[w].keys || k in p ==> k.Canonical? && k in s.writers && s.writers[k] == w)
      && (forall i, j :: 0 <= i < j < |p| ==> p[i] != p[j])
      && (forall k :: k in p ==> Secured(s, k))
      && (s.workers[w].pc == Storing ==> forall k :: k in p ==> k !in s.db.records)
      && (s.workers[w].pc == Started ==> s.workers[w].keys == [])
  }

  /** Canonical keys are taken from a counter. */
  ghost predicate ResultKey(s: State, k: Key) {
    k.Canonical? && (k in s.db.records || k in s.writers || k in s.objects || k in s.db.deletions || InDrain(s, k)) ==> k.id < s.nextKey
  }

  ghost predicate ResultDrain(s: State, d: nat) {
    d in s.drains && s.drains[d].pc == Erasing ==> !Live(s, s.drains[d].key)
  }

  ghost predicate ResultsInv(s: State) {
    (forall w :: ResultWorker(s, w)) && (forall k :: ResultKey(s, k)) && (forall d :: ResultDrain(s, d)) && CanonicalInv(s)
  }

  /** A step that leaves workers, canonical objects and drains alone, and queues nothing
      canonical that has no retired record. */
  lemma QuietKeepsResults(s: State, t: State)
    requires ResultsInv(s) && t.workers == s.workers && t.writers == s.writers && t.drains == s.drains && t.nextKey == s.nextKey
    requires forall k: Key :: k.Canonical? ==> (k in t.objects <==> k in s.objects)
    requires t.db.records.Keys == s.db.records.Keys && forall k :: Live(t, k) ==> Live(s, k)
    requires forall k: Key :: k.Canonical? && k in t.db.deletions ==> k in s.db.deletions || (k in s.db.records && !Live(t, k))
    ensures ResultsInv(t)
  {
    forall k ensures InDrain(t, k) <==> InDrain(s, k) {}
    forall k ensures ResultKey(t, k) { assert ResultKey(s, k); }
    forall w ensures CanonicalWorker(t, w) { assert CanonicalWorker(s, w); }
    forall d ensures ResultDrain(t, d) { assert ResultDrain(s, d); }
    forall k: Key | k.Canonical? && Secured(s, k) ensures Secured(t, k) {
      assert k in t.db.records.Keys <==> k in s.db.records.Keys;
      assert (Live(t, k) ==> Live(s, k)) && (InDrain(t, k) <==> InDrain(s, k));
    }
    hide Secured;
    forall w ensures ResultWorker(t, w) { assert ResultWorker(s, w); }
  }

  lemma UploadKeepsResults(s: State, j: nat, op: UploadOp)
    requires UploadEnabled(s, j, op) && ResultsInv(s)
    ensures ResultsInv(UploadStep(s, j, op))
  {
    hide ResultsInv, Enqueued;
    QuietKeepsResults(s, UploadStep(s, j, op));
  }

  lemma CleanupKeepsResults(s: State, op: CleanupOp)
    requires CleanupEnabled(s, op) && ResultsInv(s) && RawInv(s)
    ensures ResultsInv(CleanupStep(s, op))
  {
    hide ResultsInv, Enqueued, EnqueuedAll;
    if op.Sweep? || op.SweepFails? { assert RawSweep(s, op.sweep) && s.sweeps[op.sweep][0] in s.sweeps[op.sweep]; }
    QuietKeepsResults(s, CleanupStep(s, op));
  }

  lemma DrainKeepsResults(s: State, d: nat, op: DrainOp)
    requires DrainEnabled(s, d, op) && ResultsInv(s)
    ensures ResultsInv(DrainStep(s, d, op))
  {
    var t := DrainStep(s, d, op);
    assert ResultDrain(s, d);
    var key := if op.Take? then op.key else s.drains[d].key;
    forall k ensures InDrain(t, k) ==> InDrain(s, k) || k == key {}
    assert !op.Take? ==> InDrain(s, key);
    forall k ensures ResultKey(t, k) { assert ResultKey(s, k); }
    forall w ensures CanonicalWorker(t, w) { assert CanonicalWorker(s, w); }
    forall k | Secured(s, k) ensures Secured(t, k) {}
    hide Secured;
    forall w ensures ResultWorker(t, w) { assert ResultWorker(s, w); }
    forall c ensures ResultDrain(t, c) { assert ResultDrain(s, c); }
  }

  /** Moving a worker on to some or none of what it has pending. */
  lemma MoveKeepsResults(s: State, w: nat, pc: WorkerPc)
    requires ResultsInv(s) && w in s.workers && pc != Started
    requires pc == Storing ==> s.workers[w].pc == Storing || s.workers[w].keys == []
    requires var p := PendingOf(s.workers[w].(pc := pc)); p == [] || p == PendingOf(s.workers[w])
    ensures ResultsInv(GotoWorker(s, w, pc))
  {
    var t := GotoWorker(s, w, pc);
    assert ResultWorker(s, w) && CanonicalWorker(s, w);
    forall k ensures InDrain(t, k) <==> InDrain(s, k) {}
    forall k ensures ResultKey(t, k) { assert ResultKey(s, k); }
    forall v ensures ResultWorker(t, v) && CanonicalWorker(t, v) { assert ResultWorker(s, v) && CanonicalWorker(s, v); }
    forall d ensures ResultDrain(t, d) { assert ResultDrain(s, d); }
  }

  lemma ClaimKeepsResults(s: State, w: nat, op: WorkerOp)
    requires WorkerEnabled(s, w, op) && op.Claim? && ResultsInv(s)
    ensures ResultsInv(WorkerStep(s, w, op))
  {
    var t := WorkerStep(s, w, op);
    forall k ensures InDrain(t, k) <==> InDrain(s, k) {}
    forall k ensures ResultKey(t, k) { assert ResultKey(s, k); }
    forall v ensures ResultWorker(t, v) && CanonicalWorker(t, v) { assert ResultWorker(s, v) && CanonicalWorker(s, v); }
    forall d ensures ResultDrain(t, d) { assert ResultDrain(s, d); }
  }

  /** The next canonical key is nobody's yet. */
  lemma NextKeyIsFresh(s: State)
    requires ResultsInv(s)
    ensures var n := Canonical(s.nextKey);
            n !in s.db.records && n !in s.writers && n !in s.objects && n !in s.db.deletions && !InDrain(s, n)
    ensures forall w :: w in s.workers ==> Canonical(s.nextKey) !in s.workers[w].keys && Canonical(s.nextKey) !in PendingOf(s.workers[w])
  {
    assert ResultKey(s, Canonical(s.nextKey));
    forall w | w in s.workers ensures Canonical(s.nextKey) !in s.workers[w].keys && Canonical(s.nextKey) !in PendingOf(s.workers[w]) {
      assert ResultWorker(s, w);
    }
  }

  lemma StoreKeepsResults(s: State, w: nat)
    requires CanStore(s, w) && ResultsInv(s)
    ensures ResultsInv(AfterStore(s, w))
  {
    var t, n := AfterStore(s, w), Canonical(s.nextKey);
    NextKeyIsFresh(s);
    assert ResultWorker(s, w) && CanonicalWorker(s, w);
    forall k ensures InDrain(t, k) <==> InDrain(s, k) {}
    forall k ensures ResultKey(t, k) { assert ResultKey(s, k); }
    forall v ensures ResultWorker(t, v) && CanonicalWorker(t, v) { assert ResultWorker(s, v) && CanonicalWorker(s, v); }
    forall d ensures ResultDrain(t, d) { assert ResultDrain(s, d); }
  }

  lemma StoreFailsKeepsResults(s: State, w: nat, stored: bool)
    requires CanStore(s, w) && ResultsInv(s)
    ensures ResultsInv(AfterStoreFails(s, w, stored))
  {
    var t, n := AfterStoreFails(s, w, stored), Canonical(s.nextKey);
    NextKeyIsFresh(s);
    assert ResultWorker(s, w) && CanonicalWorker(s, w);
    forall k ensures InDrain(t, k) <==> InDrain(s, k) {}
    forall k ensures ResultKey(t, k) { assert ResultKey(s, k); }
    forall v ensures ResultWorker(t, v) && CanonicalWorker(t, v) { assert ResultWorker(s, v) && CanonicalWorker(s, v); }
    forall d ensures ResultDrain(t, d) { assert ResultDrain(s, d); }
  }

  /** Committed, whether or not the worker was told so. */
  lemma InsertKeepsResults(s: State, w: nat, pc: WorkerPc)
    requires HasStored(s, w) && HasLease(s, w) && ResultsInv(s) && (pc == Returned || pc == Cleaning(s.workers[w].keys, true))
    ensures ResultsInv(GotoWorker(Inserted(s, w), w, pc))
  {
    hide Enqueued;
    var t := GotoWorker(Inserted(s, w), w, pc);
    assert ResultWorker(s, w) && CanonicalWorker(s, w);
    forall k ensures InDrain(t, k) <==> InDrain(s, k) {}
    forall k ensures ResultKey(t, k) { assert ResultKey(s, k); }
    forall v ensures CanonicalWorker(t, v) { assert CanonicalWorker(s, v); }
    forall v ensures ResultWorker(t, v) {
      assert ResultWorker(s, v);
      forall k | v in s.workers && k in PendingOf(s.workers[v]) ensures Secured(t, k) && (v != w ==> k !in s.workers[w].keys) { assert Secured(s, k); }
    }
    forall d ensures ResultDrain(t, d) {
      assert ResultDrain(s, d);
      if d in s.drains { assert InDrain(s, s.drains[d].key); }
    }
  }

  lemma CleanUpKeepsResults(s: State, w: nat, gone: bool, queued: bool)
    requires CanClean(s, w) && ResultsInv(s)
    ensures ResultsInv(AfterCleanUp(s, w, gone, queued))
  {
    hide Enqueued;
    var t, c := AfterCleanUp(s, w, gone, queued), s.workers[w].pc.todo[0];
    assert ResultWorker(s, w) && CanonicalWorker(s, w) && ResultKey(s, c);
    forall k ensures InDrain(t, k) <==> InDrain(s, k) {}
    forall k ensures ResultKey(t, k) { assert ResultKey(s, k); }
    forall v ensures ResultWorker(t, v) && CanonicalWorker(t, v) {
      assert ResultWorker(s, v) && CanonicalWorker(s, v);
      if v in s.workers && v != w { forall k | k in PendingOf(s.workers[v]) ensures k != c {} }
      forall k | k in s.workers[w].pc.todo[1..] ensures k in s.workers[w].pc.todo && k != c {}
    }
    forall d ensures ResultDrain(t, d) { assert ResultDrain(s, d); }
  }

  lemma WorkerKeepsResults(s: State, w: nat, op: WorkerOp)
    requires WorkerEnabled(s, w, op) && ResultsInv(s)
    ensures ResultsInv(WorkerStep(s, w, op))
  {
    if WorkerAt(s, w, Started) { assert ResultWorker(s, w); }
    hide ResultsInv, AfterStore, AfterStoreFails, AfterCleanUp, Enqueued, RecordsOf;
    match op
    case Claim(_) => ClaimKeepsResults(s, w, op);
    case Prepare => MoveKeepsResults(s, w, Storing);
    case PrepareFails => MoveKeepsResults(s, w, Failing);
    case Store => StoreKeepsResults(s, w);
    case StoreFails(stored) => StoreFailsKeepsResults(s, w, stored);
    case Complete => InsertKeepsResults(s, w, Returned);
    case LoseLease => MoveKeepsResults(s, w, Cleaning(s.workers[w].keys, false));
    case CompleteFails(committed) =>
      if committed { InsertKeepsResults(s, w, Cleaning(s.workers[w].keys, true)); } else { MoveKeepsResults(s, w, Cleaning(s.workers[w].keys, true)); }
    case CleanUp => CleanUpKeepsResults(s, w, true, false);
    case CleanUpFails(deleted, queued) => CleanUpKeepsResults(s, w, deleted, queued);
    case FinishCleanUp => MoveKeepsResults(s, w, if s.workers[w].pc.thenFail then Failing else Returned);
    case Fail =>
      var u := if HasLease(s, w) then s.(db := FailedJob(s.db, s.workers[w].job)) else s;
      QuietKeepsResults(s, u);
      MoveKeepsResults(u, w, Returned);
    case FailFails => MoveKeepsResults(s, w, Returned);
  }

  lemma StepKeepsResults(s: State, a: Action)
    requires Enabled(s, a) && HistoryInv(s) && RawInv(s) && ResultsInv(s)
    ensures HistoryInv(Step(s, a)) && RawInv(Step(s, a)) && ResultsInv(Step(s, a))
  {
    hide RawInv, HistoryInv, ResultsInv, UploadStep, WorkerStep, CleanupStep, DrainStep;
    StepKeepsRawInv(s, a);
    match a
    case Uploading(j, op) => UploadKeepsResults(s, j, op);
    case Working(w, op) => WorkerKeepsResults(s, w, op);
    case Cleanup(op) => CleanupKeepsResults(s, op);
    case Draining(d, op) => DrainKeepsResults(s, d, op);
  }

  ghost predicate AllInv(s: State) {
    HistoryInv(s) && RawInv(s) && ResultsInv(s)
  }

  lemma {:induction false} RunKeepsResults(s: State, actions: seq<Action>)
    requires CanRun(s, actions) && AllInv(s)
    ensures AllInv(Run(s, actions))
    decreases |actions|
  {
    hide Step, HistoryInv, RawInv, ResultsInv;
    if actions != [] {
      StepKeepsResults(s, actions[0]);
      RunKeepsResults(Step(s, actions[0]), actions[1..]);
    }
  }

  lemma ReachableResults(s: State)
    requires Reachable(s)
    ensures AllInv(s)
  {
    var actions :| CanRun(INIT, actions) && s == Run(INIT, actions);
    RunKeepsResults(INIT, actions);
  }

  // ---- Exactly when a live record loses its object ----

  ghost predicate LiveKept(s: State) {
    forall k :: Live(s, k) ==> k in s.objects
  }

  /** A worker cleans up a result that its completion committed, told otherwise. */
  predicate DeletesLive(s: State, a: Action) {
    && a.Working? && CanClean(s, a.token) && Live(s, s.workers[a.token].pc.todo[0])
    && (a.work == CleanUp || (a.work.CleanUpFails? && a.work.deleted))
  }

  lemma WorkerKeepsLiveIff(s: State, w: nat, op: WorkerOp)
    requires WorkerEnabled(s, w, op) && ResultsInv(s) && LiveKept(s)
    ensures LiveKept(WorkerStep(s, w, op)) <==> !DeletesLive(s, Working(w, op))
  {
    hide Enqueued;
    assert ResultWorker(s, w);
    var t := WorkerStep(s, w, op);
    if DeletesLive(s, Working(w, op)) { assert Live(t, s.workers[w].pc.todo[0]); }
  }

  lemma UploadKeepsLive(s: State, j: nat, op: UploadOp)
    requires UploadEnabled(s, j, op) && CanonicalInv(s) && LiveKept(s)
    ensures LiveKept(UploadStep(s, j, op))
  {
    hide Enqueued;
  }

  lemma CleanupKeepsLive(s: State, op: CleanupOp)
    requires CleanupEnabled(s, op) && RawInv(s) && LiveKept(s)
    ensures LiveKept(CleanupStep(s, op))
  {
    hide Enqueued, EnqueuedAll, ListsAbandoned;
    if op.Sweep? || op.SweepFails? { assert RawSweep(s, op.sweep) && s.sweeps[op.sweep][0] in s.sweeps[op.sweep]; }
  }

  lemma DrainKeepsLive(s: State, d: nat, op: DrainOp)
    requires DrainEnabled(s, d, op) && ResultsInv(s) && LiveKept(s)
    ensures LiveKept(DrainStep(s, d, op))
  {
    assert ResultDrain(s, d);
  }

  lemma StepKeepsLiveIff(s: State, a: Action)
    requires Enabled(s, a) && AllInv(s) && LiveKept(s)
    ensures LiveKept(Step(s, a)) <==> !DeletesLive(s, a)
  {
    hide RawInv, ResultsInv, LiveKept, UploadStep, WorkerStep, CleanupStep, DrainStep;
    CanonicalOf(s);
    match a
    case Uploading(j, op) => UploadKeepsLive(s, j, op);
    case Working(w, op) => WorkerKeepsLiveIff(s, w, op);
    case Cleanup(op) => CleanupKeepsLive(s, op);
    case Draining(d, op) => DrainKeepsLive(s, d, op);
  }

  ghost predicate LiveThroughout(s: State, actions: seq<Action>)
    requires CanRun(s, actions)
    decreases |actions|
  {
    LiveKept(s) && (actions == [] || LiveThroughout(Step(s, actions[0]), actions[1..]))
  }

  ghost predicate DeletesNoneLive(s: State, actions: seq<Action>)
    requires CanRun(s, actions)
    decreases |actions|
  {
    actions == [] || (!DeletesLive(s, actions[0]) && DeletesNoneLive(Step(s, actions[0]), actions[1..]))
  }

  lemma {:induction false} RunKeepsLiveIff(s: State, actions: seq<Action>)
    requires CanRun(s, actions) && AllInv(s) && LiveKept(s)
    ensures LiveThroughout(s, actions) <==> DeletesNoneLive(s, actions)
    decreases |actions|
  {
    hide Step, HistoryInv, RawInv, ResultsInv, LiveKept, DeletesLive;
    if actions != [] {
      StepKeepsResults(s, actions[0]);
      StepKeepsLiveIff(s, actions[0]);
      if LiveKept(Step(s, actions[0])) { RunKeepsLiveIff(Step(s, actions[0]), actions[1..]); }
    }
  }

  /** Of any run, whatever fails in it: every live record has its object at every point if
      and only if no worker's cleanup deletes a key that has a live record. */
  lemma LiveKeptIff(actions: seq<Action>)
    requires CanRun(INIT, actions)
    ensures LiveThroughout(INIT, actions) <==> DeletesNoneLive(INIT, actions)
  {
    RunKeepsLiveIff(INIT, actions);
  }

  function CleanUps(w: nat, n: nat): seq<Action> {
    if n == 0 then [] else [Working(w, CleanUp)] + CleanUps(w, n - 1)
  }

  lemma {:induction false} CleanUpsRun(s: State, w: nat, n: nat)
    requires w in s.workers && s.workers[w].pc.Cleaning? && n == |s.workers[w].pc.todo|
    ensures CanRun(s, CleanUps(w, n)) && Run(s, CleanUps(w, n)).db == s.db
    ensures forall k :: k in Run(s, CleanUps(w, n)).objects <==> k in s.objects && k !in s.workers[w].pc.todo
    decreases n
  {
    if n > 0 {
      var todo, t := s.workers[w].pc.todo, AfterCleanUp(s, w, true, false);
      assert t == Step(s, Working(w, CleanUp)) && Enabled(s, Working(w, CleanUp));
      assert CleanUps(w, n)[0] == Working(w, CleanUp) && CleanUps(w, n)[1..] == CleanUps(w, n - 1);
      CleanUpsRun(t, w, n - 1);
      assert todo == [todo[0]] + todo[1..];
    }
  }

  /** The cleanup that follows a failed completion keeps every live record's object if and
      only if none of the worker's keys has a live record when it starts, that is, if the
      completion did not commit. */
  lemma CleanUpSafeIffNoneLive(s: State, w: nat, committed: bool)
    requires Reachable(s) && WorkerEnabled(s, w, CompleteFails(committed))
    ensures var t, keys := WorkerStep(s, w, CompleteFails(committed)), s.workers[w].keys;
            && CanRun(t, CleanUps(w, |keys|))
            && ((forall k :: Live(t, k) && k in t.objects ==> k in Run(t, CleanUps(w, |keys|)).objects) <==> forall k :: k in keys ==> !Live(t, k))
            && ((forall k :: k in keys ==> !Live(t, k)) <==> !committed)
  {
    ReachableResults(s);
    assert ResultWorker(s, w);
    hide Enqueued;
    var t, keys := WorkerStep(s, w, CompleteFails(committed)), s.workers[w].keys;
    CleanUpsRun(t, w, |keys|);
    if committed { assert keys[0] in keys && Live(t, keys[0]) && keys[0] in t.objects; }
  }

  // ---- Exactly when an object is left that nobody will delete ----

  /** No worker, record, deletion job or drain has the key. */
  ghost predicate Unowned(s: State, k: Key) {
    && k.Canonical? && k.id < s.nextKey && k !in s.db.records && k !in s.db.deletions && !InDrain(s, k)
    && forall w :: w in s.workers ==> k !in s.workers[w].keys && k !in PendingOf(s.workers[w])
  }

  /** The same worker, as far as one key goes. */
  ghost predicate WithoutKey(s: State, w: nat, k: Key) {
    w in s.workers ==> k !in s.workers[w].keys && k !in PendingOf(s.workers[w])
  }

  lemma WorkerKeepsWithout(s: State, w: nat, op: WorkerOp, k: Key)
    requires WorkerEnabled(s, w, op) && WithoutKey(s, w, k) && k.Canonical? && k.id < s.nextKey
    ensures var t := WorkerStep(s, w, op); WithoutKey(t, w, k) && (k in t.objects <==> k in s.objects)
  {
    hide Completed, FailedJob, Claimed, Enqueued;
    if CanClean(s, w) {
      var todo := s.workers[w].pc.todo;
      assert todo == [todo[0]] + todo[1..];
    }
  }

  lemma WorkerKeepsRows(s: State, w: nat, op: WorkerOp, k: Key)
    requires WorkerEnabled(s, w, op) && WithoutKey(s, w, k) && k.Canonical?
    ensures var t := WorkerStep(s, w, op);
            (k in t.db.records <==> k in s.db.records) && (k in t.db.deletions <==> k in s.db.deletions)
  {
    hide Enqueued;
    assert CanClean(s, w) ==> s.workers[w].pc.todo[0] in s.workers[w].pc.todo;
  }

  lemma WorkerFrame(s: State, w: nat, op: WorkerOp)
    requires WorkerEnabled(s, w, op)
    ensures var t := WorkerStep(s, w, op); t.drains == s.drains && t.nextKey >= s.nextKey && t.workers - {w} == s.workers - {w}
  {
    hide Enqueued, Completed, FailedJob, Claimed;
  }

  lemma WorkerKeepsUnowned(s: State, w: nat, op: WorkerOp, k: Key)
    requires WorkerEnabled(s, w, op) && Unowned(s, k)
    ensures var t := WorkerStep(s, w, op); Unowned(t, k) && (k in t.objects <==> k in s.objects)
  {
    assert WithoutKey(s, w, k);
    WorkerKeepsWithout(s, w, op, k);
    WorkerKeepsRows(s, w, op, k);
    WorkerFrame(s, w, op);
    hide WorkerStep, WorkerEnabled, PendingOf;
    var t := WorkerStep(s, w, op);
    assert InDrain(t, k) <==> InDrain(s, k);
    forall v | v in t.workers ensures WithoutKey(t, v, k) {
      if v != w { assert v in t.workers - {w} && (t.workers - {w})[v] == (s.workers - {w})[v]; }
    }
  }

  lemma UploadKeepsUnowned(s: State, j: nat, op: UploadOp, k: Key)
    requires UploadEnabled(s, j, op) && Unowned(s, k)
    ensures var t := UploadStep(s, j, op); Unowned(t, k) && (k in t.objects <==> k in s.objects)
  {
    hide Enqueued;
  }

  lemma CleanupKeepsUnowned(s: State, op: CleanupOp, k: Key)
    requires CleanupEnabled(s, op) && Unowned(s, k) && RawInv(s)
    ensures var t := CleanupStep(s, op); Unowned(t, k) && (k in t.objects <==> k in s.objects)
  {
    hide Enqueued, EnqueuedAll, ListsAbandoned;
    if op.Sweep? || op.SweepFails? { assert RawSweep(s, op.sweep) && s.sweeps[op.sweep][0] in s.sweeps[op.sweep]; }
  }

  lemma DrainKeepsUnowned(s: State, d: nat, op: DrainOp, k: Key)
    requires DrainEnabled(s, d, op) && Unowned(s, k)
    ensures var t := DrainStep(s, d, op); Unowned(t, k) && (k in t.objects <==> k in s.objects)
  {
    assert !op.Take? ==> InDrain(s, s.drains[d].key);
  }

  lemma StepKeepsUnowned(s: State, a: Action, k: Key)
    requires Enabled(s, a) && Unowned(s, k) && RawInv(s)
    ensures var t := Step(s, a); Unowned(t, k) && (k in t.objects <==> k in s.objects)
  {
    hide RawInv, Unowned, UploadStep, WorkerStep, CleanupStep, DrainStep;
    match a
    case Uploading(j, op) => UploadKeepsUnowned(s, j, op, k);
    case Working(w, op) => WorkerKeepsUnowned(s, w, op, k);
    case Cleanup(op) => CleanupKeepsUnowned(s, op, k);
    case Draining(d, op) => DrainKeepsUnowned(s, d, op, k);
  }

  lemma {:induction false} RunKeepsUnowned(s: State, actions: seq<Action>, k: Key)
    requires CanRun(s, actions) && AllInv(s) && Unowned(s, k)
    ensures var t := Run(s, actions); Unowned(t, k) && (k in t.objects <==> k in s.objects)
    decreases |actions|
  {
    hide Step, HistoryInv, RawInv, ResultsInv, Unowned;
    if actions != [] {
      StepKeepsResults(s, actions[0]);
      StepKeepsUnowned(s, actions[0], k);
      RunKeepsUnowned(Step(s, actions[0]), actions[1..], k);
    }
  }

  /** A failed put leaves its object behind, for ever and with no owner, if and only if it
      has stored it: the worker cleans up only the keys before it. */
  lemma FailedPutLeaksIffStored(s: State, w: nat, stored: bool, actions: seq<Action>)
    requires Reachable(s) && CanStore(s, w) && CanRun(AfterStoreFails(s, w, stored), actions)
    ensures var k, t := Canonical(s.nextKey), Run(AfterStoreFails(s, w, stored), actions);
            Unowned(t, k) && (k in t.objects <==> stored)
  {
    ReachableResults(s);
    NextKeyIsFresh(s);
    var k, t := Canonical(s.nextKey), AfterStoreFails(s, w, stored);
    StepKeepsResults(s, Working(w, StoreFails(stored)));
    assert t == Step(s, Working(w, StoreFails(stored)));
    assert InDrain(t, k) <==> InDrain(s, k);
    assert ResultWorker(s, w);
    RunKeepsUnowned(t, actions, k);
  }

  // ---- Workers that lost their lease ----

  /** They have no effect any more on jobs, on records, or on any job's raw object. */
  lemma StaleWorkerIsHarmless(s: State, w: nat, op: WorkerOp)
    requires Reachable(s) && WorkerEnabled(s, w, op) && w in s.workers && !HasLease(s, w)
    ensures var t := WorkerStep(s, w, op);
            && t.db.jobs == s.db.jobs && t.db.records == s.db.records && t.insertions == s.insertions
            && forall j :: (Quarantine(j) in t.objects <==> Quarantine(j) in s.objects)
                           && (Quarantine(j) in t.db.deletions <==> Quarantine(j) in s.db.deletions)
  {
    ReachableRaw(s);
    hide Enqueued;
    if CanClean(s, w) {
      assert CanonicalWorker(s, w) && s.workers[w].pc.todo[0] in s.workers[w].pc.todo;
    }
  }

  // ---- Objects that are lost or left ----

  /** One upload, recorded, and claimed by a worker that has prepared its one result. */
  lemma OneClaimed() returns (s: State)
    ensures Reachable(s) && s.workers == map[0 := Worker(0, 1, [], Storing)] && s.nextKey == 0 && s.writers == map[]
    ensures s.objects == {Quarantine(0)} && s.db.records == map[] && s.db.deletions == map[] && s.drains == map[] && HoldsLease(s.db, 0, 0)
  {
    hide Reachable;
    var a := OneStored();
    var b := Step(a, Uploading(0, UploadOp.Record(1)));
    Next(a, Uploading(0, UploadOp.Record(1)), b);
    assert b.db.jobs == map[0 := NewJob(1, 0)];
    var c := Step(b, Working(0, Claim(0)));
    Next(b, Working(0, Claim(0)), c);
    s := Step(c, Working(0, Prepare));
    Next(c, Working(0, Prepare), s);
  }

  /** A put that fails but has stored leaves an object nobody owns: the worker cleans up
      only the keys before it. */
  lemma FailedPutLeaks() returns (s: State, k: Key)
    ensures Reachable(s) && WorkerAt(s, 0, Returned) && k in s.objects && Unowned(s, k)
  {
    hide Reachable;
    var a := OneClaimed();
    var b := AfterStoreFails(a, 0, true);
    Next(a, Working(0, StoreFails(true)), b);
    var c := GotoWorker(b, 0, Failing);
    Next(b, Working(0, FinishCleanUp), c);
    s, k := Step(c, Working(0, FailFails)), Canonical(0);
    Next(c, Working(0, FailFails), s);
  }

  /** A completion that fails but has committed: the worker's cleanup deletes the object
      of a live photo. */
  lemma UncertainCommitLosesPhoto() returns (s: State, k: Key)
    ensures Reachable(s) && Live(s, k) && k !in s.objects
  {
    hide Reachable;
    var a := OneClaimed();
    var b := AfterStore(a, 0);
    Next(a, Working(0, Store), b);
    assert b.workers[0] == Worker(0, 1, [Canonical(0)], Storing);
    var c := Step(b, Working(0, CompleteFails(true)));
    Next(b, Working(0, CompleteFails(true)), c);
    assert c.workers[0].pc.todo == [Canonical(0)] && Live(c, Canonical(0));
    s, k := AfterCleanUp(c, 0, true, false), Canonical(0);
    Next(c, Working(0, CleanUp), s);
  }
}
