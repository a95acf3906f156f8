/** How long claims and jobs last: five minutes for a claim, an hour in the queue, a day
    in all (backend/internal/repository/media_processing.go:30-49, 188-255,
    backend/internal/repository/cleanup.go:96-104), over runs in which anything else may
    happen. Times are seconds. */
module MediaTimes {
  import opened Ordering
  import opened MediaJobs
  import opened MediaProcessing

  /** The holder of claim `w` is done with its job. */
  predicate Ends(a: Action, w: nat) {
    a.Working? && a.token == w && (a.work == Complete || a.work == CompleteFails(true) || a.work == WorkerOp.Fail)
  }

  /** Claim `w` was made at time `c` on job `j`; it may have been lost since. */
  ghost predicate ClaimedAt(s: State, j: nat, w: nat, c: int) {
    w in s.workers && s.workers[w].job == j && (HoldsLease(s.db, j, w) ==> s.db.jobs[j].startedAt == c)
  }

  lemma UploadKeepsLease(s: State, i: nat, op: UploadOp, j: nat, w: nat, c: int)
    requires UploadEnabled(s, i, op) && HistoryInv(s) && ClaimedAt(s, j, w, c)
    ensures var t := UploadStep(s, i, op); ClaimedAt(t, j, w, c) && (HoldsLease(t.db, j, w) <==> HoldsLease(s.db, j, w))
  {
    assert JobInv(s, j);
    hide HistoryInv, Enqueued;
  }

  lemma WorkerKeepsLease(s: State, v: nat, op: WorkerOp, j: nat, w: nat, c: int)
    requires WorkerEnabled(s, v, op) && ClaimedAt(s, j, w, c)
    ensures var t := WorkerStep(s, v, op);
            && ClaimedAt(t, j, w, c)
            && (HoldsLease(t.db, j, w) ==> HoldsLease(s.db, j, w))
            && (HoldsLease(s.db, j, w) && !Ends(Working(v, op), w) ==> HoldsLease(t.db, j, w))
  {
    hide Enqueued, RecordsOf;
    match op
    case Claim(_) =>
    case Complete =>
    case CompleteFails(_) =>
    case Fail =>
    case _ =>
  }

  lemma CleanupKeepsLease(s: State, op: CleanupOp, j: nat, w: nat, c: int)
    requires CleanupEnabled(s, op) && ClaimedAt(s, j, w, c)
    ensures var t := CleanupStep(s, op);
            && ClaimedAt(t, j, w, c) && t.now >= s.now
            && (HoldsLease(t.db, j, w) <==> HoldsLease(s.db, j, w) && !(op == Requeue && s.now - c > 300))
  {
    hide Enqueued, EnqueuedAll, ListsAbandoned;
  }

  /** Five minutes, or the holder itself, end a claim, and nothing else does. */
  lemma StepKeepsLease(s: State, a: Action, j: nat, w: nat, c: int)
    requires Enabled(s, a) && HistoryInv(s) && ClaimedAt(s, j, w, c)
    ensures var t := Step(s, a);
            && ClaimedAt(t, j, w, c) && t.now >= s.now
            && (HoldsLease(t.db, j, w) ==> HoldsLease(s.db, j, w))
            && (HoldsLease(s.db, j, w) && !Ends(a, w) && s.now - c <= 300 ==> HoldsLease(t.db, j, w))
  {
    hide HistoryInv, ClaimedAt, HoldsLease, Ends, UploadStep, WorkerStep, CleanupStep;
    OnlyWorkersEnd(a, w);
    match a
    case Uploading(i, op) => UploadKeepsLease(s, i, op, j, w, c); UploadKeepsTime(s, i, op);
    case Working(v, op) => WorkerKeepsLease(s, v, op, j, w, c); WorkerKeepsTime(s, v, op);
    case Cleanup(op) => CleanupKeepsLease(s, op, j, w, c);
    case Draining(d, op) => DrainKeepsLease(s, d, op, j, w, c);
  }

  lemma OnlyWorkersEnd(a: Action, w: nat)
    ensures Ends(a, w) ==> a.Working?
  {
  }

  lemma UploadKeepsTime(s: State, i: nat, op: UploadOp)
    requires UploadEnabled(s, i, op)
    ensures UploadStep(s, i, op).now == s.now
  {
  }

  lemma WorkerKeepsTime(s: State, v: nat, op: WorkerOp)
    requires WorkerEnabled(s, v, op)
    ensures WorkerStep(s, v, op).now == s.now
  {
  }

  lemma DrainKeepsLease(s: State, d: nat, op: DrainOp, j: nat, w: nat, c: int)
    requires DrainEnabled(s, d, op) && ClaimedAt(s, j, w, c)
    ensures var t := DrainStep(s, d, op); ClaimedAt(t, j, w, c) && t.now == s.now && (HoldsLease(t.db, j, w) <==> HoldsLease(s.db, j, w))
  {
  }

  lemma {:induction false} RunKeepsLease(s: State, actions: seq<Action>, j: nat, w: nat, c: int)
    requires CanRun(s, actions) && HistoryInv(s) && ClaimedAt(s, j, w, c)
    ensures var t := Run(s, actions);
            && HistoryInv(t) && ClaimedAt(t, j, w, c) && t.now >= s.now
            && (HoldsLease(t.db, j, w) ==> HoldsLease(s.db, j, w))
            && (HoldsLease(s.db, j, w) && (forall a :: a in actions ==> !Ends(a, w)) && t.now - c <= 300 ==> HoldsLease(t.db, j, w))
    decreases |actions|
  {
    hide Step, HistoryInv, ClaimedAt, HoldsLease, Ends;
    if actions != [] {
      assert actions[0] in actions && forall a :: a in actions[1..] ==> a in actions;
      StepKeepsHistory(s, actions[0]);
      StepKeepsLease(s, actions[0], j, w, c);
      RunKeepsLease(Step(s, actions[0]), actions[1..], j, w, c);
    }
  }

  lemma ClaimHoldsLease(s: State, j: nat, w: nat)
    requires Enabled(s, Working(w, Claim(j)))
    ensures var t := Step(s, Working(w, Claim(j))); ClaimedAt(t, j, w, s.now) && HoldsLease(t.db, j, w) && t.now == s.now
  {
  }

  /** A claim is its holder's for 300 seconds, whatever else happens and however often
      stale jobs are requeued meanwhile. A requeue after more than that takes it away. */
  lemma ClaimLastsFiveMinutes(s: State, j: nat, w: nat, actions: seq<Action>)
    requires Reachable(s) && Enabled(s, Working(w, Claim(j))) && CanRun(Step(s, Working(w, Claim(j))), actions)
    requires forall a :: a in actions ==> !Ends(a, w)
    ensures var u := Run(Step(s, Working(w, Claim(j))), actions);
            var v := Step(u, Cleanup(Requeue));
            && (u.now - s.now <= 300 ==> HoldsLease(u.db, j, w) && HoldsLease(v.db, j, w))
            && (u.now - s.now > 300 ==> !HoldsLease(v.db, j, w))
            && (u.now - s.now > 300 && HoldsLease(u.db, j, w) ==> v.db.jobs[j] == u.db.jobs[j].(status := Queued, worker := None, startedAt := 0))
  {
    var t := Step(s, Working(w, Claim(j)));
    var u := Run(t, actions);
    ReachableHistory(s);
    StepKeepsHistory(s, Working(w, Claim(j)));
    ClaimHoldsLease(s, j, w);
    RunKeepsLease(t, actions, j, w, s.now);
    CleanupKeepsLease(u, Requeue, j, w, s.now);
    hide Reachable, HistoryInv, WorkerStep, Ends;
  }

  /** A claim that was lost, or is over, never comes back. */
  lemma LostClaimStaysLost(s: State, j: nat, w: nat, actions: seq<Action>)
    requires Reachable(s) && w in s.workers && s.workers[w].job == j && !HoldsLease(s.db, j, w) && CanRun(s, actions)
    ensures !HoldsLease(Run(s, actions).db, j, w)
  {
    ReachableHistory(s);
    RunKeepsLease(s, actions, j, w, 0);
  }

  // ---- Jobs ----

  /** The row of a job that was recorded at time `c`, while there is one. */
  ghost predicate RecordedAt(s: State, j: nat, c: int) {
    && j in s.uploads && s.uploads[j] in {Undoing, Finished}
    && (j in s.db.jobs ==> s.db.jobs[j].queuedAt == c && s.db.jobs[j].expiresAt == c + 86_400)
  }

  lemma UploadKeepsDates(s: State, i: nat, op: UploadOp, j: nat, c: int)
    requires UploadEnabled(s, i, op) && RecordedAt(s, j, c)
    ensures RecordedAt(UploadStep(s, i, op), j, c)
  {
    hide Enqueued;
  }

  lemma WorkerKeepsDates(s: State, w: nat, op: WorkerOp, j: nat, c: int)
    requires WorkerEnabled(s, w, op) && RecordedAt(s, j, c)
    ensures RecordedAt(WorkerStep(s, w, op), j, c)
  {
    hide Enqueued, RecordsOf;
  }

  lemma CleanupKeepsDates(s: State, op: CleanupOp, j: nat, c: int)
    requires CleanupEnabled(s, op) && RecordedAt(s, j, c)
    ensures RecordedAt(CleanupStep(s, op), j, c)
  {
    hide Enqueued, EnqueuedAll, ListsAbandoned;
  }

  lemma {:induction false} RunKeepsDates(s: State, actions: seq<Action>, j: nat, c: int)
    requires CanRun(s, actions) && RecordedAt(s, j, c)
    ensures RecordedAt(Run(s, actions), j, c)
    decreases |actions|
  {
    hide RecordedAt, UploadStep, WorkerStep, CleanupStep, DrainStep;
    if actions != [] {
      match actions[0] {
        case Uploading(i, op) => UploadKeepsDates(s, i, op, j, c);
        case Working(w, op) => WorkerKeepsDates(s, w, op, j, c);
        case Cleanup(op) => CleanupKeepsDates(s, op, j, c);
        case Draining(d, op) => DrainKeepsDates(s, d, op, j, c);
      }
      RunKeepsDates(Step(s, actions[0]), actions[1..], j, c);
    }
  }

  lemma DrainKeepsDates(s: State, d: nat, op: DrainOp, j: nat, c: int)
    requires DrainEnabled(s, d, op) && RecordedAt(s, j, c)
    ensures RecordedAt(DrainStep(s, d, op), j, c)
  {
  }

  /** The steps that record a job. */
  predicate Records(op: UploadOp) {
    op.Record? || (op.RecordFails? && op.committed)
  }

  lemma RecordSetsDates(s: State, j: nat, op: UploadOp)
    requires UploadEnabled(s, j, op) && Records(op)
    ensures RecordedAt(UploadStep(s, j, op), j, s.now) && j in UploadStep(s, j, op).db.jobs
    ensures UploadStep(s, j, op).db.jobs[j].status == Queued
  {
  }

  /** The sweep fails a job, and queues its raw object, exactly if it is still in the
      queue and was recorded more than an hour before; being claimed and requeued in
      between makes no difference. */
  lemma AbandonedAfterAnHour(s: State, j: nat, op: UploadOp, actions: seq<Action>, sweep: nat, items: seq<nat>)
    requires UploadEnabled(s, j, op) && Records(op) && CanRun(UploadStep(s, j, op), actions)
    requires var u := Run(UploadStep(s, j, op), actions); Enabled(u, Cleanup(Abandon(sweep, items))) && j in u.db.jobs
    ensures var u := Run(UploadStep(s, j, op), actions);
            var v := Step(u, Cleanup(Abandon(sweep, items)));
            && j in v.db.jobs && (j in items <==> u.db.jobs[j].status == Queued && u.now - s.now > 3_600)
            && (j in items ==> v.db.jobs[j] == u.db.jobs[j].(status := Failed) && Quarantine(j) in v.db.deletions && Quarantine(j) in v.sweeps[sweep])
            && (j !in items ==> v.db.jobs[j] == u.db.jobs[j])
  {
    RecordSetsDates(s, j, op);
    var u := Run(UploadStep(s, j, op), actions);
    RunKeepsDates(UploadStep(s, j, op), actions, j, s.now);
    AbandonEffect(u, sweep, items, j);
  }

  lemma AbandonEffect(s: State, sweep: nat, items: seq<nat>, j: nat)
    requires CleanupEnabled(s, Abandon(sweep, items)) && j in s.db.jobs
    ensures var t := CleanupStep(s, Abandon(sweep, items));
            && j in t.db.jobs && (j in items <==> s.db.jobs[j].status == Queued && s.now - s.db.jobs[j].queuedAt > 3_600)
            && t.db.jobs[j] == (if j in items then s.db.jobs[j].(status := Failed) else s.db.jobs[j])
            && sweep in t.sweeps && (j in items ==> Quarantine(j) in t.db.deletions && Quarantine(j) in t.sweeps[sweep])
  {
    if j in items {
      var i :| 0 <= i < |items| && items[i] == j;
      assert QuarantineKeys(items)[i] == Quarantine(j);
    }
    hide EnqueuedAll;
  }

  /** A purge drops a job exactly if it has finished and was recorded more than a day
      before. */
  lemma PurgedAfterADay(s: State, j: nat, op: UploadOp, actions: seq<Action>)
    requires UploadEnabled(s, j, op) && Records(op) && CanRun(UploadStep(s, j, op), actions)
    requires j in Run(UploadStep(s, j, op), actions).db.jobs
    ensures var u := Run(UploadStep(s, j, op), actions);
            var v := Step(u, Cleanup(Purge));
            && (j !in v.db.jobs <==> u.db.jobs[j].status in {Ready, Failed} && u.now - s.now > 86_400)
            && (j in v.db.jobs ==> v.db.jobs[j] == u.db.jobs[j])
  {
    RecordSetsDates(s, j, op);
    RunKeepsDates(UploadStep(s, j, op), actions, j, s.now);
  }
}
