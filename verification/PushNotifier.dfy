/** backend/internal/push/notifier.go: the bounded notification queue, its workers and its
    shutdown. Every atomic operation on shared state is one step; calls interleave. */
module PushNotifier {
  /** How far a notification has come, from enqueue to worker or drop. */
  datatype Stage =
    | Entered | Refused | Admitted | Raised | Full | Lowered
    | Queued
    | Receiving(worker: nat) | Taken
    | Draining(stop: nat) | Drained(stop: nat)
    | Dropped

  datatype WorkerPc = Selecting | Received(job: nat) | Delivering

  datatype StopPc =
    | Starting | Locking | Locked | Closed | Waiting
    | Emptying | Lowering(job: nat) | Counting(job: nat)
    | Returned

  /** sync.Once: not run, being run by one Stop call, or over. */
  datatype Once = Unused | Running(stop: nat) | Over

  /** `jobs` has one entry per enqueue call, `readers` the calls that hold the read lock.
      `queue` is the jobs channel. */
  datatype State = State(
    capacity: nat,
    jobs: map<nat, Stage>,
    readers: set<nat>,
    queue: seq<nat>,
    workers: map<nat, WorkerPc>,
    stops: map<nat, StopPc>,
    once: Once,
    writer: bool,
    cancelled: bool,
    stopping: bool,
    gauge: int,
    drops: int
  )

  datatype Action =
    | Enter(job: nat) | Check(job: nat) | Raise(job: nat) | Send(job: nat) | Lower(job: nat) | Drop(job: nat) | Leave(job: nat)
    | Cancel
    | Receive(worker: nat) | Decrement(worker: nat) | Delivered(worker: nat) | Exit(worker: nat)
    | Stop(stop: nat) | Begin(stop: nat) | Lock(stop: nat) | Close(stop: nat) | Unlock(stop: nat) | Waited(stop: nat)
    | Drain(stop: nat) | DrainLower(stop: nat) | DrainCount(stop: nat)

  function Init(capacity: nat, workers: set<nat>): State {
    State(capacity, map[], {}, [], map w | w in workers :: Selecting, map[], Unused, false, false, false, 0, 0)
  }

  predicate InEnqueue(stage: Stage) {
    stage in {Entered, Refused, Admitted, Raised, Full, Lowered}
  }

  predicate At(s: State, job: nat, stage: Stage) {
    job in s.jobs && s.jobs[job] == stage
  }

  predicate StopAt(s: State, stop: nat, pc: StopPc) {
    stop in s.stops && s.stops[stop] == pc
  }

  predicate Enabled(s: State, a: Action) {
    match a
    case Enter(j) => j !in s.jobs && !s.writer
    case Check(j) => At(s, j, Entered)
    case Raise(j) => At(s, j, Admitted)
    case Send(j) => At(s, j, Raised)
    case Lower(j) => At(s, j, Full)
    case Drop(j) => At(s, j, Refused) || At(s, j, Lowered)
    case Leave(j) => j in s.readers && j in s.jobs && !InEnqueue(s.jobs[j])
    case Cancel => true
    case Receive(w) => w in s.workers && s.workers[w] == Selecting && s.queue != []
    case Decrement(w) => w in s.workers && s.workers[w].Received?
    case Delivered(w) => w in s.workers && s.workers[w] == Delivering
    case Exit(w) => w in s.workers && s.workers[w] == Selecting && (s.cancelled || s.stopping)
    case Stop(k) => k !in s.stops
    case Begin(k) => StopAt(s, k, Starting) && !s.once.Running?
    case Lock(k) => StopAt(s, k, Locking) && !s.writer && s.readers == {}
    case Close(k) => StopAt(s, k, Locked)
    case Unlock(k) => StopAt(s, k, Closed)
    case Waited(k) => StopAt(s, k, Waiting) && s.workers == map[]
    case Drain(k) => StopAt(s, k, Emptying)
    case DrainLower(k) => k in s.stops && s.stops[k].Lowering?
    case DrainCount(k) => k in s.stops && s.stops[k].Counting?
  }

  function Step(s: State, a: Action): State
    requires Enabled(s, a)
  {
    match a
    case Enter(j) => s.(jobs := s.jobs[j := Entered], readers := s.readers + {j})
    case Check(j) => s.(jobs := s.jobs[j := if s.stopping then Refused else Admitted])
    case Raise(j) => s.(jobs := s.jobs[j := Raised], gauge := s.gauge + 1)
    case Send(j) =>
      if |s.queue| < s.capacity then s.(jobs := s.jobs[j := Queued], queue := s.queue + [j])
      else s.(jobs := s.jobs[j := Full])
    case Lower(j) => s.(jobs := s.jobs[j := Lowered], gauge := s.gauge - 1)
    case Drop(j) => s.(jobs := s.jobs[j := Dropped], drops := s.drops + 1)
    case Leave(j) => s.(readers := s.readers - {j})
    case Cancel => s.(cancelled := true)
    case Receive(w) =>
      var j := s.queue[0];
      s.(queue := s.queue[1..], workers := s.workers[w := Received(j)], jobs := s.jobs[j := Receiving(w)])
    case Decrement(w) =>
      s.(gauge := s.gauge - 1, jobs := s.jobs[s.workers[w].job := Taken], workers := s.workers[w := Delivering])
    case Delivered(w) => s.(workers := s.workers[w := Selecting])
    case Exit(w) => s.(workers := s.workers - {w})
    case Stop(k) => s.(stops := s.stops[k := Starting])
    case Begin(k) =>
      if s.once == Over then s.(stops := s.stops[k := Waiting])
      else s.(stops := s.stops[k := Locking], once := Running(k))
    case Lock(k) => s.(stops := s.stops[k := Locked], writer := true)
    case Close(k) => s.(stops := s.stops[k := Closed], stopping := true)
    case Unlock(k) => s.(stops := s.stops[k := Waiting], writer := false, once := Over)
    case Waited(k) => s.(stops := s.stops[k := Emptying])
    case Drain(k) =>
      if s.queue == [] then s.(stops := s.stops[k := Returned])
      else
        var j := s.queue[0];
        s.(queue := s.queue[1..], stops := s.stops[k := Lowering(j)], jobs := s.jobs[j := Draining(k)])
    case DrainLower(k) =>
      var j := s.stops[k].job;
      s.(gauge := s.gauge - 1, stops := s.stops[k := Counting(j)], jobs := s.jobs[j := Drained(k)])
    case DrainCount(k) =>
      s.(drops := s.drops + 1, jobs := s.jobs[s.stops[k].job := Dropped], stops := s.stops[k := Emptying])
  }

  ghost predicate CanRun(s: State, actions: seq<Action>)
    decreases |actions|
  {
    actions == [] || (Enabled(s, actions[0]) && CanRun(Step(s, actions[0]), actions[1..]))
  }

  function Run(s: State, actions: seq<Action>): State
    requires CanRun(s, actions)
    decreases |actions|
  {
    if actions == [] then s else Run(Step(s, actions[0]), actions[1..])
  }

  // ---- What every step keeps ----

  /** The stages in which the gauge counts a notification. */
  predicate Counts(stage: Stage) {
    stage in {Raised, Full, Queued} || stage.Receiving? || stage.Draining?
  }

  function Counted(jobs: map<nat, Stage>): set<nat> {
    set j | j in jobs && Counts(jobs[j])
  }

  function AllDropped(jobs: map<nat, Stage>): set<nat> {
    set j | j in jobs && jobs[j] == Dropped
  }

  ghost predicate Totals(s: State) {
    s.gauge == |Counted(s.jobs)| && s.drops == |AllDropped(s.jobs)|
  }

  /** Who a notification in transit is with. */
  ghost predicate JobInv(s: State, j: nat) {
    j in s.jobs ==>
      match s.jobs[j]
      case Queued => j in s.queue
      case Receiving(w) => w in s.workers && s.workers[w] == Received(j)
      case Draining(k) => StopAt(s, k, Lowering(j))
      case Drained(k) => StopAt(s, k, Counting(j))
      case Taken => true
      case Dropped => true
      case stage => j in s.readers && (s.stopping ==> stage !in {Admitted, Raised, Full})
  }

  ghost predicate QueueInv(s: State) {
    && (forall i :: 0 <= i < |s.queue| ==> At(s, s.queue[i], Queued))
    && (forall i, j :: 0 <= i < j < |s.queue| ==> s.queue[i] != s.queue[j])
  }

  ghost predicate WorkerInv(s: State, w: nat) {
    w in s.workers && s.workers[w].Received? ==> At(s, s.workers[w].job, Receiving(w))
  }

  ghost predicate StopInv(s: State, k: nat) {
    && (s.once == Running(k) ==> k in s.stops && s.stops[k] in {Locking, Locked, Closed} && (s.writer <==> s.stops[k] != Locking))
    && (k in s.stops ==>
          match s.stops[k]
          case Starting => true
          case Locking => s.once == Running(k)
          case Locked => s.once == Running(k)
          case Closed => s.once == Running(k) && s.stopping
          case Waiting => s.once == Over
          case Emptying => s.once == Over && s.workers == map[]
          case Lowering(j) => s.once == Over && s.workers == map[] && At(s, j, Draining(k))
          case Counting(j) => s.once == Over && s.workers == map[] && At(s, j, Drained(k))
          case Returned => s.once == Over && s.workers == map[] && s.queue == [])
  }

  ghost predicate LockInv(s: State) {
    && s.readers <= s.jobs.Keys
    && (s.writer ==> s.readers == {} && s.once.Running?)
    && (s.once == Over ==> s.stopping)
  }

  ghost predicate Inv(s: State) {
    && Totals(s) && QueueInv(s) && LockInv(s)
    && (forall j :: JobInv(s, j)) && (forall w :: WorkerInv(s, w)) && (forall k :: StopInv(s, k))
  }

  predicate ByEnqueue(a: Action) {
    a.Enter? || a.Check? || a.Raise? || a.Send? || a.Lower? || a.Drop? || a.Leave?
  }

  predicate ByWorker(a: Action) {
    a.Receive? || a.Decrement? || a.Delivered? || a.Exit?
  }

  predicate ByStop(a: Action) {
    a != Cancel && !ByEnqueue(a) && !ByWorker(a)
  }

  lemma SetMove(before: set<nat>, j: nat)
    ensures |before + {j}| == |before| + if j in before then 0 else 1
    ensures |before - {j}| == |before| - if j in before then 1 else 0
  {
    if j in before { assert before + {j} == before; } else { assert before - {j} == before; }
  }

  lemma CountedMove(jobs: map<nat, Stage>, j: nat, stage: Stage)
    ensures |Counted(jobs[j := stage])| == |Counted(jobs)| + (if Counts(stage) then 1 else 0) - (if j in jobs && Counts(jobs[j]) then 1 else 0)
  {
    SetMove(Counted(jobs), j);
    assert Counted(jobs[j := stage]) == if Counts(stage) then Counted(jobs) + {j} else Counted(jobs) - {j};
  }

  lemma DroppedMove(jobs: map<nat, Stage>, j: nat, stage: Stage)
    ensures |AllDropped(jobs[j := stage])| == |AllDropped(jobs)| + (if stage == Dropped then 1 else 0) - (if j in jobs && jobs[j] == Dropped then 1 else 0)
  {
    SetMove(AllDropped(jobs), j);
    assert AllDropped(jobs[j := stage]) == if stage == Dropped then AllDropped(jobs) + {j} else AllDropped(jobs) - {j};
  }

  /** One notification moves to another stage. */
  lemma OneMove(jobs: map<nat, Stage>, j: nat, stage: Stage)
    ensures var after := jobs[j := stage];
            && |Counted(after)| == |Counted(jobs)| + (if Counts(stage) then 1 else 0) - (if j in jobs && Counts(jobs[j]) then 1 else 0)
            && |AllDropped(after)| == |AllDropped(jobs)| + (if stage == Dropped then 1 else 0) - (if j in jobs && jobs[j] == Dropped then 1 else 0)
  {
    hide Counted, AllDropped, Counts;
    CountedMove(jobs, j, stage);
    DroppedMove(jobs, j, stage);
  }

  lemma EnqueueKeepsTotals(s: State, a: Action)
    requires Enabled(s, a) && ByEnqueue(a) && Totals(s)
    ensures Totals(Step(s, a))
  {
    hide Counted, AllDropped;
    match a
    case Enter(j) => OneMove(s.jobs, j, Entered);
    case Check(j) => OneMove(s.jobs, j, if s.stopping then Refused else Admitted);
    case Raise(j) => OneMove(s.jobs, j, Raised);
    case Send(j) => OneMove(s.jobs, j, if |s.queue| < s.capacity then Queued else Full);
    case Lower(j) => OneMove(s.jobs, j, Lowered);
    case Drop(j) => OneMove(s.jobs, j, Dropped);
    case _ =>
  }

  /** Gauge and drops follow one notification. */
  lemma MoveKeepsTotals(s: State, t: State, j: nat, stage: Stage)
    requires Totals(s) && j in s.jobs && t.jobs == s.jobs[j := stage]
    requires t.gauge == s.gauge + (if Counts(stage) then 1 else 0) - (if Counts(s.jobs[j]) then 1 else 0)
    requires t.drops == s.drops + (if stage == Dropped then 1 else 0) - (if s.jobs[j] == Dropped then 1 else 0)
    ensures Totals(t)
  {
    hide Counted, AllDropped, Counts;
    OneMove(s.jobs, j, stage);
  }

  lemma ReceiverKeepsTotals(s: State, a: Action)
    requires Enabled(s, a) && (ByWorker(a) || ByStop(a)) && Totals(s) && QueueInv(s)
    requires if ByWorker(a) then WorkerInv(s, a.worker) else StopInv(s, a.stop)
    ensures Totals(Step(s, a))
  {
    var t := Step(s, a);
    match a
    case Receive(w) => hide Totals; MoveKeepsTotals(s, t, s.queue[0], Receiving(w));
    case Decrement(w) => hide Totals; MoveKeepsTotals(s, t, s.workers[w].job, Taken);
    case Drain(k) => hide Counted, AllDropped; if s.queue != [] { MoveKeepsTotals(s, t, s.queue[0], Draining(k)); }
    case DrainLower(k) => hide Totals; MoveKeepsTotals(s, t, s.stops[k].job, Drained(k));
    case DrainCount(k) => hide Totals; MoveKeepsTotals(s, t, s.stops[k].job, Dropped);
    case _ => hide Counted, AllDropped, QueueInv, WorkerInv, StopInv;
  }

  lemma StepKeepsTotals(s: State, a: Action)
    requires Enabled(s, a) && Inv(s)
    ensures Totals(Step(s, a))
  {
    if ByEnqueue(a) {
      EnqueueKeepsTotals(s, a);
    } else if a != Cancel {
      hide Totals, QueueInv, JobInv, LockInv, Step;
      ReceiverKeepsTotals(s, a);
    }
  }

  lemma EnqueueKeepsQueue(s: State, a: Action)
    requires Enabled(s, a) && ByEnqueue(a) && QueueInv(s)
    ensures QueueInv(Step(s, a))
  {
    if a.Send? { SendKeepsQueue(s, a.job); }
  }

  lemma SendKeepsQueue(s: State, j: nat)
    requires Enabled(s, Action.Send(j)) && QueueInv(s)
    ensures QueueInv(Step(s, Action.Send(j)))
  {
    var t := Step(s, Action.Send(j));
    if |s.queue| < s.capacity {
      assert t.queue == s.queue + [j] && t.jobs == s.jobs[j := Queued];
      hide Step;
      forall i | 0 <= i < |t.queue| ensures At(t, t.queue[i], Queued) && (i < |s.queue| ==> t.queue[i] != j) {
        if i < |s.queue| { assert At(s, s.queue[i], Queued); }
      }
    }
  }

  lemma WorkerKeepsQueue(s: State, a: Action)
    requires Enabled(s, a) && ByWorker(a) && QueueInv(s) && WorkerInv(s, a.worker)
    ensures QueueInv(Step(s, a))
  {
  }

  lemma DrainKeepsQueue(s: State, a: Action)
    requires Enabled(s, a) && (a.Drain? || a.DrainLower? || a.DrainCount?) && QueueInv(s) && StopInv(s, a.stop)
    ensures QueueInv(Step(s, a))
  {
  }

  lemma SameQueue(s: State, t: State)
    requires QueueInv(s) && t.jobs == s.jobs && t.queue == s.queue
    ensures QueueInv(t)
  {
  }

  lemma StopKeepsQueue(s: State, a: Action)
    requires Enabled(s, a) && ByStop(a) && QueueInv(s) && StopInv(s, a.stop)
    ensures QueueInv(Step(s, a))
  {
    hide QueueInv, StopInv;
    if a.Drain? || a.DrainLower? || a.DrainCount? { DrainKeepsQueue(s, a); } else { SameQueue(s, Step(s, a)); }
  }

  lemma StepKeepsQueue(s: State, a: Action)
    requires Enabled(s, a) && Inv(s)
    ensures QueueInv(Step(s, a))
  {
    hide Totals, LockInv, JobInv, QueueInv, WorkerInv, StopInv;
    if ByEnqueue(a) {
      EnqueueKeepsQueue(s, a);
    } else if ByWorker(a) {
      WorkerKeepsQueue(s, a);
    } else if ByStop(a) {
      StopKeepsQueue(s, a);
    } else {
      SameQueue(s, Step(s, a));
    }
  }

  lemma StepKeepsLock(s: State, a: Action)
    requires Enabled(s, a) && Inv(s)
    ensures LockInv(Step(s, a))
  {
    hide Totals, QueueInv, JobInv, WorkerInv;
    match a
    case Lock(k) => assert StopInv(s, k);
    case Close(k) => assert StopInv(s, k);
    case Unlock(k) => assert StopInv(s, k);
    case _ =>
  }

  lemma EnqueueKeepsJob(s: State, a: Action, j: nat)
    requires Enabled(s, a) && ByEnqueue(a) && LockInv(s) && JobInv(s, j)
    ensures JobInv(Step(s, a), j)
  {
  }

  lemma WorkerKeepsJob(s: State, a: Action, j: nat)
    requires Enabled(s, a) && ByWorker(a) && QueueInv(s) && JobInv(s, j) && WorkerInv(s, a.worker)
    ensures JobInv(Step(s, a), j)
  {
  }

  lemma StopKeepsJob(s: State, a: Action, j: nat)
    requires Enabled(s, a) && ByStop(a) && QueueInv(s) && LockInv(s) && JobInv(s, j) && StopInv(s, a.stop)
    ensures JobInv(Step(s, a), j)
  {
  }

  lemma StepKeepsJob(s: State, a: Action, j: nat)
    requires Enabled(s, a) && Inv(s)
    ensures JobInv(Step(s, a), j)
  {
    assert JobInv(s, j);
    if ByEnqueue(a) {
      EnqueueKeepsJob(s, a, j);
    } else if ByWorker(a) {
      WorkerKeepsJob(s, a, j);
    } else if ByStop(a) {
      StopKeepsJob(s, a, j);
    }
  }

  lemma EnqueueKeepsWorker(s: State, a: Action, w: nat)
    requires Enabled(s, a) && ByEnqueue(a) && WorkerInv(s, w)
    ensures WorkerInv(Step(s, a), w)
  {
  }

  lemma WorkerKeepsWorker(s: State, a: Action, w: nat)
    requires Enabled(s, a) && ByWorker(a) && QueueInv(s) && WorkerInv(s, w) && WorkerInv(s, a.worker)
    ensures WorkerInv(Step(s, a), w)
  {
  }

  lemma StopKeepsWorker(s: State, a: Action, w: nat)
    requires Enabled(s, a) && ByStop(a) && QueueInv(s) && WorkerInv(s, w) && StopInv(s, a.stop)
    ensures WorkerInv(Step(s, a), w)
  {
  }

  lemma StepKeepsWorker(s: State, a: Action, w: nat)
    requires Enabled(s, a) && Inv(s)
    ensures WorkerInv(Step(s, a), w)
  {
    assert WorkerInv(s, w);
    hide Totals, QueueInv, LockInv, JobInv, StopInv;
    if ByEnqueue(a) {
      EnqueueKeepsWorker(s, a, w);
    } else if ByWorker(a) {
      WorkerKeepsWorker(s, a, w);
    } else if ByStop(a) {
      StopKeepsWorker(s, a, w);
    }
  }

  lemma EnqueueKeepsStop(s: State, a: Action, k: nat)
    requires Enabled(s, a) && ByEnqueue(a) && StopInv(s, k) && LockInv(s) && (a.Send? ==> JobInv(s, a.job))
    ensures StopInv(Step(s, a), k)
  {
  }

  lemma WorkerKeepsStop(s: State, a: Action, k: nat)
    requires Enabled(s, a) && ByWorker(a) && QueueInv(s) && WorkerInv(s, a.worker) && StopInv(s, k)
    ensures StopInv(Step(s, a), k)
  {
  }

  lemma ShutdownKeepsStop(s: State, a: Action, k: nat)
    requires Enabled(s, a) && ByStop(a) && !a.Drain? && !a.DrainLower? && !a.DrainCount? && LockInv(s) && StopInv(s, k) && StopInv(s, a.stop)
    ensures StopInv(Step(s, a), k)
  {
  }

  lemma DrainKeepsStop(s: State, a: Action, k: nat)
    requires Enabled(s, a) && (a.Drain? || a.DrainLower? || a.DrainCount?) && QueueInv(s) && StopInv(s, k) && StopInv(s, a.stop)
    ensures StopInv(Step(s, a), k)
  {
  }

  lemma StepKeepsStop(s: State, a: Action, k: nat)
    requires Enabled(s, a) && Inv(s)
    ensures StopInv(Step(s, a), k)
  {
    assert StopInv(s, k);
    hide Totals, QueueInv, LockInv, JobInv, WorkerInv;
    if ByEnqueue(a) {
      EnqueueKeepsStop(s, a, k);
    } else if ByWorker(a) {
      WorkerKeepsStop(s, a, k);
    } else if a.Drain? || a.DrainLower? || a.DrainCount? {
      DrainKeepsStop(s, a, k);
    } else if ByStop(a) {
      ShutdownKeepsStop(s, a, k);
    }
  }

  lemma StepKeepsInv(s: State, a: Action)
    requires Enabled(s, a) && Inv(s)
    ensures Inv(Step(s, a))
  {
    hide Step, Totals, QueueInv, LockInv, JobInv, WorkerInv, StopInv;
    StepKeepsTotals(s, a);
    StepKeepsQueue(s, a);
    StepKeepsLock(s, a);
    forall j ensures JobInv(Step(s, a), j) { StepKeepsJob(s, a, j); }
    forall w ensures WorkerInv(Step(s, a), w) { StepKeepsWorker(s, a, w); }
    forall k ensures StopInv(Step(s, a), k) { StepKeepsStop(s, a, k); }
  }

  lemma {:induction false} RunKeepsInv(s: State, actions: seq<Action>)
    requires CanRun(s, actions) && Inv(s)
    ensures Inv(Run(s, actions))
    decreases |actions|
  {
    if actions != [] {
      StepKeepsInv(s, actions[0]);
      RunKeepsInv(Step(s, actions[0]), actions[1..]);
    }
  }

  lemma InitInv(capacity: nat, workers: set<nat>)
    ensures Inv(Init(capacity, workers))
  {
    var s := Init(capacity, workers);
    assert Counted(s.jobs) == {} && AllDropped(s.jobs) == {};
  }

  ghost predicate Reachable(s: State) {
    exists capacity, workers, actions ::
      CanRun(Init(capacity, workers), actions) && s == Run(Init(capacity, workers), actions)
  }

  lemma ReachableInv(s: State)
    requires Reachable(s)
    ensures Inv(s)
  {
    var capacity, workers, actions :| CanRun(Init(capacity, workers), actions) && s == Run(Init(capacity, workers), actions);
    InitInv(capacity, workers);
    RunKeepsInv(Init(capacity, workers), actions);
  }

  // ---- The gauge ----

  /** In every reachable state the gauge counts the queue and what is in transit to or
      from it, so it is never negative. */
  lemma GaugeNeverNegative(s: State)
    requires Reachable(s)
    ensures 0 <= |s.queue| <= s.gauge == |Counted(s.jobs)|
  {
    ReachableInv(s);
    var queued := set j | j in s.queue;
    DistinctSize(s.queue, queued);
    forall j | j in queued ensures j in Counted(s.jobs) {
      var i :| 0 <= i < |s.queue| && s.queue[i] == j;
      assert At(s, s.queue[i], Queued);
    }
    SubsetSize(queued, Counted(s.jobs));
  }

  lemma SubsetSize(a: set<nat>, b: set<nat>)
    requires a <= b
    ensures |a| <= |b|
  {
    assert b == a + (b - a);
  }

  lemma {:induction false} DistinctSize(queue: seq<nat>, elements: set<nat>)
    requires elements == (set j | j in queue) && forall i, j :: 0 <= i < j < |queue| ==> queue[i] != queue[j]
    ensures |elements| == |queue|
  {
    if queue == [] {
      assert elements == {};
    } else {
      DistinctSize(queue[1..], elements - {queue[0]});
    }
  }

  /** The Stop calls between receiving a leftover notification and lowering the gauge. */
  function LoweringStops(stops: map<nat, StopPc>): set<nat> {
    set k | k in stops && stops[k].Lowering?
  }

  lemma {:induction false} PairedSize(s: State, js: set<nat>, ks: set<nat>)
    requires forall j :: j in js ==> j in s.jobs && s.jobs[j].Draining? && s.jobs[j].stop in ks && StopAt(s, s.jobs[j].stop, Lowering(j))
    requires forall k :: k in ks ==> k in s.stops && s.stops[k].Lowering? && s.stops[k].job in js && At(s, s.stops[k].job, Draining(k))
    ensures |js| == |ks|
    decreases |js|
  {
    if js != {} {
      var j :| j in js;
      PairedSize(s, js - {j}, ks - {s.jobs[j].stop});
    }
  }

  /** Once a Stop call has returned, the gauge is the number of other Stop calls that
      have received a leftover notification and not yet lowered the gauge for it. */
  lemma GaugeAfterStop(s: State, stop: nat)
    requires Reachable(s) && StopAt(s, stop, Returned)
    ensures s.gauge == |LoweringStops(s.stops)| && s.queue == [] && s.workers == map[]
  {
    ReachableInv(s);
    assert StopInv(s, stop);
    forall j | j in Counted(s.jobs)
      ensures s.jobs[j].Draining? && s.jobs[j].stop in LoweringStops(s.stops) && StopAt(s, s.jobs[j].stop, Lowering(j))
    {
      assert JobInv(s, j);
    }
    forall k | k in LoweringStops(s.stops)
      ensures s.stops[k].job in Counted(s.jobs) && At(s, s.stops[k].job, Draining(k))
    {
      assert StopInv(s, k);
    }
    PairedSize(s, Counted(s.jobs), LoweringStops(s.stops));
  }

  /** So it is 0 exactly when no other Stop call is there, as when only one was made. */
  lemma GaugeZeroAfterStop(s: State, stop: nat)
    requires Reachable(s) && StopAt(s, stop, Returned)
    ensures s.gauge == 0 <==> forall k :: k in s.stops ==> !s.stops[k].Lowering?
  {
    GaugeAfterStop(s, stop);
    forall k | k in s.stops && s.stops[k].Lowering? ensures s.gauge != 0 {
      assert k in LoweringStops(s.stops);
    }
  }

  // ---- Every notification is accounted for ----

  predicate Finished(s: State, job: nat) {
    job in s.jobs && job !in s.readers
  }

  /** After a Stop call has returned, a finished enqueue was taken by a worker, was
      dropped, or is being counted as a drop by another Stop call. */
  lemma FinishedAfterStop(s: State, stop: nat, job: nat)
    requires Reachable(s) && StopAt(s, stop, Returned) && Finished(s, job)
    ensures s.jobs[job] in {Taken, Dropped}
            || (s.jobs[job].Draining? && StopAt(s, s.jobs[job].stop, Lowering(job)))
            || (s.jobs[job].Drained? && StopAt(s, s.jobs[job].stop, Counting(job)))
  {
    ReachableInv(s);
    assert StopInv(s, stop) && JobInv(s, job);
  }

  function AllTaken(jobs: map<nat, Stage>): set<nat> {
    set j | j in jobs && jobs[j] == Taken
  }

  /** With every Stop call back and no enqueue in progress, the gauge is 0 and the
      notifications are those taken plus those counted as drops. */
  lemma EverythingAccountedFor(s: State, stop: nat)
    requires Reachable(s) && StopAt(s, stop, Returned) && (forall k :: k in s.stops ==> s.stops[k] == Returned) && s.readers == {}
    ensures s.gauge == 0 && |s.jobs| == |AllTaken(s.jobs)| + s.drops
  {
    ReachableInv(s);
    GaugeZeroAfterStop(s, stop);
    forall j | j in s.jobs ensures s.jobs[j] in {Taken, Dropped} {
      FinishedAfterStop(s, stop, j);
    }
    assert s.jobs.Keys == AllTaken(s.jobs) + AllDropped(s.jobs);
    assert AllTaken(s.jobs) !! AllDropped(s.jobs);
    assert |s.jobs| == |s.jobs.Keys|;
  }

  // ---- Two Stop calls at once ----

  lemma {:induction false} RunAppend(start: State, so: seq<Action>, a: Action)
    requires CanRun(start, so) && Enabled(Run(start, so), a)
    ensures CanRun(start, so + [a]) && Run(start, so + [a]) == Step(Run(start, so), a)
    decreases |so|
  {
    if so != [] {
      RunAppend(Step(start, so[0]), so[1..], a);
      assert (so + [a])[1..] == so[1..] + [a];
    }
  }

  lemma Next(s: State, a: Action, t: State)
    requires Reachable(s) && Enabled(s, a) && t == Step(s, a)
    ensures Reachable(t)
  {
    var capacity, workers, actions :| CanRun(Init(capacity, workers), actions) && s == Run(Init(capacity, workers), actions);
    RunAppend(Init(capacity, workers), actions, a);
  }

  lemma InitReachable(capacity: nat, workers: set<nat>)
    ensures Reachable(Init(capacity, workers))
  {
    assert CanRun(Init(capacity, workers), []) && Run(Init(capacity, workers), []) == Init(capacity, workers);
  }

  /** No workers, one queued notification, and the Stop calls given. */
  function Leftover(stops: map<nat, StopPc>, once: Once): State {
    State(1, map[0 := Queued], {}, [0], map[], stops, once, false, false, once == Over, 1, 0)
  }

  lemma OneQueued()
    ensures Reachable(Leftover(map[], Unused))
  {
    hide Reachable;
    InitReachable(1, {});
    var s0 := State(1, map[], {}, [], map[], map[], Unused, false, false, false, 0, 0);
    assert Init(1, {}) == s0;
    var s1 := s0.(jobs := map[0 := Entered], readers := {0});
    var s2 := s1.(jobs := map[0 := Admitted]);
    var s3 := s1.(jobs := map[0 := Raised], gauge := 1);
    var s4 := s1.(jobs := map[0 := Queued], gauge := 1, queue := [0]);
    Next(s0, Enter(0), s1);
    Next(s1, Check(0), s2);
    Next(s2, Raise(0), s3);
    Next(s3, Send(0), s4);
    Next(s4, Leave(0), Leftover(map[], Unused));
  }

  lemma OneLocking()
    ensures Reachable(Leftover(map[0 := Locking], Running(0)))
  {
    hide Reachable;
    OneQueued();
    Next(Leftover(map[], Unused), Stop(0), Leftover(map[0 := Starting], Unused));
    Next(Leftover(map[0 := Starting], Unused), Begin(0), Leftover(map[0 := Locking], Running(0)));
  }

  lemma OneWaiting()
    ensures Reachable(Leftover(map[0 := Waiting], Over))
  {
    hide Reachable;
    OneLocking();
    var locking, waiting := Leftover(map[0 := Locking], Running(0)), Leftover(map[0 := Waiting], Over);
    var locked := locking.(stops := map[0 := Locked], writer := true);
    var closed := locked.(stops := map[0 := Closed], stopping := true);
    Next(locking, Lock(0), locked);
    Next(locked, Close(0), closed);
    Next(closed, Unlock(0), waiting);
  }

  lemma BothEmptying()
    ensures Reachable(Leftover(map[0 := Emptying, 1 := Emptying], Over))
  {
    hide Reachable;
    OneWaiting();
    Next(Leftover(map[0 := Waiting], Over), Waited(0), Leftover(map[0 := Emptying], Over));
    Next(Leftover(map[0 := Emptying], Over), Stop(1), Leftover(map[0 := Emptying, 1 := Starting], Over));
    Next(Leftover(map[0 := Emptying, 1 := Starting], Over), Begin(1), Leftover(map[0 := Emptying, 1 := Waiting], Over));
    Next(Leftover(map[0 := Emptying, 1 := Waiting], Over), Waited(1), Leftover(map[0 := Emptying, 1 := Emptying], Over));
  }

  /** A Stop call can return while the gauge is still 1: another one has received the
      last leftover notification but not lowered the gauge yet. */
  lemma StopReturnsWithGaugeRaised() returns (s: State)
    ensures Reachable(s) && StopAt(s, 1, Returned) && s.gauge == 1
  {
    hide Reachable;
    BothEmptying();
    var both := Leftover(map[0 := Emptying, 1 := Emptying], Over);
    var one := both.(jobs := map[0 := Draining(0)], queue := [], stops := map[0 := Lowering(0), 1 := Emptying]);
    s := one.(stops := map[0 := Lowering(0), 1 := Returned]);
    Next(both, Drain(0), one);
    Next(one, Drain(1), s);
  }

  // ---- Delivery gates ----

  const MAX_HOSTS := 32

  /** One counting semaphore of a push-service host. */
  class Gate {
    const capacity: int
    constructor (capacity: int)
      ensures this.capacity == capacity
    {
      this.capacity := capacity;
    }
  }

  class HostGates {
    var gates: map<string, Gate>
    const overflow: Gate
    const perHost: int

    constructor (perHost: int)
      ensures gates == map[] && fresh(overflow) && this.perHost == perHost
    {
      gates, this.perHost := map[], perHost;
      overflow := new Gate(perHost);
    }

    /** At most MAX_HOSTS hosts get a gate of their own. Neither those nor the hosts that
        share the overflow gate ever change over, whoever asks next. */
    method HostSem(host: string) returns (gate: Gate)
      requires |gates| <= MAX_HOSTS
      modifies this
      ensures |gates| <= MAX_HOSTS
      ensures forall h :: h in old(gates) ==> h in gates && gates[h] == old(gates)[h]
      ensures old(|gates|) == MAX_HOSTS ==> gates == old(gates)
      ensures gate == if host in gates then gates[host] else overflow
      ensures host !in gates ==> |gates| == MAX_HOSTS
      ensures host !in old(gates) && host in gates ==> fresh(gate) && gate.capacity == if perHost < 1 then 2 else perHost
    {
      if host in gates { return gates[host]; }
      if |gates| >= MAX_HOSTS { return overflow; }
      gate := new Gate(if perHost < 1 then 2 else perHost);
      gates := gates[host := gate];
    }
  }
}
