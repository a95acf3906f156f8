/** What calls of backend/internal/push/notifier.go amount to: an enqueue never blocks and
    queues exactly if there is room, workers deliver oldest first until told to stop, and
    a Stop empties the queue. */
module PushRuns {
  import opened PushNotifier

  // ---- Runs put together ----

  lemma RunOne(s: State, a: Action)
    requires Enabled(s, a)
    ensures CanRun(s, [a]) && Run(s, [a]) == Step(s, a)
  {
    hide Step, Enabled;
    assert [a][1..] == [] && CanRun(Step(s, a), []) && Run(Step(s, a), []) == Step(s, a);
  }

  lemma {:induction false} RunTwice(s: State, a: seq<Action>, b: seq<Action>)
    requires CanRun(s, a) && CanRun(Run(s, a), b)
    ensures CanRun(s, a + b) && Run(s, a + b) == Run(Run(s, a), b)
    decreases |a|
  {
    hide Step, Enabled;
    if a == [] {
      assert a + b == b;
    } else {
      assert (a + b)[1..] == a[1..] + b;
      RunTwice(Step(s, a[0]), a[1..], b);
    }
  }

  lemma RunThen(s: State, actions: seq<Action>, a: Action)
    requires CanRun(s, actions) && Enabled(Run(s, actions), a)
    ensures CanRun(s, actions + [a]) && Run(s, actions + [a]) == Step(Run(s, actions), a)
  {
    RunOne(Run(s, actions), a);
    RunTwice(s, actions, [a]);
  }

  // ---- Enqueue ----

  /** The steps of one enqueue call, by what it meets. */
  function EnqueueCall(j: nat, stopping: bool, full: bool): seq<Action> {
    if stopping then [Enter(j), Check(j), Action.Drop(j), Leave(j)]
    else if full then [Enter(j), Check(j), Raise(j), Send(j), Lower(j), Action.Drop(j), Leave(j)]
    else [Enter(j), Check(j), Raise(j), Send(j), Leave(j)]
  }

  /** Unless a Stop holds the lock an enqueue runs to its end without waiting. It queues the
      notification behind the others if there is room, and drops it, counting the drop,
      if there is none or once a Stop has begun. */
  lemma EnqueueNeverBlocks(s: State, j: nat)
    requires j !in s.jobs && !s.writer && j !in s.readers
    ensures var full := |s.queue| >= s.capacity;
            var call := EnqueueCall(j, s.stopping, full);
            && CanRun(s, call)
            && Run(s, call) == if s.stopping || full then s.(jobs := s.jobs[j := Dropped], drops := s.drops + 1)
                               else s.(jobs := s.jobs[j := Queued], queue := s.queue + [j], gauge := s.gauge + 1)
  {
    assert s.readers + {j} - {j} == s.readers;
    if s.stopping { Refusal(s, j); } else if |s.queue| >= s.capacity { Overflow(s, j); } else { Acceptance(s, j); }
  }

  lemma Refusal(s: State, j: nat)
    requires j !in s.jobs && !s.writer && s.stopping && s.readers + {j} - {j} == s.readers
    ensures var call := [Enter(j), Check(j), Action.Drop(j), Leave(j)];
            CanRun(s, call) && Run(s, call) == s.(jobs := s.jobs[j := Dropped], drops := s.drops + 1)
  {
    var a := s.(jobs := s.jobs[j := Entered], readers := s.readers + {j});
    var b := a.(jobs := s.jobs[j := Refused]);
    var c := b.(jobs := s.jobs[j := Dropped], drops := s.drops + 1);
    assert a.jobs[j := Refused] == b.jobs && b.jobs[j := Dropped] == c.jobs;
    RunFour(s, a, b, c, c.(readers := s.readers), Enter(j), Check(j), Action.Drop(j), Leave(j));
  }

  lemma RunFour(s: State, a: State, b: State, c: State, d: State, x: Action, y: Action, z: Action, w: Action)
    requires Enabled(s, x) && a == Step(s, x) && Enabled(a, y) && b == Step(a, y) && Enabled(b, z) && c == Step(b, z) && Enabled(c, w) && d == Step(c, w)
    ensures CanRun(s, [x, y, z, w]) && Run(s, [x, y, z, w]) == d
  {
    hide Step, Enabled;
    RunOne(s, x);
    RunThen(s, [x], y);
    assert [x] + [y] == [x, y];
    RunThen(s, [x, y], z);
    assert [x, y] + [z] == [x, y, z];
    RunThen(s, [x, y, z], w);
    assert [x, y, z] + [w] == [x, y, z, w];
  }

  lemma RunThree(s: State, a: State, b: State, c: State, x: Action, y: Action, z: Action)
    requires Enabled(s, x) && a == Step(s, x) && Enabled(a, y) && b == Step(a, y) && Enabled(b, z) && c == Step(b, z)
    ensures CanRun(s, [x, y, z]) && Run(s, [x, y, z]) == c
  {
    hide Step, Enabled;
    RunOne(s, x);
    RunThen(s, [x], y);
    assert [x] + [y] == [x, y];
    RunThen(s, [x, y], z);
    assert [x, y] + [z] == [x, y, z];
  }

  lemma RunJoin(s: State, m: State, t: State, a: seq<Action>, b: seq<Action>, c: seq<Action>)
    requires CanRun(s, a) && m == Run(s, a) && CanRun(m, b) && t == Run(m, b) && c == a + b
    ensures CanRun(s, c) && Run(s, c) == t
  {
    RunTwice(s, a, b);
  }

  lemma Acceptance(s: State, j: nat)
    requires j !in s.jobs && !s.writer && !s.stopping && |s.queue| < s.capacity && s.readers + {j} - {j} == s.readers
    ensures var call := [Enter(j), Check(j), Raise(j), Send(j), Leave(j)];
            CanRun(s, call) && Run(s, call) == s.(jobs := s.jobs[j := Queued], queue := s.queue + [j], gauge := s.gauge + 1)
  {
    var a := s.(jobs := s.jobs[j := Entered], readers := s.readers + {j});
    var b := a.(jobs := s.jobs[j := Admitted]);
    var c := b.(jobs := s.jobs[j := Raised], gauge := s.gauge + 1);
    var d := c.(jobs := s.jobs[j := Queued], queue := s.queue + [j]);
    assert a.jobs[j := Admitted] == b.jobs && b.jobs[j := Raised] == c.jobs && c.jobs[j := Queued] == d.jobs;
    RunFour(s, a, b, c, d, Enter(j), Check(j), Raise(j), Send(j));
    RunOne(d, Leave(j));
    var t := d.(readers := s.readers);
    assert Step(d, Leave(j)) == t;
    hide Step, Enabled;
    RunJoin(s, d, t, [Enter(j), Check(j), Raise(j), Send(j)], [Leave(j)], [Enter(j), Check(j), Raise(j), Send(j), Leave(j)]);
  }

  lemma FourSteps(s: State, a: State, b: State, c: State, d: State, j: nat)
    requires j !in s.jobs && !s.writer && !s.stopping && |s.queue| >= s.capacity
    requires a == s.(jobs := s.jobs[j := Entered], readers := s.readers + {j}) && b == a.(jobs := a.jobs[j := Admitted])
    requires c == b.(jobs := b.jobs[j := Raised], gauge := b.gauge + 1) && d == c.(jobs := c.jobs[j := Full])
    ensures Enabled(s, Enter(j)) && a == Step(s, Enter(j)) && Enabled(a, Check(j)) && b == Step(a, Check(j))
    ensures Enabled(b, Raise(j)) && c == Step(b, Raise(j)) && Enabled(c, Send(j)) && d == Step(c, Send(j))
  {
  }

  lemma ThreeSteps(d: State, e: State, f: State, t: State, j: nat)
    requires At(d, j, Full) && j in d.readers
    requires e == d.(jobs := d.jobs[j := Lowered], gauge := d.gauge - 1) && f == e.(jobs := e.jobs[j := Dropped], drops := e.drops + 1)
    requires t == f.(readers := f.readers - {j})
    ensures Enabled(d, Lower(j)) && e == Step(d, Lower(j)) && Enabled(e, Action.Drop(j)) && f == Step(e, Action.Drop(j))
    ensures Enabled(f, Leave(j)) && t == Step(f, Leave(j))
  {
  }

  lemma Overflow(s: State, j: nat)
    requires j !in s.jobs && !s.writer && !s.stopping && |s.queue| >= s.capacity && s.readers + {j} - {j} == s.readers
    ensures var call := [Enter(j), Check(j), Raise(j), Send(j), Lower(j), Action.Drop(j), Leave(j)];
            CanRun(s, call) && Run(s, call) == s.(jobs := s.jobs[j := Dropped], drops := s.drops + 1)
  {
    var a := s.(jobs := s.jobs[j := Entered], readers := s.readers + {j});
    var b := a.(jobs := s.jobs[j := Admitted]);
    var c := b.(jobs := s.jobs[j := Raised], gauge := s.gauge + 1);
    var d := c.(jobs := s.jobs[j := Full]);
    var e := d.(jobs := s.jobs[j := Lowered], gauge := s.gauge);
    var f := e.(jobs := s.jobs[j := Dropped], drops := s.drops + 1);
    assert a.jobs[j := Admitted] == b.jobs && b.jobs[j := Raised] == c.jobs && c.jobs[j := Full] == d.jobs && d.jobs[j := Lowered] == e.jobs && e.jobs[j := Dropped] == f.jobs;
    var t := f.(readers := s.readers);
    FourSteps(s, a, b, c, d, j);
    ThreeSteps(d, e, f, t, j);
    hide Step, Enabled;
    RunFour(s, a, b, c, d, Enter(j), Check(j), Raise(j), Send(j));
    RunThree(d, e, f, t, Lower(j), Action.Drop(j), Leave(j));
    RunJoin(s, d, t, [Enter(j), Check(j), Raise(j), Send(j)], [Lower(j), Action.Drop(j), Leave(j)],
            [Enter(j), Check(j), Raise(j), Send(j), Lower(j), Action.Drop(j), Leave(j)]);
  }

  // ---- Workers ----

  /** A worker takes the oldest notification, lowers the gauge, delivers, and is back. */
  lemma WorkerTakesTheOldest(s: State, w: nat)
    requires w in s.workers && s.workers[w] == Selecting && s.queue != []
    ensures var turn := [Receive(w), Decrement(w), Delivered(w)];
            && CanRun(s, turn)
            && Run(s, turn) == s.(queue := s.queue[1..], jobs := s.jobs[s.queue[0] := Taken], gauge := s.gauge - 1)
  {
    var j := s.queue[0];
    var a := s.(queue := s.queue[1..], workers := s.workers[w := Received(j)], jobs := s.jobs[j := Receiving(w)]);
    var b := s.(queue := s.queue[1..], workers := s.workers[w := Delivering], jobs := s.jobs[j := Taken], gauge := s.gauge - 1);
    var c := s.(queue := s.queue[1..], jobs := s.jobs[j := Taken], gauge := s.gauge - 1);
    assert a.workers[w := Delivering] == b.workers && b.workers[w := Selecting] == s.workers && a.jobs[j := Taken] == b.jobs;
    RunThree(s, a, b, c, Receive(w), Decrement(w), Delivered(w));
  }

  /** Workers stay until the run context is cancelled or a Stop has begun; from then on one
      that is not delivering can go. */
  lemma {:induction false} WorkersStayUntilTold(s: State, actions: seq<Action>)
    requires CanRun(s, actions) && !s.cancelled && !s.stopping
    ensures var t := Run(s, actions);
            && (t.cancelled <==> Cancel in actions)
            && (t.stopping <==> exists k :: Close(k) in actions)
            && (!t.cancelled && !t.stopping ==> t.workers.Keys == s.workers.Keys)
            && forall w :: w in t.workers && t.workers[w] == Selecting && (t.cancelled || t.stopping) ==> Enabled(t, Exit(w))
    decreases |actions|
  {
    ToldIff(s, actions);
    if actions != [] {
      if !Step(s, actions[0]).cancelled && !Step(s, actions[0]).stopping {
        assert Step(s, actions[0]).workers.Keys == s.workers.Keys by { StepKeepsWorkers(s, actions[0]); }
        hide Step;
        WorkersStayUntilTold(Step(s, actions[0]), actions[1..]);
        ToldIff(Step(s, actions[0]), actions[1..]);
      } else {
        StaysTold(Step(s, actions[0]), actions[1..]);
      }
    }
  }

  lemma StepKeepsWorkers(s: State, a: Action)
    requires Enabled(s, a) && !s.cancelled && !s.stopping
    ensures Step(s, a).workers.Keys == s.workers.Keys
  {
  }

  lemma StepTold(s: State, a: Action)
    requires Enabled(s, a)
    ensures Step(s, a).cancelled == (s.cancelled || a == Cancel) && Step(s, a).stopping == (s.stopping || a.Close?)
  {
  }

  lemma {:induction false} StaysTold(s: State, actions: seq<Action>)
    requires CanRun(s, actions)
    ensures (s.cancelled ==> Run(s, actions).cancelled) && (s.stopping ==> Run(s, actions).stopping)
    decreases |actions|
  {
    if actions != [] {
      StepTold(s, actions[0]);
      hide Step, Enabled;
      StaysTold(Step(s, actions[0]), actions[1..]);
    }
  }

  lemma {:induction false} ToldIff(s: State, actions: seq<Action>)
    requires CanRun(s, actions)
    ensures var t := Run(s, actions);
            (t.cancelled <==> s.cancelled || Cancel in actions) && (t.stopping <==> s.stopping || exists k :: Close(k) in actions)
    decreases |actions|
  {
    if actions != [] {
      var a := actions[0];
      StepTold(s, a);
      hide Step, Enabled;
      ToldIff(Step(s, a), actions[1..]);
      assert forall b :: b in actions <==> b == a || b in actions[1..];
      if a.Close? { assert Close(a.stop) in actions; }
    }
  }

  // ---- Stop ----

  /** The leftovers that a Stop drains, one after the other. */
  function Drains(k: nat, n: nat): seq<Action> {
    if n == 0 then [Drain(k)] else [Drain(k), DrainLower(k), DrainCount(k)] + Drains(k, n - 1)
  }

  ghost predicate Emptied(s: State, t: State, k: nat) {
    && t.queue == [] && StopAt(t, k, Returned)
    && t.gauge == s.gauge - |s.queue| && t.drops == s.drops + |s.queue|
    && (forall j :: j in s.queue ==> At(t, j, Dropped)) && (forall j :: j in s.jobs && j !in s.queue ==> At(t, j, s.jobs[j]))
  }

  /** A Stop that drains undisturbed drops what is left in the queue, lowers the gauge by
      it, and returns. */
  lemma {:induction false} StopEmptiesTheQueue(s: State, k: nat)
    requires StopAt(s, k, Emptying)
    ensures CanRun(s, Drains(k, |s.queue|)) && Emptied(s, Run(s, Drains(k, |s.queue|)), k)
    decreases |s.queue|
  {
    if s.queue == [] {
      RunOne(s, Drain(k));
    } else {
      var j := s.queue[0];
      var t := s.(queue := s.queue[1..], gauge := s.gauge - 1, drops := s.drops + 1, jobs := s.jobs[j := Dropped]);
      DrainOne(s, k);
      StopEmptiesTheQueue(t, k);
      var first := [Drain(k), DrainLower(k), DrainCount(k)];
      assert Drains(k, |s.queue|) == first + Drains(k, |t.queue|);
      hide Step, Enabled, Drains;
      RunTwice(s, first, Drains(k, |t.queue|));
      EmptiedFirst(s, t, Run(t, Drains(k, |t.queue|)), k);
    }
  }

  lemma DrainOne(s: State, k: nat)
    requires StopAt(s, k, Emptying) && s.queue != []
    ensures var first := [Drain(k), DrainLower(k), DrainCount(k)];
            && CanRun(s, first)
            && Run(s, first) == s.(queue := s.queue[1..], gauge := s.gauge - 1, drops := s.drops + 1, jobs := s.jobs[s.queue[0] := Dropped])
  {
    var j := s.queue[0];
    var a := s.(queue := s.queue[1..], stops := s.stops[k := Lowering(j)], jobs := s.jobs[j := Draining(k)]);
    var b := s.(queue := s.queue[1..], stops := s.stops[k := Counting(j)], jobs := s.jobs[j := Drained(k)], gauge := s.gauge - 1);
    var c := s.(queue := s.queue[1..], jobs := s.jobs[j := Dropped], gauge := s.gauge - 1, drops := s.drops + 1);
    assert a.stops[k := Counting(j)] == b.stops && b.stops[k := Emptying] == s.stops;
    assert a.jobs[j := Drained(k)] == b.jobs && b.jobs[j := Dropped] == c.jobs;
    DrainIs(s, k);
    DrainLowerIs(a, k, j);
    DrainCountIs(b, k, j);
    hide Step, Enabled;
    RunThree(s, a, b, c, Drain(k), DrainLower(k), DrainCount(k));
  }

  lemma DrainIs(s: State, k: nat)
    requires StopAt(s, k, Emptying) && s.queue != []
    ensures Enabled(s, Drain(k))
    ensures Step(s, Drain(k)) == s.(queue := s.queue[1..], stops := s.stops[k := Lowering(s.queue[0])], jobs := s.jobs[s.queue[0] := Draining(k)])
  {
  }

  lemma DrainLowerIs(s: State, k: nat, j: nat)
    requires StopAt(s, k, Lowering(j))
    ensures Enabled(s, DrainLower(k))
    ensures Step(s, DrainLower(k)) == s.(gauge := s.gauge - 1, stops := s.stops[k := Counting(j)], jobs := s.jobs[j := Drained(k)])
  {
  }

  lemma DrainCountIs(s: State, k: nat, j: nat)
    requires StopAt(s, k, Counting(j))
    ensures Enabled(s, DrainCount(k))
    ensures Step(s, DrainCount(k)) == s.(drops := s.drops + 1, jobs := s.jobs[j := Dropped], stops := s.stops[k := Emptying])
  {
  }

  lemma EmptiedFirst(s: State, t: State, u: State, k: nat)
    requires s.queue != [] && Emptied(t, u, k)
    requires t == s.(queue := s.queue[1..], gauge := s.gauge - 1, drops := s.drops + 1, jobs := s.jobs[s.queue[0] := Dropped])
    ensures Emptied(s, u, k)
  {
    assert s.queue == [s.queue[0]] + s.queue[1..];
  }

  /** A first Stop with no enqueue under way gets the lock, sets the flag, and waits for
      the workers; it goes on as soon as they have gone. */
  lemma StopGetsThrough(s: State, k: nat)
    requires k !in s.stops && s.once == Unused && s.readers == {} && !s.writer
    ensures var call := [Stop(k), Begin(k), Lock(k), Close(k), Unlock(k)];
            && CanRun(s, call)
            && Run(s, call) == s.(stops := s.stops[k := Waiting], once := Over, stopping := true)
            && (Enabled(Run(s, call), Waited(k)) <==> s.workers == map[])
  {
    var a := s.(stops := s.stops[k := Starting]);
    var b := s.(stops := s.stops[k := Locking], once := Running(k));
    var c := s.(stops := s.stops[k := Locked], once := Running(k), writer := true);
    var d := s.(stops := s.stops[k := Closed], once := Running(k), writer := true, stopping := true);
    assert a.stops[k := Locking] == b.stops && b.stops[k := Locked] == c.stops && c.stops[k := Closed] == d.stops;
    StopIs(s, k);
    BeginIs(a, k);
    LockIs(b, k);
    CloseIs(c, k);
    UnlockIs(d, k);
    var e := s.(stops := s.stops[k := Waiting], once := Over, stopping := true);
    assert d.stops[k := Waiting] == e.stops;
    WaitedIff(e, k);
    hide Step, Enabled;
    RunFour(s, a, b, c, d, Stop(k), Begin(k), Lock(k), Close(k));
    RunOne(d, Unlock(k));
    RunJoin(s, d, e, [Stop(k), Begin(k), Lock(k), Close(k)], [Unlock(k)], [Stop(k), Begin(k), Lock(k), Close(k), Unlock(k)]);
  }

  lemma WaitedIff(s: State, k: nat)
    requires StopAt(s, k, Waiting)
    ensures Enabled(s, Waited(k)) <==> s.workers == map[]
  {
  }

  lemma StopIs(s: State, k: nat)
    requires k !in s.stops
    ensures Enabled(s, Stop(k)) && Step(s, Stop(k)) == s.(stops := s.stops[k := Starting])
  {
  }

  lemma BeginIs(s: State, k: nat)
    requires StopAt(s, k, Starting) && s.once == Unused
    ensures Enabled(s, Begin(k)) && Step(s, Begin(k)) == s.(stops := s.stops[k := Locking], once := Running(k))
  {
  }

  lemma LockIs(s: State, k: nat)
    requires StopAt(s, k, Locking) && s.readers == {} && !s.writer
    ensures Enabled(s, Lock(k)) && Step(s, Lock(k)) == s.(stops := s.stops[k := Locked], writer := true)
  {
  }

  lemma CloseIs(s: State, k: nat)
    requires StopAt(s, k, Locked)
    ensures Enabled(s, Close(k)) && Step(s, Close(k)) == s.(stops := s.stops[k := Closed], stopping := true)
  {
  }

  lemma UnlockIs(s: State, k: nat)
    requires StopAt(s, k, Closed)
    ensures Enabled(s, Unlock(k)) && Step(s, Unlock(k)) == s.(stops := s.stops[k := Waiting], writer := false, once := Over)
  {
  }

  /** The queue never holds more than its capacity. */
  lemma {:induction false} QueueIsBounded(s: State, actions: seq<Action>)
    requires CanRun(s, actions) && |s.queue| <= s.capacity
    ensures Run(s, actions).capacity == s.capacity && |Run(s, actions).queue| <= s.capacity
    decreases |actions|
  {
    if actions != [] {
      StepStaysBounded(s, actions[0]);
      hide Step, Enabled;
      QueueIsBounded(Step(s, actions[0]), actions[1..]);
    }
  }

  lemma StepShortens(s: State, a: Action)
    requires Enabled(s, a) && !a.Send?
    ensures Step(s, a).capacity == s.capacity && |Step(s, a).queue| <= |s.queue|
  {
  }

  lemma StepStaysBounded(s: State, a: Action)
    requires Enabled(s, a) && |s.queue| <= s.capacity
    ensures Step(s, a).capacity == s.capacity && |Step(s, a).queue| <= s.capacity
  {
    if !a.Send? { StepShortens(s, a); }
  }
}
