/** That the steps of a publication lead to its end: undisturbed it is stored, committed,
    answered 201 and broadcast; compensation gives its locks back; a drain deletes what
    nothing refers to; a retired photo and an ended deletion job stay what they are. */
module PublicationProgress {
  import opened Ordering
  import opened Publication

  lemma RunOne(s: State, a: Action)
    requires Enabled(s, a)
    ensures CanRun(s, [a]) && Run(s, [a]) == Step(s, a)
  {
    hide Step, Enabled;
    assert [a][1..] == [] && CanRun(Step(s, a), []) && Run(Step(s, a), []) == Step(s, a);
  }

  lemma {:induction false} RunTwice(s: State, a: seq<Action>, b: seq<Action>)
    requires CanRun(s, a) && CanRun(Run(s, a), b)
    ensures CanRun(s, a + b) && Run(s, a + b) == Run(Run(s, a), b)
    decreases |a|
  {
    hide Step, Enabled;
    if a == [] {
      assert a + b == b;
    } else {
      assert (a + b)[1..] == a[1..] + b;
      RunTwice(Step(s, a[0]), a[1..], b);
    }
  }

  /** One more step at the end. */
  lemma RunThen(s: State, u: State, actions: seq<Action>, a: Action, v: State)
    requires CanRun(s, actions) && u == Run(s, actions) && Enabled(u, a) && v == Step(u, a)
    ensures CanRun(s, actions + [a]) && Run(s, actions + [a]) == v
  {
    hide Step, Enabled;
    RunOne(u, a);
    RunTwice(s, actions, [a]);
  }

  // ---- Locks ----

  function LockedBy(locks: map<Key, Owner>, keys: set<Key>, owner: Owner): map<Key, Owner> {
    map k | k in locks.Keys + keys :: if k in keys then owner else locks[k]
  }

  lemma NothingLeft<T>(a: set<T>, b: set<T>)
    requires b <= a && a - b == {}
    ensures a == b
  {
    assert a == b + (a - b);
  }

  lemma LockedByNobody(locks: map<Key, Owner>, owner: Owner)
    ensures LockedBy(locks, {}, owner) == locks
  {
  }

  lemma LockedOneMore(locks: map<Key, Owner>, all: set<Key>, held: set<Key>, k: Key, owner: Owner)
    requires k in all - held
    ensures LockedBy(locks[k := owner], all - (held + {k}), owner) == LockedBy(locks, all - held, owner)
  {
  }

  /** The reservation can lock its keys one after the other, in any order. */
  lemma {:induction false} LocksRun(s: State, t: nat) returns (actions: seq<Action>)
    requires t in s.uploads && s.uploads[t].pc.Locking? && s.uploads[t].pc.held <= AllKeys(s.uploads[t].request)
    requires forall k :: k in AllKeys(s.uploads[t].request) - s.uploads[t].pc.held ==> k !in s.locks
    ensures CanRun(s, actions)
    ensures var r, held := s.uploads[t].request, s.uploads[t].pc.held;
            Run(s, actions) == s.(uploads := s.uploads[t := Upload(r, Locking(AllKeys(r)))], locks := LockedBy(s.locks, AllKeys(r) - held, Main(t)))
    decreases AllKeys(s.uploads[t].request) - s.uploads[t].pc.held
  {
    hide Keys, AllKeys;
    var r, held := s.uploads[t].request, s.uploads[t].pc.held;
    if AllKeys(r) - held == {} {
      actions := [];
      NothingLeft(AllKeys(r), held);
      LockedByNobody(s.locks, Main(t));
      assert s.uploads[t := Upload(r, Locking(AllKeys(r)))] == s.uploads;
    } else {
      var k :| k in AllKeys(r) - held;
      var u := s.(uploads := s.uploads[t := Upload(r, Locking(held + {k}))], locks := s.locks[k := Main(t)]);
      LockEffect(s, t, k);
      var rest := LocksRun(u, t);
      actions := [Action.Publish(t, Lock(k))] + rest;
      LockFirst(s, u, t, k, rest, AllKeys(r), held);
    }
  }

  lemma LockFirst(s: State, u: State, t: nat, k: Key, rest: seq<Action>, all: set<Key>, held: set<Key>)
    requires t in s.uploads && k in all - held && Enabled(s, Action.Publish(t, Lock(k))) && Step(s, Action.Publish(t, Lock(k))) == u
    requires u == s.(uploads := s.uploads[t := Upload(s.uploads[t].request, Locking(held + {k}))], locks := s.locks[k := Main(t)])
    requires CanRun(u, rest)
    requires Run(u, rest) == u.(uploads := u.uploads[t := Upload(s.uploads[t].request, Locking(all))], locks := LockedBy(u.locks, all - (held + {k}), Main(t)))
    ensures CanRun(s, [Action.Publish(t, Lock(k))] + rest)
    ensures Run(s, [Action.Publish(t, Lock(k))] + rest) == s.(uploads := s.uploads[t := Upload(s.uploads[t].request, Locking(all))], locks := LockedBy(s.locks, all - held, Main(t)))
  {
    hide *;
    RunOne(s, Action.Publish(t, Lock(k)));
    RunTwice(s, [Action.Publish(t, Lock(k))], rest);
    LockedOneMore(s.locks, all, held, k, Main(t));
    assert u.uploads[t := Upload(s.uploads[t].request, Locking(all))] == s.uploads[t := Upload(s.uploads[t].request, Locking(all))];
  }

  lemma LockEffect(s: State, t: nat, k: Key)
    requires t in s.uploads && s.uploads[t].pc.Locking? && k in AllKeys(s.uploads[t].request) && k !in s.uploads[t].pc.held && k !in s.locks
    ensures var a := Action.Publish(t, Lock(k));
            && Enabled(s, a)
            && Step(s, a) == s.(uploads := s.uploads[t := Upload(s.uploads[t].request, Locking(s.uploads[t].pc.held + {k}))], locks := s.locks[k := Main(t)])
  {
    hide Keys;
  }

  // ---- Puts ----

  function StoredBy(objects: map<Key, nat>, keys: seq<Key>, t: nat): map<Key, nat>
    decreases |keys|
  {
    if keys == [] then objects else StoredBy(objects[keys[0] := t], keys[1..], t)
  }

  lemma {:induction false} StoredByAll(objects: map<Key, nat>, keys: seq<Key>, t: nat)
    ensures var after := StoredBy(objects, keys, t);
            && (forall k :: k in keys ==> k in after && after[k] == t)
            && (forall k :: k in objects && k !in keys ==> k in after && after[k] == objects[k])
    decreases |keys|
  {
    if keys != [] {
      StoredByAll(objects[keys[0] := t], keys[1..], t);
      assert keys == [keys[0]] + keys[1..];
      if keys[0] !in keys[1..] { assert StoredBy(objects[keys[0] := t], keys[1..], t)[keys[0]] == t; }
    }
  }

  /** And then store its objects, in the order of its keys. */
  lemma {:induction false} PutsAll(s: State, t: nat, i: nat)
    requires t in s.uploads && s.uploads[t].pc == Putting(i) && i <= |Keys(s.uploads[t].request)|
    ensures var r := s.uploads[t].request;
            var puts := Puts(t, |Keys(r)| - i);
            && CanRun(s, puts)
            && Run(s, puts) == s.(uploads := s.uploads[t := Upload(r, Putting(|Keys(r)|))], objects := StoredBy(s.objects, Keys(r)[i..], t))
    decreases |Keys(s.uploads[t].request)| - i
  {
    var r := s.uploads[t].request;
    var n := |Keys(r)| - i;
    if n == 0 {
      assert s.uploads[t := Upload(r, Putting(i))] == s.uploads && Keys(r)[i..] == [];
    } else {
      var u := AfterPut(s, t);
      PutEffect(s, t, i);
      PutsAll(u, t, i + 1);
      assert Puts(t, n)[0] == Action.Publish(t, Put) && Puts(t, n)[1..] == Puts(t, n - 1);
      assert Keys(r)[i..][0] == Keys(r)[i] && Keys(r)[i..][1..] == Keys(r)[i + 1..];
      hide Step, Enabled, Keys, AfterPut;
      assert u.uploads[t := Upload(r, Putting(|Keys(r)|))] == s.uploads[t := Upload(r, Putting(|Keys(r)|))];
    }
  }

  lemma PutEffect(s: State, t: nat, i: nat)
    requires t in s.uploads && s.uploads[t].pc == Putting(i) && i < |Keys(s.uploads[t].request)|
    ensures var a, r := Action.Publish(t, Put), s.uploads[t].request;
            && Enabled(s, a) && Step(s, a) == AfterPut(s, t)
            && AfterPut(s, t) == s.(uploads := s.uploads[t := Upload(r, Putting(i + 1))], objects := s.objects[Keys(r)[i] := t])
  {
    hide Keys;
  }

  // ---- The commit ----

  lemma CreateEffect(s: State, t: nat)
    requires HasStored(s, t) && Insertable(s, s.uploads[t].request)
    ensures var a, r := Action.Publish(t, Create), s.uploads[t].request;
            && Enabled(s, a)
            && var u := Step(s, a);
               && Is(u, t, Done(Created)) && u.objects == s.objects && u.broadcasts == s.broadcasts + [t]
               && u.rows == s.rows[r.id := RowOf(r, t)]
               && (forall k :: k in PhotoKeys(r) ==> k in u.photos && u.photos[k] == Photo(t, true))
               && (forall k :: k in u.locks ==> k in s.locks && s.locks[k] != Main(t))
  {
    hide Keys, RowOf, PhotoKeys;
  }

  lemma ReserveEffect(s: State, t: nat)
    requires t in s.uploads && s.uploads[t].pc == Locking(AllKeys(s.uploads[t].request)) && s.uploads[t].request.id !in s.rows
    ensures Enabled(s, Action.Publish(t, Reserve)) && Step(s, Action.Publish(t, Reserve)) == s.(uploads := s.uploads[t := Upload(s.uploads[t].request, Putting(0))])
  {
    hide AllKeys;
  }

  lemma ArriveEffect(s: State, t: nat, r: Request)
    requires t !in s.uploads
    ensures Enabled(s, Action.Publish(t, Arrive(r))) && Step(s, Action.Publish(t, Arrive(r))) == s.(uploads := s.uploads[t := Upload(r, Locking({}))])
  {
  }

  /** A new request whose keys are free, and which is not disturbed, is stored, committed,
      answered 201, broadcast, and holds no lock any more. */
  lemma PublishingSucceeds(s: State, t: nat, r: Request) returns (actions: seq<Action>, u: State)
    requires t !in s.uploads && Insertable(s, r) && forall k :: k in AllKeys(r) ==> k !in s.locks
    ensures CanRun(s, actions) && u == Run(s, actions)
    ensures Is(u, t, Done(Created)) && r.id in u.rows && u.rows[r.id] == RowOf(r, t) && u.broadcasts == s.broadcasts + [t]
    ensures forall k :: k in AllKeys(r) ==> k in u.objects && u.objects[k] == t && k !in u.locks
    ensures forall k :: k in PhotoKeys(r) ==> k in u.photos && u.photos[k] == Photo(t, true)
  {
    var a := s.(uploads := s.uploads[t := Upload(r, Locking({}))]);
    ArriveEffect(s, t, r);
    var locks := LocksRun(a, t);
    var b := Run(a, locks);
    ReserveEffect(b, t);
    var c := Step(b, Action.Publish(t, Reserve));
    PutsAll(c, t, 0);
    assert Keys(r)[0..] == Keys(r);
    StoredByAll(c.objects, Keys(r), t);
    var puts := Puts(t, |Keys(r)|);
    var d := Run(c, puts);
    assert HasStored(d, t) && d.uploads[t].request == r && d.rows == s.rows && d.photos == s.photos && Insertable(d, r);
    CreateEffect(d, t);
    u := Step(d, Action.Publish(t, Create));
    hide Step, Enabled, Keys, StoredBy, Puts, RowOf, Insertable, LockedBy;
    RunOne(s, Action.Publish(t, Arrive(r)));
    RunTwice(s, [Action.Publish(t, Arrive(r))], locks);
    RunThen(s, b, [Action.Publish(t, Arrive(r))] + locks, Action.Publish(t, Reserve), c);
    var first := [Action.Publish(t, Arrive(r))] + locks + [Action.Publish(t, Reserve)];
    RunTwice(s, first, puts);
    RunThen(s, d, first + puts, Action.Publish(t, Create), u);
    actions := first + puts + [Action.Publish(t, Create)];
    forall k | k in AllKeys(r) ensures k in u.objects && u.objects[k] == t && k !in u.locks { LockedByAll(s.locks, AllKeys(r), Main(t), k); }
  }

  lemma LockedByAll(locks: map<Key, Owner>, keys: set<Key>, owner: Owner, k: Key)
    requires k in keys
    ensures k in LockedBy(locks, keys - {}, owner) && LockedBy(locks, keys - {}, owner)[k] == owner
  {
  }

  // ---- Compensation and drains ----

  /** Compensation that has nothing left to do gives back all its locks and answers an
      error. */
  lemma CompensationEnds(s: State, t: nat)
    requires IsCompensating(s, t) && s.uploads[t].pc.todo == []
    ensures var a, owner := Action.Publish(t, Op.Rollback), if s.uploads[t].pc.again then Again(t) else Main(t);
            && Enabled(s, a)
            && var u := Step(s, a);
               Is(u, t, Done(Status.Failed)) && u.objects == s.objects && u.jobs == s.jobs
               && forall k :: k in u.locks <==> k in s.locks && s.locks[k] != owner
  {
    hide Keys;
  }

  lemma RunFour(s: State, a: State, b: State, c: State, d: State, x: Action, y: Action, z: Action, w: Action)
    requires Enabled(s, x) && a == Step(s, x) && Enabled(a, y) && b == Step(a, y) && Enabled(b, z) && c == Step(b, z) && Enabled(c, w) && d == Step(c, w)
    ensures CanRun(s, [x, y, z, w]) && Run(s, [x, y, z, w]) == d
  {
    hide Step, Enabled;
    RunOne(s, x);
    RunThen(s, a, [x], y, b);
    assert [x] + [y] == [x, y];
    RunThen(s, b, [x, y], z, c);
    assert [x, y] + [z] == [x, y, z];
    RunThen(s, c, [x, y, z], w, d);
    assert [x, y, z] + [w] == [x, y, z, w];
  }

  lemma TakeEffect(s: State, d: nat, k: Key)
    requires d !in s.drains && k in s.jobs && k !in s.locks
    ensures var a := s.(drains := s.drains[d := Drainer(k, s.jobs[k], Waiting)]);
            var b := s.(drains := s.drains[d := Drainer(k, s.jobs[k], DrainPc.Locked)], locks := s.locks[k := Drain(d)]);
            && Enabled(s, Clean(d, Claim(k))) && Step(s, Clean(d, Claim(k))) == a
            && Enabled(a, Clean(d, Take)) && Step(a, Clean(d, Take)) == b
  {
    var a := s.(drains := s.drains[d := Drainer(k, s.jobs[k], Waiting)]);
    assert a.drains[d := Drainer(k, s.jobs[k], DrainPc.Locked)] == s.drains[d := Drainer(k, s.jobs[k], DrainPc.Locked)];
  }

  lemma CheckEffect(s: State, d: nat, k: Key, n: nat)
    requires d in s.drains && s.drains[d] == Drainer(k, n, DrainPc.Locked)
    ensures var c := s.(drains := s.drains[d := Drainer(k, n, if Referenced(s, k) then Completing else Deleting)]);
            Enabled(s, Clean(d, Check)) && Step(s, Clean(d, Check)) == c
  {
  }

  lemma CompleteEffect(s: State, d: nat, k: Key, n: nat)
    requires d in s.drains && s.drains[d] == Drainer(k, n, Completing) && k in s.jobs && s.jobs[k] == n
    ensures Enabled(s, Clean(d, Complete))
    ensures var u := Step(s, Clean(d, Complete));
            && u == s.(drains := s.drains - {d}, jobs := s.jobs - {k}, locks := u.locks)
            && forall l :: l in u.locks <==> l in s.locks && s.locks[l] != Drain(d)
  {
  }

  /** A drain that is not disturbed deletes the object if nothing refers to it, leaves it
      if something does, and is done with the deletion job either way. */
  lemma DrainDecides(s: State, d: nat, k: Key) returns (actions: seq<Action>, u: State)
    requires d !in s.drains && k in s.jobs && k !in s.locks
    ensures CanRun(s, actions) && u == Run(s, actions)
    ensures u.jobs == s.jobs - {k} && u.rows == s.rows && u.photos == s.photos && d !in u.drains && k !in u.locks
    ensures u.objects == if Referenced(s, k) then s.objects else s.objects - {k}
  {
    var n := s.jobs[k];
    var a := s.(drains := s.drains[d := Drainer(k, n, Waiting)]);
    var b := s.(drains := s.drains[d := Drainer(k, n, DrainPc.Locked)], locks := s.locks[k := Drain(d)]);
    TakeEffect(s, d, k);
    CheckEffect(b, d, k, n);
    var c := Step(b, Clean(d, Check));
    assert Referenced(b, k) <==> Referenced(s, k);
    if Referenced(s, k) {
      CompleteEffect(c, d, k, n);
      u := Step(c, Clean(d, Complete));
      actions := [Clean(d, Claim(k)), Clean(d, Take), Clean(d, Check), Clean(d, Complete)];
      hide Step, Enabled, Referenced;
      RunFour(s, a, b, c, u, Clean(d, Claim(k)), Clean(d, Take), Clean(d, Check), Clean(d, Complete));
    } else {
      EraseEffect(c, d, k, n);
      var e := Step(c, Clean(d, Erase));
      CompleteEffect(e, d, k, n);
      u := Step(e, Clean(d, Complete));
      hide Step, Enabled, Referenced;
      var four := [Clean(d, Claim(k)), Clean(d, Take), Clean(d, Check), Clean(d, Erase)];
      RunFour(s, a, b, c, e, Clean(d, Claim(k)), Clean(d, Take), Clean(d, Check), Clean(d, Erase));
      RunThen(s, e, four, Clean(d, Complete), u);
      actions := four + [Clean(d, Complete)];
    }
  }

  lemma EraseEffect(s: State, d: nat, k: Key, n: nat)
    requires d in s.drains && s.drains[d] == Drainer(k, n, Deleting)
    ensures Enabled(s, Clean(d, Erase)) && Step(s, Clean(d, Erase)) == s.(drains := s.drains[d := Drainer(k, n, Completing)], objects := s.objects - {k})
  {
  }

  // ---- Deletion jobs of the same key ----

  /** Deletion jobs have numbers of their own, below the next one. */
  ghost predicate Numbered(s: State) {
    && (forall k :: k in s.jobs ==> s.jobs[k] < s.nextJob)
    && (forall k, l :: k in s.jobs && l in s.jobs && k != l ==> s.jobs[k] != s.jobs[l])
    && (forall d :: d in s.drains ==> s.drains[d].job < s.nextJob)
  }

  /** The jobs of `t` are jobs of `s` or newer than all of them. */
  ghost predicate OnlyNewJobs(s: State, t: State) {
    s.nextJob <= t.nextJob && forall k :: k in t.jobs ==> (k in s.jobs && t.jobs[k] == s.jobs[k]) || t.jobs[k] >= s.nextJob
  }

  lemma {:induction false} EnqueueNumbers(s: State, keys: seq<Key>)
    requires Numbered(s)
    ensures Numbered(Enqueue(s, keys)) && OnlyNewJobs(s, Enqueue(s, keys))
    decreases |keys|
  {
    hide Numbered, OnlyNewJobs;
    if keys == [] {
      NothingNew(s);
    } else {
      EnqueueNumbers(s, keys[..|keys| - 1]);
      NextNumber(s, Enqueue(s, keys[..|keys| - 1]), keys[|keys| - 1]);
    }
  }

  lemma NothingNew(s: State)
    ensures OnlyNewJobs(s, s)
  {
  }

  lemma NextNumber(s: State, e: State, k: Key)
    requires Numbered(e) && OnlyNewJobs(s, e)
    ensures var t := e.(jobs := e.jobs[k := e.nextJob], nextJob := e.nextJob + 1); Numbered(t) && OnlyNewJobs(s, t)
  {
  }

  lemma SameNumbers(s: State, e: State, t: State)
    requires Numbered(e) && OnlyNewJobs(s, e) && t.jobs == e.jobs && t.nextJob == e.nextJob && t.drains == e.drains
    ensures Numbered(t) && OnlyNewJobs(s, t)
  {
  }

  /** The deletion jobs that a publisher's step queues. */
  function Queues(s: State, u: nat, op: Op): seq<Key>
    requires OpEnabled(s, u, op)
  {
    match op
    case ResolveFails(queued) => if queued then Keys(s.uploads[u].request) else []
    case DeleteFails(_, queued) => if queued then [s.uploads[u].pc.todo[0]] else []
    case _ => []
  }

  lemma OpQueues(s: State, u: nat, op: Op)
    requires OpEnabled(s, u, op)
    ensures var t, e := OpStep(s, u, op), Enqueue(s, Queues(s, u, op));
            t.jobs == e.jobs && t.nextJob == e.nextJob && t.drains == e.drains
  {
    hide Keys, Matches, Insertable, Resolution, AllKeys, RowOf, Tally;
    match op
    case ResolveFails(_) => hide Enqueue;
    case DeleteFails(_, _) => hide Enqueue;
    case _ =>
  }

  lemma OpNumbers(s: State, u: nat, op: Op)
    requires OpEnabled(s, u, op) && Numbered(s)
    ensures Numbered(OpStep(s, u, op)) && OnlyNewJobs(s, OpStep(s, u, op))
  {
    OpQueues(s, u, op);
    EnqueueNumbers(s, Queues(s, u, op));
    hide OpStep, OpEnabled, Enqueue, Queues, Numbered, OnlyNewJobs;
    SameNumbers(s, Enqueue(s, Queues(s, u, op)), OpStep(s, u, op));
  }

  lemma DrainNumbers(s: State, d: nat, op: DrainOp)
    requires DrainEnabled(s, d, op) && Numbered(s)
    ensures Numbered(DrainStep(s, d, op)) && OnlyNewJobs(s, DrainStep(s, d, op))
  {
  }

  lemma DrainsKeepJobs(s: State, a: Action, d: nat)
    requires Enabled(s, a) && d in Step(s, a).drains && !(a.Clean? && a.worker == d && a.drain.Claim?)
    ensures d in s.drains && Step(s, a).drains[d].job == s.drains[d].job
  {
    match a
    case Publish(u, op) => hide OpStep, OpEnabled, Enqueue; OpQueues(s, u, op);
    case Clean(w, op) => WorkersKeepJobs(s, w, op, d);
    case _ => hide Enqueue;
  }

  lemma WorkersKeepJobs(s: State, w: nat, op: DrainOp, d: nat)
    requires DrainEnabled(s, w, op) && d in DrainStep(s, w, op).drains && !(w == d && op.Claim?)
    ensures d in s.drains && DrainStep(s, w, op).drains[d].job == s.drains[d].job
  {
    hide Referenced;
  }

  lemma StepNumbers(s: State, a: Action)
    requires Enabled(s, a) && Numbered(s)
    ensures Numbered(Step(s, a)) && OnlyNewJobs(s, Step(s, a))
  {
    match a
    case Publish(u, op) => OpNumbers(s, u, op);
    case Clean(d, op) => DrainNumbers(s, d, op);
    case AuthorDelete(id, _) =>
      EnqueueNumbers(s, [ChallengeKey(id)]);
      SameNumbers(s, Enqueue(s, [ChallengeKey(id)]), Step(s, a));
    case Retire(k) =>
      EnqueueNumbers(s, [k]);
      SameNumbers(s, Enqueue(s, [k]), Step(s, a));
  }

  lemma {:induction false} RunNumbers(s: State, actions: seq<Action>)
    requires CanRun(s, actions) && Numbered(s)
    ensures Numbered(Run(s, actions)) && OnlyNewJobs(s, Run(s, actions))
    decreases |actions|
  {
    hide Step, Enabled;
    if actions != [] {
      StepNumbers(s, actions[0]);
      RunNumbers(Step(s, actions[0]), actions[1..]);
    }
  }

  lemma {:induction false} RunKeepsDrain(s: State, actions: seq<Action>, d: nat)
    requires CanRun(s, actions) && d in Run(s, actions).drains
    requires forall a :: a in actions ==> !(a.Clean? && a.worker == d && a.drain.Claim?)
    ensures d in s.drains && Run(s, actions).drains[d].job == s.drains[d].job
    decreases |actions|
  {
    hide Step, Enabled;
    if actions != [] {
      RunKeepsDrain(Step(s, actions[0]), actions[1..], d);
      assert actions[0] in actions;
      DrainsKeepJobs(s, actions[0], d);
    }
  }

  /** A worker whose deletion job has ended meanwhile completes no other: what is queued
      later for the same key stays queued, however late the worker is. */
  lemma LateWorkerCompletesNothing(s: State, actions: seq<Action>, d: nat)
    requires Reachable(s) && d in s.drains && forall k :: k in s.jobs ==> s.jobs[k] != s.drains[d].job
    requires CanRun(s, actions) && forall a :: a in actions ==> !(a.Clean? && a.worker == d && a.drain.Claim?)
    requires Enabled(Run(s, actions), Clean(d, Complete))
    ensures Step(Run(s, actions), Clean(d, Complete)).jobs == Run(s, actions).jobs
  {
    var before :| CanRun(INIT, before) && s == Run(INIT, before);
    RunNumbers(INIT, before);
    RunNumbers(s, actions);
    RunKeepsDrain(s, actions, d);
    var t := Run(s, actions);
    assert forall k :: k in t.jobs ==> t.jobs[k] != t.drains[d].job;
    hide Run, CanRun, Reachable, Numbered, OnlyNewJobs;
    CompletesItsOwn(t, d);
  }

  lemma CompletesItsOwn(s: State, d: nat)
    requires Enabled(s, Clean(d, Complete)) && forall k :: k in s.jobs ==> s.jobs[k] != s.drains[d].job
    ensures Step(s, Clean(d, Complete)).jobs == s.jobs
  {
  }

  // ---- Retention ----

  /** Photos have photos' keys, and a commit in limbo still finds its own free. */
  ghost predicate LimboFree(s: State) {
    && (forall k :: k in s.photos ==> k.PhotoKey?)
    && forall v :: v in s.limbo && v in s.uploads ==> PhotoKeys(s.uploads[v].request) !! s.photos.Keys
  }

  /** Only commits insert photos. */
  lemma OpPhotos(s: State, u: nat, op: Op)
    requires OpEnabled(s, u, op)
    ensures var t := OpStep(s, u, op);
            && (Commits(op) ==> u in s.uploads && t.photos == s.photos + map k | k in PhotoKeys(s.uploads[u].request) :: Photo(u, true))
            && (!Commits(op) ==> t.photos == s.photos)
  {
    hide Keys, Matches, Insertable, Resolution, AllKeys, RowOf, Tally, Enqueue, PhotoKeys, Release;
  }

  lemma OpRequests(s: State, u: nat, op: Op)
    requires OpEnabled(s, u, op)
    ensures var t := OpStep(s, u, op);
            forall v :: v in s.uploads ==> v in t.uploads && t.uploads[v].request == s.uploads[v].request
  {
    hide Keys, Matches, Insertable, Resolution, AllKeys, RowOf, Tally, Enqueue, PhotoKeys, Release;
  }

  lemma OpLimbo(s: State, u: nat, op: Op)
    requires OpEnabled(s, u, op)
    ensures OpStep(s, u, op).limbo == if op.CreateUncertain? then s.limbo + {u} else if op.LimboCommits? || op.LimboAborts? then s.limbo - {u} else s.limbo
  {
    hide Keys, Matches, Insertable, Resolution, AllKeys, RowOf, Tally, Enqueue, PhotoKeys, Release;
  }

  lemma CommitKeepsFree(s: State, u: nat, op: Op, v: nat)
    requires OpEnabled(s, u, op) && Commits(op) && UploadInv(s, u, false) && UploadInv(s, v, false)
    requires v in s.limbo && v in s.uploads && v != u && PhotoKeys(s.uploads[v].request) !! s.photos.Keys
    ensures PhotoKeys(s.uploads[v].request) !! OpStep(s, u, op).photos.Keys
  {
    OpPhotos(s, u, op);
    KeysAre(s.uploads[u].request);
    KeysAre(s.uploads[v].request);
    assert MainHeld(s, u) == AllKeys(s.uploads[u].request) && MainHeld(s, v) == AllKeys(s.uploads[v].request);
    hide OpStep, OpEnabled, Keys, PhotoKeys;
  }

  lemma CommitsFree(s: State, u: nat, op: Op)
    requires OpEnabled(s, u, op) && (Commits(op) || op.CreateUncertain?) && LimboFree(s)
    ensures u in s.uploads && PhotoKeys(s.uploads[u].request) !! s.photos.Keys
    ensures forall k :: k in PhotoKeys(s.uploads[u].request) ==> k.PhotoKey?
  {
  }

  lemma OpKeepsFree(s: State, u: nat, op: Op)
    requires OpEnabled(s, u, op) && LocksInv(s, false) && LimboFree(s)
    ensures LimboFree(OpStep(s, u, op))
    ensures Commits(op) ==> PhotoKeys(s.uploads[u].request) !! s.photos.Keys
  {
    OpPhotos(s, u, op);
    OpRequests(s, u, op);
    OpLimbo(s, u, op);
    var t := OpStep(s, u, op);
    if Commits(op) || op.CreateUncertain? { CommitsFree(s, u, op); }
    hide OpStep, OpEnabled, PhotoKeys;
    forall v | v in t.limbo && v in t.uploads ensures PhotoKeys(t.uploads[v].request) !! t.photos.Keys {
      assert UploadInv(s, v, false) && UploadInv(s, u, false);
      hide LocksInv, UploadInv;
      if Commits(op) && v != u { CommitKeepsFree(s, u, op, v); }
    }
  }

  ghost predicate IsRetired(s: State, k: Key) {
    k in s.photos && !s.photos[k].live
  }

  lemma OpKeepsRetired(s: State, u: nat, op: Op, k: Key)
    requires OpEnabled(s, u, op) && LocksInv(s, false) && LimboFree(s)
    ensures LimboFree(OpStep(s, u, op)) && (IsRetired(s, k) ==> IsRetired(OpStep(s, u, op), k))
  {
    OpKeepsFree(s, u, op);
    OpPhotos(s, u, op);
    hide OpStep, OpEnabled, PhotoKeys, LocksInv, LimboFree;
  }

  lemma OtherKeepsRetired(s: State, a: Action, k: Key)
    requires Enabled(s, a) && !a.Publish? && LimboFree(s)
    ensures LimboFree(Step(s, a)) && (IsRetired(s, k) ==> IsRetired(Step(s, a), k))
  {
    OtherPhotos(s, a);
    hide Step, Enabled, PhotoKeys;
    assert Step(s, a).photos.Keys == s.photos.Keys;
  }

  lemma OtherPhotos(s: State, a: Action)
    requires Enabled(s, a) && !a.Publish?
    ensures var t := Step(s, a);
            && t.uploads == s.uploads && t.limbo == s.limbo
            && (!a.Retire? ==> t.photos == s.photos)
            && (a.Retire? ==> a.key in s.photos && t.photos == s.photos[a.key := s.photos[a.key].(live := false)])
  {
    match a
    case Clean(d, op) => hide DrainStep; DrainPhotos(s, d, op);
    case _ => hide DrainStep, Enqueue;
  }

  lemma DrainPhotos(s: State, d: nat, op: DrainOp)
    requires DrainEnabled(s, d, op)
    ensures var t := DrainStep(s, d, op); t.uploads == s.uploads && t.limbo == s.limbo && t.photos == s.photos
  {
  }

  lemma StepKeepsRetired(s: State, a: Action, k: Key)
    requires Enabled(s, a) && LocksInv(s, false) && LimboFree(s)
    ensures LimboFree(Step(s, a)) && (IsRetired(s, k) ==> IsRetired(Step(s, a), k))
  {
    hide LocksInv, LimboFree, IsRetired, OpStep, DrainStep, OpEnabled, DrainEnabled;
    match a
    case Publish(u, op) => OpKeepsRetired(s, u, op, k);
    case _ => OtherKeepsRetired(s, a, k);
  }

  lemma {:induction false} RunKeepsRetired(s: State, actions: seq<Action>, k: Key)
    requires CanRun(s, actions) && LocksInv(s, false) && LimboFree(s)
    ensures LimboFree(Run(s, actions)) && (IsRetired(s, k) ==> IsRetired(Run(s, actions), k))
    decreases |actions|
  {
    hide Step, Enabled, LocksInv, LimboFree, IsRetired;
    if actions != [] {
      StepKeepsLocks(s, actions[0], false);
      StepKeepsRetired(s, actions[0], k);
      RunKeepsRetired(Step(s, actions[0]), actions[1..], k);
    }
  }

  /** A photo that retention has removed is queued for deletion and nothing will ever
      refer to its object again, whatever is still to commit; every other object is
      referred to as before. */
  lemma RetiredForGood(s: State, k: Key, actions: seq<Action>)
    requires Reachable(s) && Enabled(s, Retire(k)) && CanRun(Step(s, Retire(k)), actions)
    ensures k in Step(s, Retire(k)).jobs && forall l :: l != k ==> (Referenced(Step(s, Retire(k)), l) <==> Referenced(s, l))
    ensures !Referenced(Run(Step(s, Retire(k)), actions), k)
  {
    var before :| CanRun(INIT, before) && s == Run(INIT, before);
    var t := Step(s, Retire(k));
    assert Enabled(s, Retire(k)) ==> k in s.photos;
    hide Step, Enabled, Reachable, Referenced;
    RunKeepsRetired(INIT, before, k);
    RetireEffect(s, k);
    ReachableHistory(s);
    StepKeepsLocks(s, Retire(k), false);
    StepKeepsRetired(s, Retire(k), k);
    RunKeepsRetired(t, actions, k);
    RetiredMeansGone(Run(t, actions), k);
  }

  lemma RetireEffect(s: State, k: Key)
    requires Enabled(s, Retire(k)) && k.PhotoKey?
    ensures var t := Step(s, Retire(k)); IsRetired(t, k) && k in t.jobs && forall l :: l != k ==> (Referenced(t, l) <==> Referenced(s, l))
  {
    EnqueuedKeys(s, [k]);
  }

  lemma RetiredMeansGone(s: State, k: Key)
    requires IsRetired(s, k) && k.PhotoKey?
    ensures !Referenced(s, k)
  {
  }
}
