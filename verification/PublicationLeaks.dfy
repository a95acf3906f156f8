/** Objects that publications leave behind (backend/handlers/feed/media.go:107-184,
    272-293; backend/internal/repository/media_jobs.go:95-123): exactly which steps leave a
    stored object that no row, publisher or deletion job answers for. */
module PublicationLeaks {
  import opened Ordering
  import opened Publication

  /** An upload that still has to commit, clean up or resolve the object. A commit on its
      way answers for its keys. */
  predicate InHand(s: State, t: nat, k: Key) {
    t in s.uploads &&
    var keys := Keys(s.uploads[t].request);
    match s.uploads[t].pc
    case Locking(_) => false
    case Putting(done) => done <= |keys| && k in keys[..done]
    case Resolving(_) => k in keys
    case Compensating(todo, _) => k in todo
    case Done(_) => t in s.limbo && k in keys
  }

  ghost predicate Owned(s: State, k: Key) {
    Referenced(s, k) || k in s.jobs || exists t :: InHand(s, t, k)
  }

  ghost predicate NoLeak(s: State) {
    forall k :: k in s.objects ==> Owned(s, k)
  }

  // ---- The steps that let go of an object ----

  /** The upload stops answering for `k`: its commit is resolved in another publication's
      favour; it cannot lock or look to resolve it, nor queue its keys; a delete fails and
      so does the fallback; or a commit aborts that nobody waits for any more. */
  predicate LetsGo(s: State, t: nat, op: Op, k: Key)
    requires OpEnabled(s, t, op)
  {
    match op
    case Resolve => Resolution(s, t).Done? && t !in s.limbo && k in Keys(s.uploads[t].request)
    case ResolveFails(queued) => !queued && t !in s.limbo && k in Keys(s.uploads[t].request)
    case DeleteFails(deleted, queued) =>
      !deleted && !queued && k == s.uploads[t].pc.todo[0] && k !in s.uploads[t].pc.todo[1..]
    case LimboAborts => t in s.uploads && s.uploads[t].pc.Done? && k in Keys(s.uploads[t].request)
    case _ => false
  }

  /** A drain completes the deletion job of an object that is still there. */
  predicate Forgets(s: State, d: nat, op: DrainOp, k: Key)
    requires DrainEnabled(s, d, op)
  {
    op == Complete && k == s.drains[d].key && k in s.jobs && s.jobs[k] == s.drains[d].job
  }

  /** And nobody else answers for it. */
  ghost predicate Leaks(s: State, a: Action)
    requires Enabled(s, a)
  {
    match a
    case Publish(t, op) =>
      exists k :: LetsGo(s, t, op, k) && k in s.objects && !Referenced(s, k) && k !in s.jobs && forall v :: v != t ==> !InHand(s, v, k)
    case Clean(d, op) =>
      exists k :: Forgets(s, d, op, k) && k in s.objects && !Referenced(s, k) && forall v :: !InHand(s, v, k)
    case _ => false
  }

  // ---- Everything else keeps its owner ----

  /** What others have in hand stays there. */
  lemma OthersHold(s: State, t: nat, op: Op, v: nat, k: Key)
    requires OpEnabled(s, t, op) && v != t
    ensures InHand(OpStep(s, t, op), v, k) <==> InHand(s, v, k)
  {
    OpUntouched(s, t, op, v);
    hide OpStep, OpEnabled;
  }

  /** References and deletion jobs stay through an upload's step, and what it stores it
      has in hand. */
  ghost predicate KeepsOthers(s: State, u: State, t: nat, k: Key) {
    && (Referenced(s, k) ==> Referenced(u, k))
    && (k in s.jobs ==> k in u.jobs)
    && (k in u.objects ==> k in s.objects || InHand(u, t, k))
  }

  lemma StoringKeepsOthers(s: State, t: nat, op: Op, k: Key)
    requires OpEnabled(s, t, op) && (op.Put? || op.PutFails?)
    ensures KeepsOthers(s, OpStep(s, t, op), t, k)
    ensures InHand(s, t, k) ==> InHand(OpStep(s, t, op), t, k)
  {
    hide Release, Enqueue, Keys, Insertable, AllKeys;
    var keys, n := Keys(s.uploads[t].request), s.uploads[t].pc.done;
    assert keys[..n + 1] == keys[..n] + [keys[n]];
  }

  lemma CommitReferences(s: State, t: nat, k: Key)
    requires t in s.uploads
    ensures Referenced(s, k) || k in Keys(s.uploads[t].request) ==> Referenced(Commit(s, t), k)
  {
    KeysAre(s.uploads[t].request);
    assert k in Keys(s.uploads[t].request) <==> k in AllKeys(s.uploads[t].request);
    hide Keys, AllKeys;
  }

  lemma CommitMoves(s: State, t: nat, op: Op, k: Key)
    requires OpEnabled(s, t, op) && Commits(op)
    ensures OwnerMoves(s, OpStep(s, t, op), t, k, LetsGo(s, t, op, k))
  {
    var keys, u := Keys(s.uploads[t].request), OpStep(s, t, op);
    CommitReferences(s, t, k);
    assert u.rows == Commit(s, t).rows && u.photos == Commit(s, t).photos by { hide Release, Commit; }
    hide Release, Commit, Keys, Insertable;
    assert k in keys[..|keys|] <==> k in keys;
  }

  /** What letting go means, and that nothing else loses its owner. */
  ghost predicate OwnerMoves(s: State, u: State, t: nat, k: Key, letsGo: bool) {
    && KeepsOthers(s, u, t, k)
    && (InHand(s, t, k) && k in u.objects && !letsGo ==> InHand(u, t, k) || k in u.jobs || Referenced(u, k))
    && (letsGo && k in s.objects ==> k in u.objects && !InHand(u, t, k) && (Referenced(u, k) ==> Referenced(s, k)) && (k in u.jobs ==> k in s.jobs))
  }

  lemma DeleteMoves(s: State, t: nat, k: Key)
    requires OpEnabled(s, t, Delete)
    ensures OwnerMoves(s, OpStep(s, t, Delete), t, k, LetsGo(s, t, Delete, k))
  {
    hide Keys;
    var todo := s.uploads[t].pc.todo;
    assert todo == [todo[0]] + todo[1..];
  }

  lemma DeleteFailsMoves(s: State, t: nat, deleted: bool, queued: bool, k: Key)
    requires OpEnabled(s, t, DeleteFails(deleted, queued))
    ensures OwnerMoves(s, OpStep(s, t, DeleteFails(deleted, queued)), t, k, LetsGo(s, t, DeleteFails(deleted, queued), k))
  {
    EnqueuedKeys(s, [s.uploads[t].pc.todo[0]]);
    hide Enqueue, Keys, OwnerMoves, Referenced;
    var todo, u := s.uploads[t].pc.todo, AfterDeleteFails(s, t, deleted, queued);
    assert todo == [todo[0]] + todo[1..];
    assert InHand(s, t, k) <==> k in todo;
    assert InHand(u, t, k) <==> k in todo[1..];
    assert k in u.objects <==> k in s.objects && !(deleted && k == todo[0]);
    assert k in u.jobs <==> k in s.jobs || (queued && k == todo[0]);
    StayingMoves(s, u, t, k, LetsGo(s, t, DeleteFails(deleted, queued), k));
  }

  /** A step that changes no row and stores no object. */
  lemma StayingMoves(s: State, u: State, t: nat, k: Key, letsGo: bool)
    requires u.rows == s.rows && u.photos == s.photos && (k in u.objects ==> k in s.objects) && (k in s.jobs ==> k in u.jobs)
    requires InHand(s, t, k) && k in u.objects && !letsGo ==> InHand(u, t, k) || k in u.jobs
    requires letsGo && k in s.objects ==> k in u.objects && !InHand(u, t, k) && (k in u.jobs ==> k in s.jobs)
    ensures OwnerMoves(s, u, t, k, letsGo)
  {
    hide InHand;
  }

  lemma ResolveHands(s: State, t: nat, k: Key)
    requires OpEnabled(s, t, Resolve)
    ensures var u := AfterResolve(s, t);
            && (InHand(s, t, k) && !LetsGo(s, t, Resolve, k) ==> InHand(u, t, k))
            && (LetsGo(s, t, Resolve, k) ==> !InHand(u, t, k))
  {
    ResolvesTo(s, t);
    hide AfterResolve, Keys, AllKeys, Matches;
    assert Resolution(s, t).Compensating? ==> Resolution(s, t).todo == Keys(s.uploads[t].request);
    hide Resolution;
  }

  lemma ResolvesTo(s: State, t: nat)
    requires t in s.uploads
    ensures AfterResolve(s, t).uploads[t].pc == Resolution(s, t) && (Resolution(s, t).Compensating? || Resolution(s, t).Done?)
  {
    hide Release, Keys, Matches;
  }

  lemma ResolveMoves(s: State, t: nat, k: Key)
    requires OpEnabled(s, t, Resolve)
    ensures OwnerMoves(s, OpStep(s, t, Resolve), t, k, LetsGo(s, t, Resolve, k))
  {
    ResolveHands(s, t, k);
    hide AfterResolve, InHand, LetsGo, OwnerMoves;
    StayingMoves(s, OpStep(s, t, Resolve), t, k, LetsGo(s, t, Resolve, k));
  }

  lemma ResolveFailsMoves(s: State, t: nat, queued: bool, k: Key)
    requires OpEnabled(s, t, ResolveFails(queued))
    ensures OwnerMoves(s, OpStep(s, t, ResolveFails(queued)), t, k, LetsGo(s, t, ResolveFails(queued), k))
  {
    EnqueuedKeys(s, Keys(s.uploads[t].request));
    hide Release, Enqueue, Keys, OwnerMoves;
    StayingMoves(s, OpStep(s, t, ResolveFails(queued)), t, k, LetsGo(s, t, ResolveFails(queued), k));
  }

  lemma LimboAbortsMoves(s: State, t: nat, k: Key)
    requires OpEnabled(s, t, LimboAborts)
    ensures OwnerMoves(s, OpStep(s, t, LimboAborts), t, k, LetsGo(s, t, LimboAborts, k))
  {
    hide Release, Keys, OwnerMoves;
    StayingMoves(s, OpStep(s, t, LimboAborts), t, k, LetsGo(s, t, LimboAborts, k));
  }

  lemma OtherKeepsOthers(s: State, t: nat, op: Op, k: Key)
    requires OpEnabled(s, t, op) && !op.Put? && !op.PutFails? && !Commits(op) && !op.Delete? && !op.DeleteFails? && !op.Resolve? && !op.ResolveFails? && !op.LimboAborts?
    ensures KeepsOthers(s, OpStep(s, t, op), t, k)
    ensures InHand(s, t, k) ==> InHand(OpStep(s, t, op), t, k)
  {
    hide Release, Enqueue, Insertable, AllKeys, Matches, CanLock;
  }

  /** One key, through one step of an upload. */
  lemma OpKeepsOwner(s: State, t: nat, op: Op, k: Key)
    requires OpEnabled(s, t, op)
    ensures OwnerMoves(s, OpStep(s, t, op), t, k, LetsGo(s, t, op, k))
  {
    hide OpStep, OpEnabled, KeepsOthers, InHand;
    match op
    case Put => StoringKeepsOthers(s, t, op, k);
    case PutFails(_) => StoringKeepsOthers(s, t, op, k);
    case Create => CommitMoves(s, t, op, k);
    case LimboCommits => CommitMoves(s, t, op, k);
    case Delete => DeleteMoves(s, t, k);
    case DeleteFails(deleted, queued) => DeleteFailsMoves(s, t, deleted, queued, k);
    case Resolve => ResolveMoves(s, t, k);
    case ResolveFails(queued) => ResolveFailsMoves(s, t, queued, k);
    case LimboAborts => LimboAbortsMoves(s, t, k);
    case _ => OtherKeepsOthers(s, t, op, k);
  }

  lemma OpLeaksIff(s: State, t: nat, op: Op)
    requires OpEnabled(s, t, op) && NoLeak(s)
    ensures NoLeak(OpStep(s, t, op)) <==> !Leaks(s, Action.Publish(t, op))
  {
    hide OpStep, OpEnabled, InHand, Referenced, LetsGo;
    var u := OpStep(s, t, op);
    forall k ensures Owned(u, k) || k !in u.objects || (LetsGo(s, t, op, k) && k in s.objects && !Referenced(s, k) && k !in s.jobs && forall v :: v != t ==> !InHand(s, v, k)) {
      OpKeepsOwner(s, t, op, k);
      forall v | v != t ensures InHand(u, v, k) <==> InHand(s, v, k) { OthersHold(s, t, op, v, k); }
    }
    if k :| LetsGo(s, t, op, k) && k in s.objects && !Referenced(s, k) && k !in s.jobs && forall v :: v != t ==> !InHand(s, v, k) {
      OpKeepsOwner(s, t, op, k);
      forall v ensures !InHand(u, v, k) { if v != t { OthersHold(s, t, op, v, k); } }
      assert k in u.objects && !Owned(u, k);
    }
  }

  lemma DrainLeaksIff(s: State, d: nat, op: DrainOp)
    requires DrainEnabled(s, d, op) && NoLeak(s)
    ensures NoLeak(DrainStep(s, d, op)) <==> !Leaks(s, Clean(d, op))
  {
    hide Keys;
    var u := DrainStep(s, d, op);
    forall v, k ensures InHand(u, v, k) <==> InHand(s, v, k) {}
    forall k ensures Referenced(u, k) <==> Referenced(s, k) {}
    hide InHand, Referenced;
    forall k | k in u.objects && !Forgets(s, d, op, k) ensures Owned(u, k) {
      assert Owned(s, k);
      if t :| InHand(s, t, k) { assert InHand(u, t, k); }
    }
    forall k | Forgets(s, d, op, k) ensures k !in u.jobs && (k in u.objects <==> k in s.objects) {}
  }

  lemma UnreferencingKeepsOwners(s: State, a: Action)
    requires Enabled(s, a) && Unreferences(a) && NoLeak(s)
    ensures NoLeak(Step(s, a))
  {
    hide Keys;
    var u := Step(s, a);
    EnqueuedKeys(s, if a.Retire? then [a.key] else [ChallengeKey(a.id)]);
    forall v, k ensures InHand(u, v, k) <==> InHand(s, v, k) {}
    hide InHand, Enqueue;
    forall k | k in u.objects ensures Owned(u, k) {
      assert Owned(s, k);
      if t :| InHand(s, t, k) { assert InHand(u, t, k); }
    }
  }

  lemma StepLeaksIff(s: State, a: Action)
    requires Enabled(s, a) && NoLeak(s)
    ensures NoLeak(Step(s, a)) <==> !Leaks(s, a)
  {
    match a
    case Publish(t, op) => hide NoLeak, Leaks, OpStep, OpEnabled; OpLeaksIff(s, t, op);
    case Clean(d, op) => hide NoLeak, Leaks, DrainStep, DrainEnabled; DrainLeaksIff(s, d, op);
    case _ => hide NoLeak; UnreferencingKeepsOwners(s, a);
  }

  ghost predicate OwnedThroughout(s: State, actions: seq<Action>)
    requires CanRun(s, actions)
    decreases |actions|
  {
    NoLeak(s) && (actions == [] || OwnedThroughout(Step(s, actions[0]), actions[1..]))
  }

  ghost predicate LeaksNothing(s: State, actions: seq<Action>)
    requires CanRun(s, actions)
    decreases |actions|
  {
    actions == [] || (!Leaks(s, actions[0]) && LeaksNothing(Step(s, actions[0]), actions[1..]))
  }

  lemma {:induction false} RunLeaksIff(s: State, actions: seq<Action>)
    requires CanRun(s, actions) && NoLeak(s)
    ensures OwnedThroughout(s, actions) <==> LeaksNothing(s, actions)
    decreases |actions|
  {
    hide Step, Enabled, NoLeak, Leaks;
    if actions != [] {
      StepLeaksIff(s, actions[0]);
      if NoLeak(Step(s, actions[0])) { RunLeaksIff(Step(s, actions[0]), actions[1..]); }
    }
  }

  /** Of any run: every stored object has a row, an upload or a deletion job that answers
      for it at every point if and only if no step of the kinds above lets go of the last one. All other failures, races and retries leave nothing behind. */
  lemma PublicationsLeakIff(actions: seq<Action>)
    requires CanRun(INIT, actions)
    ensures OwnedThroughout(INIT, actions) <==> LeaksNothing(INIT, actions)
  {
    RunLeaksIff(INIT, actions);
  }

  // ---- Objects that are left behind ----

  /** A commit fails without anyone knowing, another request publishes under the same
      idempotency key, and Resolve reports a conflict: the first upload's group photo is
      neither compensated nor queued. */
  lemma ConflictLeavesObject(r: Request, g: string, q: Request, h: string) returns (s: State)
    requires r.groups == [g] && q.groups == [h] && q.id == r.id && g != h && q.owner != r.owner
    ensures Reachable(s) && Is(s, 0, Done(Conflicted)) && PhotoKey(r.id, g) in s.objects && !Owned(s, PhotoKey(r.id, g))
  {
    hide Reachable;
    var c, p := ChallengeKey(r.id), PhotoKey(r.id, g);
    var a := CommitAborted(r, g);
    var e := SecondPublishes(a, r, q, h);
    KeysOfOne(r, g);
    var f := Step(e, Action.Publish(0, LockAgain(c)));
    Next(e, Action.Publish(0, LockAgain(c)), f);
    assert {} + {c} == {c} && f.uploads == map[0 := Upload(r, Resolving({c})), 1 := Upload(q, Done(Created))];
    s := Conflicting(f, r, g, q, h);
  }

  /** Another upload with the same idempotency key, to one group. */
  lemma SecondPublishes(s: State, r: Request, q: Request, h: string) returns (u: State)
    requires Reachable(s) && q.groups == [h] && q.id == r.id && s.uploads == map[0 := Upload(r, Resolving({}))]
    requires s.limbo == {} && s.locks == map[] && s.rows == map[] && s.photos == map[] && s.jobs == map[]
    ensures Reachable(u) && u.uploads == map[0 := Upload(r, Resolving({})), 1 := Upload(q, Done(Created))]
    ensures u.limbo == {} && u.locks == map[] && u.rows == map[q.id := RowOf(q, 1)] && u.photos == map[PhotoKey(q.id, h) := Photo(1, true)] && u.jobs == map[]
    ensures forall k :: k in s.objects ==> k in u.objects
  {
    hide *;
    var a := Reserved(s, 1, q, h);
    var b := StoredBoth(a, 1, h);
    KeysOfOne(q, h);
    assert b.uploads == map[0 := Upload(r, Resolving({})), 1 := Upload(q, Putting(2))];
    u := OnlyPublished(b, 1, q, h);
  }

  /** Stored for one group; its commit reported an error and had not taken effect. */
  lemma CommitAborted(r: Request, g: string) returns (s: State)
    requires r.groups == [g]
    ensures Reachable(s) && s.uploads == map[0 := Upload(r, Resolving({}))] && s.limbo == {} && s.locks == map[] && s.rows == map[]
    ensures s.photos == map[] && s.jobs == map[] && PhotoKey(r.id, g) in s.objects
  {
    hide Reachable;
    assert Reachable(INIT) by { StartReachable(); }
    var a := Reserved(INIT, 0, r, g);
    var b := StoredBoth(a, 0, g);
    KeysOfOne(r, g);
    var c := b.(uploads := map[0 := Upload(r, Resolving({}))], limbo := {0});
    assert c.uploads == b.uploads[0 := Upload(r, Resolving({}))];
    Next(b, Action.Publish(0, CreateUncertain), c);
    s := Step(c, Action.Publish(0, LimboAborts));
    Next(c, Action.Publish(0, LimboAborts), s);
    assert s.locks == map[] && s.limbo == {};
  }

  lemma Conflicting(s: State, r: Request, g: string, q: Request, h: string) returns (u: State)
    requires Reachable(s) && r.groups == [g] && g != h && q.owner != r.owner && s.rows == map[r.id := RowOf(q, 1)] && s.limbo == {} && s.jobs == map[]
    requires s.uploads == map[0 := Upload(r, Resolving({ChallengeKey(r.id)})), 1 := Upload(q, Done(Created))]
    requires s.photos == map[PhotoKey(r.id, h) := Photo(1, true)] && PhotoKey(r.id, g) in s.objects && PhotoKey(r.id, g) !in s.locks
    ensures Reachable(u) && Is(u, 0, Done(Conflicted)) && PhotoKey(r.id, g) in u.objects && !Owned(u, PhotoKey(r.id, g))
  {
    hide Reachable;
    var c, p := ChallengeKey(r.id), PhotoKey(r.id, g);
    KeysOfOne(r, g);
    var a := Step(s, Action.Publish(0, LockAgain(p)));
    Next(s, Action.Publish(0, LockAgain(p)), a);
    assert {c} + {p} == {c, p} && a.uploads == s.uploads[0 := Upload(r, Resolving({c, p}))];
    assert !Matches(RowOf(q, 1), r) && !Referenced(a, p);
    u := LetGo(a, r, p);
  }

  /** Resolve in favour of another publication. */
  lemma LetGo(s: State, r: Request, k: Key) returns (u: State)
    requires Reachable(s) && OpEnabled(s, 0, Resolve) && s.limbo == {} && s.uploads.Keys == {0, 1} && s.uploads[1].pc.Done?
    requires s.uploads[0].request == r && r.id in s.rows && !Matches(s.rows[r.id], r)
    requires k in s.objects && !Referenced(s, k) && k !in s.jobs
    ensures Reachable(u) && Is(u, 0, Done(Conflicted)) && k in u.objects && !Owned(u, k)
  {
    hide Reachable, Release, Matches, Keys;
    u := Step(s, Action.Publish(0, Resolve));
    Next(s, Action.Publish(0, Resolve), u);
    forall t ensures !InHand(u, t, k) {}
  }

  /** A deletion job for a key that a row still refers to: the drain looks, the author
      deletes the row and finds the job active, and the drain completes it. */
  lemma DrainForgetsObject(r: Request, g: string) returns (s: State)
    requires r.groups == [g]
    ensures Reachable(s) && ChallengeKey(r.id) in s.objects && !Owned(s, ChallengeKey(r.id)) && s.drains == map[]
  {
    hide Reachable;
    var c := ChallengeKey(r.id);
    var a := CommittedInLimbo(r, g);
    KeysOfOne(r, g);
    var b := Step(a, Action.Publish(0, ResolveFails(true)));
    EnqueuedKeys(a, Keys(r));
    Next(a, Action.Publish(0, ResolveFails(true)), b);
    assert b.uploads == map[0 := Upload(r, Done(Failed))] && c in b.jobs && b.locks == map[] && b.rows == a.rows && c in b.objects && b.limbo == {};
    s := Forgotten(b, r);
  }

  lemma Forgotten(s: State, r: Request) returns (u: State)
    requires Reachable(s) && s.uploads == map[0 := Upload(r, Done(Failed))] && s.limbo == {} && s.locks == map[] && s.drains == map[]
    requires s.rows == map[r.id := RowOf(r, 0)] && ChallengeKey(r.id) in s.jobs && ChallengeKey(r.id) in s.objects
    ensures Reachable(u) && ChallengeKey(r.id) in u.objects && !Owned(u, ChallengeKey(r.id)) && u.drains == map[]
  {
    hide Reachable;
    var c := ChallengeKey(r.id);
    var a := s.(drains := map[0 := Drainer(c, s.jobs[c], Waiting)]);
    Next(s, Clean(0, Claim(c)), a);
    var b := a.(drains := map[0 := Drainer(c, s.jobs[c], DrainPc.Locked)], locks := map[c := Drain(0)]);
    assert b.drains == a.drains[0 := Drainer(c, s.jobs[c], DrainPc.Locked)] && b.locks == a.locks[c := Drain(0)];
    Next(a, Clean(0, Take), b);
    u := DeletedMeanwhile(b, r);
  }

  lemma DeletedMeanwhile(b: State, r: Request) returns (u: State)
    requires Reachable(b) && b.uploads == map[0 := Upload(r, Done(Failed))] && b.limbo == {} && b.rows == map[r.id := RowOf(r, 0)]
    requires ChallengeKey(r.id) in b.jobs && ChallengeKey(r.id) in b.objects
    requires b.drains == map[0 := Drainer(ChallengeKey(r.id), b.jobs[ChallengeKey(r.id)], DrainPc.Locked)]
    ensures Reachable(u) && ChallengeKey(r.id) in u.objects && !Owned(u, ChallengeKey(r.id)) && u.drains == map[]
  {
    hide Reachable;
    var c := ChallengeKey(r.id);
    var d := b.(drains := map[0 := Drainer(c, b.jobs[c], Completing)]);
    assert d.drains == b.drains[0 := Drainer(c, b.jobs[c], Completing)];
    Next(b, Clean(0, Check), d);
    u := CompletedAfter(d, r);
  }

  lemma CompletedAfter(d: State, r: Request) returns (u: State)
    requires Reachable(d) && d.uploads == map[0 := Upload(r, Done(Failed))] && d.limbo == {} && d.rows == map[r.id := RowOf(r, 0)]
    requires ChallengeKey(r.id) in d.jobs && ChallengeKey(r.id) in d.objects
    requires d.drains == map[0 := Drainer(ChallengeKey(r.id), d.jobs[ChallengeKey(r.id)], Completing)]
    ensures Reachable(u) && ChallengeKey(r.id) in u.objects && !Owned(u, ChallengeKey(r.id)) && u.drains == map[]
  {
    hide Reachable;
    var c := ChallengeKey(r.id);
    var e := Step(d, AuthorDelete(r.id, r.owner));
    Next(d, AuthorDelete(r.id, r.owner), e);
    u := Step(e, Clean(0, Complete));
    Next(e, Clean(0, Complete), u);
    assert u.drains == map[];
    forall t ensures !InHand(u, t, c) {}
  }
}
