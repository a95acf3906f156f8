/** backend/internal/repository/groups.go and backend/handlers/feed/media.go: idempotent
    publication with uncertain commits. Publishers, compensation, the cleanup worker,
    retention and the author's delete interleave; every database transaction step and
    every object-store call is one step. Advisory locks are held until their transaction
    ends. */
module Publication {
  import opened Ordering

  // ---- Whether a stored publication is the requested one ----

  datatype Metadata = Metadata(
    caption: string,
    audience: string,
    lat: real,
    long: real,
    hideLocation: bool,
    mimeType: string,
    byteSize: int,
    contentDigest: string
  )

  function SortedGroupIDs(ids: seq<string>): (r: seq<string>)
    ensures multiset(r) == multiset(ids)
  {
    Sort(ids, LexLessEq)
  }

  method SameGroupIDs(left: seq<string>, right: seq<string>) returns (same: bool)
    ensures same <==> left == right
  {
    if |left| != |right| { return false; }
    for i := 0 to |left|
      invariant left[..i] == right[..i]
    {
      if left[i] != right[i] { return false; }
    }
    assert left == left[..|left|] && right == right[..|right|];
    return true;
  }

  /** Comparing sorted lists compares group sets, whatever the order of the request. */
  lemma SortedGroupsCompareSets(a: seq<string>, b: seq<string>)
    ensures SortedGroupIDs(a) == SortedGroupIDs(b) <==> multiset(a) == multiset(b)
  {
    LexIsTotalOrder();
    SortSorted(a, LexLessEq);
    SortSorted(b, LexLessEq);
    if multiset(a) == multiset(b) {
      SortedUnique(SortedGroupIDs(a), SortedGroupIDs(b), LexLessEq);
    }
  }

  // ---- State ----

  /** Object keys: the challenge's own, and one per target group. Both are derived from
      the idempotency key. */
  datatype Key = ChallengeKey(id: string) | PhotoKey(id: string, group: string)

  datatype Request = Request(id: string, owner: string, metadata: Metadata, groups: seq<string>)

  /** A row of public_challenges. Its publication token is that of the request that wrote
      it. */
  datatype Row = Row(owner: string, metadata: Metadata, groups: seq<string>, token: nat)

  /** A row of photos; `token` is that of the publication it belongs to. */
  datatype Photo = Photo(token: nat, live: bool)

  datatype Status = Created | Found | Conflicted | Failed

  /** Where a publisher is. `again`: under the locks of Resolve, not of the reservation. */
  datatype Pc =
    | Locking(held: set<Key>)
    | Putting(done: nat)
    | Resolving(held: set<Key>)
    | Compensating(todo: seq<Key>, again: bool)
    | Done(status: Status)

  datatype Upload = Upload(request: Request, pc: Pc)

  /** Transactions that hold locks. */
  datatype Owner = Main(upload: nat) | Again(upload: nat) | Drain(worker: nat)

  datatype DrainPc = Waiting | Locked | Deleting | Completing
  datatype Drainer = Drainer(key: Key, job: nat, pc: DrainPc)

  /** `limbo` holds the uploads whose commit reported an error and is not decided yet.
      `objects` maps a stored key to the upload that wrote it, `jobs` maps a key to
      its active deletion job. `committed`, `commits`, `deletes` and `broadcasts` are a record. */
  datatype State = State(
    uploads: map<nat, Upload>,
    locks: map<Key, Owner>,
    limbo: set<nat>,
    rows: map<string, Row>,
    photos: map<Key, Photo>,
    objects: map<Key, nat>,
    jobs: map<Key, nat>,
    nextJob: nat,
    drains: map<nat, Drainer>,
    committed: set<nat>,
    commits: map<string, nat>,
    deletes: map<string, nat>,
    broadcasts: seq<nat>
  )

  const INIT := State(map[], map[], {}, map[], map[], map[], map[], 0, map[], {}, map[], map[], [])

  function Keys(r: Request): seq<Key> {
    [ChallengeKey(r.id)] + seq(|r.groups|, i requires 0 <= i < |r.groups| => PhotoKey(r.id, r.groups[i]))
  }

  function PhotoKeys(r: Request): set<Key> {
    set g | g in r.groups :: PhotoKey(r.id, g)
  }

  function AllKeys(r: Request): (ks: set<Key>)
    ensures forall k :: k in ks <==> k in Keys(r)
  {
    set k | k in Keys(r)
  }

  lemma KeysAre(r: Request)
    ensures AllKeys(r) == {ChallengeKey(r.id)} + PhotoKeys(r)
  {
    forall g | g in r.groups ensures PhotoKey(r.id, g) in Keys(r) {
      var i :| 0 <= i < |r.groups| && r.groups[i] == g;
      assert Keys(r)[i + 1] == PhotoKey(r.id, g);
    }
    forall k | k in Keys(r) ensures k in {ChallengeKey(r.id)} + PhotoKeys(r) {
      var i :| 0 <= i < |Keys(r)| && Keys(r)[i] == k;
      if i > 0 { assert r.groups[i - 1] in r.groups; }
    }
  }

  function RowOf(r: Request, token: nat): Row {
    Row(r.owner, r.metadata, SortedGroupIDs(r.groups), token)
  }

  /** samePublicationMetadata, sameGroupIDs and the owner check. */
  predicate Matches(row: Row, r: Request) {
    row.owner == r.owner && row.metadata == r.metadata && row.groups == SortedGroupIDs(r.groups)
  }

  /** What DeleteObjectIfUnreferenced looks for. */
  predicate Referenced(s: State, k: Key) {
    match k
    case ChallengeKey(id) => id in s.rows
    case PhotoKey(_, _) => k in s.photos && s.photos[k].live
  }

  /** The inserts of Create find no primary key taken. */
  predicate Insertable(s: State, r: Request) {
    r.id !in s.rows && PhotoKeys(r) !! s.photos.Keys
  }

  function Tally(counts: map<string, nat>, id: string): nat {
    if id in counts then counts[id] else 0
  }

  // ---- Steps ----

  /** What a publisher does, or what becomes of its commit. */
  datatype Op =
    | Arrive(request: Request)
    | Lock(key: Key)
    | ReserveFails
    | Reserve
    | Put
    | PutFails(stored: bool)
    | Create
    | CreateFails
    | CreateUncertain
    | LimboCommits
    | LimboAborts
    | LockAgain(key: Key)
    | ResolveFails(queued: bool)
    | Resolve
    | Delete
    | DeleteFails(deleted: bool, queued: bool)
    | Rollback

  /** What a cleanup worker does with one claimed deletion job. */
  datatype DrainOp = Claim(key: Key) | Take | Check | Erase | Complete | GiveUp

  datatype Action =
    | Publish(upload: nat, op: Op)
    | Clean(worker: nat, drain: DrainOp)
    | AuthorDelete(id: string, owner: string)
    | Retire(key: Key)

  predicate Is(s: State, t: nat, pc: Pc) {
    t in s.uploads && s.uploads[t].pc == pc
  }

  predicate IsPutting(s: State, t: nat) {
    t in s.uploads && s.uploads[t].pc.Putting? && s.uploads[t].pc.done < |Keys(s.uploads[t].request)|
  }

  predicate HasStored(s: State, t: nat) {
    t in s.uploads && s.uploads[t].pc == Putting(|Keys(s.uploads[t].request)|)
  }

  predicate IsCompensating(s: State, t: nat) {
    t in s.uploads && s.uploads[t].pc.Compensating?
  }

  predicate CanLock(s: State, t: nat, k: Key, held: set<Key>)
    requires t in s.uploads
  {
    k in Keys(s.uploads[t].request) && k !in held && k !in s.locks
  }

  predicate OpEnabled(s: State, t: nat, op: Op) {
    match op
    case Arrive(_) => t !in s.uploads
    case Lock(k) => t in s.uploads && s.uploads[t].pc.Locking? && CanLock(s, t, k, s.uploads[t].pc.held)
    case ReserveFails => t in s.uploads && s.uploads[t].pc.Locking?
    case Reserve => t in s.uploads && s.uploads[t].pc == Locking(AllKeys(s.uploads[t].request))
    case Put => IsPutting(s, t)
    case PutFails(_) => IsPutting(s, t)
    case Create => HasStored(s, t) && Insertable(s, s.uploads[t].request)
    case CreateFails => HasStored(s, t)
    case CreateUncertain => HasStored(s, t) && Insertable(s, s.uploads[t].request)
    case LimboCommits => t in s.limbo && t in s.uploads
    case LimboAborts => t in s.limbo
    case LockAgain(k) => t in s.uploads && s.uploads[t].pc.Resolving? && CanLock(s, t, k, s.uploads[t].pc.held)
    case ResolveFails(_) => t in s.uploads && s.uploads[t].pc.Resolving?
    case Resolve => t in s.uploads && s.uploads[t].pc == Resolving(AllKeys(s.uploads[t].request))
    case Delete => IsCompensating(s, t) && s.uploads[t].pc.todo != []
    case DeleteFails(_, _) => IsCompensating(s, t) && s.uploads[t].pc.todo != []
    case Rollback => IsCompensating(s, t) && s.uploads[t].pc.todo == []
  }

  predicate DrainEnabled(s: State, d: nat, op: DrainOp) {
    match op
    case Claim(k) => d !in s.drains && k in s.jobs
    case Take => d in s.drains && s.drains[d].pc == Waiting && s.drains[d].key !in s.locks
    case Check => d in s.drains && s.drains[d].pc == Locked
    case Erase => d in s.drains && s.drains[d].pc == Deleting
    case Complete => d in s.drains && s.drains[d].pc == Completing
    case GiveUp => d in s.drains
  }

  predicate Enabled(s: State, a: Action) {
    match a
    case Publish(t, op) => OpEnabled(s, t, op)
    case Clean(d, op) => DrainEnabled(s, d, op)
    case AuthorDelete(id, owner) => id in s.rows && s.rows[id].owner == owner
    case Retire(k) => k in s.photos && s.photos[k].live
  }

  /** A key that has an active deletion job gets no second one. */
  function Enqueue(s: State, keys: seq<Key>): (r: State)
    ensures r == s.(jobs := r.jobs, nextJob := r.nextJob)
    ensures forall k :: k in s.jobs ==> k in r.jobs && r.jobs[k] == s.jobs[k]
    decreases |keys|
  {
    if keys == [] then s
    else
      var t := Enqueue(s, keys[..|keys| - 1]);
      var k := keys[|keys| - 1];
      if k in t.jobs then t else t.(jobs := t.jobs[k := t.nextJob], nextJob := t.nextJob + 1)
  }

  lemma {:induction false} EnqueuedKeys(s: State, keys: seq<Key>)
    ensures forall k :: k in Enqueue(s, keys).jobs <==> k in s.jobs || k in keys
    decreases |keys|
  {
    if keys != [] {
      var n := |keys| - 1;
      EnqueuedKeys(s, keys[..n]);
      assert keys == keys[..n] + [keys[n]];
      var t := Enqueue(s, keys[..n]);
      assert Enqueue(s, keys).jobs.Keys == t.jobs.Keys + {keys[n]};
    }
  }

  function Goto(s: State, t: nat, pc: Pc): State
    requires t in s.uploads
  {
    s.(uploads := s.uploads[t := s.uploads[t].(pc := pc)])
  }

  /** The end of a transaction. */
  function Release(s: State, owner: Owner): (r: State)
    ensures r == s.(locks := r.locks)
    ensures forall k :: k in r.locks <==> k in s.locks && s.locks[k] != owner
    ensures forall k :: k in r.locks ==> r.locks[k] == s.locks[k]
  {
    s.(locks := map k | k in s.locks && s.locks[k] != owner :: s.locks[k])
  }

  function Commit(s: State, t: nat): (u: State)
    requires t in s.uploads
    ensures u == s.(rows := u.rows, photos := u.photos, committed := u.committed, commits := u.commits)
  {
    var r := s.uploads[t].request;
    s.(rows := s.rows[r.id := RowOf(r, t)], photos := s.photos + map k | k in PhotoKeys(r) :: Photo(t, true),
       committed := s.committed + {t}, commits := s.commits[r.id := Tally(s.commits, r.id) + 1])
  }

  function Broadcast(s: State, t: nat): State {
    s.(broadcasts := s.broadcasts + [t])
  }

  /** The row is looked up under every key's lock. */
  function AfterReserve(s: State, t: nat): (u: State)
    requires t in s.uploads
    ensures t in u.uploads && u.uploads[t].request == s.uploads[t].request
    ensures u == s.(uploads := s.uploads[t := u.uploads[t]], locks := u.locks)
  {
    var r := s.uploads[t].request;
    if r.id !in s.rows then Goto(s, t, Putting(0))
    else Release(Goto(s, t, Done(if Matches(s.rows[r.id], r) then Found else Conflicted)), Main(t))
  }

  function AfterPut(s: State, t: nat): (u: State)
    requires IsPutting(s, t)
    ensures t in u.uploads && u.uploads[t].request == s.uploads[t].request
    ensures u == s.(uploads := s.uploads[t := u.uploads[t]], objects := u.objects)
  {
    var n := s.uploads[t].pc.done;
    Goto(s, t, Putting(n + 1)).(objects := s.objects[Keys(s.uploads[t].request)[n] := t])
  }

  /** A failed put may have stored its object all the same. */
  function AfterPutFails(s: State, t: nat, stored: bool): (u: State)
    requires IsPutting(s, t)
    ensures t in u.uploads && u.uploads[t].request == s.uploads[t].request
    ensures u == s.(uploads := s.uploads[t := u.uploads[t]], objects := u.objects)
  {
    var n, keys := s.uploads[t].pc.done, Keys(s.uploads[t].request);
    Goto(s, t, Compensating(keys[..n + 1], false)).(objects := if stored then s.objects[keys[n] := t] else s.objects)
  }

  function AfterDelete(s: State, t: nat): (u: State)
    requires IsCompensating(s, t) && s.uploads[t].pc.todo != []
    ensures t in u.uploads && u.uploads[t].request == s.uploads[t].request
    ensures u == s.(uploads := s.uploads[t := u.uploads[t]], objects := u.objects)
  {
    var pc := s.uploads[t].pc;
    Goto(s, t, pc.(todo := pc.todo[1..])).(objects := s.objects - {pc.todo[0]})
  }

  function AfterDeleteFails(s: State, t: nat, deleted: bool, queued: bool): (u: State)
    requires IsCompensating(s, t) && s.uploads[t].pc.todo != []
    ensures t in u.uploads && u.uploads[t].request == s.uploads[t].request
    ensures u == s.(uploads := s.uploads[t := u.uploads[t]], objects := u.objects, jobs := u.jobs, nextJob := u.nextJob)
  {
    var pc := s.uploads[t].pc;
    Goto(if queued then Enqueue(s, [pc.todo[0]]) else s, t, pc.(todo := pc.todo[1..])).(
      objects := if deleted then s.objects - {pc.todo[0]} else s.objects)
  }

  /** What Resolve finds of the commit, under every key's lock again. */
  function Resolution(s: State, t: nat): Pc
    requires t in s.uploads
  {
    var r := s.uploads[t].request;
    if r.id !in s.rows then Compensating(Keys(r), true)
    else if !Matches(s.rows[r.id], r) then Done(Conflicted)
    else if s.rows[r.id].token == t then Done(Created)
    else Done(Found)
  }

  function AfterResolve(s: State, t: nat): (u: State)
    requires t in s.uploads
    ensures t in u.uploads && u.uploads[t].request == s.uploads[t].request
    ensures u == s.(uploads := s.uploads[t := u.uploads[t]], locks := u.locks, broadcasts := u.broadcasts)
  {
    var u := Goto(s, t, Resolution(s, t));
    if Resolution(s, t).Compensating? then u
    else if Resolution(s, t) == Done(Created) then Broadcast(Release(u, Again(t)), t)
    else Release(u, Again(t))
  }

  function OpStep(s: State, t: nat, op: Op): State
    requires OpEnabled(s, t, op)
  {
    match op
    case Arrive(r) => s.(uploads := s.uploads[t := Upload(r, Locking({}))])
    case Lock(k) => Goto(s, t, Locking(s.uploads[t].pc.held + {k})).(locks := s.locks[k := Main(t)])
    case ReserveFails => Release(Goto(s, t, Done(Failed)), Main(t))
    case Reserve => AfterReserve(s, t)
    case Put => AfterPut(s, t)
    case PutFails(stored) => AfterPutFails(s, t, stored)
    case Create => Broadcast(Release(Goto(Commit(s, t), t, Done(Created)), Main(t)), t)
    case CreateFails => Goto(s, t, Compensating(Keys(s.uploads[t].request), false))
    case CreateUncertain => Goto(s, t, Resolving({})).(limbo := s.limbo + {t})
    case LimboCommits => Release(Commit(s, t), Main(t)).(limbo := s.limbo - {t})
    case LimboAborts => Release(s, Main(t)).(limbo := s.limbo - {t})
    case LockAgain(k) => Goto(s, t, Resolving(s.uploads[t].pc.held + {k})).(locks := s.locks[k := Again(t)])
    case ResolveFails(queued) => Release(Goto(if queued then Enqueue(s, Keys(s.uploads[t].request)) else s, t, Done(Failed)), Again(t))
    case Resolve => AfterResolve(s, t)
    case Delete => AfterDelete(s, t)
    case DeleteFails(deleted, queued) => AfterDeleteFails(s, t, deleted, queued)
    case Rollback => Release(Goto(s, t, Done(Failed)), if s.uploads[t].pc.again then Again(t) else Main(t))
  }

  function DrainStep(s: State, d: nat, op: DrainOp): State
    requires DrainEnabled(s, d, op)
  {
    match op
    case Claim(k) => s.(drains := s.drains[d := Drainer(k, s.jobs[k], Waiting)])
    case Take => s.(drains := s.drains[d := s.drains[d].(pc := Locked)], locks := s.locks[s.drains[d].key := Drain(d)])
    case Check => s.(drains := s.drains[d := s.drains[d].(pc := if Referenced(s, s.drains[d].key) then Completing else Deleting)])
    case Erase => s.(drains := s.drains[d := s.drains[d].(pc := Completing)], objects := s.objects - {s.drains[d].key})
    case Complete =>
      var k := s.drains[d].key;
      var jobs := if k in s.jobs && s.jobs[k] == s.drains[d].job then s.jobs - {k} else s.jobs;
      Release(s.(drains := s.drains - {d}, jobs := jobs), Drain(d))
    case GiveUp => Release(s.(drains := s.drains - {d}), Drain(d))
  }

  function Step(s: State, a: Action): State
    requires Enabled(s, a)
  {
    match a
    case Publish(t, op) => OpStep(s, t, op)
    case Clean(d, op) => DrainStep(s, d, op)
    case AuthorDelete(id, _) => Enqueue(s, [ChallengeKey(id)]).(rows := s.rows - {id}, deletes := s.deletes[id := Tally(s.deletes, id) + 1])
    case Retire(k) => Enqueue(s, [k]).(photos := s.photos[k := s.photos[k].(live := false)])
  }

  // ---- Locks ----

  /** The keys an upload's reservation, or its commit in limbo, has locked. */
  function MainHeld(s: State, t: nat): set<Key>
    requires t in s.uploads
  {
    var upload := s.uploads[t];
    if t in s.limbo then AllKeys(upload.request)
    else
      match upload.pc
      case Locking(held) => held
      case Putting(_) => AllKeys(upload.request)
      case Compensating(_, again) => if again then {} else AllKeys(upload.request)
      case _ => {}
  }

  function AgainHeld(s: State, t: nat): set<Key>
    requires t in s.uploads
  {
    var upload := s.uploads[t];
    match upload.pc
    case Resolving(held) => held
    case Compensating(_, again) => if again then AllKeys(upload.request) else {}
    case _ => {}
  }

  ghost predicate Holds(s: State, owner: Owner, keys: set<Key>) {
    forall k :: k in keys ==> k in s.locks && s.locks[k] == owner
  }

  /** Working on objects for a publication that does not exist. */
  predicate Working(s: State, t: nat) {
    t in s.uploads && (s.uploads[t].pc.Putting? || s.uploads[t].pc.Compensating? || t in s.limbo)
  }

  /** The keys whose references matter: all, or only the challenge's. */
  function Guarded(r: Request, clean: bool): set<Key> {
    if clean then AllKeys(r) else {ChallengeKey(r.id)}
  }

  ghost predicate Wrote(s: State, t: nat, n: nat)
    requires t in s.uploads && n <= |Keys(s.uploads[t].request)|
  {
    forall i :: 0 <= i < n ==> var k := Keys(s.uploads[t].request)[i]; k in s.objects && s.objects[k] == t
  }

  ghost predicate UploadInv(s: State, t: nat, clean: bool) {
    && (t in s.limbo ==> t in s.uploads && (s.uploads[t].pc.Resolving? || s.uploads[t].pc == Done(Failed)))
    && (t in s.uploads ==>
          var r, pc := s.uploads[t].request, s.uploads[t].pc;
          && MainHeld(s, t) <= AllKeys(r) && AgainHeld(s, t) <= AllKeys(r)
          && Holds(s, Main(t), MainHeld(s, t)) && Holds(s, Again(t), AgainHeld(s, t))
          && (Working(s, t) ==> forall k :: k in Guarded(r, clean) ==> !Referenced(s, k))
          && (pc.Putting? ==> pc.done <= |Keys(r)| && Wrote(s, t, pc.done))
          && (t in s.limbo ==> Wrote(s, t, |Keys(r)|))
          && (pc.Compensating? ==> forall k :: k in pc.todo ==> k in AllKeys(r)))
  }

  ghost predicate DrainInv(s: State, d: nat) {
    d in s.drains && s.drains[d].pc != Waiting ==>
      var k := s.drains[d].key;
      k in s.locks && s.locks[k] == Drain(d) && (s.drains[d].pc == Deleting ==> !Referenced(s, k))
  }

  ghost predicate LocksInv(s: State, clean: bool) {
    (forall t :: UploadInv(s, t, clean)) && (forall d :: DrainInv(s, d))
  }

  // ---- What a step leaves alone ----

  predicate SameObject(s: State, t: State, k: Key) {
    (k in t.objects <==> k in s.objects) && (k in s.objects ==> t.objects[k] == s.objects[k])
  }

  /** A step of `owner` respects what others have locked. */
  ghost predicate Respects(s: State, t: State, owner: Owner) {
    forall k :: k in s.locks && s.locks[k] != owner ==>
      k in t.locks && t.locks[k] == s.locks[k] && (Referenced(t, k) ==> Referenced(s, k)) && SameObject(s, t, k)
  }

  lemma OtherUploadKept(s: State, t: State, owner: Owner, u: nat, clean: bool)
    requires UploadInv(s, u, clean) && Respects(s, t, owner) && owner != Main(u) && owner != Again(u)
    requires (u in t.uploads <==> u in s.uploads) && (u in s.uploads ==> t.uploads[u] == s.uploads[u]) && (u in t.limbo <==> u in s.limbo)
    ensures UploadInv(t, u, clean)
  {
    if u in s.uploads {
      var r := s.uploads[u].request;
      assert MainHeld(t, u) == MainHeld(s, u) && AgainHeld(t, u) == AgainHeld(s, u);
      if Working(s, u) {
        assert Guarded(r, clean) <= AllKeys(r) by { KeysAre(r); }
        assert AllKeys(r) == MainHeld(s, u) || AllKeys(r) == AgainHeld(s, u);
        forall i | 0 <= i < |Keys(r)| ensures Keys(r)[i] in AllKeys(r) {}
      }
    }
  }

  lemma OtherDrainKept(s: State, t: State, owner: Owner, d: nat)
    requires DrainInv(s, d) && Respects(s, t, owner) && owner != Drain(d)
    requires (d in t.drains <==> d in s.drains) && (d in s.drains ==> t.drains[d] == s.drains[d])
    ensures DrainInv(t, d)
  {
  }

  // ---- Every step respects the locks ----

  /** Nothing stored or referenced changes. */
  lemma OnlyLocksRespects(s: State, t: State, owner: Owner)
    requires t.rows == s.rows && t.photos == s.photos && t.objects == s.objects
    requires forall k :: k in s.locks && s.locks[k] != owner ==> k in t.locks && t.locks[k] == s.locks[k]
    ensures Respects(s, t, owner)
  {
  }

  lemma OneObjectRespects(s: State, t: State, k: Key, owner: Owner)
    requires t.rows == s.rows && t.photos == s.photos && t.locks == s.locks && k in s.locks && s.locks[k] == owner
    requires t.objects - {k} == s.objects - {k}
    ensures Respects(s, t, owner)
  {
    forall d | d != k ensures SameObject(s, t, d) {
      assert (d in t.objects <==> d in t.objects - {k}) && (d in s.objects <==> d in s.objects - {k});
    }
  }

  lemma CommitRespects(s: State, t: nat)
    requires t in s.uploads && Holds(s, Main(t), AllKeys(s.uploads[t].request))
    ensures Respects(s, Commit(s, t), Main(t))
  {
    KeysAre(s.uploads[t].request);
  }

  /** Ending a transaction after a step that respected the others. */
  lemma ReleaseRespects(s: State, u: State, t: State, owner: Owner)
    requires Respects(s, u, owner) && (forall k :: k in s.locks && s.locks[k] != owner ==> k in t.locks && t.locks[k] == s.locks[k])
    requires t.rows == u.rows && t.photos == u.photos && t.objects == u.objects
    ensures Respects(s, t, owner)
  {
  }

  /** The transaction a step belongs to. */
  function OwnerOf(s: State, t: nat, op: Op): Owner {
    match op
    case LockAgain(_) => Again(t)
    case ResolveFails(_) => Again(t)
    case Resolve => Again(t)
    case Delete => if IsCompensating(s, t) && s.uploads[t].pc.again then Again(t) else Main(t)
    case DeleteFails(_, _) => if IsCompensating(s, t) && s.uploads[t].pc.again then Again(t) else Main(t)
    case Rollback => if IsCompensating(s, t) && s.uploads[t].pc.again then Again(t) else Main(t)
    case _ => Main(t)
  }

  predicate Writes(op: Op) {
    op.Put? || op.PutFails? || op.Delete? || op.DeleteFails?
  }

  predicate Commits(op: Op) {
    op.Create? || op.LimboCommits?
  }

  lemma CommitOpRespects(s: State, t: nat, op: Op)
    requires OpEnabled(s, t, op) && Commits(op) && UploadInv(s, t, false)
    ensures Respects(s, OpStep(s, t, op), Main(t))
  {
    assert MainHeld(s, t) == AllKeys(s.uploads[t].request);
    CommitRespects(s, t);
    hide Commit, Respects;
    ReleaseRespects(s, Commit(s, t), OpStep(s, t, op), Main(t));
  }

  lemma WriteOpRespects(s: State, t: nat, op: Op)
    requires OpEnabled(s, t, op) && Writes(op) && UploadInv(s, t, false)
    ensures Respects(s, OpStep(s, t, op), OwnerOf(s, t, op))
  {
    hide Respects, Referenced;
    var r, pc := s.uploads[t].request, s.uploads[t].pc;
    var k := if pc.Putting? then Keys(r)[pc.done] else pc.todo[0];
    assert k in AllKeys(r);
    OneObjectRespects(s, OpStep(s, t, op), k, OwnerOf(s, t, op));
  }

  lemma ResolveRespects(s: State, t: nat)
    requires t in s.uploads
    ensures Respects(s, AfterResolve(s, t), Again(t))
  {
    hide Respects, Referenced, Release, Resolution;
    var u := Goto(s, t, Resolution(s, t));
    var v := Release(u, Again(t));
    if Resolution(s, t).Compensating? {
      OnlyLocksRespects(s, u, Again(t));
    } else if Resolution(s, t) == Done(Created) {
      OnlyLocksRespects(s, Broadcast(v, t), Again(t));
    } else {
      OnlyLocksRespects(s, v, Again(t));
    }
  }

  lemma ReserveRespects(s: State, t: nat)
    requires t in s.uploads
    ensures Respects(s, AfterReserve(s, t), Main(t))
  {
    hide Respects, Referenced, Release, Matches;
    OnlyLocksRespects(s, AfterReserve(s, t), Main(t));
  }

  lemma OtherOpRespects(s: State, t: nat, op: Op)
    requires OpEnabled(s, t, op) && !Writes(op) && !Commits(op) && op != Reserve && op != Resolve
    ensures Respects(s, OpStep(s, t, op), OwnerOf(s, t, op))
  {
    hide Respects, Referenced, Release, Enqueue, Keys, AllKeys, Insertable;
    hide Commit, AfterReserve, AfterResolve, AfterPut, AfterPutFails, AfterDelete, AfterDeleteFails;
    OnlyLocksRespects(s, OpStep(s, t, op), OwnerOf(s, t, op));
  }

  lemma OpRespects(s: State, t: nat, op: Op)
    requires OpEnabled(s, t, op) && UploadInv(s, t, false)
    ensures Respects(s, OpStep(s, t, op), OwnerOf(s, t, op))
  {
    hide Respects, UploadInv, AfterReserve, AfterResolve;
    if Commits(op) {
      CommitOpRespects(s, t, op);
    } else if Writes(op) {
      WriteOpRespects(s, t, op);
    } else if op == Reserve {
      ReserveRespects(s, t);
    } else if op == Resolve {
      ResolveRespects(s, t);
    } else {
      OtherOpRespects(s, t, op);
    }
  }

  lemma DrainRespects(s: State, d: nat, op: DrainOp)
    requires DrainEnabled(s, d, op) && DrainInv(s, d)
    ensures Respects(s, DrainStep(s, d, op), Drain(d))
  {
    hide Referenced, Release;
    if op == Erase {
      OneObjectRespects(s, DrainStep(s, d, op), s.drains[d].key, Drain(d));
    } else {
      OnlyLocksRespects(s, DrainStep(s, d, op), Drain(d));
    }
  }

  predicate Unreferences(a: Action) {
    a.AuthorDelete? || a.Retire?
  }

  lemma UnreferencingRespects(s: State, a: Action, owner: Owner)
    requires Enabled(s, a) && Unreferences(a)
    ensures Respects(s, Step(s, a), owner)
  {
    hide Enqueue;
  }

  // ---- What the acting upload keeps ----

  /** A reservation, or Resolve, that finds no row finds no live photo on its keys
      either. */
  ghost predicate KeysFree(s: State, t: nat, op: Op) {
    (op == Reserve || op == Resolve) && t in s.uploads && s.uploads[t].request.id !in s.rows ==>
      forall k :: k in PhotoKeys(s.uploads[t].request) ==> !Referenced(s, k)
  }

  lemma GuardedUnreferenced(s: State, r: Request, clean: bool)
    requires r.id !in s.rows && (clean ==> forall k :: k in PhotoKeys(r) ==> !Referenced(s, k))
    ensures forall k :: k in Guarded(r, clean) ==> !Referenced(s, k)
  {
    KeysAre(r);
  }

  /** An upload that is done and has no commit pending holds nothing and works on nothing. */
  lemma DoneKeepsUpload(s: State, t: nat, clean: bool)
    requires t in s.uploads && s.uploads[t].pc.Done? && t !in s.limbo
    ensures UploadInv(s, t, clean)
  {
  }

  lemma NotInLimbo(s: State, t: nat, clean: bool)
    requires t in s.uploads && UploadInv(s, t, clean)
    ensures !s.uploads[t].pc.Resolving? && s.uploads[t].pc != Done(Failed) ==> t !in s.limbo
    ensures AgainHeld(s, t) == AllKeys(s.uploads[t].request) ==> t !in s.limbo
  {
    if AgainHeld(s, t) == AllKeys(s.uploads[t].request) {
      KeysAre(s.uploads[t].request);
      assert ChallengeKey(s.uploads[t].request.id) in AgainHeld(s, t);
    }
  }

  /** An upload that starts to work, holding its keys' locks already. */
  lemma StartsWork(s: State, t: nat, pc: Pc, clean: bool)
    requires t in s.uploads && t !in s.limbo && UploadInv(s, t, clean)
    requires forall k :: k in Guarded(s.uploads[t].request, clean) ==> !Referenced(s, k)
    requires (pc == Putting(0) && s.uploads[t].pc == Locking(AllKeys(s.uploads[t].request)))
             || (pc == Compensating(Keys(s.uploads[t].request), true) && s.uploads[t].pc == Resolving(AllKeys(s.uploads[t].request)))
    ensures UploadInv(Goto(s, t, pc), t, clean)
  {
    var u := Goto(s, t, pc);
    assert forall k :: Referenced(u, k) <==> Referenced(s, k);
  }

  lemma ReserveKeepsUpload(s: State, t: nat, clean: bool)
    requires OpEnabled(s, t, Reserve) && UploadInv(s, t, clean) && (clean ==> KeysFree(s, t, Reserve))
    ensures UploadInv(AfterReserve(s, t), t, clean)
  {
    NotInLimbo(s, t, clean);
    hide Release, Matches, UploadInv, AllKeys;
    if s.uploads[t].request.id !in s.rows {
      GuardedUnreferenced(s, s.uploads[t].request, clean);
      StartsWork(s, t, Putting(0), clean);
    } else {
      DoneKeepsUpload(AfterReserve(s, t), t, clean);
    }
  }

  lemma AbsentKeepsUpload(s: State, t: nat, clean: bool)
    requires OpEnabled(s, t, Resolve) && s.uploads[t].request.id !in s.rows && UploadInv(s, t, clean) && (clean ==> KeysFree(s, t, Resolve))
    ensures UploadInv(Goto(s, t, Compensating(Keys(s.uploads[t].request), true)), t, clean)
  {
    var r := s.uploads[t].request;
    NotInLimbo(s, t, clean);
    hide UploadInv;
    GuardedUnreferenced(s, r, clean);
    StartsWork(s, t, Compensating(Keys(r), true), clean);
  }

  lemma ResolveKeepsUpload(s: State, t: nat, clean: bool)
    requires OpEnabled(s, t, Resolve) && UploadInv(s, t, clean) && (clean ==> KeysFree(s, t, Resolve))
    ensures UploadInv(AfterResolve(s, t), t, clean)
  {
    hide Release, Matches, UploadInv, Keys;
    NotInLimbo(s, t, clean);
    if s.uploads[t].request.id !in s.rows {
      AbsentKeepsUpload(s, t, clean);
    } else {
      DoneKeepsUpload(AfterResolve(s, t), t, clean);
    }
  }

  lemma LockKeepsUpload(s: State, t: nat, k: Key, clean: bool)
    requires OpEnabled(s, t, Lock(k)) && UploadInv(s, t, clean)
    ensures UploadInv(OpStep(s, t, Lock(k)), t, clean)
  {
    NotInLimbo(s, t, clean);
    assert k in AllKeys(s.uploads[t].request);
  }

  lemma LockAgainKeepsUpload(s: State, t: nat, k: Key, clean: bool)
    requires OpEnabled(s, t, LockAgain(k)) && UploadInv(s, t, clean)
    ensures UploadInv(OpStep(s, t, LockAgain(k)), t, clean)
  {
    assert k in AllKeys(s.uploads[t].request);
    assert t !in s.limbo;
    var u := OpStep(s, t, LockAgain(k));
    assert AgainHeld(u, t) == AgainHeld(s, t) + {k} && MainHeld(u, t) == {};
  }

  lemma EndKeepsUpload(s: State, t: nat, op: Op, clean: bool)
    requires OpEnabled(s, t, op) && (op.ReserveFails? || op.Create? || op.Rollback?) && UploadInv(s, t, clean)
    ensures UploadInv(OpStep(s, t, op), t, clean)
  {
    NotInLimbo(s, t, clean);
    hide UploadInv, Commit, Release;
    DoneKeepsUpload(OpStep(s, t, op), t, clean);
  }

  lemma PutKeepsUpload(s: State, t: nat, clean: bool)
    requires IsPutting(s, t) && UploadInv(s, t, clean)
    ensures UploadInv(AfterPut(s, t), t, clean)
  {
    assert forall k :: Referenced(AfterPut(s, t), k) <==> Referenced(s, k);
  }

  /** From storing to compensation. */
  lemma UndoKeepsUpload(s: State, u: State, t: nat, todo: seq<Key>, clean: bool)
    requires t in s.uploads && s.uploads[t].pc.Putting? && UploadInv(s, t, clean) && (forall k :: k in todo ==> k in AllKeys(s.uploads[t].request))
    requires u.rows == s.rows && u.photos == s.photos && u.locks == s.locks && u.limbo == s.limbo
    requires t in u.uploads && u.uploads[t] == s.uploads[t].(pc := Compensating(todo, false))
    ensures UploadInv(u, t, clean)
  {
    assert forall k :: Referenced(u, k) <==> Referenced(s, k);
  }

  lemma PutFailsKeepsUpload(s: State, t: nat, stored: bool, clean: bool)
    requires IsPutting(s, t) && UploadInv(s, t, clean)
    ensures UploadInv(AfterPutFails(s, t, stored), t, clean)
  {
    hide UploadInv;
    var r, n := s.uploads[t].request, s.uploads[t].pc.done;
    forall k | k in Keys(r)[..n + 1] ensures k in AllKeys(r) {}
    UndoKeepsUpload(s, AfterPutFails(s, t, stored), t, Keys(r)[..n + 1], clean);
  }

  lemma CreateFailsKeepsUpload(s: State, t: nat, op: Op, clean: bool)
    requires OpEnabled(s, t, op) && (op.CreateFails? || op.CreateUncertain?) && UploadInv(s, t, clean)
    ensures UploadInv(OpStep(s, t, op), t, clean)
  {
    hide UploadInv, Insertable;
    var r := s.uploads[t].request;
    if op.CreateFails? {
      forall k | k in Keys(r) ensures k in AllKeys(r) {}
      UndoKeepsUpload(s, OpStep(s, t, op), t, Keys(r), clean);
    } else {
      UncertainKeepsUpload(s, OpStep(s, t, op), t, clean);
    }
  }

  /** A commit on its way keeps its locks and what it wrote. */
  lemma UncertainKeepsUpload(s: State, u: State, t: nat, clean: bool)
    requires HasStored(s, t) && UploadInv(s, t, clean)
    requires u.rows == s.rows && u.photos == s.photos && u.objects == s.objects && u.locks == s.locks && u.limbo == s.limbo + {t}
    requires t in u.uploads && u.uploads[t] == s.uploads[t].(pc := Resolving({}))
    ensures UploadInv(u, t, clean)
  {
    assert forall k :: Referenced(u, k) <==> Referenced(s, k);
  }

  lemma LimboKeepsUpload(s: State, t: nat, op: Op, clean: bool)
    requires OpEnabled(s, t, op) && (op.LimboCommits? || op.LimboAborts?) && UploadInv(s, t, clean)
    ensures UploadInv(OpStep(s, t, op), t, clean)
  {
  }

  /** Giving up keeps the locks of a commit still on its way. */
  lemma GivingUpKeepsUpload(s: State, u: State, t: nat, clean: bool)
    requires t in s.uploads && s.uploads[t].pc.Resolving? && UploadInv(s, t, clean)
    requires u.rows == s.rows && u.photos == s.photos && u.objects == s.objects && u.limbo == s.limbo
    requires t in u.uploads && u.uploads[t] == s.uploads[t].(pc := Done(Failed))
    requires forall k :: k in s.locks && s.locks[k] == Main(t) ==> k in u.locks && u.locks[k] == Main(t)
    ensures UploadInv(u, t, clean)
  {
    assert forall k :: Referenced(u, k) <==> Referenced(s, k);
  }

  lemma ResolveFailsKeepsUpload(s: State, t: nat, queued: bool, clean: bool)
    requires OpEnabled(s, t, ResolveFails(queued)) && UploadInv(s, t, clean)
    ensures UploadInv(OpStep(s, t, ResolveFails(queued)), t, clean)
  {
    hide Release, Enqueue, UploadInv;
    GivingUpKeepsUpload(s, OpStep(s, t, ResolveFails(queued)), t, clean);
  }

  /** Compensation has one key less to do. */
  lemma OneKeyLess(s: State, u: State, t: nat, clean: bool)
    requires IsCompensating(s, t) && s.uploads[t].pc.todo != [] && UploadInv(s, t, clean)
    requires u.rows == s.rows && u.photos == s.photos && u.locks == s.locks && u.limbo == s.limbo
    requires t in u.uploads && u.uploads[t] == s.uploads[t].(pc := s.uploads[t].pc.(todo := s.uploads[t].pc.todo[1..]))
    ensures UploadInv(u, t, clean)
  {
    assert forall k :: Referenced(u, k) <==> Referenced(s, k);
  }

  lemma DeleteKeepsUpload(s: State, t: nat, op: Op, clean: bool)
    requires OpEnabled(s, t, op) && (op.Delete? || op.DeleteFails?) && UploadInv(s, t, clean)
    ensures UploadInv(OpStep(s, t, op), t, clean)
  {
    hide UploadInv, Enqueue;
    OneKeyLess(s, OpStep(s, t, op), t, clean);
  }

  lemma OwnUploadKept(s: State, t: nat, op: Op, clean: bool)
    requires OpEnabled(s, t, op) && UploadInv(s, t, clean) && (clean ==> KeysFree(s, t, op))
    ensures UploadInv(OpStep(s, t, op), t, clean)
  {
    hide UploadInv, KeysFree, AfterReserve, AfterResolve, AfterPut, AfterPutFails;
    match op
    case Arrive(_) => ArriveKeepsUpload(s, t, op, clean);
    case Lock(k) => LockKeepsUpload(s, t, k, clean);
    case LockAgain(k) => LockAgainKeepsUpload(s, t, k, clean);
    case ReserveFails => EndKeepsUpload(s, t, op, clean);
    case Create => EndKeepsUpload(s, t, op, clean);
    case Rollback => EndKeepsUpload(s, t, op, clean);
    case Reserve => ReserveKeepsUpload(s, t, clean);
    case Put => PutKeepsUpload(s, t, clean);
    case PutFails(stored) => PutFailsKeepsUpload(s, t, stored, clean);
    case CreateFails => CreateFailsKeepsUpload(s, t, op, clean);
    case CreateUncertain => CreateFailsKeepsUpload(s, t, op, clean);
    case LimboCommits => LimboKeepsUpload(s, t, op, clean);
    case LimboAborts => LimboKeepsUpload(s, t, op, clean);
    case ResolveFails(queued) => ResolveFailsKeepsUpload(s, t, queued, clean);
    case Resolve => ResolveKeepsUpload(s, t, clean);
    case Delete => DeleteKeepsUpload(s, t, op, clean);
    case DeleteFails(_, _) => DeleteKeepsUpload(s, t, op, clean);
  }

  lemma ArriveKeepsUpload(s: State, t: nat, op: Op, clean: bool)
    requires OpEnabled(s, t, op) && op.Arrive? && UploadInv(s, t, clean)
    ensures UploadInv(OpStep(s, t, op), t, clean)
  {
  }

  lemma OwnDrainKept(s: State, d: nat, op: DrainOp)
    requires DrainEnabled(s, d, op) && DrainInv(s, d)
    ensures DrainInv(DrainStep(s, d, op), d)
  {
  }

  // ---- What the others keep ----

  predicate Untouched(s: State, t: State, u: nat) {
    (u in t.uploads <==> u in s.uploads) && (u in s.uploads ==> t.uploads[u] == s.uploads[u]) && (u in t.limbo <==> u in s.limbo)
  }

  predicate DrainUntouched(s: State, t: State, d: nat) {
    (d in t.drains <==> d in s.drains) && (d in s.drains ==> t.drains[d] == s.drains[d])
  }

  lemma OpUntouched(s: State, t: nat, op: Op, u: nat)
    requires OpEnabled(s, t, op) && u != t
    ensures Untouched(s, OpStep(s, t, op), u) && OpStep(s, t, op).drains == s.drains
  {
    hide Release, Enqueue, Keys, Commit, AfterReserve, AfterPut, AfterPutFails, AfterDelete, AfterDeleteFails, AfterResolve;
  }

  lemma Weaker(s: State, t: nat, clean: bool)
    requires UploadInv(s, t, clean)
    ensures UploadInv(s, t, false)
  {
    if t in s.uploads { KeysAre(s.uploads[t].request); }
  }

  lemma OpKeepsLocks(s: State, t: nat, op: Op, clean: bool)
    requires OpEnabled(s, t, op) && LocksInv(s, clean) && (clean ==> KeysFree(s, t, op))
    ensures LocksInv(OpStep(s, t, op), clean)
  {
    hide UploadInv, DrainInv, Respects, OpStep, OpEnabled, KeysFree;
    Weaker(s, t, clean);
    OpRespects(s, t, op);
    var u, owner := OpStep(s, t, op), OwnerOf(s, t, op);
    OpUntouched(s, t, op, t + 1);
    forall v ensures UploadInv(u, v, clean) {
      if v == t {
        OwnUploadKept(s, t, op, clean);
      } else {
        OpUntouched(s, t, op, v);
        OtherUploadKept(s, u, owner, v, clean);
      }
    }
    forall d ensures DrainInv(u, d) { OtherDrainKept(s, u, owner, d); }
  }

  lemma DrainKeepsLocks(s: State, d: nat, op: DrainOp, clean: bool)
    requires DrainEnabled(s, d, op) && LocksInv(s, clean)
    ensures LocksInv(DrainStep(s, d, op), clean)
  {
    DrainRespects(s, d, op);
    OwnDrainKept(s, d, op);
    var u := DrainStep(s, d, op);
    assert u.uploads == s.uploads && u.limbo == s.limbo && forall c :: c != d ==> DrainUntouched(s, u, c);
    hide UploadInv, DrainInv, Respects, DrainStep;
    forall v ensures UploadInv(u, v, clean) { OtherUploadKept(s, u, Drain(d), v, clean); }
    forall c ensures DrainInv(u, c) {
      if c != d {
        assert DrainUntouched(s, u, c);
        OtherDrainKept(s, u, Drain(d), c);
      }
    }
  }

  lemma UnreferencingKeepsLocks(s: State, a: Action, clean: bool)
    requires Enabled(s, a) && Unreferences(a) && LocksInv(s, clean)
    ensures LocksInv(Step(s, a), clean)
  {
    var u := Step(s, a);
    assert u.uploads == s.uploads && u.limbo == s.limbo && u.drains == s.drains;
    hide UploadInv, DrainInv, Respects, Step;
    UnreferencingRespects(s, a, Main(0));
    forall d ensures DrainInv(u, d) { OtherDrainKept(s, u, Main(0), d); }
    UnreferencingRespects(s, a, Drain(0));
    forall v ensures UploadInv(u, v, clean) { OtherUploadKept(s, u, Drain(0), v, clean); }
  }

  ghost predicate CleanStep(s: State, a: Action) {
    a.Publish? ==> KeysFree(s, a.upload, a.op)
  }

  lemma StepKeepsLocks(s: State, a: Action, clean: bool)
    requires Enabled(s, a) && LocksInv(s, clean) && (clean ==> CleanStep(s, a))
    ensures LocksInv(Step(s, a), clean)
  {
    hide LocksInv, KeysFree;
    match a
    case Publish(t, op) => OpKeepsLocks(s, t, op, clean);
    case Clean(d, op) => DrainKeepsLocks(s, d, op, clean);
    case _ => UnreferencingKeepsLocks(s, a, clean);
  }

  // ---- Committed publications keep their objects ----

  function Writer(s: State, k: Key): nat
    requires Referenced(s, k)
  {
    match k
    case ChallengeKey(id) => s.rows[id].token
    case PhotoKey(_, _) => s.photos[k].token
  }

  /** Every object a row refers to is there, as its own publication wrote it. */
  ghost predicate Intact(s: State) {
    forall k :: Referenced(s, k) ==> k in s.objects && s.objects[k] == Writer(s, k)
  }

  lemma SameStorageIntact(s: State, t: State)
    requires Intact(s) && t.rows == s.rows && t.photos == s.photos && t.objects == s.objects
    ensures Intact(t)
  {
    forall k ensures Referenced(t, k) <==> Referenced(s, k) {}
  }

  lemma OneObjectIntact(s: State, t: State, k: Key)
    requires Intact(s) && t.rows == s.rows && t.photos == s.photos && !Referenced(s, k) && t.objects - {k} == s.objects - {k}
    ensures Intact(t)
  {
    forall d | Referenced(t, d) ensures d in t.objects && t.objects[d] == Writer(t, d) {
      assert Referenced(s, d) && d != k;
      assert d in s.objects - {k};
    }
  }

  lemma CommitIntact(s: State, t: nat)
    requires Intact(s) && t in s.uploads && Wrote(s, t, |Keys(s.uploads[t].request)|)
    ensures Intact(Commit(s, t))
  {
    var r, u := s.uploads[t].request, Commit(s, t);
    KeysAre(r);
    forall k | k in AllKeys(r) ensures k in s.objects && s.objects[k] == t {
      var i :| 0 <= i < |Keys(r)| && Keys(r)[i] == k;
    }
    forall k | Referenced(u, k) ensures k in u.objects && u.objects[k] == Writer(u, k) {
      if k !in AllKeys(r) { assert Referenced(s, k) && Writer(u, k) == Writer(s, k); }
    }
  }

  lemma UnreferencingIntact(s: State, a: Action)
    requires Enabled(s, a) && Unreferences(a) && Intact(s)
    ensures Intact(Step(s, a))
  {
    var t := Step(s, a);
    forall k | Referenced(t, k) ensures k in t.objects && t.objects[k] == Writer(t, k) {
      assert Referenced(s, k) && Writer(t, k) == Writer(s, k);
    }
  }

  lemma WriteOpIntact(s: State, t: nat, op: Op)
    requires OpEnabled(s, t, op) && Writes(op) && UploadInv(s, t, true) && Intact(s)
    ensures Intact(OpStep(s, t, op))
  {
    var r, pc := s.uploads[t].request, s.uploads[t].pc;
    var k := if pc.Putting? then Keys(r)[pc.done] else pc.todo[0];
    assert k in AllKeys(r);
    hide Intact, Enqueue, Keys, AllKeys, UploadInv;
    OneObjectIntact(s, OpStep(s, t, op), k);
  }

  lemma CommitOpIntact(s: State, t: nat, op: Op)
    requires OpEnabled(s, t, op) && Commits(op) && UploadInv(s, t, true) && Intact(s)
    ensures Intact(OpStep(s, t, op))
  {
    CommitIntact(s, t);
    hide Intact, Commit, Release;
    SameStorageIntact(Commit(s, t), OpStep(s, t, op));
  }

  lemma OtherOpIntact(s: State, t: nat, op: Op)
    requires OpEnabled(s, t, op) && !Writes(op) && !Commits(op) && Intact(s)
    ensures Intact(OpStep(s, t, op))
  {
    hide Intact, Release, Enqueue, Keys, AfterReserve, AfterResolve, Commit, AfterPut, AfterPutFails, AfterDelete, AfterDeleteFails, Insertable;
    SameStorageIntact(s, OpStep(s, t, op));
  }

  lemma DrainIntact(s: State, d: nat, op: DrainOp)
    requires DrainEnabled(s, d, op) && DrainInv(s, d) && Intact(s)
    ensures Intact(DrainStep(s, d, op))
  {
    hide Intact;
    if op == Erase {
      OneObjectIntact(s, DrainStep(s, d, op), s.drains[d].key);
    } else {
      SameStorageIntact(s, DrainStep(s, d, op));
    }
  }

  lemma StepKeepsIntact(s: State, a: Action)
    requires Enabled(s, a) && LocksInv(s, true) && Intact(s)
    ensures Intact(Step(s, a))
  {
    hide UploadInv, DrainInv, Intact, OpStep, DrainStep;
    match a
    case Publish(t, op) =>
      if Writes(op) {
        WriteOpIntact(s, t, op);
      } else if Commits(op) {
        CommitOpIntact(s, t, op);
      } else {
        OtherOpIntact(s, t, op);
      }
    case Clean(d, op) => DrainIntact(s, d, op);
    case _ => UnreferencingIntact(s, a);
  }

  // ---- Runs ----

  ghost predicate CanRun(s: State, actions: seq<Action>)
    decreases |actions|
  {
    actions == [] || (Enabled(s, actions[0]) && CanRun(Step(s, actions[0]), actions[1..]))
  }

  function Run(s: State, actions: seq<Action>): State
    requires CanRun(s, actions)
    decreases |actions|
  {
    if actions == [] then s else Run(Step(s, actions[0]), actions[1..])
  }

  /** Every reservation that goes ahead finds its keys free of live photos. */
  ghost predicate CleanRun(s: State, actions: seq<Action>)
    requires CanRun(s, actions)
    decreases |actions|
  {
    actions == [] || (CleanStep(s, actions[0]) && CleanRun(Step(s, actions[0]), actions[1..]))
  }

  lemma {:induction false} RunKeepsIntact(s: State, actions: seq<Action>)
    requires CanRun(s, actions) && CleanRun(s, actions) && LocksInv(s, true) && Intact(s)
    ensures Intact(Run(s, actions)) && LocksInv(Run(s, actions), true)
    decreases |actions|
  {
    hide Step, LocksInv, Intact, CleanStep;
    if actions != [] {
      StepKeepsLocks(s, actions[0], true);
      StepKeepsIntact(s, actions[0]);
      RunKeepsIntact(Step(s, actions[0]), actions[1..]);
    }
  }

  /** While a publication's rows are committed and not retired, no concurrent publisher,
      compensation or cleanup has deleted or overwritten its objects. */
  lemma CommittedObjectsSurvive(actions: seq<Action>)
    requires CanRun(INIT, actions) && CleanRun(INIT, actions)
    ensures Intact(Run(INIT, actions))
  {
    RunKeepsIntact(INIT, actions);
  }

  // ---- What is answered and broadcast ----

  predicate SamePublication(a: Request, b: Request) {
    a.id == b.id && a.owner == b.owner && a.metadata == b.metadata && multiset(a.groups) == multiset(b.groups)
  }

  lemma MatchesSame(a: Request, token: nat, b: Request)
    requires Matches(RowOf(a, token), b) && a.id == b.id
    ensures SamePublication(a, b)
  {
    SortedGroupsCompareSets(a.groups, b.groups);
  }

  ghost predicate RowInv(s: State, id: string) {
    id in s.rows ==>
      var t := s.rows[id].token;
      t in s.uploads && t in s.committed && s.uploads[t].request.id == id && s.rows[id] == RowOf(s.uploads[t].request, t)
  }

  ghost predicate CountInv(s: State, id: string) {
    Tally(s.commits, id) == Tally(s.deletes, id) + if id in s.rows then 1 else 0
  }

  ghost predicate WasCommitted(s: State, r: Request) {
    exists v :: v in s.committed && v in s.uploads && SamePublication(s.uploads[v].request, r)
  }

  ghost predicate OutcomeInv(s: State, t: nat) {
    && (t in s.committed ==>
          t in s.uploads && t !in s.limbo
          && (s.uploads[t].pc.Resolving? || s.uploads[t].pc.Done? || (s.uploads[t].pc.Compensating? && s.uploads[t].pc.again)))
    && (t in s.uploads && s.uploads[t].pc == Done(Created) ==> t in s.committed)
    && (t in s.uploads && s.uploads[t].pc == Done(Found) ==> WasCommitted(s, s.uploads[t].request))
    && (t in s.broadcasts <==> Is(s, t, Done(Created)))
  }

  ghost predicate NoRepeats(broadcasts: seq<nat>) {
    forall i, j :: 0 <= i < j < |broadcasts| ==> broadcasts[i] != broadcasts[j]
  }

  ghost predicate HistoryInv(s: State) {
    (forall id :: RowInv(s, id) && CountInv(s, id)) && (forall t :: OutcomeInv(s, t)) && NoRepeats(s.broadcasts)
  }

  lemma StillCommitted(s: State, u: State, r: Request)
    requires WasCommitted(s, r) && s.committed <= u.committed
    requires forall v :: v in s.uploads ==> v in u.uploads && u.uploads[v].request == s.uploads[v].request
    ensures WasCommitted(u, r)
  {
    var v :| v in s.committed && v in s.uploads && SamePublication(s.uploads[v].request, r);
    assert v in u.committed && v in u.uploads && SamePublication(u.uploads[v].request, r);
  }

  lemma CommittedUploads(s: State)
    requires HistoryInv(s)
    ensures forall v :: v in s.limbo ==> v !in s.committed
    ensures forall v :: v in s.committed ==>
              v in s.uploads && (s.uploads[v].pc.Resolving? || s.uploads[v].pc.Done? || (s.uploads[v].pc.Compensating? && s.uploads[v].pc.again))
  {
    forall v ensures v in s.limbo ==> v !in s.committed { assert OutcomeInv(s, v); }
    forall v | v in s.committed ensures v in s.uploads && (s.uploads[v].pc.Resolving? || s.uploads[v].pc.Done? || (s.uploads[v].pc.Compensating? && s.uploads[v].pc.again)) {
      assert OutcomeInv(s, v);
    }
  }

  /** The record of a step that neither commits nor answers. */
  lemma QuietKeepsHistory(s: State, u: State)
    requires HistoryInv(s) && u.rows == s.rows && u.committed == s.committed && u.commits == s.commits && u.deletes == s.deletes
    requires u.broadcasts == s.broadcasts && forall v :: v in u.limbo ==> v !in s.committed
    requires forall v :: v in s.uploads ==> v in u.uploads && u.uploads[v].request == s.uploads[v].request
    requires forall v :: v in u.uploads && u.uploads[v].pc.Done? ==> (v in s.uploads && s.uploads[v].pc == u.uploads[v].pc) || u.uploads[v].pc.status in {Conflicted, Failed}
    requires forall v :: v in s.uploads && s.uploads[v].pc.Done? ==> u.uploads[v].pc == s.uploads[v].pc
    requires forall v :: v in s.committed && v in s.uploads && !s.uploads[v].pc.Done? ==>
               u.uploads[v].pc.Resolving? || u.uploads[v].pc.Done? || (u.uploads[v].pc.Compensating? && u.uploads[v].pc.again)
    ensures HistoryInv(u)
  {
    forall id ensures RowInv(u, id) && CountInv(u, id) { assert RowInv(s, id) && CountInv(s, id); }
    forall t ensures OutcomeInv(u, t) {
      assert OutcomeInv(s, t);
      if t in u.uploads && u.uploads[t].pc == Done(Found) { StillCommitted(s, u, u.uploads[t].request); }
    }
  }

  lemma CommitKeepsRows(s: State, t: nat, id: string)
    requires HistoryInv(s) && t in s.uploads && s.uploads[t].request.id !in s.rows
    ensures var u := Commit(s, t);
            RowInv(u, id) && CountInv(u, id)
  {
    assert RowInv(s, id) && CountInv(s, id);
  }

  lemma CreateKeepsOutcome(s: State, t: nat, v: nat)
    requires OpEnabled(s, t, Create) && HistoryInv(s) && UploadInv(s, t, false)
    ensures OutcomeInv(OpStep(s, t, Create), v)
  {
    var u := OpStep(s, t, Create);
    assert OutcomeInv(s, t) && OutcomeInv(s, v);
    NotInLimbo(s, t, false);
    if v in u.uploads && u.uploads[v].pc == Done(Found) { StillCommitted(s, u, u.uploads[v].request); }
  }

  lemma CreateKeepsHistory(s: State, t: nat)
    requires OpEnabled(s, t, Create) && HistoryInv(s) && UploadInv(s, t, false)
    ensures HistoryInv(OpStep(s, t, Create))
  {
    var c, u := Commit(s, t), OpStep(s, t, Create);
    assert OutcomeInv(s, t) && u.broadcasts == s.broadcasts + [t];
    forall id ensures RowInv(u, id) && CountInv(u, id) { CommitKeepsRows(s, t, id); }
    forall v ensures OutcomeInv(u, v) { CreateKeepsOutcome(s, t, v); }
  }

  lemma LimboCommitKeepsHistory(s: State, t: nat)
    requires OpEnabled(s, t, LimboCommits) && HistoryInv(s) && UploadInv(s, t, false)
    ensures HistoryInv(OpStep(s, t, LimboCommits))
  {
    assert OutcomeInv(s, t);
    assert !Referenced(s, ChallengeKey(s.uploads[t].request.id));
    var u := OpStep(s, t, LimboCommits);
    forall id ensures RowInv(u, id) && CountInv(u, id) { CommitKeepsRows(s, t, id); }
    forall v ensures OutcomeInv(u, v) {
      assert OutcomeInv(s, v);
      if v in u.uploads && u.uploads[v].pc == Done(Found) { StillCommitted(s, u, u.uploads[v].request); }
    }
  }

  /** An answer given under the locks, with the row in view. */
  lemma AnswerKeepsHistory(s: State, u: State, t: nat, status: Status)
    requires HistoryInv(s) && t in s.uploads && !s.uploads[t].pc.Done? && t !in s.limbo
    requires u == s.(uploads := s.uploads[t := s.uploads[t].(pc := Done(status))], locks := u.locks, broadcasts := u.broadcasts)
    requires u.broadcasts == if status == Created then s.broadcasts + [t] else s.broadcasts
    requires status == Found ==> WasCommitted(s, s.uploads[t].request)
    requires status == Created ==> t in s.committed
    ensures HistoryInv(u)
  {
    forall id ensures RowInv(u, id) && CountInv(u, id) { assert RowInv(s, id) && CountInv(s, id); }
    assert OutcomeInv(s, t);
    forall v ensures OutcomeInv(u, v) {
      assert OutcomeInv(s, v);
      if v in u.uploads && u.uploads[v].pc == Done(Found) { StillCommitted(s, u, u.uploads[v].request); }
    }
  }

  lemma RowWasCommitted(s: State, r: Request)
    requires HistoryInv(s) && r.id in s.rows && Matches(s.rows[r.id], r)
    ensures WasCommitted(s, r) && s.rows[r.id].token in s.committed
  {
    assert RowInv(s, r.id);
    var v := s.rows[r.id].token;
    MatchesSame(s.uploads[v].request, v, r);
  }

  lemma ReserveKeepsHistory(s: State, t: nat)
    requires OpEnabled(s, t, Reserve) && HistoryInv(s) && UploadInv(s, t, false)
    ensures HistoryInv(AfterReserve(s, t))
  {
    assert OutcomeInv(s, t) && t !in s.committed;
    hide OutcomeInv, UploadInv, HistoryInv;
    if s.uploads[t].request.id in s.rows {
      ReserveAnswers(s, t);
    } else {
      PutsKeepHistory(s, Goto(s, t, Putting(0)), t);
    }
  }

  lemma ReserveAnswers(s: State, t: nat)
    requires OpEnabled(s, t, Reserve) && HistoryInv(s) && UploadInv(s, t, false)
    requires s.uploads[t].request.id in s.rows
    ensures HistoryInv(AfterReserve(s, t))
  {
    NotInLimbo(s, t, false);
    hide Matches, OutcomeInv, UploadInv, HistoryInv;
    var r := s.uploads[t].request;
    if Matches(s.rows[r.id], r) { RowWasCommitted(s, r); }
    AnswerKeepsHistory(s, AfterReserve(s, t), t, if Matches(s.rows[r.id], r) then Found else Conflicted);
  }

  /** An upload that has not committed may go on to anything but an answer. */
  lemma PutsKeepHistory(s: State, u: State, t: nat)
    requires HistoryInv(s) && t in s.uploads && t !in s.committed && !s.uploads[t].pc.Done?
    requires t in u.uploads && !u.uploads[t].pc.Done? && u.uploads == s.uploads[t := s.uploads[t].(pc := u.uploads[t].pc)]
    requires u.rows == s.rows && u.committed == s.committed && u.commits == s.commits && u.deletes == s.deletes && u.broadcasts == s.broadcasts
    requires u.limbo <= s.limbo + {t}
    ensures HistoryInv(u)
  {
    CommittedUploads(s);
    QuietKeepsHistory(s, u);
  }

  lemma ResolveKeepsHistory(s: State, t: nat)
    requires OpEnabled(s, t, Resolve) && HistoryInv(s) && UploadInv(s, t, false)
    ensures HistoryInv(AfterResolve(s, t))
  {
    NotInLimbo(s, t, false);
    hide Matches, UploadInv, HistoryInv;
    if s.uploads[t].request.id in s.rows {
      ResolveAnswers(s, t);
    } else {
      AbsentKeepsHistory(s, AfterResolve(s, t), t);
    }
  }

  lemma ResolveAnswers(s: State, t: nat)
    requires OpEnabled(s, t, Resolve) && HistoryInv(s) && t !in s.limbo
    requires s.uploads[t].request.id in s.rows
    ensures HistoryInv(AfterResolve(s, t))
  {
    hide Matches, OutcomeInv, HistoryInv;
    var r, u := s.uploads[t].request, AfterResolve(s, t);
    if Matches(s.rows[r.id], r) {
      RowWasCommitted(s, r);
      AnswerKeepsHistory(s, u, t, if s.rows[r.id].token == t then Created else Found);
    } else {
      AnswerKeepsHistory(s, u, t, Conflicted);
    }
  }

  lemma AbsentKeepsHistory(s: State, u: State, t: nat)
    requires HistoryInv(s) && t in s.uploads && s.uploads[t].pc.Resolving? && t !in s.limbo
    requires u == Goto(s, t, Compensating(Keys(s.uploads[t].request), true))
    ensures HistoryInv(u)
  {
    CommittedUploads(s);
    QuietKeepsHistory(s, u);
  }

  lemma ArriveKeepsHistory(s: State, t: nat, op: Op)
    requires OpEnabled(s, t, op) && op.Arrive? && HistoryInv(s)
    ensures HistoryInv(OpStep(s, t, op))
  {
    var u := OpStep(s, t, op);
    CommittedUploads(s);
    QuietKeepsHistory(s, u);
  }

  lemma StoringKeepsHistory(s: State, t: nat, op: Op)
    requires OpEnabled(s, t, op) && HistoryInv(s)
    requires op.Lock? || op.Put? || op.PutFails? || op.CreateFails? || op.CreateUncertain?
    ensures HistoryInv(OpStep(s, t, op))
  {
    assert OutcomeInv(s, t);
    hide HistoryInv, OutcomeInv, Keys;
    PutsKeepHistory(s, OpStep(s, t, op), t);
  }

  lemma FailedKeepsHistory(s: State, u: State, t: nat)
    requires HistoryInv(s) && t in s.uploads && !s.uploads[t].pc.Done?
    requires u == s.(uploads := s.uploads[t := s.uploads[t].(pc := Done(Failed))], locks := u.locks, jobs := u.jobs, nextJob := u.nextJob)
    ensures HistoryInv(u)
  {
    hide RowInv, CountInv;
    CommittedUploads(s);
    QuietKeepsHistory(s, u);
  }

  lemma FailingKeepsHistory(s: State, t: nat, op: Op)
    requires OpEnabled(s, t, op) && HistoryInv(s) && (op.ReserveFails? || op.ResolveFails? || op.Rollback?)
    ensures HistoryInv(OpStep(s, t, op))
  {
    hide Release, Enqueue, Keys, HistoryInv;
    FailedKeepsHistory(s, OpStep(s, t, op), t);
  }

  /** Compensation. */
  lemma UndoingKeepsHistory(s: State, t: nat, op: Op)
    requires OpEnabled(s, t, op) && HistoryInv(s) && (op.Delete? || op.DeleteFails?)
    ensures HistoryInv(OpStep(s, t, op))
  {
    hide Release, Enqueue, Keys, RowInv, CountInv;
    var u := OpStep(s, t, op);
    CommittedUploads(s);
    QuietKeepsHistory(s, u);
  }

  /** Waiting for the outcome of a commit. */
  lemma WaitingKeepsHistory(s: State, t: nat, op: Op)
    requires OpEnabled(s, t, op) && HistoryInv(s) && (op.LimboAborts? || op.LockAgain?)
    ensures HistoryInv(OpStep(s, t, op))
  {
    hide Release, Enqueue, Keys, RowInv, CountInv;
    var u := OpStep(s, t, op);
    CommittedUploads(s);
    QuietKeepsHistory(s, u);
  }

  lemma OpKeepsHistory(s: State, t: nat, op: Op)
    requires OpEnabled(s, t, op) && HistoryInv(s) && UploadInv(s, t, false)
    ensures HistoryInv(OpStep(s, t, op))
  {
    hide HistoryInv, UploadInv;
    match op
    case Arrive(_) => ArriveKeepsHistory(s, t, op);
    case Reserve => ReserveKeepsHistory(s, t);
    case Create => CreateKeepsHistory(s, t);
    case LimboCommits => LimboCommitKeepsHistory(s, t);
    case Resolve => ResolveKeepsHistory(s, t);
    case Lock(_) => StoringKeepsHistory(s, t, op);
    case Put => StoringKeepsHistory(s, t, op);
    case PutFails(_) => StoringKeepsHistory(s, t, op);
    case CreateFails => StoringKeepsHistory(s, t, op);
    case CreateUncertain => StoringKeepsHistory(s, t, op);
    case LimboAborts => WaitingKeepsHistory(s, t, op);
    case LockAgain(_) => WaitingKeepsHistory(s, t, op);
    case Delete => UndoingKeepsHistory(s, t, op);
    case DeleteFails(_, _) => UndoingKeepsHistory(s, t, op);
    case _ => FailingKeepsHistory(s, t, op);
  }

  lemma UnreferencingKeepsHistory(s: State, a: Action)
    requires Enabled(s, a) && Unreferences(a) && HistoryInv(s)
    ensures HistoryInv(Step(s, a))
  {
    var u := Step(s, a);
    forall id ensures RowInv(u, id) && CountInv(u, id) { assert RowInv(s, id) && CountInv(s, id); }
    forall t ensures OutcomeInv(u, t) {
      assert OutcomeInv(s, t);
      if t in u.uploads && u.uploads[t].pc == Done(Found) { StillCommitted(s, u, u.uploads[t].request); }
    }
  }

  lemma SameHistory(s: State, u: State)
    requires HistoryInv(s) && u == s.(locks := u.locks, objects := u.objects, jobs := u.jobs, nextJob := u.nextJob, drains := u.drains)
    ensures HistoryInv(u)
  {
    forall id ensures RowInv(u, id) && CountInv(u, id) { assert RowInv(s, id) && CountInv(s, id); }
    forall t ensures OutcomeInv(u, t) {
      assert OutcomeInv(s, t);
      if t in u.uploads && u.uploads[t].pc == Done(Found) { StillCommitted(s, u, u.uploads[t].request); }
    }
  }

  lemma DrainKeepsHistory(s: State, d: nat, op: DrainOp)
    requires DrainEnabled(s, d, op) && HistoryInv(s)
    ensures HistoryInv(DrainStep(s, d, op))
  {
    hide HistoryInv, Referenced, Release;
    SameHistory(s, DrainStep(s, d, op));
  }

  lemma StepKeepsHistory(s: State, a: Action)
    requires Enabled(s, a) && HistoryInv(s) && LocksInv(s, false)
    ensures HistoryInv(Step(s, a))
  {
    hide HistoryInv, UploadInv, DrainInv, OpStep, DrainStep;
    match a
    case Publish(t, op) => OpKeepsHistory(s, t, op);
    case Clean(d, op) => DrainKeepsHistory(s, d, op);
    case _ => UnreferencingKeepsHistory(s, a);
  }

  ghost predicate Reachable(s: State) {
    exists actions :: CanRun(INIT, actions) && s == Run(INIT, actions)
  }

  lemma {:induction false} RunKeepsHistory(s: State, actions: seq<Action>)
    requires CanRun(s, actions) && LocksInv(s, false) && HistoryInv(s)
    ensures LocksInv(Run(s, actions), false) && HistoryInv(Run(s, actions))
    decreases |actions|
  {
    hide Step, LocksInv, HistoryInv;
    if actions != [] {
      StepKeepsLocks(s, actions[0], false);
      StepKeepsHistory(s, actions[0]);
      RunKeepsHistory(Step(s, actions[0]), actions[1..]);
    }
  }

  lemma ReachableHistory(s: State)
    requires Reachable(s)
    ensures HistoryInv(s) && LocksInv(s, false)
  {
    var actions :| CanRun(INIT, actions) && s == Run(INIT, actions);
    RunKeepsHistory(INIT, actions);
  }

  /** Per idempotency key, publications committed are deletions by the author plus the
      one in place: without deletions at most one ever commits, uncertain commits
      included. */
  lemma AtMostOnePublication(s: State, id: string)
    requires Reachable(s)
    ensures Tally(s.commits, id) == Tally(s.deletes, id) + if id in s.rows then 1 else 0
    ensures Tally(s.deletes, id) == 0 ==> Tally(s.commits, id) <= 1
  {
    ReachableHistory(s);
    assert CountInv(s, id);
  }

  /** An upload answered 200 or 201 has a committed publication with its metadata and
      groups; 201 means that it is its own. */
  lemma AnswersAreTrue(s: State, t: nat)
    requires Reachable(s) && t in s.uploads
    ensures s.uploads[t].pc == Done(Created) ==> t in s.committed
    ensures s.uploads[t].pc == Done(Found) ==>
              exists v :: v in s.committed && v in s.uploads && SamePublication(s.uploads[v].request, s.uploads[t].request)
  {
    ReachableHistory(s);
    assert OutcomeInv(s, t);
    if s.uploads[t].pc == Done(Found) { assert WasCommitted(s, s.uploads[t].request); }
  }

  /** At the step that answers, the row is in place. */
  lemma RowInPlaceWhenAnswering(s: State, t: nat, op: Op)
    requires Reachable(s) && OpEnabled(s, t, op) && t in s.uploads && !s.uploads[t].pc.Done?
    requires OpStep(s, t, op).uploads[t].pc in {Done(Created), Done(Found)}
    ensures var u, r := OpStep(s, t, op), s.uploads[t].request;
            r.id in u.rows && Matches(u.rows[r.id], r) && (u.uploads[t].pc == Done(Created) ==> u.rows[r.id].token == t)
  {
    OnlyThreeAnswer(s, t, op);
    hide OpEnabled, OpStep, Matches, Reachable;
    if op.Create? { CreateHasRow(s, t); } else if op.Reserve? { ReserveHasRow(s, t); } else { ResolveHasRow(s, t); }
  }

  lemma CreateHasRow(s: State, t: nat)
    requires OpEnabled(s, t, Create)
    ensures var u, r := OpStep(s, t, Create), s.uploads[t].request;
            r.id in u.rows && Matches(u.rows[r.id], r) && u.rows[r.id].token == t
  {
    hide Insertable, Keys;
  }

  lemma ReserveHasRow(s: State, t: nat)
    requires OpEnabled(s, t, Reserve) && OpStep(s, t, Reserve).uploads[t].pc in {Done(Created), Done(Found)}
    ensures var u, r := OpStep(s, t, Reserve), s.uploads[t].request;
            r.id in u.rows && Matches(u.rows[r.id], r) && u.uploads[t].pc == Done(Found)
  {
    hide Matches, AllKeys;
  }

  lemma ResolveHasRow(s: State, t: nat)
    requires OpEnabled(s, t, Resolve) && OpStep(s, t, Resolve).uploads[t].pc in {Done(Created), Done(Found)}
    ensures var u, r := OpStep(s, t, Resolve), s.uploads[t].request;
            r.id in u.rows && Matches(u.rows[r.id], r) && (u.uploads[t].pc == Done(Created) ==> u.rows[r.id].token == t)
  {
    hide Matches, AllKeys;
  }

  lemma OnlyThreeAnswer(s: State, t: nat, op: Op)
    requires OpEnabled(s, t, op) && t in s.uploads && !s.uploads[t].pc.Done?
    requires t in OpStep(s, t, op).uploads && OpStep(s, t, op).uploads[t].pc in {Done(Created), Done(Found)}
    ensures op.Create? || op.Reserve? || op.Resolve?
  {
    hide Release, Enqueue, Keys, Insertable, AllKeys, CanLock, AfterReserve, AfterResolve;
  }

  lemma MatchesIffSame(s: State, r: Request)
    requires HistoryInv(s) && r.id in s.rows
    ensures var v := s.rows[r.id].token;
            v in s.uploads && v in s.committed && (Matches(s.rows[r.id], r) <==> SamePublication(s.uploads[v].request, r))
  {
    assert RowInv(s, r.id);
    SortedGroupsCompareSets(s.uploads[s.rows[r.id].token].request.groups, r.groups);
  }

  lemma ReservedPc(s: State, t: nat)
    requires OpEnabled(s, t, Reserve)
    ensures var r, u := s.uploads[t].request, OpStep(s, t, Reserve);
            u.broadcasts == s.broadcasts && t in u.uploads
            && u.uploads[t].pc == if r.id !in s.rows then Putting(0) else if Matches(s.rows[r.id], r) then Done(Found) else Done(Conflicted)
  {
    hide Release, Matches, AllKeys;
  }

  lemma ResolvedPc(s: State, t: nat)
    requires OpEnabled(s, t, Resolve)
    ensures var u := OpStep(s, t, Resolve);
            t in u.uploads && u.uploads[t].pc == Resolution(s, t)
            && u.broadcasts == if Resolution(s, t) == Done(Created) then s.broadcasts + [t] else s.broadcasts
  {
    hide Release, Resolution, AllKeys;
  }

  /** What a reservation is answered: if a publication of the idempotency key is in place,
      200 when it has the request's owner, metadata and groups and 409 when it does not;
      otherwise the upload goes ahead. */
  lemma ReserveAnswersExactly(s: State, t: nat)
    requires Reachable(s) && OpEnabled(s, t, Reserve)
    ensures var r, pc, u := s.uploads[t].request, OpStep(s, t, Reserve).uploads[t].pc, OpStep(s, t, Reserve);
            && u.broadcasts == s.broadcasts
            && (r.id !in s.rows ==> pc == Putting(0))
            && (r.id in s.rows ==>
                  var v := s.rows[r.id].token;
                  && v in s.uploads && v != t
                  && pc == Done(if SamePublication(s.uploads[v].request, r) then Found else Conflicted))
  {
    ReachableHistory(s);
    if s.uploads[t].request.id in s.rows {
      MatchesIffSame(s, s.uploads[t].request);
      assert OutcomeInv(s, t);
    }
    ReservedPc(s, t);
    hide Reachable, HistoryInv, OutcomeInv, Matches, SamePublication, OpStep;
  }

  /** What an upload is answered whose commit reported an error: if the publication in
      place is its own, 201, and that is when it broadcasts; if it is another's, 200 or 409
      as above; if there is none, it compensates. */
  lemma ResolveAnswersExactly(s: State, t: nat)
    requires Reachable(s) && OpEnabled(s, t, Resolve)
    ensures var r, pc, u := s.uploads[t].request, OpStep(s, t, Resolve).uploads[t].pc, OpStep(s, t, Resolve);
            && (r.id !in s.rows ==> pc == Compensating(Keys(r), true) && u.broadcasts == s.broadcasts)
            && (r.id in s.rows ==>
                  var v := s.rows[r.id].token;
                  && v in s.uploads
                  && (v == t ==> pc == Done(Created) && u.broadcasts == s.broadcasts + [t])
                  && (v != t ==> pc == Done(if SamePublication(s.uploads[v].request, r) then Found else Conflicted) && u.broadcasts == s.broadcasts))
  {
    ReachableHistory(s);
    if s.uploads[t].request.id in s.rows { MatchesIffSame(s, s.uploads[t].request); }
    ResolvedPc(s, t);
    hide Reachable, HistoryInv, OpStep, Keys;
  }

  /** A publication is broadcast at most once, and only by the request whose token its
      row stores; every 201 broadcasts. */
  lemma BroadcastOnce(s: State)
    requires Reachable(s)
    ensures forall i, j :: 0 <= i < j < |s.broadcasts| ==> s.broadcasts[i] != s.broadcasts[j]
    ensures forall t :: t in s.broadcasts <==> Is(s, t, Done(Created))
    ensures forall t :: t in s.broadcasts ==> t in s.committed
    ensures forall id :: id in s.rows ==> s.rows[id].token in s.committed
  {
    ReachableHistory(s);
    forall t ensures (t in s.broadcasts <==> Is(s, t, Done(Created))) && (t in s.broadcasts ==> t in s.committed) {
      assert OutcomeInv(s, t);
    }
    forall id | id in s.rows ensures s.rows[id].token in s.committed { assert RowInv(s, id); }
  }

  // ---- Exactly when a reservation is safe ----

  /** Reached by a run whose reservations found their keys free of live photos. */
  ghost predicate CleanlyReachable(s: State) {
    exists actions :: CanRun(INIT, actions) && CleanRun(INIT, actions) && s == Run(INIT, actions)
  }

  /** Photo rows are those of committed publications. */
  ghost predicate TokensCommitted(s: State) {
    forall k :: k in s.photos ==> s.photos[k].token in s.committed
  }

  lemma OpKeepsTokens(s: State, t: nat, op: Op)
    requires OpEnabled(s, t, op) && TokensCommitted(s)
    ensures TokensCommitted(OpStep(s, t, op))
  {
    hide Release, Enqueue, Keys, PhotoKeys, Insertable, AllKeys, CanLock, RowOf;
    if !Commits(op) {
      hide Commit, AfterReserve, AfterPut, AfterPutFails, AfterDelete, AfterDeleteFails, AfterResolve, TokensCommitted;
      SameTokens(s, OpStep(s, t, op));
    }
  }

  lemma SameTokens(s: State, u: State)
    requires TokensCommitted(s) && u.photos == s.photos && u.committed == s.committed
    ensures TokensCommitted(u)
  {
  }

  lemma StepKeepsTokens(s: State, a: Action)
    requires Enabled(s, a) && TokensCommitted(s)
    ensures TokensCommitted(Step(s, a))
  {
    hide OpEnabled, OpStep, DrainEnabled, DrainStep, Enqueue, TokensCommitted;
    match a
    case Publish(t, op) => OpKeepsTokens(s, t, op);
    case Clean(d, op) => DrainKeepsTokens(s, d, op);
    case AuthorDelete(_, _) => SameTokens(s, Step(s, a));
    case Retire(k) => RetireKeepsTokens(s, k);
  }

  lemma RetireKeepsTokens(s: State, k: Key)
    requires Enabled(s, Retire(k)) && TokensCommitted(s)
    ensures TokensCommitted(Step(s, Retire(k)))
  {
  }

  lemma DrainKeepsTokens(s: State, d: nat, op: DrainOp)
    requires DrainEnabled(s, d, op) && TokensCommitted(s)
    ensures TokensCommitted(DrainStep(s, d, op))
  {
    hide Release, TokensCommitted;
    SameTokens(s, DrainStep(s, d, op));
  }

  lemma {:induction false} RunKeepsTokens(s: State, actions: seq<Action>)
    requires CanRun(s, actions) && TokensCommitted(s)
    ensures TokensCommitted(Run(s, actions))
    decreases |actions|
  {
    hide Step, TokensCommitted;
    if actions != [] {
      StepKeepsTokens(s, actions[0]);
      RunKeepsTokens(Step(s, actions[0]), actions[1..]);
    }
  }

  lemma CleanlyReachableIntact(s: State)
    requires CleanlyReachable(s)
    ensures LocksInv(s, true) && Intact(s) && HistoryInv(s) && TokensCommitted(s)
  {
    var actions :| CanRun(INIT, actions) && CleanRun(INIT, actions) && s == Run(INIT, actions);
    RunKeepsIntact(INIT, actions);
    RunKeepsTokens(INIT, actions);
    assert Reachable(s);
    ReachableHistory(s);
  }

  function Puts(t: nat, n: nat): seq<Action> {
    if n == 0 then [] else [Action.Publish(t, Put)] + Puts(t, n - 1)
  }

  /** After `n` puts, from key number `from` on. */
  ghost predicate PutsDone(s: State, u: State, t: nat, keys: seq<Key>, from: nat, n: nat)
    requires from + n <= |keys|
  {
    && u.rows == s.rows && u.photos == s.photos
    && (forall i :: from <= i < from + n ==> keys[i] in u.objects && u.objects[keys[i]] == t)
    && (forall k :: k in s.objects && s.objects[k] == t ==> k in u.objects && u.objects[k] == t)
  }

  lemma OnePut(s: State, t: nat)
    requires IsPutting(s, t)
    ensures var a, u := Action.Publish(t, Put), AfterPut(s, t);
            && Enabled(s, a) && CleanStep(s, a) && Step(s, a) == u
            && u.uploads[t] == Upload(s.uploads[t].request, Putting(s.uploads[t].pc.done + 1))
            && PutsDone(s, u, t, Keys(s.uploads[t].request), s.uploads[t].pc.done, 1)
  {
  }

  lemma {:induction false} PutsRun(s: State, t: nat, n: nat)
    requires t in s.uploads && s.uploads[t].pc.Putting? && s.uploads[t].pc.done + n <= |Keys(s.uploads[t].request)|
    ensures CanRun(s, Puts(t, n)) && CleanRun(s, Puts(t, n))
    ensures PutsDone(s, Run(s, Puts(t, n)), t, Keys(s.uploads[t].request), s.uploads[t].pc.done, n)
    decreases n
  {
    hide Keys, Step, Enabled, CleanStep, AfterPut;
    if n > 0 {
      var u := AfterPut(s, t);
      OnePut(s, t);
      assert Puts(t, n)[0] == Action.Publish(t, Put) && Puts(t, n)[1..] == Puts(t, n - 1);
      PutsRun(u, t, n - 1);
    }
  }

  lemma ReservingIsUncommitted(s: State, t: nat)
    requires HistoryInv(s) && TokensCommitted(s) && OpEnabled(s, t, Reserve)
    ensures forall k :: k in s.photos ==> s.photos[k].token != t
  {
    assert OutcomeInv(s, t);
  }

  /** A reservation that goes ahead can store its objects without harm to a committed
      publication if and only if none of its keys belongs to a live photo. An author's
      delete leaves such photos behind under the idempotency key it frees. */
  lemma ReservationSafeIffKeysFree(s: State, t: nat)
    requires CleanlyReachable(s) && OpEnabled(s, t, Reserve) && s.uploads[t].request.id !in s.rows
    ensures var r, u := s.uploads[t].request, OpStep(s, t, Reserve);
            KeysFree(s, t, Reserve) <==> forall n :: 0 <= n <= |Keys(r)| ==> CanRun(u, Puts(t, n)) && Intact(Run(u, Puts(t, n)))
  {
    CleanlyReachableIntact(s);
    ReservingIsUncommitted(s, t);
    hide HistoryInv, TokensCommitted, CleanlyReachable;
    var r, u := s.uploads[t].request, OpStep(s, t, Reserve);
    assert u == Goto(s, t, Putting(0));
    if KeysFree(s, t, Reserve) {
      OpKeepsLocks(s, t, Reserve, true);
      OtherOpIntact(s, t, Reserve);
      forall n: nat | 0 <= n <= |Keys(r)| ensures CanRun(u, Puts(t, n)) && Intact(Run(u, Puts(t, n))) {
        PutsRun(u, t, n);
        RunKeepsIntact(u, Puts(t, n));
      }
    } else {
      var k :| k in PhotoKeys(r) && Referenced(s, k);
      KeysAre(r);
      var i :| 0 <= i < |Keys(r)| && Keys(r)[i] == k;
      PutsRun(u, t, |Keys(r)|);
      var w := Run(u, Puts(t, |Keys(r)|));
      assert Referenced(w, k) && w.objects[k] == t && Writer(w, k) != t;
    }
  }

  function Deletes(t: nat, n: nat): seq<Action> {
    if n == 0 then [] else [Action.Publish(t, Delete)] + Deletes(t, n - 1)
  }

  lemma OneDelete(s: State, t: nat)
    requires IsCompensating(s, t) && s.uploads[t].pc.todo != []
    ensures var a, u := Action.Publish(t, Delete), AfterDelete(s, t);
            && Enabled(s, a) && CleanStep(s, a) && Step(s, a) == u
            && u.uploads[t].pc == s.uploads[t].pc.(todo := s.uploads[t].pc.todo[1..])
            && u.rows == s.rows && u.photos == s.photos && u.objects == s.objects - {s.uploads[t].pc.todo[0]}
  {
  }

  lemma {:induction false} DeletesRun(s: State, t: nat, n: nat)
    requires IsCompensating(s, t) && n <= |s.uploads[t].pc.todo|
    ensures CanRun(s, Deletes(t, n)) && CleanRun(s, Deletes(t, n))
    ensures var u := Run(s, Deletes(t, n));
            && u.rows == s.rows && u.photos == s.photos && (forall k :: k in u.objects ==> k in s.objects)
            && forall i :: 0 <= i < n ==> s.uploads[t].pc.todo[i] !in u.objects
    decreases n
  {
    hide Step, Enabled, CleanStep, AfterDelete;
    if n > 0 {
      var u, todo := AfterDelete(s, t), s.uploads[t].pc.todo;
      OneDelete(s, t);
      assert Deletes(t, n)[0] == Action.Publish(t, Delete) && Deletes(t, n)[1..] == Deletes(t, n - 1);
      DeletesRun(u, t, n - 1);
      var w := Run(s, Deletes(t, n));
      forall i | 0 <= i < n ensures todo[i] !in w.objects {
        if i > 0 { assert todo[i] == todo[1..][i - 1]; }
      }
    }
  }

  /** The same for Resolve: when it finds no row, compensation is harmless if and only if
      none of the keys belongs to a live photo. */
  lemma CompensationSafeIffKeysFree(s: State, t: nat)
    requires CleanlyReachable(s) && OpEnabled(s, t, Resolve) && s.uploads[t].request.id !in s.rows
    ensures var r, u := s.uploads[t].request, OpStep(s, t, Resolve);
            KeysFree(s, t, Resolve) <==> forall n :: 0 <= n <= |Keys(r)| ==> CanRun(u, Deletes(t, n)) && Intact(Run(u, Deletes(t, n)))
  {
    CleanlyReachableIntact(s);
    hide HistoryInv, TokensCommitted, CleanlyReachable;
    var r, u := s.uploads[t].request, OpStep(s, t, Resolve);
    assert u == Goto(s, t, Compensating(Keys(r), true));
    if KeysFree(s, t, Resolve) {
      OpKeepsLocks(s, t, Resolve, true);
      OtherOpIntact(s, t, Resolve);
      forall n: nat | 0 <= n <= |Keys(r)| ensures CanRun(u, Deletes(t, n)) && Intact(Run(u, Deletes(t, n))) {
        DeletesRun(u, t, n);
        RunKeepsIntact(u, Deletes(t, n));
      }
    } else {
      var k :| k in PhotoKeys(r) && Referenced(s, k);
      KeysAre(r);
      var i :| 0 <= i < |Keys(r)| && Keys(r)[i] == k;
      DeletesRun(u, t, |Keys(r)|);
      var w := Run(u, Deletes(t, |Keys(r)|));
      assert Referenced(w, k) && k !in w.objects;
    }
  }

  // ---- A publication whose photo is lost ----

  lemma {:induction false} RunAppend(start: State, so: seq<Action>, a: Action)
    requires CanRun(start, so) && Enabled(Run(start, so), a)
    ensures CanRun(start, so + [a]) && Run(start, so + [a]) == Step(Run(start, so), a)
    decreases |so|
  {
    hide Step;
    if so != [] {
      RunAppend(Step(start, so[0]), so[1..], a);
      assert (so + [a])[1..] == so[1..] + [a];
    }
  }

  lemma Next(s: State, a: Action, u: State)
    requires Reachable(s) && Enabled(s, a) && u == Step(s, a)
    ensures Reachable(u)
  {
    hide Step;
    var actions :| CanRun(INIT, actions) && s == Run(INIT, actions);
    RunAppend(INIT, actions, a);
  }

  lemma KeysOfOne(r: Request, g: string)
    requires r.groups == [g]
    ensures Keys(r) == [ChallengeKey(r.id), PhotoKey(r.id, g)] && AllKeys(r) == {ChallengeKey(r.id), PhotoKey(r.id, g)}
    ensures PhotoKeys(r) == {PhotoKey(r.id, g)}
  {
    KeysAre(r);
  }

  /** A new request with one group reserves its key. */
  lemma Reserved(s: State, t: nat, r: Request, g: string) returns (u: State)
    requires Reachable(s) && t !in s.uploads && t !in s.limbo && r.groups == [g] && r.id !in s.rows
    requires ChallengeKey(r.id) !in s.locks && PhotoKey(r.id, g) !in s.locks
    ensures Reachable(u)
    ensures u == s.(uploads := s.uploads[t := Upload(r, Putting(0))], locks := s.locks[ChallengeKey(r.id) := Main(t)][PhotoKey(r.id, g) := Main(t)])
  {
    hide Reachable;
    var c, p := ChallengeKey(r.id), PhotoKey(r.id, g);
    KeysOfOne(r, g);
    var a := s.(uploads := s.uploads[t := Upload(r, Locking({}))]);
    Next(s, Action.Publish(t, Arrive(r)), a);
    var b := s.(uploads := s.uploads[t := Upload(r, Locking({c}))], locks := s.locks[c := Main(t)]);
    assert {} + {c} == {c};
    assert b.uploads == a.uploads[t := Upload(r, Locking({c}))];
    LockStep(a, t, c, b);
    u := ReservedPhoto(s, b, t, r, g);
  }

  /** The same from the moment the challenge's key is locked. */
  lemma ReservedPhoto(s: State, b: State, t: nat, r: Request, g: string) returns (u: State)
    requires Reachable(b) && t !in s.uploads && r.groups == [g] && r.id !in s.rows
    requires ChallengeKey(r.id) !in s.locks && PhotoKey(r.id, g) !in s.locks
    requires b == s.(uploads := s.uploads[t := Upload(r, Locking({ChallengeKey(r.id)}))], locks := s.locks[ChallengeKey(r.id) := Main(t)])
    ensures Reachable(u)
    ensures u == s.(uploads := s.uploads[t := Upload(r, Putting(0))], locks := s.locks[ChallengeKey(r.id) := Main(t)][PhotoKey(r.id, g) := Main(t)])
  {
    hide Reachable;
    var c, p := ChallengeKey(r.id), PhotoKey(r.id, g);
    KeysOfOne(r, g);
    assert {c} + {p} == {c, p};
    var d := s.(uploads := s.uploads[t := Upload(r, Locking({c, p}))], locks := s.locks[c := Main(t)][p := Main(t)]);
    assert d.uploads == b.uploads[t := Upload(r, Locking({c, p}))];
    LockStep(b, t, p, d);
    u := Goto(d, t, Putting(0));
    assert u.uploads == s.uploads[t := Upload(r, Putting(0))];
    Next(d, Action.Publish(t, Reserve), u);
  }

  lemma LockStep(s: State, t: nat, k: Key, u: State)
    requires Reachable(s) && OpEnabled(s, t, Lock(k))
    requires u == s.(uploads := u.uploads, locks := s.locks[k := Main(t)])
    requires u.uploads == s.uploads[t := Upload(s.uploads[t].request, Locking(s.uploads[t].pc.held + {k}))]
    ensures Reachable(u)
  {
    Next(s, Action.Publish(t, Lock(k)), u);
  }

  /** And stores both objects. */
  lemma StoredBoth(s: State, t: nat, g: string) returns (u: State)
    requires Reachable(s) && t in s.uploads && s.uploads[t].pc == Putting(0) && s.uploads[t].request.groups == [g]
    ensures Reachable(u)
    ensures var r := s.uploads[t].request;
            u == s.(uploads := s.uploads[t := Upload(r, Putting(2))], objects := s.objects[ChallengeKey(r.id) := t][PhotoKey(r.id, g) := t])
  {
    hide Reachable;
    var r := s.uploads[t].request;
    KeysOfOne(r, g);
    var a := s.(uploads := s.uploads[t := Upload(r, Putting(1))], objects := s.objects[ChallengeKey(r.id) := t]);
    Next(s, Action.Publish(t, Put), a);
    u := s.(uploads := s.uploads[t := Upload(r, Putting(2))], objects := s.objects[ChallengeKey(r.id) := t][PhotoKey(r.id, g) := t]);
    assert u.uploads == a.uploads[t := Upload(r, Putting(2))];
    Next(a, Action.Publish(t, Put), u);
  }

  /** And commits, the first publication of all. */
  lemma OnlyPublished(s: State, t: nat, r: Request, g: string) returns (u: State)
    requires Reachable(s) && t in s.uploads && s.uploads[t] == Upload(r, Putting(2)) && r.groups == [g] && s.rows == map[] && s.photos == map[]
    requires s.locks == map[ChallengeKey(r.id) := Main(t), PhotoKey(r.id, g) := Main(t)]
    ensures Reachable(u)
    ensures u == s.(uploads := s.uploads[t := Upload(r, Done(Created))], locks := map[], rows := map[r.id := RowOf(r, t)],
                    photos := map[PhotoKey(r.id, g) := Photo(t, true)], committed := u.committed, commits := u.commits, broadcasts := u.broadcasts)
  {
    hide Reachable;
    KeysOfOne(r, g);
    u := Step(s, Action.Publish(t, Create));
    Next(s, Action.Publish(t, Create), u);
    var c := Commit(s, t);
    assert c.photos == map[PhotoKey(r.id, g) := Photo(t, true)] && c.rows == map[r.id := RowOf(r, t)] by { hide Step, OpStep, OpEnabled, Release; }
    assert u.locks == map[] by { hide RowOf, PhotoKeys; }
  }

  /** An upload is published to one group and deleted by its author. */
  lemma PublishedAndDeleted(r: Request, g: string) returns (s: State)
    requires r.groups == [g]
    ensures Reachable(s) && s.uploads.Keys == {0} && s.limbo == {} && s.locks == map[] && s.rows == map[]
    ensures s.photos == map[PhotoKey(r.id, g) := Photo(0, true)] && s.objects == map[ChallengeKey(r.id) := 0, PhotoKey(r.id, g) := 0]
  {
    hide Reachable;
    assert Reachable(INIT) by { StartReachable(); }
    var a := Reserved(INIT, 0, r, g);
    var b := StoredBoth(a, 0, g);
    KeysOfOne(r, g);
    var c := OnlyPublished(b, 0, r, g);
    s := Step(c, AuthorDelete(r.id, r.owner));
    Next(c, AuthorDelete(r.id, r.owner), s);
    assert s.rows == map[];
  }

  lemma StartReachable()
    ensures Reachable(INIT)
  {
    assert CanRun(INIT, []) && Run(INIT, []) == INIT;
  }

  /** Retrying the idempotency key then overwrites the group photo's object; the inserts
      meet the photo row that is still there, and compensation deletes the object. The
      live photo is left without one. */
  lemma RetryAfterDeleteLosesPhoto(r: Request, g: string) returns (s: State)
    requires r.groups == [g]
    ensures Reachable(s) && Referenced(s, PhotoKey(r.id, g)) && PhotoKey(r.id, g) !in s.objects
  {
    hide Reachable;
    var a := PublishedAndDeleted(r, g);
    var b := Reserved(a, 1, r, g);
    var c := StoredBoth(b, 1, g);
    KeysOfOne(r, g);
    var keys := Keys(r);
    assert !Insertable(c, r);
    var d := Goto(c, 1, Compensating(keys, false));
    Next(c, Action.Publish(1, CreateFails), d);
    var e := AfterDelete(d, 1);
    Next(d, Action.Publish(1, Delete), e);
    assert e.uploads[1].pc.todo == [PhotoKey(r.id, g)] && e.photos == a.photos;
    s := AfterDelete(e, 1);
    Next(e, Action.Publish(1, Delete), s);
  }

  /** An upload to one group that committed though its commit reported an error. */
  lemma CommittedInLimbo(r: Request, g: string) returns (s: State)
    requires r.groups == [g]
    ensures Reachable(s) && s.uploads == map[0 := Upload(r, Resolving({}))] && s.limbo == {} && s.locks == map[] && s.rows == map[r.id := RowOf(r, 0)]
    ensures s.photos == map[PhotoKey(r.id, g) := Photo(0, true)] && s.objects == map[ChallengeKey(r.id) := 0, PhotoKey(r.id, g) := 0] && s.drains == map[]
  {
    hide Reachable;
    assert Reachable(INIT) by { StartReachable(); }
    var a := Reserved(INIT, 0, r, g);
    var b := StoredBoth(a, 0, g);
    KeysOfOne(r, g);
    var c := b.(uploads := map[0 := Upload(r, Resolving({}))], limbo := {0});
    assert c.uploads == b.uploads[0 := Upload(r, Resolving({}))];
    Next(b, Action.Publish(0, CreateUncertain), c);
    s := LimboLanded(c, r, g);
  }

  lemma LimboLanded(c: State, r: Request, g: string) returns (s: State)
    requires Reachable(c) && r.groups == [g] && c.limbo == {0} && c.uploads == map[0 := Upload(r, Resolving({}))]
    requires c.locks == map[ChallengeKey(r.id) := Main(0), PhotoKey(r.id, g) := Main(0)] && c.rows == map[] && c.photos == map[]
    ensures Reachable(s) && s.uploads == c.uploads && s.limbo == {} && s.locks == map[] && s.rows == map[r.id := RowOf(r, 0)]
    ensures s.photos == map[PhotoKey(r.id, g) := Photo(0, true)] && s.objects == c.objects && s.drains == c.drains
  {
    hide Reachable;
    KeysOfOne(r, g);
    s := Step(c, Action.Publish(0, LimboCommits));
    Next(c, Action.Publish(0, LimboCommits), s);
    assert s.locks == map[] && s.limbo == {};
  }

  /** The author deletes a publication whose commit is still uncertain to its upload:
      Resolve finds no row, and compensation deletes the object of the live photo. */
  lemma DeleteBeforeResolveLosesPhoto(r: Request, g: string) returns (s: State)
    requires r.groups == [g]
    ensures Reachable(s) && Referenced(s, PhotoKey(r.id, g)) && PhotoKey(r.id, g) !in s.objects
  {
    hide Reachable;
    var a := CommittedInLimbo(r, g);
    var b := Step(a, AuthorDelete(r.id, r.owner));
    Next(a, AuthorDelete(r.id, r.owner), b);
    assert b.rows == map[] && b.photos == a.photos && b.uploads == a.uploads && b.locks == map[];
    s := LockedAgain(b, r, g);
  }

  lemma LockedAgain(b: State, r: Request, g: string) returns (s: State)
    requires Reachable(b) && r.groups == [g] && b.rows == map[] && b.locks == map[] && b.uploads == map[0 := Upload(r, Resolving({}))]
    ensures Reachable(s) && s.photos == b.photos && PhotoKey(r.id, g) !in s.objects
  {
    hide Reachable;
    var c, p := ChallengeKey(r.id), PhotoKey(r.id, g);
    KeysOfOne(r, g);
    var d := Step(b, Action.Publish(0, LockAgain(c)));
    Next(b, Action.Publish(0, LockAgain(c)), d);
    assert {} + {c} == {c} && d.uploads == map[0 := Upload(r, Resolving({c}))];
    var e := Step(d, Action.Publish(0, LockAgain(p)));
    Next(d, Action.Publish(0, LockAgain(p)), e);
    assert {c} + {p} == {c, p} && e.uploads == map[0 := Upload(r, Resolving({c, p}))];
    s := ResolvedAndUndone(e, r, g);
  }

  lemma ResolvedAndUndone(s: State, r: Request, g: string) returns (u: State)
    requires Reachable(s) && r.groups == [g] && r.id !in s.rows
    requires s.uploads == map[0 := Upload(r, Resolving({ChallengeKey(r.id), PhotoKey(r.id, g)}))]
    ensures Reachable(u) && u.photos == s.photos && PhotoKey(r.id, g) !in u.objects
  {
    hide Reachable, LocksInv;
    KeysOfOne(r, g);
    var keys := Keys(r);
    var a := Goto(s, 0, Compensating(keys, true));
    Next(s, Action.Publish(0, Resolve), a);
    var b := AfterDelete(a, 0);
    Next(a, Action.Publish(0, Delete), b);
    assert b.uploads[0].pc.todo == [PhotoKey(r.id, g)];
    u := AfterDelete(b, 0);
    Next(b, Action.Publish(0, Delete), u);
  }

  // ---- The loops of the upload handler ----

  /** Compensation without interruption: each delete works or does not, and then the
      fallback does or does not. */
  function UndoSteps(t: nat, todo: seq<Key>, deletes: map<Key, bool>, enqueues: map<Key, bool>): seq<Action>
    requires forall k :: k in todo ==> k in deletes && k in enqueues
  {
    if todo == [] then []
    else
      var op := if deletes[todo[0]] then Delete else DeleteFails(false, enqueues[todo[0]]);
      [Action.Publish(t, op)] + UndoSteps(t, todo[1..], deletes, enqueues)
  }

  ghost predicate Undone(s: State, u: State, todo: seq<Key>, deletes: map<Key, bool>, enqueues: map<Key, bool>)
    requires forall k :: k in todo ==> k in deletes && k in enqueues
  {
    && u.rows == s.rows && u.photos == s.photos
    && (forall k :: k in u.objects <==> k in s.objects && !(k in todo && deletes[k]))
    && (forall k :: k in u.jobs <==> k in s.jobs || (k in todo && !deletes[k] && enqueues[k]))
  }

  lemma DeleteUndoes(s: State, t: nat, deletes: map<Key, bool>, enqueues: map<Key, bool>)
    requires IsCompensating(s, t) && s.uploads[t].pc.todo != []
    requires var k := s.uploads[t].pc.todo[0]; k in deletes && k in enqueues && deletes[k]
    ensures var todo, u := s.uploads[t].pc.todo, AfterDelete(s, t);
            IsCompensating(u, t) && u.uploads[t].pc.todo == todo[1..] && Undone(s, u, [todo[0]], deletes, enqueues)
  {
  }

  lemma FailedDeleteUndoes(s: State, t: nat, deletes: map<Key, bool>, enqueues: map<Key, bool>)
    requires IsCompensating(s, t) && s.uploads[t].pc.todo != []
    requires var k := s.uploads[t].pc.todo[0]; k in deletes && k in enqueues && !deletes[k]
    ensures var todo := s.uploads[t].pc.todo;
            var u := AfterDeleteFails(s, t, false, enqueues[todo[0]]);
            IsCompensating(u, t) && u.uploads[t].pc.todo == todo[1..] && Undone(s, u, [todo[0]], deletes, enqueues)
  {
    EnqueuedKeys(s, [s.uploads[t].pc.todo[0]]);
    hide Enqueue;
  }

  lemma UndoneTwice(s: State, u: State, v: State, todo: seq<Key>, deletes: map<Key, bool>, enqueues: map<Key, bool>)
    requires todo != [] && forall k :: k in todo ==> k in deletes && k in enqueues
    requires Undone(s, u, [todo[0]], deletes, enqueues) && Undone(u, v, todo[1..], deletes, enqueues)
    ensures Undone(s, v, todo, deletes, enqueues)
  {
    assert todo == [todo[0]] + todo[1..];
  }

  /** What CompensateKeys does to objects and queue below is what these steps do. */
  lemma {:induction false} UndoRun(s: State, t: nat, deletes: map<Key, bool>, enqueues: map<Key, bool>)
    requires IsCompensating(s, t) && forall k :: k in s.uploads[t].pc.todo ==> k in deletes && k in enqueues
    ensures var todo := s.uploads[t].pc.todo;
            var steps := UndoSteps(t, todo, deletes, enqueues);
            CanRun(s, steps) && Undone(s, Run(s, steps), todo, deletes, enqueues)
    decreases |s.uploads[t].pc.todo|
  {
    var todo := s.uploads[t].pc.todo;
    if todo != [] {
      var k, steps := todo[0], UndoSteps(t, todo, deletes, enqueues);
      var u := if deletes[k] then AfterDelete(s, t) else AfterDeleteFails(s, t, false, enqueues[k]);
      if deletes[k] { DeleteUndoes(s, t, deletes, enqueues); } else { FailedDeleteUndoes(s, t, deletes, enqueues); }
      assert Enabled(s, steps[0]) && Step(s, steps[0]) == u by { hide AfterDelete, AfterDeleteFails, Undone; }
      assert steps[1..] == UndoSteps(t, todo[1..], deletes, enqueues);
      hide Step, Enabled, Undone, AfterDelete, AfterDeleteFails;
      UndoRun(u, t, deletes, enqueues);
      UndoneTwice(s, u, Run(s, steps), todo, deletes, enqueues);
    } else {
      hide Enabled;
    }
  }

  datatype Outcome = Stored | Refused

  /** Object store and deletion queue as one upload sees them; whether a call to them
      succeeds is up to `puts`, `deletes` and `enqueues`. */
  class Media {
    var objects: set<Key>
    var queue: set<Key>

    constructor ()
      ensures objects == {} && queue == {}
    {
      objects, queue := {}, {};
    }

    /** Every key is deleted, or else queued for deletion if the queue takes it. */
    method CompensateKeys(keys: seq<Key>, deletes: map<Key, bool>, enqueues: map<Key, bool>)
      requires forall k :: k in keys ==> k in deletes && k in enqueues
      modifies this
      ensures objects == old(objects) - set k | k in keys && deletes[k]
      ensures queue == old(queue) + set k | k in keys && !deletes[k] && enqueues[k]
    {
      for i := 0 to |keys|
        invariant objects == old(objects) - set k | k in keys[..i] && deletes[k]
        invariant queue == old(queue) + set k | k in keys[..i] && !deletes[k] && enqueues[k]
      {
        var key := keys[i];
        assert keys[..i + 1] == keys[..i] + [key];
        if deletes[key] {
          objects := objects - {key};
          continue;
        }
        if enqueues[key] { queue := queue + {key}; }
      }
      assert keys[..|keys|] == keys;
    }

    /** Stores the keys in order up to the first failure, which may have stored its object
        too; then everything attempted, and nothing else, is compensated. */
    method StoreAll(keys: seq<Key>, puts: map<Key, Outcome>, deletes: map<Key, bool>, enqueues: map<Key, bool>) returns (stored: seq<Key>)
      requires forall k :: k in keys ==> k in puts && k in deletes && k in enqueues
      modifies this
      ensures stored <= keys && (forall k :: k in stored ==> puts[k].Stored?)
      ensures stored == keys || puts[keys[|stored|]].Refused?
      ensures stored == keys ==> objects == old(objects) + (set k | k in keys) && queue == old(queue)
      ensures stored != keys ==>
                var tried := keys[..|stored| + 1];
                && (forall k :: k in tried && deletes[k] ==> k !in objects)
                && (forall k :: k in tried && !deletes[k] && enqueues[k] ==> k in queue)
                && (forall k :: k !in tried ==> (k in objects <==> k in old(objects)) && (k in queue <==> k in old(queue)))
    {
      stored := [];
      for i := 0 to |keys|
        invariant stored == keys[..i] && queue == old(queue)
        invariant forall k :: k in stored ==> puts[k].Stored?
        invariant objects == old(objects) + set k | k in keys[..i]
      {
        assert keys[..i + 1] == keys[..i] + [keys[i]];
        objects := objects + {keys[i]};
        if puts[keys[i]].Refused? {
          CompensateKeys(stored + [keys[i]], deletes, enqueues);
          return;
        }
        stored := stored + [keys[i]];
      }
      assert keys[..|keys|] == keys;
    }
  }
}
