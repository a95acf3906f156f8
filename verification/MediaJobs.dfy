/** backend/internal/repository/media_processing.go, media_jobs.go and cleanup.go: the
    rows of media processing jobs, of the records they result in, and of the durable
    deletion queue. Each method is one transaction. Times are seconds. */
module MediaJobs {
  import opened Ordering

  const STALE_AFTER := 5 * 60
  const ABANDON_AFTER := 60 * 60
  const JOB_RETENTION := 24 * 60 * 60

  /** Object keys: the raw upload of a job, and canonical objects, freshly named. */
  datatype Key = Quarantine(job: nat) | Canonical(id: nat)

  datatype Status = Queued | Processing | Ready | Failed

  /** `worker` is the lease token of the current claim, `targets` the number of records
      the job is to result in. */
  datatype Job = Job(status: Status, worker: Option<nat>, targets: nat, queuedAt: int, startedAt: int, expiresAt: int)

  /** A photo or chat attachment. */
  datatype Record = Record(job: nat, live: bool)

  /** `deletions` maps a key to its active deletion job. */
  datatype Db = Db(jobs: map<nat, Job>, records: map<Key, Record>, deletions: map<Key, nat>, nextDeletion: nat)

  predicate Terminal(job: Job) {
    job.status == Ready || job.status == Failed
  }

  /** The lease is the caller's: a claim that has not been released since. */
  predicate HoldsLease(db: Db, j: nat, token: nat) {
    j in db.jobs && db.jobs[j].status == Processing && db.jobs[j].worker == Some(token)
  }

  // ---- What the transactions do ----

  /** A key with an active deletion job keeps that one. */
  function Enqueued(db: Db, k: Key): (r: Db)
    ensures r == db.(deletions := r.deletions, nextDeletion := r.nextDeletion)
    ensures r.deletions.Keys == db.deletions.Keys + {k}
    ensures forall d :: d in db.deletions ==> r.deletions[d] == db.deletions[d]
  {
    if k in db.deletions then db else db.(deletions := db.deletions[k := db.nextDeletion], nextDeletion := db.nextDeletion + 1)
  }

  function EnqueuedAll(db: Db, keys: seq<Key>): (r: Db)
    ensures r == db.(deletions := r.deletions, nextDeletion := r.nextDeletion)
    ensures r.deletions.Keys == db.deletions.Keys + set k | k in keys
    ensures forall k :: k in db.deletions ==> r.deletions[k] == db.deletions[k]
    ensures db.nextDeletion <= r.nextDeletion
    ensures forall k :: k in r.deletions && k !in db.deletions ==> db.nextDeletion <= r.deletions[k] < r.nextDeletion
    decreases |keys|
  {
    if keys == [] then db
    else
      assert keys == keys[..|keys| - 1] + [keys[|keys| - 1]];
      Enqueued(EnqueuedAll(db, keys[..|keys| - 1]), keys[|keys| - 1])
  }

  function NewJob(targets: nat, now: int): Job {
    Job(Queued, None, targets, now, 0, now + JOB_RETENTION)
  }

  ghost predicate OldestQueued(db: Db, j: nat) {
    && j in db.jobs && db.jobs[j].status == Queued
    && forall i :: i in db.jobs && db.jobs[i].status == Queued ==> db.jobs[j].queuedAt <= db.jobs[i].queuedAt
  }

  function Claimed(db: Db, j: nat, token: nat, now: int): Db
    requires j in db.jobs
  {
    db.(jobs := db.jobs[j := db.jobs[j].(status := Processing, worker := Some(token), startedAt := now)])
  }

  function RecordsOf(j: nat, keys: seq<Key>): map<Key, Record> {
    map k | k in keys :: Record(j, true)
  }

  /** Records, result and the raw object's deletion job, all at once. */
  function Completed(db: Db, j: nat, keys: seq<Key>): Db
    requires j in db.jobs
  {
    Enqueued(db.(jobs := db.jobs[j := db.jobs[j].(status := Ready)], records := db.records + RecordsOf(j, keys)), Quarantine(j))
  }

  function FailedJob(db: Db, j: nat): Db
    requires j in db.jobs
  {
    Enqueued(db.(jobs := db.jobs[j := db.jobs[j].(status := Failed)]), Quarantine(j))
  }

  predicate IsStale(job: Job, now: int) {
    job.status == Processing && job.startedAt < now - STALE_AFTER
  }

  /** `queued_at` stays what it was. */
  function Requeued(db: Db, now: int): Db {
    db.(jobs := map j | j in db.jobs :: if IsStale(db.jobs[j], now) then db.jobs[j].(status := Queued, worker := None, startedAt := 0) else db.jobs[j])
  }

  predicate IsAbandoned(job: Job, now: int) {
    job.status == Queued && job.queuedAt < now - ABANDON_AFTER
  }

  /** The abandoned jobs, in the order the database returns them. */
  ghost predicate ListsAbandoned(db: Db, now: int, items: seq<nat>) {
    && (forall j :: j in items <==> j in db.jobs && IsAbandoned(db.jobs[j], now))
    && forall a, b :: 0 <= a < b < |items| ==> items[a] != items[b]
  }

  function QuarantineKeys(items: seq<nat>): seq<Key> {
    seq(|items|, i requires 0 <= i < |items| => Quarantine(items[i]))
  }

  function Abandoned(db: Db, now: int, items: seq<nat>): Db {
    var failed := map j | j in db.jobs :: if IsAbandoned(db.jobs[j], now) then db.jobs[j].(status := Failed) else db.jobs[j];
    EnqueuedAll(db.(jobs := failed), QuarantineKeys(items))
  }

  predicate IsExpired(job: Job, now: int) {
    Terminal(job) && job.expiresAt < now
  }

  function Purged(db: Db, now: int): Db {
    db.(jobs := map j | j in db.jobs && !IsExpired(db.jobs[j], now) :: db.jobs[j])
  }

  /** Enqueue first, then mark removed. */
  function Retired(db: Db, k: Key): Db {
    if k in db.records && db.records[k].live then Enqueued(db, k).(records := db.records[k := db.records[k].(live := false)]) else db
  }

  /** What the deletion worker looks for before it deletes. */
  predicate Referenced(db: Db, k: Key) {
    (k in db.records && db.records[k].live) || (k.Quarantine? && k.job in db.jobs && !Terminal(db.jobs[k.job]))
  }

  // ---- The repository ----

  datatype Outcome = Committed | LeaseLost | AuthorizationRevoked | DatabaseError

  class Repository {
    var jobs: map<nat, Job>
    var records: map<Key, Record>
    var deletions: map<Key, nat>
    var nextDeletion: nat

    ghost function View(): Db
      reads this
    {
      Db(jobs, records, deletions, nextDeletion)
    }

    constructor ()
      ensures View() == Db(map[], map[], map[], 0)
    {
      jobs, records, deletions, nextDeletion := map[], map[], map[], 0;
    }

    method EnqueueOne(k: Key)
      modifies this`deletions, this`nextDeletion
      ensures View() == Enqueued(old(View()), k)
    {
      if k !in deletions {
        deletions := deletions[k := nextDeletion];
        nextDeletion := nextDeletion + 1;
      }
    }

    method EnqueueMediaDeletion(keys: seq<Key>)
      modifies this`deletions, this`nextDeletion
      ensures View() == EnqueuedAll(old(View()), keys)
    {
      for i := 0 to |keys|
        invariant View() == EnqueuedAll(old(View()), keys[..i])
      {
        assert keys[..i + 1][..i] == keys[..i];
        EnqueueOne(keys[i]);
      }
      assert keys[..|keys|] == keys;
    }

    method CreateProcessingJob(j: nat, targets: nat, now: int)
      requires j !in jobs
      modifies this`jobs
      ensures View() == old(View()).(jobs := old(jobs)[j := NewJob(targets, now)])
    {
      jobs := jobs[j := NewJob(targets, now)];
    }

    /** The oldest queued job, if there is one, goes to the caller. */
    method ClaimProcessingJob(token: nat, now: int) returns (claimed: Option<nat>)
      modifies this`jobs
      ensures claimed.None? ==> View() == old(View()) && forall j :: j in jobs ==> jobs[j].status != Queued
      ensures claimed.Some? ==> OldestQueued(old(View()), claimed.value) && View() == Claimed(old(View()), claimed.value, token, now)
    {
      claimed := None;
      var pending := jobs.Keys;
      while pending != {}
        invariant pending <= jobs.Keys
        invariant claimed.Some? ==> claimed.value in jobs && jobs[claimed.value].status == Queued
        invariant forall j :: j in jobs && j !in pending && jobs[j].status == Queued ==> claimed.Some? && jobs[claimed.value].queuedAt <= jobs[j].queuedAt
        decreases |pending|
      {
        var j :| j in pending;
        if jobs[j].status == Queued && (claimed.None? || jobs[j].queuedAt < jobs[claimed.value].queuedAt) { claimed := Some(j); }
        pending := pending - {j};
      }
      if claimed.Some? {
        var j := claimed.value;
        jobs := jobs[j := jobs[j].(status := Processing, worker := Some(token), startedAt := now)];
      }
    }

    /** Inserts the records, then claims the result with a lease check; anything amiss
        rolls all of it back. */
    method CompleteProcessing(j: nat, token: nat, keys: seq<Key>, authorized: bool, dbOk: bool) returns (outcome: Outcome)
      modifies this
      ensures outcome.Committed? <==> authorized && dbOk && HoldsLease(old(View()), j, token)
      ensures outcome.LeaseLost? ==> !HoldsLease(old(View()), j, token)
      ensures outcome.AuthorizationRevoked? <==> dbOk && !authorized
      ensures HoldsLease(old(View()), j, token) && outcome.Committed? ==> View() == Completed(old(View()), j, keys)
      ensures !outcome.Committed? ==> View() == old(View())
    {
      if !dbOk { return DatabaseError; }
      if !authorized { return AuthorizationRevoked; }
      var inserted := records;
      for i := 0 to |keys|
        invariant inserted == old(records) + RecordsOf(j, keys[..i])
      {
        assert keys[..i + 1] == keys[..i] + [keys[i]];
        inserted := inserted[keys[i] := Record(j, true)];
      }
      assert keys[..|keys|] == keys;
      if j !in jobs || jobs[j].status != Processing || jobs[j].worker != Some(token) { return LeaseLost; }
      records, jobs := inserted, jobs[j := jobs[j].(status := Ready)];
      EnqueueOne(Quarantine(j));
      return Committed;
    }

    method FailClaimedProcessingJob(j: nat, token: nat, dbOk: bool) returns (outcome: Outcome)
      modifies this
      ensures outcome.Committed? <==> dbOk && HoldsLease(old(View()), j, token)
      ensures HoldsLease(old(View()), j, token) && outcome.Committed? ==> View() == FailedJob(old(View()), j)
      ensures !outcome.Committed? ==> View() == old(View())
    {
      if !dbOk { return DatabaseError; }
      if j !in jobs || jobs[j].status != Processing || jobs[j].worker != Some(token) { return LeaseLost; }
      jobs := jobs[j := jobs[j].(status := Failed)];
      EnqueueOne(Quarantine(j));
      return Committed;
    }

    method RequeueStaleProcessingJobs(now: int) returns (count: nat)
      modifies this`jobs
      ensures View() == Requeued(old(View()), now)
      ensures jobs.Keys == old(jobs).Keys && forall j :: j in jobs ==> !IsStale(jobs[j], now) && jobs[j].queuedAt == old(jobs)[j].queuedAt
      ensures forall j :: j in jobs && !IsStale(old(jobs)[j], now) ==> jobs[j] == old(jobs)[j]
      ensures forall j, token :: HoldsLease(View(), j, token) <==> HoldsLease(old(View()), j, token) && !IsStale(old(jobs)[j], now)
      ensures count == |set j | j in jobs && jobs[j].status != old(jobs)[j].status|
    {
      var stale := set j | j in jobs && IsStale(jobs[j], now);
      jobs := map j | j in jobs :: if IsStale(jobs[j], now) then jobs[j].(status := Queued, worker := None, startedAt := 0) else jobs[j];
      assert stale == set j | j in jobs && jobs[j].status != old(jobs)[j].status;
      return |stale|;
    }

    /** Fails the abandoned jobs and queues their raw objects in the same transaction. */
    method AbandonQueuedProcessingJobs(now: int) returns (items: seq<nat>)
      modifies this
      ensures ListsAbandoned(old(View()), now, items)
      ensures forall a, b :: 0 <= a < b < |items| ==> items[a] != items[b]
      ensures forall j :: j in items <==> j in old(jobs) && old(jobs)[j].status == Queued && now - old(jobs)[j].queuedAt > 3_600
      ensures View() == Abandoned(old(View()), now, items)
    {
      items := [];
      var pending := jobs.Keys;
      while pending != {}
        invariant pending <= jobs.Keys
        invariant forall j :: j in items <==> j in jobs && j !in pending && IsAbandoned(jobs[j], now)
        invariant forall a, b :: 0 <= a < b < |items| ==> items[a] != items[b]
        decreases |pending|
      {
        var j :| j in pending;
        if IsAbandoned(jobs[j], now) { items := items + [j]; }
        pending := pending - {j};
      }
      jobs := map j | j in jobs :: if IsAbandoned(jobs[j], now) then jobs[j].(status := Failed) else jobs[j];
      EnqueueMediaDeletion(QuarantineKeys(items));
    }

    method PurgeExpiredProcessingJobs(now: int)
      modifies this`jobs
      ensures View() == Purged(old(View()), now)
    {
      var pending := jobs.Keys;
      while pending != {}
        invariant pending <= old(jobs).Keys
        invariant forall j :: j in jobs <==> j in old(jobs) && (j in pending || !IsExpired(old(jobs)[j], now))
        invariant forall j :: j in jobs ==> jobs[j] == old(jobs)[j]
        decreases |pending|
      {
        var j :| j in pending;
        if IsExpired(jobs[j], now) { jobs := jobs - {j}; }
        pending := pending - {j};
      }
      assert View().jobs == Purged(old(View()), now).jobs;
    }

    method RetireRetainedMedia(k: Key)
      modifies this
      ensures View() == Retired(old(View()), k)
      ensures k in old(records) && old(records)[k].live ==> k in records && records[k] == old(records)[k].(live := false) && k in deletions
      ensures !(k in old(records) && old(records)[k].live) ==> View() == old(View())
      ensures jobs == old(jobs) && records - {k} == old(records) - {k} && deletions - {k} == old(deletions) - {k}
      ensures k.Canonical? ==> !Referenced(View(), k)
    {
      if k !in records || !records[k].live { return; }
      EnqueueOne(k);
      records := records[k := records[k].(live := false)];
    }
  }
}
