/** backend/internal/middleware/limiter.go: the store itself, with counters shared by
    reference between the map and a call in progress. */
module LimiterStore {
  import opened Ordering
  import opened Limiter

  class Counter {
    var count: int
    var resetAt: int

    constructor (resetAt: int)
      ensures this.count == 0 && this.resetAt == resetAt
    {
      this.count, this.resetAt := 0, resetAt;
    }
  }

  lemma SampleSize(counts: Counts, sample: set<Key>, pending: set<Key>)
    requires counts.Keys == sample + pending && sample !! pending && |sample| <= SAMPLE && (pending == {} || |sample| == SAMPLE)
    ensures |sample| == if |counts| < SAMPLE then |counts| else SAMPLE
  {
    KeysSize(counts);
    assert |sample + pending| == |sample| + |pending|;
  }

  function Tally(rejections: map<string, int>, policy: string): int {
    if policy in rejections then rejections[policy] else 0
  }

  lemma ApplicableNext(p: Policy, i: nat, keys: map<BucketType, string>)
    requires i < |p.buckets|
    ensures Applicable(p.name, p.buckets[..i + 1], keys)
         == Applicable(p.name, p.buckets[..i], keys) + if Skipped(p.buckets[i], keys) then [] else [KeyOf(p.name, p.buckets[i], keys)]
  {
    assert p.buckets[..i + 1][..i] == p.buckets[..i];
  }

  lemma DecideFrom(counts: Counts, ks: seq<Key>, call: Call, victims: seq<Key>)
    requires |victims| == |ks|
    ensures var c, v := Check(counts, ks, call, victims), Decide(counts, ks, call, victims);
            v == if c.full || c.wait > 0 then Verdict(c.counts, false, c.wait) else Verdict(Increment(c.counts, c.pending), true, 0)
  {
  }

  lemma CheckOneFrom(c: Checked, k: Key, call: Call, victim: Key)
    ensures var r, counts := CheckOne(c, k, call, victim), Materialised(c.counts, k, call, victim);
            var names := if RoomFor(c.counts, k, call) == Evicts then Orphan(c.pending, victim) else c.pending;
            && (RoomFor(c.counts, k, call) == Full ==> r == Checked(counts, names, RetryAfter(call.now, call.now + k.window), true))
            && (RoomFor(c.counts, k, call) != Full ==> k in counts && r == Counted(counts, names, k, call.now, c.wait))
  {
  }

  function Counted(counts: Counts, names: seq<Option<Key>>, k: Key, now: int, wait: int): Checked
    requires k in counts
  {
    if counts[k].count < k.limit then Checked(counts, names + [Some(k)], wait, false)
    else
      var longer := RetryAfter(now, counts[k].resetAt);
      Checked(counts, names, if longer > wait then longer else wait, false)
  }

  function Bumped(counts: Counts, name: Option<Key>): Counts {
    if name.Some? && name.value in counts then counts[name.value := counts[name.value].(count := counts[name.value].count + 1)] else counts
  }

  lemma IncrementNone(counts: Counts, names: seq<Option<Key>>)
    ensures Increment(counts, names[..0]) == counts
  {
  }

  lemma IncrementNext(counts: Counts, names: seq<Option<Key>>, i: nat)
    requires i < |names|
    ensures Increment(counts, names[..i + 1]) == Bumped(Increment(counts, names[..i]), names[i])
  {
    assert names[..i + 1][..i] == names[..i];
  }

  lemma CheckNone(counts: Counts, call: Call, p: Policy, keys: map<BucketType, string>)
    ensures Check(counts, [], call, []) == Checked(counts, [], 0, false) && GoodVictims(counts, [], call, [])
    ensures Applicable(p.name, p.buckets[..0], keys) == []
  {
  }

  const DEFAULT_CAPACITY := 50_000

  function Evicted(counts: Counts, victims: seq<Key>): Counts {
    if victims == [] then counts else Evicted(counts, victims[..|victims| - 1]) - {victims[|victims| - 1]}
  }

  ghost predicate EvictsInTurn(counts: Counts, victims: seq<Key>) {
    victims == [] || (
      var n := |victims| - 1;
      EvictsInTurn(counts, victims[..n]) && GoodVictim(Evicted(counts, victims[..n]), victims[n])
    )
  }

  lemma EvictNone(counts: Counts)
    ensures EvictsInTurn(counts, []) && Evicted(counts, []) == counts
  {
  }

  lemma EvictOneMore(counts: Counts, victims: seq<Key>, victim: Key)
    requires EvictsInTurn(counts, victims) && GoodVictim(Evicted(counts, victims), victim)
    ensures EvictsInTurn(counts, victims + [victim]) && Evicted(counts, victims + [victim]) == Evicted(counts, victims) - {victim}
  {
    Prefix(victims, victim);
  }

  class BucketStore {
    var buckets: map<Key, Counter>
    var rejected: int
    var rejectedByPolicy: map<string, int>
    var capacity: int

    /** Bounded, and no counter is stored under two keys. */
    ghost predicate Valid()
      reads this
    {
      && capacity >= 1 && |buckets| <= capacity && Injective()
    }

    ghost predicate Injective()
      reads this
    {
      forall j, k :: j in buckets && k in buckets && j != k ==> buckets[j] != buckets[k]
    }

    ghost function View(): (r: Counts)
      reads this, buckets.Values
      ensures r.Keys == buckets.Keys
    {
      map k | k in buckets :: Count(buckets[k].count, buckets[k].resetAt)
    }

    constructor ()
      ensures Valid() && View() == map[] && capacity == DEFAULT_CAPACITY
    {
      buckets, rejected, rejectedByPolicy, capacity := map[], 0, map[], DEFAULT_CAPACITY;
    }

    method SweepLocked(now: int)
      modifies this`buckets
      ensures View() == Sweep(old(View()), now)
      ensures forall k :: k in buckets ==> k in old(buckets) && buckets[k] == old(buckets[k])
    {
      var pending := buckets.Keys;
      while pending != {}
        invariant pending <= old(buckets.Keys)
        invariant forall k :: k in buckets ==> k in old(buckets) && buckets[k] == old(buckets[k])
        invariant forall k :: k in old(buckets) ==> (k in buckets <==> k in pending || now < old(buckets[k]).resetAt)
        decreases |pending|
      {
        var key :| key in pending;
        if now >= buckets[key].resetAt { buckets := buckets - {key}; }
        pending := pending - {key};
      }
      assert View() == Sweep(old(View()), now);
    }

    /** The soonest-expiring of a bounded sample, in the order the runtime visits it. */
    method SoonestOfSample() returns (best: Option<Key>)
      ensures best.None? <==> buckets == map[]
      ensures best.Some? ==> GoodVictim(View(), best.value)
    {
      best := None;
      var pending := buckets.Keys;
      ghost var sample: set<Key> := {};
      for scanned := 0 to SAMPLE
        invariant scanned == |sample| && sample + pending == buckets.Keys && sample !! pending
        invariant best.None? <==> sample == {}
        invariant best.Some? ==> best.value in sample && forall k :: k in sample ==> buckets[best.value].resetAt <= buckets[k].resetAt
      {
        if pending == {} { break; }
        var key :| key in pending;
        if best.None? || buckets[key].resetAt < buckets[best.value].resetAt { best := Some(key); }
        pending, sample := pending - {key}, sample + {key};
      }
      if best.Some? {
        SampleSize(View(), sample, pending);
        assert InSample(View(), best.value, sample);
      }
    }

    method EvictExpiringLocked() returns (ghost victim: Option<Key>)
      modifies this`buckets
      ensures victim.None? <==> old(buckets) == map[]
      ensures victim.None? ==> buckets == old(buckets)
      ensures victim.Some? ==> GoodVictim(old(View()), victim.value) && buckets == old(buckets) - {victim.value}
      ensures victim.Some? ==> View() == old(View()) - {victim.value} && |buckets| == old(|buckets|) - 1
    {
      var best := SoonestOfSample();
      victim := best;
      if best.Some? {
        assert best.value in buckets.Keys;
        assert (buckets - {best.value}).Keys == buckets.Keys - {best.value};
        buckets := buckets - {best.value};
      }
    }

    /** Drops an expired `k`, and everything else that has expired if that is not room
        enough. */
    method Reclaim(k: Key, now: int, ghost call: Call)
      requires call.now == now && call.capacity == capacity
      modifies this`buckets
      ensures View() == Reclaimed(old(View()), k, call)
      ensures forall d :: d in buckets ==> d in old(buckets) && buckets[d] == old(buckets[d])
    {
      buckets := buckets - {k};
      assert View() == old(View()) - {k};
      ViewSize();
      if |buckets| >= capacity { SweepLocked(now); }
    }

    method MakeRoom(k: Key, now: int, failClosed: bool) returns (room: Room, ghost victim: Key)
      requires capacity >= 1 && !Live(View(), k, now)
      modifies this`buckets
      ensures var call := Call(now, capacity, failClosed);
              && room == RoomFor(old(View()), k, call)
              && (room == Evicts ==> GoodVictim(Reclaimed(old(View()), k, call), victim))
              && View() == MadeRoom(old(View()), k, call, victim)
      ensures forall d :: d in buckets ==> d in old(buckets) && buckets[d] == old(buckets[d])
    {
      room, victim := Free, k;
      Reclaim(k, now, Call(now, capacity, failClosed));
      ViewSize();
      if |buckets| >= capacity {
        if failClosed { return Full, victim; }
        ghost var evicted := EvictExpiringLocked();
        room, victim := Evicts, evicted.value;
      }
    }

    method Store(k: Key, resetAt: int) returns (c: Counter)
      requires Injective()
      modifies this`buckets
      ensures Injective() && fresh(c) && buckets == old(buckets)[k := c]
      ensures View() == old(View())[k := Count(0, resetAt)]
    {
      c := new Counter(resetAt);
      buckets := buckets[k := c];
    }

    lemma LiveIsFree(k: Key, call: Call)
      ensures Live(View(), k, call.now) ==> RoomFor(View(), k, call) == Free
    {
    }

    lemma MadeRoomLive(k: Key, call: Call)
      requires !Live(View(), k, call.now)
      ensures forall victim :: RoomFor(View(), k, call) == Evicts ==> victim !in MadeRoom(View(), k, call, victim)
      ensures forall victim, d :: Live(View(), d, call.now) && (RoomFor(View(), k, call) == Evicts ==> d != victim) ==> d in MadeRoom(View(), k, call, victim)
    {
      forall victim { MadeRoomKeepsLive(View(), k, call, victim); }
    }

    /** The live counter of `k`, created if need be; null when a fail-closed policy
        finds no room. */
    method Materialise(k: Key, now: int, failClosed: bool) returns (c: Counter?, ghost victim: Key, ghost room: Room)
      requires capacity >= 1 && Injective() && k.window > 0
      modifies this`buckets
      ensures Injective()
      ensures var call := Call(now, capacity, failClosed);
              && room == RoomFor(old(View()), k, call)
              && View() == Materialised(old(View()), k, call, victim)
              && (c == null <==> room == Full)
              && (room == Evicts ==> GoodVictim(Reclaimed(old(View()), k, call), victim))
      ensures c != null ==> k in buckets && buckets[k] == c && now < c.resetAt
      ensures forall d :: d in buckets ==> (d in old(buckets) && buckets[d] == old(buckets[d])) || (d == k && fresh(buckets[d]))
      ensures forall d :: Live(old(View()), d, now) && !(room == Evicts && d == victim) ==> d in buckets && buckets[d] == old(buckets[d])
      ensures room == Evicts && victim in buckets ==> victim == k && fresh(buckets[victim])
    {
      hide RoomFor, MadeRoom, Reclaimed;
      victim := k;
      room := Free;
      LiveIsFree(k, Call(now, capacity, failClosed));
      if k in buckets && now < buckets[k].resetAt { return buckets[k], victim, room; }
      MadeRoomLive(k, Call(now, capacity, failClosed));
      var r, v := MakeRoom(k, now, failClosed);
      room, victim := r, v;
      if r == Full { return null, victim, room; }
      c := Store(k, now + k.window);
    }

    lemma ViewSize()
      ensures |View()| == |buckets|
    {
      assert |View().Keys| == |buckets.Keys|;
      KeysSize(View());
    }

    /** The references a call holds: each is the stored counter of its name, or is no
        longer in the store. */
    ghost predicate Tracks(pending: seq<Counter>, names: seq<Option<Key>>, now: int)
      reads this, pending
    {
      |pending| == |names| && forall i :: 0 <= i < |pending| ==> Tracked(pending[i], names[i], now)
    }

    ghost predicate Tracked(c: Counter, name: Option<Key>, now: int)
      reads this, c
    {
      if name.Some? then name.value in buckets && buckets[name.value] == c && now < c.resetAt
      else forall k :: k in buckets ==> buckets[k] != c
    }

    /** Materialise while holding references: only the evicted counter's is cut off. */
    method MaterialiseHolding(k: Key, now: int, failClosed: bool, ghost pending: seq<Counter>, ghost names: seq<Option<Key>>)
      returns (c: Counter?, ghost victim: Key, ghost room: Room)
      requires capacity >= 1 && Injective() && k.window > 0 && Tracks(pending, names, now)
      modifies this`buckets
      ensures Injective()
      ensures var call := Call(now, capacity, failClosed);
              && room == RoomFor(old(View()), k, call)
              && View() == Materialised(old(View()), k, call, victim)
              && (c == null <==> room == Full)
              && (room == Evicts ==> GoodVictim(Reclaimed(old(View()), k, call), victim))
      ensures c != null ==> k in buckets && buckets[k] == c && now < c.resetAt
      ensures forall d :: d in buckets ==> (d in old(buckets) && buckets[d] == old(buckets[d])) || fresh(buckets[d])
      ensures Tracks(pending, if room == Evicts then Orphan(names, victim) else names, now)
    {
      hide RoomFor, Materialised, Reclaimed, GoodVictim, MadeRoom;
      c, victim, room := Materialise(k, now, failClosed);
      ghost var after := if room == Evicts then Orphan(names, victim) else names;
      forall i | 0 <= i < |pending| ensures Tracked(pending[i], after[i], now) {
        assert old(Tracked(pending[i], names[i], now));
        if names[i].Some? {
          assert old(buckets)[names[i].value] == pending[i];
          assert Live(old(View()), names[i].value, now);
        }
      }
    }

    method CountOne(c: Counter, ghost name: Option<Key>, now: int, ghost pending: seq<Counter>, ghost names: seq<Option<Key>>)
      requires Injective() && Tracks(pending, names, now) && Tracked(c, name, now)
      modifies c
      ensures View() == Bumped(old(View()), name) && Tracks(pending, names, now)
    {
      c.count := c.count + 1;
      if name.Some? {
        assert View() == old(View())[name.value := Count(old(View())[name.value].count + 1, old(View())[name.value].resetAt)];
      } else {
        assert View() == old(View());
      }
      forall j | 0 <= j < |pending| ensures Tracked(pending[j], names[j], now) {}
    }

    /** Phase 2. */
    method CountAll(pending: seq<Counter>, ghost names: seq<Option<Key>>, now: int)
      requires Injective() && Tracks(pending, names, now)
      modifies pending
      ensures View() == Increment(old(View()), names)
    {
      hide View, Increment, Bumped;
      IncrementNone(View(), names);
      for i := 0 to |pending|
        invariant Tracks(pending, names, now)
        invariant View() == Increment(old(View()), names[..i])
      {
        IncrementNext(old(View()), names, i);
        assert Tracked(pending[i], names[i], now);
        CountOne(pending[i], names[i], now, pending, names);
      }
      assert names[..|names|] == names;
    }

    method CountRejection(policy: string)
      modifies this`rejected, this`rejectedByPolicy
      ensures rejected == old(rejected) + 1 && View() == old(View())
      ensures rejectedByPolicy == old(rejectedByPolicy)[policy := Tally(old(rejectedByPolicy), policy) + 1]
    {
      rejected := rejected + 1;
      rejectedByPolicy := rejectedByPolicy[policy := Tally(rejectedByPolicy, policy) + 1];
    }

    /** The state of phase 1 after the buckets `ks`. */
    ghost predicate Checking(before: Counts, ks: seq<Key>, call: Call, victims: seq<Key>, pending: seq<Counter>, names: seq<Option<Key>>, waitFor: int)
      reads this, buckets.Values, pending
    {
      && Injective() && capacity == call.capacity >= 1 && |victims| == |ks|
      && GoodVictims(before, ks, call, victims)
      && Check(before, ks, call, victims) == Checked(View(), names, waitFor, false)
      && Tracks(pending, names, call.now)
    }

    /** One bucket of phase 1: `c` becomes `CheckOne` of it. */
    method CheckBucket(key: Key, now: int, failClosed: bool, waitFor: int, pending: seq<Counter>, ghost call: Call, ghost names: seq<Option<Key>>)
      returns (full: bool, waitFor': int, pending': seq<Counter>, ghost victim: Key, ghost names': seq<Option<Key>>)
      requires Injective() && capacity >= 1 && call == Call(now, capacity, failClosed) && key.window > 0 && Tracks(pending, names, now)
      modifies this`buckets
      ensures Injective()
      ensures RoomFor(old(View()), key, call) == Evicts ==> GoodVictim(Reclaimed(old(View()), key, call), victim)
      ensures CheckOne(Checked(old(View()), names, waitFor, false), key, call, victim) == Checked(View(), names', waitFor', full)
      ensures !full ==> Tracks(pending', names', now)
      ensures forall d :: d in buckets ==> (d in old(buckets) && buckets[d] == old(buckets[d])) || fresh(buckets[d])
      ensures forall c :: c in pending' ==> c in pending || c in buckets.Values
    {
      hide Materialised, RoomFor, Reclaimed, CheckOne;
      full, waitFor', pending' := false, waitFor, pending;
      ghost var counts := View();
      var c, v, room := MaterialiseHolding(key, now, failClosed, pending, names);
      victim, names' := v, if room == Evicts then Orphan(names, v) else names;
      CheckOneFrom(Checked(counts, names, waitFor, false), key, call, v);
      if c == null {
        full, waitFor' := true, RetryAfter(now, now + key.window);
      } else {
        var counter: Counter := c;
        if counter.count >= key.limit {
          var wait := RetryAfter(now, counter.resetAt);
          if wait > waitFor { waitFor' := wait; }
        } else {
          pending', names' := pending + [counter], names' + [Some(key)];
        }
      }
    }

    /** Phase 1, up to the first bucket that finds the store full. */
    method CheckAll(p: Policy, keys: map<BucketType, string>, now: int, ghost call: Call)
      returns (full: bool, waitFor: int, pending: seq<Counter>, ghost ks: seq<Key>, ghost victims: seq<Key>, ghost names: seq<Option<Key>>)
      requires capacity >= 1 && Injective() && call == Call(now, capacity, p.failClosed)
      modifies this`buckets
      ensures ks <= Applicable(p.name, p.buckets, keys) && |victims| == |ks| && Injective()
      ensures GoodVictims(old(View()), ks, call, victims)
      ensures full || ks == Applicable(p.name, p.buckets, keys)
      ensures Check(old(View()), ks, call, victims) == Checked(View(), names, waitFor, full)
      ensures !full ==> Tracks(pending, names, now)
      ensures forall d :: d in buckets ==> buckets[d] in old(buckets.Values) || fresh(buckets[d])
      ensures forall c :: c in pending ==> c in old(buckets.Values) || fresh(c)
    {
      hide CheckOne, RoomFor, Reclaimed, Check, GoodVictims, Applicable;
      ghost var before := View();
      CheckNone(before, call, p, keys);
      full, waitFor, pending, ks, victims, names := false, 0, [], [], [], [];
      assert p.buckets[..|p.buckets|] == p.buckets;
      for i := 0 to |p.buckets|
        invariant ks == Applicable(p.name, p.buckets[..i], keys) && !full
        invariant Checking(before, ks, call, victims, pending, names, waitFor)
        invariant forall d :: d in buckets ==> buckets[d] in old(buckets.Values) || fresh(buckets[d])
        invariant forall c :: c in pending ==> c in old(buckets.Values) || fresh(c)
      {
        var spec := p.buckets[i];
        ApplicableNext(p, i, keys);
        if Skipped(spec, keys) { continue; }
        var key := KeyOf(p.name, spec, keys);
        ghost var victim: Key;
        full, waitFor, pending, victim, names := CheckBucket(key, now, p.failClosed, waitFor, pending, call, names);
        CheckAppend(before, ks, key, call, victims, victim);
        ks, victims := ks + [key], victims + [victim];
        if full {
          ApplicablePrefix(p.name, p.buckets, i + 1, keys);
          return;
        }
      }
    }

    /** The two phases, without the bookkeeping of rejections. */
    method Admit(p: Policy, keys: map<BucketType, string>, now: int)
      returns (allowed: bool, retryAfter: int, ghost ks: seq<Key>, ghost call: Call, ghost victims: seq<Key>)
      requires Valid()
      modifies this`buckets, buckets.Values
      ensures Valid() && call == Call(now, capacity, p.failClosed)
      ensures ks <= Applicable(p.name, p.buckets, keys) && |victims| == |ks|
      ensures GoodVictims(old(View()), ks, call, victims)
      ensures ks == Applicable(p.name, p.buckets, keys) || Check(old(View()), ks, call, victims).full
      ensures Decide(old(View()), ks, call, victims) == Verdict(View(), allowed, retryAfter)
    {
      hide Check, GoodVictims, Decide, Applicable, Increment, View, Tracks;
      ViewSize();
      call := Call(now, capacity, p.failClosed);
      var full, waitFor, pending;
      ghost var names;
      full, waitFor, pending, ks, victims, names := CheckAll(p, keys, now, call);
      CheckFits(old(View()), ks, call, victims);
      ViewSize();
      DecideFrom(old(View()), ks, call, victims);
      if full || waitFor > 0 { return false, waitFor, ks, call, victims; }
      CountAll(pending, names, now);
      ViewSize();
      return true, 0, ks, call, victims;
    }

    /** Evaluates one request against the counters of all buckets that it carries. */
    method Allow(p: Policy, keys: map<BucketType, string>, now: int)
      returns (allowed: bool, retryAfter: int, ghost call: Call, ghost victims: seq<Key>)
      requires Valid()
      modifies this, buckets.Values
      ensures Valid() && capacity == old(capacity) && call == Call(now, capacity, p.failClosed)
      ensures |victims| == |Applicable(p.name, p.buckets, keys)|
      ensures GoodVictims(old(View()), Applicable(p.name, p.buckets, keys), call, victims)
      ensures Decide(old(View()), Applicable(p.name, p.buckets, keys), call, victims) == Verdict(View(), allowed, retryAfter)
      ensures allowed ==> rejected == old(rejected) && rejectedByPolicy == old(rejectedByPolicy)
      ensures !allowed ==> rejected == old(rejected) + 1
                           && rejectedByPolicy == old(rejectedByPolicy)[p.name := Tally(old(rejectedByPolicy), p.name) + 1]
    {
      hide Check, GoodVictims, Decide, Applicable, View, Tally;
      ghost var ks, looked;
      allowed, retryAfter, ks, call, looked := Admit(p, keys, now);
      victims := FullStaysFull(old(View()), ks, call, looked, Applicable(p.name, p.buckets, keys));
      DecideFrom(old(View()), ks, call, looked);
      DecideFrom(old(View()), Applicable(p.name, p.buckets, keys), call, victims);
      if !allowed { CountRejection(p.name); }
    }

    /** A new bound takes effect at once: counters over it go, one soonest-expiring
        victim at a time, and no more than that. */
    method SetStoreCapacity(bound: int) returns (ghost victims: seq<Key>)
      requires Injective()
      modifies this`buckets, this`capacity
      ensures Valid() && capacity == if bound <= 0 then DEFAULT_CAPACITY else bound
      ensures EvictsInTurn(old(View()), victims) && View() == Evicted(old(View()), victims)
      ensures |View()| == if old(|View()|) <= capacity then old(|View()|) else capacity
    {
      ViewSize();
      capacity := if bound <= 0 then DEFAULT_CAPACITY else bound;
      assert View() == old(View());
      hide GoodVictim, EvictsInTurn, Evicted, View;
      victims := [];
      EvictNone(View());
      while |buckets| > capacity
        invariant Injective() && EvictsInTurn(old(View()), victims) && View() == Evicted(old(View()), victims)
        invariant capacity == if bound <= 0 then DEFAULT_CAPACITY else bound
        invariant |buckets| == old(|buckets|) || capacity <= |buckets| < old(|buckets|)
        decreases |buckets|
      {
        assert buckets != map[];
        ghost var victim := EvictExpiringLocked();
        assert victim.Some?;
        EvictOneMore(old(View()), victims, victim.value);
        victims := victims + [victim.value];
      }
      ViewSize();
    }
  }
}
