/** backend/internal/middleware/limiter.go: the bounded store of fixed-window counters
    and its check-all-then-increment admission. Times are nanoseconds. */
module Limiter {
  import opened Ordering

  const SECOND := 1_000_000_000
  const SAMPLE := 256

  datatype BucketType = Route | Global | TrustedIP | Identity | User
  datatype BucketSpec = BucketSpec(kind: BucketType, limit: int, window: int)
  datatype Policy = Policy(name: string, buckets: seq<BucketSpec>, failClosed: bool)

  /** The composite key of one counter. */
  datatype Key = Key(policy: string, kind: BucketType, limit: int, window: int, key: string)

  datatype Count = Count(count: int, resetAt: int)
  type Counts = map<Key, Count>

  predicate Positive(ks: seq<Key>) {
    forall i :: 0 <= i < |ks| ==> ks[i].limit > 0 && ks[i].window > 0
  }

  predicate Skipped(spec: BucketSpec, keys: map<BucketType, string>) {
    spec.kind !in keys || keys[spec.kind] == "" || spec.limit <= 0 || spec.window <= 0
  }

  function KeyOf(policy: string, spec: BucketSpec, keys: map<BucketType, string>): Key
    requires !Skipped(spec, keys)
  {
    Key(policy, spec.kind, spec.limit, spec.window, keys[spec.kind])
  }

  /** The counters a request is measured against, in policy order. */
  function Applicable(policy: string, buckets: seq<BucketSpec>, keys: map<BucketType, string>): (ks: seq<Key>)
    ensures Positive(ks)
  {
    if buckets == [] then []
    else
      var spec, rest := buckets[|buckets| - 1], Applicable(policy, buckets[..|buckets| - 1], keys);
      if Skipped(spec, keys) then rest else rest + [KeyOf(policy, spec, keys)]
  }

  predicate Live(counts: Counts, k: Key, now: int) {
    k in counts && now < counts[k].resetAt
  }

  function Sweep(counts: Counts, now: int): Counts {
    map k | k in counts && now < counts[k].resetAt :: counts[k]
  }

  /** Rounded up to whole seconds, at least one. */
  function RetryAfter(now: int, resetAt: int): (wait: int)
    ensures wait >= SECOND && wait >= resetAt - now && wait % SECOND == 0
    ensures resetAt - now > SECOND ==> wait < resetAt - now + SECOND
  {
    var seconds := (resetAt - now + SECOND - 1) / SECOND;
    (if seconds < 1 then 1 else seconds) * SECOND
  }

  lemma SplitLast<T>(s: seq<T>)
    requires s != []
    ensures s == s[..|s| - 1] + [s[|s| - 1]]
  {
  }

  // ---- Phase 1: materialise every counter, without counting ----

  /** What one call sees: the clock, the store's bound, and the policy's mode. */
  datatype Call = Call(now: int, capacity: int, failClosed: bool)

  datatype Room = Free | Full | Evicts

  /** The counters after making room for a fresh `k`. */
  function Reclaimed(counts: Counts, k: Key, call: Call): Counts {
    if |counts - {k}| >= call.capacity then Sweep(counts - {k}, call.now) else counts - {k}
  }

  function RoomFor(counts: Counts, k: Key, call: Call): Room {
    if Live(counts, k, call.now) || |Reclaimed(counts, k, call)| < call.capacity then Free
    else if call.failClosed then Full else Evicts
  }

  /** The counters with room made for `k`; `victim` is the one evicted, if any. */
  function MadeRoom(counts: Counts, k: Key, call: Call, victim: Key): Counts {
    var free := Reclaimed(counts, k, call);
    if RoomFor(counts, k, call) == Evicts then free - {victim} else free
  }

  /** The counters once `k` is live, or without it when there is no room. */
  function Materialised(counts: Counts, k: Key, call: Call, victim: Key): Counts {
    if Live(counts, k, call.now) then counts
    else if RoomFor(counts, k, call) == Full then MadeRoom(counts, k, call, victim)
    else MadeRoom(counts, k, call, victim)[k := Count(0, call.now + k.window)]
  }

  lemma MadeRoomKeepsLive(counts: Counts, k: Key, call: Call, victim: Key)
    requires !Live(counts, k, call.now)
    ensures var after := MadeRoom(counts, k, call, victim);
            && (forall d :: Live(counts, d, call.now) && !(RoomFor(counts, k, call) == Evicts && d == victim) ==> d in after)
            && (RoomFor(counts, k, call) == Evicts ==> victim !in after)
  {
  }

  /** `pending` names, per bucket that passed, the counter to increment, or None when
      that counter has been evicted since and is only held by this call. */
  datatype Checked = Checked(counts: Counts, pending: seq<Option<Key>>, wait: int, full: bool)

  function Orphan(pending: seq<Option<Key>>, victim: Key): (r: seq<Option<Key>>)
    ensures |r| == |pending|
  {
    seq(|pending|, i requires 0 <= i < |pending| => if pending[i] == Some(victim) then None else pending[i])
  }

  function CheckOne(c: Checked, k: Key, call: Call, victim: Key): Checked {
    var room := RoomFor(c.counts, k, call);
    var counts := Materialised(c.counts, k, call, victim);
    var pending := if room == Evicts then Orphan(c.pending, victim) else c.pending;
    if room == Full then Checked(counts, pending, RetryAfter(call.now, call.now + k.window), true)
    else if counts[k].count >= k.limit then
      var wait := RetryAfter(call.now, counts[k].resetAt);
      Checked(counts, pending, if wait > c.wait then wait else c.wait, false)
    else Checked(counts, pending + [Some(k)], c.wait, false)
  }

  /** `victims[i]` is the counter evicted for the i-th bucket, where one has to go. */
  function Check(counts: Counts, ks: seq<Key>, call: Call, victims: seq<Key>): Checked
    requires |victims| == |ks|
  {
    if ks == [] then Checked(counts, [], 0, false)
    else
      var c := Check(counts, ks[..|ks| - 1], call, victims[..|ks| - 1]);
      if c.full then c else CheckOne(c, ks[|ks| - 1], call, victims[|ks| - 1])
  }

  // ---- Phase 2: count the request everywhere, or nowhere ----

  function Increment(counts: Counts, pending: seq<Option<Key>>): (r: Counts)
    ensures r.Keys == counts.Keys
  {
    if pending == [] then counts
    else
      var k, rest := pending[|pending| - 1], Increment(counts, pending[..|pending| - 1]);
      if k.Some? && k.value in rest then rest[k.value := rest[k.value].(count := rest[k.value].count + 1)] else rest
  }

  datatype Verdict = Verdict(counts: Counts, allowed: bool, retryAfter: int)

  function Decide(counts: Counts, ks: seq<Key>, call: Call, victims: seq<Key>): Verdict
    requires |victims| == |ks|
  {
    var c := Check(counts, ks, call, victims);
    if c.full || c.wait > 0 then Verdict(c.counts, false, c.wait)
    else Verdict(Increment(c.counts, c.pending), true, 0)
  }

  /** An eviction removes a counter that is there, none in a sample of up to SAMPLE
      counters expiring sooner. */
  ghost predicate GoodVictim(free: Counts, victim: Key) {
    exists sample: set<Key> :: InSample(free, victim, sample)
  }

  ghost predicate InSample(free: Counts, victim: Key, sample: set<Key>) {
    && victim in sample && sample <= free.Keys && |sample| == (if |free| < SAMPLE then |free| else SAMPLE)
    && forall k :: k in sample ==> free[victim].resetAt <= free[k].resetAt
  }

  ghost predicate GoodVictims(counts: Counts, ks: seq<Key>, call: Call, victims: seq<Key>)
    requires |victims| == |ks|
  {
    ks == [] || (
      var n := |ks| - 1;
      var c := Check(counts, ks[..n], call, victims[..n]);
      && GoodVictims(counts, ks[..n], call, victims[..n])
      && (!c.full && RoomFor(c.counts, ks[n], call) == Evicts ==> GoodVictim(Reclaimed(c.counts, ks[n], call), victims[n]))
    )
  }

  /** One more bucket. */
  lemma CheckAppend(counts: Counts, ks: seq<Key>, k: Key, call: Call, victims: seq<Key>, victim: Key)
    requires |victims| == |ks| && !Check(counts, ks, call, victims).full
    requires GoodVictims(counts, ks, call, victims)
    requires RoomFor(Check(counts, ks, call, victims).counts, k, call) == Evicts
             ==> GoodVictim(Reclaimed(Check(counts, ks, call, victims).counts, k, call), victim)
    ensures Check(counts, ks + [k], call, victims + [victim]) == CheckOne(Check(counts, ks, call, victims), k, call, victim)
    ensures GoodVictims(counts, ks + [k], call, victims + [victim])
  {
    Prefix(ks, k);
    Prefix(victims, victim);
  }

  lemma Prefix<T>(s: seq<T>, x: T)
    ensures (s + [x])[..|s + [x]| - 1] == s
  {
  }

  lemma {:induction false} ApplicablePrefix(policy: string, buckets: seq<BucketSpec>, i: nat, keys: map<BucketType, string>)
    requires i <= |buckets|
    ensures Applicable(policy, buckets[..i], keys) <= Applicable(policy, buckets, keys)
  {
    if i == |buckets| {
      assert buckets[..i] == buckets;
    } else {
      var shorter := buckets[..|buckets| - 1];
      assert shorter[..i] == buckets[..i];
      ApplicablePrefix(policy, shorter, i, keys);
    }
  }

  /** The request has something to count for the bucket, and the bucket can count. */
  predicate Carries(spec: BucketSpec, keys: map<BucketType, string>) {
    spec.limit > 0 && spec.window > 0 && spec.kind in keys && keys[spec.kind] != ""
  }

  /** `at` lists the buckets that are carried, in order, and `ks` has a key for each. */
  ghost predicate Lists(policy: string, buckets: seq<BucketSpec>, keys: map<BucketType, string>, at: seq<nat>, ks: seq<Key>) {
    && |at| == |ks| && (forall m, n :: 0 <= m < n < |at| ==> at[m] < at[n])
    && (forall n :: 0 <= n < |at| ==> at[n] < |buckets|)
    && (forall i :: 0 <= i < |buckets| && Carries(buckets[i], keys) ==> i in at)
    && (forall n :: 0 <= n < |at| ==> ListedAt(policy, buckets, keys, at[n], ks[n]))
  }

  ghost predicate ListedAt(policy: string, buckets: seq<BucketSpec>, keys: map<BucketType, string>, i: nat, k: Key) {
    i < |buckets| && Carries(buckets[i], keys)
    && var spec := buckets[i]; k == Key(policy, spec.kind, spec.limit, spec.window, keys[spec.kind])
  }

  lemma ListsOneMore(policy: string, buckets: seq<BucketSpec>, keys: map<BucketType, string>, at: seq<nat>, ks: seq<Key>, k: Key)
    requires buckets != [] && Lists(policy, buckets[..|buckets| - 1], keys, at, ks)
    requires Carries(buckets[|buckets| - 1], keys) ==> ListedAt(policy, buckets, keys, |buckets| - 1, k)
    ensures if Carries(buckets[|buckets| - 1], keys) then Lists(policy, buckets, keys, at + [|buckets| - 1], ks + [k]) else Lists(policy, buckets, keys, at, ks)
  {
    var i := |buckets| - 1;
    hide Carries;
    forall n | 0 <= n < |at| ensures at[n] < i && ListedAt(policy, buckets, keys, at[n], ks[n]) {
      assert ListedAt(policy, buckets[..i], keys, at[n], ks[n]);
    }
    forall j | 0 <= j < i && Carries(buckets[j], keys) ensures j in at { assert buckets[..i][j] == buckets[j]; }
    hide ListedAt;
    assert forall j :: j in at ==> j in at + [i];
    assert i in at + [i];
  }

  /** A request is measured against one counter per bucket that it carries, in the order
      of the policy. */
  lemma {:induction false} ApplicableExactly(policy: string, buckets: seq<BucketSpec>, keys: map<BucketType, string>) returns (at: seq<nat>)
    ensures var ks := Applicable(policy, buckets, keys);
            && |at| == |ks| && (forall m, n :: 0 <= m < n < |at| ==> at[m] < at[n])
            && (forall n :: 0 <= n < |at| ==> at[n] < |buckets|)
            && (forall i :: 0 <= i < |buckets| && Carries(buckets[i], keys) ==> i in at)
            && (forall n :: 0 <= n < |at| ==> ListedAt(policy, buckets, keys, at[n], ks[n]))
  {
    if buckets == [] {
      at := [];
    } else {
      var i := |buckets| - 1;
      var rest := ApplicableExactly(policy, buckets[..i], keys);
      var spec := buckets[i];
      at := if Carries(spec, keys) then rest + [i] else rest;
      var k := if Carries(spec, keys) then Key(policy, spec.kind, spec.limit, spec.window, keys[spec.kind]) else Key("", Route, 0, 0, "");
      assert Applicable(policy, buckets, keys) == Applicable(policy, buckets[..i], keys) + if Carries(spec, keys) then [k] else [];
      assert Lists(policy, buckets[..i], keys, rest, Applicable(policy, buckets[..i], keys)) by { hide Applicable, Carries, ListedAt; }
      hide Applicable;
      ListsOneMore(policy, buckets, keys, rest, Applicable(policy, buckets[..i], keys), k);
    }
  }

  lemma ApplicableIff(policy: string, buckets: seq<BucketSpec>, keys: map<BucketType, string>, k: Key)
    ensures k in Applicable(policy, buckets, keys) <==>
            exists spec :: spec in buckets && Carries(spec, keys) && k == Key(policy, spec.kind, spec.limit, spec.window, keys[spec.kind])
  {
    var at := ApplicableExactly(policy, buckets, keys);
    var ks := Applicable(policy, buckets, keys);
    if k in ks {
      var n :| 0 <= n < |ks| && ks[n] == k;
      assert ListedAt(policy, buckets, keys, at[n], ks[n]) && buckets[at[n]] in buckets;
    }
    if spec :| spec in buckets && Carries(spec, keys) && k == Key(policy, spec.kind, spec.limit, spec.window, keys[spec.kind]) {
      var i :| 0 <= i < |buckets| && buckets[i] == spec;
      var n :| 0 <= n < |at| && at[n] == i;
      assert ListedAt(policy, buckets, keys, at[n], ks[n]) && ks[n] == k;
    }
  }

  /** Buckets after the one that found the store full make no difference. */
  lemma {:induction false} FullStaysFull(counts: Counts, ks: seq<Key>, call: Call, victims: seq<Key>, all: seq<Key>) returns (padded: seq<Key>)
    requires |victims| == |ks| && ks <= all && (ks == all || Check(counts, ks, call, victims).full) && GoodVictims(counts, ks, call, victims)
    ensures victims <= padded && |padded| == |all| && GoodVictims(counts, all, call, padded)
    ensures Check(counts, all, call, padded) == Check(counts, ks, call, victims)
    decreases |all| - |ks|
  {
    if ks == all {
      padded := victims;
    } else {
      var k := all[|ks|];
      Prefix(ks, k);
      Prefix(victims, k);
      assert ks + [k] <= all;
      padded := FullStaysFull(counts, ks + [k], call, victims + [k], all);
    }
  }

  // ---- The store never exceeds its capacity ----

  lemma SubsetSize<T>(a: set<T>, b: set<T>)
    requires a <= b
    ensures |a| <= |b|
  {
    assert b == a + (b - a);
  }

  lemma KeysSize(counts: Counts)
    ensures |counts| == |counts.Keys|
  {
  }

  lemma MapSizes(counts: Counts, k: Key, now: int)
    ensures |counts - {k}| == |counts| - (if k in counts then 1 else 0)
    ensures |Sweep(counts, now)| <= |counts|
  {
    assert (counts - {k}).Keys == counts.Keys - {k};
    assert Sweep(counts, now).Keys <= counts.Keys;
    KeysSize(counts); KeysSize(counts - {k}); KeysSize(Sweep(counts, now));
    SubsetSize(Sweep(counts, now).Keys, counts.Keys);
  }

  lemma MaterialisedFits(counts: Counts, k: Key, call: Call, victim: Key)
    requires |counts| <= call.capacity && call.capacity >= 1
    requires RoomFor(counts, k, call) == Evicts ==> victim in Reclaimed(counts, k, call)
    ensures |Materialised(counts, k, call, victim)| <= call.capacity
  {
    MapSizes(counts, k, call.now);
    MapSizes(counts - {k}, k, call.now);
    var free := Reclaimed(counts, k, call);
    assert |free| <= call.capacity;
    MapSizes(free, victim, call.now);
    assert k !in free;
    assert |free[k := Count(0, call.now + k.window)]| == |free| + 1;
    if k !in free - {victim} {
      assert |(free - {victim})[k := Count(0, call.now + k.window)]| == |free - {victim}| + 1;
    }
  }

  lemma {:induction false} CheckFits(counts: Counts, ks: seq<Key>, call: Call, victims: seq<Key>)
    requires |victims| == |ks| && |counts| <= call.capacity && call.capacity >= 1
    requires GoodVictims(counts, ks, call, victims)
    ensures |Check(counts, ks, call, victims).counts| <= call.capacity
  {
    hide Materialised, Reclaimed;
    if ks != [] {
      var n := |ks| - 1;
      CheckFits(counts, ks[..n], call, victims[..n]);
      var c := Check(counts, ks[..n], call, victims[..n]);
      if !c.full { MaterialisedFits(c.counts, ks[n], call, victims[n]); }
    }
  }

  /** No call takes the store over its bound. */
  lemma NeverOverCapacity(counts: Counts, ks: seq<Key>, call: Call, victims: seq<Key>)
    requires |victims| == |ks| && |counts| <= call.capacity && call.capacity >= 1
    requires GoodVictims(counts, ks, call, victims)
    ensures |Decide(counts, ks, call, victims).counts| <= call.capacity
  {
    CheckFits(counts, ks, call, victims);
    var c := Check(counts, ks, call, victims);
    KeysSize(c.counts);
    KeysSize(Increment(c.counts, c.pending));
  }

  // ---- A rejected request consumes nothing ----

  /** Each counter is one the store already had, count unchanged, or a new empty one. */
  ghost predicate OnlyFresh(before: Counts, after: Counts, now: int) {
    forall k :: k in after ==> (k in before && after[k] == before[k]) || after[k] == Count(0, now + k.window)
  }

  lemma CheckOneOnlyFresh(before: Counts, c: Checked, k: Key, call: Call, victim: Key)
    requires OnlyFresh(before, c.counts, call.now)
    ensures OnlyFresh(before, CheckOne(c, k, call, victim).counts, call.now)
  {
    MaterialisedOnlyFresh(before, c.counts, k, call, victim);
  }

  lemma MaterialisedOnlyFresh(before: Counts, counts: Counts, k: Key, call: Call, victim: Key)
    requires OnlyFresh(before, counts, call.now)
    ensures OnlyFresh(before, Materialised(counts, k, call, victim), call.now)
  {
    var after := Materialised(counts, k, call, victim);
    forall d | d in after ensures (d in before && after[d] == before[d]) || after[d] == Count(0, call.now + d.window) {
      assert after[d] == Count(0, call.now + d.window) || (d in counts && after[d] == counts[d]);
    }
  }

  lemma {:induction false} CheckOnlyFresh(counts: Counts, ks: seq<Key>, call: Call, victims: seq<Key>)
    requires |victims| == |ks|
    ensures OnlyFresh(counts, Check(counts, ks, call, victims).counts, call.now)
  {
    if ks != [] {
      var n := |ks| - 1;
      CheckOnlyFresh(counts, ks[..n], call, victims[..n]);
      CheckOneOnlyFresh(counts, Check(counts, ks[..n], call, victims[..n]), ks[n], call, victims[n]);
    }
  }

  /** A rejection increments nothing: no quota is consumed on any bucket. */
  lemma RejectionConsumesNothing(counts: Counts, ks: seq<Key>, call: Call, victims: seq<Key>)
    requires |victims| == |ks| && !Decide(counts, ks, call, victims).allowed
    ensures OnlyFresh(counts, Decide(counts, ks, call, victims).counts, call.now)
  {
    CheckOnlyFresh(counts, ks, call, victims);
  }

  // ---- Waiting as told is enough ----

  /** Any exhausted counter that was checked is reset within the announced wait. */
  ghost predicate WaitCovers(c: Checked, ks: seq<Key>, now: int) {
    forall k :: k in ks && k in c.counts && c.counts[k].count >= k.limit ==> c.counts[k].resetAt - now <= c.wait
  }

  lemma CheckOneWaitCovers(c: Checked, ks: seq<Key>, k: Key, call: Call, victim: Key)
    requires WaitCovers(c, ks, call.now) && k.limit > 0 && !CheckOne(c, k, call, victim).full
    ensures WaitCovers(CheckOne(c, k, call, victim), ks + [k], call.now)
  {
    var r := CheckOne(c, k, call, victim);
    forall d | d in ks + [k] && d in r.counts && r.counts[d].count >= d.limit ensures r.counts[d].resetAt - call.now <= r.wait {
      if d != k { assert d in ks && d in c.counts && r.counts[d] == c.counts[d]; }
    }
  }

  lemma {:induction false} CheckWaitCovers(counts: Counts, ks: seq<Key>, call: Call, victims: seq<Key>)
    requires |victims| == |ks| && !Check(counts, ks, call, victims).full
    requires Positive(ks)
    ensures WaitCovers(Check(counts, ks, call, victims), ks, call.now)
  {
    if ks != [] {
      var n := |ks| - 1;
      SplitLast(ks);
      CheckWaitCovers(counts, ks[..n], call, victims[..n]);
      CheckOneWaitCovers(Check(counts, ks[..n], call, victims[..n]), ks[..n], ks[n], call, victims[n]);
    }
  }

  /** Only an eviction takes a live counter away. */
  lemma CheckOneKeepsLive(c: Checked, k: Key, d: Key, call: Call, victim: Key)
    requires Live(c.counts, d, call.now)
    requires RoomFor(c.counts, k, call) != Evicts || victim != d
    ensures var r := CheckOne(c, k, call, victim).counts; Live(r, d, call.now) && r[d] == c.counts[d]
  {
  }

  ghost predicate AllLive(ks: seq<Key>, counts: Counts, now: int) {
    forall k :: k in ks ==> Live(counts, k, now)
  }

  lemma FailClosedKeepsOne(c: Checked, ks: seq<Key>, k: Key, call: Call, victim: Key)
    requires call.failClosed && k.window > 0 && !CheckOne(c, k, call, victim).full
    requires AllLive(ks, c.counts, call.now)
    ensures AllLive(ks + [k], CheckOne(c, k, call, victim).counts, call.now)
  {
    forall d | d in ks + [k] ensures Live(CheckOne(c, k, call, victim).counts, d, call.now) {
      if d != k { CheckOneKeepsLive(c, k, d, call, victim); }
    }
  }

  /** A fail-closed check that found room keeps every counter it materialised. */
  lemma {:induction false} FailClosedKeepsAll(counts: Counts, ks: seq<Key>, call: Call, victims: seq<Key>)
    requires |victims| == |ks| && call.failClosed && !Check(counts, ks, call, victims).full
    requires Positive(ks)
    ensures AllLive(ks, Check(counts, ks, call, victims).counts, call.now)
  {
    if ks != [] {
      var n := |ks| - 1;
      FailClosedKeepsAll(counts, ks[..n], call, victims[..n]);
      FailClosedKeepsOne(Check(counts, ks[..n], call, victims[..n]), ks[..n], ks[n], call, victims[n]);
      SplitLast(ks);
    }
  }

  ghost predicate Within(c: Checked, ks: seq<Key>, call: Call, all: set<Key>) {
    && (forall k :: k in ks && Live(c.counts, k, call.now) ==> c.counts[k].count < k.limit)
    && (call.failClosed ==> c.counts.Keys <= all)
  }

  lemma SameWithin(counts: Counts, c: Checked, ks: seq<Key>, call: Call, all: set<Key>)
    requires Within(Checked(counts, [], 0, false), ks, call, all) && c.counts == counts
    ensures Within(c, ks, call, all)
  {
  }

  lemma OneNotExhausted(c: Checked, k: Key, all: set<Key>, call: Call, victim: Key, wanted: seq<Key>)
    requires !c.full && c.wait == 0 && Within(c, wanted, call, all) && k in wanted && Positive(wanted)
    requires call.failClosed ==> |all| <= call.capacity && forall d :: d in wanted ==> d in all
    ensures var r := CheckOne(c, k, call, victim); !r.full && r.wait == 0 && Within(r, wanted, call, all)
  {
    if call.failClosed && !Live(c.counts, k, call.now) {
      var free := Reclaimed(c.counts, k, call);
      assert free.Keys <= all - {k};
      SubsetSize(free.Keys, all - {k});
      KeysSize(free);
      assert all == (all - {k}) + {k};
    }
  }

  /** Nothing checked is exhausted, so the check announces no wait and, given room for
      every missing counter, does not run out of it. */
  lemma {:induction false} NothingExhausted(counts: Counts, ks: seq<Key>, all: set<Key>, call: Call, victims: seq<Key>, wanted: seq<Key>)
    requires |victims| == |ks| && (forall k :: k in ks ==> k in wanted)
    requires Positive(wanted)
    requires Within(Checked(counts, [], 0, false), wanted, call, all)
    requires call.failClosed ==> |all| <= call.capacity && forall k :: k in wanted ==> k in all
    ensures var r := Check(counts, ks, call, victims); !r.full && r.wait == 0 && Within(r, wanted, call, all)
  {
    hide CheckOne, Within, Positive;
    if ks != [] {
      var n := |ks| - 1;
      NothingExhausted(counts, ks[..n], all, call, victims[..n], wanted);
      OneNotExhausted(Check(counts, ks[..n], call, victims[..n]), ks[n], all, call, victims[n], wanted);
    } else {
      SameWithin(counts, Check(counts, ks, call, victims), wanted, call, all);
    }
  }

  /** What periodic sweeps up to time `now` can have done to the store. */
  ghost predicate SweptBy(before: Counts, after: Counts, now: int) {
    && (forall k :: k in after ==> k in before && after[k] == before[k])
    && (forall k :: k in before && k !in after ==> before[k].resetAt <= now)
  }

  /** What a call that was rejected for a limit leaves behind. */
  lemma LimitRejectionFacts(counts: Counts, ks: seq<Key>, call: Call, victims: seq<Key>)
    requires |victims| == |ks| && |counts| <= call.capacity && call.capacity >= 1 && Positive(ks)
    requires GoodVictims(counts, ks, call, victims) && !Check(counts, ks, call, victims).full
    ensures var c := Check(counts, ks, call, victims);
            && WaitCovers(c, ks, call.now) && |c.counts.Keys| <= call.capacity
            && (call.failClosed ==> forall k :: k in ks ==> k in c.counts.Keys)
  {
    CheckWaitCovers(counts, ks, call, victims);
    CheckFits(counts, ks, call, victims);
    KeysSize(Check(counts, ks, call, victims).counts);
    if call.failClosed { FailClosedKeepsAll(counts, ks, call, victims); }
  }

  /** After a rejection for a limit, the same request repeated when the announced wait
      is over, with only sweeps in between, is admitted. */
  lemma RetryAfterTheWaitIsAdmitted(counts: Counts, ks: seq<Key>, call: Call, victims: seq<Key>, rejected: Verdict, later: Counts, retry: Call, victims': seq<Key>)
    requires |victims| == |ks| == |victims'| && |counts| <= call.capacity && call.capacity >= 1 && Positive(ks)
    requires GoodVictims(counts, ks, call, victims) && !Check(counts, ks, call, victims).full
    requires rejected == Decide(counts, ks, call, victims) && !rejected.allowed
    requires retry == Call(call.now + rejected.retryAfter, call.capacity, call.failClosed) && SweptBy(rejected.counts, later, retry.now)
    ensures Decide(later, ks, retry, victims').allowed
  {
    var c := Check(counts, ks, call, victims);
    assert rejected == Verdict(c.counts, false, c.wait);
    LimitRejectionFacts(counts, ks, call, victims);
    AdmittedOnceReset(c, later, ks, retry, call.now, victims');
  }

  lemma AdmittedOnceReset(c: Checked, later: Counts, ks: seq<Key>, call: Call, before: int, victims: seq<Key>)
    requires |victims| == |ks| && Positive(ks) && call.now == before + c.wait
    requires WaitCovers(c, ks, before) && SweptBy(c.counts, later, call.now)
    requires call.failClosed ==> |c.counts.Keys| <= call.capacity && forall k :: k in ks ==> k in c.counts.Keys
    ensures Decide(later, ks, call, victims).allowed
  {
    RetryFindsNothingExhausted(c, later, ks, call, before);
    NothingExhausted(later, ks, c.counts.Keys, call, victims, ks);
  }

  lemma RetryFindsNothingExhausted(c: Checked, later: Counts, ks: seq<Key>, call: Call, before: int)
    requires WaitCovers(c, ks, before) && call.now == before + c.wait && SweptBy(c.counts, later, call.now)
    ensures Within(Checked(later, [], 0, false), ks, call, c.counts.Keys)
  {
  }
}
