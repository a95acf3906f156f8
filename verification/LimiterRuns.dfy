/** backend/internal/middleware/limiter.go seen from its callers: whole runs of allow calls
    with policies and request keys, and when a call is refused. */
module LimiterRuns {
  import opened Ordering
  import opened Limiter
  import opened LimiterWindow

  /** A call of allow, with the victims of its evictions, or the periodic sweep. */
  datatype Arrival =
    | Arrives(policy: Policy, keys: map<BucketType, string>, call: Call, victims: seq<Key>)
    | Cleaned(now: int)

  function KeysOf(a: Arrival): seq<Key>
    requires a.Arrives?
  {
    Applicable(a.policy.name, a.policy.buckets, a.keys)
  }

  /** No policy has a bucket twice (backend/internal/config/config.go:292-297). */
  ghost predicate Proper(a: Arrival) {
    a.Arrives? ==>
      |a.victims| == |KeysOf(a)| && forall i, j :: 0 <= i < j < |a.policy.buckets| ==> a.policy.buckets[i] != a.policy.buckets[j]
  }

  function EventOf(a: Arrival): Event {
    if a.Arrives? then Request(KeysOf(a), a.call, a.victims) else Tick(a.now)
  }

  function Events(arrivals: seq<Arrival>): seq<Event> {
    seq(|arrivals|, i requires 0 <= i < |arrivals| => EventOf(arrivals[i]))
  }

  lemma ProperIsWellFormed(a: Arrival)
    requires Proper(a)
    ensures WellFormed(EventOf(a))
  {
    if a.Arrives? {
      var ks := KeysOf(a);
      var at := ApplicableExactly(a.policy.name, a.policy.buckets, a.keys);
      forall m, n | 0 <= m < n < |ks| ensures ks[m] != ks[n] {
        assert ListedAt(a.policy.name, a.policy.buckets, a.keys, at[m], ks[m]) && ListedAt(a.policy.name, a.policy.buckets, a.keys, at[n], ks[n]);
        assert a.policy.buckets[at[m]] != a.policy.buckets[at[n]];
      }
    }
  }

  lemma EventsWellFormed(arrivals: seq<Arrival>)
    requires forall a :: a in arrivals ==> Proper(a)
    ensures forall e :: e in Events(arrivals) ==> WellFormed(e)
  {
    forall e | e in Events(arrivals) ensures WellFormed(e) {
      var i :| 0 <= i < |arrivals| && Events(arrivals)[i] == e;
      ProperIsWellFormed(arrivals[i]);
    }
  }

  /** The store after a run from empty. */
  ghost function StoreAfter(arrivals: seq<Arrival>): Counts
    requires forall a :: a in arrivals ==> Proper(a)
  {
    if arrivals == [] then map[]
    else
      var n := |arrivals| - 1;
      ProperIsWellFormed(arrivals[n]);
      After(StoreAfter(arrivals[..n]), EventOf(arrivals[n]))
  }

  ghost predicate Allowed(counts: Counts, a: Arrival)
    requires a.Arrives? && Proper(a)
  {
    Decide(counts, KeysOf(a), a.call, a.victims).allowed
  }

  /** The request is measured by this bucket under this key. */
  predicate MeasuredBy(a: Arrival, name: string, spec: BucketSpec, key: string) {
    a.Arrives? && a.policy.name == name && spec in a.policy.buckets && spec.kind in a.keys && a.keys[spec.kind] == key
  }

  /** The requests admitted for a bucket and key in `from..until`. */
  ghost function AdmittedBetween(arrivals: seq<Arrival>, name: string, spec: BucketSpec, key: string, from: int, until: int): nat
    requires forall a :: a in arrivals ==> Proper(a)
  {
    if arrivals == [] then 0
    else
      var n := |arrivals| - 1;
      AdmittedBetween(arrivals[..n], name, spec, key, from, until)
      + if MeasuredBy(arrivals[n], name, spec, key) && Allowed(StoreAfter(arrivals[..n]), arrivals[n]) && from <= arrivals[n].call.now < until then 1 else 0
  }

  /** The clock does not go back and nothing is evicted for capacity. */
  ghost predicate SteadyRun(arrivals: seq<Arrival>)
    requires forall a :: a in arrivals ==> Proper(a)
  {
    arrivals == [] || (
      var n := |arrivals| - 1;
      && SteadyRun(arrivals[..n])
      && (n > 0 ==> Time(EventOf(arrivals[n - 1])) <= Time(EventOf(arrivals[n])))
      && (Proper(arrivals[n]) && arrivals[n].Arrives? ==> NoEviction(StoreAfter(arrivals[..n]), KeysOf(arrivals[n]), arrivals[n].call, arrivals[n].victims))
    )
  }

  lemma MeasuredIff(a: Arrival, name: string, spec: BucketSpec, key: string)
    requires a.Arrives? && spec.limit > 0 && spec.window > 0 && key != ""
    ensures Key(name, spec.kind, spec.limit, spec.window, key) in KeysOf(a) <==> MeasuredBy(a, name, spec, key)
  {
    var k := Key(name, spec.kind, spec.limit, spec.window, key);
    ApplicableIff(a.policy.name, a.policy.buckets, a.keys, k);
    if k in KeysOf(a) {
      var other :| other in a.policy.buckets && Carries(other, a.keys) && k == Key(a.policy.name, other.kind, other.limit, other.window, a.keys[other.kind]);
      assert other == spec;
    }
  }

  /** An admitted request has all its counters in the store. */
  lemma AdmittedIsStored(counts: Counts, ks: seq<Key>, call: Call, victims: seq<Key>)
    requires |victims| == |ks| && Positive(ks) && NoEviction(counts, ks, call, victims) && Decide(counts, ks, call, victims).allowed
    ensures forall k :: k in ks ==> k in Decide(counts, ks, call, victims).counts
  {
    CheckEffect(counts, ks, call, victims);
    hide Check, NoEviction;
    var c := Check(counts, ks, call, victims);
    forall k | k in ks ensures k in c.counts { assert Live(c.counts, k, call.now); }
  }

  lemma EventsPrefix(arrivals: seq<Arrival>)
    requires arrivals != []
    ensures Events(arrivals)[..|arrivals| - 1] == Events(arrivals[..|arrivals| - 1])
  {
  }

  lemma AdmitsIff(counts: Counts, a: Arrival, name: string, spec: BucketSpec, key: string)
    requires Proper(a) && WellFormed(EventOf(a)) && spec.limit > 0 && spec.window > 0 && key != ""
    requires a.Arrives? ==> NoEviction(counts, KeysOf(a), a.call, a.victims)
    ensures var admitted := Admits(counts, EventOf(a), Key(name, spec.kind, spec.limit, spec.window, key));
            if MeasuredBy(a, name, spec, key) && Allowed(counts, a) then |admitted| == 1 && admitted[0].time == a.call.now else admitted == []
  {
    hide NoEviction, Decide;
    if a.Arrives? {
      MeasuredIff(a, name, spec, key);
      if Allowed(counts, a) { AdmittedIsStored(counts, KeysOf(a), a.call, a.victims); }
    }
  }

  /** The log of a bucket's counter is that of the requests it measured. */
  lemma {:induction false} LogCounts(arrivals: seq<Arrival>, name: string, spec: BucketSpec, key: string, from: int, until: int)
    requires (forall a :: a in arrivals ==> Proper(a)) && SteadyRun(arrivals)
    requires spec.limit > 0 && spec.window > 0 && key != ""
    ensures forall e :: e in Events(arrivals) ==> WellFormed(e)
    ensures var k := Key(name, spec.kind, spec.limit, spec.window, key);
            var w := Run(Events(arrivals), k);
            && Steady(Events(arrivals), k) && w.counts == StoreAfter(arrivals)
            && Between(w.log, from, until) == AdmittedBetween(arrivals, name, spec, key, from, until)
  {
    EventsWellFormed(arrivals);
    if arrivals != [] {
      var n := |arrivals| - 1;
      var k := Key(name, spec.kind, spec.limit, spec.window, key);
      EventsPrefix(arrivals);
      LogCounts(arrivals[..n], name, spec, key, from, until);
      ProperIsWellFormed(arrivals[n]);
      var w := Run(Events(arrivals)[..n], k);
      AdmitsIff(w.counts, arrivals[n], name, spec, key);
      hide After, Admits, NoEviction, Allowed, MeasuredBy;
      var more := Admits(w.counts, EventOf(arrivals[n]), k);
      assert (w.log + more)[..|w.log|] == w.log;
      assert w.log + [] == w.log;
    }
  }

  /** Of the calls of allow in any half-open interval as long as a bucket's window, at
      most twice its limit admit a request with the bucket's key. */
  lemma AllowsAtMostTwiceTheLimit(arrivals: seq<Arrival>, name: string, spec: BucketSpec, key: string, from: int)
    requires (forall a :: a in arrivals ==> Proper(a)) && SteadyRun(arrivals)
    requires spec.limit > 0 && spec.window > 0 && key != ""
    ensures AdmittedBetween(arrivals, name, spec, key, from, from + spec.window) <= 2 * spec.limit
  {
    var k := Key(name, spec.kind, spec.limit, spec.window, key);
    LogCounts(arrivals, name, spec, key, from, from + spec.window);
    AtMostTwiceTheLimit(Events(arrivals), k, from);
  }

  // ---- When a request is refused ----

  /** The counter has let through all it may in its current window. */
  predicate Exhausted(counts: Counts, k: Key, now: int) {
    Live(counts, k, now) && counts[k].count >= k.limit
  }

  lemma MaterialisedCount(counts: Counts, ks: seq<Key>, before: Counts, k: Key, call: Call, victim: Key)
    requires OldOrEmpty(counts, ks, before, call.now) && RoomFor(before, k, call) == Free && k.limit > 0 && k.window > 0
    ensures var after := Materialised(before, k, call, victim); k in after && (after[k].count >= k.limit <==> Exhausted(counts, k, call.now))
  {
  }

  lemma {:induction false} WaitsIffExhausted(counts: Counts, ks: seq<Key>, call: Call, victims: seq<Key>)
    requires |victims| == |ks| && Positive(ks) && NoEviction(counts, ks, call, victims) && !Check(counts, ks, call, victims).full
    ensures Check(counts, ks, call, victims).wait > 0 <==> exists k :: k in ks && Exhausted(counts, k, call.now)
  {
    if ks != [] {
      var n := |ks| - 1;
      SplitLast(ks);
      var c := Check(counts, ks[..n], call, victims[..n]);
      WaitsIffExhausted(counts, ks[..n], call, victims[..n]);
      CheckEffect(counts, ks[..n], call, victims[..n]);
      NotFullIsFree(c, ks[n], call, victims[n]);
      MaterialisedCount(counts, ks[..n], c.counts, ks[n], call, victims[n]);
      CheckOneWaits(c, ks[n], call, victims[n]);
      hide Check, Exhausted, OldOrEmpty, NoEviction, CheckOne, Materialised;
      assert forall k :: k in ks <==> k in ks[..n] || k == ks[n];
    }
  }

  lemma NotFullIsFree(c: Checked, k: Key, call: Call, victim: Key)
    requires !CheckOne(c, k, call, victim).full && RoomFor(c.counts, k, call) != Evicts
    ensures RoomFor(c.counts, k, call) == Free
  {
  }

  lemma CheckOneWaits(c: Checked, k: Key, call: Call, victim: Key)
    requires RoomFor(c.counts, k, call) == Free && c.wait >= 0
    ensures var after := Materialised(c.counts, k, call, victim);
            k in after && (CheckOne(c, k, call, victim).wait > 0 <==> c.wait > 0 || after[k].count >= k.limit)
  {
  }

  /** With room for its counters, a request is admitted exactly if none of the buckets
      that measure it has let through its limit in its current window. */
  lemma AllowedIffNoneExhausted(counts: Counts, a: Arrival)
    requires a.Arrives? && Proper(a) && NoEviction(counts, KeysOf(a), a.call, a.victims) && !Check(counts, KeysOf(a), a.call, a.victims).full
    ensures Allowed(counts, a) <==>
            forall spec :: spec in a.policy.buckets && Carries(spec, a.keys) ==>
                             !Exhausted(counts, Key(a.policy.name, spec.kind, spec.limit, spec.window, a.keys[spec.kind]), a.call.now)
  {
    var ks, now := KeysOf(a), a.call.now;
    WaitsIffExhausted(counts, ks, a.call, a.victims);
    hide Check, NoEviction, Exhausted;
    forall k ensures k in ks <==> exists spec :: spec in a.policy.buckets && Carries(spec, a.keys) && k == Key(a.policy.name, spec.kind, spec.limit, spec.window, a.keys[spec.kind]) {
      ApplicableIff(a.policy.name, a.policy.buckets, a.keys, k);
    }
    forall spec | spec in a.policy.buckets && Carries(spec, a.keys)
      ensures Key(a.policy.name, spec.kind, spec.limit, spec.window, a.keys[spec.kind]) in ks {}
  }

  /** The wait of a refusal is that of the exhausted bucket that resets last, in whole
      seconds, and no longer. */
  lemma {:induction false} WaitIsLongestReset(counts: Counts, ks: seq<Key>, call: Call, victims: seq<Key>)
    requires |victims| == |ks| && Positive(ks) && NoEviction(counts, ks, call, victims) && !Check(counts, ks, call, victims).full
    ensures var wait := Check(counts, ks, call, victims).wait;
            && (forall k :: k in ks && Exhausted(counts, k, call.now) ==> RetryAfter(call.now, counts[k].resetAt) <= wait)
            && (wait > 0 ==> exists k :: k in ks && Exhausted(counts, k, call.now) && wait == RetryAfter(call.now, counts[k].resetAt))
  {
    if ks != [] {
      var n := |ks| - 1;
      SplitLast(ks);
      var c := Check(counts, ks[..n], call, victims[..n]);
      WaitIsLongestReset(counts, ks[..n], call, victims[..n]);
      CheckEffect(counts, ks[..n], call, victims[..n]);
      NotFullIsFree(c, ks[n], call, victims[n]);
      MaterialisedCount(counts, ks[..n], c.counts, ks[n], call, victims[n]);
      CheckOneWait(c, ks[n], call, victims[n]);
      ExhaustedReset(counts, ks[..n], c.counts, ks[n], call, victims[n]);
      hide Check, Exhausted, OldOrEmpty, NoEviction, CheckOne, Materialised, RetryAfter;
      assert forall k :: k in ks <==> k in ks[..n] || k == ks[n];
    }
  }

  lemma ExhaustedReset(counts: Counts, ks: seq<Key>, before: Counts, k: Key, call: Call, victim: Key)
    requires OldOrEmpty(counts, ks, before, call.now) && RoomFor(before, k, call) == Free && k.window > 0
    ensures Exhausted(counts, k, call.now) ==> k in Materialised(before, k, call, victim) && Materialised(before, k, call, victim)[k] == counts[k]
  {
  }

  lemma CheckOneWait(c: Checked, k: Key, call: Call, victim: Key)
    requires RoomFor(c.counts, k, call) == Free && c.wait >= 0
    ensures var after, r := Materialised(c.counts, k, call, victim), CheckOne(c, k, call, victim);
            && k in after
            && (after[k].count < k.limit ==> r.wait == c.wait)
            && (after[k].count >= k.limit ==> r.wait >= c.wait && r.wait >= RetryAfter(call.now, after[k].resetAt) && r.wait in {c.wait, RetryAfter(call.now, after[k].resetAt)})
  {
  }

  /** A refusal for lack of room announces a whole window of the bucket that found none. */
  lemma {:induction false} FullAnnouncesAWindow(counts: Counts, ks: seq<Key>, call: Call, victims: seq<Key>)
    requires |victims| == |ks| && Check(counts, ks, call, victims).full
    ensures exists k :: k in ks && !Live(counts, k, call.now) && Check(counts, ks, call, victims).wait == RetryAfter(call.now, call.now + k.window)
  {
    hide RetryAfter, CheckOne, RoomFor, Live;
    var n := |ks| - 1;
    var c := Check(counts, ks[..n], call, victims[..n]);
    if c.full {
      FullAnnouncesAWindow(counts, ks[..n], call, victims[..n]);
      hide Check;
      var k :| k in ks[..n] && !Live(counts, k, call.now) && c.wait == RetryAfter(call.now, call.now + k.window);
      assert k in ks;
    } else {
      CheckOneFull(c, ks[n], call, victims[n]);
      FullMeansNotLive(counts, ks[..n], call, victims[..n], ks[n]);
      assert ks[n] in ks;
    }
  }

  lemma CheckOneFull(c: Checked, k: Key, call: Call, victim: Key)
    ensures CheckOne(c, k, call, victim).full <==> RoomFor(c.counts, k, call) == Full
    ensures CheckOne(c, k, call, victim).full ==> CheckOne(c, k, call, victim).wait == RetryAfter(call.now, call.now + k.window)
  {
  }

  /** Up to a refusal for lack of room a policy that fails closed has kept what was live. */
  lemma {:induction false} FullMeansNotLive(counts: Counts, ks: seq<Key>, call: Call, victims: seq<Key>, k: Key)
    requires |victims| == |ks| && RoomFor(Check(counts, ks, call, victims).counts, k, call) == Full
    ensures !Live(counts, k, call.now)
  {
    if ks != [] {
      KeptWhenClosed(counts, ks, call, victims, k);
    }
  }

  lemma {:induction false} KeptWhenClosed(counts: Counts, ks: seq<Key>, call: Call, victims: seq<Key>, k: Key)
    requires |victims| == |ks| && call.failClosed
    ensures Live(counts, k, call.now) ==> Live(Check(counts, ks, call, victims).counts, k, call.now)
  {
    if ks != [] {
      var n := |ks| - 1;
      KeptWhenClosed(counts, ks[..n], call, victims[..n], k);
      var c := Check(counts, ks[..n], call, victims[..n]);
      ClosedMaterialises(c.counts, ks[n], call, victims[n]);
      CheckOneCounts(c, ks[n], call, victims[n]);
      hide CheckOne, Materialised;
    }
  }

  // ---- When the store is full ----

  /** A policy that fails open is never refused for lack of room. */
  lemma {:induction false} OpenNeverFull(counts: Counts, ks: seq<Key>, call: Call, victims: seq<Key>)
    requires |victims| == |ks| && !call.failClosed
    ensures !Check(counts, ks, call, victims).full
  {
    if ks != [] {
      OpenNeverFull(counts, ks[..|ks| - 1], call, victims[..|ks| - 1]);
    }
  }

  /** One that fails closed evicts nothing that is live, and refuses only when live
      counters, and no others, fill the store. */
  lemma {:induction false} ClosedEvictsNothing(counts: Counts, ks: seq<Key>, call: Call, victims: seq<Key>)
    requires |victims| == |ks| && call.failClosed && |counts| <= call.capacity && call.capacity >= 1
    ensures var c := Check(counts, ks, call, victims);
            && (forall k :: Live(counts, k, call.now) ==> k in c.counts && c.counts[k] == counts[k])
            && |c.counts| <= call.capacity
            && (c.full ==> |c.counts| == call.capacity && forall k :: k in c.counts ==> Live(c.counts, k, call.now))
  {
    if ks != [] {
      var n := |ks| - 1;
      ClosedEvictsNothing(counts, ks[..n], call, victims[..n]);
      var c := Check(counts, ks[..n], call, victims[..n]);
      if !c.full { ClosedKeepsLive(c, ks[n], call, victims[n]); }
    }
  }

  lemma ClosedKeepsLive(c: Checked, k: Key, call: Call, victim: Key)
    requires call.failClosed && |c.counts| <= call.capacity && call.capacity >= 1
    ensures var r := CheckOne(c, k, call, victim);
            && (forall d :: Live(c.counts, d, call.now) ==> d in r.counts && r.counts[d] == c.counts[d])
            && |r.counts| <= call.capacity
            && (r.full ==> |r.counts| == call.capacity && forall d :: d in r.counts ==> Live(r.counts, d, call.now))
  {
    MaterialisedFits(c.counts, k, call, victim);
    CheckOneCounts(c, k, call, victim);
    ClosedMaterialises(c.counts, k, call, victim);
    assert CheckOne(c, k, call, victim).full ==> RoomFor(c.counts, k, call) == Full by { hide Materialised, RoomFor; }
    if RoomFor(c.counts, k, call) == Full { FullOfLive(c.counts, k, call, victim); }
    hide CheckOne, Materialised, RoomFor;
  }

  lemma ClosedMaterialises(counts: Counts, k: Key, call: Call, victim: Key)
    requires call.failClosed
    ensures forall d :: Live(counts, d, call.now) ==> d in Materialised(counts, k, call, victim) && Materialised(counts, k, call, victim)[d] == counts[d]
  {
  }

  lemma FullOfLive(counts: Counts, k: Key, call: Call, victim: Key)
    requires RoomFor(counts, k, call) == Full
    ensures var after := Materialised(counts, k, call, victim); |after| >= call.capacity && forall d :: d in after ==> Live(after, d, call.now)
  {
    var free := Reclaimed(counts, k, call);
    assert Materialised(counts, k, call, victim) == free && |free| >= call.capacity;
    if |counts - {k}| < call.capacity { assert false; }
  }
}
