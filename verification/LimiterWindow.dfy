/** backend/internal/middleware/limiter.go over whole runs: how many requests a fixed-
    window counter lets through in any interval as long as its window. */
module LimiterWindow {
  import opened Ordering
  import opened Limiter

  ghost predicate Distinct(ks: seq<Key>) {
    forall i, j :: 0 <= i < j < |ks| ==> ks[i] != ks[j]
  }

  ghost predicate NoEviction(counts: Counts, ks: seq<Key>, call: Call, victims: seq<Key>)
    requires |victims| == |ks|
  {
    ks == [] || (
      var n := |ks| - 1;
      var c := Check(counts, ks[..n], call, victims[..n]);
      NoEviction(counts, ks[..n], call, victims[..n]) && (c.full || RoomFor(c.counts, ks[n], call) != Evicts)
    )
  }

  function Names(ks: seq<Key>): seq<Option<Key>> {
    seq(|ks|, i requires 0 <= i < |ks| => Some(ks[i]))
  }

  // ---- What one check does to the store ----

  /** Without evictions a check only drops expired counters and adds empty ones for the
      buckets it looked at. */
  ghost predicate OldOrEmpty(counts: Counts, ks: seq<Key>, after: Counts, now: int) {
    && (forall k :: k in after ==> (k in counts && after[k] == counts[k])
                                   || (k in ks && !Live(counts, k, now) && after[k] == Count(0, now + k.window)))
    && (forall k :: k in counts && k !in after ==> counts[k].resetAt <= now)
  }

  ghost predicate AllBelow(ks: seq<Key>, counts: Counts) {
    forall k :: k in ks && k in counts ==> counts[k].count < k.limit
  }

  ghost predicate Effect(counts: Counts, ks: seq<Key>, c: Checked, now: int) {
    && OldOrEmpty(counts, ks, c.counts, now)
    && (!c.full ==> AllLive(ks, c.counts, now) && c.wait >= 0)
    && (!c.full && c.wait == 0 ==> c.pending == Names(ks) && AllBelow(ks, c.counts))
  }

  lemma MaterialisedOldOrEmpty(counts: Counts, ks: seq<Key>, before: Counts, k: Key, call: Call, victim: Key)
    requires OldOrEmpty(counts, ks, before, call.now) && RoomFor(before, k, call) != Evicts
    ensures OldOrEmpty(counts, ks + [k], Materialised(before, k, call, victim), call.now)
  {
    var after, now := Materialised(before, k, call, victim), call.now;
    forall d | d in after
      ensures (d in counts && after[d] == counts[d]) || (d in ks + [k] && !Live(counts, d, now) && after[d] == Count(0, now + d.window))
    {
      if d in before && after[d] == before[d] {
        assert (d in counts && before[d] == counts[d]) || d in ks;
      } else {
        assert d == k && !Live(before, k, now);
      }
    }
  }

  lemma CheckOneKeepsAllLive(ks: seq<Key>, c: Checked, k: Key, call: Call, victim: Key)
    requires AllLive(ks, c.counts, call.now) && k.window > 0 && RoomFor(c.counts, k, call) == Free
    ensures var r := CheckOne(c, k, call, victim).counts;
            AllLive(ks + [k], r, call.now) && (forall d :: d in ks ==> r[d] == c.counts[d])
  {
    var r := CheckOne(c, k, call, victim).counts;
    forall d | d in ks ensures Live(r, d, call.now) && r[d] == c.counts[d] {
      CheckOneKeepsLive(c, k, d, call, victim);
    }
    assert Live(r, k, call.now);
  }

  lemma NamesAppend(ks: seq<Key>, k: Key)
    ensures Names(ks + [k]) == Names(ks) + [Some(k)]
  {
  }

  lemma CheckOneCounts(c: Checked, k: Key, call: Call, victim: Key)
    ensures CheckOne(c, k, call, victim).counts == Materialised(c.counts, k, call, victim)
  {
  }

  lemma CheckOnePasses(c: Checked, k: Key, call: Call, victim: Key)
    requires RoomFor(c.counts, k, call) == Free && k.window > 0 && c.wait >= 0
    ensures var r := CheckOne(c, k, call, victim);
            && !r.full && r.wait >= 0
            && (r.wait == 0 ==> c.wait == 0 && r.pending == c.pending + [Some(k)] && r.counts[k].count < k.limit)
  {
  }

  lemma CheckOneEffect(counts: Counts, ks: seq<Key>, c: Checked, k: Key, call: Call, victim: Key)
    requires Effect(counts, ks, c, call.now) && !c.full && k.window > 0 && RoomFor(c.counts, k, call) != Evicts
    ensures Effect(counts, ks + [k], CheckOne(c, k, call, victim), call.now)
  {
    hide OldOrEmpty, Materialised, RoomFor, Names, MadeRoom, Reclaimed;
    MaterialisedOldOrEmpty(counts, ks, c.counts, k, call, victim);
    CheckOneCounts(c, k, call, victim);
    if RoomFor(c.counts, k, call) == Free {
      hide CheckOne;
      CheckOneKeepsAllLive(ks, c, k, call, victim);
      CheckOnePasses(c, k, call, victim);
      NamesAppend(ks, k);
    }
  }

  lemma {:induction false} CheckEffect(counts: Counts, ks: seq<Key>, call: Call, victims: seq<Key>)
    requires |victims| == |ks| && Positive(ks) && NoEviction(counts, ks, call, victims)
    ensures var c := Check(counts, ks, call, victims);
            if c.full then exists n :: 0 <= n <= |ks| && Effect(counts, ks[..n], c, call.now) else Effect(counts, ks, c, call.now)
  {
    hide CheckOne, RoomFor, Effect;
    if ks == [] {
      EmptyEffect(counts, call.now);
    } else {
      var n := |ks| - 1;
      SplitLast(ks);
      CheckEffect(counts, ks[..n], call, victims[..n]);
      var c := Check(counts, ks[..n], call, victims[..n]);
      if c.full {
        var m :| 0 <= m <= n && Effect(counts, ks[..n][..m], c, call.now);
        SlicePrefix(ks, n, m);
      } else {
        CheckOneEffect(counts, ks[..n], c, ks[n], call, victims[n]);
        WholeSlice(ks);
      }
    }
  }

  lemma EmptyEffect(counts: Counts, now: int)
    ensures Effect(counts, [], Checked(counts, [], 0, false), now)
  {
  }

  lemma SlicePrefix<T>(s: seq<T>, n: nat, m: nat)
    requires m <= n <= |s|
    ensures s[..n][..m] == s[..m]
  {
  }

  lemma WholeSlice<T>(s: seq<T>)
    ensures s[..|s|] == s
  {
  }

  /** Distinct counters are each incremented once. */
  lemma {:induction false} IncrementOnce(counts: Counts, ks: seq<Key>)
    requires Distinct(ks) && forall k :: k in ks ==> k in counts
    ensures forall k :: k in counts ==>
      Increment(counts, Names(ks))[k] == if k in ks then counts[k].(count := counts[k].count + 1) else counts[k]
  {
    if ks != [] {
      var n := |ks| - 1;
      SplitLast(ks);
      assert Names(ks)[..n] == Names(ks[..n]);
      IncrementOnce(counts, ks[..n]);
      assert ks[n] !in ks[..n];
    }
  }

  // ---- Runs, seen from one counter ----

  datatype Event =
    | Request(ks: seq<Key>, call: Call, victims: seq<Key>)
    | Tick(now: int)

  function Time(e: Event): int {
    if e.Request? then e.call.now else e.now
  }

  /** A request as Allow makes it: one victim slot and one counter per bucket. */
  ghost predicate WellFormed(e: Event) {
    e.Request? ==> |e.victims| == |e.ks| && Positive(e.ks) && Distinct(e.ks)
  }

  function After(counts: Counts, e: Event): Counts
    requires WellFormed(e)
  {
    if e.Tick? then Sweep(counts, e.now) else Decide(counts, e.ks, e.call, e.victims).counts
  }

  /** An admitted request: when, and the start of the window that counted it. */
  datatype Admission = Admission(time: int, start: int)

  function Admits(counts: Counts, e: Event, k: Key): seq<Admission>
    requires WellFormed(e)
  {
    if e.Request? && k in e.ks && Decide(counts, e.ks, e.call, e.victims).allowed && k in After(counts, e)
    then [Admission(e.call.now, After(counts, e)[k].resetAt - k.window)] else []
  }

  /** The store after a run from empty, and what counter `k` admitted during it. */
  datatype World = World(counts: Counts, log: seq<Admission>)

  function Run(es: seq<Event>, k: Key): World
    requires forall e :: e in es ==> WellFormed(e)
  {
    if es == [] then World(map[], [])
    else
      var w, e := Run(es[..|es| - 1], k), es[|es| - 1];
      World(After(w.counts, e), w.log + Admits(w.counts, e, k))
  }

  /** The clock does not go back and nothing is evicted for capacity. */
  ghost predicate Steady(es: seq<Event>, k: Key)
    requires forall e :: e in es ==> WellFormed(e)
  {
    es == [] || (
      var n := |es| - 1;
      && Steady(es[..n], k)
      && (n > 0 ==> Time(es[n - 1]) <= Time(es[n]))
      && (WellFormed(es[n]) && es[n].Request? ==> NoEviction(Run(es[..n], k).counts, es[n].ks, es[n].call, es[n].victims))
    )
  }

  function InWindow(log: seq<Admission>, start: int): nat {
    if log == [] then 0
    else InWindow(log[..|log| - 1], start) + if log[|log| - 1].start == start then 1 else 0
  }

  function Between(log: seq<Admission>, from: int, until: int): nat {
    if log == [] then 0
    else Between(log[..|log| - 1], from, until) + if from <= log[|log| - 1].time < until then 1 else 0
  }

  ghost predicate Apart(a: Admission, b: Admission, k: Key) {
    a.start == b.start || a.start + k.window <= b.start || b.start + k.window <= a.start
  }

  /** Windows do not overlap, none admitted more than the limit, and the live counter
      equals what its window has admitted. */
  ghost predicate Windows(w: World, k: Key, now: int) {
    && (forall a :: a in w.log ==> a.start <= a.time < a.start + k.window && a.time <= now)
    && (forall a, b :: a in w.log && b in w.log ==> Apart(a, b, k))
    && (forall s :: InWindow(w.log, s) <= k.limit)
    && (k in w.counts ==>
          var s := w.counts[k].resetAt - k.window;
          s <= now && w.counts[k].count == InWindow(w.log, s) && forall a :: a in w.log ==> a.start == s || a.start + k.window <= s)
    && (k !in w.counts ==> forall a :: a in w.log ==> a.start + k.window <= now)
  }

  lemma {:induction false} NoneInWindow(log: seq<Admission>, start: int)
    requires forall a :: a in log ==> a.start != start
    ensures InWindow(log, start) == 0
  {
    if log != [] {
      NoneInWindow(log[..|log| - 1], start);
    }
  }

  /** The counter of `k` after an event that admits nothing on it. */
  lemma WindowsUnchanged(w: World, counts: Counts, k: Key, before: int, now: int)
    requires Windows(w, k, before) && before <= now && k.limit > 0
    requires k in counts ==> (k in w.counts && counts[k] == w.counts[k]) || (!Live(w.counts, k, now) && counts[k] == Count(0, now + k.window))
    requires k in w.counts && k !in counts ==> w.counts[k].resetAt <= now
    ensures Windows(World(counts, w.log), k, now)
  {
    if k in counts && !(k in w.counts && counts[k] == w.counts[k]) {
      forall a | a in w.log ensures a.start + k.window <= now {}
      NoneInWindowBelow(w.log, k, now);
    }
  }

  lemma NoneInWindowBelow(log: seq<Admission>, k: Key, now: int)
    requires forall a :: a in log ==> a.start <= a.time < a.start + k.window && a.start + k.window <= now
    ensures InWindow(log, now) == 0
  {
    NoneInWindow(log, now);
  }

  lemma InWindowAppend(log: seq<Admission>, a: Admission, s: int)
    ensures InWindow(log + [a], s) == InWindow(log, s) + if a.start == s then 1 else 0
  {
    assert (log + [a])[..|log|] == log;
  }

  /** An admission on `k`: its live counter, below the limit, goes up by one. */
  lemma WindowsAdmit(w: World, k: Key, now: int)
    requires Windows(w, k, now) && Live(w.counts, k, now) && w.counts[k].count < k.limit
    ensures var s := w.counts[k].resetAt - k.window;
            Windows(World(w.counts[k := w.counts[k].(count := w.counts[k].count + 1)], w.log + [Admission(now, s)]), k, now)
  {
    var s := w.counts[k].resetAt - k.window;
    var a := Admission(now, s);
    forall t ensures InWindow(w.log + [a], t) <= k.limit {
      InWindowAppend(w.log, a, t);
    }
    InWindowAppend(w.log, a, s);
  }

  lemma WindowsIgnoreOthers(w: World, counts: Counts, k: Key, now: int)
    requires Windows(w, k, now) && (k in counts <==> k in w.counts) && (k in counts ==> counts[k] == w.counts[k])
    ensures Windows(World(counts, w.log), k, now)
  {
  }

  /** The store a request checked, before it counts anything. */
  lemma CheckKeepsWindows(w: World, k: Key, e: Event, c: Checked, before: int)
    requires WellFormed(e) && e.Request? && Windows(w, k, before) && before <= e.call.now && k.limit > 0
    requires NoEviction(w.counts, e.ks, e.call, e.victims) && c == Check(w.counts, e.ks, e.call, e.victims)
    ensures Windows(World(c.counts, w.log), k, e.call.now)
    ensures !c.full ==> Effect(w.counts, e.ks, c, e.call.now)
  {
    hide Check, NoEviction, Windows;
    CheckEffect(w.counts, e.ks, e.call, e.victims);
    if c.full {
      var n :| 0 <= n <= |e.ks| && Effect(w.counts, e.ks[..n], c, e.call.now);
    }
    WindowsUnchanged(w, c.counts, k, before, e.call.now);
  }

  lemma AdmittedKeepsWindows(checked: World, k: Key, ks: seq<Key>, now: int)
    requires Windows(checked, k, now) && Distinct(ks) && AllLive(ks, checked.counts, now) && AllBelow(ks, checked.counts)
    ensures var after := Increment(checked.counts, Names(ks));
            Windows(World(after, checked.log + if k in ks then [Admission(now, after[k].resetAt - k.window)] else []), k, now)
  {
    hide Windows, Increment, Names;
    IncrementOnce(checked.counts, ks);
    var after := Increment(checked.counts, Names(ks));
    if k in ks {
      var more := checked.counts[k].(count := checked.counts[k].count + 1);
      var log := checked.log + [Admission(now, checked.counts[k].resetAt - k.window)];
      WindowsAdmit(checked, k, now);
      WindowsIgnoreOthers(World(checked.counts[k := more], log), after, k, now);
    } else {
      WindowsIgnoreOthers(checked, after, k, now);
      assert checked.log + [] == checked.log;
    }
  }

  lemma RequestKeepsWindows(w: World, k: Key, e: Event, before: int)
    requires WellFormed(e) && e.Request? && Windows(w, k, before) && before <= e.call.now && k.limit > 0
    requires NoEviction(w.counts, e.ks, e.call, e.victims)
    ensures Windows(World(After(w.counts, e), w.log + Admits(w.counts, e, k)), k, e.call.now)
  {
    hide Check, NoEviction, Windows, Increment, OldOrEmpty;
    var c := Check(w.counts, e.ks, e.call, e.victims);
    CheckKeepsWindows(w, k, e, c, before);
    if c.full || c.wait > 0 {
      assert Admits(w.counts, e, k) == [] && w.log + [] == w.log;
    } else {
      AdmittedKeepsWindows(World(c.counts, w.log), k, e.ks, e.call.now);
    }
  }

  lemma {:induction false} RunKeepsWindows(es: seq<Event>, k: Key)
    requires forall e :: e in es ==> WellFormed(e)
    requires Steady(es, k) && k.limit > 0
    ensures Windows(Run(es, k), k, if es == [] then 0 else Time(es[|es| - 1]))
  {
    hide After, Admits, Windows;
    if es == [] {
      EmptyWindows(k, 0);
    } else {
      var n := |es| - 1;
      RunKeepsWindows(es[..n], k);
      var w, e := Run(es[..n], k), es[n];
      if n == 0 { EmptyWindows(k, Time(e)); }
      var before := if n == 0 then Time(e) else Time(es[n - 1]);
      StepKeepsWindows(w, k, e, before);
    }
  }

  lemma EmptyWindows(k: Key, now: int)
    requires k.limit > 0
    ensures Windows(World(map[], []), k, now)
  {
  }

  lemma StepKeepsWindows(w: World, k: Key, e: Event, before: int)
    requires WellFormed(e) && Windows(w, k, before) && before <= Time(e) && k.limit > 0
    requires e.Request? ==> NoEviction(w.counts, e.ks, e.call, e.victims)
    ensures Windows(World(After(w.counts, e), w.log + Admits(w.counts, e, k)), k, Time(e))
  {
    if e.Request? {
      RequestKeepsWindows(w, k, e, before);
    } else {
      WindowsUnchanged(w, Sweep(w.counts, e.now), k, before, e.now);
      assert w.log + [] == w.log;
    }
  }

  // ---- Two windows cover any interval of the same length ----

  lemma {:induction false} BetweenCovered(log: seq<Admission>, from: int, until: int, s: int, t: int)
    requires forall a :: a in log && from <= a.time < until ==> a.start == s || a.start == t
    ensures Between(log, from, until) <= InWindow(log, s) + InWindow(log, t)
  {
    if log != [] {
      var n := |log| - 1;
      assert log[n] in log && forall a :: a in log[..n] ==> a in log;
      BetweenCovered(log[..n], from, until, s, t);
    }
  }

  lemma {:induction false} NoneBetween(log: seq<Admission>, from: int, until: int)
    requires forall a :: a in log ==> !(from <= a.time < until)
    ensures Between(log, from, until) == 0
  {
    if log != [] {
      assert log[|log| - 1] in log;
      NoneBetween(log[..|log| - 1], from, until);
    }
  }

  /** Any half-open interval of length Window admits at most twice the limit. */
  lemma AtMostTwiceTheLimit(es: seq<Event>, k: Key, from: int)
    requires forall e :: e in es ==> WellFormed(e)
    requires Steady(es, k) && k.limit > 0
    ensures Between(Run(es, k).log, from, from + k.window) <= 2 * k.limit
  {
    hide Run, Steady;
    RunKeepsWindows(es, k);
    AtMostTwoWindows(Run(es, k), k, from, if es == [] then 0 else Time(es[|es| - 1]));
  }

  lemma AtMostTwoWindows(w: World, k: Key, from: int, now: int)
    requires Windows(w, k, now)
    ensures Between(w.log, from, from + k.window) <= 2 * k.limit
  {
    var log, until := w.log, from + k.window;
    if a :| a in log && from <= a.time < until {
      if b :| b in log && from <= b.time < until && b.start != a.start {
        forall c | c in log && from <= c.time < until ensures c.start == a.start || c.start == b.start {
          assert Apart(a, b, k) && Apart(a, c, k) && Apart(b, c, k);
        }
        BetweenCovered(log, from, until, a.start, b.start);
        assert InWindow(log, a.start) <= k.limit && InWindow(log, b.start) <= k.limit;
      } else {
        BetweenCovered(log, from, until, a.start, a.start);
        assert InWindow(log, a.start) <= k.limit;
      }
    } else {
      NoneBetween(log, from, until);
      assert InWindow(log, 0) <= k.limit;
    }
  }
}
