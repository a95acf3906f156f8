/** frontend/src/utils/objectUrlCache.ts: the store that owns fetched object URLs, with a
    generation per key. The three callbacks of a fetch run as separate steps. */
module ObjectUrlCache {
  import opened Ordering

  /** Only blob URLs are revoked. */
  datatype Url = Blob(id: nat) | Plain(text: string)

  /** A request between getOrFetch and the end of its finally callback; `fetching` until
      its then callback has run or was skipped. */
  datatype Request = Request(key: string, generation: nat, fetching: bool)

  datatype State = State(
    urls: map<string, Url>,
    inflight: map<string, nat>,
    generations: map<string, nat>,
    requests: map<nat, Request>,
    started: nat,
    delivered: set<Url>,
    revoked: map<Url, nat>
  )

  const EMPTY := State(map[], map[], map[], map[], 0, {}, map[])

  datatype Action =
    | Fetch(key: string)
    | Resolve(id: nat, url: Url)
    | Reject(id: nat)
    | Finally(id: nat)
    | Bust(key: string)
    | Clear

  function Tally<K>(counts: map<K, nat>, k: K): nat {
    if k in counts then counts[k] else 0
  }

  function Bumped<K>(counts: map<K, nat>, ks: set<K>): map<K, nat> {
    map k | k in counts.Keys + ks :: if k in ks then Tally(counts, k) + 1 else counts[k]
  }

  function Revoke(revoked: map<Url, nat>, url: Url): map<Url, nat> {
    if url.Blob? then revoked[url := Tally(revoked, url) + 1] else revoked
  }

  function RevokeCached(s: State, key: string): map<Url, nat> {
    if key in s.urls then Revoke(s.revoked, s.urls[key]) else s.revoked
  }

  function BlobsOf(urls: map<string, Url>, keys: set<string>): set<Url> {
    set k | k in keys && k in urls && urls[k].Blob? :: urls[k]
  }

  /** A fetcher returns a blob URL nobody has seen before. */
  predicate Enabled(s: State, a: Action) {
    match a
    case Resolve(id, url) => id in s.requests && s.requests[id].fetching && (url.Blob? ==> url !in s.delivered)
    case Reject(id) => id in s.requests && s.requests[id].fetching
    case Finally(id) => id in s.requests && !s.requests[id].fetching
    case _ => true
  }

  // ---- The steps ----

  function AfterFetch(s: State, key: string): State {
    if key in s.inflight then s
    else
      var request := Request(key, Tally(s.generations, key), true);
      s.(inflight := s.inflight[key := s.started], requests := s.requests[s.started := request], started := s.started + 1)
  }

  function AfterResolve(s: State, id: nat, url: Url): State
    requires Enabled(s, Resolve(id, url))
  {
    var r := s.requests[id];
    var t := s.(requests := s.requests[id := r.(fetching := false)], delivered := s.delivered + {url});
    if Tally(s.generations, r.key) != r.generation then t.(revoked := Revoke(s.revoked, url))
    else
      var revoked := if r.key in s.urls && s.urls[r.key] == url then s.revoked else RevokeCached(s, r.key);
      t.(urls := s.urls[r.key := url], revoked := revoked)
  }

  function AfterFinally(s: State, id: nat): State
    requires Enabled(s, Finally(id))
  {
    var key := s.requests[id].key;
    var inflight := if key in s.inflight && s.inflight[key] == id then s.inflight - {key} else s.inflight;
    s.(inflight := inflight, requests := s.requests - {id})
  }

  function AfterBust(s: State, key: string): State {
    s.(generations := s.generations[key := Tally(s.generations, key) + 1], urls := s.urls - {key},
       inflight := s.inflight - {key}, revoked := RevokeCached(s, key))
  }

  function AfterClear(s: State): State {
    s.(generations := Bumped(s.generations, s.urls.Keys + s.inflight.Keys), urls := map[], inflight := map[],
       revoked := Bumped(s.revoked, BlobsOf(s.urls, s.urls.Keys)))
  }

  function Step(s: State, a: Action): State
    requires Enabled(s, a)
  {
    match a
    case Fetch(key) => AfterFetch(s, key)
    case Resolve(id, url) => AfterResolve(s, id, url)
    case Reject(id) => s.(requests := s.requests[id := s.requests[id].(fetching := false)])
    case Finally(id) => AfterFinally(s, id)
    case Bust(key) => AfterBust(s, key)
    case Clear => AfterClear(s)
  }

  ghost predicate CanRun(s: State, actions: seq<Action>)
    decreases |actions|
  {
    actions == [] || (Enabled(s, actions[0]) && CanRun(Step(s, actions[0]), actions[1..]))
  }

  function Run(s: State, actions: seq<Action>): State
    requires CanRun(s, actions)
    decreases |actions|
  {
    if actions == [] then s else Run(Step(s, actions[0]), actions[1..])
  }

  // ---- Who owns a URL ----

  predicate Current(s: State, id: nat) {
    id in s.requests && s.requests[id].generation == Tally(s.generations, s.requests[id].key)
  }

  ghost predicate Recorded(s: State, id: nat) {
    id in s.requests && s.requests[id].key in s.inflight && s.inflight[s.requests[id].key] == id
  }

  ghost predicate Cached(s: State, url: Url) {
    exists k :: k in s.urls && s.urls[k] == url
  }

  /** Requests: the current ones are exactly those in `inflight`, so one per key. */
  ghost predicate RequestsInv(s: State) {
    && (forall id :: id in s.requests ==> id < s.started && s.requests[id].generation <= Tally(s.generations, s.requests[id].key))
    && (forall id :: id in s.requests ==> (Current(s, id) <==> Recorded(s, id)))
    && (forall k :: k in s.inflight ==> s.inflight[k] in s.requests && s.requests[s.inflight[k]].key == k)
  }

  /** URLs: a delivered blob is cached under one key, or was revoked once. */
  ghost predicate UrlsInv(s: State) {
    && (forall j, k :: j in s.urls && k in s.urls && s.urls[j] == s.urls[k] && s.urls[j].Blob? ==> j == k)
    && (forall k :: k in s.urls ==> s.urls[k] in s.delivered)
    && (forall u :: Tally(s.revoked, u) > 0 ==> u.Blob? && u in s.delivered)
    && (forall u :: u in s.delivered && u.Blob? ==> Tally(s.revoked, u) == if Cached(s, u) then 0 else 1)
  }

  ghost predicate Inv(s: State) {
    RequestsInv(s) && UrlsInv(s)
  }

  /** The same, of one request and one key. */
  ghost predicate RequestInv(s: State, id: nat) {
    id in s.requests ==>
      id < s.started && s.requests[id].generation <= Tally(s.generations, s.requests[id].key) && (Current(s, id) <==> Recorded(s, id))
  }

  ghost predicate KeyInv(s: State, key: string) {
    key in s.inflight ==> s.inflight[key] in s.requests && s.requests[s.inflight[key]].key == key
  }

  lemma RequestsInvSplits(s: State)
    ensures RequestsInv(s) <==> (forall id :: RequestInv(s, id)) && (forall k :: KeyInv(s, k))
  {
    if RequestsInv(s) {
      forall id ensures RequestInv(s, id) {}
    }
    if (forall id :: RequestInv(s, id)) && (forall k :: KeyInv(s, k)) {
      forall id | id in s.requests ensures id < s.started && s.requests[id].generation <= Tally(s.generations, s.requests[id].key) && (Current(s, id) <==> Recorded(s, id)) {
        assert RequestInv(s, id);
      }
      forall k | k in s.inflight ensures s.inflight[k] in s.requests && s.requests[s.inflight[k]].key == k {
        assert KeyInv(s, k);
      }
    }
  }

  lemma StepKeepsRequest(s: State, a: Action, id: nat)
    requires Enabled(s, a) && RequestInv(s, id)
    requires forall k :: KeyInv(s, k)
    requires a.Fetch? && a.key in s.inflight ==> RequestInv(s, s.inflight[a.key])
    ensures RequestInv(Step(s, a), id)
  {
    if a.Fetch? { assert KeyInv(s, a.key); }
    if a.Finally? && id in s.requests { assert KeyInv(s, s.requests[id].key); }
  }

  lemma StepKeepsKey(s: State, a: Action, key: string)
    requires Enabled(s, a) && KeyInv(s, key) && (forall id :: RequestInv(s, id))
    ensures KeyInv(Step(s, a), key)
  {
    if key in s.inflight { assert RequestInv(s, s.inflight[key]); }
  }

  lemma CachedIsLive(s: State, key: string)
    requires UrlsInv(s) && key in s.urls
    ensures Tally(s.revoked, s.urls[key]) == 0
  {
    if s.urls[key].Blob? { assert Cached(s, s.urls[key]); }
  }

  lemma StepKeepsRequests(s: State, a: Action)
    requires Enabled(s, a) && RequestsInv(s)
    ensures RequestsInv(Step(s, a))
  {
    hide RequestsInv, RequestInv, KeyInv, Step;
    RequestsInvSplits(s);
    forall id ensures RequestInv(Step(s, a), id) { StepKeepsRequest(s, a, id); }
    forall k ensures KeyInv(Step(s, a), k) { StepKeepsKey(s, a, k); }
    RequestsInvSplits(Step(s, a));
  }

  lemma StoreKeepsUrls(s: State, key: string, url: Url)
    requires UrlsInv(s) && (url.Blob? ==> url !in s.delivered)
    ensures var revoked := if key in s.urls && s.urls[key] == url then s.revoked else RevokeCached(s, key);
            UrlsInv(s.(urls := s.urls[key := url], delivered := s.delivered + {url}, revoked := revoked))
  {
    var revoked := if key in s.urls && s.urls[key] == url then s.revoked else RevokeCached(s, key);
    var t := s.(urls := s.urls[key := url], delivered := s.delivered + {url}, revoked := revoked);
    forall u | u in t.delivered && u.Blob?
      ensures Tally(t.revoked, u) == if Cached(t, u) then 0 else 1
    {
      if u == url {
        assert t.urls[key] == u;
        assert Tally(s.revoked, u) == 0;
      } else if Cached(s, u) {
        var k :| k in s.urls && s.urls[k] == u;
        if k != key { assert t.urls[k] == u; }
      }
    }
  }

  lemma DropKeepsUrls(s: State, key: string)
    requires UrlsInv(s)
    ensures UrlsInv(s.(urls := s.urls - {key}, revoked := RevokeCached(s, key)))
  {
    var t := s.(urls := s.urls - {key}, revoked := RevokeCached(s, key));
    forall u | u in t.delivered && u.Blob?
      ensures Tally(t.revoked, u) == if Cached(t, u) then 0 else 1
    {
      if Cached(s, u) {
        var k :| k in s.urls && s.urls[k] == u;
        if k != key { assert t.urls[k] == u; }
      }
    }
  }

  lemma ClearKeepsUrls(s: State)
    requires UrlsInv(s)
    ensures UrlsInv(AfterClear(s))
    ensures forall u :: u in s.delivered && u.Blob? ==> Tally(AfterClear(s).revoked, u) == 1
  {
    var t, blobs := AfterClear(s), BlobsOf(s.urls, s.urls.Keys);
    forall u | u in s.delivered && u.Blob?
      ensures Tally(t.revoked, u) == 1 && !Cached(t, u)
    {
      if Cached(s, u) {
        var k :| k in s.urls && s.urls[k] == u;
        assert u in blobs;
      } else {
        assert u !in blobs;
      }
    }
  }

  lemma SameUrls(s: State, t: State)
    requires UrlsInv(s) && t.urls == s.urls && t.delivered == s.delivered && t.revoked == s.revoked
    ensures UrlsInv(t)
  {
    forall u ensures Cached(s, u) <==> Cached(t, u) {
      if Cached(s, u) {
        var k :| k in s.urls && s.urls[k] == u;
        assert k in t.urls;
      }
    }
  }

  lemma ResolveKeepsUrls(s: State, id: nat, url: Url)
    requires Enabled(s, Resolve(id, url)) && UrlsInv(s)
    ensures UrlsInv(AfterResolve(s, id, url))
  {
    var r, t := s.requests[id], AfterResolve(s, id, url);
    if Tally(s.generations, r.key) == r.generation {
      StoreKeepsUrls(s, r.key, url);
      var revoked := if r.key in s.urls && s.urls[r.key] == url then s.revoked else RevokeCached(s, r.key);
      SameUrls(s.(urls := s.urls[r.key := url], delivered := s.delivered + {url}, revoked := revoked), t);
    } else {
      forall u | u in t.delivered && u.Blob?
        ensures Tally(t.revoked, u) == if Cached(t, u) then 0 else 1
      {
        assert Cached(t, u) <==> Cached(s, u) by {
          if Cached(s, u) { var k :| k in s.urls && s.urls[k] == u; assert t.urls[k] == u; }
        }
      }
    }
  }

  lemma StepKeepsUrls(s: State, a: Action)
    requires Enabled(s, a) && UrlsInv(s)
    ensures UrlsInv(Step(s, a))
  {
    match a
    case Resolve(id, url) =>
      ResolveKeepsUrls(s, id, url);
    case Bust(key) =>
      DropKeepsUrls(s, key);
      SameUrls(s.(urls := s.urls - {key}, revoked := RevokeCached(s, key)), AfterBust(s, key));
    case Clear =>
      ClearKeepsUrls(s);
    case _ =>
      SameUrls(s, Step(s, a));
  }

  lemma {:induction false} RunKeepsInv(s: State, actions: seq<Action>)
    requires CanRun(s, actions) && Inv(s)
    ensures Inv(Run(s, actions))
    decreases |actions|
  {
    if actions != [] {
      StepKeepsRequests(s, actions[0]);
      StepKeepsUrls(s, actions[0]);
      RunKeepsInv(Step(s, actions[0]), actions[1..]);
    }
  }

  /** In every run each delivered blob URL is cached under exactly one key or was revoked
      exactly once, what is cached is not revoked, and a pending request is of the
      current generation exactly when it is the one recorded in `inflight`. */
  lemma EveryUrlHasOneOwner(actions: seq<Action>)
    requires CanRun(EMPTY, actions)
    ensures var s := Run(EMPTY, actions);
            && (forall u :: u in s.delivered && u.Blob? ==> if Cached(s, u) then Tally(s.revoked, u) == 0 else Tally(s.revoked, u) == 1)
            && (forall j, k :: j in s.urls && k in s.urls && s.urls[j] == s.urls[k] && s.urls[j].Blob? ==> j == k)
            && (forall k :: k in s.urls ==> Tally(s.revoked, s.urls[k]) == 0)
            && (forall id :: id in s.requests ==> (Current(s, id) <==> Recorded(s, id)))
  {
    RunKeepsInv(EMPTY, actions);
    var s := Run(EMPTY, actions);
    forall k | k in s.urls ensures Tally(s.revoked, s.urls[k]) == 0 {
      CachedIsLive(s, k);
    }
  }

  lemma {:induction false} RunAppend(s: State, actions: seq<Action>, a: Action)
    requires CanRun(s, actions) && Enabled(Run(s, actions), a)
    ensures CanRun(s, actions + [a]) && Run(s, actions + [a]) == Step(Run(s, actions), a)
    decreases |actions|
  {
    if actions != [] {
      RunAppend(Step(s, actions[0]), actions[1..], a);
      assert (actions + [a])[1..] == actions[1..] + [a];
    }
  }

  /** Nothing leaks: a clear leaves every blob URL delivered so far revoked once. */
  lemma ClearRevokesEverything(actions: seq<Action>)
    requires CanRun(EMPTY, actions)
    ensures CanRun(EMPTY, actions + [Clear])
    ensures var s := Run(EMPTY, actions + [Clear]); s.urls == map[] && forall u :: u in s.delivered && u.Blob? ==> Tally(s.revoked, u) == 1
  {
    RunKeepsInv(EMPTY, actions);
    RunAppend(EMPTY, actions, Clear);
    ClearKeepsUrls(Run(EMPTY, actions));
  }

  /** No fetch for `key` can still fill the cache. */
  ghost predicate Forgotten(s: State, key: string) {
    key !in s.urls && key !in s.inflight
  }

  lemma StepKeepsForgotten(s: State, a: Action, key: string)
    requires Enabled(s, a) && RequestsInv(s) && Forgotten(s, key) && a != Fetch(key)
    ensures Forgotten(Step(s, a), key)
  {
    if a.Resolve? && Current(s, a.id) {
      assert Recorded(s, a.id);
    }
  }

  /** After a bust the key stays empty until it is fetched again, whatever older fetches
      still deliver. */
  lemma {:induction false} BustedStaysGone(s: State, actions: seq<Action>, key: string)
    requires RequestsInv(s) && Forgotten(s, key) && CanRun(s, actions) && Fetch(key) !in actions
    ensures key !in Run(s, actions).urls
    decreases |actions|
  {
    if actions != [] {
      StepKeepsRequests(s, actions[0]);
      StepKeepsForgotten(s, actions[0], key);
      BustedStaysGone(Step(s, actions[0]), actions[1..], key);
    }
  }

  // ---- The store ----

  class ObjectUrlStore {
    var urls: map<string, Url>
    var inflight: map<string, nat>
    var generations: map<string, nat>
    /** What the pending callbacks have captured, and what the browser has seen. */
    var requests: map<nat, Request>
    var started: nat
    ghost var delivered: set<Url>
    var revoked: map<Url, nat>

    ghost function View(): State
      reads this
    {
      State(urls, inflight, generations, requests, started, delivered, revoked)
    }

    constructor ()
      ensures View() == EMPTY && Inv(View())
    {
      urls, inflight, generations, requests, started := map[], map[], map[], map[], 0;
      delivered, revoked := {}, map[];
    }

    method RevokeUrl(url: Option<Url>)
      modifies this`revoked
      ensures revoked == if url.Some? then Revoke(old(revoked), url.value) else old(revoked)
    {
      if url.Some? && url.value.Blob? { revoked := revoked[url.value := Tally(revoked, url.value) + 1]; }
    }

    method Get(key: string) returns (url: Option<Url>)
      requires Inv(View())
      ensures url == if key in urls then Some(urls[key]) else None
      ensures url.Some? ==> Tally(revoked, url.value) == 0
    {
      url := if key in urls then Some(urls[key]) else None;
      if url.Some? { CachedIsLive(View(), key); }
    }

    method GetOrFetch(key: string) returns (request: nat)
      requires Inv(View())
      modifies this
      ensures Inv(View()) && View() == Step(old(View()), Fetch(key))
      ensures Current(View(), request) && requests[request].key == key
    {
      StepKeepsRequests(View(), Fetch(key));
      StepKeepsUrls(View(), Fetch(key));
      if key in inflight {
        assert Recorded(View(), inflight[key]);
        return inflight[key];
      }
      request := started;
      requests := requests[request := Request(key, Tally(generations, key), true)];
      started := started + 1;
      inflight := inflight[key := request];
    }

    /** The then callback. */
    method Resolved(id: nat, url: Url) returns (result: Option<Url>)
      requires Inv(View()) && Enabled(View(), Resolve(id, url))
      modifies this
      ensures Inv(View()) && View() == Step(old(View()), Resolve(id, url))
      ensures result == if old(Current(View(), id)) then Some(url) else None
      ensures result.Some? ==> urls[requests[id].key] == url && Tally(revoked, url) == 0
    {
      hide RequestsInv, UrlsInv;
      StepKeepsRequests(View(), Resolve(id, url));
      StepKeepsUrls(View(), Resolve(id, url));
      var r := requests[id];
      requests := requests[id := r.(fetching := false)];
      delivered := delivered + {url};
      if Tally(generations, r.key) != r.generation {
        RevokeUrl(Some(url));
        return None;
      }
      var previous := if r.key in urls then Some(urls[r.key]) else None;
      if previous != Some(url) { RevokeUrl(previous); }
      urls := urls[r.key := url];
      CachedIsLive(View(), r.key);
      return Some(url);
    }

    /** The finally callback. */
    method Settled(id: nat)
      requires Inv(View()) && Enabled(View(), Finally(id))
      modifies this
      ensures Inv(View()) && View() == Step(old(View()), Finally(id))
    {
      StepKeepsRequests(View(), Finally(id));
      StepKeepsUrls(View(), Finally(id));
      var key := requests[id].key;
      if key in inflight && inflight[key] == id { inflight := inflight - {key}; }
      requests := requests - {id};
    }

    method BustKey(key: string)
      requires Inv(View())
      modifies this
      ensures Inv(View()) && View() == Step(old(View()), Bust(key)) && Forgotten(View(), key)
    {
      hide RequestsInv, UrlsInv;
      StepKeepsRequests(View(), Bust(key));
      StepKeepsUrls(View(), Bust(key));
      generations := generations[key := Tally(generations, key) + 1];
      RevokeUrl(if key in urls then Some(urls[key]) else None);
      urls := urls - {key};
      inflight := inflight - {key};
    }

    method SupersedeKey(key: string, ghost before: State, ghost done: set<string>)
      requires UrlsInv(before) && key !in done && urls == before.urls && Superseded(before, done, generations, revoked)
      modifies this`generations, this`revoked
      ensures Superseded(before, done + {key}, generations, revoked)
    {
      hide UrlsInv, Superseded, Tally, Revoke;
      SupersedeOne(before, done, key, generations, revoked);
      generations := generations[key := Tally(generations, key) + 1];
      RevokeUrl(if key in urls then Some(urls[key]) else None);
    }

    /** The loop of clear. */
    method SupersedeEach(keys: set<string>, ghost before: State)
      requires UrlsInv(before) && urls == before.urls && Superseded(before, {}, generations, revoked)
      modifies this`generations, this`revoked
      ensures Superseded(before, keys, generations, revoked)
    {
      hide *;
      var pending := keys;
      assert keys - pending == {};
      while pending != {}
        invariant pending <= keys
        invariant Superseded(before, keys - pending, generations, revoked)
        decreases |pending|
      {
        var key :| key in pending;
        OneFewer(keys, pending, key);
        SupersedeKey(key, before, keys - pending);
        pending := pending - {key};
      }
      assert keys - pending == keys;
    }

    method SupersedeAll()
      requires UrlsInv(View())
      modifies this`generations, this`revoked
      ensures generations == Bumped(old(generations), urls.Keys + inflight.Keys)
      ensures revoked == Bumped(old(revoked), BlobsOf(urls, urls.Keys))
    {
      hide UrlsInv, Superseded, Bumped, BlobsOf;
      ghost var before := View();
      SupersedeNone(before);
      SupersedeEach(urls.Keys + inflight.Keys, before);
      SupersedeAllDone(before, urls.Keys + inflight.Keys, generations, revoked);
    }

    method ClearAll()
      requires Inv(View())
      modifies this
      ensures Inv(View()) && View() == Step(old(View()), Clear)
    {
      hide RequestsInv, UrlsInv, Bumped, BlobsOf;
      StepKeepsRequests(View(), Clear);
      StepKeepsUrls(View(), Clear);
      SupersedeAll();
      urls, inflight := map[], map[];
    }
  }

  lemma OneFewer(all: set<string>, pending: set<string>, key: string)
    requires key in pending && pending <= all
    ensures key !in all - pending && all - (pending - {key}) == all - pending + {key} && |pending - {key}| < |pending|
  {
  }

  /** Clear, when it has gone through the keys `done`. */
  ghost predicate Superseded(s: State, done: set<string>, generations: map<string, nat>, revoked: map<Url, nat>) {
    generations == Bumped(s.generations, done) && revoked == Bumped(s.revoked, BlobsOf(s.urls, done))
  }

  lemma SupersedeNone(s: State)
    ensures Superseded(s, {}, s.generations, s.revoked)
  {
    assert BlobsOf(s.urls, {}) == {};
  }

  lemma BumpOne<K>(counts: map<K, nat>, done: set<K>, k: K)
    requires k !in done
    ensures var so := Bumped(counts, done); so[k := Tally(so, k) + 1] == Bumped(counts, done + {k})
  {
  }

  lemma SupersedeOne(s: State, done: set<string>, key: string, generations: map<string, nat>, revoked: map<Url, nat>)
    requires UrlsInv(s) && key !in done && Superseded(s, done, generations, revoked)
    ensures Superseded(s, done + {key}, generations[key := Tally(generations, key) + 1], if key in s.urls then Revoke(revoked, s.urls[key]) else revoked)
  {
    hide UrlsInv, Bumped, BlobsOf, Tally;
    BumpOne(s.generations, done, key);
    OneMoreBlob(s, done, key);
    if key in s.urls && s.urls[key].Blob? { BumpOne(s.revoked, BlobsOf(s.urls, done), s.urls[key]); }
  }

  lemma OneMoreBlob(s: State, done: set<string>, key: string)
    requires UrlsInv(s) && key !in done
    ensures var before, after := BlobsOf(s.urls, done), BlobsOf(s.urls, done + {key});
            if key in s.urls && s.urls[key].Blob? then s.urls[key] !in before && after == before + {s.urls[key]} else after == before
  {
  }

  lemma SupersedeAllDone(s: State, done: set<string>, generations: map<string, nat>, revoked: map<Url, nat>)
    requires s.urls.Keys <= done && Superseded(s, done, generations, revoked)
    ensures generations == Bumped(s.generations, done) && revoked == Bumped(s.revoked, BlobsOf(s.urls, s.urls.Keys))
  {
    assert BlobsOf(s.urls, done) == BlobsOf(s.urls, s.urls.Keys);
  }
}
