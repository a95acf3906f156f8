/** What becomes of a fetch (frontend/src/utils/objectUrlCache.ts:36-56) in whole runs. */
module ObjectUrlRuns {
  import opened Ordering
  import opened ObjectUrlCache

  /** The fetch is under way and nothing has superseded it. */
  ghost predicate UnderWay(s: State, id: nat, key: string) {
    id in s.requests && s.requests[id].key == key && s.requests[id].fetching && Current(s, id)
  }

  predicate EndsFetch(a: Action, id: nat, key: string) {
    a == Bust(key) || a == Clear || a == Reject(id) || (a.Resolve? && a.id == id)
  }

  lemma StepStaysUnderWay(s: State, a: Action, id: nat, key: string)
    requires Enabled(s, a) && Inv(s) && UnderWay(s, id, key) && !EndsFetch(a, id, key)
    ensures UnderWay(Step(s, a), id, key)
  {
    hide UrlsInv;
    assert id < s.started;
  }

  lemma {:induction false} RunStaysUnderWay(s: State, actions: seq<Action>, id: nat, key: string)
    requires CanRun(s, actions) && Inv(s) && UnderWay(s, id, key) && forall a :: a in actions ==> !EndsFetch(a, id, key)
    ensures Inv(Run(s, actions)) && UnderWay(Run(s, actions), id, key)
    decreases |actions|
  {
    hide Step, Enabled, Inv, UnderWay, EndsFetch;
    if actions != [] {
      assert actions[0] in actions && forall a :: a in actions[1..] ==> a in actions;
      StepKeepsInv(s, actions[0]);
      StepStaysUnderWay(s, actions[0], id, key);
      RunStaysUnderWay(Step(s, actions[0]), actions[1..], id, key);
    }
  }

  lemma StepKeepsInv(s: State, a: Action)
    requires Enabled(s, a) && Inv(s)
    ensures Inv(Step(s, a))
  {
    StepKeepsRequests(s, a);
    StepKeepsUrls(s, a);
  }

  /** A fetch that is neither busted nor cleared away nor failed can resolve, and what it
      resolves to is then cached, whatever else happens in between. */
  lemma FetchedIsCached(before: seq<Action>, key: string, between: seq<Action>, url: Url)
    requires CanRun(EMPTY, before) && key !in Run(EMPTY, before).inflight
    requires var s := Run(EMPTY, before);
             CanRun(Step(s, Fetch(key)), between) && forall a :: a in between ==> !EndsFetch(a, s.started, key)
    ensures var s := Run(EMPTY, before);
            var u := Run(Step(s, Fetch(key)), between);
            && (Enabled(u, Resolve(s.started, url)) <==> (url.Blob? ==> url !in u.delivered))
            && (Enabled(u, Resolve(s.started, url)) ==> key in Step(u, Resolve(s.started, url)).urls && Step(u, Resolve(s.started, url)).urls[key] == url)
  {
    var s := Run(EMPTY, before);
    RunKeepsInv(EMPTY, before);
    StepKeepsInv(s, Fetch(key));
    RunStaysUnderWay(Step(s, Fetch(key)), between, s.started, key);
  }

  /** A request in flight is shared: fetching the key again starts nothing. */
  lemma FetchIsShared(s: State, key: string)
    requires key in s.inflight
    ensures Step(s, Fetch(key)) == s
  {
  }

  /** A rejection caches, revokes and supersedes nothing. */
  lemma RejectionChangesNothingElse(s: State, id: nat)
    requires Enabled(s, Reject(id))
    ensures var t := Step(s, Reject(id));
            t.urls == s.urls && t.revoked == s.revoked && t.generations == s.generations && t.inflight == s.inflight && t.delivered == s.delivered
  {
  }

  ghost predicate SettledOrGone(s: State, id: nat) {
    id < s.started && (id in s.requests ==> !s.requests[id].fetching)
  }

  lemma {:induction false} RunStaysSettled(s: State, actions: seq<Action>, id: nat)
    requires CanRun(s, actions) && SettledOrGone(s, id)
    ensures SettledOrGone(Run(s, actions), id)
    decreases |actions|
  {
    if actions != [] {
      RunStaysSettled(Step(s, actions[0]), actions[1..], id);
    }
  }

  /** A fetch settles once: when it has resolved or failed its finally callback is due,
      and it never resolves or fails again. */
  lemma SettlesOnce(before: seq<Action>, a: Action, after: seq<Action>, url: Url)
    requires CanRun(EMPTY, before) && Enabled(Run(EMPTY, before), a) && (a.Resolve? || a.Reject?)
    requires CanRun(Step(Run(EMPTY, before), a), after)
    ensures var t := Run(Step(Run(EMPTY, before), a), after);
            && Enabled(Step(Run(EMPTY, before), a), Finally(a.id))
            && !Enabled(t, Resolve(a.id, url)) && !Enabled(t, Reject(a.id))
  {
    RunKeepsInv(EMPTY, before);
    RunStaysSettled(Step(Run(EMPTY, before), a), after, a.id);
  }

  /** The finally callback frees its own key, if no later fetch has taken it, and touches
      nothing else. */
  lemma FinallyFreesItsOwn(before: seq<Action>, id: nat, key: string)
    requires CanRun(EMPTY, before) && Enabled(Run(EMPTY, before), Finally(id))
    ensures var s := Run(EMPTY, before);
            var t := Step(s, Finally(id));
            && t.urls == s.urls && t.revoked == s.revoked && t.generations == s.generations && id !in t.requests
            && (key in t.inflight <==> key in s.inflight && s.inflight[key] != id)
            && (key in t.inflight ==> t.inflight[key] == s.inflight[key])
  {
    RunKeepsInv(EMPTY, before);
    var s := Run(EMPTY, before);
    hide UrlsInv;
    if key in s.inflight && s.inflight[key] == id { assert s.requests[id].key == key; }
  }
}
