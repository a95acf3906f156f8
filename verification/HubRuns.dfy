/** backend/internal/chat/hub.go over whole runs: what comes of a check that fails, of a
    request made while a sweep runs, and of every entry that is queued. */
module HubRuns {
  import opened Ordering
  import opened Hub

  // ---- A check that fails ----

  ghost predicate SweptRegistered(s: State) {
    forall k :: k in s.sweeps ==> s.sweeps[k] <= s.sockets.Keys
  }

  /** The client is out, or the loop has still to hear of its failed check. */
  ghost predicate Doomed(s: State, c: nat) {
    c in s.sockets && (c !in s.clients || Result(c, false) in s.results)
  }

  lemma SocketsStay(s: State, a: Action)
    requires Enabled(s, a)
    ensures s.sockets.Keys <= Step(s, a).sockets.Keys
  {
    hide Queued, Slow, Recipients, Matches;
  }

  lemma StepKeepsSwept(s: State, a: Action)
    requires Enabled(s, a) && Inv(s) && SweptRegistered(s)
    ensures SweptRegistered(Step(s, a))
  {
    SocketsStay(s, a);
    hide ClientInv, Queued, Slow, Recipients, Matches, Removed, Broadcasted, Notified;
  }

  lemma StepKeepsDoomed(s: State, a: Action, c: nat)
    requires Enabled(s, a) && Inv(s) && Doomed(s, c)
    ensures Doomed(Step(s, a), c)
  {
    SocketsStay(s, a);
    if c in s.clients { WhyRemoved(s, a, c); } else { StaysOut(s, a, c); }
    if Result(c, false) in s.results && !(a == Apply && s.results[0] == Result(c, false)) { ResultsStay(s, a, c); }
    hide Inv, Step;
  }

  lemma StaysOut(s: State, a: Action, c: nat)
    requires Enabled(s, a) && c in s.sockets && c !in s.clients
    ensures c !in Step(s, a).clients
  {
    hide Queued, Slow, Recipients, Matches;
  }

  lemma ResultsStay(s: State, a: Action, c: nat)
    requires Enabled(s, a) && Result(c, false) in s.results && !(a == Apply && s.results[0] == Result(c, false))
    ensures Result(c, false) in Step(s, a).results
  {
    if a == Apply { assert s.results == [s.results[0]] + s.results[1..]; }
    hide Queued, Slow, Recipients, Matches, Removed, Broadcasted, Notified;
  }

  lemma {:induction false} RunKeepsDoomed(s: State, actions: seq<Action>, c: nat)
    requires CanRun(s, actions) && Inv(s) && Doomed(s, c)
    ensures Doomed(Run(s, actions), c)
    decreases |actions|
  {
    hide Step, Inv, Doomed;
    if actions != [] {
      StepKeepsInv(s, actions[0]);
      StepKeepsDoomed(s, actions[0], c);
      RunKeepsDoomed(Step(s, actions[0]), actions[1..], c);
    }
  }

  lemma {:induction false} RunKeepsSwept(s: State, actions: seq<Action>)
    requires CanRun(s, actions) && Inv(s) && SweptRegistered(s)
    ensures Inv(Run(s, actions)) && SweptRegistered(Run(s, actions))
    decreases |actions|
  {
    hide Step, Inv, SweptRegistered;
    if actions != [] {
      StepKeepsInv(s, actions[0]);
      StepKeepsSwept(s, actions[0]);
      RunKeepsSwept(Step(s, actions[0]), actions[1..]);
    }
  }

  /** A client whose check fails is out once the loop has taken all results, whatever
      happens before and after. */
  lemma FailedCheckRemoves(revalidates: bool, before: seq<Action>, k: nat, c: nat, after: seq<Action>)
    requires CanRun(Init(revalidates), before) && Enabled(Run(Init(revalidates), before), Report(k, c, false))
    requires CanRun(Step(Run(Init(revalidates), before), Report(k, c, false)), after)
    ensures var t := Run(Step(Run(Init(revalidates), before), Report(k, c, false)), after);
            c in t.sockets && (t.results == [] ==> c !in t.clients)
  {
    var s := Run(Init(revalidates), before);
    RunKeepsSwept(Init(revalidates), before);
    StepKeepsInv(s, Report(k, c, false));
    assert s.sweeps[k] <= s.sockets.Keys;
    assert Step(s, Report(k, c, false)).results[|s.results|] == Result(c, false);
    RunKeepsDoomed(Step(s, Report(k, c, false)), after, c);
  }

  // ---- A request while a sweep runs ----

  lemma StepKeepsPending(s: State, a: Action)
    requires Enabled(s, a) && a != Acknowledge && (s.pending || a != Revalidate)
    ensures Step(s, a).pending == s.pending && Step(s, a).revalidates == s.revalidates
  {
    hide Queued, Slow, Recipients, Matches, Removed, Broadcasted, Notified;
  }

  lemma {:induction false} RunKeepsPending(s: State, actions: seq<Action>)
    requires CanRun(s, actions) && Acknowledge !in actions && (s.pending || Revalidate !in actions)
    ensures Run(s, actions).pending == s.pending && Run(s, actions).revalidates == s.revalidates
    decreases |actions|
  {
    hide Step;
    if actions != [] {
      assert actions[0] in actions && forall a :: a in actions[1..] ==> a in actions;
      StepKeepsPending(s, actions[0]);
      RunKeepsPending(Step(s, actions[0]), actions[1..]);
    }
  }

  lemma AcknowledgeEffect(s: State)
    requires Inv(s) && Enabled(s, Acknowledge)
    ensures var t := Step(s, Acknowledge);
            && !t.pending && t.clients == s.clients
            && t.sweeps == (if s.pending && s.revalidates && s.clients != {} then map[s.started := s.clients] else map[])
            && (t.running <==> t.sweeps != map[])
  {
    assert |s.sweeps| == 0 && s.sweeps == map[];
  }

  /** A request made while a sweep runs is served when that sweep is acknowledged: a new
      one starts, of everyone registered by then. */
  lemma NotedRequestIsServed(revalidates: bool, before: seq<Action>, after: seq<Action>)
    requires CanRun(Init(revalidates), before) && Run(Init(revalidates), before).running && !Run(Init(revalidates), before).stopped
    requires CanRun(Step(Run(Init(revalidates), before), Revalidate), after) && Acknowledge !in after
    requires Enabled(Run(Step(Run(Init(revalidates), before), Revalidate), after), Acknowledge)
    ensures var u := Run(Step(Run(Init(revalidates), before), Revalidate), after);
            var v := Step(u, Acknowledge);
            v.clients == u.clients && v.sweeps == if revalidates && u.clients != {} then map[u.started := u.clients] else map[]
  {
    var s := Run(Init(revalidates), before);
    var u := Run(Step(s, Revalidate), after);
    RunKeepsInv(Init(revalidates), before);
    RunKeepsRevalidates(Init(revalidates), before);
    StepKeepsInv(s, Revalidate);
    RunKeepsInv(Step(s, Revalidate), after);
    RunKeepsPending(Step(s, Revalidate), after);
    AcknowledgeEffect(u);
  }

  lemma {:induction false} RunKeepsRevalidates(s: State, actions: seq<Action>)
    requires CanRun(s, actions)
    ensures Run(s, actions).revalidates == s.revalidates
    decreases |actions|
  {
    if actions != [] {
      StepKeepsRevalidates(s, actions[0]);
      hide Step;
      RunKeepsRevalidates(Step(s, actions[0]), actions[1..]);
    }
  }

  lemma StepKeepsRevalidates(s: State, a: Action)
    requires Enabled(s, a)
    ensures Step(s, a).revalidates == s.revalidates
  {
    hide Queued, Slow, Recipients, Matches, Removed, Broadcasted, Notified;
  }

  /** With no request meanwhile, the acknowledgement ends it. */
  lemma NoRequestNoSweep(revalidates: bool, before: seq<Action>, after: seq<Action>)
    requires CanRun(Init(revalidates), before) && !Run(Init(revalidates), before).pending
    requires CanRun(Run(Init(revalidates), before), after) && Acknowledge !in after && Revalidate !in after
    requires Enabled(Run(Run(Init(revalidates), before), after), Acknowledge)
    ensures var v := Step(Run(Run(Init(revalidates), before), after), Acknowledge); v.sweeps == map[] && !v.running
  {
    RunKeepsInv(Init(revalidates), before);
    RunKeepsInv(Run(Init(revalidates), before), after);
    RunKeepsPending(Run(Init(revalidates), before), after);
    AcknowledgeEffect(Run(Run(Init(revalidates), before), after));
  }

  /** With no sweep running, a request starts one of everyone registered. */
  lemma RequestSweepsEveryone(revalidates: bool, before: seq<Action>)
    requires CanRun(Init(revalidates), before) && !Run(Init(revalidates), before).running && !Run(Init(revalidates), before).stopped
    ensures var s := Run(Init(revalidates), before);
            var t := Step(s, Revalidate);
            && !t.pending && t.sweeps == if revalidates && s.clients != {} then map[s.started := s.clients] else map[]
  {
    var s := Run(Init(revalidates), before);
    RunKeepsInv(Init(revalidates), before);
    RunKeepsRevalidates(Init(revalidates), before);
    assert |s.sweeps| == 0 && s.sweeps == map[];
  }

  // ---- A sweep checks everyone ----

  lemma StepKeepsUnchecked(s: State, a: Action, k: nat, c: nat)
    requires Enabled(s, a) && Inv(s) && k in s.sweeps && c in s.sweeps[k]
    ensures k in Step(s, a).sweeps && (c in Step(s, a).sweeps[k] <==> !(a.Report? && a.sweep == k && a.client == c))
  {
    hide ClientInv, Queued, Slow, Recipients, Matches, Removed, Broadcasted, Notified;
  }

  /** Whoever a sweep has to check has been checked when it finishes. */
  lemma {:induction false} SweepChecksEveryone(s: State, actions: seq<Action>, k: nat, c: nat)
    requires CanRun(s, actions) && Inv(s) && k in s.sweeps && c in s.sweeps[k]
    requires k !in Run(s, actions).sweeps || c !in Run(s, actions).sweeps[k]
    ensures exists i :: 0 <= i < |actions| && actions[i].Report? && actions[i].sweep == k && actions[i].client == c
    decreases |actions|
  {
    hide Step, Inv;
    if actions != [] {
      var a := actions[0];
      StepKeepsInv(s, a);
      StepKeepsUnchecked(s, a, k, c);
      if !(a.Report? && a.sweep == k && a.client == c) {
        SweepChecksEveryone(Step(s, a), actions[1..], k, c);
        var i :| 0 <= i < |actions[1..]| && actions[1..][i].Report? && actions[1..][i].sweep == k && actions[1..][i].client == c;
        assert actions[i + 1] == actions[1..][i];
      }
    }
  }

  // ---- What is written ----

  function Writes(actions: seq<Action>, c: nat): nat {
    if actions == [] then 0 else (if actions[0] == Write(c) then 1 else 0) + Writes(actions[1..], c)
  }

  function Written(s: State, c: nat): int {
    if c in s.sockets then |s.sockets[c].history| - |s.sockets[c].send| else 0
  }

  lemma BroadcastWrites(s: State, m: Message, c: nat)
    ensures Written(Broadcasted(s, m), c) == Written(s, c)
  {
    hide Slow, Recipients;
  }

  lemma StepWrites(s: State, a: Action, c: nat)
    requires Enabled(s, a)
    ensures Written(Step(s, a), c) == Written(s, c) + if a == Write(c) then 1 else 0
  {
    hide Broadcasted, Matches;
    if a.Broadcast? { BroadcastWrites(s, a.message, c); }
  }

  lemma {:induction false} RunWrites(s: State, actions: seq<Action>, c: nat)
    requires CanRun(s, actions)
    ensures Written(Run(s, actions), c) == Written(s, c) + Writes(actions, c)
    decreases |actions|
  {
    hide Step;
    if actions != [] {
      StepWrites(s, actions[0], c);
      RunWrites(Step(s, actions[0]), actions[1..], c);
    }
  }

  /** The n-th write to a socket writes the n-th entry ever queued for it: what is left in
      its queue is the rest. */
  lemma WritesFollowTheQueue(revalidates: bool, actions: seq<Action>, c: nat)
    requires CanRun(Init(revalidates), actions) && c in Run(Init(revalidates), actions).sockets
    ensures var k := Run(Init(revalidates), actions).sockets[c];
            && Writes(actions, c) <= |k.history| && k.send == k.history[Writes(actions, c)..]
  {
    RunKeepsInv(Init(revalidates), actions);
    RunWrites(Init(revalidates), actions, c);
    hide Run, Posts, Owed;
    assert ClientInv(Run(Init(revalidates), actions), c);
  }

  /** A message that was not saved reaches nobody; its sender is told so, if its queue has
      room. */
  lemma NotSavedReachesNobody(s: State, m: Message, sender: Option<nat>, c: nat)
    requires Enabled(s, Broadcast(m, false, sender)) && c in s.sockets
    ensures var t := Step(s, Broadcast(m, false, sender));
            && t.accepted == s.accepted && t.clients == s.clients && c in t.sockets
            && t.sockets[c].history == s.sockets[c].history
               + if sender == Some(c) && |s.sockets[c].send| < 64 then [Notice("message_not_saved")] else []
  {
  }

  // ---- What can happen ----

  ghost predicate Bounded(s: State) {
    |s.results| <= 128 && s.dones <= 1
  }

  lemma StepKeepsBounds(s: State, a: Action)
    requires Enabled(s, a) && Bounded(s)
    ensures Bounded(Step(s, a)) && (Step(s, a).stopped <==> s.stopped || a == Stop)
  {
    hide Queued, Slow, Recipients, Matches, Removed, Broadcasted, Notified;
  }

  lemma {:induction false} RunKeepsBounds(s: State, actions: seq<Action>)
    requires CanRun(s, actions) && Bounded(s)
    ensures Bounded(Run(s, actions)) && (Run(s, actions).stopped <==> s.stopped || Stop in actions)
    decreases |actions|
  {
    if actions != [] {
      StepKeepsBounds(s, actions[0]);
      hide Step;
      RunKeepsBounds(Step(s, actions[0]), actions[1..]);
    }
  }

  /** Until Stop the hub takes every request, no sweep is stuck, and what the channels
      hold is bounded: each client still to be checked can report now or once the loop has
      taken a result, a sweep with nobody left to check can finish, and a finished one be
      acknowledged. */
  lemma NothingGetsStuck(revalidates: bool, actions: seq<Action>, c: nat, user: string, group: string, m: Message, k: nat)
    requires CanRun(Init(revalidates), actions) && Stop !in actions
    ensures var s := Run(Init(revalidates), actions);
            && |s.results| <= 128 && s.dones <= 1
            && Enabled(s, Unregister(c)) && Enabled(s, Disconnect(user, group)) && Enabled(s, Broadcast(m, true, None))
            && Enabled(s, Revalidate) && Enabled(s, Stop)
            && (Enabled(s, Register(c, user, group)) <==> c !in s.sockets)
            && (Enabled(s, Apply) <==> s.results != [])
            && (k in s.sweeps && c in s.sweeps[k] ==> Enabled(s, Apply) || (Enabled(s, Report(k, c, true)) && Enabled(s, Report(k, c, false))))
            && (k in s.sweeps && s.sweeps[k] == {} ==> Enabled(s, Finish(k)))
            && (Enabled(s, Acknowledge) <==> s.dones == 1)
  {
    RunKeepsBounds(Init(revalidates), actions);
    RunKeepsInv(Init(revalidates), actions);
    var s := Run(Init(revalidates), actions);
    hide Run;
    if k in s.sweeps { assert |s.sweeps| > 0 by { assert k in s.sweeps.Keys; } }
  }

  lemma StepStaysStopped(s: State, a: Action)
    requires Enabled(s, a) && s.stopped && s.clients == {}
    ensures (a.System? || a.Write?) && Step(s, a).stopped && Step(s, a).clients == {} && Step(s, a).accepted == s.accepted
  {
    hide Queued;
  }

  /** After Stop nobody is registered, and nothing is accepted any more. */
  lemma {:induction false} NothingAfterStop(s: State, actions: seq<Action>)
    requires CanRun(s, actions) && s.stopped && s.clients == {}
    ensures Run(s, actions).clients == {} && Run(s, actions).accepted == s.accepted
    decreases |actions|
  {
    if actions != [] {
      StepStaysStopped(s, actions[0]);
      hide Step;
      NothingAfterStop(Step(s, actions[0]), actions[1..]);
    }
  }

  lemma StopClears(s: State)
    requires Enabled(s, Stop)
    ensures Step(s, Stop).stopped && Step(s, Stop).clients == {}
  {
  }
}
