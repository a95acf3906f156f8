/** A chat socket controller that is started again, any number of times: start() takes the
    generation back to 0 (frontend/src/chat/chatSocketController.ts:257-267), so whatever
    an earlier sequence left pending becomes current once more when the count reaches its
    generation. */
module ChatRestart {
  import opened Ordering
  import opened ChatSocket

  /** No reconnect timer, ticket request, page request or live socket. */
  ghost predicate NothingPending(s: State) {
    s.timers == {} && s.tickets == map[] && s.fetches == map[] && forall w :: !IsLive(s, w)
  }

  ghost predicate OneAtATime(s: State) {
    (forall v, w :: IsLive(s, v) && IsLive(s, w) ==> v == w) && |s.timers| <= 1
  }

  /** However the sequence begun by a start in `s` goes on, until the next start: there is
      one live socket and one timer at most, and no page request from before is answered
      as if it were the new sequence's. */
  ghost predicate CleanStart(s: State) {
    forall actions :: Start !in actions && CanRun(Step(s, Start), actions) ==>
      var t := Run(Step(s, Start), actions);
      OneAtATime(t) && forall f :: f in s.fetches && f in t.fetches ==> !Current(t, t.fetches[f].generation)
  }

  // ---- What every step keeps, however often the controller is started ----

  ghost predicate IdInv(s: State) {
    && (forall t :: t in s.timers ==> t < s.nextId)
    && (forall k :: k in s.tickets ==> k < s.nextId && s.tickets[k].generation >= 1)
    && (forall w :: w in s.sockets ==> w < s.nextId && s.sockets[w].generation >= 1)
    && (forall f :: f in s.fetches ==> f < s.nextId && s.fetches[f].generation >= 1)
  }

  lemma FetchKeepsIds(s: State, a: Action)
    requires Enabled(s, a) && (a.Reply? || a.ReplyFails? || a.Read?) && IdInv(s)
    ensures IdInv(Step(s, a))
  {
    hide Advanced, PageOf, Range, Appends, Delivered;
    ReplyChanges(s, a);
    if a.Reply? {
      var f, page := s.fetches[a.fetch], s.fetches[a.fetch].page.value;
      DeliveredChanges(s.(fetches := s.fetches - {a.fetch}, cursor := StableCursor(page)), f, page);
    }
  }

  lemma WireKeepsIds(s: State, a: Action)
    requires Enabled(s, a) && (a.Accept? || a.Open? || a.Live?) && IdInv(s)
    ensures IdInv(Step(s, a))
  {
    hide Appends;
    WireChanges(s, a);
  }

  lemma SignalKeepsIds(s: State, a: Action)
    requires Enabled(s, a) && (a.Garbage? || a.WireError? || a.Post?) && IdInv(s)
    ensures IdInv(Step(s, a))
  {
    hide Appends, Step;
    SignalChanges(s, a);
  }

  lemma SamePending(s: State, t: State)
    requires IdInv(s) && t.timers <= s.timers && t.tickets == s.tickets && t.sockets == s.sockets && t.fetches == s.fetches && t.nextId == s.nextId
    ensures IdInv(t)
  {
  }

  lemma ConnectKeepsIds(s: State)
    requires IdInv(s)
    ensures IdInv(Connect(s))
  {
    hide Say, SetPhase, Appends;
  }

  lemma TicketKeepsIds(s: State, a: Action)
    requires Enabled(s, a) && (a.TicketOk? || a.TicketFails?) && IdInv(s)
    ensures IdInv(Step(s, a))
  {
    hide Say, SetPhase, Appends;
  }

  lemma StopKeepsIds(s: State)
    requires IdInv(s)
    ensures IdInv(AfterStop(s))
  {
    hide Say, SetPhase, Appends;
  }

  lemma CloseKeepsIds(s: State, ws: nat)
    requires ws in s.sockets && IdInv(s)
    ensures IdInv(AfterClose(s, ws))
  {
    hide Say, SetPhase, Appends;
  }

  lemma ConnectionKeepsIds(s: State, a: Action)
    requires Enabled(s, a) && !Quiet(a) && IdInv(s)
    ensures IdInv(Step(s, a))
  {
    hide Connect, AfterStop, AfterClose, IdInv;
    match a
    case Start =>
      var t := s.(stopped := false, generation := 0, retry := 0, hasConnected := false, starts := s.starts + 1);
      SamePending(s, t);
      ConnectKeepsIds(t);
    case Fire(timer) =>
      var t := s.(timers := s.timers - {timer});
      SamePending(s, t);
      ConnectKeepsIds(t);
    case Stop => StopKeepsIds(s);
    case Close(w) => CloseKeepsIds(s, w);
    case _ => TicketKeepsIds(s, a);
  }

  lemma StepKeepsIds(s: State, a: Action)
    requires Enabled(s, a) && IdInv(s)
    ensures IdInv(Step(s, a))
  {
    hide Step, IdInv;
    if a.Reply? || a.ReplyFails? || a.Read? {
      FetchKeepsIds(s, a);
    } else if a.Accept? || a.Open? || a.Live? {
      WireKeepsIds(s, a);
    } else if Quiet(a) {
      SignalKeepsIds(s, a);
    } else {
      ConnectionKeepsIds(s, a);
    }
  }

  lemma {:induction false} RunKeepsIds(s: State, actions: seq<Action>)
    requires CanRun(s, actions) && IdInv(s)
    ensures IdInv(Run(s, actions))
    decreases |actions|
  {
    hide Step, IdInv;
    if actions != [] {
      StepKeepsIds(s, actions[0]);
      RunKeepsIds(Step(s, actions[0]), actions[1..]);
    }
  }

  lemma ReachableIds(s: State)
    requires Reachable(s)
    ensures IdInv(s)
  {
    var count, actions :| CanRun(Init(count), actions) && s == Run(Init(count), actions);
    RunKeepsIds(Init(count), actions);
  }

  // ---- A start with nothing pending is clean ----

  lemma StartAfresh(s: State)
    requires IdInv(s) && NothingPending(s)
    ensures FreshInv(Step(s, Start)) && Fits(Step(s, Start), Ticket(s.nextId))
  {
    hide Appends;
    forall w ensures !IsLive(Step(s, Start), w) { assert !IsLive(s, w); }
  }

  lemma {:induction false} RunFits(s: State, act: Activity, actions: seq<Action>)
    requires CanRun(s, actions) && Start !in actions && Fits(s, act) && FreshInv(s)
    ensures exists later :: Fits(Run(s, actions), later)
    decreases |actions|
  {
    hide Step, Fits, FreshInv, NextActivity;
    if actions == [] {
      assert Fits(Run(s, actions), act);
    } else {
      var a := actions[0];
      assert a in actions && forall b :: b in actions[1..] ==> b in actions;
      StepFits(s, act, a);
      StepKeepsFresh(s, a);
      RunFits(Step(s, a), NextActivity(s, act, a), actions[1..]);
      assert Run(s, actions) == Run(Step(s, a), actions[1..]);
    }
  }

  lemma FitsOneAtATime(s: State, act: Activity)
    requires Fits(s, act)
    ensures OneAtATime(s)
  {
    forall w ensures IsLive(s, w) <==> act == Wired(w) {}
  }

  lemma NothingPendingIsClean(s: State)
    requires Reachable(s) && NothingPending(s)
    ensures CleanStart(s)
  {
    ReachableIds(s);
    StartAfresh(s);
    hide Fits, FreshInv, IdInv, Step, OneAtATime;
    var t := Step(s, Start);
    forall actions | Start !in actions && CanRun(t, actions) ensures OneAtATime(Run(t, actions)) {
      RunFits(t, Ticket(s.nextId), actions);
      var act :| Fits(Run(t, actions), act);
      FitsOneAtATime(Run(t, actions), act);
    }
  }

  // ---- A start with something pending is not ----

  /** A later state of the same sequence: a ticket request `k` of generation `g` is out,
      and everything else that was pending still is. */
  ghost predicate Redialled(s: State, t: State, k: nat, g: nat) {
    && IdInv(t) && !t.stopped && t.generation == g && k in t.tickets && t.tickets[k].generation == g
    && t.fetches == s.fetches && t.sockets == s.sockets
  }

  lemma RunPair(s: State, a: Action, b: Action)
    requires Enabled(s, a) && Enabled(Step(s, a), b)
    ensures CanRun(s, [a, b]) && Run(s, [a, b]) == Step(Step(s, a), b)
  {
    hide Step, Enabled;
    var t := Step(s, a);
    assert [a, b][1..] == [b] && [b][1..] == [];
    assert CanRun(Step(t, b), []) && Run(Step(t, b), []) == Step(t, b);
    assert CanRun(t, [b]) && Run(t, [b]) == Step(t, b);
  }

  lemma RedialOnce(s: State, k: nat) returns (t: State, after: nat)
    requires IdInv(s) && !s.stopped && k in s.tickets && s.tickets[k].generation == s.generation
    ensures var actions := [TicketFails(k, true), Fire(s.nextId)];
            CanRun(s, actions) && Run(s, actions) == t
    ensures Redialled(s, t, after, s.generation + 1) && after >= s.nextId && t.nextId >= s.nextId
    ensures forall j :: j in s.tickets && j != k ==> j in t.tickets && t.tickets[j] == s.tickets[j]
  {
    hide Appends;
    var u := Step(s, TicketFails(k, true));
    StepKeepsIds(s, TicketFails(k, true));
    assert s.nextId in u.timers && u.fetches == s.fetches && u.sockets == s.sockets && u.generation == s.generation && !u.stopped;
    t, after := Step(u, Fire(s.nextId)), u.nextId;
    StepKeepsIds(u, Fire(s.nextId));
    RunPair(s, TicketFails(k, true), Fire(s.nextId));
  }

  lemma {:induction false} RunTwice(s: State, a: seq<Action>, b: seq<Action>)
    requires CanRun(s, a) && CanRun(Run(s, a), b)
    ensures CanRun(s, a + b) && Run(s, a + b) == Run(Run(s, a), b)
    decreases |a|
  {
    hide Step;
    if a == [] {
      assert a + b == b;
    } else {
      assert (a + b)[1..] == a[1..] + b;
      RunTwice(Step(s, a[0]), a[1..], b);
    }
  }

  /** The count of generations can be made to reach any number. */
  lemma {:induction false} RedialTo(s: State, k: nat, g: nat) returns (actions: seq<Action>, t: State, after: nat)
    requires IdInv(s) && !s.stopped && k in s.tickets && s.tickets[k].generation == s.generation <= g
    ensures Start !in actions && CanRun(s, actions) && Run(s, actions) == t && Redialled(s, t, after, g)
    ensures after == k || after >= s.nextId
    ensures forall j :: j in s.tickets && j != k ==> j in t.tickets && t.tickets[j] == s.tickets[j]
    decreases g - s.generation
  {
    hide Step, IdInv;
    if s.generation == g {
      actions, t, after := [], s, k;
    } else {
      var first := [TicketFails(k, true), Fire(s.nextId)];
      var u, next := RedialOnce(s, k);
      assert forall j :: j in s.tickets ==> j < s.nextId by { IdsOfTickets(s); }
      var rest;
      rest, t, after := RedialTo(u, next, g);
      RunTwice(s, first, rest);
      actions := first + rest;
    }
  }

  lemma IdsOfTickets(s: State)
    requires IdInv(s)
    ensures forall j :: j in s.tickets ==> j < s.nextId
  {
  }

  lemma StartEffect(s: State)
    requires IdInv(s)
    ensures var t := Step(s, Start);
            && IdInv(t) && !t.stopped && t.generation == 1 && t.timers == s.timers && t.sockets == s.sockets && t.fetches == s.fetches
            && s.nextId in t.tickets && t.tickets[s.nextId].generation == 1 && t.nextId == s.nextId + 1
            && forall j :: j in s.tickets ==> j != s.nextId && j in t.tickets && t.tickets[j] == s.tickets[j]
  {
    hide Appends;
  }

  /** A timer from before and the one of a failed first attempt. */
  lemma TimerIsUnclean(s: State, timer: nat)
    requires IdInv(s) && timer in s.timers
    ensures !CleanStart(s)
  {
    hide Appends;
    StartEffect(s);
    var t, a := Step(s, Start), TicketFails(s.nextId, true);
    var u := Step(t, a);
    assert Start !in [a] && CanRun(t, [a]) && Run(t, [a]) == u by { assert [a][1..] == []; assert Run(u, []) == u; }
    assert t.nextId in u.timers && timer in u.timers && timer != t.nextId;
    assert {timer, t.nextId} <= u.timers;
    SubsetSize({timer, t.nextId}, u.timers);
  }

  lemma {:induction false} SubsetSize(a: set<nat>, b: set<nat>)
    requires a <= b
    ensures |a| <= |b|
  {
    if a != {} {
      var x :| x in a;
      SubsetSize(a - {x}, b - {x});
    }
  }

  /** The new sequence opens a second socket beside a live one. */
  lemma SocketIsUnclean(s: State, ws: nat)
    requires IdInv(s) && IsLive(s, ws)
    ensures !CleanStart(s)
  {
    hide Appends;
    StartEffect(s);
    var t, a := Step(s, Start), TicketOk(s.nextId);
    var u := Step(t, a);
    assert Start !in [a] && CanRun(t, [a]) && Run(t, [a]) == u by { assert [a][1..] == []; assert Run(u, []) == u; }
    assert IsLive(u, ws) && IsLive(u, t.nextId) && ws != t.nextId;
  }

  /** A ticket request from before, once its generation has come round again. */
  lemma TicketIsUnclean(s: State, ticket: nat)
    requires IdInv(s) && ticket in s.tickets
    ensures !CleanStart(s)
  {
    hide Step;
    StartEffect(s);
    var t := Step(s, Start);
    var actions, u, k := RedialTo(t, s.nextId, s.tickets[ticket].generation);
    assert ticket in u.tickets && k != ticket;
    var v := TwoSockets(u, ticket, k);
    var both := [TicketOk(ticket), TicketOk(k)];
    RunTwice(t, actions, both);
    assert Start !in actions + both;
  }

  lemma TwoSockets(s: State, j: nat, k: nat) returns (t: State)
    requires IdInv(s) && !s.stopped && j in s.tickets && k in s.tickets && j != k
    requires s.tickets[j].generation == s.generation == s.tickets[k].generation
    ensures var both := [TicketOk(j), TicketOk(k)];
            CanRun(s, both) && t == Run(s, both) && !OneAtATime(t)
  {
    hide Appends;
    var u := Step(s, TicketOk(j));
    t := Step(u, TicketOk(k));
    RunPair(s, TicketOk(j), TicketOk(k));
    assert IsLive(t, s.nextId) && IsLive(t, s.nextId + 1);
  }

  /** A page request from before, likewise. */
  lemma FetchIsUnclean(s: State, fetch: nat)
    requires IdInv(s) && fetch in s.fetches
    ensures !CleanStart(s)
  {
    hide Step;
    StartEffect(s);
    var t := Step(s, Start);
    var actions, u, k := RedialTo(t, s.nextId, s.fetches[fetch].generation);
    assert fetch in u.fetches && Current(u, u.fetches[fetch].generation);
  }

  /** However often the controller was started before: a start is clean if and only if
      nothing from before is pending. Whatever is pending can be revived, since the
      count of generations comes round to it. */
  lemma CleanIffNothingPending(s: State)
    requires Reachable(s)
    ensures CleanStart(s) <==> NothingPending(s)
  {
    ReachableIds(s);
    hide IdInv, CleanStart, Reachable;
    if t :| t in s.timers {
      TimerIsUnclean(s, t);
    } else if k :| k in s.tickets {
      TicketIsUnclean(s, k);
    } else if f :| f in s.fetches {
      FetchIsUnclean(s, f);
    } else if w :| IsLive(s, w) {
      SocketIsUnclean(s, w);
    } else {
      NothingPendingIsClean(s);
    }
  }

  /** start() takes the generation back to 0, so after a stop and a second start the
      first sequence's ticket reply passes for a current one: two sockets are live. */
  lemma RestartRevivesTheFirstSequence() returns (s: State, v: nat, w: nat)
    ensures Reachable(s) && s.starts == 2 && v != w && IsLive(s, v) && IsLive(s, w)
  {
    hide Reachable;
    InitReachable(0);
    var s1 := Step(Init(0), Start);
    Next(Init(0), Start, s1);
    assert s1.tickets == map[0 := Attempt(1, None)] && s1.nextId == 1 && s1.phase == Connecting && s1.generation == 1;
    var s2 := Step(s1, Stop);
    Next(s1, Stop, s2);
    assert s2.tickets == map[0 := Attempt(1, None)] && s2.nextId == 1 && s2.phase == Stopped && s2.sockets == map[];
    var s3 := Step(s2, Start);
    Next(s2, Start, s3);
    assert s3.tickets == map[0 := Attempt(1, None), 1 := Attempt(1, None)] && s3.nextId == 2 && s3.generation == 1 && !s3.stopped && s3.starts == 2;
    var s4 := Step(s3, TicketOk(0));
    Next(s3, TicketOk(0), s4);
    assert s4.tickets == map[1 := Attempt(1, None)] && IsLive(s4, 2) && s4.nextId == 3 && s4.generation == 1 && !s4.stopped && s4.starts == 2;
    s := Step(s4, TicketOk(1));
    Next(s4, TicketOk(1), s);
    v, w := 2, 3;
  }
}
