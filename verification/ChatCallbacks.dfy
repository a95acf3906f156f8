/** What a chat host is told (frontend/src/chat/chatSocketController.ts:142-257): the first
    page of the first sync once and as such, every message it is given, the phase and the
    socket it is at. */
module ChatCallbacks {
  import opened Ordering
  import opened ChatSocket
  import opened ChatDelivery

  // ---- The first page ----

  /** A record of a run: the generation of the first open, and the first page that
      arrived for it while it was current. */
  datatype Watch = Watch(opener: Option<nat>, first: Option<Page>)

  const NOTHING_YET := Watch(None, None)

  function WatchStep(s: State, w: Watch, a: Action): Watch
    requires Enabled(s, a)
  {
    match a
    case Open(ws) =>
      if w.opener.None? && Current(s, s.sockets[ws].generation) then w.(opener := Some(s.sockets[ws].generation)) else w
    case Reply(f) =>
      if w.first.None? && w.opener == Some(s.fetches[f].generation) && Current(s, s.fetches[f].generation) then w.(first := s.fetches[f].page) else w
    case _ => w
  }

  ghost function WatchRun(s: State, w: Watch, actions: seq<Action>): Watch
    requires CanRun(s, actions)
    decreases |actions|
  {
    if actions == [] then w else WatchRun(Step(s, actions[0]), WatchStep(s, w, actions[0]), actions[1..])
  }

  ghost predicate Announced(log: seq<Entry>, g: nat, page: Page, i: nat) {
    && i + 1 < |log| && log[i] == Entry(g, FirstPage(page.lo, page.hi)) && log[i + 1] == Entry(g, Callback.Messages(page.lo, page.hi))
    && forall j :: 0 <= j < |log| && log[j].callback.FirstPage? ==> j == i
  }

  ghost predicate Unannounced(log: seq<Entry>) {
    forall j :: 0 <= j < |log| ==> !log[j].callback.FirstPage?
  }

  ghost predicate LogInv(s: State, w: Watch) {
    if w.first.Some? then w.opener.Some? && exists i :: Announced(s.log, w.opener.value, w.first.value, i) else Unannounced(s.log)
  }

  /** Page requests are marked first exactly while their generation's first page is owed. */
  ghost predicate MarkInv(s: State, w: Watch) {
    && (w.opener.Some? <==> s.hasConnected) && (w.opener.Some? ==> w.opener.value <= s.generation)
    && (s.starts == 0 ==> !s.hasConnected) && (w.opener.None? ==> w.first.None? && s.fetches == map[])
    && forall f :: f in s.fetches ==> (s.fetches[f].first <==> w.opener == Some(s.fetches[f].generation) && w.first.None?)
  }

  /** A generation opens once. */
  ghost predicate OpenInv(s: State, w: Watch, act: Activity) {
    w.opener == Some(s.generation) && !s.stopped ==>
      !act.Ticket? && (act.Wired? && act.ws in s.sockets ==> s.sockets[act.ws].wire == Opened)
  }

  ghost predicate WatchInv(s: State, w: Watch) {
    s.starts <= 1 ==>
      FreshInv(s) && LogInv(s, w) && MarkInv(s, w) && exists act :: Fits(s, act) && DeliveryInv(s, act) && OpenInv(s, w, act)
  }

  predicate Pages(callback: Callback) {
    callback.FirstPage? || callback.Messages?
  }

  /** A later log without further messages. */
  ghost predicate Adds(before: seq<Entry>, after: seq<Entry>) {
    && |before| <= |after| && after[..|before|] == before
    && forall j :: |before| <= j < |after| ==> !Pages(after[j].callback)
  }

  lemma AddsTwice(before: seq<Entry>, between: seq<Entry>, after: seq<Entry>)
    requires Adds(before, between) && Adds(between, after)
    ensures Adds(before, after)
  {
    assert after[..|before|] == after[..|between|][..|before|];
    forall j | |before| <= j < |between| ensures !Pages(after[j].callback) { assert after[..|between|][j] == between[j]; }
  }

  lemma SayAdds(s: State, g: nat, callback: Callback)
    requires !Pages(callback)
    ensures Adds(s.log, Say(s, g, callback).log)
  {
  }

  lemma SetPhaseAdds(s: State, g: nat, phase: Phase)
    ensures Adds(s.log, SetPhase(s, g, phase).log)
  {
  }

  lemma StopAdds(s: State)
    ensures Adds(s.log, AfterStop(s).log)
  {
    hide Say, SetPhase, Adds;
    var t := s.(stopped := true, generation := s.generation + 1, reconnectTimer := None,
                timers := if s.reconnectTimer.Some? then s.timers - {s.reconnectTimer.value} else s.timers);
    if s.socket.None? {
      SetPhaseAdds(t, t.generation, Stopped);
    } else {
      var sockets := if s.socket.value in s.sockets then s.sockets[s.socket.value := s.sockets[s.socket.value].(wire := Closed)] else s.sockets;
      var u := t.(sockets := sockets, socket := None);
      SayAdds(u, t.generation, SocketChange(None));
      SetPhaseAdds(Say(u, t.generation, SocketChange(None)), t.generation, Stopped);
      AddsTwice(s.log, Say(u, t.generation, SocketChange(None)).log, AfterStop(s).log);
    }
  }

  lemma ConnectAdds(s: State)
    ensures Adds(s.log, Connect(s).log)
  {
    var t := s.(generation := s.generation + 1, progress := NOT_BEGUN);
    SetPhaseAdds(t, t.generation, Connecting);
    hide SetPhase;
  }

  lemma NoTicketAdds(s: State, ticket: nat, retryable: bool)
    requires ticket in s.tickets
    ensures Adds(s.log, AfterNoTicket(s, ticket, retryable).log)
  {
    var a, t := s.tickets[ticket], s.(tickets := s.tickets - {ticket});
    if Current(s, a.generation) {
      SayAdds(t, a.generation, Failure);
      SetPhaseAdds(Say(t, a.generation, Failure), a.generation, Offline);
      hide Say, SetPhase, Adds;
      AddsTwice(s.log, Say(t, a.generation, Failure).log, SetPhase(Say(t, a.generation, Failure), a.generation, Offline).log);
    }
  }

  lemma CloseAdds(s: State, ws: nat)
    requires ws in s.sockets
    ensures Adds(s.log, AfterClose(s, ws).log)
  {
    var k := s.sockets[ws];
    var t := s.(sockets := s.sockets[ws := k.(wire := Closed)]);
    if Current(s, k.generation) {
      var u := if s.socket == Some(ws) then Say(t.(socket := None), k.generation, SocketChange(None)) else t;
      assert Adds(s.log, u.log);
      SetPhaseAdds(u, k.generation, Offline);
      hide Say, SetPhase, Adds;
      AddsTwice(s.log, u.log, SetPhase(u, k.generation, Offline).log);
    }
  }

  lemma OpenAdds(s: State, ws: nat)
    requires ws in s.sockets
    ensures Adds(s.log, AfterOpen(s, ws).log)
  {
    var k := s.sockets[ws];
    SetPhaseAdds(s.(sockets := s.sockets[ws := k.(wire := Opened)], retry := 0), k.generation, Connected);
    hide SetPhase;
  }

  /** Only page replies and live messages speak of messages. */
  lemma OthersAnnounceNothing(s: State, a: Action)
    requires Enabled(s, a) && !a.Reply? && !a.Live?
    ensures Adds(s.log, Step(s, a).log)
  {
    hide Say, SetPhase, AfterStop, Connect, AfterNoTicket, AfterClose, AfterOpen;
    match a
    case Start => ConnectAdds(s.(stopped := false, generation := 0, retry := 0, hasConnected := false, starts := s.starts + 1));
    case Stop => StopAdds(s);
    case Fire(timer) => ConnectAdds(s.(timers := s.timers - {timer}));
    case TicketOk(k) => TicketAdds(s, k);
    case TicketFails(k, retryable) => NoTicketAdds(s, k, retryable);
    case Open(w) => OpenAdds(s, w);
    case Close(w) => CloseAdds(s, w);
    case Garbage(w) => SayAdds(s, s.sockets[w].generation, Failure);
    case WireError(w) => SetPhaseAdds(s, s.sockets[w].generation, Offline);
    case ReplyFails(f) => SayAdds(s.(fetches := s.fetches - {f}), s.fetches[f].generation, Failure);
    case _ =>
  }

  lemma TicketAdds(s: State, ticket: nat)
    requires ticket in s.tickets
    ensures Adds(s.log, AfterTicket(s, ticket).log)
  {
  }

  /** A live message of the current generation. */
  lemma LiveLog(s: State, ws: nat)
    requires Enabled(s, Live(ws))
    ensures var k, t := s.sockets[ws], Step(s, Live(ws));
            if Current(s, k.generation) then t.log == s.log + [Entry(k.generation, Callback.Messages(k.next, k.next + 1))] && t.given == s.given + {k.next}
            else t.log == s.log && t.given == s.given
  {
  }

  lemma QuietLog(s: State, t: State, w: Watch)
    requires LogInv(s, w) && |s.log| <= |t.log| && t.log[..|s.log|] == s.log
    requires forall j :: |s.log| <= j < |t.log| ==> !t.log[j].callback.FirstPage?
    ensures LogInv(t, w)
  {
    forall j | 0 <= j < |s.log| ensures t.log[j] == s.log[j] { assert t.log[..|s.log|][j] == s.log[j]; }
    if w.first.Some? {
      var i :| Announced(s.log, w.opener.value, w.first.value, i);
      assert Announced(t.log, w.opener.value, w.first.value, i);
    }
  }

  /** A page that arrives for the current generation. */
  lemma ReplyLog(s: State, f: nat)
    requires Enabled(s, Reply(f)) && Current(s, s.fetches[f].generation)
    ensures var q, page := s.fetches[f], s.fetches[f].page.value;
            Step(s, Reply(f)).log == s.log + (if q.first then [Entry(q.generation, FirstPage(page.lo, page.hi))] else [])
                                     + [Entry(q.generation, Callback.Messages(page.lo, page.hi))]
  {
    hide Advanced, Range;
  }

  lemma LateReplyLog(s: State, f: nat)
    requires Enabled(s, Reply(f)) && !Current(s, s.fetches[f].generation)
    ensures Step(s, Reply(f)).log == s.log
  {
    hide Advanced, Range, Delivered;
  }

  lemma ReplyKeepsLog(s: State, w: Watch, f: nat)
    requires Enabled(s, Reply(f)) && LogInv(s, w) && MarkInv(s, w)
    ensures LogInv(Step(s, Reply(f)), WatchStep(s, w, Reply(f)))
  {
    hide Step, Delivered;
    var q, t, v := s.fetches[f], Step(s, Reply(f)), WatchStep(s, w, Reply(f));
    if Current(s, q.generation) {
      ReplyLog(s, f);
      if q.first {
        assert Announced(t.log, q.generation, q.page.value, |s.log|);
      } else {
        QuietLog(s, t, w);
      }
    } else {
      LateReplyLog(s, f);
    }
  }

  lemma ReplyKeepsMarks(s: State, w: Watch, act: Activity, f: nat)
    requires Enabled(s, Reply(f)) && MarkInv(s, w) && FreshInv(s) && DeliveryInv(s, act)
    ensures MarkInv(Step(s, Reply(f)), WatchStep(s, w, Reply(f)))
  {
    hide Delivered, Advanced, Range, Covers;
    var q, t, v := s.fetches[f], Step(s, Reply(f)), WatchStep(s, w, Reply(f));
    ReplyChanges(s, Reply(f));
    if Current(s, q.generation) {
      ReplyEffect(s, f);
      assert QueryInv(s, f) && IsCurrentFetch(s, f);
      hide Step;
      assert t.hasConnected == s.hasConnected && t.starts == s.starts;
      forall h | h in s.fetches && s.fetches[h].generation == q.generation ensures h == f { assert IsCurrentFetch(s, h); }
    }
  }

  lemma OtherKeepsMarks(s: State, w: Watch, a: Action)
    requires Enabled(s, a) && !a.Reply? && !a.Open? && !a.Start? && MarkInv(s, w)
    ensures MarkInv(Step(s, a), w)
  {
    hide Say, SetPhase, Appends;
  }

  lemma StartKeepsMarks(s: State, w: Watch)
    requires s.starts == 0 && FreshInv(s) && MarkInv(s, w)
    ensures MarkInv(Step(s, Start), w)
  {
    hide Say, SetPhase, Appends;
  }

  lemma OpenKeepsMarks(s: State, w: Watch, act: Activity, ws: nat)
    requires Enabled(s, Open(ws)) && MarkInv(s, w) && Fits(s, act) && FreshInv(s) && OpenInv(s, w, act)
    ensures MarkInv(Step(s, Open(ws)), WatchStep(s, w, Open(ws)))
  {
    hide Say, SetPhase, Appends;
    assert IsLive(s, ws);
    assert s.fetches == map[] || s.hasConnected;
  }

  lemma QuietKeepsOpen(s: State, w: Watch, act: Activity, a: Action)
    requires Enabled(s, a) && Quiet(a) && OpenInv(s, w, act) && Fits(s, act) && FreshInv(s)
    ensures OpenInv(Step(s, a), WatchStep(s, w, a), act)
  {
    hide Appends, FreshInv;
    if a.Reply? || a.ReplyFails? || a.Read? {
      ReplyChanges(s, a);
      hide Step;
    } else if a.Accept? || a.Open? || a.Live? {
      WireChanges(s, a);
      assert IsLive(s, a.ws) && (act.Wired? && Current(s, s.sockets[a.ws].generation) ==> act.ws == a.ws);
      OpenOpens(s, a);
      hide Step;
    } else {
      SignalChanges(s, a);
      hide Step;
    }
  }

  lemma OpenOpens(s: State, a: Action)
    requires Enabled(s, a) && (a.Accept? || a.Open? || a.Live?)
    ensures !a.Accept? ==> Step(s, a).sockets[a.ws].wire == Opened
    ensures a.Accept? ==> s.sockets[a.ws].wire == Handshake
  {
    hide Say, SetPhase, Appends;
  }

  lemma OtherKeepsOpen(s: State, w: Watch, act: Activity, a: Action)
    requires Enabled(s, a) && !Quiet(a) && (a == Start ==> s.starts == 0) && MarkInv(s, w) && OpenInv(s, w, act) && Fits(s, act) && FreshInv(s)
    ensures OpenInv(Step(s, a), WatchStep(s, w, a), NextActivity(s, act, a))
  {
    hide Say, SetPhase, Appends;
  }

  lemma StepKeepsLog(s: State, w: Watch, a: Action)
    requires Enabled(s, a) && LogInv(s, w) && MarkInv(s, w)
    ensures LogInv(Step(s, a), WatchStep(s, w, a))
  {
    if a.Reply? {
      ReplyKeepsLog(s, w, a.fetch);
    } else {
      if a.Live? { LiveLog(s, a.ws); } else { OthersAnnounceNothing(s, a); }
      hide Step, MarkInv;
      if a.Open? && w.opener.None? { assert w.first.None? by { NoneFirst(s, w); } }
      assert WatchStep(s, w, a).first == w.first && (w.opener.Some? ==> WatchStep(s, w, a).opener == w.opener);
      QuietLog(s, Step(s, a), w);
    }
  }

  lemma NoneFirst(s: State, w: Watch)
    requires MarkInv(s, w) && w.opener.None?
    ensures w.first.None?
  {
  }

  lemma StepKeepsMarks(s: State, w: Watch, act: Activity, a: Action)
    requires Enabled(s, a) && (a == Start ==> s.starts == 0) && MarkInv(s, w) && FreshInv(s) && Fits(s, act) && DeliveryInv(s, act) && OpenInv(s, w, act)
    ensures MarkInv(Step(s, a), WatchStep(s, w, a))
  {
    hide Step, MarkInv, FreshInv, Fits, DeliveryInv, OpenInv;
    match a
    case Reply(f) => ReplyKeepsMarks(s, w, act, f);
    case Open(ws) => OpenKeepsMarks(s, w, act, ws);
    case Start => StartKeepsMarks(s, w);
    case _ => OtherKeepsMarks(s, w, a);
  }

  lemma StepKeepsWatch(s: State, w: Watch, a: Action)
    requires Enabled(s, a) && WatchInv(s, w)
    ensures WatchInv(Step(s, a), WatchStep(s, w, a))
  {
    hide Step, LogInv, MarkInv, OpenInv, Fits, FreshInv, DeliveryInv, WatchStep;
    StartsOnlyGrow(s, a);
    if Step(s, a).starts <= 1 {
      var act :| Fits(s, act) && DeliveryInv(s, act) && OpenInv(s, w, act);
      StepFits(s, act, a);
      StepKeepsFresh(s, a);
      StepKeepsDelivery(s, act, a);
      StepKeepsLog(s, w, a);
      StepKeepsMarks(s, w, act, a);
      var next := NextActivity(s, act, a);
      if Quiet(a) { QuietKeepsOpen(s, w, act, a); QuietActivity(s, act, a); } else { OtherKeepsOpen(s, w, act, a); }
      assert Fits(Step(s, a), next) && DeliveryInv(Step(s, a), next) && OpenInv(Step(s, a), WatchStep(s, w, a), next);
    }
  }

  lemma QuietActivity(s: State, act: Activity, a: Action)
    requires Enabled(s, a) && Quiet(a)
    ensures NextActivity(s, act, a) == act
  {
  }

  lemma {:induction false} RunKeepsWatch(s: State, w: Watch, actions: seq<Action>)
    requires CanRun(s, actions) && WatchInv(s, w)
    ensures WatchInv(Run(s, actions), WatchRun(s, w, actions))
    decreases |actions|
  {
    hide Step, WatchInv, WatchStep;
    if actions != [] {
      StepKeepsWatch(s, w, actions[0]);
      RunKeepsWatch(Step(s, actions[0]), WatchStep(s, w, actions[0]), actions[1..]);
    }
  }

  lemma ReachedWatch(count: nat, actions: seq<Action>)
    requires CanRun(Init(count), actions)
    ensures WatchInv(Run(Init(count), actions), WatchRun(Init(count), NOTHING_YET, actions))
  {
    assert Fits(Init(count), Activity.Nothing) && DeliveryInv(Init(count), Activity.Nothing) && OpenInv(Init(count), NOTHING_YET, Activity.Nothing);
    RunKeepsWatch(Init(count), NOTHING_YET, actions);
  }

  /** Of any run of a controller started once: onFirstPage is called once if a page has
      arrived for the generation that opened first, with the first such page, which
      onMessages gets next; otherwise, and ever after, it is not called. */
  lemma FirstPageOnce(count: nat, actions: seq<Action>)
    requires CanRun(Init(count), actions) && Run(Init(count), actions).starts <= 1
    ensures var s, w := Run(Init(count), actions), WatchRun(Init(count), NOTHING_YET, actions);
            if w.first.Some? then w.opener.Some? && exists i :: Announced(s.log, w.opener.value, w.first.value, i) else Unannounced(s.log)
  {
    ReachedWatch(count, actions);
  }

  /** What a page reply of the current generation calls back: the first page of the
      generation that opened first is announced as such, no other is. */
  lemma PageIsAnnounced(count: nat, actions: seq<Action>, f: nat)
    requires CanRun(Init(count), actions) && Run(Init(count), actions).starts <= 1
    requires var s := Run(Init(count), actions); Enabled(s, Reply(f)) && Current(s, s.fetches[f].generation)
    ensures var s, w := Run(Init(count), actions), WatchRun(Init(count), NOTHING_YET, actions);
            var g, page := s.fetches[f].generation, s.fetches[f].page.value;
            Step(s, Reply(f)).log
              == s.log + (if w.opener == Some(g) && w.first.None? then [Entry(g, FirstPage(page.lo, page.hi))] else [])
                 + [Entry(g, Callback.Messages(page.lo, page.hi))]
  {
    ReachedWatch(count, actions);
    ReplyLog(Run(Init(count), actions), f);
    hide Step, Run;
  }

  // ---- Messages ----

  ghost predicate Told(log: seq<Entry>, m: nat, k: int) {
    0 <= k < |log| && log[k].callback.Messages? && log[k].callback.lo <= m < log[k].callback.hi
  }

  ghost predicate GivenInv(s: State) {
    forall m :: m in s.given <==> exists k :: Told(s.log, m, k)
  }

  lemma MoreTold(s: State, t: State, more: seq<Entry>, given: set<nat>)
    requires GivenInv(s) && t.log == s.log + more && t.given == s.given + given
    requires forall m: nat :: m in given <==> exists k :: Told(more, m, k)
    ensures GivenInv(t)
  {
    forall m: nat ensures m in t.given <==> exists k :: Told(t.log, m, k) {
      if m in s.given {
        var k :| Told(s.log, m, k);
        assert Told(t.log, m, k);
      }
      if m in given {
        var k :| Told(more, m, k);
        assert Told(t.log, m, |s.log| + k);
      }
      if k :| Told(t.log, m, k) {
        if k < |s.log| { assert Told(s.log, m, k); } else { assert Told(more, m, k - |s.log|); }
      }
    }
  }

  lemma ReplyGiven(s: State, f: nat)
    requires Enabled(s, Reply(f)) && GivenInv(s)
    ensures GivenInv(Step(s, Reply(f)))
  {
    hide Step, GivenInv, Range;
    var q, page, t := s.fetches[f], s.fetches[f].page.value, Step(s, Reply(f));
    if Current(s, q.generation) {
      ReplyLog(s, f);
      ReplyEffect(s, f);
      var last := Entry(q.generation, Callback.Messages(page.lo, page.hi));
      var more := (if q.first then [Entry(q.generation, FirstPage(page.lo, page.hi))] else []) + [last];
      forall m: nat ensures m in Range(page.lo, page.hi) <==> exists k :: Told(more, m, k) {
        if page.lo <= m < page.hi { assert Told(more, m, |more| - 1); }
      }
      assert t.log == s.log + more;
      MoreTold(s, t, more, Range(page.lo, page.hi));
    } else {
      LateReplyLog(s, f);
      LateReplyGiven(s, f);
      MoreTold(s, t, [], {});
    }
  }

  lemma LateReplyGiven(s: State, f: nat)
    requires Enabled(s, Reply(f)) && !Current(s, s.fetches[f].generation)
    ensures Step(s, Reply(f)).given == s.given
  {
    hide Delivered;
  }

  lemma LiveGiven(s: State, ws: nat)
    requires Enabled(s, Live(ws)) && GivenInv(s)
    ensures GivenInv(Step(s, Live(ws)))
  {
    hide GivenInv;
    LiveLog(s, ws);
    hide Step;
    var k := s.sockets[ws];
    if Current(s, k.generation) {
      var more := [Entry(k.generation, Callback.Messages(k.next, k.next + 1))];
      assert Told(more, k.next, 0);
      MoreTold(s, Step(s, Live(ws)), more, {k.next});
    } else {
      MoreTold(s, Step(s, Live(ws)), [], {});
    }
  }

  lemma OtherGiven(s: State, a: Action)
    requires Enabled(s, a) && !a.Reply? && !a.Live?
    ensures Step(s, a).given == s.given
  {
    hide Say, SetPhase, Appends, Current, AfterLive, AfterReply, PageOf;
    match a
    case Stop =>
    case Close(_) =>
    case TicketFails(_, _) =>
    case _ =>
  }

  lemma StepKeepsGiven(s: State, a: Action)
    requires Enabled(s, a) && GivenInv(s)
    ensures GivenInv(Step(s, a))
  {
    if a.Reply? { ReplyGiven(s, a.fetch); }
    else if a.Live? { LiveGiven(s, a.ws); }
    else {
      OthersAnnounceNothing(s, a);
      OtherGiven(s, a);
      hide Step, GivenInv;
      var t := Step(s, a);
      MoreTold(s, t, t.log[|s.log|..], {});
    }
  }

  lemma {:induction false} RunKeepsGiven(s: State, actions: seq<Action>)
    requires CanRun(s, actions) && GivenInv(s)
    ensures GivenInv(Run(s, actions))
    decreases |actions|
  {
    hide Step, GivenInv;
    if actions != [] {
      StepKeepsGiven(s, actions[0]);
      RunKeepsGiven(Step(s, actions[0]), actions[1..]);
    }
  }

  /** What the host is said to have been given is what onMessages was called with. */
  lemma GivenIsWhatWasTold(s: State, m: nat)
    requires Reachable(s)
    ensures m in s.given <==> exists k :: 0 <= k < |s.log| && s.log[k].callback.Messages? && s.log[k].callback.lo <= m < s.log[k].callback.hi
  {
    var count, actions :| CanRun(Init(count), actions) && s == Run(Init(count), actions);
    assert GivenInv(Init(count));
    RunKeepsGiven(Init(count), actions);
    if m in s.given { var k :| Told(s.log, m, k); }
    if k :| 0 <= k < |s.log| && s.log[k].callback.Messages? && s.log[k].callback.lo <= m < s.log[k].callback.hi { assert Told(s.log, m, k); }
  }

  // ---- The phase and the socket that the host knows of ----

  function LastPhase(log: seq<Entry>): Phase {
    if log == [] then Stopped
    else if log[|log| - 1].callback.PhaseChange? then log[|log| - 1].callback.phase
    else LastPhase(log[..|log| - 1])
  }

  function LastSocket(log: seq<Entry>): Option<nat> {
    if log == [] then None
    else if log[|log| - 1].callback.SocketChange? then log[|log| - 1].callback.socket
    else LastSocket(log[..|log| - 1])
  }

  ghost predicate Known(s: State) {
    LastPhase(s.log) == s.phase && LastSocket(s.log) == s.socket
  }

  lemma LastOfMore(log: seq<Entry>, e: Entry)
    ensures LastPhase(log + [e]) == (if e.callback.PhaseChange? then e.callback.phase else LastPhase(log))
    ensures LastSocket(log + [e]) == (if e.callback.SocketChange? then e.callback.socket else LastSocket(log))
  {
    assert (log + [e])[..|log|] == log;
  }

  lemma SayKnown(s: State, g: nat, callback: Callback)
    ensures var t := Say(s, g, callback);
            && LastPhase(t.log) == (if callback.PhaseChange? then callback.phase else LastPhase(s.log))
            && LastSocket(t.log) == (if callback.SocketChange? then callback.socket else LastSocket(s.log))
  {
    LastOfMore(s.log, Entry(g, callback));
  }

  lemma SetPhaseKnown(s: State, g: nat, phase: Phase)
    requires LastPhase(s.log) == s.phase
    ensures var t := SetPhase(s, g, phase); LastPhase(t.log) == phase && LastSocket(t.log) == LastSocket(s.log)
  {
    SayKnown(s.(phase := phase), g, PhaseChange(phase));
  }

  lemma StopKnown(s: State)
    requires Known(s)
    ensures Known(AfterStop(s))
  {
    hide Say, SetPhase, LastPhase, LastSocket;
    var t := s.(stopped := true, generation := s.generation + 1, reconnectTimer := None,
                timers := if s.reconnectTimer.Some? then s.timers - {s.reconnectTimer.value} else s.timers);
    if s.socket.None? {
      SetPhaseKnown(t, t.generation, Stopped);
    } else {
      var sockets := if s.socket.value in s.sockets then s.sockets[s.socket.value := s.sockets[s.socket.value].(wire := Closed)] else s.sockets;
      var u := t.(sockets := sockets, socket := None);
      SayKnown(u, t.generation, SocketChange(None));
      SetPhaseKnown(Say(u, t.generation, SocketChange(None)), t.generation, Stopped);
    }
  }

  lemma ConnectKnown(s: State)
    requires Known(s)
    ensures Known(Connect(s))
  {
    SetPhaseKnown(s.(generation := s.generation + 1, progress := NOT_BEGUN), s.generation + 1, Connecting);
    hide SetPhase;
  }

  lemma TicketKnown(s: State, ticket: nat)
    requires ticket in s.tickets && Known(s)
    ensures Known(AfterTicket(s, ticket))
  {
    var a, t := s.tickets[ticket], s.(tickets := s.tickets - {ticket});
    SayKnown(t.(sockets := t.sockets[t.nextId := Socket(a.generation, a.cursor, Handshake, 0, 0)], socket := Some(t.nextId), nextId := t.nextId + 1),
             a.generation, SocketChange(Some(t.nextId)));
    hide Say;
  }

  lemma NoTicketKnown(s: State, ticket: nat, retryable: bool)
    requires ticket in s.tickets && Known(s)
    ensures Known(AfterNoTicket(s, ticket, retryable))
  {
    var a, t := s.tickets[ticket], s.(tickets := s.tickets - {ticket});
    SayKnown(t, a.generation, Failure);
    SetPhaseKnown(Say(t, a.generation, Failure), a.generation, Offline);
    hide Say, SetPhase;
  }

  lemma CloseKnown(s: State, ws: nat)
    requires ws in s.sockets && Known(s)
    ensures Known(AfterClose(s, ws))
  {
    var k := s.sockets[ws];
    var t := s.(sockets := s.sockets[ws := k.(wire := Closed)]);
    SayKnown(t.(socket := None), k.generation, SocketChange(None));
    SetPhaseKnown(if s.socket == Some(ws) then Say(t.(socket := None), k.generation, SocketChange(None)) else t, k.generation, Offline);
    hide Say, SetPhase;
  }

  lemma OpenKnown(s: State, ws: nat)
    requires ws in s.sockets && Known(s)
    ensures Known(AfterOpen(s, ws))
  {
    var k := s.sockets[ws];
    SetPhaseKnown(s.(sockets := s.sockets[ws := k.(wire := Opened)], retry := 0), k.generation, Connected);
    hide SetPhase;
  }

  lemma LiveKnown(s: State, ws: nat)
    requires ws in s.sockets && Known(s)
    ensures Known(AfterLive(s, ws))
  {
    LastOfMore(s.log, Entry(s.sockets[ws].generation, Callback.Messages(s.sockets[ws].next, s.sockets[ws].next + 1)));
  }

  lemma ReplyKnown(s: State, f: nat)
    requires Enabled(s, Reply(f)) && Known(s)
    ensures Known(Step(s, Reply(f)))
  {
    var q, page := s.fetches[f], s.fetches[f].page.value;
    ReplyChanges(s, Reply(f));
    if Current(s, q.generation) {
      ReplyLog(s, f);
      hide Step;
      LastOfMore(s.log, Entry(q.generation, FirstPage(page.lo, page.hi)));
      var more := if q.first then [Entry(q.generation, FirstPage(page.lo, page.hi))] else [];
      LastOfMore(s.log + more, Entry(q.generation, Callback.Messages(page.lo, page.hi)));
      assert s.log + [] == s.log;
    } else {
      LateReplyLog(s, f);
      hide Step;
    }
  }

  lemma StepKeepsKnown(s: State, a: Action)
    requires Enabled(s, a) && Known(s)
    ensures Known(Step(s, a))
  {
    hide Say, SetPhase, AfterStop, Connect, AfterTicket, AfterNoTicket, AfterClose, AfterOpen, AfterLive, AfterReply, LastPhase, LastSocket;
    match a
    case Start => ConnectKnown(s.(stopped := false, generation := 0, retry := 0, hasConnected := false, starts := s.starts + 1));
    case Stop => StopKnown(s);
    case Fire(timer) => ConnectKnown(s.(timers := s.timers - {timer}));
    case TicketOk(k) => TicketKnown(s, k);
    case TicketFails(k, retryable) => NoTicketKnown(s, k, retryable);
    case Open(w) => OpenKnown(s, w);
    case Close(w) => CloseKnown(s, w);
    case Live(w) => LiveKnown(s, w);
    case Garbage(w) => SayKnown(s, s.sockets[w].generation, Failure);
    case WireError(w) => SetPhaseKnown(s, s.sockets[w].generation, Offline);
    case Reply(f) => ReplyKnown(s, f);
    case ReplyFails(f) => SayKnown(s.(fetches := s.fetches - {f}), s.fetches[f].generation, Failure);
    case _ =>
  }

  /** What a controller is waiting for is what its phase says, but that a socket error
      may have been reported before the socket closes. */
  ghost predicate PhaseInv(s: State, act: Activity, erred: bool) {
    && (s.stopped <==> s.phase == Stopped)
    && (!s.stopped ==>
          match act
          case Ticket(_) => s.phase == Connecting
          case Timer(_) => s.phase == Offline
          case Nothing => s.phase == Offline
          case Wired(w) =>
            w in s.sockets && s.sockets[w].wire != Closed
            && (s.phase == (if s.sockets[w].wire == Opened then Connected else Connecting) || (erred && s.phase == Offline)))
  }

  ghost predicate Errs(a: Action) {
    a.WireError?
  }

  /** Reconnecting is given up only when a ticket is refused for good. */
  ghost predicate GivesUp(a: Action) {
    a.TicketFails? && !a.retryable
  }

  ghost predicate PendingInv(s: State, act: Activity, refused: bool) {
    s.starts == 0 || s.stopped || refused || !act.Nothing?
  }

  ghost predicate ViewInv(s: State, erred: bool, refused: bool) {
    s.starts <= 1 ==> FreshInv(s) && exists act :: Fits(s, act) && PhaseInv(s, act, erred) && PendingInv(s, act, refused)
  }

  lemma WireKeepsPhase(s: State, act: Activity, a: Action, erred: bool)
    requires Enabled(s, a) && Quiet(a) && !a.Reply? && !a.ReplyFails? && !a.Read? && Fits(s, act) && PhaseInv(s, act, erred)
    ensures PhaseInv(Step(s, a), act, erred || Errs(a))
  {
    hide Say, Appends;
    if a.Accept? || a.Open? || a.Live? || a.Garbage? || a.WireError? {
      assert IsLive(s, a.ws);
    }
  }

  lemma FetchKeepsPhase(s: State, act: Activity, a: Action, erred: bool)
    requires Enabled(s, a) && (a.Reply? || a.ReplyFails? || a.Read?) && PhaseInv(s, act, erred)
    ensures PhaseInv(Step(s, a), act, erred)
  {
    ReplyChanges(s, a);
    hide Step;
  }

  lemma ConnectionKeepsPhase(s: State, act: Activity, a: Action, erred: bool)
    requires Enabled(s, a) && !Quiet(a) && (a == Start ==> s.starts == 0) && Fits(s, act) && FreshInv(s) && PhaseInv(s, act, erred)
    ensures PhaseInv(Step(s, a), NextActivity(s, act, a), erred)
  {
    hide Say, Appends;
  }

  lemma ConnectionKeepsPending(s: State, act: Activity, a: Action, refused: bool)
    requires Enabled(s, a) && !Quiet(a) && (a == Start ==> s.starts == 0) && Fits(s, act) && PendingInv(s, act, refused)
    ensures PendingInv(Step(s, a), NextActivity(s, act, a), refused || GivesUp(a))
  {
    hide Say, SetPhase, Appends;
  }

  lemma QuietKeepsPending(s: State, act: Activity, a: Action, refused: bool)
    requires Enabled(s, a) && Quiet(a) && PendingInv(s, act, refused)
    ensures PendingInv(Step(s, a), act, refused)
  {
    QuietKeepsConnection(s, a);
    hide Step;
  }

  lemma StepKeepsView(s: State, a: Action, erred: bool, refused: bool)
    requires Enabled(s, a) && ViewInv(s, erred, refused)
    ensures ViewInv(Step(s, a), erred || Errs(a), refused || GivesUp(a))
  {
    hide Step, Fits, FreshInv, PhaseInv, PendingInv, Errs, GivesUp;
    StartsOnlyGrow(s, a);
    if Step(s, a).starts <= 1 {
      var act :| Fits(s, act) && PhaseInv(s, act, erred) && PendingInv(s, act, refused);
      StepFits(s, act, a);
      StepKeepsFresh(s, a);
      if Quiet(a) {
        QuietActivity(s, act, a);
        QuietKeepsPending(s, act, a, refused);
        if a.Reply? || a.ReplyFails? || a.Read? { FetchKeepsPhase(s, act, a, erred); } else { WireKeepsPhase(s, act, a, erred); }
        MoreExcuses(Step(s, a), act, erred, erred || Errs(a), refused, refused || GivesUp(a));
      } else {
        ConnectionKeepsPhase(s, act, a, erred);
        ConnectionKeepsPending(s, act, a, refused);
        MoreExcuses(Step(s, a), NextActivity(s, act, a), erred, erred || Errs(a), refused || GivesUp(a), refused || GivesUp(a));
      }
    }
  }

  lemma MoreExcuses(s: State, act: Activity, erred: bool, erred': bool, refused: bool, refused': bool)
    requires (erred ==> erred') && (refused ==> refused')
    ensures PhaseInv(s, act, erred) ==> PhaseInv(s, act, erred')
    ensures PendingInv(s, act, refused) ==> PendingInv(s, act, refused')
  {
  }

  lemma {:induction false} RunKeepsView(s: State, actions: seq<Action>, erred: bool, refused: bool)
    requires CanRun(s, actions) && ViewInv(s, erred, refused)
    requires forall a :: a in actions ==> (Errs(a) ==> erred) && (GivesUp(a) ==> refused)
    ensures ViewInv(Run(s, actions), erred, refused)
    decreases |actions|
  {
    hide Step, ViewInv, Errs, GivesUp;
    if actions != [] {
      assert actions[0] in actions && forall a :: a in actions[1..] ==> a in actions;
      StepKeepsView(s, actions[0], erred, refused);
      RunKeepsView(Step(s, actions[0]), actions[1..], erred, refused);
    }
  }

  lemma {:induction false} RunKeepsKnown(s: State, actions: seq<Action>)
    requires CanRun(s, actions) && Known(s)
    ensures Known(Run(s, actions))
    decreases |actions|
  {
    hide Step, Known;
    if actions != [] {
      StepKeepsKnown(s, actions[0]);
      RunKeepsKnown(Step(s, actions[0]), actions[1..]);
    }
  }

  /** The last phase and the last socket that the host was told of are those of the
      controller, however often it is started. */
  lemma HostKnowsPhaseAndSocket(s: State)
    requires Reachable(s)
    ensures LastPhase(s.log) == s.phase && LastSocket(s.log) == s.socket
  {
    var count, actions :| CanRun(Init(count), actions) && s == Run(Init(count), actions);
    assert Known(Init(count));
    RunKeepsKnown(Init(count), actions);
  }

  lemma ReachedView(count: nat, actions: seq<Action>, erred: bool, refused: bool)
    requires CanRun(Init(count), actions)
    requires forall a :: a in actions ==> (a.WireError? ==> erred) && (a.TicketFails? && !a.retryable ==> refused)
    ensures ViewInv(Run(Init(count), actions), erred, refused)
  {
    assert Fits(Init(count), Activity.Nothing) && PhaseInv(Init(count), Activity.Nothing, erred) && PendingInv(Init(count), Activity.Nothing, refused);
    RunKeepsView(Init(count), actions, erred, refused);
  }

  /** A controller started once says Stopped exactly when it is, Connecting while it waits
      for a ticket or for its socket to open, Connected while its socket is open, and
      Offline while it waits for its timer; a socket error may have it say Offline before
      the socket closes. */
  lemma PhaseIsTrue(count: nat, actions: seq<Action>, erred: bool)
    requires CanRun(Init(count), actions) && Run(Init(count), actions).starts <= 1
    requires forall a :: a in actions && a.WireError? ==> erred
    ensures var s := Run(Init(count), actions);
            && (s.stopped <==> s.phase == Stopped)
            && (s.tickets != map[] && !s.stopped ==> s.phase == Connecting)
            && (s.timers != {} ==> s.phase == Offline)
            && (forall w :: IsLive(s, w) ==> s.phase == (if s.sockets[w].wire == Opened then Connected else Connecting) || (erred && s.phase == Offline))
            && (s.phase == Connected ==> exists w :: IsLive(s, w) && s.sockets[w].wire == Opened)
  {
    ReachedView(count, actions, erred, true);
    var s := Run(Init(count), actions);
    var act :| Fits(s, act) && PhaseInv(s, act, erred) && PendingInv(s, act, true);
    hide Run;
    forall w | IsLive(s, w) ensures act == Wired(w) && !s.stopped {}
    if s.phase == Connected { assert act.Wired? && IsLive(s, act.ws); }
  }

  /** A controller started once and not stopped goes on trying: it has a timer, a ticket
      request or a live socket, unless a ticket was refused for good. */
  lemma NeverIdle(count: nat, actions: seq<Action>)
    requires CanRun(Init(count), actions) && Run(Init(count), actions).starts == 1 && !Run(Init(count), actions).stopped
    requires forall a :: a in actions && a.TicketFails? ==> a.retryable
    ensures var s := Run(Init(count), actions); s.timers != {} || s.tickets != map[] || exists w :: IsLive(s, w)
  {
    ReachedView(count, actions, true, false);
    var s := Run(Init(count), actions);
    var act :| Fits(s, act) && PhaseInv(s, act, true) && PendingInv(s, act, false);
    hide Run;
    if act.Wired? { assert IsLive(s, act.ws); }
  }

  /** And when one is, it waits for nothing any more. */
  lemma RefusedIsIdle(s: State, k: nat)
    requires Reachable(s) && s.starts <= 1 && Enabled(s, TicketFails(k, false)) && Current(s, s.tickets[k].generation)
    ensures var t := Step(s, TicketFails(k, false)); t.phase == Offline && t.timers == {} && t.tickets == map[] && forall w :: !IsLive(t, w)
  {
    ReachableConnection(s);
    var act :| Fits(s, act);
    hide Reachable, Say;
    assert act == Ticket(k) && (s.tickets - {k}).Keys == {} && s.tickets - {k} == map[];
    forall w ensures !IsLive(Step(s, TicketFails(k, false)), w) { assert IsLive(s, w) <==> act == Wired(w); }
  }

  // ---- Live messages ----

  function Lives(ws: nat, n: nat): seq<Action> {
    if n == 0 then [] else [Action.Live(ws)] + Lives(ws, n - 1)
  }

  lemma LiveEffect(s: State, ws: nat)
    requires IsLive(s, ws) && s.sockets[ws].wire == Opened && Current(s, s.sockets[ws].generation) && s.sockets[ws].next < s.count
    ensures Enabled(s, Action.Live(ws))
    ensures var k, t := s.sockets[ws], Step(s, Action.Live(ws));
            && t.sockets == s.sockets[ws := k.(next := k.next + 1)] && t.given == s.given + {k.next}
            && t.generation == s.generation && t.stopped == s.stopped && t.count == s.count
  {
  }

  /** An open socket of the current generation can bring every message that the server
      has by now, one after the other. */
  lemma {:induction false} LiveBringsEverything(s: State, ws: nat)
    requires IsLive(s, ws) && s.sockets[ws].wire == Opened && Current(s, s.sockets[ws].generation) && s.sockets[ws].next <= s.count
    ensures var lives := Lives(ws, s.count - s.sockets[ws].next);
            && CanRun(s, lives)
            && forall m: nat :: m in Run(s, lives).given <==> m in s.given || s.sockets[ws].next <= m < s.count
    decreases s.count - s.sockets[ws].next
  {
    if s.sockets[ws].next < s.count {
      LiveEffect(s, ws);
      var t := Step(s, Action.Live(ws));
      LiveBringsEverything(t, ws);
      var lives := Lives(ws, s.count - s.sockets[ws].next);
      assert lives[0] == Action.Live(ws) && lives[1..] == Lives(ws, t.count - t.sockets[ws].next);
      hide Step, Enabled;
    }
  }

  // ---- Catching up ----

  lemma ReadEffect(s: State, f: nat)
    requires f in s.fetches && s.fetches[f].page.None?
    ensures Enabled(s, Read(f))
    ensures Step(s, Read(f)) == s.(fetches := s.fetches[f := s.fetches[f].(page := Some(PageOf(s.count, s.fetches[f].cursor, s.fetches[f].limit)))])
  {
  }

  ghost predicate CaughtUpFrom(s: State, t: State, lo: nat) {
    t.progress.begun && t.progress.drained && t.count == s.count && s.given <= t.given && forall m: nat :: lo <= m < s.count ==> m in t.given
  }

  /** A page request of the current generation leads on to the end of the messages, page
      after page, if the replies come. */
  lemma {:induction false} CatchUpDrains(s: State, f: nat) returns (actions: seq<Action>)
    requires f in s.fetches && s.fetches[f].page.None? && s.fetches[f].limit > 0 && Current(s, s.fetches[f].generation) && s.nextId !in s.fetches
    requires forall g :: g in s.fetches ==> g < s.nextId
    ensures CanRun(s, actions) && forall a :: a in actions ==> a.Read? || a.Reply?
    ensures var lo := PageOf(s.count, s.fetches[f].cursor, s.fetches[f].limit).lo; CaughtUpFrom(s, Run(s, actions), lo)
    decreases if s.fetches[f].cursor.None? then s.count + 1 else if s.fetches[f].cursor.value < s.count then s.count - s.fetches[f].cursor.value else 0
  {
    var q := s.fetches[f];
    var page := PageOf(s.count, q.cursor, q.limit);
    var u := Step(s, Read(f));
    ReadEffect(s, f);
    assert u.fetches[f] == q.(page := Some(page)) && Enabled(u, Reply(f));
    var v := Step(u, Reply(f));
    ReplyEffect(u, f);
    hide Step, PageOf, Range;
    RunTwoSteps(s, u, v, Read(f), Reply(f));
    if page.more {
      var n := u.nextId;
      assert n in v.fetches && v.fetches[n] == Fetch(q.generation, false, Some(page.hi), CATCHUP_LIMIT, q.since, None);
      ReplyChanges(u, Reply(f));
      NextIdAfterReply(u, f);
      var rest := CatchUpDrains(v, n);
      RunAfter(s, v, [Read(f), Reply(f)], rest);
      actions := [Read(f), Reply(f)] + rest;
    } else {
      actions := [Read(f), Reply(f)];
    }
  }

  lemma NextIdAfterReply(s: State, f: nat)
    requires Enabled(s, Reply(f)) && Current(s, s.fetches[f].generation) && s.fetches[f].page.value.more
    ensures Step(s, Reply(f)).nextId == s.nextId + 1
  {
    hide Advanced, Range;
  }

  lemma RunTwoSteps(s: State, u: State, v: State, a: Action, b: Action)
    requires Enabled(s, a) && u == Step(s, a) && Enabled(u, b) && v == Step(u, b)
    ensures CanRun(s, [a, b]) && Run(s, [a, b]) == v
  {
    hide Step, Enabled;
    assert [a, b][1..] == [b] && [b][1..] == [];
    assert CanRun(v, []) && Run(v, []) == v;
    assert CanRun(u, [b]) && Run(u, [b]) == v;
  }

  lemma {:induction false} RunAfter(s: State, u: State, a: seq<Action>, b: seq<Action>)
    requires CanRun(s, a) && u == Run(s, a) && CanRun(u, b)
    ensures CanRun(s, a + b) && Run(s, a + b) == Run(u, b)
    decreases |a|
  {
    hide Step, Enabled;
    if a == [] {
      assert a + b == b;
    } else {
      assert (a + b)[1..] == a[1..] + b;
      RunAfter(Step(s, a[0]), u, a[1..], b);
    }
  }

  // ---- How often it has tried ----

  /** The reconnects planned since the last start or open. */
  function TriesAfter(s: State, tries: nat, a: Action): nat
    requires Enabled(s, a)
  {
    match a
    case Start => 0
    case Open(w) => if Current(s, s.sockets[w].generation) then 0 else tries
    case TicketFails(k, retryable) => if retryable && Current(s, s.tickets[k].generation) then tries + 1 else tries
    case Close(w) => if Current(s, s.sockets[w].generation) then tries + 1 else tries
    case _ => tries
  }

  ghost function Tries(s: State, tries: nat, actions: seq<Action>): nat
    requires CanRun(s, actions)
    decreases |actions|
  {
    if actions == [] then tries else Tries(Step(s, actions[0]), TriesAfter(s, tries, actions[0]), actions[1..])
  }

  lemma StepTries(s: State, a: Action)
    requires Enabled(s, a)
    ensures Step(s, a).retry == TriesAfter(s, s.retry, a)
  {
    hide Say, SetPhase, Appends;
    if a.Reply? || a.ReplyFails? || a.Read? {
      ReplyChanges(s, a);
      hide Step;
    }
  }

  /** The number that the reconnect delay depends on counts the failures since the last
      open or start. */
  lemma {:induction false} RetryCountsFailures(s: State, actions: seq<Action>)
    requires CanRun(s, actions)
    ensures Run(s, actions).retry == Tries(s, s.retry, actions)
    decreases |actions|
  {
    if actions != [] {
      StepTries(s, actions[0]);
      hide Step, Enabled, TriesAfter;
      RetryCountsFailures(Step(s, actions[0]), actions[1..]);
    }
  }
}
