/** What the reconnect sequence of frontend/src/chat/chatSocketController.ts delivers:
    when a drained catch-up and an open socket leave no message out. */
module ChatDelivery {
  import opened Ordering
  import opened ChatSocket

  /** Every message from the first fetched page to the next one in the socket's queue. */
  ghost predicate Complete(s: State, ws: nat)
    requires ws in s.sockets
  {
    s.base.Some? ==> Covers(s.given, s.base.value, s.sockets[ws].next)
  }

  ghost predicate CaughtUp(s: State, ws: nat) {
    !s.stopped && IsLive(s, ws) && s.sockets[ws].wire == Opened && s.progress.drained
  }

  // ---- What every step keeps ----

  ghost predicate FetchInv(s: State, f: nat) {
    f in s.fetches ==>
      var q := s.fetches[f];
      && q.since <= s.count
      && (q.page.Some? ==>
            var p := q.page.value;
            && p.lo <= p.hi && p.hi >= (if p.more then 0 else q.since)
            && p.lo == (if q.cursor.Some? then q.cursor.value else if p.hi > q.limit then p.hi - q.limit else 0))
  }

  ghost predicate SocketInv(s: State, w: nat) {
    w in s.sockets && s.sockets[w].wire in {Accepted, Opened} ==> s.sockets[w].since <= s.sockets[w].next <= s.count && (s.sockets[w].wire == Accepted ==> s.sockets[w].next == s.sockets[w].since)
  }

  ghost predicate IsCurrentFetch(s: State, f: nat) {
    f in s.fetches && s.fetches[f].generation == s.generation
  }

  /** The catch-up of the current generation. */
  ghost predicate ProgressInv(s: State) {
    var p := s.progress;
    && (p.begun ==> s.base.Some? && p.lo <= p.upto && Covers(s.given, p.lo, p.upto))
    && (p.begun ==> (p.bridged <==> Covers(s.given, s.base.value, Min(p.lo, p.since))))
    && (p.drained ==> p.begun && p.upto >= p.since)
  }

  /** Its page requests: at most one, going on where the last page ended. */
  ghost predicate QueryInv(s: State, f: nat) {
    IsCurrentFetch(s, f) ==>
      var p, q := s.progress, s.fetches[f];
      && (p.begun ==> !p.drained && q.cursor == Some(p.upto) && q.since == p.since)
      && (!p.begun ==> q.limit == PAGE_SIZE)
      && (forall g :: IsCurrentFetch(s, g) ==> g == f)
  }

  /** Its socket. */
  ghost predicate WireInv(s: State, act: Activity) {
    && (act.Ticket? || (act.Wired? && act.ws in s.sockets && s.sockets[act.ws].wire != Opened) ==>
          !s.progress.begun && forall f :: !IsCurrentFetch(s, f))
    && (act.Wired? && act.ws in s.sockets && s.sockets[act.ws].wire == Opened ==>
          var k := s.sockets[act.ws];
          && Covers(s.given, k.since, k.next)
          && (s.progress.begun ==> s.progress.since == k.since)
          && (forall f :: IsCurrentFetch(s, f) ==> s.fetches[f].since == k.since))
  }

  ghost predicate DeliveryInv(s: State, act: Activity) {
    && (forall f :: FetchInv(s, f)) && (forall w :: SocketInv(s, w))
    && (!s.stopped ==> ProgressInv(s) && (forall f :: QueryInv(s, f)) && WireInv(s, act))
  }

  ghost predicate Inv(s: State) {
    s.starts <= 1 ==> FreshInv(s) && exists act :: Fits(s, act) && DeliveryInv(s, act)
  }

  lemma CoversBelow(given: set<nat>, more: set<nat>, lo: nat, hi: nat)
    requires forall i :: i in more ==> i >= hi
    ensures Covers(given + more, lo, hi) <==> Covers(given, lo, hi)
  {
    if Covers(given + more, lo, hi) {
      forall i: nat | lo <= i < hi ensures i in given { assert i in given + more; }
    }
  }

  // ---- Pages ----

  /** What a current page reply changes. */
  lemma ReplyEffect(s: State, f: nat)
    requires Enabled(s, Reply(f)) && Current(s, s.fetches[f].generation)
    ensures var t, q, page := Step(s, Reply(f)), s.fetches[f], s.fetches[f].page.value;
            && t.given == s.given + Range(page.lo, page.hi) && t.progress == Advanced(s, q, page)
            && t.base == (if s.base.Some? then s.base else Some(page.lo))
            && t.stopped == s.stopped && t.generation == s.generation && t.sockets == s.sockets && t.tickets == s.tickets && t.count == s.count
            && t.cursor == StableCursor(page)
            && t.fetches == (var rest := s.fetches - {f};
                             if page.more then rest[s.nextId := Fetch(q.generation, false, Some(page.hi), CATCHUP_LIMIT, q.since, None)] else rest)
  {
    hide Range;
  }

  lemma ReplyKeepsProgress(s: State, act: Activity, f: nat)
    requires Enabled(s, Reply(f)) && DeliveryInv(s, act) && Current(s, s.fetches[f].generation)
    ensures ProgressInv(Step(s, Reply(f)))
  {
    hide Step;
    ReplyEffect(s, f);
    assert FetchInv(s, f) && QueryInv(s, f);
    var q, page, p := s.fetches[f], s.fetches[f].page.value, s.progress;
    var base, upto := if s.base.Some? then s.base.value else page.lo, Min(if p.begun then p.lo else page.lo, q.since);
    CoversBelow(s.given, Range(page.lo, page.hi), base, upto);
  }

  lemma ReplyKeepsQueries(s: State, act: Activity, f: nat, g: nat)
    requires Enabled(s, Reply(f)) && FreshInv(s) && DeliveryInv(s, act) && Current(s, s.fetches[f].generation)
    ensures QueryInv(Step(s, Reply(f)), g) && FetchInv(Step(s, Reply(f)), g)
  {
    hide Step;
    ReplyEffect(s, f);
    assert FetchInv(s, f) && QueryInv(s, f) && FetchInv(s, g);
    var t := Step(s, Reply(f));
    forall h ensures IsCurrentFetch(t, h) ==> h == s.nextId || (IsCurrentFetch(s, h) && h != f) {}
  }

  lemma ReplyKeepsWire(s: State, act: Activity, f: nat)
    requires Enabled(s, Reply(f)) && FreshInv(s) && DeliveryInv(s, act) && Current(s, s.fetches[f].generation)
    ensures WireInv(Step(s, Reply(f)), act)
  {
    hide Step;
    ReplyEffect(s, f);
    assert IsCurrentFetch(s, f);
    var t := Step(s, Reply(f));
    assert QueryInv(s, f);
    forall h ensures IsCurrentFetch(t, h) ==> h == s.nextId || (IsCurrentFetch(s, h) && h != f) {}
  }

  lemma CurrentReplyKeeps(s: State, act: Activity, f: nat)
    requires Enabled(s, Reply(f)) && FreshInv(s) && DeliveryInv(s, act) && Current(s, s.fetches[f].generation)
    ensures DeliveryInv(Step(s, Reply(f)), act)
  {
    hide Step, ProgressInv, QueryInv, FetchInv, WireInv;
    ReplyEffect(s, f);
    ReplyKeepsProgress(s, act, f);
    ReplyKeepsWire(s, act, f);
    forall g ensures QueryInv(Step(s, Reply(f)), g) && FetchInv(Step(s, Reply(f)), g) { ReplyKeepsQueries(s, act, f, g); }
    forall w ensures SocketInv(Step(s, Reply(f)), w) { assert SocketInv(s, w); }
  }

  // ---- Steps that do not deliver a page ----

  /** Only requests of superseded generations go, if any, and only the cursor, the log and
      the like change. */
  lemma DroppedFetchKeeps(s: State, t: State, act: Activity)
    requires DeliveryInv(s, act) && t.fetches.Keys <= s.fetches.Keys && (forall f :: f in t.fetches ==> t.fetches[f] == s.fetches[f])
    requires t.sockets == s.sockets && t.count == s.count && t.stopped == s.stopped && t.generation == s.generation
    requires t.base == s.base && t.given == s.given && t.progress == s.progress
    ensures DeliveryInv(t, act)
  {
    forall f ensures FetchInv(t, f) { assert FetchInv(s, f); }
    forall w ensures SocketInv(t, w) { assert SocketInv(s, w); }
    if !s.stopped {
      forall f ensures IsCurrentFetch(t, f) ==> IsCurrentFetch(s, f) {}
      forall f ensures QueryInv(t, f) { assert QueryInv(s, f); }
    }
  }

  lemma ReadKeeps(s: State, act: Activity, f: nat)
    requires Enabled(s, Read(f)) && DeliveryInv(s, act)
    ensures DeliveryInv(Step(s, Read(f)), act)
  {
    var t := Step(s, Read(f));
    forall g ensures FetchInv(t, g) { assert FetchInv(s, g); }
    forall w ensures SocketInv(t, w) { assert SocketInv(s, w); }
    if !s.stopped {
      forall g ensures IsCurrentFetch(t, g) <==> IsCurrentFetch(s, g) {}
      forall g ensures QueryInv(t, g) { assert QueryInv(s, g); }
    }
  }

  lemma SignalKeeps(s: State, act: Activity, a: Action)
    requires Enabled(s, a) && (a.Garbage? || a.WireError? || a.Post?) && DeliveryInv(s, act)
    ensures DeliveryInv(Step(s, a), act)
  {
    hide Step, Appends;
    SignalChanges(s, a);
    var t := Step(s, a);
    forall f ensures FetchInv(t, f) { assert FetchInv(s, f); }
    forall w ensures SocketInv(t, w) { assert SocketInv(s, w); }
    if !s.stopped {
      forall f ensures IsCurrentFetch(t, f) <==> IsCurrentFetch(s, f) {}
      forall f ensures QueryInv(t, f) { assert QueryInv(s, f); }
    }
  }

  /** The connection steps leave the requests and what was delivered alone. */
  ghost predicate OnlyConnection(s: State, t: State) {
    && t.fetches == s.fetches && t.count == s.count && t.base == s.base && t.given == s.given
    && (t.progress == s.progress || t.progress == NOT_BEGUN)
  }

  lemma ConnectEffect(s: State)
    ensures OnlyConnection(s, Connect(s))
  {
  }

  lemma StopEffect(s: State)
    ensures OnlyConnection(s, AfterStop(s))
  {
  }

  lemma TicketEffect(s: State, a: Action)
    requires Enabled(s, a) && (a.TicketOk? || a.TicketFails?)
    ensures OnlyConnection(s, Step(s, a))
  {
  }

  lemma CloseEffect(s: State, a: Action)
    requires Enabled(s, a) && a.Close?
    ensures OnlyConnection(s, Step(s, a))
  {
    hide SetPhase;
  }

  lemma ConnectionEffect(s: State, a: Action)
    requires Enabled(s, a) && !Quiet(a)
    ensures OnlyConnection(s, Step(s, a))
  {
    match a
    case Start => ConnectEffect(s.(stopped := false, generation := 0, retry := 0, hasConnected := false, starts := s.starts + 1));
    case Fire(t) => ConnectEffect(s.(timers := s.timers - {t}));
    case Stop => StopEffect(s);
    case Close(_) => CloseEffect(s, a);
    case _ => TicketEffect(s, a);
  }

  lemma SameFetches(s: State, t: State, f: nat)
    requires FetchInv(s, f) && t.fetches == s.fetches && t.count >= s.count
    ensures FetchInv(t, f)
  {
  }

  lemma CloseKeeps(s: State, act: Activity, a: Action)
    requires Enabled(s, a) && a.Close? && Fits(s, act) && DeliveryInv(s, act)
    ensures DeliveryInv(Step(s, a), NextActivity(s, act, a))
  {
    var t := Step(s, a);
    ConnectionEffect(s, a);
    forall f ensures FetchInv(t, f) { SameFetches(s, t, f); }
    forall w ensures SocketInv(t, w) { assert SocketInv(s, w); }
    assert IsLive(s, a.ws) <==> act == Wired(a.ws);
    if !s.stopped {
      forall f ensures IsCurrentFetch(t, f) <==> IsCurrentFetch(s, f) {}
      forall f ensures QueryInv(t, f) { assert QueryInv(s, f); }
    }
  }

  lemma TicketKeeps(s: State, act: Activity, a: Action)
    requires Enabled(s, a) && (a.TicketOk? || a.TicketFails?) && Fits(s, act) && FreshInv(s) && DeliveryInv(s, act)
    ensures DeliveryInv(Step(s, a), NextActivity(s, act, a))
  {
    var t := Step(s, a);
    ConnectionEffect(s, a);
    forall f ensures FetchInv(t, f) { SameFetches(s, t, f); }
    forall w ensures SocketInv(t, w) { assert SocketInv(s, w); }
    if !s.stopped {
      forall f ensures IsCurrentFetch(t, f) <==> IsCurrentFetch(s, f) {}
      forall f ensures QueryInv(t, f) { assert QueryInv(s, f); }
    }
  }

  lemma ConnectKeeps(s: State, act: Activity, a: Action)
    requires Enabled(s, a) && (a.Fire? || (a == Start && s.starts == 0)) && Fits(s, act) && FreshInv(s) && DeliveryInv(s, act)
    ensures DeliveryInv(Step(s, a), NextActivity(s, act, a))
  {
    var t := Step(s, a);
    ConnectionEffect(s, a);
    forall f ensures FetchInv(t, f) { SameFetches(s, t, f); }
    forall w ensures SocketInv(t, w) { assert SocketInv(s, w); }
    forall f ensures !IsCurrentFetch(t, f) {}
  }

  lemma StopKeeps(s: State, act: Activity)
    requires Fits(s, act) && DeliveryInv(s, act)
    ensures DeliveryInv(Step(s, Stop), NextActivity(s, act, Stop))
  {
    var t := Step(s, Stop);
    ConnectionEffect(s, Stop);
    forall f ensures FetchInv(t, f) { SameFetches(s, t, f); }
    forall w ensures SocketInv(t, w) { assert SocketInv(s, w); }
  }

  lemma AcceptKeeps(s: State, act: Activity, a: Action)
    requires Enabled(s, a) && a.Accept? && Fits(s, act) && DeliveryInv(s, act)
    ensures DeliveryInv(Step(s, a), act)
  {
    var t := Step(s, a);
    forall f ensures FetchInv(t, f) { SameFetches(s, t, f); }
    forall w ensures SocketInv(t, w) { assert SocketInv(s, w); }
    assert IsLive(s, a.ws) <==> act == Wired(a.ws);
    if !s.stopped {
      forall f ensures IsCurrentFetch(t, f) <==> IsCurrentFetch(s, f) {}
      forall f ensures QueryInv(t, f) { assert QueryInv(s, f); }
    }
  }

  lemma OpenKeeps(s: State, act: Activity, a: Action)
    requires Enabled(s, a) && a.Open? && Fits(s, act) && FreshInv(s) && DeliveryInv(s, act)
    ensures DeliveryInv(Step(s, a), act)
  {
    var t := Step(s, a);
    assert IsLive(s, a.ws) <==> act == Wired(a.ws);
    assert SocketInv(s, a.ws);
    forall f ensures FetchInv(t, f) { assert FetchInv(s, f); }
    forall w ensures SocketInv(t, w) { assert SocketInv(s, w); }
    if !s.stopped {
      forall f ensures IsCurrentFetch(t, f) <==> f == s.nextId { assert !IsCurrentFetch(s, f); }
      forall f ensures QueryInv(t, f) {}
    }
  }

  lemma LiveKeeps(s: State, act: Activity, a: Action)
    requires Enabled(s, a) && a.Live? && Fits(s, act) && DeliveryInv(s, act)
    ensures DeliveryInv(Step(s, a), act)
  {
    var t, k := Step(s, a), s.sockets[a.ws];
    assert IsLive(s, a.ws) <==> act == Wired(a.ws);
    assert SocketInv(s, a.ws);
    forall f ensures FetchInv(t, f) { SameFetches(s, t, f); }
    forall w ensures SocketInv(t, w) { assert SocketInv(s, w); }
    if !s.stopped {
      if s.progress.begun { CoversBelow(s.given, {k.next}, s.base.value, Min(s.progress.lo, s.progress.since)); }
      forall f ensures IsCurrentFetch(t, f) <==> IsCurrentFetch(s, f) {}
      forall f ensures QueryInv(t, f) { assert QueryInv(s, f); }
    }
  }

  lemma StepKeepsDelivery(s: State, act: Activity, a: Action)
    requires Enabled(s, a) && Fits(s, act) && FreshInv(s) && DeliveryInv(s, act) && (a == Start ==> s.starts == 0)
    ensures DeliveryInv(Step(s, a), NextActivity(s, act, a))
  {
    hide DeliveryInv, Fits, FreshInv;
    match a
    case Start => ConnectKeeps(s, act, a);
    case Fire(_) => ConnectKeeps(s, act, a);
    case Stop => StopKeeps(s, act);
    case TicketOk(_) => TicketKeeps(s, act, a);
    case TicketFails(_, _) => TicketKeeps(s, act, a);
    case Close(_) => CloseKeeps(s, act, a);
    case Accept(_, _) => AcceptKeeps(s, act, a);
    case Open(_) => OpenKeeps(s, act, a);
    case Live(_) => LiveKeeps(s, act, a);
    case Read(f) => ReadKeeps(s, act, f);
    case Reply(f) =>
      if Current(s, s.fetches[f].generation) { CurrentReplyKeeps(s, act, f); } else { DroppedFetchKeeps(s, Step(s, a), act); }
    case ReplyFails(_) => DroppedFetchKeeps(s, Step(s, a), act);
    case _ => SignalKeeps(s, act, a);
  }

  lemma StepKeepsInv(s: State, a: Action)
    requires Enabled(s, a) && Inv(s)
    ensures Inv(Step(s, a))
  {
    hide Step, Fits, FreshInv, DeliveryInv;
    StartsOnlyGrow(s, a);
    if Step(s, a).starts <= 1 {
      var act :| Fits(s, act) && DeliveryInv(s, act);
      StepFits(s, act, a);
      StepKeepsFresh(s, a);
      StepKeepsDelivery(s, act, a);
    }
  }

  lemma {:induction false} RunKeepsInv(s: State, actions: seq<Action>)
    requires CanRun(s, actions) && Inv(s)
    ensures Inv(Run(s, actions))
    decreases |actions|
  {
    hide Step, Inv;
    if actions != [] {
      StepKeepsInv(s, actions[0]);
      RunKeepsInv(Step(s, actions[0]), actions[1..]);
    }
  }

  lemma InitInv(count: nat)
    ensures Inv(Init(count))
  {
    assert Fits(Init(count), Nothing) && DeliveryInv(Init(count), Nothing);
  }

  lemma ReachableInv(s: State)
    requires Reachable(s)
    ensures Inv(s)
  {
    hide Inv;
    var count, actions :| CanRun(Init(count), actions) && s == Run(Init(count), actions);
    InitInv(count);
    RunKeepsInv(Init(count), actions);
  }

  // ---- Exactly when nothing is missing ----

  /** With its catch-up drained and its socket open, a generation leaves no message out
      if and only if the host already had every message before the catch-up when its
      first page came. */
  lemma CompleteIffBridged(s: State, w: nat)
    requires Reachable(s) && s.starts <= 1 && CaughtUp(s, w)
    ensures Complete(s, w) <==> s.progress.bridged
  {
    ReachableInv(s);
    var act :| Fits(s, act) && DeliveryInv(s, act);
    assert IsLive(s, w) <==> act == Wired(w);
    assert SocketInv(s, w);
    var p, base := s.progress, s.base.value;
    if Complete(s, w) {
      forall i: nat | base <= i < Min(p.lo, p.since) ensures i in s.given {}
    }
  }

  /** The first message the host lacks. */
  ghost predicate Frontier(s: State, frontier: nat) {
    s.base.Some? && s.base.value <= frontier && Covers(s.given, s.base.value, frontier) && frontier !in s.given
  }

  /** The first page of a catch-up closes the gap if and only if it, or the socket's
      queue, starts no later than the first message the host lacks. Without a cursor
      that is: no more than PAGE_SIZE messages came since. */
  lemma FirstPageBridges(s: State, f: nat, frontier: nat)
    requires Reachable(s) && s.starts <= 1 && Enabled(s, Reply(f)) && Current(s, s.fetches[f].generation)
    requires !s.progress.begun && Frontier(s, frontier)
    ensures var q, page := s.fetches[f], s.fetches[f].page.value;
            var start := if q.cursor.Some? then q.cursor.value else if page.hi > PAGE_SIZE then page.hi - PAGE_SIZE else 0;
            Step(s, Reply(f)).progress.bridged <==> start <= frontier || q.since <= frontier
  {
    ReachableInv(s);
    var act :| Fits(s, act) && DeliveryInv(s, act);
    assert FetchInv(s, f) && QueryInv(s, f) && IsCurrentFetch(s, f);
    ReplyEffect(s, f);
  }

  // ---- Runs that leave nothing out ----

  /** No page comes for a superseded generation, and once the host has been given a page
      no catch-up starts without a cursor. */
  ghost predicate Careful(s: State, a: Action)
    requires Enabled(s, a)
  {
    && (a.Reply? ==> Current(s, s.fetches[a.fetch].generation))
    && (a.Open? && Current(s, s.sockets[a.ws].generation) && s.hasConnected && s.sockets[a.ws].cursor.None? ==> s.base.None?)
  }

  ghost predicate CanRunCarefully(s: State, actions: seq<Action>)
    decreases |actions|
  {
    actions == [] || (Enabled(s, actions[0]) && Careful(s, actions[0]) && CanRunCarefully(Step(s, actions[0]), actions[1..]))
  }

  /** The host has been given everything before the cursor. */
  ghost predicate Trusted(s: State, cursor: Option<nat>) {
    cursor.Some? ==> s.base.Some? && Covers(s.given, s.base.value, cursor.value)
  }

  ghost predicate CursorsTrusted(s: State) {
    && Trusted(s, s.cursor)
    && (forall k :: k in s.tickets ==> Trusted(s, s.tickets[k].cursor))
    && (forall w :: w in s.sockets ==> Trusted(s, s.sockets[w].cursor))
  }

  ghost predicate CatchUpTrusted(s: State) {
    && (s.progress.begun ==> s.base.Some? && Covers(s.given, s.base.value, s.progress.upto))
    && (!s.stopped ==> forall f :: IsCurrentFetch(s, f) && !s.progress.begun ==>
                         Trusted(s, s.fetches[f].cursor) && (s.fetches[f].cursor.None? ==> s.base.None?))
    && (!s.hasConnected ==> s.base.None? && !s.progress.begun)
    && (!s.hasConnected && !s.stopped ==> forall f :: !IsCurrentFetch(s, f))
  }

  ghost predicate TrustInv(s: State) {
    CursorsTrusted(s) && CatchUpTrusted(s)
  }

  /** `t` has been given at least what `s` was. */
  ghost predicate GivenMore(s: State, t: State) {
    s.given <= t.given && (s.base.Some? ==> t.base == s.base)
  }

  lemma StaysTrusted(s: State, t: State, cursor: Option<nat>)
    requires GivenMore(s, t) && Trusted(s, cursor)
    ensures Trusted(t, cursor)
  {
  }

  lemma ReplyKeepsTrust(s: State, act: Activity, f: nat)
    requires Enabled(s, Reply(f)) && Careful(s, Reply(f)) && FreshInv(s) && DeliveryInv(s, act) && TrustInv(s)
    ensures TrustInv(Step(s, Reply(f)))
  {
    hide Step;
    ReplyEffect(s, f);
    assert FetchInv(s, f) && QueryInv(s, f) && IsCurrentFetch(s, f);
    var t := Step(s, Reply(f));
    assert t.hasConnected == s.hasConnected by { ReplyChanges(s, Reply(f)); }
    assert Covers(t.given, t.base.value, t.progress.upto);
    assert GivenMore(s, t);
    forall h ensures IsCurrentFetch(t, h) ==> h == s.nextId || (IsCurrentFetch(s, h) && h != f) {}
  }

  /** Steps that bring no cursor the state did not have. */
  lemma OldCursorsKeepTrust(s: State, t: State)
    requires TrustInv(s) && GivenMore(s, t) && (t.progress == s.progress || !t.progress.begun) && (!t.hasConnected ==> !s.hasConnected && t.base == s.base)
    requires t.cursor == s.cursor
    requires forall k :: k in t.tickets ==> t.tickets[k].cursor == s.cursor || (k in s.tickets && t.tickets[k] == s.tickets[k])
    requires forall w :: w in t.sockets ==> (w in s.sockets && t.sockets[w].cursor == s.sockets[w].cursor)
                                            || exists k :: k in s.tickets && t.sockets[w].cursor == s.tickets[k].cursor
    requires !t.stopped ==> forall f :: IsCurrentFetch(t, f) ==>
               !s.stopped && IsCurrentFetch(s, f) && t.fetches[f].cursor == s.fetches[f].cursor && t.progress == s.progress && t.base == s.base
    ensures TrustInv(t)
  {
    forall k | k in t.tickets ensures Trusted(t, t.tickets[k].cursor) {}
    forall w | w in t.sockets ensures Trusted(t, t.sockets[w].cursor) {}
  }

  lemma OpenKeepsTrust(s: State, act: Activity, a: Action)
    requires Enabled(s, a) && a.Open? && Careful(s, a) && Fits(s, act) && FreshInv(s) && DeliveryInv(s, act) && TrustInv(s)
    ensures TrustInv(Step(s, a))
  {
    var t := Step(s, a);
    assert IsLive(s, a.ws) <==> act == Wired(a.ws);
    if !s.stopped {
      forall f ensures IsCurrentFetch(t, f) <==> f == s.nextId { assert !IsCurrentFetch(s, f); }
    }
  }

  lemma FetchKeepsTrust(s: State, a: Action)
    requires Enabled(s, a) && (a.Read? || a.ReplyFails?) && TrustInv(s)
    ensures TrustInv(Step(s, a))
  {
    hide Appends, PageOf;
    var t := Step(s, a);
    forall f ensures IsCurrentFetch(t, f) ==> IsCurrentFetch(s, f) && t.fetches[f].cursor == s.fetches[f].cursor {}
    OldCursorsKeepTrust(s, t);
  }

  lemma WireKeepsTrust(s: State, a: Action)
    requires Enabled(s, a) && (a.Accept? || a.Live?) && TrustInv(s)
    ensures TrustInv(Step(s, a))
  {
    hide Appends, TrustInv;
    var t := Step(s, a);
    assert t.fetches == s.fetches && t.hasConnected == s.hasConnected;
    WireChanges(s, a);
    hide Step;
    forall f ensures IsCurrentFetch(t, f) <==> IsCurrentFetch(s, f) {}
    OldCursorsKeepTrust(s, t);
  }

  lemma SignalKeepsTrust(s: State, a: Action)
    requires Enabled(s, a) && (a.Garbage? || a.WireError? || a.Post?) && TrustInv(s)
    ensures TrustInv(Step(s, a))
  {
    hide Appends, Step, TrustInv;
    SignalChanges(s, a);
    var t := Step(s, a);
    forall f ensures IsCurrentFetch(t, f) <==> IsCurrentFetch(s, f) {}
    OldCursorsKeepTrust(s, t);
  }

  /** The requirements of OldCursorsKeepTrust on the connection. */
  ghost predicate OldCursors(s: State, t: State) {
    && t.cursor == s.cursor && t.hasConnected == s.hasConnected
    && (forall k :: k in t.tickets ==> t.tickets[k].cursor == s.cursor || (k in s.tickets && t.tickets[k] == s.tickets[k]))
    && (forall w :: w in t.sockets ==> (w in s.sockets && t.sockets[w].cursor == s.sockets[w].cursor)
                                       || exists k :: k in s.tickets && t.sockets[w].cursor == s.tickets[k].cursor)
  }

  lemma ConnectOldCursors(s: State)
    ensures OldCursors(s, Connect(s))
  {
  }

  lemma StopOldCursors(s: State)
    ensures OldCursors(s, AfterStop(s))
  {
  }

  lemma TicketOldCursors(s: State, a: Action)
    requires Enabled(s, a) && (a.TicketOk? || a.TicketFails?)
    ensures OldCursors(s, Step(s, a)) && Step(s, a).stopped == s.stopped && Step(s, a).generation == s.generation && Step(s, a).progress == s.progress
  {
  }

  lemma CloseOldCursors(s: State, a: Action)
    requires Enabled(s, a) && a.Close?
    ensures OldCursors(s, Step(s, a)) && Step(s, a).stopped == s.stopped && Step(s, a).generation == s.generation && Step(s, a).progress == s.progress
  {
    hide SetPhase;
  }

  /** A new generation has no request yet. */
  lemma NewGenerationKeepsTrust(s: State, t: State)
    requires TrustInv(s) && FreshInv(s) && OnlyConnection(s, t) && OldCursors(s, t) && (t.stopped || t.generation > s.generation || s.fetches == map[])
    ensures TrustInv(t)
  {
    forall f ensures !t.stopped ==> !IsCurrentFetch(t, f) {}
    OldCursorsKeepTrust(s, t);
  }

  lemma SameGenerationKeepsTrust(s: State, t: State)
    requires TrustInv(s) && OnlyConnection(s, t) && OldCursors(s, t) && t.stopped == s.stopped && t.generation == s.generation && t.progress == s.progress
    ensures TrustInv(t)
  {
    forall f ensures IsCurrentFetch(t, f) <==> IsCurrentFetch(s, f) {}
    OldCursorsKeepTrust(s, t);
  }

  lemma ConnectionKeepsTrust(s: State, a: Action)
    requires Enabled(s, a) && !Quiet(a) && (a == Start ==> s.starts == 0) && FreshInv(s) && TrustInv(s)
    requires s.starts == 0 ==> !s.hasConnected
    ensures TrustInv(Step(s, a))
  {
    hide OldCursors, OnlyConnection, TrustInv;
    ConnectionEffect(s, a);
    match a
    case Start =>
      var u := s.(stopped := false, generation := 0, retry := 0, hasConnected := false, starts := s.starts + 1);
      StartKeepsTrust(s, u);
    case Fire(t) =>
      FireKeepsTrust(s, s.(timers := s.timers - {t}));
    case Stop =>
      StopOldCursors(s);
      NewGenerationKeepsTrust(s, AfterStop(s));
    case Close(_) =>
      CloseOldCursors(s, a);
      SameGenerationKeepsTrust(s, Step(s, a));
    case TicketOk(_) =>
      TicketOldCursors(s, a);
      SameGenerationKeepsTrust(s, Step(s, a));
    case TicketFails(_, _) =>
      TicketOldCursors(s, a);
      SameGenerationKeepsTrust(s, Step(s, a));
    case _ =>
  }

  lemma StartKeepsTrust(s: State, u: State)
    requires u == s.(stopped := false, generation := 0, retry := 0, hasConnected := false, starts := s.starts + 1)
    requires FreshInv(s) && TrustInv(s) && s.starts == 0 && !s.hasConnected
    ensures TrustInv(Connect(u))
  {
    ConnectOldCursors(u);
    ConnectEffect(u);
    assert TrustInv(u);
    NewGenerationKeepsTrust(u, Connect(u));
  }

  lemma FireKeepsTrust(s: State, u: State)
    requires FreshInv(s) && TrustInv(s) && u == s.(timers := u.timers) && u.timers <= s.timers
    ensures TrustInv(Connect(u))
  {
    ConnectOldCursors(u);
    ConnectEffect(u);
    assert TrustInv(u) by { OldCursorsKeepTrust(s, u); }
    NewGenerationKeepsTrust(u, Connect(u));
  }

  lemma StepKeepsTrust(s: State, act: Activity, a: Action)
    requires Enabled(s, a) && Careful(s, a) && Fits(s, act) && FreshInv(s) && DeliveryInv(s, act) && TrustInv(s)
    requires (a == Start ==> s.starts == 0) && (s.starts == 0 ==> !s.hasConnected)
    ensures TrustInv(Step(s, a))
  {
    hide Step, Fits, FreshInv, DeliveryInv, TrustInv;
    if a.Reply? {
      ReplyKeepsTrust(s, act, a.fetch);
    } else if a.Open? {
      OpenKeepsTrust(s, act, a);
    } else if a.Read? || a.ReplyFails? {
      FetchKeepsTrust(s, a);
    } else if a.Accept? || a.Live? {
      WireKeepsTrust(s, a);
    } else if Quiet(a) {
      SignalKeepsTrust(s, a);
    } else {
      ConnectionKeepsTrust(s, a);
    }
  }

  ghost predicate CarefulInv(s: State) {
    && (s.starts == 0 ==> !s.hasConnected)
    && (s.starts <= 1 ==> FreshInv(s) && TrustInv(s) && exists act :: Fits(s, act) && DeliveryInv(s, act))
  }

  lemma NotStartedNotConnected(s: State, a: Action)
    requires Enabled(s, a) && FreshInv(s) && s.starts == 0 && a != Start && !s.hasConnected
    ensures !Step(s, a).hasConnected
  {
    hide Advanced, PageOf, Appends;
  }

  lemma StepKeepsCareful(s: State, a: Action)
    requires Enabled(s, a) && Careful(s, a) && CarefulInv(s)
    ensures CarefulInv(Step(s, a))
  {
    hide Step, Fits, FreshInv, DeliveryInv, TrustInv;
    StartsOnlyGrow(s, a);
    if Step(s, a).starts <= 1 {
      var act :| Fits(s, act) && DeliveryInv(s, act);
      StepFits(s, act, a);
      StepKeepsFresh(s, a);
      StepKeepsDelivery(s, act, a);
      StepKeepsTrust(s, act, a);
      if Step(s, a).starts == 0 { NotStartedNotConnected(s, a); }
    }
  }

  lemma {:induction false} RunKeepsCareful(s: State, actions: seq<Action>)
    requires CanRunCarefully(s, actions) && CarefulInv(s)
    ensures CanRun(s, actions) && CarefulInv(Run(s, actions))
    decreases |actions|
  {
    hide Step, CarefulInv, Careful;
    if actions != [] {
      StepKeepsCareful(s, actions[0]);
      RunKeepsCareful(Step(s, actions[0]), actions[1..]);
    }
  }

  lemma InitCareful(count: nat)
    ensures CarefulInv(Init(count))
  {
    assert Fits(Init(count), Nothing) && DeliveryInv(Init(count), Nothing);
  }

  /** Over any such run of disconnects and failed catch-ups, whenever a catch-up has
      drained and its socket is open, the host has been given every message from the
      first fetched page on. */
  lemma CarefulRunsLeaveNothingOut(count: nat, actions: seq<Action>, w: nat)
    requires CanRunCarefully(Init(count), actions)
    ensures CanRun(Init(count), actions)
    ensures var s := Run(Init(count), actions); s.starts <= 1 && CaughtUp(s, w) ==> Complete(s, w)
  {
    InitCareful(count);
    RunKeepsCareful(Init(count), actions);
    var s := Run(Init(count), actions);
    if s.starts <= 1 && CaughtUp(s, w) {
      assert Reachable(s);
      CompleteIffBridged(s, w);
      CatchUpBridges(s);
    }
  }

  lemma CatchUpBridges(s: State)
    requires TrustInv(s) && s.progress.drained && !s.stopped && s.starts <= 1 && Inv(s)
    ensures s.progress.bridged
  {
  }

  // ---- Runs that leave messages out ----

  /** A started controller between two connections, its reconnect timer armed, whose host
      has message 0 only. */
  ghost predicate Between(s: State, timer: nat) {
    && Reachable(s) && s.starts == 1 && !s.stopped && s.hasConnected
    && s.timers == {timer} && s.tickets == map[] && s.base == Some(0) && s.given == {0}
    && (forall w :: w in s.sockets ==> w < s.nextId) && (forall f :: f in s.fetches ==> f < s.nextId) && timer < s.nextId
  }

  /** Connected, the first query of the catch-up sent. */
  ghost predicate Asking(s: State, ws: nat, f: nat, cursor: Option<nat>, since: nat) {
    && Reachable(s) && s.starts == 1 && !s.stopped && s.hasConnected
    && s.timers == {} && s.tickets == map[] && s.base == Some(0) && s.given == {0} && s.progress == NOT_BEGUN
    && ws in s.sockets && s.sockets[ws] == Socket(s.generation, cursor, Opened, since, since)
    && f in s.fetches && s.fetches[f] == Fetch(s.generation, false, cursor, PAGE_SIZE, since, None)
    && (forall w :: w in s.sockets ==> w < s.nextId) && (forall g :: g in s.fetches ==> g < s.nextId)
  }

  lemma Redial(s: State, timer: nat) returns (t: State)
    requires Between(s, timer)
    ensures Reachable(t) && t.phase == Connecting
    ensures t == s.(phase := t.phase, log := t.log, timers := {}, generation := s.generation + 1, progress := NOT_BEGUN,
                                    tickets := map[s.nextId := Attempt(s.generation + 1, s.cursor)], nextId := s.nextId + 1)
  {
    t := Step(s, Fire(timer));
    Next(s, Fire(timer), t);
  }

  lemma Reopen(s: State, timer: nat, since: nat) returns (t: State)
    requires Between(s, timer) && since <= s.count
    ensures Asking(t, s.nextId + 1, s.nextId + 2, s.cursor, since) && t.generation == s.generation + 1 && t.nextId == s.nextId + 3
    ensures t.count == s.count && t.cursor == s.cursor && t.fetches == s.fetches[s.nextId + 2 := t.fetches[s.nextId + 2]]
  {
    hide Reachable;
    var ws, g := s.nextId + 1, s.generation + 1;
    var a := Redial(s, timer);
    var b := a.(tickets := map[], sockets := s.sockets[ws := Socket(g, s.cursor, Handshake, 0, 0)], socket := Some(ws), nextId := s.nextId + 2,
                log := a.log + [Entry(g, SocketChange(Some(ws)))]);
    Next(a, TicketOk(s.nextId), b) by { assert a.tickets - {s.nextId} == map[]; }
    var c := b.(sockets := s.sockets[ws := Socket(g, s.cursor, Accepted, since, since)]);
    Next(b, Accept(ws, since), c) by { assert c.sockets == b.sockets[ws := c.sockets[ws]]; }
    t := Step(c, Open(ws));
    Next(c, Open(ws), t);
  }

  lemma Answer(s: State, f: nat) returns (t: State)
    requires Reachable(s) && f in s.fetches && s.fetches[f].page.None?
    ensures Reachable(t) && t == s.(fetches := s.fetches[f := s.fetches[f].(page := Some(PageOf(s.count, s.fetches[f].cursor, s.fetches[f].limit)))])
  {
    hide Reachable;
    t := Step(s, Read(f));
    Next(s, Read(f), t);
  }

  lemma Drop(s: State, ws: nat) returns (t: State)
    requires Reachable(s) && IsLive(s, ws) && Current(s, s.sockets[ws].generation)
    ensures Reachable(t) && t == s.(sockets := s.sockets[ws := s.sockets[ws].(wire := Closed)], socket := t.socket, phase := t.phase, log := t.log,
                                    retry := s.retry + 1, reconnectTimer := Some(s.nextId), timers := s.timers + {s.nextId}, nextId := s.nextId + 1)
  {
    hide Reachable;
    t := Step(s, Close(ws));
    Next(s, Close(ws), t);
  }

  lemma DeliverLast(s: State, f: nat) returns (t: State)
    requires Reachable(s) && Enabled(s, Reply(f)) && Current(s, s.fetches[f].generation) && !s.fetches[f].page.value.more
    ensures Reachable(t) && t == Step(s, Reply(f)) && t.fetches == s.fetches - {f} && t.timers == s.timers && t.nextId == s.nextId
    ensures t.starts == s.starts && t.hasConnected == s.hasConnected && t.progress.drained
  {
    hide Reachable;
    t := Step(s, Reply(f));
    Next(s, Reply(f), t);
  }

  lemma More(s: State, n: nat) returns (t: State)
    requires Reachable(s)
    ensures Reachable(t) && t == s.(count := s.count + n)
  {
    hide Reachable;
    t := s.(count := s.count + n);
    Next(s, Post(n), t);
  }

  /** One message, fetched by the first page of the first connection. */
  lemma FirstOpened() returns (s: State)
    ensures Reachable(s) && s.starts == 1 && !s.stopped && s.hasConnected && s.generation == 1 && s.count == 1 && s.base.None? && s.given == {}
    ensures s.timers == {} && s.tickets == map[] && s.nextId == 3 && s.sockets == map[1 := Socket(1, None, Opened, 1, 1)]
    ensures s.fetches == map[2 := Fetch(1, true, None, PAGE_SIZE, 1, None)] && s.progress == NOT_BEGUN
  {
    hide Reachable;
    InitReachable(1);
    var s1 := Step(Init(1), Start);
    Next(Init(1), Start, s1);
    assert s1.tickets == map[0 := Attempt(1, None)] && s1.nextId == 1 && s1.generation == 1 && s1.count == 1;
    var s2 := Step(s1, TicketOk(0));
    Next(s1, TicketOk(0), s2);
    assert s2.tickets == map[] && s2.sockets == map[1 := Socket(1, None, Handshake, 0, 0)] && s2.nextId == 2;
    s := FirstAccepted(s2);
  }

  lemma FirstAccepted(s2: State) returns (s: State)
    requires Reachable(s2) && s2.starts == 1 && !s2.stopped && s2.generation == 1 && s2.count == 1 && s2.base.None? && s2.given == {}
    requires s2.timers == {} && s2.tickets == map[] && s2.nextId == 2 && s2.sockets == map[1 := Socket(1, None, Handshake, 0, 0)]
    requires s2.fetches == map[] && !s2.hasConnected && s2.cursor.None? && s2.progress == NOT_BEGUN
    ensures Reachable(s) && s.starts == 1 && !s.stopped && s.hasConnected && s.generation == 1 && s.count == 1 && s.base.None? && s.given == {}
    ensures s.timers == {} && s.tickets == map[] && s.nextId == 3 && s.sockets == map[1 := Socket(1, None, Opened, 1, 1)]
    ensures s.fetches == map[2 := Fetch(1, true, None, PAGE_SIZE, 1, None)] && s.progress == NOT_BEGUN
  {
    hide Reachable;
    var s3 := Step(s2, Accept(1, 1));
    Next(s2, Accept(1, 1), s3);
    assert s3.sockets == map[1 := Socket(1, None, Accepted, 1, 1)];
    s := Step(s3, Open(1));
    Next(s3, Open(1), s);
  }

  lemma FirstSync() returns (s: State)
    ensures Between(s, 3) && s.nextId == 4 && s.generation == 1 && s.count == 1 && s.cursor == Some(1) && s.fetches == map[]
  {
    hide Reachable;
    var a := FirstOpened();
    var b := Answer(a, 2);
    var c := DeliverLast(b, 2);
    ReplyEffect(b, 2);
    s := Drop(c, 1);
  }

  lemma CursorLost() returns (s: State)
    ensures Between(s, 7) && s.nextId == 8 && s.generation == 2 && s.count == 1 && s.cursor == None && s.fetches == map[]
  {
    hide Reachable;
    var a := FirstSync();
    var b := Reopen(a, 3, 1);
    var c := Answer(b, 6);
    var d := DeliverLast(c, 6);
    ReplyEffect(c, 6);
    assert d.cursor == None && d.given == {0};
    s := Drop(d, 5);
  }

  /** A reconnect that has missed nothing gets an empty page, which has no stable cursor.
      The next one then asks for the latest page only: with 52 new messages, two are
      never delivered, though every reply was in time. */
  lemma EmptyPageLosesTheCursor() returns (s: State, w: nat)
    ensures Reachable(s) && s.starts == 1 && CaughtUp(s, w) && !Complete(s, w)
  {
    hide Reachable;
    var e := CursorLost();
    var f := More(e, 52);
    var g := Reopen(f, 7, 53);
    var h := Answer(g, 10);
    s := DeliverLast(h, 10);
    ReplyEffect(h, 10);
    w := 9;
    assert 1 !in s.given;
  }

  /** Message 1 is read for the second generation, which is superseded meanwhile. */
  lemma PageOverdue() returns (s: State)
    ensures Reachable(s) && s.starts == 1 && !s.stopped && s.hasConnected && s.generation == 3 && s.count == 2 && s.base == Some(0) && s.given == {0}
    ensures s.timers == {} && s.tickets == map[8 := Attempt(3, Some(1))] && s.nextId == 9 && s.phase == Connecting
    ensures s.fetches == map[6 := Fetch(2, false, Some(1), PAGE_SIZE, 2, Some(Page(1, 2, false)))]
    ensures (forall w :: w in s.sockets ==> w < s.nextId) && s.cursor == Some(1)
  {
    hide Reachable;
    var a := FirstSync();
    var b := More(a, 1);
    var c := Reopen(b, 3, 2);
    var d := Answer(c, 6);
    var e := Drop(d, 5);
    assert Between(e, 7);
    s := Redial(e, 7);
  }

  lemma CursorMoved() returns (s: State)
    ensures Between(s, 9) && s.nextId == 10 && s.cursor == Some(2) && s.count == 2 && s.fetches == map[]
  {
    hide Reachable;
    var f := PageOverdue();
    var g := f.(fetches := map[], cursor := Some(2));
    Next(f, Reply(6), g) by { assert f.fetches - {6} == map[]; }
    s := Step(g, TicketFails(8, true));
    Next(g, TicketFails(8, true), s);
  }

  /** A page that comes after its generation was superseded still moves the host's
      cursor, so the next catch-up starts after messages that were not delivered. */
  lemma LatePageMovesTheCursor() returns (s: State, w: nat)
    ensures Reachable(s) && s.starts == 1 && CaughtUp(s, w) && !Complete(s, w)
  {
    hide Reachable;
    var h := CursorMoved();
    var i := Reopen(h, 9, 2);
    var j := Answer(i, 12);
    s := DeliverLast(j, 12);
    ReplyEffect(j, 12);
    w := 11;
    assert 1 !in s.given;
  }
}
