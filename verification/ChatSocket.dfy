/** frontend/src/chat/chatSocketController.ts with the host that keeps its stable cursor
    (frontend/src/hooks/useGroupMessages.ts) and the server that pages its messages.
    Messages are numbered in server order; cursor `c` resumes with message `c`. */
module ChatSocket {
  import opened Ordering

  const PAGE_SIZE := 50
  const CATCHUP_LIMIT := 200

  datatype Phase = Connecting | Connected | Offline | Stopped

  datatype Callback =
    | PhaseChange(phase: Phase)
    | FirstPage(lo: nat, hi: nat)
    | Messages(lo: nat, hi: nat)
    | Failure
    | SocketChange(socket: Option<nat>)

  /** A callback delivered by the sequence of `generation`. */
  datatype Entry = Entry(generation: nat, callback: Callback)

  /** A connect call waiting for its ticket, with the cursor it took before. */
  datatype Attempt = Attempt(generation: nat, cursor: Option<nat>)

  datatype Wire = Handshake | Accepted | Opened | Closed

  /** The server queues the messages from `since` on; `next` is the first one that has
      not arrived. */
  datatype Socket = Socket(generation: nat, cursor: Option<nat>, wire: Wire, since: nat, next: nat)

  /** The messages `lo..hi`, and whether there are more. */
  datatype Page = Page(lo: nat, hi: nat, more: bool)

  /** A page request, and the server's answer once it has read it. `first` pages also go
      to onFirstPage; `since` is that of the generation's socket. */
  datatype Fetch = Fetch(generation: nat, first: bool, cursor: Option<nat>, limit: nat, since: nat, page: Option<Page>)

  /** How far the current generation's catch-up is: from `lo` up to `upto`. `bridged` tells
      whether the host had everything before it when its first page came. */
  datatype Progress = Progress(begun: bool, lo: nat, since: nat, upto: nat, drained: bool, bridged: bool)

  const NOT_BEGUN := Progress(false, 0, 0, 0, false, false)

  datatype State = State(
    stopped: bool,
    generation: nat,
    retry: nat,
    hasConnected: bool,
    socket: Option<nat>,
    reconnectTimer: Option<nat>,
    phase: Phase,
    timers: set<nat>,
    tickets: map<nat, Attempt>,
    sockets: map<nat, Socket>,
    fetches: map<nat, Fetch>,
    nextId: nat,
    starts: nat,
    log: seq<Entry>,
    count: nat,
    cursor: Option<nat>,
    base: Option<nat>,
    given: set<nat>,
    progress: Progress
  )

  function Init(count: nat): State {
    State(true, 0, 0, false, None, None, Stopped, {}, map[], map[], map[], 0, 0, [], count, None, None, {}, NOT_BEGUN)
  }

  datatype Action =
    | Start
    | Stop
    | Fire(timer: nat)
    | TicketOk(ticket: nat)
    | TicketFails(ticket: nat, retryable: bool)
    | Accept(ws: nat, since: nat)
    | Open(ws: nat)
    | Live(ws: nat)
    | Garbage(ws: nat)
    | WireError(ws: nat)
    | Close(ws: nat)
    | Read(fetch: nat)
    | Reply(fetch: nat)
    | ReplyFails(fetch: nat)
    | Post(n: nat)

  predicate Current(s: State, generation: nat) {
    !s.stopped && generation == s.generation
  }

  predicate IsLive(s: State, ws: nat) {
    ws in s.sockets && s.sockets[ws].wire != Closed
  }

  predicate Enabled(s: State, a: Action) {
    match a
    case Fire(t) => t in s.timers
    case TicketOk(k) => k in s.tickets
    case TicketFails(k, _) => k in s.tickets
    case Accept(w, since) => w in s.sockets && s.sockets[w].wire == Handshake && since <= s.count
    case Open(w) => w in s.sockets && s.sockets[w].wire == Accepted
    case Live(w) => w in s.sockets && s.sockets[w].wire == Opened && s.sockets[w].next < s.count
    case Garbage(w) => w in s.sockets && s.sockets[w].wire == Opened
    case WireError(w) => IsLive(s, w)
    case Close(w) => IsLive(s, w)
    case Read(f) => f in s.fetches && s.fetches[f].page.None?
    case Reply(f) => f in s.fetches && s.fetches[f].page.Some?
    case ReplyFails(f) => f in s.fetches
    case _ => true
  }

  // ---- The controller ----

  /** A later log, its new entries all of `generation`. */
  ghost predicate Appends(before: seq<Entry>, after: seq<Entry>, generation: nat) {
    && |before| <= |after| && after[..|before|] == before
    && forall i :: |before| <= i < |after| ==> after[i].generation == generation
  }

  function Say(s: State, generation: nat, callback: Callback): (r: State)
    ensures r == s.(log := r.log) && Appends(s.log, r.log, generation)
  {
    s.(log := s.log + [Entry(generation, callback)])
  }

  function SetPhase(s: State, generation: nat, phase: Phase): (r: State)
    ensures r == s.(phase := phase, log := r.log) && Appends(s.log, r.log, generation)
  {
    if s.phase == phase then s else Say(s.(phase := phase), generation, PhaseChange(phase))
  }

  function Schedule(s: State): State {
    s.(retry := s.retry + 1, reconnectTimer := Some(s.nextId), timers := s.timers + {s.nextId}, nextId := s.nextId + 1)
  }

  function Connect(s: State): State {
    var t := s.(generation := s.generation + 1);
    if s.stopped then t
    else
      var u := SetPhase(t.(progress := NOT_BEGUN), t.generation, Connecting);
      u.(tickets := u.tickets[u.nextId := Attempt(u.generation, s.cursor)], nextId := u.nextId + 1)
  }

  function AfterStop(s: State): State {
    var t := s.(stopped := true, generation := s.generation + 1, reconnectTimer := None,
                timers := if s.reconnectTimer.Some? then s.timers - {s.reconnectTimer.value} else s.timers);
    var u := if s.socket.None? then t
             else
               var sockets := if s.socket.value in s.sockets then s.sockets[s.socket.value := s.sockets[s.socket.value].(wire := Closed)] else s.sockets;
               Say(t.(sockets := sockets, socket := None), t.generation, SocketChange(None));
    SetPhase(u, t.generation, Stopped)
  }

  function AfterTicket(s: State, ticket: nat): State
    requires ticket in s.tickets
  {
    var a, t := s.tickets[ticket], s.(tickets := s.tickets - {ticket});
    if !Current(s, a.generation) then t
    else
      Say(t.(sockets := t.sockets[t.nextId := Socket(a.generation, a.cursor, Handshake, 0, 0)], socket := Some(t.nextId), nextId := t.nextId + 1),
          a.generation, SocketChange(Some(t.nextId)))
  }

  function AfterNoTicket(s: State, ticket: nat, retryable: bool): State
    requires ticket in s.tickets
  {
    var a, t := s.tickets[ticket], s.(tickets := s.tickets - {ticket});
    if !Current(s, a.generation) then t
    else
      var u := SetPhase(Say(t, a.generation, Failure), a.generation, Offline);
      if retryable then Schedule(u) else u
  }

  /** The open handler, which sends the first query of fetchForward. */
  function AfterOpen(s: State, ws: nat): State
    requires ws in s.sockets
  {
    var k := s.sockets[ws];
    var t := s.(sockets := s.sockets[ws := k.(wire := Opened)]);
    if !Current(s, k.generation) then t
    else
      var u := SetPhase(t.(retry := 0), k.generation, Connected);
      var query := Fetch(k.generation, !s.hasConnected, if s.hasConnected then k.cursor else None, PAGE_SIZE, k.since, None);
      u.(hasConnected := true, fetches := u.fetches[u.nextId := query], nextId := u.nextId + 1)
  }

  function AfterLive(s: State, ws: nat): State
    requires ws in s.sockets
  {
    var k := s.sockets[ws];
    var t := s.(sockets := s.sockets[ws := k.(next := k.next + 1)]);
    if !Current(s, k.generation) then t else Say(t.(given := t.given + {k.next}), k.generation, Messages(k.next, k.next + 1))
  }

  function AfterClose(s: State, ws: nat): State
    requires ws in s.sockets
  {
    var k := s.sockets[ws];
    var t := s.(sockets := s.sockets[ws := k.(wire := Closed)]);
    if !Current(s, k.generation) then t
    else
      var u := if s.socket == Some(ws) then Say(t.(socket := None), k.generation, SocketChange(None)) else t;
      Schedule(SetPhase(u, k.generation, Offline))
  }

  // ---- The server's pages, and what the host makes of them ----

  /** Without a cursor, the latest page; with one, the messages from it on. */
  function PageOf(count: nat, cursor: Option<nat>, limit: nat): (page: Page)
    ensures page.lo <= page.hi <= page.lo + limit && (page.hi <= count || page.lo == page.hi)
    ensures cursor.Some? ==> page.lo == cursor.value
    ensures cursor.None? ==> page.hi == count && (page.lo == 0 || page.hi == page.lo + limit)
    ensures page.more <==> page.hi < count
    ensures page.more ==> page.hi == page.lo + limit
  {
    match cursor
    case None => Page(if count > limit then count - limit else 0, count, false)
    case Some(c) => if c + limit < count then Page(c, c + limit, true) else Page(c, if c < count then count else c, false)
  }

  /** An empty page has no stable cursor. */
  function StableCursor(page: Page): Option<nat> {
    if page.lo < page.hi then Some(page.hi) else None
  }

  function Range(lo: nat, hi: nat): (r: set<nat>)
    ensures forall i: nat :: i in r <==> lo <= i < hi
    decreases hi - lo
  {
    if lo >= hi then {} else {lo} + Range(lo + 1, hi)
  }

  ghost predicate Covers(given: set<nat>, lo: nat, hi: nat) {
    forall i :: lo <= i < hi ==> i in given
  }

  function Min(a: nat, b: nat): nat {
    if a < b then a else b
  }

  ghost function Advanced(s: State, f: Fetch, page: Page): Progress {
    var p := s.progress;
    var base := if s.base.Some? then s.base.value else page.lo;
    if p.begun then p.(upto := page.hi, drained := !page.more)
    else Progress(true, page.lo, f.since, page.hi, !page.more, Covers(s.given, base, Min(page.lo, f.since)))
  }

  /** The body of onPage. */
  ghost function Delivered(s: State, f: Fetch, page: Page): State {
    var u := if f.first then Say(s, f.generation, FirstPage(page.lo, page.hi)) else s;
    Say(u, f.generation, Messages(page.lo, page.hi)).(
      given := s.given + Range(page.lo, page.hi), base := if s.base.Some? then s.base else Some(page.lo), progress := Advanced(s, f, page))
  }

  /** The next query of fetchForward, if there is one. */
  function Continued(s: State, f: Fetch, page: Page): State {
    if !page.more then s
    else s.(fetches := s.fetches[s.nextId := Fetch(f.generation, false, Some(page.hi), CATCHUP_LIMIT, f.since, None)], nextId := s.nextId + 1)
  }

  /** A page arrives. The host notes its stable cursor whatever generation asked for it;
      only the current generation delivers it and goes on. */
  ghost function AfterReply(s: State, fetch: nat): State
    requires fetch in s.fetches && s.fetches[fetch].page.Some?
  {
    var f, page := s.fetches[fetch], s.fetches[fetch].page.value;
    var t := s.(fetches := s.fetches - {fetch}, cursor := StableCursor(page));
    if Current(s, f.generation) then Continued(Delivered(t, f, page), f, page) else t
  }

  ghost function Step(s: State, a: Action): State
    requires Enabled(s, a)
  {
    match a
    case Start => Connect(s.(stopped := false, generation := 0, retry := 0, hasConnected := false, starts := s.starts + 1))
    case Stop => AfterStop(s)
    case Fire(t) => Connect(s.(timers := s.timers - {t}))
    case TicketOk(k) => AfterTicket(s, k)
    case TicketFails(k, retryable) => AfterNoTicket(s, k, retryable)
    case Accept(w, since) => s.(sockets := s.sockets[w := s.sockets[w].(wire := Accepted, since := since, next := since)])
    case Open(w) => AfterOpen(s, w)
    case Live(w) => AfterLive(s, w)
    case Garbage(w) => if Current(s, s.sockets[w].generation) then Say(s, s.sockets[w].generation, Failure) else s
    case WireError(w) => if Current(s, s.sockets[w].generation) then SetPhase(s, s.sockets[w].generation, Offline) else s
    case Close(w) => AfterClose(s, w)
    case Read(f) => s.(fetches := s.fetches[f := s.fetches[f].(page := Some(PageOf(s.count, s.fetches[f].cursor, s.fetches[f].limit)))])
    case Reply(f) => AfterReply(s, f)
    case ReplyFails(f) =>
      var t := s.(fetches := s.fetches - {f});
      if Current(s, s.fetches[f].generation) then Say(t, s.fetches[f].generation, Failure) else t
    case Post(n) => s.(count := s.count + n)
  }

  ghost predicate CanRun(s: State, actions: seq<Action>)
    decreases |actions|
  {
    actions == [] || (Enabled(s, actions[0]) && CanRun(Step(s, actions[0]), actions[1..]))
  }

  ghost function Run(s: State, actions: seq<Action>): State
    requires CanRun(s, actions)
    decreases |actions|
  {
    if actions == [] then s else Run(Step(s, actions[0]), actions[1..])
  }

  // ---- One thing at a time ----

  /** What a controller that was started once is waiting for. */
  datatype Activity = Nothing | Ticket(ticket: nat) | Wired(ws: nat) | Timer(timer: nat)

  ghost predicate Fits(s: State, act: Activity) {
    && s.timers == (if act.Timer? then {act.timer} else {})
    && s.tickets.Keys == (if act.Ticket? then {act.ticket} else {})
    && (forall w :: IsLive(s, w) <==> act == Wired(w))
    && (!s.stopped ==>
          && (act.Ticket? ==> s.tickets[act.ticket].generation == s.generation)
          && (act.Wired? ==> s.sockets[act.ws].generation == s.generation && s.socket == Some(act.ws))
          && (act.Timer? ==> s.reconnectTimer == Some(act.timer)))
    && (s.stopped ==> (act.Nothing? || act.Ticket?) && s.socket.None?)
    && (s.starts == 0 ==> act.Nothing? && s.stopped)
  }

  ghost predicate FreshInv(s: State) {
    && (forall t :: t in s.timers ==> t < s.nextId)
    && (forall k :: k in s.tickets ==> k < s.nextId)
    && (forall w :: w in s.sockets ==> w < s.nextId)
    && (forall f :: f in s.fetches ==> f < s.nextId && s.fetches[f].generation <= s.generation)
    && (s.starts == 0 ==> s.sockets == map[] && s.fetches == map[] && s.tickets == map[] && s.timers == {})
  }

  function NextActivity(s: State, act: Activity, a: Action): Activity
    requires Enabled(s, a)
  {
    match a
    case Start => Ticket(s.nextId)
    case Stop => if act.Ticket? then act else Nothing
    case Fire(_) => if s.stopped then Nothing else Ticket(s.nextId)
    case TicketOk(k) => if Current(s, s.tickets[k].generation) then Wired(s.nextId) else Nothing
    case TicketFails(k, retryable) => if Current(s, s.tickets[k].generation) && retryable then Timer(s.nextId) else Nothing
    case Close(w) => if Current(s, s.sockets[w].generation) then Timer(s.nextId) else Nothing
    case _ => act
  }

  /** The steps that leave the connection itself alone. */
  predicate Quiet(a: Action) {
    a.Accept? || a.Open? || a.Live? || a.Garbage? || a.WireError? || a.Read? || a.Reply? || a.ReplyFails? || a.Post?
  }

  ghost predicate SameConnection(s: State, t: State) {
    && t.timers == s.timers && t.tickets == s.tickets && t.stopped == s.stopped && t.generation == s.generation
    && t.socket == s.socket && t.reconnectTimer == s.reconnectTimer && t.starts == s.starts
    && t.sockets.Keys == s.sockets.Keys
    && forall w :: w in s.sockets ==> t.sockets[w].generation == s.sockets[w].generation && (IsLive(t, w) <==> IsLive(s, w))
  }

  lemma DeliveredChanges(s: State, f: Fetch, page: Page)
    ensures var t := Delivered(s, f, page);
            t == s.(log := t.log, given := t.given, base := t.base, progress := t.progress)
    ensures Appends(s.log, Delivered(s, f, page).log, f.generation)
  {
    hide Advanced, Range;
  }

  lemma ReplyChanges(s: State, a: Action)
    requires Enabled(s, a) && (a.Reply? || a.ReplyFails? || a.Read?)
    ensures var t := Step(s, a);
            t == s.(fetches := t.fetches, cursor := t.cursor, log := t.log, given := t.given, base := t.base, progress := t.progress, nextId := t.nextId)
    ensures Step(s, a).nextId >= s.nextId && Appends(s.log, Step(s, a).log, s.generation)
  {
    hide Advanced, PageOf, Range, Delivered;
    if a.Reply? {
      var f, page := s.fetches[a.fetch], s.fetches[a.fetch].page.value;
      DeliveredChanges(s.(fetches := s.fetches - {a.fetch}, cursor := StableCursor(page)), f, page);
    }
  }

  lemma WireChanges(s: State, a: Action)
    requires Enabled(s, a) && (a.Accept? || a.Open? || a.Live?)
    ensures var t := Step(s, a);
            && t == s.(sockets := t.sockets, retry := t.retry, phase := t.phase, hasConnected := t.hasConnected, fetches := t.fetches, log := t.log, given := t.given, nextId := t.nextId)
            && a.ws in t.sockets && t.sockets == s.sockets[a.ws := t.sockets[a.ws]]
            && t.sockets[a.ws].generation == s.sockets[a.ws].generation && t.sockets[a.ws].cursor == s.sockets[a.ws].cursor && t.sockets[a.ws].wire != Closed
    ensures Step(s, a).nextId >= s.nextId && Appends(s.log, Step(s, a).log, s.generation)
  {
    hide Say, SetPhase;
  }

  lemma SignalChanges(s: State, a: Action)
    requires Enabled(s, a) && (a.Garbage? || a.WireError? || a.Post?)
    ensures var t := Step(s, a); t == s.(log := t.log, phase := t.phase, count := t.count) && t.count >= s.count
    ensures Appends(s.log, Step(s, a).log, s.generation)
  {
  }

  lemma QuietKeepsConnection(s: State, a: Action)
    requires Enabled(s, a) && Quiet(a)
    ensures SameConnection(s, Step(s, a))
  {
    hide Step;
    if a.Reply? || a.ReplyFails? || a.Read? {
      ReplyChanges(s, a);
    } else if a.Accept? || a.Open? || a.Live? {
      WireChanges(s, a);
    } else {
      SignalChanges(s, a);
    }
  }

  lemma SameConnectionFits(s: State, t: State, act: Activity)
    requires Fits(s, act) && SameConnection(s, t)
    ensures Fits(t, act)
  {
    forall w ensures IsLive(t, w) <==> act == Wired(w) {
      assert IsLive(s, w) <==> act == Wired(w);
    }
  }

  lemma StartFits(s: State, act: Activity)
    requires Fits(s, act) && s.starts == 0
    ensures Fits(Step(s, Start), Ticket(s.nextId))
  {
    forall w ensures !IsLive(Step(s, Start), w) {
      assert IsLive(s, w) <==> act == Wired(w);
    }
  }

  lemma FireFits(s: State, act: Activity, a: Action)
    requires Enabled(s, a) && a.Fire? && Fits(s, act)
    ensures Fits(Step(s, a), NextActivity(s, act, a))
  {
    forall w ensures !IsLive(Step(s, a), w) {
      assert IsLive(s, w) <==> act == Wired(w);
    }
  }

  lemma StopFits(s: State, act: Activity)
    requires Fits(s, act)
    ensures Fits(AfterStop(s), NextActivity(s, act, Stop))
  {
    forall w ensures !IsLive(AfterStop(s), w) {
      assert IsLive(s, w) <==> act == Wired(w);
    }
  }

  lemma TicketFits(s: State, act: Activity, a: Action)
    requires Enabled(s, a) && (a.TicketOk? || a.TicketFails?) && Fits(s, act) && FreshInv(s)
    ensures Fits(Step(s, a), NextActivity(s, act, a))
  {
    var t, next := Step(s, a), NextActivity(s, act, a);
    forall w ensures IsLive(t, w) <==> next == Wired(w) {
      assert IsLive(s, w) <==> act == Wired(w);
    }
  }

  lemma CloseFits(s: State, act: Activity, a: Action)
    requires Enabled(s, a) && a.Close? && Fits(s, act) && FreshInv(s)
    ensures Fits(Step(s, a), NextActivity(s, act, a))
  {
    var t, next := Step(s, a), NextActivity(s, act, a);
    forall w ensures IsLive(t, w) <==> next == Wired(w) {
      assert IsLive(s, w) <==> act == Wired(w);
    }
  }

  lemma StepFits(s: State, act: Activity, a: Action)
    requires Enabled(s, a) && Fits(s, act) && FreshInv(s) && (a == Start ==> s.starts == 0)
    ensures Fits(Step(s, a), NextActivity(s, act, a))
  {
    hide Step, Fits, FreshInv, SameConnection;
    if Quiet(a) {
      QuietKeepsConnection(s, a);
      SameConnectionFits(s, Step(s, a), act);
    } else {
      OtherFits(s, act, a);
    }
  }

  lemma OtherFits(s: State, act: Activity, a: Action)
    requires Enabled(s, a) && !Quiet(a) && Fits(s, act) && FreshInv(s) && (a == Start ==> s.starts == 0)
    ensures Fits(Step(s, a), NextActivity(s, act, a))
  {
    hide Fits, FreshInv, Connect, AfterTicket, AfterNoTicket, AfterClose, AfterStop;
    match a
    case Start => StartFits(s, act);
    case Stop => StopFits(s, act);
    case Fire(_) => FireFits(s, act, a);
    case Close(_) => CloseFits(s, act, a);
    case _ => TicketFits(s, act, a);
  }

  lemma StartKeepsFresh(s: State, a: Action)
    requires Enabled(s, a) && FreshInv(s) && a == Start && s.starts == 0
    ensures FreshInv(Step(s, a))
  {
    hide Say, SetPhase, Appends;
  }

  lemma FireKeepsFresh(s: State, a: Action)
    requires Enabled(s, a) && FreshInv(s) && a.Fire?
    ensures FreshInv(Step(s, a))
  {
    hide Say, SetPhase, Appends;
  }

  lemma StopKeepsFresh(s: State, a: Action)
    requires Enabled(s, a) && FreshInv(s) && a == Stop
    ensures FreshInv(Step(s, a))
  {
    hide Say, SetPhase, Appends;
  }

  lemma TicketKeepsFresh(s: State, a: Action)
    requires Enabled(s, a) && FreshInv(s) && (a.TicketOk? || a.TicketFails?)
    ensures FreshInv(Step(s, a))
  {
    hide Say, SetPhase, Appends;
  }

  lemma CloseKeepsFresh(s: State, a: Action)
    requires Enabled(s, a) && FreshInv(s) && a.Close?
    ensures FreshInv(Step(s, a))
  {
    hide Say, SetPhase, Appends;
  }

  lemma FetchKeepsFresh(s: State, a: Action)
    requires Enabled(s, a) && (a.Reply? || a.ReplyFails? || a.Read?) && FreshInv(s)
    ensures FreshInv(Step(s, a))
  {
    hide Advanced, PageOf, Range, Appends, Delivered;
    ReplyChanges(s, a);
    if a.Reply? {
      var f, page := s.fetches[a.fetch], s.fetches[a.fetch].page.value;
      DeliveredChanges(s.(fetches := s.fetches - {a.fetch}, cursor := StableCursor(page)), f, page);
    }
  }

  lemma WireKeepsFresh(s: State, a: Action)
    requires Enabled(s, a) && (a.Accept? || a.Open? || a.Live?) && FreshInv(s)
    ensures FreshInv(Step(s, a))
  {
    hide Appends;
    WireChanges(s, a);
  }

  lemma SignalKeepsFresh(s: State, a: Action)
    requires Enabled(s, a) && (a.Garbage? || a.WireError? || a.Post?) && FreshInv(s)
    ensures FreshInv(Step(s, a))
  {
    hide Appends, Step;
    SignalChanges(s, a);
  }

  lemma StepKeepsFresh(s: State, a: Action)
    requires Enabled(s, a) && FreshInv(s) && (a == Start ==> s.starts == 0)
    ensures FreshInv(Step(s, a))
  {
    hide Step;
    match a
    case Start => StartKeepsFresh(s, a);
    case Stop => StopKeepsFresh(s, a);
    case Fire(_) => FireKeepsFresh(s, a);
    case Close(_) => CloseKeepsFresh(s, a);
    case TicketOk(_) => TicketKeepsFresh(s, a);
    case TicketFails(_, _) => TicketKeepsFresh(s, a);
    case _ =>
      if a.Reply? || a.ReplyFails? || a.Read? {
        FetchKeepsFresh(s, a);
      } else if a.Accept? || a.Open? || a.Live? {
        WireKeepsFresh(s, a);
      } else {
        SignalKeepsFresh(s, a);
      }
  }

  /** While a controller has been started at most once. */
  ghost predicate ConnectionInv(s: State) {
    s.starts <= 1 ==> FreshInv(s) && exists act :: Fits(s, act)
  }

  lemma StartsOnlyGrow(s: State, a: Action)
    requires Enabled(s, a)
    ensures Step(s, a).starts == s.starts + if a == Start then 1 else 0
  {
    hide Advanced, PageOf, Range, Appends, Delivered;
    if a != Start { StepAppends(s, a); }
  }

  lemma StepKeepsConnectionInv(s: State, a: Action)
    requires Enabled(s, a) && ConnectionInv(s)
    ensures ConnectionInv(Step(s, a))
  {
    hide Step, Fits, FreshInv;
    StartsOnlyGrow(s, a);
    if Step(s, a).starts <= 1 {
      var act :| Fits(s, act);
      StepFits(s, act, a);
      StepKeepsFresh(s, a);
    }
  }

  lemma {:induction false} RunKeepsConnectionInv(s: State, actions: seq<Action>)
    requires CanRun(s, actions) && ConnectionInv(s)
    ensures ConnectionInv(Run(s, actions))
    decreases |actions|
  {
    hide Step, ConnectionInv;
    if actions != [] {
      StepKeepsConnectionInv(s, actions[0]);
      RunKeepsConnectionInv(Step(s, actions[0]), actions[1..]);
    }
  }

  lemma InitConnection(count: nat)
    ensures ConnectionInv(Init(count))
  {
    assert Fits(Init(count), Nothing);
  }

  ghost predicate Reachable(s: State) {
    exists count, actions :: CanRun(Init(count), actions) && s == Run(Init(count), actions)
  }

  lemma ReachableConnection(s: State)
    requires Reachable(s)
    ensures ConnectionInv(s)
  {
    hide ConnectionInv;
    var count, actions :| CanRun(Init(count), actions) && s == Run(Init(count), actions);
    InitConnection(count);
    RunKeepsConnectionInv(Init(count), actions);
  }

  /** However timers, ticket replies and socket events interleave, a controller started
      once has at most one reconnect timer, one live socket and one ticket request
      between them; until it is stopped they belong to the current generation, and a
      pending timer is the one that stop() clears. */
  lemma OneThingAtATime(s: State)
    requires Reachable(s) && s.starts <= 1
    ensures forall v, w :: IsLive(s, v) && IsLive(s, w) ==> v == w
    ensures |s.timers| <= 1 && |s.tickets| <= 1
    ensures forall w :: IsLive(s, w) ==> s.timers == {} && s.tickets == map[] && !s.stopped && s.sockets[w].generation == s.generation && s.socket == Some(w)
    ensures s.timers != {} ==> s.tickets == map[] && !s.stopped && s.reconnectTimer.Some? && s.timers == {s.reconnectTimer.value}
    ensures !s.stopped ==> forall k :: k in s.tickets ==> s.tickets[k].generation == s.generation
  {
    ReachableConnection(s);
    var act :| Fits(s, act);
    assert |s.tickets| == |s.tickets.Keys|;
    forall w ensures IsLive(s, w) <==> act == Wired(w) {}
  }

  // ---- Who may call back ----

  /** The generation whose sequence an event belongs to. */
  function SequenceOf(s: State, a: Action): Option<nat>
    requires Enabled(s, a)
  {
    match a
    case TicketOk(k) => Some(s.tickets[k].generation)
    case TicketFails(k, _) => Some(s.tickets[k].generation)
    case Open(w) => Some(s.sockets[w].generation)
    case Live(w) => Some(s.sockets[w].generation)
    case Garbage(w) => Some(s.sockets[w].generation)
    case WireError(w) => Some(s.sockets[w].generation)
    case Close(w) => Some(s.sockets[w].generation)
    case Reply(f) => Some(s.fetches[f].generation)
    case ReplyFails(f) => Some(s.fetches[f].generation)
    case _ => None
  }

  /** The guard of every event; GenerationsNeverGoBack is what it amounts to. */
  lemma SupersededIsSilent(s: State, a: Action)
    requires Enabled(s, a) && SequenceOf(s, a).Some? && !Current(s, SequenceOf(s, a).value)
    ensures Step(s, a).log == s.log && Step(s, a).given == s.given && Step(s, a).timers == s.timers
  {
    hide Advanced, PageOf, Range;
  }

  ghost predicate Silent(s: State) {
    s.stopped && s.socket.None? && s.phase == Stopped
  }

  lemma StopSilences(s: State)
    ensures Silent(AfterStop(s))
  {
  }

  lemma StepStaysSilent(s: State, a: Action)
    requires Enabled(s, a) && Silent(s) && a != Start
    ensures Silent(Step(s, a)) && Step(s, a).log == s.log
  {
    hide Advanced, PageOf, Range;
  }

  lemma {:induction false} RunStaysSilent(s: State, actions: seq<Action>)
    requires CanRun(s, actions) && Silent(s) && Start !in actions
    ensures Run(s, actions).log == s.log
    decreases |actions|
  {
    hide Step;
    if actions != [] {
      assert actions[0] in actions;
      StepStaysSilent(s, actions[0]);
      RunStaysSilent(Step(s, actions[0]), actions[1..]);
    }
  }

  /** After stop() returns no callback is delivered again. */
  lemma NothingAfterStop(s: State, actions: seq<Action>)
    requires CanRun(AfterStop(s), actions) && Start !in actions
    ensures Run(AfterStop(s), actions).log == AfterStop(s).log
  {
    StopSilences(s);
    RunStaysSilent(AfterStop(s), actions);
  }

  lemma AppendsTwice(before: seq<Entry>, between: seq<Entry>, after: seq<Entry>, generation: nat)
    requires Appends(before, between, generation) && Appends(between, after, generation)
    ensures Appends(before, after, generation)
  {
    assert after[..|before|] == after[..|between|][..|before|];
  }

  /** A step whose callbacks are all of the generation it leads to. */
  ghost predicate CallsBackAsCurrent(s: State, t: State) {
    Appends(s.log, t.log, t.generation) && t.generation >= s.generation && t.starts == s.starts
  }

  lemma StopAppends(s: State)
    ensures CallsBackAsCurrent(s, AfterStop(s))
  {
    hide Say, SetPhase, Appends;
    var g := s.generation + 1;
    var t := s.(stopped := true, generation := g, reconnectTimer := None,
                timers := if s.reconnectTimer.Some? then s.timers - {s.reconnectTimer.value} else s.timers);
    if s.socket.Some? {
      var sockets := if s.socket.value in s.sockets then s.sockets[s.socket.value := s.sockets[s.socket.value].(wire := Closed)] else s.sockets;
      var u := Say(t.(sockets := sockets, socket := None), g, SocketChange(None));
      AppendsTwice(s.log, u.log, SetPhase(u, g, Stopped).log, g);
    }
  }

  lemma ConnectAppends(s: State)
    ensures CallsBackAsCurrent(s, Connect(s))
  {
  }

  lemma TicketAppends(s: State, ticket: nat)
    requires ticket in s.tickets
    ensures CallsBackAsCurrent(s, AfterTicket(s, ticket))
  {
  }

  lemma NoTicketAppends(s: State, ticket: nat, retryable: bool)
    requires ticket in s.tickets
    ensures CallsBackAsCurrent(s, AfterNoTicket(s, ticket, retryable))
  {
    var a, t := s.tickets[ticket], s.(tickets := s.tickets - {ticket});
    if Current(s, a.generation) {
      hide Say, SetPhase, Appends;
      var u := Say(t, a.generation, Failure);
      AppendsTwice(s.log, u.log, SetPhase(u, a.generation, Offline).log, a.generation);
    }
  }

  lemma CloseAppends(s: State, ws: nat)
    requires ws in s.sockets
    ensures CallsBackAsCurrent(s, AfterClose(s, ws))
  {
    var k := s.sockets[ws];
    var t := s.(sockets := s.sockets[ws := k.(wire := Closed)]);
    if Current(s, k.generation) {
      var u := if s.socket == Some(ws) then Say(t.(socket := None), k.generation, SocketChange(None)) else t;
      assert Appends(s.log, u.log, k.generation);
      hide Say, SetPhase, Appends;
      AppendsTwice(s.log, u.log, SetPhase(u, k.generation, Offline).log, k.generation);
    }
  }

  lemma ConnectionAppends(s: State, a: Action)
    requires Enabled(s, a) && !Quiet(a) && a != Start
    ensures CallsBackAsCurrent(s, Step(s, a))
  {
    hide Appends, AfterStop, Connect, AfterTicket, AfterNoTicket, AfterClose;
    match a
    case Stop => StopAppends(s);
    case Fire(t) => ConnectAppends(s.(timers := s.timers - {t}));
    case TicketOk(k) => TicketAppends(s, k);
    case TicketFails(k, retryable) => NoTicketAppends(s, k, retryable);
    case Close(w) => CloseAppends(s, w);
    case _ =>
  }

  lemma StepAppends(s: State, a: Action)
    requires Enabled(s, a) && a != Start
    ensures Appends(s.log, Step(s, a).log, Step(s, a).generation) && Step(s, a).generation >= s.generation
    ensures Step(s, a).starts == s.starts
  {
    hide Step, Appends;
    if a.Reply? || a.ReplyFails? || a.Read? {
      ReplyChanges(s, a);
    } else if a.Accept? || a.Open? || a.Live? {
      WireChanges(s, a);
    } else if Quiet(a) {
      SignalChanges(s, a);
    } else {
      ConnectionAppends(s, a);
    }
  }

  /** Once a generation has called back, no earlier one does. */
  ghost predicate LogInv(s: State) {
    && (s.starts == 0 ==> s.log == [] && Silent(s))
    && (s.starts <= 1 ==>
          (forall i :: 0 <= i < |s.log| ==> s.log[i].generation <= s.generation) &&
          (forall i, j :: 0 <= i < j < |s.log| ==> s.log[i].generation <= s.log[j].generation))
  }

  lemma StepKeepsLog(s: State, a: Action)
    requires Enabled(s, a) && LogInv(s)
    ensures LogInv(Step(s, a))
  {
    if a != Start {
      hide Step;
      StepAppends(s, a);
      var before, after := s.log, Step(s, a).log;
      assert forall i :: 0 <= i < |before| ==> after[i] == after[..|before|][i];
      if s.starts == 0 { StepStaysSilent(s, a); }
    }
  }

  lemma {:induction false} RunKeepsLog(s: State, actions: seq<Action>)
    requires CanRun(s, actions) && LogInv(s)
    ensures LogInv(Run(s, actions))
    decreases |actions|
  {
    hide Step, LogInv;
    if actions != [] {
      StepKeepsLog(s, actions[0]);
      RunKeepsLog(Step(s, actions[0]), actions[1..]);
    }
  }

  lemma GenerationsNeverGoBack(s: State, i: nat, j: nat)
    requires Reachable(s) && s.starts <= 1 && i < j < |s.log|
    ensures s.log[i].generation <= s.log[j].generation <= s.generation
  {
    var count, actions :| CanRun(Init(count), actions) && s == Run(Init(count), actions);
    RunKeepsLog(Init(count), actions);
  }

  // ---- Extending a run ----

  lemma {:induction false} RunAppend(start: State, so: seq<Action>, a: Action)
    requires CanRun(start, so) && Enabled(Run(start, so), a)
    ensures CanRun(start, so + [a]) && Run(start, so + [a]) == Step(Run(start, so), a)
    decreases |so|
  {
    hide Step;
    if so != [] {
      RunAppend(Step(start, so[0]), so[1..], a);
      assert (so + [a])[1..] == so[1..] + [a];
    }
  }

  lemma Next(s: State, a: Action, t: State)
    requires Reachable(s) && Enabled(s, a) && t == Step(s, a)
    ensures Reachable(t)
  {
    hide Step;
    var count, actions :| CanRun(Init(count), actions) && s == Run(Init(count), actions);
    RunAppend(Init(count), actions, a);
  }

  lemma InitReachable(count: nat)
    ensures Reachable(Init(count))
  {
    assert CanRun(Init(count), []) && Run(Init(count), []) == Init(count);
  }
}
