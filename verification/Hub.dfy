/** backend/internal/chat/hub.go: the single-threaded chat hub, the bounded send queues of
    its clients, and the revalidation sweeps beside it. */
module Hub {
  import opened Ordering

  const SEND_BUFFER := 64
  const RESULT_BUFFER := 128

  datatype Message = Message(id: string, group: string, content: string)

  /** What a send queue carries: an accepted broadcast, or a system notice. */
  datatype Entry = Post(message: Message) | Notice(code: string)

  /** One socket. `history` is everything ever queued for it, `closed` how often its done
      channel was closed. It takes part in the broadcasts `since..until`; `until` is set
      when it is removed. */
  datatype Client = Client(
    user: string,
    group: string,
    send: seq<Entry>,
    history: seq<Entry>,
    closed: nat,
    since: nat,
    until: nat
  )

  datatype Result = Result(client: nat, valid: bool)

  /** `sockets` holds every client ever registered, `sweeps` the clients that each sweep
      in flight has still to check, `dones` the finished sweeps not yet acknowledged. */
  datatype State = State(
    clients: set<nat>,
    sockets: map<nat, Client>,
    accepted: seq<Message>,
    running: bool,
    pending: bool,
    sweeps: map<nat, set<nat>>,
    started: nat,
    results: seq<Result>,
    dones: nat,
    revalidates: bool,
    stopped: bool
  )

  function Init(revalidates: bool): State {
    State({}, map[], [], false, false, map[], 0, [], 0, revalidates, false)
  }

  // ---- The steps ----

  function Matches(s: State, user: string, group: string): set<nat> {
    set c | c in s.clients && c in s.sockets && s.sockets[c].user == user && (group == "" || s.sockets[c].group == group)
  }

  /** Each of `gone` that is still registered is dropped and its done channel closed. */
  function Removed(s: State, gone: set<nat>, until: nat): (r: State)
    ensures r == s.(clients := r.clients, sockets := r.sockets)
  {
    s.(clients := s.clients - gone,
       sockets := map c | c in s.sockets ::
                    if c in gone && c in s.clients then s.sockets[c].(closed := s.sockets[c].closed + 1, until := until) else s.sockets[c])
  }

  /** A non-blocking send. */
  function Queued(c: Client, e: Entry): Client {
    if |c.send| < SEND_BUFFER then c.(send := c.send + [e], history := c.history + [e]) else c
  }

  function Notified(s: State, client: nat, code: string): (r: State)
    ensures r == s.(sockets := r.sockets)
  {
    if client in s.sockets then s.(sockets := s.sockets[client := Queued(s.sockets[client], Notice(code))]) else s
  }

  function Recipients(s: State, group: string): set<nat> {
    set c | c in s.clients && c in s.sockets && s.sockets[c].group == group
  }

  function Slow(s: State, group: string): set<nat> {
    set c | c in Recipients(s, group) && |s.sockets[c].send| >= SEND_BUFFER
  }

  /** Every recipient with room gets the message; those without are removed. */
  function Broadcasted(s: State, m: Message): (r: State)
    ensures r == s.(clients := r.clients, sockets := r.sockets, accepted := r.accepted)
  {
    var sent := map c | c in s.sockets :: if c in Recipients(s, m.group) then Queued(s.sockets[c], Post(m)) else s.sockets[c];
    Removed(s.(sockets := sent), Slow(s, m.group), |s.accepted|).(accepted := s.accepted + [m])
  }

  /** The body of requestRevalidation. */
  function Requested(s: State): State {
    if s.running then s.(pending := true)
    else if s.revalidates && s.clients != {} then
      s.(running := true, sweeps := s.sweeps[s.started := s.clients], started := s.started + 1)
    else s
  }

  function Acknowledged(s: State): State
    requires s.dones > 0
  {
    var t := s.(dones := s.dones - 1, running := false);
    if t.pending then Requested(t.(pending := false)) else t
  }

  datatype Action =
    | Register(client: nat, user: string, group: string)
    | Unregister(client: nat)
    | Disconnect(user: string, group: string)
    | Broadcast(message: Message, saved: bool, sender: Option<nat>)
    | Revalidate
    | Report(sweep: nat, client: nat, valid: bool)
    | Apply
    | Finish(sweep: nat)
    | Acknowledge
    | System(client: nat, code: string)
    | Write(client: nat)
    | Stop

  /** Each client is registered once; the loop, the sweeps and the channels it reads are
      gone after Stop. */
  predicate Enabled(s: State, a: Action) {
    match a
    case Register(c, _, _) => !s.stopped && c !in s.sockets
    case Report(k, c, _) => !s.stopped && k in s.sweeps && c in s.sweeps[k] && |s.results| < RESULT_BUFFER
    case Apply => !s.stopped && s.results != []
    case Finish(k) => !s.stopped && k in s.sweeps && s.sweeps[k] == {} && s.dones < 1
    case Acknowledge => !s.stopped && s.dones > 0
    case System(c, _) => c in s.sockets
    case Write(c) => c in s.sockets && s.sockets[c].send != []
    case _ => !s.stopped
  }

  function Step(s: State, a: Action): State
    requires Enabled(s, a)
  {
    match a
    case Register(c, user, group) =>
      s.(clients := s.clients + {c}, sockets := s.sockets[c := Client(user, group, [], [], 0, |s.accepted|, 0)])
    case Unregister(c) => Removed(s, {c}, |s.accepted|)
    case Disconnect(user, group) => Removed(s, Matches(s, user, group), |s.accepted|)
    case Broadcast(m, saved, sender) =>
      if saved then Broadcasted(s, m)
      else if sender.Some? then Notified(s, sender.value, "message_not_saved")
      else s
    case Revalidate => Requested(s)
    case Report(k, c, valid) => s.(sweeps := s.sweeps[k := s.sweeps[k] - {c}], results := s.results + [Result(c, valid)])
    case Apply =>
      var t := s.(results := s.results[1..]);
      if s.results[0].valid then t else Removed(t, {s.results[0].client}, |s.accepted|)
    case Finish(k) => s.(sweeps := s.sweeps - {k}, dones := s.dones + 1)
    case Acknowledge => Acknowledged(s)
    case System(c, code) => Notified(s, c, code)
    case Write(c) => s.(sockets := s.sockets[c := s.sockets[c].(send := s.sockets[c].send[1..])])
    case Stop => Removed(s, s.clients, |s.accepted|).(stopped := true)
  }

  ghost predicate CanRun(s: State, actions: seq<Action>)
    decreases |actions|
  {
    actions == [] || (Enabled(s, actions[0]) && CanRun(Step(s, actions[0]), actions[1..]))
  }

  function Run(s: State, actions: seq<Action>): State
    requires CanRun(s, actions)
    decreases |actions|
  {
    if actions == [] then s else Run(Step(s, actions[0]), actions[1..])
  }

  // ---- What a client is owed ----

  function Posts(history: seq<Entry>): seq<Message> {
    if history == [] then []
    else
      var e := history[|history| - 1];
      Posts(history[..|history| - 1]) + if e.Post? then [e.message] else []
  }

  /** The messages of `group` among `accepted[since..until]`, in order. */
  function Owed(accepted: seq<Message>, since: nat, until: nat, group: string): seq<Message>
    requires until <= |accepted|
    decreases until
  {
    if until <= since then []
    else Owed(accepted, since, until - 1, group) + if accepted[until - 1].group == group then [accepted[until - 1]] else []
  }

  ghost predicate ClientInv(s: State, c: nat) {
    c in s.sockets ==>
      var k := s.sockets[c];
      && k.closed == (if c in s.clients then 0 else 1)
      && (c !in s.clients ==> k.until <= |s.accepted|)
      && Posts(k.history) == Owed(s.accepted, k.since, if c in s.clients then |s.accepted| else k.until, k.group)
      && |k.send| <= |k.history| && |k.send| <= SEND_BUFFER && k.send == k.history[|k.history| - |k.send|..]
      && (c in s.clients ==> k.since <= |s.accepted|)
  }

  ghost predicate SweepInv(s: State) {
    !s.stopped ==> |s.sweeps| + s.dones == (if s.running then 1 else 0) && (s.pending ==> s.running)
  }

  ghost predicate Inv(s: State) {
    && s.clients <= s.sockets.Keys
    && (forall c :: ClientInv(s, c))
    && StartedInv(s) && SweepInv(s)
  }

  lemma {:induction false} OwedExtend(accepted: seq<Message>, m: Message, since: nat, until: nat, group: string)
    requires until <= |accepted|
    ensures Owed(accepted + [m], since, until, group) == Owed(accepted, since, until, group)
    decreases until
  {
    if until > since {
      OwedExtend(accepted, m, since, until - 1, group);
    }
  }

  lemma PostsAppend(history: seq<Entry>, e: Entry)
    ensures Posts(history + [e]) == Posts(history) + if e.Post? then [e.message] else []
  {
    assert (history + [e])[..|history|] == history;
  }

  lemma QueuedKeepsTail(c: Client, e: Entry)
    requires |c.send| <= |c.history| && |c.send| <= SEND_BUFFER && c.send == c.history[|c.history| - |c.send|..]
    ensures var r := Queued(c, e); |r.send| <= |r.history| && |r.send| <= SEND_BUFFER && r.send == r.history[|r.history| - |r.send|..]
    ensures Posts(Queued(c, e).history) == Posts(c.history) + if e.Post? && |c.send| < SEND_BUFFER then [e.message] else []
  {
    PostsAppend(c.history, e);
  }

  lemma RemovedKeepsClient(s: State, gone: set<nat>, c: nat)
    requires ClientInv(s, c)
    ensures ClientInv(Removed(s, gone, |s.accepted|), c)
  {
  }

  /** What one broadcast does to one client. */
  lemma BroadcastAt(s: State, m: Message, c: nat)
    requires c in s.sockets
    ensures var t, k, recipient := Broadcasted(s, m), s.sockets[c], c in s.clients && s.sockets[c].group == m.group;
            && t.accepted == s.accepted + [m] && c in t.sockets
            && (c in t.clients <==> c in s.clients && !(recipient && |k.send| >= SEND_BUFFER))
            && t.sockets[c] == if !recipient then k
                               else if |k.send| < SEND_BUFFER then Queued(k, Post(m))
                               else k.(closed := k.closed + 1, until := |s.accepted|)
  {
  }

  lemma BroadcastKeepsClient(s: State, m: Message, c: nat)
    requires ClientInv(s, c)
    ensures ClientInv(Broadcasted(s, m), c)
  {
    hide Broadcasted, Queued, Posts;
    if c in s.sockets {
      var k := s.sockets[c];
      BroadcastAt(s, m, c);
      QueuedKeepsTail(k, Post(m));
      QueuedKeepsRest(k, Post(m));
      OwedExtend(s.accepted, m, k.since, if c in s.clients then |s.accepted| else k.until, k.group);
    } else {
      assert c !in Broadcasted(s, m).sockets by { BroadcastAdds(s, m); }
    }
  }

  lemma BroadcastAdds(s: State, m: Message)
    ensures Broadcasted(s, m).sockets.Keys == s.sockets.Keys
  {
  }

  lemma QueuedKeepsRest(c: Client, e: Entry)
    ensures Queued(c, e) == c.(send := Queued(c, e).send, history := Queued(c, e).history)
  {
  }

  lemma NotifiedKeepsClient(s: State, client: nat, code: string, c: nat)
    requires ClientInv(s, c)
    ensures ClientInv(Notified(s, client, code), c)
  {
    hide Queued, Posts, Owed;
    if c in s.sockets {
      QueuedKeepsTail(s.sockets[c], Notice(code));
      QueuedKeepsRest(s.sockets[c], Notice(code));
    }
  }

  lemma SameClient(s: State, t: State, c: nat)
    requires ClientInv(s, c) && t.clients == s.clients && t.sockets == s.sockets && t.accepted == s.accepted
    ensures ClientInv(t, c)
  {
  }

  lemma RegisterKeepsClient(s: State, a: Action, c: nat)
    requires Enabled(s, a) && a.Register? && ClientInv(s, c) && s.clients <= s.sockets.Keys
    ensures ClientInv(Step(s, a), c)
  {
  }

  lemma WrittenTail(send: seq<Entry>, history: seq<Entry>)
    requires 0 < |send| <= |history| && send == history[|history| - |send|..]
    ensures send[1..] == history[|history| - (|send| - 1)..]
  {
  }

  lemma WriteKeepsClient(s: State, w: nat, c: nat)
    requires Enabled(s, Write(w)) && ClientInv(s, c)
    ensures ClientInv(s.(sockets := s.sockets[w := s.sockets[w].(send := s.sockets[w].send[1..])]), c)
  {
    hide Posts, Owed;
    if c == w { WrittenTail(s.sockets[w].send, s.sockets[w].history); }
  }

  lemma StepKeepsClient(s: State, a: Action, c: nat)
    requires Enabled(s, a) && ClientInv(s, c) && s.clients <= s.sockets.Keys
    ensures ClientInv(Step(s, a), c)
  {
    hide ClientInv, Removed, Broadcasted, Notified;
    match a
    case Register(_, _, _) => RegisterKeepsClient(s, a, c);
    case Unregister(d) => RemovedKeepsClient(s, {d}, c);
    case Disconnect(user, group) => RemovedKeepsClient(s, Matches(s, user, group), c);
    case Broadcast(m, saved, sender) =>
      if saved { BroadcastKeepsClient(s, m, c); }
      else if sender.Some? { NotifiedKeepsClient(s, sender.value, "message_not_saved", c); }
    case Apply =>
      var t := s.(results := s.results[1..]);
      SameClient(s, t, c);
      RemovedKeepsClient(t, {s.results[0].client}, c);
    case System(d, code) => NotifiedKeepsClient(s, d, code, c);
    case Write(d) => WriteKeepsClient(s, d, c);
    case Stop =>
      RemovedKeepsClient(s, s.clients, c);
      SameClient(Removed(s, s.clients, |s.accepted|), Step(s, a), c);
    case _ => SameClient(s, Step(s, a), c);
  }

  lemma MapSizes<V>(m: map<nat, V>, k: nat, v: V)
    ensures |m[k := v]| == |m| + if k in m then 0 else 1
    ensures |m - {k}| == |m| - if k in m then 1 else 0
  {
    assert m[k := v].Keys == m.Keys + {k};
    assert (m - {k}).Keys == m.Keys - {k};
    assert |m[k := v].Keys| == |m[k := v]| && |m.Keys| == |m| && |(m - {k}).Keys| == |m - {k}|;
  }

  ghost predicate StartedInv(s: State) {
    forall k :: k in s.sweeps ==> k < s.started
  }

  lemma RequestedKeepsSweeps(s: State)
    requires SweepInv(s) && StartedInv(s)
    ensures SweepInv(Requested(s)) && StartedInv(Requested(s))
  {
    MapSizes(s.sweeps, s.started, s.clients);
  }

  lemma AcknowledgedKeepsSweeps(s: State)
    requires SweepInv(s) && StartedInv(s) && s.dones > 0 && !s.stopped
    ensures SweepInv(Acknowledged(s)) && StartedInv(Acknowledged(s))
  {
    var t := s.(dones := s.dones - 1, running := false);
    assert SweepInv(t.(pending := false)) && StartedInv(t.(pending := false));
    RequestedKeepsSweeps(t.(pending := false));
  }

  predicate Sweeps(a: Action) {
    a.Revalidate? || a.Acknowledge? || a.Report? || a.Finish?
  }

  /** All other steps leave the sweeps alone. */
  lemma OtherKeepsSweeps(s: State, a: Action)
    requires Enabled(s, a) && !Sweeps(a)
    ensures var t := Step(s, a);
            && t.sweeps == s.sweeps && t.started == s.started && t.dones == s.dones && t.running == s.running && t.pending == s.pending
            && (t.stopped == s.stopped || t.stopped)
  {
    hide Queued, Removed, Notified, Broadcasted, Matches;
  }

  lemma ReportKeepsSweeps(s: State, k: nat, c: nat, valid: bool)
    requires Enabled(s, Report(k, c, valid)) && SweepInv(s) && StartedInv(s)
    ensures var t := s.(sweeps := s.sweeps[k := s.sweeps[k] - {c}], results := s.results + [Result(c, valid)]); SweepInv(t) && StartedInv(t)
  {
    MapSizes(s.sweeps, k, s.sweeps[k] - {c});
  }

  lemma FinishKeepsSweeps(s: State, k: nat)
    requires Enabled(s, Finish(k)) && SweepInv(s) && StartedInv(s)
    ensures var t := s.(sweeps := s.sweeps - {k}, dones := s.dones + 1); SweepInv(t) && StartedInv(t)
  {
    MapSizes(s.sweeps, k, {});
  }

  lemma SweepStepsKeepSweeps(s: State, a: Action)
    requires Enabled(s, a) && Sweeps(a) && SweepInv(s) && StartedInv(s)
    ensures SweepInv(Step(s, a)) && StartedInv(Step(s, a))
  {
    hide Requested, Acknowledged, SweepInv, StartedInv;
    match a
    case Revalidate => RequestedKeepsSweeps(s);
    case Acknowledge => AcknowledgedKeepsSweeps(s);
    case Report(k, c, valid) => ReportKeepsSweeps(s, k, c, valid);
    case Finish(k) => FinishKeepsSweeps(s, k);
    case _ =>
  }

  lemma StepKeepsSweeps(s: State, a: Action)
    requires Enabled(s, a) && SweepInv(s) && StartedInv(s)
    ensures SweepInv(Step(s, a)) && StartedInv(Step(s, a))
  {
    hide Step;
    if Sweeps(a) { SweepStepsKeepSweeps(s, a); } else { OtherKeepsSweeps(s, a); }
  }

  lemma StepKeepsInv(s: State, a: Action)
    requires Enabled(s, a) && Inv(s)
    ensures Inv(Step(s, a))
  {
    hide ClientInv, SweepInv, StartedInv;
    StepKeepsSweeps(s, a);
    forall c ensures ClientInv(Step(s, a), c) { StepKeepsClient(s, a, c); }
  }

  lemma {:induction false} RunKeepsInv(s: State, actions: seq<Action>)
    requires CanRun(s, actions) && Inv(s)
    ensures Inv(Run(s, actions))
    decreases |actions|
  {
    if actions != [] {
      StepKeepsInv(s, actions[0]);
      RunKeepsInv(Step(s, actions[0]), actions[1..]);
    }
  }

  /** In every run, a registered client has been queued every accepted broadcast of its
      group since it registered, in order and without a gap, and its done channel is
      open. */
  lemma NoGapWhileRegistered(revalidates: bool, actions: seq<Action>, c: nat)
    requires CanRun(Init(revalidates), actions) && c in Run(Init(revalidates), actions).clients
    ensures var s := Run(Init(revalidates), actions);
            && c in s.sockets && s.sockets[c].closed == 0
            && Posts(s.sockets[c].history) == Owed(s.accepted, s.sockets[c].since, |s.accepted|, s.sockets[c].group)
  {
    RunKeepsInv(Init(revalidates), actions);
    assert ClientInv(Run(Init(revalidates), actions), c);
  }

  /** In every run, a client that has been removed had its done channel closed once, and
      was queued everything up to then. */
  lemma RemovedOnceWithoutGap(revalidates: bool, actions: seq<Action>, c: nat)
    requires CanRun(Init(revalidates), actions)
    requires var s := Run(Init(revalidates), actions); c in s.sockets && c !in s.clients
    ensures var s := Run(Init(revalidates), actions);
            && s.sockets[c].closed == 1 && s.sockets[c].until <= |s.accepted|
            && Posts(s.sockets[c].history) == Owed(s.accepted, s.sockets[c].since, s.sockets[c].until, s.sockets[c].group)
  {
    RunKeepsInv(Init(revalidates), actions);
    assert ClientInv(Run(Init(revalidates), actions), c);
  }

  /** At most one sweep is in flight, and a request made meanwhile is not lost: the sweep
      it waits for is still to be acknowledged. */
  lemma OneSweepAtATime(revalidates: bool, actions: seq<Action>)
    requires CanRun(Init(revalidates), actions) && !Run(Init(revalidates), actions).stopped
    ensures var s := Run(Init(revalidates), actions);
            |s.sweeps| + s.dones <= 1 && (s.pending ==> |s.sweeps| + s.dones == 1)
  {
    RunKeepsInv(Init(revalidates), actions);
  }

  /** The sweep that OneSweepAtATime promises a pending request, once its turn comes. */
  lemma PendingRequestIsServed(s: State)
    requires Inv(s) && Enabled(s, Acknowledge) && s.pending && s.revalidates && s.clients != {}
    ensures var t := Step(s, Acknowledge); t.sweeps == map[s.started := s.clients] && t.running && !t.pending
  {
    assert |s.sweeps| == 0;
    assert s.sweeps == map[];
  }

  /** A client is dropped by unregistering, a disconnect of its user, the result of a
      failed check, a broadcast of its group that finds its queue full, or Stop, always
      by these and by nothing else. */
  lemma WhyRemoved(s: State, a: Action, c: nat)
    requires Enabled(s, a) && Inv(s) && c in s.clients
    ensures c !in Step(s, a).clients <==>
            match a
            case Unregister(d) => d == c
            case Disconnect(user, group) => s.sockets[c].user == user && (group == "" || s.sockets[c].group == group)
            case Apply => s.results[0] == Result(c, false)
            case Broadcast(m, saved, _) => saved && s.sockets[c].group == m.group && |s.sockets[c].send| == SEND_BUFFER
            case Stop => true
            case _ => false
  {
    hide Posts, Owed, Queued;
    assert ClientInv(s, c);
  }

  // ---- The second index ----

  function Users(clients: set<nat>, sockets: map<nat, Client>): set<string> {
    set c | c in clients && c in sockets :: sockets[c].user
  }

  /** The clients grouped by user. */
  function ByUser(clients: set<nat>, sockets: map<nat, Client>): map<string, set<nat>> {
    map u | u in Users(clients, sockets) :: set c | c in clients && c in sockets && sockets[c].user == u
  }

  lemma ByUserIsPartition(clients: set<nat>, sockets: map<nat, Client>, c: nat)
    requires clients <= sockets.Keys
    ensures c in clients <==> c in sockets && sockets[c].user in ByUser(clients, sockets) && c in ByUser(clients, sockets)[sockets[c].user]
    ensures forall u :: u in ByUser(clients, sockets) ==> ByUser(clients, sockets)[u] != {}
    ensures forall u :: u in ByUser(clients, sockets) && c in ByUser(clients, sockets)[u] ==> c in clients && sockets[c].user == u
  {
    var index := ByUser(clients, sockets);
    forall u | u in index ensures index[u] != {} {
      var d :| d in clients && d in sockets && sockets[d].user == u;
      assert d in index[u];
    }
  }

  // ---- One client at a time ----

  lemma RemovedNone(s: State, until: nat)
    ensures Removed(s, {}, until) == s
  {
    assert Removed(s, {}, until).sockets == s.sockets;
  }

  lemma RemovedOneMore(s: State, gone: set<nat>, c: nat, until: nat)
    requires c !in gone
    ensures Removed(Removed(s, gone, until), {c}, until) == Removed(s, gone + {c}, until)
  {
    assert Removed(Removed(s, gone, until), {c}, until).sockets == Removed(s, gone + {c}, until).sockets;
    assert s.clients - gone - {c} == s.clients - (gone + {c});
  }

  /** A broadcast that has visited the clients `seen`. */
  function BroadcastedTo(s: State, m: Message, seen: set<nat>): State {
    var sent := map c | c in s.sockets :: if c in seen && c in Recipients(s, m.group) then Queued(s.sockets[c], Post(m)) else s.sockets[c];
    Removed(s.(sockets := sent), Slow(s, m.group) * seen, |s.accepted|)
  }

  lemma BroadcastedToNone(s: State, m: Message)
    ensures BroadcastedTo(s, m, {}) == s
  {
    assert BroadcastedTo(s, m, {}).sockets == s.sockets;
  }

  lemma BroadcastedToAll(s: State, m: Message)
    ensures BroadcastedTo(s, m, s.clients).(accepted := s.accepted + [m]) == Broadcasted(s, m)
  {
    assert BroadcastedTo(s, m, s.clients).sockets == Broadcasted(s, m).sockets;
    assert Slow(s, m.group) * s.clients == Slow(s, m.group);
  }

  predicate Receives(s: State, m: Message, c: nat) {
    c in s.clients && c in s.sockets && s.sockets[c].group == m.group
  }

  lemma BroadcastedToAt(s: State, m: Message, seen: set<nat>, c: nat)
    ensures var t := BroadcastedTo(s, m, seen);
            && (c in t.clients <==> c in s.clients && !(c in seen && Receives(s, m, c) && |s.sockets[c].send| >= SEND_BUFFER))
            && (c in t.sockets <==> c in s.sockets)
            && (c in s.sockets ==>
                  var k := s.sockets[c];
                  t.sockets[c] == if !(c in seen && Receives(s, m, c)) then k
                                  else if |k.send| < SEND_BUFFER then Queued(k, Post(m))
                                  else k.(closed := k.closed + 1, until := |s.accepted|))
  {
  }

  lemma BroadcastedToRest(s: State, m: Message, seen: set<nat>)
    ensures var t := BroadcastedTo(s, m, seen); t == s.(clients := t.clients, sockets := t.sockets)
  {
  }

  /** What visiting `c` does. */
  function Visited(t: State, m: Message, c: nat): State
    requires c in t.sockets
  {
    var k := t.sockets[c];
    if k.group != m.group then t
    else if |k.send| < SEND_BUFFER then t.(sockets := t.sockets[c := Queued(k, Post(m))])
    else Removed(t, {c}, |t.accepted|)
  }

  lemma VisitedAt(t: State, m: Message, c: nat, d: nat)
    requires c in t.sockets && c in t.clients
    ensures var u, k := Visited(t, m, c), t.sockets[c];
            && (d in u.clients <==> d in t.clients && !(d == c && k.group == m.group && |k.send| >= SEND_BUFFER))
            && (d in u.sockets <==> d in t.sockets)
            && (d in t.sockets ==>
                  u.sockets[d] == if d != c || k.group != m.group then t.sockets[d]
                                  else if |k.send| < SEND_BUFFER then Queued(k, Post(m))
                                  else k.(closed := k.closed + 1, until := |t.accepted|))
  {
  }

  lemma VisitedRest(t: State, m: Message, c: nat)
    requires c in t.sockets
    ensures var u := Visited(t, m, c); u == t.(clients := u.clients, sockets := u.sockets)
  {
  }

  lemma BroadcastedToOneMore(s: State, m: Message, seen: set<nat>, c: nat)
    requires c in s.clients && c in s.sockets && c !in seen
    ensures var t := BroadcastedTo(s, m, seen);
            && c in t.clients && c in t.sockets && t.accepted == s.accepted && t.sockets[c] == s.sockets[c]
            && BroadcastedTo(s, m, seen + {c}) == Visited(t, m, c)
  {
    hide BroadcastedTo, Visited, Queued;
    var t, u := BroadcastedTo(s, m, seen), BroadcastedTo(s, m, seen + {c});
    BroadcastedToAt(s, m, seen, c);
    BroadcastedToRest(s, m, seen);
    BroadcastedToRest(s, m, seen + {c});
    VisitedRest(t, m, c);
    forall d ensures (d in u.clients <==> d in Visited(t, m, c).clients) && (d in u.sockets <==> d in Visited(t, m, c).sockets) {
      BroadcastedToAt(s, m, seen, d);
      BroadcastedToAt(s, m, seen + {c}, d);
      VisitedAt(t, m, c, d);
    }
    forall d | d in u.sockets ensures u.sockets[d] == Visited(t, m, c).sockets[d] {
      BroadcastedToAt(s, m, seen, d);
      BroadcastedToAt(s, m, seen + {c}, d);
      VisitedAt(t, m, c, d);
    }
    assert u.clients == Visited(t, m, c).clients;
    assert u.sockets == Visited(t, m, c).sockets;
  }

  /** The client index after one of its user's clients goes. */
  lemma ByUserWithout(clients: set<nat>, before: map<string, set<nat>>, sockets: map<nat, Client>, sockets': map<nat, Client>, c: nat)
    requires clients <= sockets.Keys && c in clients && before == ByUser(clients, sockets) && sockets'.Keys == sockets.Keys
    requires forall d :: d in sockets ==> sockets'[d].user == sockets[d].user
    ensures var u := sockets[c].user;
            && u in before
            && ByUser(clients - {c}, sockets') == if before[u] - {c} == {} then before - {u} else before[u := before[u] - {c}]
  {
    var u, after := sockets[c].user, ByUser(clients - {c}, sockets');
    forall v ensures (v in after <==> v in before && before[v] - {c} != {}) && (v in after ==> after[v] == before[v] - {c}) {
      if v in before && before[v] - {c} != {} {
        var d :| d in before[v] - {c};
        assert d in clients - {c} && sockets'[d].user == v;
      }
      if v in after {
        var d :| d in clients - {c} && sockets'[d].user == v;
        assert d in clients && sockets[d].user == v;
      }
    }
    forall v | v in before && v != u ensures before[v] - {c} == before[v] && before[v] != {} {
      var d :| d in clients && sockets[d].user == v;
      assert d in before[v];
    }
  }

  lemma ByUserWith(clients: set<nat>, before: map<string, set<nat>>, sockets: map<nat, Client>, c: nat, k: Client)
    requires clients <= sockets.Keys && c !in sockets && before == ByUser(clients, sockets)
    ensures ByUser(clients + {c}, sockets[c := k]) == before[k.user := (if k.user in before then before[k.user] else {}) + {c}]
  {
    var after := ByUser(clients + {c}, sockets[c := k]);
    forall v ensures v in after <==> v in before || v == k.user {
      if v in before {
        var d :| d in clients && sockets[d].user == v;
        assert d in clients + {c} && sockets[c := k][d].user == v;
      }
      if v == k.user { assert c in clients + {c} && sockets[c := k][c].user == v; }
      if v in after {
        var d :| d in clients + {c} && sockets[c := k][d].user == v;
        assert d == c || d in clients;
      }
    }
    forall v | v in after ensures after[v] == if v == k.user then (if v in before then before[v] else {}) + {c} else before[v] {
      if v !in before { assert v !in Users(clients, sockets); }
    }
  }

  lemma ByUserSame(clients: set<nat>, sockets: map<nat, Client>, sockets': map<nat, Client>)
    requires sockets'.Keys == sockets.Keys && forall d :: d in sockets ==> sockets'[d].user == sockets[d].user
    ensures ByUser(clients, sockets') == ByUser(clients, sockets)
  {
    assert Users(clients, sockets') == Users(clients, sockets);
    forall u | u in Users(clients, sockets) ensures ByUser(clients, sockets')[u] == ByUser(clients, sockets)[u] {}
  }

  // ---- The hub ----

  class ChatHub {
    var clients: set<nat>
    var clientsByUser: map<string, set<nat>>
    var sockets: map<nat, Client>
    var revalidationRunning: bool
    var revalidationPending: bool
    var sweeps: map<nat, set<nat>>
    var started: nat
    var results: seq<Result>
    var dones: nat
    var stopped: bool
    const revalidates: bool
    /** Kept for the specification. */
    var accepted: seq<Message>

    ghost function View(): State
      reads this
    {
      State(clients, sockets, accepted, revalidationRunning, revalidationPending, sweeps, started, results, dones, revalidates, stopped)
    }

    /** Until Stop, `clientsByUser` is the partition of `clients` by user. */
    ghost predicate Valid()
      reads this
    {
      clients <= sockets.Keys && (!stopped ==> clientsByUser == ByUser(clients, sockets))
    }

    constructor (revalidates: bool)
      ensures Valid() && View() == Init(revalidates)
    {
      clients, clientsByUser, sockets := {}, map[], map[];
      revalidationRunning, revalidationPending := false, false;
      sweeps, started, results, dones, stopped := map[], 0, [], 0, false;
      accepted := [];
      this.revalidates := revalidates;
    }

    method RegisterClient(c: nat, user: string, group: string)
      requires Valid() && Enabled(View(), Register(c, user, group))
      modifies this
      ensures Valid() && View() == Step(old(View()), Register(c, user, group))
    {
      hide ByUser;
      var k := Client(user, group, [], [], 0, |accepted|, 0);
      ByUserWith(clients, clientsByUser, sockets, c, k);
      clients, sockets := clients + {c}, sockets[c := k];
      if user !in clientsByUser { clientsByUser := clientsByUser[user := {}]; }
      clientsByUser := clientsByUser[user := clientsByUser[user] + {c}];
    }

    /** Double removal is a no-op. */
    method Remove(c: nat)
      requires Valid() && !stopped
      modifies this`clients, this`clientsByUser, this`sockets
      ensures Valid() && View() == Removed(old(View()), {c}, |accepted|)
    {
      hide ByUser;
      RemovedSame(View(), c, |accepted|);
      if c in clients {
        var k := sockets[c];
        ByUserWithout(clients, clientsByUser, sockets, Removed(View(), {c}, |accepted|).sockets, c);
        clients := clients - {c};
        if k.user in clientsByUser {
          var users := clientsByUser[k.user] - {c};
          clientsByUser := if users == {} then clientsByUser - {k.user} else clientsByUser[k.user := users];
        }
        sockets := sockets[c := k.(closed := k.closed + 1, until := |accepted|)];
      }
    }

    /** Finds the matching clients through the user index. */
    method DisconnectSockets(user: string, group: string)
      requires Valid() && !stopped
      modifies this`clients, this`clientsByUser, this`sockets
      ensures Valid() && View() == Step(old(View()), Disconnect(user, group))
    {
      hide Removed, ByUser, Matches;
      ghost var before := View();
      MatchesByUser(before, user, group);
      var all := if user in clientsByUser then clientsByUser[user] else {};
      var pending := all;
      ghost var gone: set<nat> := {};
      RemovedNone(before, |accepted|);
      while pending != {}
        invariant pending <= all && gone == (all - pending) * Matches(before, user, group)
        invariant Valid() && View() == Removed(before, gone, |accepted|)
        decreases |pending|
      {
        var c :| c in pending;
        SameIdentity(before, gone, |accepted|, c);
        if group == "" || sockets[c].group == group {
          RemovedOneMore(before, gone, c, |accepted|);
          Remove(c);
          gone := gone + {c};
        }
        OneSeen(all, pending, Matches(before, user, group), c);
        pending := pending - {c};
      }
      assert gone == Matches(before, user, group);
    }

    method Send(c: nat, e: Entry) returns (sent: bool)
      requires Valid() && c in sockets
      modifies this`sockets
      ensures sent == (old(|sockets[c].send|) < SEND_BUFFER)
      ensures Valid() && View() == old(View()).(sockets := old(sockets)[c := Queued(old(sockets)[c], e)])
    {
      var k := sockets[c];
      if |k.send| >= SEND_BUFFER {
        assert sockets == sockets[c := k];
        return false;
      }
      ByUserSame(clients, sockets, sockets[c := Queued(k, e)]);
      sockets := sockets[c := k.(send := k.send + [e], history := k.history + [e])];
      return true;
    }

    method DeliverTo(c: nat, m: Message)
      requires Valid() && !stopped && c in sockets
      modifies this`clients, this`clientsByUser, this`sockets
      ensures Valid() && View() == Visited(old(View()), m, c)
    {
      hide ByUser, Removed, Queued;
      if sockets[c].group == m.group {
        FullIsSame(View(), c, m);
        var sent := Send(c, Post(m));
        if !sent { Remove(c); }
      }
    }

    /** Hands an accepted message to every client of its group, and drops those that do
        not keep up. */
    method Deliver(m: Message)
      requires Valid() && !stopped
      modifies this`clients, this`clientsByUser, this`sockets, this`accepted
      ensures Valid() && View() == Broadcasted(old(View()), m)
    {
      hide ByUser, Removed, Queued, BroadcastedTo, Broadcasted, Visited;
      ghost var before := View();
      var pending := clients;
      NoneSeen(clients);
      BroadcastedToNone(before, m);
      while pending != {}
        invariant pending <= before.clients
        invariant Valid() && View() == BroadcastedTo(before, m, before.clients - pending)
        decreases |pending|
      {
        var c :| c in pending;
        OneMoreSeen(before.clients, pending, c);
        BroadcastedToOneMore(before, m, before.clients - pending, c);
        DeliverTo(c, m);
        pending := pending - {c};
      }
      assert before.clients - pending == before.clients;
      BroadcastedToAll(before, m);
      BroadcastedToRest(before, m, before.clients);
      accepted := accepted + [m];
    }

    /** A broadcast event; `saved` is what the persistence call returns, if there is one. */
    method HandleBroadcast(m: Message, alreadyPersisted: bool, saved: bool, sender: Option<nat>)
      requires Valid() && !stopped && (sender.Some? ==> sender.value in sockets)
      modifies this
      ensures Valid() && View() == Step(old(View()), Broadcast(m, alreadyPersisted || saved, sender))
    {
      if !alreadyPersisted && !saved {
        if sender.Some? { var _ := Send(sender.value, Notice("message_not_saved")); }
        return;
      }
      Deliver(m);
    }

    method StartRevalidation() returns (begun: bool)
      requires Valid()
      modifies this`sweeps, this`started
      ensures begun == (revalidates && clients != {})
      ensures sweeps == if begun then old(sweeps)[old(started) := clients] else old(sweeps)
      ensures started == if begun then old(started) + 1 else old(started)
    {
      if !revalidates || |clients| == 0 { return false; }
      sweeps, started := sweeps[started := clients], started + 1;
      return true;
    }

    method RequestRevalidation()
      requires Valid() && !stopped
      modifies this`revalidationRunning, this`revalidationPending, this`sweeps, this`started
      ensures Valid() && View() == Step(old(View()), Revalidate)
    {
      if revalidationRunning {
        revalidationPending := true;
        return;
      }
      revalidationRunning := StartRevalidation();
    }

    method HandleResult()
      requires Valid() && Enabled(View(), Apply)
      modifies this
      ensures Valid() && View() == Step(old(View()), Apply)
    {
      var result := results[0];
      results := results[1..];
      if !result.valid { Remove(result.client); }
    }

    method HandleDone()
      requires Valid() && Enabled(View(), Acknowledge)
      modifies this
      ensures Valid() && View() == Step(old(View()), Acknowledge)
    {
      dones := dones - 1;
      revalidationRunning := false;
      if revalidationPending {
        revalidationPending := false;
        RequestRevalidation();
      }
    }

    method CloseForStop(c: nat)
      requires Valid() && stopped && c in clients
      modifies this`clients, this`sockets
      ensures Valid() && View() == Removed(old(View()), {c}, |accepted|)
      ensures clients == old(clients) - {c}
    {
      RemovedSame(View(), c, |accepted|);
      sockets := sockets[c := sockets[c].(closed := sockets[c].closed + 1, until := |accepted|)];
      clients := clients - {c};
    }

    method StopHub()
      requires Valid() && !stopped
      modifies this`clients, this`sockets, this`stopped
      ensures Valid() && View() == Step(old(View()), Stop)
    {
      hide ByUser, Removed;
      StoppedFirst(View());
      stopped := true;
      ghost var before := View();
      NoneSeen(clients);
      RemovedNone(before, |accepted|);
      while clients != {}
        invariant clients <= before.clients && Valid() && stopped
        invariant View() == Removed(before, before.clients - clients, |accepted|)
        decreases |clients|
      {
        var c :| c in clients;
        OneMoreSeen(before.clients, clients, c);
        RemovedOneMore(before, before.clients - clients, c, |accepted|);
        CloseForStop(c);
      }
      assert before.clients - clients == before.clients;
    }
  }

  lemma StoppedFirst(s: State)
    ensures Removed(s.(stopped := true), s.clients, |s.accepted|) == Removed(s, s.clients, |s.accepted|).(stopped := true)
  {
  }

  lemma RemovedSame(s: State, c: nat, until: nat)
    requires s.clients <= s.sockets.Keys
    ensures c !in s.clients ==> Removed(s, {c}, until) == s
    ensures c in s.clients ==> Removed(s, {c}, until) == s.(clients := s.clients - {c}, sockets := s.sockets[c := s.sockets[c].(closed := s.sockets[c].closed + 1, until := until)])
  {
    if c in s.clients {
      assert Removed(s, {c}, until).sockets == s.sockets[c := s.sockets[c].(closed := s.sockets[c].closed + 1, until := until)];
    } else {
      assert Removed(s, {c}, until).sockets == s.sockets;
    }
  }

  lemma MatchesByUser(s: State, user: string, group: string)
    requires s.clients <= s.sockets.Keys
    ensures var index := ByUser(s.clients, s.sockets);
            && Matches(s, user, group) <= (if user in index then index[user] else {})
            && (user in index ==> forall c :: c in index[user] ==> c in s.sockets && (c in Matches(s, user, group) <==> group == "" || s.sockets[c].group == group))
  {
  }

  lemma NoneSeen(all: set<nat>)
    ensures all - all == {}
  {
  }

  lemma OneMoreSeen(all: set<nat>, pending: set<nat>, c: nat)
    requires c in pending && pending <= all
    ensures all - (pending - {c}) == (all - pending) + {c} && c !in all - pending
  {
  }

  lemma OneSeen(all: set<nat>, pending: set<nat>, matches: set<nat>, c: nat)
    requires c in pending && pending <= all
    ensures (all - (pending - {c})) * matches == (all - pending) * matches + if c in matches then {c} else {}
  {
  }

  lemma SameIdentity(s: State, gone: set<nat>, until: nat, c: nat)
    requires c in s.sockets
    ensures c in Removed(s, gone, until).sockets && Removed(s, gone, until).sockets[c].group == s.sockets[c].group
  {
  }

  lemma FullIsSame(s: State, c: nat, m: Message)
    requires c in s.sockets
    ensures |s.sockets[c].send| >= SEND_BUFFER ==> s.(sockets := s.sockets[c := Queued(s.sockets[c], Post(m))]) == s
  {
  }
}
