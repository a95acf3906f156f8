/** frontend/src/chat/chatStream.ts: the reducer that owns one chat session's log,
    its startup cache hints and its paging flags. */
module ChatStream {
  import opened Ordering
  import opened MessageLog

  const PAGE_SIZE := 50

  datatype ConnectionStatus = Connecting | Connected | Offline

  datatype State = State(
    identity: string,
    viewerId: Viewer,
    messages: seq<Message>,
    unconfirmedCachedIds: set<string>,
    connectionStatus: ConnectionStatus,
    error: string,
    loadingOlder: bool,
    hasMoreOlder: bool)

  datatype Action =
    | Reset(identity: string, viewerId: Viewer, cached: seq<Message>)
    | Status(identity: string, status: ConnectionStatus)
    | Error(identity: string, message: string)
    | MergeIncoming(identity: string, incoming: seq<Message>)
    | FirstPage(identity: string, items: seq<Message>)
    | ChallengeStatus(identity: string, photoId: string, challengeStatus: string)
    | LoadOlderStart(identity: string)
    | LoadOlderDone(identity: string, items: seq<Message>)
    | LoadOlderError(identity: string, message: string)

  function Ids(messages: seq<Message>): set<string> {
    set m | m in messages :: m.id
  }

  function Initial(identity: string, viewerId: Viewer, cached: seq<Message>): State {
    State(identity, viewerId, cached, Ids(cached), Connecting, "", false, false)
  }

  function Keep(messages: seq<Message>, dropped: set<string>): seq<Message> {
    if messages == [] then []
    else if messages[0].id in dropped then Keep(messages[1..], dropped)
    else [messages[0]] + Keep(messages[1..], dropped)
  }

  function WithStatus(m: Message, photoId: string, status: string): Message {
    if m.kind == Some("challenge") && m.photoId == Some(photoId) then m.(challengeStatus := Some(status)) else m
  }

  function Reduce(s: State, a: Action): State {
    if a.Reset? then
      if a.identity == s.identity then s else Initial(a.identity, a.viewerId, a.cached)
    else if a.identity != s.identity then s
    else match a
      case Status(_, status) => s.(connectionStatus := status)
      case Error(_, message) => s.(error := message)
      case MergeIncoming(_, incoming) =>
        s.(messages := Merge(s.messages, incoming, s.viewerId),
           unconfirmedCachedIds := s.unconfirmedCachedIds - Ids(incoming))
      case FirstPage(_, items) =>
        var live := Keep(s.messages, s.unconfirmedCachedIds);
        s.(messages := if items != [] then PruneBeforeAnchor(live, Some(items[0])) else live,
           unconfirmedCachedIds := {},
           hasMoreOlder := |items| >= PAGE_SIZE)
      case ChallengeStatus(_, photoId, status) =>
        s.(messages := seq(|s.messages|, i requires 0 <= i < |s.messages| => WithStatus(s.messages[i], photoId, status)))
      case LoadOlderStart(_) => s.(loadingOlder := true)
      case LoadOlderDone(_, items) =>
        s.(messages := Merge(s.messages, items, s.viewerId), hasMoreOlder := |items| >= PAGE_SIZE, loadingOlder := false)
      case LoadOlderError(_, message) => s.(error := message, loadingOlder := false)
      case Reset(_, _, _) => s
  }

  function Run(s: State, actions: seq<Action>): State
    decreases |actions|
  {
    if actions == [] then s else Run(Reduce(s, actions[0]), actions[1..])
  }

  // ---- Superseded sessions ----

  predicate Stale(s: State, a: Action) {
    !a.Reset? && a.identity != s.identity
  }

  /** The actions that belong to the session that is active when they arrive. */
  function Current(s: State, actions: seq<Action>): seq<Action>
    decreases |actions|
  {
    if actions == [] then []
    else if Stale(s, actions[0]) then Current(s, actions[1..])
    else [actions[0]] + Current(Reduce(s, actions[0]), actions[1..])
  }

  /** Deleting every action of a superseded session from a history changes nothing. */
  lemma {:induction false} StaleActionsChangeNothing(s: State, actions: seq<Action>)
    ensures Run(s, actions) == Run(s, Current(s, actions))
    decreases |actions|
  {
    if actions != [] {
      if Stale(s, actions[0]) {
        StaleActionsChangeNothing(s, actions[1..]);
      } else {
        StaleActionsChangeNothing(Reduce(s, actions[0]), actions[1..]);
        assert Current(s, actions)[1..] == Current(Reduce(s, actions[0]), actions[1..]);
      }
    }
  }

  // ---- Where the messages of a session come from ----

  /** What the current session has received: the ids of every server list it merged,
      those merged since its last first page, and whether a first page was applied. */
  datatype Received = Received(all: set<string>, sinceFirstPage: set<string>, firstPage: bool)

  const NOTHING := Received({}, {}, false)

  function Receive(s: State, r: Received, a: Action): Received {
    if a.Reset? then if a.identity == s.identity then r else NOTHING
    else if a.identity != s.identity then r
    else match a
      case MergeIncoming(_, incoming) => r.(all := r.all + Ids(incoming), sinceFirstPage := r.sinceFirstPage + Ids(incoming))
      case LoadOlderDone(_, items) => r.(all := r.all + Ids(items), sinceFirstPage := r.sinceFirstPage + Ids(items))
      case FirstPage(_, _) => r.(sinceFirstPage := {}, firstPage := true)
      case _ => r
  }

  function ReceivedAfter(s: State, r: Received, actions: seq<Action>): Received
    decreases |actions|
  {
    if actions == [] then r else ReceivedAfter(Reduce(s, actions[0]), Receive(s, r, actions[0]), actions[1..])
  }

  /** Every entry was delivered in this session or is an unconfirmed cache hint, no
      hint outlives the first page, and nothing delivered after it is missing. */
  ghost predicate Inv(s: State, r: Received) {
    && Ids(s.messages) <= r.all + s.unconfirmedCachedIds
    && (r.firstPage ==> s.unconfirmedCachedIds == {})
    && r.sinceFirstPage - {""} <= Ids(s.messages)
  }

  lemma MergedIds(s: State, incoming: seq<Message>)
    ensures Ids(Merge(s.messages, incoming, s.viewerId)) <= Ids(s.messages) + Ids(incoming)
    ensures Ids(s.messages) + Ids(incoming) - {""} <= Ids(Merge(s.messages, incoming, s.viewerId))
  {
    var merged := Merge(s.messages, incoming, s.viewerId);
    if incoming != [] {
      MergeWellFormed(s.messages, incoming, s.viewerId);
    }
    forall k | k != "" ensures k in Ids(merged) <==> k in Ids(s.messages) + Ids(incoming) {
      MergeIds(s.messages, incoming, s.viewerId, k);
    }
  }

  lemma {:induction false} KeepMembers(messages: seq<Message>, dropped: set<string>)
    ensures forall m :: m in Keep(messages, dropped) <==> m in messages && m.id !in dropped
  {
    if messages != [] {
      KeepMembers(messages[1..], dropped);
      assert messages == [messages[0]] + messages[1..];
    }
  }

  lemma {:induction false} PruneMembers(messages: seq<Message>, anchor: Message)
    ensures forall m :: m in PruneBeforeAnchor(messages, Some(anchor)) <==> m in messages && Compare(m, anchor) >= 0
  {
    if messages != [] {
      PruneMembers(messages[1..], anchor);
      assert messages == [messages[0]] + messages[1..];
    }
  }

  lemma StatusKeepsIds(s: State, photoId: string, status: string)
    ensures Ids(Reduce(s, ChallengeStatus(s.identity, photoId, status)).messages) == Ids(s.messages)
  {
    var after := Reduce(s, ChallengeStatus(s.identity, photoId, status)).messages;
    assert |after| == |s.messages|;
    assert forall i :: 0 <= i < |after| ==> after[i].id == s.messages[i].id;
    forall k ensures k in Ids(after) <==> k in Ids(s.messages) {
      if k in Ids(s.messages) {
        var i :| 0 <= i < |s.messages| && s.messages[i].id == k;
        assert after[i] in after;
      }
      if k in Ids(after) {
        var i :| 0 <= i < |after| && after[i].id == k;
        assert s.messages[i] in s.messages;
      }
    }
  }

  lemma FirstPageDropsHints(s: State, items: seq<Message>)
    ensures Ids(Reduce(s, FirstPage(s.identity, items)).messages) <= Ids(s.messages) - s.unconfirmedCachedIds
  {
    var live := Keep(s.messages, s.unconfirmedCachedIds);
    KeepMembers(s.messages, s.unconfirmedCachedIds);
    if items != [] {
      PruneMembers(live, items[0]);
    }
  }

  lemma ReduceKeepsInv(s: State, r: Received, a: Action)
    requires Inv(s, r)
    ensures Inv(Reduce(s, a), Receive(s, r, a))
  {
    if a.identity == s.identity {
      match a
      case MergeIncoming(_, incoming) => MergedIds(s, incoming);
      case LoadOlderDone(_, items) => MergedIds(s, items);
      case FirstPage(_, items) => FirstPageDropsHints(s, items);
      case ChallengeStatus(_, photoId, status) => StatusKeepsIds(s, photoId, status);
      case _ =>
    }
  }

  lemma {:induction false} RunKeepsInv(s: State, r: Received, actions: seq<Action>)
    requires Inv(s, r)
    ensures Inv(Run(s, actions), ReceivedAfter(s, r, actions))
    decreases |actions|
  {
    if actions != [] {
      ReduceKeepsInv(s, r, actions[0]);
      RunKeepsInv(Reduce(s, actions[0]), Receive(s, r, actions[0]), actions[1..]);
    }
  }

  /** After any history in which the session has applied a first page, the log holds
      only ids the server delivered in this session, and all it delivered since. */
  lemma OnlyDeliveredMessagesSurvive(identity: string, viewerId: Viewer, cached: seq<Message>, actions: seq<Action>)
    ensures var s := Run(Initial(identity, viewerId, cached), actions);
            var r := ReceivedAfter(Initial(identity, viewerId, cached), NOTHING, actions);
            r.firstPage ==> Ids(s.messages) <= r.all && r.sinceFirstPage - {""} <= Ids(s.messages)
  {
    RunKeepsInv(Initial(identity, viewerId, cached), NOTHING, actions);
  }

  // ---- The log stays sorted ----

  lemma WellFormedTail(messages: seq<Message>)
    requires messages != [] && WellFormed(messages)
    ensures WellFormed(messages[1..]) && messages[0].id != ""
    ensures forall m :: m in messages[1..] ==> m in messages && Compare(messages[0], m) < 0 && messages[0].id != m.id
  {
  }

  lemma EmptyWellFormed()
    ensures WellFormed([])
  {
  }

  lemma WellFormedCons(first: Message, rest: seq<Message>)
    requires WellFormed(rest) && first.id != "" && forall m :: m in rest ==> Compare(first, m) < 0 && first.id != m.id
    ensures WellFormed([first] + rest)
  {
  }

  lemma {:induction false} KeepWellFormed(messages: seq<Message>, dropped: set<string>)
    requires WellFormed(messages)
    ensures WellFormed(Keep(messages, dropped))
  {
    hide WellFormed, Compare;
    if messages == [] {
      EmptyWellFormed();
    } else {
      var tail := messages[1..];
      WellFormedTail(messages);
      KeepWellFormed(tail, dropped);
      KeepMembers(tail, dropped);
      WellFormedCons(messages[0], Keep(tail, dropped));
    }
  }

  lemma {:induction false} PruneWellFormed(messages: seq<Message>, anchor: Message)
    requires WellFormed(messages)
    ensures WellFormed(PruneBeforeAnchor(messages, Some(anchor)))
  {
    hide WellFormed, Compare;
    if messages == [] {
      EmptyWellFormed();
    } else {
      var tail := messages[1..];
      WellFormedTail(messages);
      PruneWellFormed(tail, anchor);
      PruneMembers(tail, anchor);
      WellFormedCons(messages[0], PruneBeforeAnchor(tail, Some(anchor)));
    }
  }

  ghost predicate CachesWellFormed(actions: seq<Action>) {
    forall a :: a in actions && a.Reset? ==> WellFormed(a.cached)
  }

  lemma ReduceKeepsSorted(s: State, a: Action)
    requires WellFormed(s.messages) && (a.Reset? ==> WellFormed(a.cached))
    ensures WellFormed(Reduce(s, a).messages)
  {
    if a.identity == s.identity {
      match a
      case MergeIncoming(_, incoming) => MergeWellFormed(s.messages, incoming, s.viewerId);
      case LoadOlderDone(_, items) => MergeWellFormed(s.messages, items, s.viewerId);
      case FirstPage(_, items) =>
        KeepWellFormed(s.messages, s.unconfirmedCachedIds);
        if items != [] {
          PruneWellFormed(Keep(s.messages, s.unconfirmedCachedIds), items[0]);
        }
      case ChallengeStatus(_, photoId, status) =>
        var after := Reduce(s, a).messages;
        forall i | 0 <= i < |after| ensures after[i].id == s.messages[i].id && after[i].createdAt == s.messages[i].createdAt {}
        StatusKeepsIds(s, photoId, status);
      case _ =>
    }
  }

  /** Starting from sorted caches, every state of every history shows a strictly
      sorted log with one entry per id. */
  lemma {:induction false} LogStaysWellFormed(s: State, actions: seq<Action>)
    requires WellFormed(s.messages) && CachesWellFormed(actions)
    ensures WellFormed(Run(s, actions).messages)
    decreases |actions|
  {
    if actions != [] {
      assert actions[0] in actions;
      ReduceKeepsSorted(s, actions[0]);
      var tail := actions[1..];
      assert forall b :: b in tail ==> b in actions;
      LogStaysWellFormed(Reduce(s, actions[0]), tail);
    }
  }
}
