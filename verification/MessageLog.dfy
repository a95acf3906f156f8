/** frontend/src/chat/messageLog.ts: the chat log that live events, catch-up pages
    and older pages are merged into by message id. */
module MessageLog {
  import opened Ordering

  datatype Reaction = Reaction(name: string, count: int, usernames: seq<string>, reacted: bool)

  /** A reactions field: absent, null, or a list. */
  datatype Reactions = Undefined | Null | List(items: seq<Reaction>)

  datatype ReactionUpdate = ReactionUpdate(userId: string, reaction: string, active: bool)

  /** A wire message. `createdAt` is the instant its ISO timestamp names; `rest` holds
      the own properties that no rule mentions, keyed by property name. */
  datatype Message = Message(
    id: string,
    createdAt: int,
    kind: Option<string>,
    photoId: Option<string>,
    challengeStatus: Option<string>,
    challengeResolved: bool,
    reactions: Reactions,
    reactionUpdate: Option<ReactionUpdate>,
    rest: map<string, string>)

  type Viewer = Option<string>

  function Compare(a: Message, b: Message): int {
    if a.createdAt != b.createdAt then a.createdAt - b.createdAt
    else if LexLess(a.id, b.id) then -1
    else if LexLess(b.id, a.id) then 1
    else 0
  }

  predicate NotAfter(a: Message, b: Message) {
    Compare(a, b) <= 0
  }

  lemma CompareIsTotalOrder()
    ensures TotalOrder(NotAfter)
    ensures forall a: Message, b: Message :: Compare(a, b) == 0 <==> a.createdAt == b.createdAt && a.id == b.id
    ensures forall a: Message, b: Message :: NotAfter(a, b) && NotAfter(b, a) <==> Compare(a, b) == 0
  {
    forall a: Message, b: Message
      ensures Compare(a, b) == 0 <==> a.createdAt == b.createdAt && a.id == b.id
      ensures NotAfter(a, b) || NotAfter(b, a)
      ensures NotAfter(a, b) && NotAfter(b, a) <==> Compare(a, b) == 0
    {
      LexTotal(a.id, b.id);
    }
    forall a: Message, b: Message, c: Message | NotAfter(a, b) && NotAfter(b, c)
      ensures NotAfter(a, c)
    {
      LexTotal(a.id, b.id); LexTotal(b.id, c.id); LexTotal(a.id, c.id);
      if LexLess(a.id, b.id) && LexLess(b.id, c.id) { LexTransitive(a.id, b.id, c.id); }
    }
  }

  // ---- Merging one message over the entry with the same id ----

  function Reacted(items: seq<Reaction>, name: string): bool {
    items != [] && (if items[0].name == name then items[0].reacted else Reacted(items[1..], name))
  }

  function PreviousFlag(previous: Option<Message>, name: string): bool {
    previous.Some? && previous.value.reactions.List? && Reacted(previous.value.reactions.items, name)
  }

  function Items(reactions: Reactions): seq<Reaction> {
    if reactions.List? then reactions.items else []
  }

  function Flag(previous: Option<Message>, delta: ReactionUpdate, viewer: Viewer, name: string): bool {
    if viewer == Some(delta.userId) && name == delta.reaction then delta.active else PreviousFlag(previous, name)
  }

  function ApplyDelta(items: seq<Reaction>, previous: Option<Message>, delta: ReactionUpdate, viewer: Viewer): (r: seq<Reaction>)
    ensures |r| == |items|
  {
    seq(|items|, i requires 0 <= i < |items| => items[i].(reacted := Flag(previous, delta, viewer, items[i].name)))
  }

  function MergedReactions(previous: Option<Message>, message: Message, viewer: Viewer): Reactions {
    if message.reactions.Undefined? then
      if previous.Some? then previous.value.reactions else Undefined
    else if message.reactionUpdate.Some? then
      List(ApplyDelta(Items(message.reactions), previous, message.reactionUpdate.value, viewer))
    else
      List(Items(message.reactions))
  }

  function Over<T>(previous: Option<T>, next: Option<T>): Option<T> {
    if next.Some? then next else previous
  }

  /** `{...previous, ...message, challenge_status, challenge_resolved, reactions}`. */
  function MergeOne(previous: Option<Message>, message: Message, viewer: Viewer): Message {
    var reactions := MergedReactions(previous, message, viewer);
    if previous.None? then message.(reactions := reactions)
    else
      var p := previous.value;
      Message(message.id, message.createdAt,
              Over(p.kind, message.kind), Over(p.photoId, message.photoId),
              Over(p.challengeStatus, message.challengeStatus),
              message.challengeResolved || p.challengeResolved,
              reactions,
              Over(p.reactionUpdate, message.reactionUpdate),
              p.rest + message.rest)
  }

  // ---- Merging a list: a Map in insertion order, then a sort ----

  datatype JsMap = JsMap(keys: seq<string>, at: map<string, Message>) {
    /** Each key listed once, under the message that carries it as its id. */
    ghost predicate Valid() {
      && (forall i, j :: 0 <= i < j < |keys| ==> keys[i] != keys[j])
      && (forall k :: k in at <==> k in keys)
      && (forall k :: k in at ==> at[k].id == k && k != "")
    }

    function Get(k: string): Option<Message> {
      if k in at then Some(at[k]) else None
    }

    function Set(k: string, v: Message): JsMap {
      JsMap(if k in at then keys else keys + [k], at[k := v])
    }

    function Values(): seq<Message>
      requires Valid()
    {
      seq(|keys|, i requires 0 <= i < |keys| => assert keys[i] in keys; at[keys[i]])
    }
  }

  const EMPTY := JsMap([], map[])

  function Load(byId: JsMap, current: seq<Message>): (r: JsMap)
    requires byId.Valid()
    ensures r.Valid()
    decreases |current|
  {
    if current == [] then byId
    else Load(if current[0].id == "" then byId else byId.Set(current[0].id, current[0]), current[1..])
  }

  function Fold(byId: JsMap, incoming: seq<Message>, viewer: Viewer): (r: JsMap)
    requires byId.Valid()
    ensures r.Valid()
    decreases |incoming|
  {
    if incoming == [] then byId
    else
      var m := incoming[0];
      Fold(if m.id == "" then byId else byId.Set(m.id, MergeOne(byId.Get(m.id), m, viewer)), incoming[1..], viewer)
  }

  function Merge(current: seq<Message>, incoming: seq<Message>, viewer: Viewer): seq<Message> {
    if incoming == [] then current
    else Sort(Fold(Load(EMPTY, current), incoming, viewer).Values(), NotAfter)
  }

  lemma LoadNext(byId: JsMap, current: seq<Message>, i: nat)
    requires byId.Valid() && i < |current|
    ensures var next := if current[i].id == "" then byId else byId.Set(current[i].id, current[i]);
            next.Valid() && Load(byId, current[i..]) == Load(next, current[i + 1..])
  {
    assert current[i..][1..] == current[i + 1..];
  }

  lemma FoldNext(byId: JsMap, incoming: seq<Message>, i: nat, viewer: Viewer)
    requires byId.Valid() && i < |incoming|
    ensures var m := incoming[i];
            var next := if m.id == "" then byId else byId.Set(m.id, MergeOne(byId.Get(m.id), m, viewer));
            next.Valid() && Fold(byId, incoming[i..], viewer) == Fold(next, incoming[i + 1..], viewer)
  {
    assert incoming[i..][1..] == incoming[i + 1..];
  }

  method MergeMessages(current: seq<Message>, incoming: seq<Message>, viewer: Viewer) returns (merged: seq<Message>)
    ensures merged == Merge(current, incoming, viewer)
  {
    hide MergeOne, JsMap.Set, JsMap.Get, JsMap.Values;
    if incoming == [] { return current; }
    var byId := EMPTY;
    for i := 0 to |current|
      invariant byId.Valid()
      invariant Load(byId, current[i..]) == Load(EMPTY, current)
    {
      LoadNext(byId, current, i);
      if current[i].id != "" { byId := byId.Set(current[i].id, current[i]); }
    }
    for i := 0 to |incoming|
      invariant byId.Valid()
      invariant Fold(byId, incoming[i..], viewer) == Fold(Load(EMPTY, current), incoming, viewer)
    {
      var message := incoming[i];
      FoldNext(byId, incoming, i, viewer);
      if message.id == "" { continue; }
      var previous := byId.Get(message.id);
      byId := byId.Set(message.id, MergeOne(previous, message, viewer));
    }
    merged := Sort(byId.Values(), NotAfter);
  }

  function PruneBeforeAnchor(messages: seq<Message>, anchor: Option<Message>): seq<Message> {
    if anchor.None? || messages == [] then []
    else if Compare(messages[0], anchor.value) >= 0 then [messages[0]] + PruneBeforeAnchor(messages[1..], anchor)
    else PruneBeforeAnchor(messages[1..], anchor)
  }

  // ---- The log is strictly sorted and has one entry per id ----

  ghost predicate WellFormed(log: seq<Message>) {
    && (forall i, j :: 0 <= i < j < |log| ==> Compare(log[i], log[j]) < 0 && log[i].id != log[j].id)
    && (forall m :: m in log ==> m.id != "")
  }

  /** The log as a lookup by id, forgetting its order. */
  ghost function ById(log: seq<Message>): map<string, Message> {
    Load(EMPTY, log).at
  }

  lemma ValuesDistinct(byId: JsMap)
    requires byId.Valid()
    ensures var v := byId.Values(); forall i, j :: 0 <= i < j < |v| ==> v[i].id != v[j].id
    ensures forall m :: m in byId.Values() <==> m.id in byId.at && byId.at[m.id] == m
  {
    var v := byId.Values();
    forall i | 0 <= i < |v| ensures v[i].id == byId.keys[i] {
      assert byId.keys[i] in byId.keys;
    }
    forall m: Message | m.id in byId.at && byId.at[m.id] == m ensures m in v {
      assert m.id in byId.keys;
      var i :| 0 <= i < |byId.keys| && byId.keys[i] == m.id;
      assert v[i] == m;
    }
  }

  lemma SortedValuesWellFormed(byId: JsMap)
    requires byId.Valid()
    ensures var log := Sort(byId.Values(), NotAfter);
            WellFormed(log) && forall m :: m in log <==> m.id in byId.at && byId.at[m.id] == m
  {
    var v := byId.Values();
    var log := Sort(v, NotAfter);
    ValuesDistinct(byId);
    CompareIsTotalOrder();
    SortSorted(v, NotAfter);
    forall m ensures m in log <==> m in v {
      assert m in log <==> m in multiset(log);
      assert m in v <==> m in multiset(v);
    }
    DistinctIds(v, log);
  }

  /** A rearrangement of messages with distinct ids has distinct ids. */
  lemma DistinctIds(v: seq<Message>, log: seq<Message>)
    requires multiset(v) == multiset(log)
    requires forall i, j :: 0 <= i < j < |v| ==> v[i].id != v[j].id
    ensures forall i, j :: 0 <= i < j < |log| ==> log[i].id != log[j].id
  {
    forall i, j | 0 <= i < j < |log| ensures log[i].id != log[j].id {
      assert log[i] in multiset(log) && log[j] in multiset(log);
      assert log[i] in v && log[j] in v;
      if log[i] == log[j] {
        Twice(log, i, j);
        OnceAtMost(v, log[i]);
      }
    }
  }

  lemma Twice(s: seq<Message>, i: int, j: int)
    requires 0 <= i < j < |s| && s[i] == s[j]
    ensures multiset(s)[s[i]] >= 2
  {
    assert s == s[..j] + [s[j]] + s[j + 1..];
    assert s[i] in s[..j];
  }

  lemma {:induction false} OnceAtMost(s: seq<Message>, m: Message)
    requires forall i, j :: 0 <= i < j < |s| ==> s[i].id != s[j].id
    ensures multiset(s)[m] <= 1
  {
    if s != [] {
      OnceAtMost(s[1..], m);
      assert s == [s[0]] + s[1..];
      if s[0] == m {
        assert m !in s[1..];
      }
    }
  }

  /** Merging anything into any log yields a strictly sorted log with unique ids. */
  lemma MergeWellFormed(current: seq<Message>, incoming: seq<Message>, viewer: Viewer)
    requires incoming != [] || WellFormed(current)
    ensures WellFormed(Merge(current, incoming, viewer))
  {
    if incoming != [] {
      SortedValuesWellFormed(Fold(Load(EMPTY, current), incoming, viewer));
    }
  }

  // ---- What a merge does to the log as a lookup, and why order of arrival cannot matter ----

  lemma {:induction false} LoadDistinct(byId: JsMap, log: seq<Message>)
    requires byId.Valid() && (forall m :: m in log ==> m.id != "")
    requires forall i, j :: 0 <= i < j < |log| ==> log[i].id != log[j].id
    ensures var r := Load(byId, log).at;
            && (forall k :: k in r <==> k in byId.at || exists m :: m in log && m.id == k)
            && (forall m :: m in log ==> r[m.id] == m)
            && (forall k :: k in byId.at && (forall m :: m in log ==> m.id != k) ==> r[k] == byId.at[k])
    decreases |log|
  {
    if log != [] {
      var next := byId.Set(log[0].id, log[0]);
      LoadDistinct(next, log[1..]);
      var r := Load(next, log[1..]).at;
      assert forall m :: m in log <==> m == log[0] || m in log[1..];
    }
  }

  /** Reading a sorted log back gives the map it was sorted from. */
  lemma SortThenLoad(byId: JsMap)
    requires byId.Valid()
    ensures ById(Sort(byId.Values(), NotAfter)) == byId.at
  {
    SortedValuesWellFormed(byId);
    LoadExact(byId.at, Sort(byId.Values(), NotAfter));
  }

  lemma LoadExact(at: map<string, Message>, log: seq<Message>)
    requires WellFormed(log)
    requires forall m :: m in log <==> m.id in at && at[m.id] == m
    requires forall k :: k in at ==> at[k].id == k
    ensures ById(log) == at
  {
    LoadDistinct(EMPTY, log);
    var r := ById(log);
    forall k ensures k in r <==> k in at {
      if k in at { assert at[k] in log; }
    }
    forall k | k in at ensures r[k] == at[k] { assert at[k] in log; }
  }

  lemma SameEntriesSameLog(a: seq<Message>, b: seq<Message>)
    requires WellFormed(a) && WellFormed(b) && forall m :: m in a <==> m in b
    ensures a == b
  {
    forall m ensures multiset(a)[m] == multiset(b)[m] {
      OnceAtMost(a, m);
      OnceAtMost(b, m);
      assert m in a <==> m in multiset(a);
      assert m in b <==> m in multiset(b);
    }
    CompareIsTotalOrder();
    SortedUnique(a, b, NotAfter);
  }

  /** The log is determined by its lookup: insertion order is forgotten. */
  lemma SameMapSameLog(a: JsMap, b: JsMap)
    requires a.Valid() && b.Valid() && a.at == b.at
    ensures Sort(a.Values(), NotAfter) == Sort(b.Values(), NotAfter)
  {
    SortedValuesWellFormed(a);
    SortedValuesWellFormed(b);
    SameEntriesSameLog(Sort(a.Values(), NotAfter), Sort(b.Values(), NotAfter));
  }

  /** What one incoming message does to the entry of id `k`. */
  function Step(p: Option<Message>, m: Message, k: string, viewer: Viewer): Option<Message> {
    if m.id == k then Some(MergeOne(p, m, viewer)) else p
  }

  function FoldOne(p: Option<Message>, ms: seq<Message>, k: string, viewer: Viewer): Option<Message>
    decreases |ms|
  {
    if ms == [] then p else FoldOne(Step(p, ms[0], k, viewer), ms[1..], k, viewer)
  }

  /** Entries of different ids never interact. */
  lemma {:induction false} FoldPerId(byId: JsMap, ms: seq<Message>, k: string, viewer: Viewer)
    requires byId.Valid() && k != ""
    ensures Fold(byId, ms, viewer).Get(k) == FoldOne(byId.Get(k), ms, k, viewer)
    decreases |ms|
  {
    if ms != [] {
      var m := ms[0];
      var next := if m.id == "" then byId else byId.Set(m.id, MergeOne(byId.Get(m.id), m, viewer));
      FoldPerId(next, ms[1..], k, viewer);
    }
  }

  lemma FoldDependsOnMap(a: JsMap, b: JsMap, ms: seq<Message>, viewer: Viewer)
    requires a.Valid() && b.Valid() && a.at == b.at
    ensures Fold(a, ms, viewer).at == Fold(b, ms, viewer).at
  {
    var fa, fb := Fold(a, ms, viewer), Fold(b, ms, viewer);
    forall k ensures fa.Get(k) == fb.Get(k) {
      if k != "" {
        FoldPerId(a, ms, k, viewer);
        FoldPerId(b, ms, k, viewer);
      }
    }
    MapsByGet(fa, fb);
  }

  lemma MapsByGet(a: JsMap, b: JsMap)
    requires forall k :: a.Get(k) == b.Get(k)
    ensures a.at == b.at
  {
    forall k ensures k in a.at <==> k in b.at { assert a.Get(k) == b.Get(k); }
    forall k | k in a.at ensures a.at[k] == b.at[k] { assert a.Get(k) == b.Get(k); }
  }

  lemma {:induction false} FoldOneAppend(p: Option<Message>, a: seq<Message>, b: seq<Message>, k: string, viewer: Viewer)
    ensures FoldOne(p, a + b, k, viewer) == FoldOne(FoldOne(p, a, k, viewer), b, k, viewer)
    decreases |a|
  {
    if a == [] {
      assert a + b == b;
    } else {
      assert (a + b)[1..] == a[1..] + b;
      FoldOneAppend(Step(p, a[0], k, viewer), a[1..], b, k, viewer);
    }
  }

  lemma {:induction false} ReactedApplyDelta(items: seq<Reaction>, previous: Option<Message>, delta: ReactionUpdate, viewer: Viewer, name: string)
    ensures Reacted(ApplyDelta(items, previous, delta, viewer), name)
         == ((exists r :: r in items && r.name == name) && Flag(previous, delta, viewer, name))
    decreases |items|
  {
    if items != [] {
      ReactedApplyDelta(items[1..], previous, delta, viewer, name);
      assert ApplyDelta(items, previous, delta, viewer)[1..] == ApplyDelta(items[1..], previous, delta, viewer);
      assert items == [items[0]] + items[1..];
    }
  }

  lemma LaterMapWins(a: map<string, string>, x: map<string, string>, y: map<string, string>)
    ensures a + x + y + x == a + y + x && a + x + x == a + x
  {
  }

  /** The law that makes batching irrelevant: a message applied earlier than its own
      later re-delivery leaves no trace, whatever came between. */
  lemma Absorbed(p: Option<Message>, x: Message, y: Message, k: string, viewer: Viewer)
    ensures Step(Step(Step(p, x, k, viewer), y, k, viewer), x, k, viewer) == Step(Step(p, y, k, viewer), x, k, viewer)
  {
    if x.id == k && y.id == k {
      ReactionsAbsorbed(p, x, y, viewer);
      LaterMapWins(if p.Some? then p.value.rest else map[], x.rest, y.rest);
      assert map[] + x.rest == x.rest && map[] + y.rest == y.rest;
    } else if x.id == k {
      Repeated(p, x, viewer);
    }
  }

  lemma Repeated(p: Option<Message>, x: Message, viewer: Viewer)
    ensures MergeOne(Some(MergeOne(p, x, viewer)), x, viewer) == MergeOne(p, x, viewer)
  {
    ReactionsRepeat(p, x, viewer);
    LaterMapWins(if p.Some? then p.value.rest else map[], x.rest, x.rest);
    assert map[] + x.rest == x.rest;
  }

  /** The flag a name has after merging `y`, in terms of what it had before. */
  lemma FlagAfter(q: Option<Message>, y: Message, viewer: Viewer, name: string)
    ensures PreviousFlag(Some(MergeOne(q, y, viewer)), name) ==
      if y.reactions.Undefined? then PreviousFlag(q, name)
      else if y.reactionUpdate.Some? then
        (exists r :: r in Items(y.reactions) && r.name == name) && Flag(q, y.reactionUpdate.value, viewer, name)
      else Reacted(Items(y.reactions), name)
  {
    if y.reactionUpdate.Some? {
      ReactedApplyDelta(Items(y.reactions), q, y.reactionUpdate.value, viewer, name);
    }
  }

  lemma SameFlagsSameList(items: seq<Reaction>, a: Option<Message>, b: Option<Message>, delta: ReactionUpdate, viewer: Viewer)
    requires forall r :: r in items ==> Flag(a, delta, viewer, r.name) == Flag(b, delta, viewer, r.name)
    ensures ApplyDelta(items, a, delta, viewer) == ApplyDelta(items, b, delta, viewer)
  {
    forall i | 0 <= i < |items|
      ensures ApplyDelta(items, a, delta, viewer)[i] == ApplyDelta(items, b, delta, viewer)[i]
    {
      assert items[i] in items;
    }
  }

  lemma ReactionsRepeat(p: Option<Message>, x: Message, viewer: Viewer)
    ensures MergedReactions(Some(MergeOne(p, x, viewer)), x, viewer) == MergedReactions(p, x, viewer)
  {
    if x.reactionUpdate.Some? && !x.reactions.Undefined? {
      var px, items, delta := Some(MergeOne(p, x, viewer)), Items(x.reactions), x.reactionUpdate.value;
      forall r | r in items ensures Flag(px, delta, viewer, r.name) == Flag(p, delta, viewer, r.name) {
        FlagAfter(p, x, viewer, r.name);
      }
      SameFlagsSameList(items, px, p, delta, viewer);
    }
  }

  lemma ReactionsAbsorbed(p: Option<Message>, x: Message, y: Message, viewer: Viewer)
    ensures var px := Some(MergeOne(p, x, viewer));
            MergedReactions(Some(MergeOne(px, y, viewer)), x, viewer) == MergedReactions(Some(MergeOne(p, y, viewer)), x, viewer)
  {
    var px := Some(MergeOne(p, x, viewer));
    var pxy, py := Some(MergeOne(px, y, viewer)), Some(MergeOne(p, y, viewer));
    if x.reactions.Undefined? {
      if y.reactionUpdate.Some? && !y.reactions.Undefined? {
        var items, delta := Items(y.reactions), y.reactionUpdate.value;
        forall r | r in items ensures Flag(px, delta, viewer, r.name) == Flag(p, delta, viewer, r.name) {
          FlagAfter(p, x, viewer, r.name);
        }
        SameFlagsSameList(items, px, p, delta, viewer);
      }
    } else if x.reactionUpdate.Some? {
      var items, delta := Items(x.reactions), x.reactionUpdate.value;
      forall r | r in items ensures Flag(pxy, delta, viewer, r.name) == Flag(py, delta, viewer, r.name) {
        FlagAfter(p, x, viewer, r.name);
        FlagAfter(px, y, viewer, r.name);
        FlagAfter(p, y, viewer, r.name);
      }
      SameFlagsSameList(items, pxy, py, delta, viewer);
    }
  }

  lemma {:induction false} AbsorbedAcross(p: Option<Message>, x: Message, u: seq<Message>, k: string, viewer: Viewer)
    ensures FoldOne(p, [x] + u + [x], k, viewer) == FoldOne(p, u + [x], k, viewer)
    decreases |u|
  {
    FoldOneAppend(p, [x] + u, [x], k, viewer);
    FoldOneAppend(p, [x], u, k, viewer);
    FoldOneAppend(p, u, [x], k, viewer);
    var px := Step(p, x, k, viewer);
    if u == [] {
      Repeated(p, x, viewer);
    } else {
      var y, v := u[0], u[1..];
      var pxy, py := Step(px, y, k, viewer), Step(p, y, k, viewer);
      // x y v x = x y (x v x) = (x y x) v x = (y x) v x = y (x v x) = y v x
      AbsorbedAcross(pxy, x, v, k, viewer);
      AbsorbedAcross(py, x, v, k, viewer);
      Absorbed(p, x, y, k, viewer);
      FoldOneAppend(pxy, [x] + v, [x], k, viewer);
      FoldOneAppend(pxy, v, [x], k, viewer);
      FoldOneAppend(py, [x] + v, [x], k, viewer);
      FoldOneAppend(py, v, [x], k, viewer);
    }
  }

  lemma {:induction false} FoldOneIdempotent(p: Option<Message>, w: seq<Message>, k: string, viewer: Viewer)
    ensures FoldOne(FoldOne(p, w, k, viewer), w, k, viewer) == FoldOne(p, w, k, viewer)
    decreases |w|
  {
    if w != [] {
      var v, x := w[..|w| - 1], w[|w| - 1];
      assert w == v + [x];
      var pv := FoldOne(p, v, k, viewer);
      // (v x)(v x) = v (x v x) = v v x = v x
      FoldOneAppend(p, w, w, k, viewer);
      assert w + w == v + ([x] + v + [x]);
      FoldOneAppend(p, v, [x] + v + [x], k, viewer);
      AbsorbedAcross(pv, x, v, k, viewer);
      FoldOneAppend(pv, v, [x], k, viewer);
      FoldOneIdempotent(p, v, k, viewer);
      FoldOneAppend(p, v, [x], k, viewer);
    }
  }

  // ---- Main results ----

  lemma {:induction false} FoldAppend(byId: JsMap, a: seq<Message>, b: seq<Message>, viewer: Viewer)
    requires byId.Valid()
    ensures Fold(byId, a + b, viewer) == Fold(Fold(byId, a, viewer), b, viewer)
    decreases |a|
  {
    if a == [] {
      assert a + b == b;
    } else {
      assert (a + b)[1..] == a[1..] + b;
      var m := a[0];
      FoldAppend(if m.id == "" then byId else byId.Set(m.id, MergeOne(byId.Get(m.id), m, viewer)), a[1..], b, viewer);
    }
  }

  /** Lists that act alike on every entry produce the same log. */
  lemma SameEffectSameLog(current: seq<Message>, a: seq<Message>, b: seq<Message>, viewer: Viewer)
    requires a != [] && b != []
    requires forall p, k :: FoldOne(p, a, k, viewer) == FoldOne(p, b, k, viewer)
    ensures Merge(current, a, viewer) == Merge(current, b, viewer)
  {
    var byId := Load(EMPTY, current);
    var fa, fb := Fold(byId, a, viewer), Fold(byId, b, viewer);
    forall k ensures fa.Get(k) == fb.Get(k) {
      if k != "" {
        FoldPerId(byId, a, k, viewer);
        FoldPerId(byId, b, k, viewer);
      }
    }
    MapsByGet(fa, fb);
    SameMapSameLog(fa, fb);
  }

  /** Two merges in a row are one merge of the concatenation. */
  lemma MergeBatches(current: seq<Message>, a: seq<Message>, b: seq<Message>, viewer: Viewer)
    ensures Merge(Merge(current, a, viewer), b, viewer) == Merge(current, a + b, viewer)
  {
    if a == [] {
      assert a + b == b;
    } else if b == [] {
      assert a + b == a;
    } else {
      var byId := Load(EMPTY, current);
      var fa := Fold(byId, a, viewer);
      SortThenLoad(fa);
      var reloaded := Load(EMPTY, Merge(current, a, viewer));
      FoldDependsOnMap(reloaded, fa, b, viewer);
      FoldAppend(byId, a, b, viewer);
      SameMapSameLog(Fold(reloaded, b, viewer), Fold(byId, a + b, viewer));
    }
  }

  /** Delivering the same list again changes nothing, reaction deltas included. */
  lemma MergeIdempotent(current: seq<Message>, incoming: seq<Message>, viewer: Viewer)
    ensures Merge(Merge(current, incoming, viewer), incoming, viewer) == Merge(current, incoming, viewer)
  {
    MergeBatches(current, incoming, incoming, viewer);
    if incoming != [] {
      forall p, k ensures FoldOne(p, incoming + incoming, k, viewer) == FoldOne(p, incoming, k, viewer) {
        FoldOneAppend(p, incoming, incoming, k, viewer);
        FoldOneIdempotent(p, incoming, k, viewer);
      }
      SameEffectSameLog(current, incoming + incoming, incoming, viewer);
    }
  }

  /** A message seen on two paths counts once: the earlier copy can be dropped. */
  lemma EarlierCopyRedundant(current: seq<Message>, x: Message, between: seq<Message>, viewer: Viewer)
    ensures Merge(current, [x] + between + [x], viewer) == Merge(current, between + [x], viewer)
  {
    forall p, k ensures FoldOne(p, [x] + between + [x], k, viewer) == FoldOne(p, between + [x], k, viewer) {
      AbsorbedAcross(p, x, between, k, viewer);
    }
    SameEffectSameLog(current, [x] + between + [x], between + [x], viewer);
  }

  /** Which ids a merge leaves in the log: the old ones and the delivered ones. */
  lemma MergeIds(current: seq<Message>, incoming: seq<Message>, viewer: Viewer, k: string)
    requires k != ""
    ensures (exists m :: m in Merge(current, incoming, viewer) && m.id == k)
        <==> (exists m :: m in current && m.id == k) || (exists m :: m in incoming && m.id == k)
  {
    if incoming != [] {
      var byId := Load(EMPTY, current);
      var f := Fold(byId, incoming, viewer);
      SortedValuesWellFormed(f);
      LoadIds(EMPTY, current, k);
      FoldPerId(byId, incoming, k, viewer);
      FoldOneSome(byId.Get(k), incoming, k, viewer);
      if k in f.at { assert f.at[k] in Merge(current, incoming, viewer); }
    }
  }

  lemma {:induction false} LoadIds(byId: JsMap, current: seq<Message>, k: string)
    requires byId.Valid() && k != ""
    ensures k in Load(byId, current).at <==> k in byId.at || exists m :: m in current && m.id == k
    decreases |current|
  {
    if current != [] {
      LoadIds(if current[0].id == "" then byId else byId.Set(current[0].id, current[0]), current[1..], k);
      assert forall m :: m in current <==> m == current[0] || m in current[1..];
    }
  }

  lemma {:induction false} FoldOneSome(p: Option<Message>, ms: seq<Message>, k: string, viewer: Viewer)
    ensures FoldOne(p, ms, k, viewer).Some? <==> p.Some? || exists m :: m in ms && m.id == k
    decreases |ms|
  {
    if ms != [] {
      FoldOneSome(Step(p, ms[0], k, viewer), ms[1..], k, viewer);
      assert forall m :: m in ms <==> m == ms[0] || m in ms[1..];
    }
  }
}
