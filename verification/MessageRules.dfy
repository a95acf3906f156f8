/** The per-message rules of frontend/src/chat/messageLog.ts:13-69, stated of whole logs:
    what a merge does to the entry of each id, the order of the result, and what pruning
    leaves. */
module MessageRules {
  import opened Ordering
  import opened MessageLog

  // ---- Order ----

  /** Older first, and by id among messages of the same time. */
  lemma OlderComesFirst(a: Message, b: Message)
    ensures Compare(a, b) < 0 <==> a.createdAt < b.createdAt || (a.createdAt == b.createdAt && LexLess(a.id, b.id))
    ensures Compare(a, b) > 0 <==> Compare(b, a) < 0
  {
    LexTotal(a.id, b.id);
  }

  /** A merged log shows older messages before newer ones. */
  lemma LogIsOldestFirst(current: seq<Message>, incoming: seq<Message>, viewer: Viewer, i: nat, j: nat)
    requires incoming != [] && i < j < |Merge(current, incoming, viewer)|
    ensures var log := Merge(current, incoming, viewer);
            log[i].createdAt < log[j].createdAt || (log[i].createdAt == log[j].createdAt && LexLess(log[i].id, log[j].id))
  {
    MergeWellFormed(current, incoming, viewer);
    var log := Merge(current, incoming, viewer);
    OlderComesFirst(log[i], log[j]);
  }

  // ---- Entries ----

  ghost predicate HasEntry(log: seq<Message>, k: string, e: Option<Message>) {
    match e
    case Some(m) => m in log && m.id == k
    case None => forall m :: m in log ==> m.id != k
  }

  lemma LoadedEntry(current: seq<Message>, k: string)
    requires WellFormed(current) && k != ""
    ensures HasEntry(current, k, Load(EMPTY, current).Get(k))
  {
    LoadDistinct(EMPTY, current);
  }

  lemma OneEntry(log: seq<Message>, k: string, a: Option<Message>, b: Option<Message>)
    requires WellFormed(log) && HasEntry(log, k, a) && HasEntry(log, k, b)
    ensures a == b
  {
    if a.Some? && b.Some? {
      var i :| 0 <= i < |log| && log[i] == a.value;
      var j :| 0 <= j < |log| && log[j] == b.value;
    }
  }

  /** The entry of an id after a merge depends on its entry before and on the incoming
      messages with that id, in order, and on nothing else. */
  lemma EntryAfterMerge(current: seq<Message>, incoming: seq<Message>, viewer: Viewer, k: string, before: Option<Message>)
    requires WellFormed(current) && incoming != [] && k != "" && HasEntry(current, k, before)
    ensures HasEntry(Merge(current, incoming, viewer), k, FoldOne(before, incoming, k, viewer))
  {
    LoadedEntry(current, k);
    OneEntry(current, k, before, Load(EMPTY, current).Get(k));
    var f := Fold(Load(EMPTY, current), incoming, viewer);
    FoldPerId(Load(EMPTY, current), incoming, k, viewer);
    SortedValuesWellFormed(f);
    var log := Merge(current, incoming, viewer);
    if k in f.at { assert f.at[k] in log; }
  }

  ghost predicate Resolves(ms: seq<Message>, k: string) {
    exists m :: m in ms && m.id == k && m.challengeResolved
  }

  lemma {:induction false} FoldOneResolved(p: Option<Message>, ms: seq<Message>, k: string, viewer: Viewer)
    ensures var e := FoldOne(p, ms, k, viewer);
            e.Some? && e.value.challengeResolved <==> (p.Some? && p.value.challengeResolved) || Resolves(ms, k)
    decreases |ms|
  {
    if ms != [] {
      FoldOneResolved(Step(p, ms[0], k, viewer), ms[1..], k, viewer);
      assert forall m :: m in ms <==> m == ms[0] || m in ms[1..];
    }
  }

  /** A challenge is resolved in the log once any copy of its message has said so, whatever
      else is delivered before or after. */
  lemma ResolvedIsSticky(current: seq<Message>, incoming: seq<Message>, viewer: Viewer, k: string, before: Option<Message>, after: Option<Message>)
    requires WellFormed(current) && incoming != [] && k != ""
    requires HasEntry(current, k, before) && HasEntry(Merge(current, incoming, viewer), k, after)
    ensures after.Some? && after.value.challengeResolved <==>
            (before.Some? && before.value.challengeResolved) || exists m :: m in incoming && m.id == k && m.challengeResolved
  {
    EntryAfterMerge(current, incoming, viewer, k, before);
    MergeWellFormed(current, incoming, viewer);
    OneEntry(Merge(current, incoming, viewer), k, after, FoldOne(before, incoming, k, viewer));
    FoldOneResolved(before, incoming, k, viewer);
  }

  /** The viewer's flag of the first reaction of that name. */
  ghost predicate HadReacted(before: Option<Message>, name: string) {
    before.Some? && before.value.reactions.List? &&
    var items := before.value.reactions.items;
    exists i :: 0 <= i < |items| && items[i].name == name && items[i].reacted && forall j :: 0 <= j < i ==> items[j].name != name
  }

  lemma {:induction false} ReactedIff(items: seq<Reaction>, name: string)
    ensures Reacted(items, name) <==>
            exists i :: 0 <= i < |items| && items[i].name == name && items[i].reacted && forall j :: 0 <= j < i ==> items[j].name != name
  {
    if items != [] {
      var rest := items[1..];
      ReactedIff(rest, name);
      if items[0].name != name {
        if i :| 0 <= i < |items| && items[i].name == name && items[i].reacted && forall j :: 0 <= j < i ==> items[j].name != name {
          assert rest[i - 1] == items[i] && forall j :: 0 <= j < i - 1 ==> rest[j] == items[j + 1];
        }
        if i :| 0 <= i < |rest| && rest[i].name == name && rest[i].reacted && forall j :: 0 <= j < i ==> rest[j].name != name {
          assert items[i + 1] == rest[i];
          forall j | 0 <= j < i + 1 ensures items[j].name != name { if j > 0 { assert items[j] == rest[j - 1]; } }
        }
      } else if i :| 0 <= i < |items| && items[i].name == name && items[i].reacted && forall j :: 0 <= j < i ==> items[j].name != name {
        assert i == 0;
      }
    }
  }

  /** What a delivered reaction shows the viewer: a change of the viewer's own selection
      as the update says, every other flag as it was. */
  ghost predicate FlagRule(before: Option<Message>, m: Message, viewer: Viewer, shown: Reaction, delivered: Reaction)
    requires m.reactionUpdate.Some?
  {
    var delta := m.reactionUpdate.value;
    && shown.name == delivered.name && shown.count == delivered.count && shown.usernames == delivered.usernames
    && (shown.reacted <==> if viewer == Some(delta.userId) && delivered.name == delta.reaction then delta.active else HadReacted(before, delivered.name))
  }

  lemma MergeOneReactions(before: Option<Message>, m: Message, viewer: Viewer)
    ensures var e := MergeOne(before, m, viewer);
            && (m.reactions.Undefined? ==> e.reactions == if before.Some? then before.value.reactions else Undefined)
            && (!m.reactions.Undefined? ==> e.reactions.List? && |e.reactions.items| == |Items(m.reactions)|)
            && (!m.reactions.Undefined? && m.reactionUpdate.None? ==> e.reactions.items == Items(m.reactions))
            && (!m.reactions.Undefined? && m.reactionUpdate.Some? ==>
                  forall i :: 0 <= i < |e.reactions.items| ==> FlagRule(before, m, viewer, e.reactions.items[i], Items(m.reactions)[i]))
  {
    if before.Some? && before.value.reactions.List? {
      forall name { ReactedIff(before.value.reactions.items, name); }
    }
  }

  /** What the message has, or else what the entry had. */
  ghost predicate TakesOver<T>(after: Option<T>, delivered: Option<T>, before: Option<T>) {
    after == if delivered.Some? then delivered else before
  }

  ghost predicate PropertiesRule(before: Option<Message>, m: Message, e: Message) {
    && (forall name :: name in e.rest <==> name in m.rest || (before.Some? && name in before.value.rest))
    && (forall name :: name in e.rest ==> e.rest[name] == if name in m.rest then m.rest[name] else before.value.rest[name])
    && TakesOver(e.kind, m.kind, if before.Some? then before.value.kind else None)
    && TakesOver(e.photoId, m.photoId, if before.Some? then before.value.photoId else None)
    && TakesOver(e.challengeStatus, m.challengeStatus, if before.Some? then before.value.challengeStatus else None)
    && TakesOver(e.reactionUpdate, m.reactionUpdate, if before.Some? then before.value.reactionUpdate else None)
  }

  lemma MergeOneProperties(before: Option<Message>, m: Message, viewer: Viewer)
    ensures PropertiesRule(before, m, MergeOne(before, m, viewer))
  {
    hide MergedReactions;
  }

  /** One message merged: the other entries stay as they are; its own takes its time, keeps
      every property and the reactions that the message omits, and applies a reaction
      update. */
  lemma MergeOfOne(current: seq<Message>, m: Message, viewer: Viewer, before: Option<Message>) returns (e: Message)
    requires WellFormed(current) && m.id != "" && HasEntry(current, m.id, before)
    ensures e in Merge(current, [m], viewer) && e.id == m.id && e.createdAt == m.createdAt
    ensures forall x: Message :: x.id != m.id ==> (x in Merge(current, [m], viewer) <==> x in current)
    ensures PropertiesRule(before, m, e)
    ensures m.reactions.Undefined? ==> e.reactions == if before.Some? then before.value.reactions else Undefined
    ensures !m.reactions.Undefined? ==> e.reactions.List? && |e.reactions.items| == |Items(m.reactions)|
    ensures !m.reactions.Undefined? && m.reactionUpdate.None? ==> e.reactions.items == Items(m.reactions)
    ensures !m.reactions.Undefined? && m.reactionUpdate.Some? ==>
              forall i :: 0 <= i < |e.reactions.items| ==> FlagRule(before, m, viewer, e.reactions.items[i], Items(m.reactions)[i])
  {
    e := MergeOne(before, m, viewer);
    EntryAfterMerge(current, [m], viewer, m.id, before);
    assert [m][1..] == [] && FoldOne(before, [m], m.id, viewer) == Some(e);
    MergeOneReactions(before, m, viewer);
    MergeOneProperties(before, m, viewer);
    forall x: Message | x.id != m.id ensures x in Merge(current, [m], viewer) <==> x in current { OtherEntryStays(current, m, viewer, x); }
    hide Merge;
  }

  lemma OtherEntryStays(current: seq<Message>, m: Message, viewer: Viewer, x: Message)
    requires WellFormed(current) && m.id != "" && x.id != m.id
    ensures x in Merge(current, [m], viewer) <==> x in current
  {
    var log := Merge(current, [m], viewer);
    MergeWellFormed(current, [m], viewer);
    if x.id != "" {
      LoadedEntry(current, x.id);
      var before := Load(EMPTY, current).Get(x.id);
      EntryAfterMerge(current, [m], viewer, x.id, before);
      assert [m][1..] == [] && FoldOne(before, [m], x.id, viewer) == before;
      hide Merge, Load;
      if x in current { OneEntry(current, x.id, Some(x), before); }
      if x in log { OneEntry(log, x.id, Some(x), before); }
    }
  }

  // ---- Pruning ----

  /** Pruning a sorted log leaves its messages from the anchor on, and nothing when there
      is no anchor. */
  lemma {:induction false} PruneIsSuffix(log: seq<Message>, anchor: Option<Message>) returns (n: nat)
    requires WellFormed(log)
    ensures n <= |log| && PruneBeforeAnchor(log, anchor) == log[n..]
    ensures anchor.None? ==> n == |log|
    ensures anchor.Some? ==> (forall i :: 0 <= i < n ==> Compare(log[i], anchor.value) < 0) && forall i :: n <= i < |log| ==> Compare(log[i], anchor.value) >= 0
  {
    if anchor.None? || log == [] {
      n := |log|;
    } else if Compare(log[0], anchor.value) >= 0 {
      n := 0;
      forall i | 0 < i < |log| ensures Compare(log[i], anchor.value) >= 0 { LaterToo(log[0], log[i], anchor.value); }
      PruneNothing(log, anchor.value);
    } else {
      var m := PruneIsSuffix(log[1..], anchor);
      n := m + 1;
      forall i | 0 < i < |log| ensures log[i] == log[1..][i - 1] {}
    }
  }

  lemma LaterToo(a: Message, b: Message, anchor: Message)
    requires Compare(a, b) < 0 && Compare(a, anchor) >= 0
    ensures Compare(b, anchor) >= 0
  {
    CompareIsTotalOrder();
    OlderComesFirst(b, anchor);
    OlderComesFirst(a, anchor);
    assert NotAfter(anchor, a) && NotAfter(a, b);
    assert NotAfter(anchor, b);
    OlderComesFirst(anchor, b);
  }

  lemma {:induction false} PruneNothing(log: seq<Message>, anchor: Message)
    requires forall i :: 0 <= i < |log| ==> Compare(log[i], anchor) >= 0
    ensures PruneBeforeAnchor(log, Some(anchor)) == log
  {
    if log != [] {
      PruneNothing(log[1..], anchor);
      assert log == [log[0]] + log[1..];
    }
  }
}
