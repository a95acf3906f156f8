/** The other fields of frontend/src/chat/chatStream.ts:20-116 over whole histories: what the
    paging flags, the error, the status and the cache hints of a session say. */
module ChatStreamFields {
  import opened Ordering
  import opened MessageLog
  import opened ChatStream

  /** No action leaves the session for another one. */
  ghost predicate SameSession(s: State, actions: seq<Action>) {
    forall a :: a in actions && a.Reset? ==> a.identity == s.identity
  }

  predicate Pages(a: Action) {
    a.LoadOlderStart? || a.LoadOlderDone? || a.LoadOlderError?
  }

  predicate Lists(a: Action) {
    a.FirstPage? || a.LoadOlderDone?
  }

  predicate Errs(a: Action) {
    a.Error? || a.LoadOlderError?
  }

  /** Actions of the session `s` of which none is of the kind. */
  ghost predicate Without(s: State, actions: seq<Action>, kind: Action -> bool) {
    forall a :: a in actions && a.identity == s.identity ==> !kind(a)
  }

  /** What an action may change. */
  lemma ActionChanges(s: State, a: Action)
    requires a.Reset? ==> a.identity == s.identity
    ensures var t, mine := Reduce(s, a), a.identity == s.identity;
            && t.identity == s.identity && t.viewerId == s.viewerId
            && (t.loadingOlder == s.loadingOlder || (mine && Pages(a)))
            && (t.hasMoreOlder == s.hasMoreOlder || (mine && Lists(a)))
            && (t.error == s.error || (mine && Errs(a)))
            && (t.connectionStatus == s.connectionStatus || (mine && a.Status?))
  {
    hide Merge, Keep, PruneBeforeAnchor, WithStatus, Ids;
  }

  lemma {:induction false} FieldsStay(s: State, actions: seq<Action>)
    requires SameSession(s, actions)
    ensures var t := Run(s, actions);
            && t.identity == s.identity && t.viewerId == s.viewerId
            && (Without(s, actions, Pages) ==> t.loadingOlder == s.loadingOlder)
            && (Without(s, actions, Lists) ==> t.hasMoreOlder == s.hasMoreOlder)
            && (Without(s, actions, Errs) ==> t.error == s.error)
            && (Without(s, actions, (a: Action) => a.Status?) ==> t.connectionStatus == s.connectionStatus)
    decreases |actions|
  {
    if actions != [] {
      assert actions[0] in actions && forall a :: a in actions[1..] ==> a in actions;
      hide Reduce, Pages, Lists, Errs;
      ActionChanges(s, actions[0]);
      FieldsStay(Reduce(s, actions[0]), actions[1..]);
    }
  }

  /** The session is loading older messages exactly while the last word on it was a start. */
  lemma LoadingUntilAnswered(s: State, a: Action, after: seq<Action>)
    requires a.identity == s.identity && Pages(a) && SameSession(s, after) && Without(s, after, Pages)
    ensures Run(Reduce(s, a), after).loadingOlder <==> a.LoadOlderStart?
  {
    FieldsStay(Reduce(s, a), after);
  }

  /** There may be older messages exactly if the last page was full. */
  lemma MoreOlderIffFullPage(s: State, a: Action, after: seq<Action>)
    requires a.identity == s.identity && Lists(a) && SameSession(s, after) && Without(s, after, Lists)
    ensures Run(Reduce(s, a), after).hasMoreOlder <==> |a.items| >= 50
  {
    FieldsStay(Reduce(s, a), after);
  }

  lemma LastErrorShows(s: State, a: Action, after: seq<Action>)
    requires a.identity == s.identity && Errs(a) && SameSession(s, after) && Without(s, after, Errs)
    ensures Run(Reduce(s, a), after).error == a.message
  {
    FieldsStay(Reduce(s, a), after);
  }

  lemma LastStatusShows(s: State, status: ConnectionStatus, after: seq<Action>)
    requires SameSession(s, after) && Without(s, after, (a: Action) => a.Status?)
    ensures Run(Reduce(s, Status(s.identity, status)), after).connectionStatus == status
  {
    FieldsStay(Reduce(s, Status(s.identity, status)), after);
  }

  /** A reset to another session shows its cache, unconfirmed, and forgets everything of
      the session before; a reset to the same session changes nothing. */
  lemma ResetStartsAfresh(s: State, identity: string, viewerId: Viewer, cached: seq<Message>)
    ensures var t := Reduce(s, Reset(identity, viewerId, cached));
            if identity == s.identity then t == s
            else t.identity == identity && t.viewerId == viewerId && t.messages == cached && t.unconfirmedCachedIds == Ids(cached)
                 && t.connectionStatus == Connecting && t.error == "" && !t.loadingOlder && !t.hasMoreOlder
  {
  }

  // ---- Cache hints ----

  ghost predicate Confirms(s: State, actions: seq<Action>, id: string) {
    exists a :: a in actions && a.identity == s.identity && (a.FirstPage? || (a.MergeIncoming? && id in Ids(a.incoming)))
  }

  /** A cached message is a hint until the session has a first page, or until the server
      delivers it live or in a page. */
  lemma {:induction false} HintUntilConfirmed(s: State, actions: seq<Action>, id: string)
    requires SameSession(s, actions)
    ensures id in Run(s, actions).unconfirmedCachedIds <==> id in s.unconfirmedCachedIds && !Confirms(s, actions, id)
    decreases |actions|
  {
    if actions != [] {
      assert actions[0] in actions && forall a :: a in actions <==> a == actions[0] || a in actions[1..];
      hide Merge, Keep, PruneBeforeAnchor, WithStatus;
      HintUntilConfirmed(Reduce(s, actions[0]), actions[1..], id);
    }
  }

  /** A first page drops the hints and what is older than its oldest message, keeps the
      rest, and leaves no hint. */
  lemma FirstPageKeepsLive(s: State, items: seq<Message>, m: Message)
    ensures var t := Reduce(s, FirstPage(s.identity, items));
            && (m in t.messages <==> m in s.messages && m.id !in s.unconfirmedCachedIds && (items != [] ==> Compare(m, items[0]) >= 0))
            && t.unconfirmedCachedIds == {}
  {
    KeepMembers(s.messages, s.unconfirmedCachedIds);
    if items != [] { PruneMembers(Keep(s.messages, s.unconfirmedCachedIds), items[0]); }
  }

  // ---- The status of a challenge ----

  /** The status goes to the challenge messages of the photo, to all of them and to no
      other message. */
  lemma ChallengeStatusIsShown(s: State, photoId: string, status: string, i: nat)
    requires i < |s.messages|
    ensures var t, m := Reduce(s, ChallengeStatus(s.identity, photoId, status)), s.messages[i];
            && |t.messages| == |s.messages|
            && (m.kind == Some("challenge") && m.photoId == Some(photoId) ==> t.messages[i] == m.(challengeStatus := Some(status)))
            && (m.kind != Some("challenge") || m.photoId != Some(photoId) ==> t.messages[i] == m)
  {
  }
}
