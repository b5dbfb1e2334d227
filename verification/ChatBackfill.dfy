// alembic revision d5e1a0c3b703: agent sessions backfilled from chat history,
// and the way back.
module ChatBackfill {
  import opened Grouping
  import opened Ordering
  import opened Wrappers

  type AgentId = nat
  type CompanyId = nat
  type MessageId = nat
  type SessionId = nat

  // other stands for the columns the migration never touches.
  datatype Message = Message(company: CompanyId, agent: AgentId, conversation: Option<string>, createdAt: int,
                             session: Option<SessionId>, number: Option<int>, other: string)

  datatype Metadata = NotADict | Dict(legacy: bool, backfill: Option<string>, legacyConversation: Option<string>)

  datatype Session = Session(company: CompanyId, agent: AgentId, status: string, adapter: string, eventSeq: nat,
                             metadata: Metadata, startedAt: int, lastActivityAt: int)

  const BACKFILL_TAG := "ws03"
  const CHUNK: nat := 500

  type Agents = map<AgentId, CompanyId>
  type Messages = map<MessageId, Message>
  type Sessions = map<SessionId, Session>

  datatype GroupKey = GroupKey(company: CompanyId, agent: AgentId, conversation: Option<string>)

  // Unlinked, and its agent exists in the same company.
  predicate Eligible(agents: Agents, m: Message) {
    m.session.None? && m.agent in agents && agents[m.agent] == m.company
  }

  function EligibleIds(agents: Agents, messages: Messages): set<MessageId> {
    set id | id in messages && Eligible(agents, messages[id])
  }

  // ORDER BY created_at, id
  function Before(messages: Messages): Order<MessageId> {
    (a: MessageId, b: MessageId) => Time(messages, a) < Time(messages, b)
        || (Time(messages, a) == Time(messages, b) && a <= b)
  }

  function Time(messages: Messages, id: MessageId): int {
    if id in messages then messages[id].createdAt else 0
  }

  function KeyOf(messages: Messages): MessageId -> GroupKey {
    id => if id in messages then GroupKey(messages[id].company, messages[id].agent, messages[id].conversation)
          else GroupKey(0, 0, None)
  }

  lemma BeforeIsTotal(messages: Messages)
    ensures TotalOrder(Before(messages))
  {
  }

  predicate Tagged(s: Session) {
    s.metadata.Dict? && s.metadata.backfill == Some(BACKFILL_TAG)
  }

  function TaggedIds(sessions: Sessions): set<SessionId> {
    set id | id in sessions && Tagged(sessions[id])
  }

  // Every link names a session.
  ghost predicate LinksOk(messages: Messages, sessions: Sessions) {
    forall id <- messages :: messages[id].session.Some? ==> messages[id].session.value in sessions
  }

  // The uuid4 values drawn: new, and different from one another.
  ghost predicate FreshIds(newId: nat -> SessionId, sessions: Sessions) {
    && (forall i: nat :: newId(i) !in sessions)
    && (forall i: nat, j: nat :: newId(i) == newId(j) ==> i == j)
  }

  /* --- what the upgrade leaves --- */

  type ChatGroups = Groups<GroupKey, MessageId>

  function Linked(m: Message, sid: SessionId, n: nat): Message {
    m.(session := Some(sid), number := Some(n))
  }

  function SessionOf(key: GroupKey, members: seq<MessageId>, messages: Messages): Session
    requires members != [] && forall id <- members :: id in messages
  {
    Session(key.company, key.agent, "idle", "unknown", |members|, Dict(true, Some(BACKFILL_TAG), key.conversation),
            messages[members[0]].createdAt, messages[members[|members| - 1]].createdAt)
  }

  // groups holds the eligible ids, in (created_at, id) order, by key.
  ghost predicate GroupsOf(groups: ChatGroups, ids: seq<MessageId>, agents: Agents, messages: Messages) {
    IsSortedSet(ids, EligibleIds(agents, messages), Before(messages)) && IsGrouping(groups, ids, KeyOf(messages))
  }

  // Which group a message is in, and where in it.
  ghost predicate Placed(groups: ChatGroups, messages: Messages, id: MessageId) {
    var key := KeyOf(messages)(id);
    key in groups.keys && key in groups.members && id in groups.members[key]
  }

  ghost function GroupIndex(groups: ChatGroups, messages: Messages, id: MessageId): nat
    requires Placed(groups, messages, id)
  {
    IndexOf(groups.keys, KeyOf(messages)(id))
  }

  ghost function Position(groups: ChatGroups, messages: Messages, id: MessageId): nat
    requires Placed(groups, messages, id)
  {
    IndexOf(groups.members[KeyOf(messages)(id)], id)
  }

  // The messages after the first k groups are linked.
  ghost function LinkedUpTo(groups: ChatGroups, newId: nat -> SessionId, messages: Messages, k: nat): Messages {
    map id | id in messages ::
      if Placed(groups, messages, id) && GroupIndex(groups, messages, id) < k
      then Linked(messages[id], newId(GroupIndex(groups, messages, id)), Position(groups, messages, id) + 1)
      else messages[id]
  }

  ghost predicate MembersOk(groups: ChatGroups, messages: Messages) {
    forall key <- groups.keys :: key in groups.members && groups.members[key] != []
      && forall id <- groups.members[key] :: id in messages && KeyOf(messages)(id) == key
  }

  // The session rows, one per group.
  ghost function SessionRows(groups: ChatGroups, messages: Messages): seq<Session>
    requires MembersOk(groups, messages)
  {
    seq(|groups.keys|, i requires 0 <= i < |groups.keys| && groups.keys[i] in groups.keys =>
      SessionOf(groups.keys[i], groups.members[groups.keys[i]], messages))
  }

  // The sessions after the first k rows are inserted.
  ghost function Inserted(newId: nat -> SessionId, rows: seq<Session>, sessions: Sessions, k: nat): Sessions
    requires k <= |rows|
  {
    if k == 0 then sessions else Inserted(newId, rows, sessions, k - 1)[newId(k - 1) := rows[k - 1]]
  }

  lemma GroupFacts(groups: ChatGroups, ids: seq<MessageId>, agents: Agents, messages: Messages)
    requires GroupsOf(groups, ids, agents, messages)
    ensures MembersOk(groups, messages) && Distinct(groups.keys)
    ensures forall id <- messages :: Placed(groups, messages, id) <==> Eligible(agents, messages[id])
    ensures forall key <- groups.keys ::
              Distinct(groups.members[key]) && Ascending(groups.members[key], Before(messages))
    ensures forall key <- groups.keys, id <- groups.members[key] ::
              Placed(groups, messages, id) && Eligible(agents, messages[id])
  {
    forall id ensures id in ids <==> id in messages && Eligible(agents, messages[id]) {
      assert id in Elements(ids) <==> id in EligibleIds(agents, messages);
    }
    forall key | key in groups.keys
      ensures key in groups.members && groups.members[key] != []
      ensures forall id :: id in groups.members[key] <==> id in ids && KeyOf(messages)(id) == key
      ensures Distinct(groups.members[key]) && Ascending(groups.members[key], Before(messages))
    {
      assert key in Elements(groups.keys);
      UnderMembers(ids, KeyOf(messages), key);
      UnderAscends(ids, KeyOf(messages), key, Before(messages));
    }
    forall id | id in messages && Eligible(agents, messages[id]) ensures Placed(groups, messages, id) {
      var key := KeyOf(messages)(id);
      UnderMembers(ids, KeyOf(messages), key);
      assert id in Under(ids, KeyOf(messages), key);
      assert key in groups.members && key in Elements(groups.keys);
    }
  }

  lemma IndexOfAt<T>(s: seq<T>, i: nat)
    requires Distinct(s) && i < |s|
    ensures IndexOf(s, s[i]) == i
  {
  }

  // What LinkMembers does to one message.
  ghost predicate LinkedAt(members: seq<MessageId>, sid: SessionId, before: Messages, after: Messages, id: MessageId)
    requires id in before && id in after
  {
    after[id] == if id in members then Linked(before[id], sid, IndexOf(members, id) + 1) else before[id]
  }

  lemma SameLinks(members: seq<MessageId>, sid: SessionId, before: Messages, a: Messages, b: Messages)
    requires a.Keys == b.Keys == before.Keys
    requires forall id <- before :: LinkedAt(members, sid, before, a, id)
    requires forall id <- before :: LinkedAt(members, sid, before, b, id)
    ensures a == b
  {
    forall id | id in a ensures a[id] == b[id] {
      assert LinkedAt(members, sid, before, a, id) && LinkedAt(members, sid, before, b, id);
    }
  }

  // One more group linked.
  lemma LinkNext(groups: ChatGroups, newId: nat -> SessionId, messages: Messages, k: nat, before: Messages,
                 after: Messages)
    requires MembersOk(groups, messages) && Distinct(groups.keys) && k < |groups.keys|
    requires before == LinkedUpTo(groups, newId, messages, k)
    requires after.Keys == before.Keys
    requires forall id <- before :: LinkedAt(groups.members[groups.keys[k]], newId(k), before, after, id)
    ensures after == LinkedUpTo(groups, newId, messages, k + 1)
  {
    var next := LinkedUpTo(groups, newId, messages, k + 1);
    forall id | id in before ensures LinkedAt(groups.members[groups.keys[k]], newId(k), before, next, id) {
      LinkNextAt(groups, newId, messages, k, id);
    }
    SameLinks(groups.members[groups.keys[k]], newId(k), before, after, next);
  }

  lemma LinkNextAt(groups: ChatGroups, newId: nat -> SessionId, messages: Messages, k: nat, id: MessageId)
    requires MembersOk(groups, messages) && Distinct(groups.keys) && k < |groups.keys| && id in messages
    ensures LinkedAt(groups.members[groups.keys[k]], newId(k),
                     LinkedUpTo(groups, newId, messages, k), LinkedUpTo(groups, newId, messages, k + 1), id)
  {
    PlaceIn(groups, messages, id, k);
  }

  // A message is in the k-th group exactly when that is its place.
  lemma PlaceIn(groups: ChatGroups, messages: Messages, id: MessageId, k: nat)
    requires MembersOk(groups, messages) && Distinct(groups.keys) && k < |groups.keys|
    ensures id in groups.members[groups.keys[k]] <==>
            Placed(groups, messages, id) && GroupIndex(groups, messages, id) == k
    ensures id in groups.members[groups.keys[k]] ==> KeyOf(messages)(id) == groups.keys[k]
  {
    IndexOfAt(groups.keys, k);
  }

  lemma {:induction false} SessionOfGroup(newId: nat -> SessionId, rows: seq<Session>, sessions: Sessions, k: nat,
                                          i: nat)
    requires i < k <= |rows| && FreshIds(newId, sessions)
    ensures newId(i) in Inserted(newId, rows, sessions, k)
    ensures Inserted(newId, rows, sessions, k)[newId(i)] == rows[i]
  {
    if i == k - 1 {
    } else {
      SessionOfGroup(newId, rows, sessions, k - 1, i);
      assert newId(i) != newId(k - 1);
    }
  }

  lemma {:induction false} SessionsAdded(newId: nat -> SessionId, rows: seq<Session>, sessions: Sessions, k: nat)
    requires k <= |rows| && FreshIds(newId, sessions)
    ensures var after := Inserted(newId, rows, sessions, k);
            && (forall s <- sessions :: s in after && after[s] == sessions[s])
            && (forall s <- after :: s in sessions || exists i: nat :: i < k && s == newId(i))
  {
    if k == 0 {
    } else {
      SessionsAdded(newId, rows, sessions, k - 1);
      assert newId(k - 1) !in sessions;
    }
  }

  // Which messages the upgrade changes.
  lemma MessagesLinked(agents: Agents, groups: ChatGroups, ids: seq<MessageId>, newId: nat -> SessionId,
                       messages: Messages)
    requires GroupsOf(groups, ids, agents, messages)
    ensures forall id <- messages ::
              LinkedUpTo(groups, newId, messages, |groups.keys|)[id] != messages[id] <==>
              messages[id].session.None? && messages[id].agent in agents
              && agents[messages[id].agent] == messages[id].company
  {
    GroupFacts(groups, ids, agents, messages);
    forall id | id in messages && Placed(groups, messages, id)
      ensures LinkedUpTo(groups, newId, messages, |groups.keys|)[id].session.Some?
    {
      assert GroupIndex(groups, messages, id) < |groups.keys|;
    }
  }

  // Whose sessions it adds.
  lemma SessionsOwned(agents: Agents, groups: ChatGroups, ids: seq<MessageId>, newId: nat -> SessionId,
                      messages: Messages, sessions: Sessions)
    requires GroupsOf(groups, ids, agents, messages) && MembersOk(groups, messages) && FreshIds(newId, sessions)
    ensures var after := Inserted(newId, SessionRows(groups, messages), sessions, |groups.keys|);
            && (forall s <- sessions :: s in after && after[s] == sessions[s])
            && forall s <- after :: s !in sessions ==>
                 after[s].agent in agents && agents[after[s].agent] == after[s].company
  {
    var rows := SessionRows(groups, messages);
    var after := Inserted(newId, rows, sessions, |groups.keys|);
    SessionsAdded(newId, rows, sessions, |groups.keys|);
    forall s | s in after && s !in sessions
      ensures after[s].agent in agents && agents[after[s].agent] == after[s].company
    {
      var i: nat :| i < |groups.keys| && s == newId(i);
      SessionOfGroup(newId, rows, sessions, |groups.keys|, i);
      KeyOwned(agents, groups, ids, messages, groups.keys[i]);
    }
  }

  lemma KeyOwned(agents: Agents, groups: ChatGroups, ids: seq<MessageId>, messages: Messages, key: GroupKey)
    requires GroupsOf(groups, ids, agents, messages) && key in groups.keys
    ensures key.agent in agents && agents[key.agent] == key.company
  {
    GroupFacts(groups, ids, agents, messages);
    assert groups.members[key][0] in groups.members[key];
  }

  class ChatDatabase {
    const agents: Agents
    var messages: Messages
    var sessions: Sessions

    constructor (agents: Agents, messages: Messages, sessions: Sessions)
      ensures this.agents == agents && this.messages == messages && this.sessions == sessions
    {
      this.agents, this.messages, this.sessions := agents, messages, sessions;
    }

    // UPDATE chat_messages SET session_id = sid, seq = n WHERE id = mid, for n, m in enumerate(members, start=1)
    method LinkMembers(members: seq<MessageId>, sid: SessionId)
      requires Distinct(members) && forall id <- members :: id in messages
      modifies this`messages
      ensures messages.Keys == old(messages.Keys)
      ensures forall id <- messages :: LinkedAt(members, sid, old(messages), messages, id)
    {
      var n := 0;
      while n < |members|
        invariant n <= |members|
        invariant messages.Keys == old(messages.Keys)
        invariant forall id <- messages :: id !in members[..n] ==> messages[id] == old(messages)[id]
        invariant forall j :: 0 <= j < n ==> messages[members[j]] == Linked(old(messages)[members[j]], sid, j + 1)
      {
        var id := members[n];
        assert id !in members[..n];
        messages := messages[id := messages[id].(session := Some(sid), number := Some(n + 1))];
        n := n + 1;
      }
      assert members[..n] == members;
      forall id | id in members ensures messages[id] == Linked(old(messages)[id], sid, IndexOf(members, id) + 1) {
        IndexOfAt(members, IndexOf(members, id));
      }
    }

    method Upgrade(newId: nat -> SessionId) returns (ghost groups: ChatGroups, ghost ids: seq<MessageId>)
      requires FreshIds(newId, sessions)
      modifies this
      ensures GroupsOf(groups, ids, agents, old(messages)) && MembersOk(groups, old(messages))
      ensures messages == LinkedUpTo(groups, newId, old(messages), |groups.keys|)
      ensures sessions == Inserted(newId, SessionRows(groups, old(messages)), old(sessions), |groups.keys|)
      ensures messages.Keys == old(messages).Keys
      ensures forall id <- messages :: messages[id] != old(messages)[id] <==>
                var m := old(messages)[id]; m.session.None? && m.agent in agents && agents[m.agent] == m.company
      ensures forall s <- old(sessions) :: s in sessions && sessions[s] == old(sessions)[s]
      ensures forall s <- sessions :: s !in old(sessions) ==>
                sessions[s].agent in agents && agents[sessions[s].agent] == sessions[s].company
    {
      ghost var messages0, sessions0 := messages, sessions;
      BeforeIsTotal(messages);
      var rows := SortSet(EligibleIds(agents, messages), Before(messages));
      var byKey := GroupBy(rows, KeyOf(messages));
      groups, ids := byKey, rows;
      GroupFacts(groups, ids, agents, messages);
      assert messages == LinkedUpTo(groups, newId, messages0, 0);
      var k := 0;
      while k < |byKey.keys|
        invariant k <= |byKey.keys|
        invariant messages == LinkedUpTo(groups, newId, messages0, k)
        invariant sessions == Inserted(newId, SessionRows(groups, messages0), sessions0, k)
      {
        AddGroup(byKey, newId, k, messages0, sessions0);
        k := k + 1;
      }
      MessagesLinked(agents, groups, ids, newId, messages0);
      SessionsOwned(agents, groups, ids, newId, messages0, sessions0);
    }

    // One group: the session row, then its messages.
    method AddGroup(byKey: ChatGroups, newId: nat -> SessionId, k: nat, ghost messages0: Messages,
                    ghost sessions0: Sessions)
      requires MembersOk(byKey, messages0) && Distinct(byKey.keys) && k < |byKey.keys|
      requires Distinct(byKey.members[byKey.keys[k]])
      requires messages == LinkedUpTo(byKey, newId, messages0, k)
      requires sessions == Inserted(newId, SessionRows(byKey, messages0), sessions0, k)
      modifies this
      ensures messages == LinkedUpTo(byKey, newId, messages0, k + 1)
      ensures sessions == Inserted(newId, SessionRows(byKey, messages0), sessions0, k + 1)
    {
      var key := byKey.keys[k];
      var members := byKey.members[key];
      var sid := newId(k);
      var first, last := members[0], members[|members| - 1];
      assert first in members && last in members;
      UntouchedTimes(byKey, newId, messages0, k);
      assert SessionRows(byKey, messages0)[k] == SessionOf(key, members, messages0);
      sessions := sessions[sid := Session(key.company, key.agent, "idle", "unknown", |members|,
                                          Dict(true, Some(BACKFILL_TAG), key.conversation),
                                          messages[first].createdAt, messages[last].createdAt)];
      LinkGroup(byKey, newId, k, messages0);
    }

    method LinkGroup(byKey: ChatGroups, newId: nat -> SessionId, k: nat, ghost messages0: Messages)
      requires MembersOk(byKey, messages0) && Distinct(byKey.keys) && k < |byKey.keys|
      requires Distinct(byKey.members[byKey.keys[k]])
      requires messages == LinkedUpTo(byKey, newId, messages0, k)
      modifies this`messages
      ensures messages == LinkedUpTo(byKey, newId, messages0, k + 1)
    {
      ghost var before := messages;
      LinkMembers(byKey.members[byKey.keys[k]], newId(k));
      LinkNext(byKey, newId, messages0, k, before, messages);
    }

    // Ids of the sessions tagged by the backfill, in whatever order the query gives them.
    method SelectTagged() returns (ids: seq<SessionId>)
      ensures Distinct(ids) && Elements(ids) == TaggedIds(sessions)
    {
      ids := [];
      var rest := TaggedIds(sessions);
      while rest != {}
        invariant rest <= TaggedIds(sessions)
        invariant Distinct(ids) && Elements(ids) == TaggedIds(sessions) - rest
      {
        var id :| id in rest;
        assert id !in Elements(ids);
        assert Elements(ids + [id]) == Elements(ids) + {id};
        ids := ids + [id];
        rest := rest - {id};
      }
    }

    // UPDATE chat_messages SET session_id = NULL, seq = NULL WHERE session_id IN chunk
    method ClearLinks(chunk: set<SessionId>)
      modifies this`messages
      ensures messages == Unlinked(old(messages), chunk)
    {
      messages := map id | id in messages ::
        if messages[id].session.Some? && messages[id].session.value in chunk
        then messages[id].(session := None, number := None) else messages[id];
    }

    // DELETE FROM agent_sessions WHERE id IN chunk; the link is ON DELETE CASCADE.
    method DeleteSessions(chunk: set<SessionId>)
      modifies this
      ensures sessions == Without(old(sessions), chunk)
      ensures messages == map id | id in old(messages) && !PointsInto(old(messages)[id], chunk) :: old(messages)[id]
    {
      messages := map id | id in messages && !PointsInto(messages[id], chunk) :: messages[id];
      sessions := map s | s in sessions && s !in chunk :: sessions[s];
    }

    // The chunked loop comes to one bulk undo, whatever the order of the ids:
    // no message is lost to the cascade.
    method Downgrade()
      modifies this
      ensures messages == Unlinked(old(messages), TaggedIds(old(sessions)))
      ensures sessions == Without(old(sessions), TaggedIds(old(sessions)))
      ensures forall s ::
                s in sessions <==>
                s in old(sessions)
                && !(old(sessions)[s].metadata.Dict? && old(sessions)[s].metadata.backfill == Some("ws03"))
      ensures messages.Keys == old(messages).Keys
      ensures forall id <- messages :: var m := old(messages)[id];
                messages[id] == if m.session.Some? && m.session.value in old(sessions) && m.session.value !in sessions
                                then m.(session := None, number := None) else m
    {
      var backfilled := SelectTagged();
      var start := 0;
      assert messages == Unlinked(messages, {}) && sessions == Without(sessions, {});
      while start < |backfilled|
        invariant start <= |backfilled|
        invariant messages == Unlinked(old(messages), Elements(backfilled[..start]))
        invariant sessions == Without(old(sessions), Elements(backfilled[..start]))
      {
        var end := if start + CHUNK <= |backfilled| then start + CHUNK else |backfilled|;
        var chunk := Elements(backfilled[start..end]);
        UndoInTwo(old(messages), old(sessions), Elements(backfilled[..start]), chunk);
        assert backfilled[..end] == backfilled[..start] + backfilled[start..end];
        assert Elements(backfilled[..end]) == Elements(backfilled[..start]) + chunk;
        ClearLinks(chunk);
        DeleteSessions(chunk);
        start := end;
      }
      assert backfilled[..start] == backfilled;
    }
  }

  /* --- what the downgrade does, all at once --- */

  predicate PointsInto(m: Message, gone: set<SessionId>) {
    m.session.Some? && m.session.value in gone
  }

  function Unlinked(messages: Messages, gone: set<SessionId>): Messages {
    map id | id in messages ::
      if PointsInto(messages[id], gone) then messages[id].(session := None, number := None) else messages[id]
  }

  function Without(sessions: Sessions, gone: set<SessionId>): Sessions {
    map s | s in sessions && s !in gone :: sessions[s]
  }

  lemma UndoInTwo(messages: Messages, sessions: Sessions, a: set<SessionId>, b: set<SessionId>)
    ensures Unlinked(Unlinked(messages, a), b) == Unlinked(messages, a + b)
    ensures Without(Without(sessions, a), b) == Without(sessions, a + b)
    ensures forall id <- messages :: !PointsInto(Unlinked(messages, a + b)[id], b)
  {
  }

  lemma UntouchedTimes(groups: ChatGroups, newId: nat -> SessionId, messages: Messages, k: nat)
    ensures forall id <- messages :: LinkedUpTo(groups, newId, messages, k)[id].createdAt == messages[id].createdAt
  {
  }
}
