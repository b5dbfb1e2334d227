// What the chat backfill means, and when the downgrade undoes it exactly.
module ChatRoundTrip {
  import opened ChatBackfill
  import opened Grouping
  import opened Ordering
  import opened Wrappers

  // A database before and after the upgrade: the i-th new session is newId(i),
  // for the messages members[i], which have the key keys[i].
  datatype Backfill = Backfill(agents: Agents, newId: nat -> SessionId, keys: seq<GroupKey>,
                               members: seq<seq<MessageId>>,
                               messages: Messages, sessions: Sessions, messages': Messages, sessions': Sessions)

  ghost predicate GroupAt(b: Backfill, i: nat) {
    && i < |b.keys| && i < |b.members|
    && b.members[i] != [] && Distinct(b.members[i]) && Ascending(b.members[i], Before(b.messages))
  }

  ghost predicate MemberAt(b: Backfill, i: nat, j: nat) {
    && i < |b.keys| && i < |b.members| && j < |b.members[i]|
    && var id := b.members[i][j];
    && id in b.messages && Eligible(b.agents, b.messages[id]) && KeyOf(b.messages)(id) == b.keys[i]
    && id in b.messages' && b.messages'[id] == Linked(b.messages[id], b.newId(i), j + 1)
  }

  ghost predicate SessionAt(b: Backfill, i: nat) {
    && i < |b.keys| && i < |b.members| && b.members[i] != []
    && b.members[i][0] in b.messages && b.members[i][|b.members[i]| - 1] in b.messages
    && b.newId(i) in b.sessions'
    && b.sessions'[b.newId(i)] ==
       Session(b.keys[i].company, b.keys[i].agent, "idle", "unknown", |b.members[i]|,
               Dict(true, Some(BACKFILL_TAG), b.keys[i].conversation),
               b.messages[b.members[i][0]].createdAt, b.messages[b.members[i][|b.members[i]| - 1]].createdAt)
  }

  ghost predicate MessageAt(b: Backfill, id: MessageId) {
    && id in b.messages && id in b.messages'
    && if Eligible(b.agents, b.messages[id]) then exists i: nat, j: nat :: MemberAt(b, i, j) && b.members[i][j] == id
       else b.messages'[id] == b.messages[id]
  }

  ghost predicate IsBackfill(b: Backfill) {
    && |b.keys| == |b.members| && Distinct(b.keys) && FreshIds(b.newId, b.sessions)
    && b.messages'.Keys == b.messages.Keys
    && (forall i {:trigger GroupAt(b, i)} :: 0 <= i < |b.keys| ==> GroupAt(b, i))
    && (forall i, j {:trigger MemberAt(b, i, j)} :: 0 <= i < |b.keys| && 0 <= j < |b.members[i]| ==> MemberAt(b, i, j))
    && (forall i {:trigger SessionAt(b, i)} :: 0 <= i < |b.keys| ==> SessionAt(b, i))
    && (forall id {:trigger MessageAt(b, id)} :: id in b.messages ==> MessageAt(b, id))
    && (forall s <- b.sessions :: s in b.sessions' && b.sessions'[s] == b.sessions[s])
    && (forall s <- b.sessions' :: s in b.sessions || exists i: nat :: i < |b.keys| && s == b.newId(i))
  }

  /* --- Upgrade produces a backfill --- */

  function BackfillOf(agents: Agents, groups: ChatGroups, newId: nat -> SessionId, messages: Messages,
                      sessions: Sessions,
                      messages': Messages, sessions': Sessions): Backfill
    requires MembersOk(groups, messages)
  {
    Backfill(agents, newId, groups.keys,
             seq(|groups.keys|, i requires 0 <= i < |groups.keys| && groups.keys[i] in groups.members =>
               groups.members[groups.keys[i]]),
             messages, sessions, messages', sessions')
  }

  lemma UpgradeIsBackfill(agents: Agents, groups: ChatGroups, ids: seq<MessageId>, newId: nat -> SessionId,
                          messages: Messages, sessions: Sessions, messages': Messages, sessions': Sessions)
    requires GroupsOf(groups, ids, agents, messages) && MembersOk(groups, messages) && FreshIds(newId, sessions)
    requires messages' == LinkedUpTo(groups, newId, messages, |groups.keys|)
    requires sessions' == Inserted(newId, SessionRows(groups, messages), sessions, |groups.keys|)
    ensures IsBackfill(BackfillOf(agents, groups, newId, messages, sessions, messages', sessions'))
  {
    var b := BackfillOf(agents, groups, newId, messages, sessions, messages', sessions');
    GroupFacts(groups, ids, agents, messages);
    GroupsAndSessions(b, groups);
    MembersAndMessages(b, groups);
  }

  lemma GroupsAndSessions(b: Backfill, groups: ChatGroups)
    requires MembersOk(groups, b.messages) && FreshIds(b.newId, b.sessions)
    requires b == BackfillOf(b.agents, groups, b.newId, b.messages, b.sessions, b.messages', b.sessions')
    requires b.sessions' == Inserted(b.newId, SessionRows(groups, b.messages), b.sessions, |groups.keys|)
    requires forall key <- groups.keys ::
               Distinct(groups.members[key]) && Ascending(groups.members[key], Before(b.messages))
    ensures forall i {:trigger GroupAt(b, i)} :: 0 <= i < |b.keys| ==> GroupAt(b, i)
    ensures forall i {:trigger SessionAt(b, i)} :: 0 <= i < |b.keys| ==> SessionAt(b, i)
    ensures forall s <- b.sessions :: s in b.sessions' && b.sessions'[s] == b.sessions[s]
    ensures forall s <- b.sessions' :: s in b.sessions || exists i: nat :: i < |b.keys| && s == b.newId(i)
  {
    SessionsAdded(b.newId, SessionRows(groups, b.messages), b.sessions, |groups.keys|);
    forall i | 0 <= i < |b.keys| ensures GroupAt(b, i) && SessionAt(b, i) {
      var members := groups.members[groups.keys[i]];
      assert groups.keys[i] in groups.keys && members[0] in members && members[|members| - 1] in members;
      SessionOfGroup(b.newId, SessionRows(groups, b.messages), b.sessions, |groups.keys|, i);
    }
  }

  lemma MembersAndMessages(b: Backfill, groups: ChatGroups)
    requires MembersOk(groups, b.messages) && Distinct(groups.keys)
    requires b == BackfillOf(b.agents, groups, b.newId, b.messages, b.sessions, b.messages', b.sessions')
    requires b.messages' == LinkedUpTo(groups, b.newId, b.messages, |groups.keys|)
    requires forall key <- groups.keys :: Distinct(groups.members[key])
    requires forall id <- b.messages :: Placed(groups, b.messages, id) <==> Eligible(b.agents, b.messages[id])
    requires forall key <- groups.keys, id <- groups.members[key] ::
               Placed(groups, b.messages, id) && Eligible(b.agents, b.messages[id])
    ensures forall i, j {:trigger MemberAt(b, i, j)} :: 0 <= i < |b.keys| && 0 <= j < |b.members[i]| ==>
            MemberAt(b, i, j)
    ensures forall id {:trigger MessageAt(b, id)} :: id in b.messages ==> MessageAt(b, id)
    ensures b.messages'.Keys == b.messages.Keys
  {
    forall i, j | 0 <= i < |b.keys| && 0 <= j < |b.members[i]| ensures MemberAt(b, i, j) {
      MemberOfGroup(b.agents, groups, b.newId, b.messages, i, j);
    }
    forall id | id in b.messages ensures MessageAt(b, id) {
      if Eligible(b.agents, b.messages[id]) {
        var i, j := GroupIndex(groups, b.messages, id), Position(groups, b.messages, id);
        assert MemberAt(b, i, j) && b.members[i][j] == id;
      }
    }
  }

  lemma MemberOfGroup(agents: Agents, groups: ChatGroups, newId: nat -> SessionId, messages: Messages, i: nat, j: nat)
    requires MembersOk(groups, messages) && Distinct(groups.keys) && i < |groups.keys|
    requires forall key <- groups.keys :: Distinct(groups.members[key])
    requires forall key <- groups.keys, id <- groups.members[key] ::
               Placed(groups, messages, id) && Eligible(agents, messages[id])
    requires j < |groups.members[groups.keys[i]]|
    ensures var id := groups.members[groups.keys[i]][j];
            && id in messages && Eligible(agents, messages[id]) && KeyOf(messages)(id) == groups.keys[i]
            && LinkedUpTo(groups, newId, messages, |groups.keys|)[id] == Linked(messages[id], newId(i), j + 1)
  {
    var key := groups.keys[i];
    var id := groups.members[key][j];
    assert key in groups.keys && id in groups.members[key];
    IndexOfAt(groups.members[key], j);
    IndexOfAt(groups.keys, i);
  }

  /* --- what it means --- */

  lemma Locate(b: Backfill, id: MessageId) returns (i: nat, j: nat)
    requires IsBackfill(b) && id in b.messages && Eligible(b.agents, b.messages[id])
    ensures MemberAt(b, i, j) && b.members[i][j] == id
  {
    assert MessageAt(b, id);
    i, j :| MemberAt(b, i, j) && b.members[i][j] == id;
  }

  // Two backfilled messages share a session exactly when company, agent and
  // conversation agree. The session is new.
  lemma SharedSession(b: Backfill, x: MessageId, y: MessageId)
    requires IsBackfill(b) && x in b.messages && y in b.messages
    requires b.messages[x].session.None? && b.messages[y].session.None?
    requires b.messages[x].agent in b.agents && b.agents[b.messages[x].agent] == b.messages[x].company
    requires b.messages[y].agent in b.agents && b.agents[b.messages[y].agent] == b.messages[y].company
    ensures x in b.messages' && y in b.messages'
    ensures b.messages'[x].session == b.messages'[y].session <==>
            (b.messages[x].company == b.messages[y].company && b.messages[x].agent == b.messages[y].agent
             && b.messages[x].conversation == b.messages[y].conversation)
    ensures b.messages'[x].session.Some? && b.messages'[x].session.value !in b.sessions
  {
    var i, j := Locate(b, x);
    var k, l := Locate(b, y);
    assert b.newId(i) == b.newId(k) ==> i == k;
    assert b.keys[i] == b.keys[k] ==> i == k;
  }

  // Exactly the unlinked messages with an agent of their own company are linked;
  // the others are left as they were.
  lemma OthersUnchanged(b: Backfill, id: MessageId)
    requires IsBackfill(b) && id in b.messages
    ensures id in b.messages'
    ensures b.messages'[id] == b.messages[id] <==>
            !(b.messages[id].session.None? && b.messages[id].agent in b.agents
              && b.agents[b.messages[id].agent] == b.messages[id].company)
  {
    assert MessageAt(b, id);
  }

  // Within a session, numbers ascend in (created_at, id) order.
  lemma NumbersAscend(b: Backfill, x: MessageId, y: MessageId)
    requires IsBackfill(b)
    requires x in b.messages && y in b.messages && Eligible(b.agents, b.messages[x])
             && Eligible(b.agents, b.messages[y])
    requires x in b.messages' && y in b.messages' && b.messages'[x].session == b.messages'[y].session
    ensures b.messages'[x].number.Some? && b.messages'[y].number.Some?
    ensures b.messages'[x].number.value < b.messages'[y].number.value <==>
            b.messages[x].createdAt < b.messages[y].createdAt
                || (b.messages[x].createdAt == b.messages[y].createdAt && x < y)
  {
    var i, j := Locate(b, x);
    var k, l := Locate(b, y);
    assert b.newId(i) == b.newId(k) ==> i == k;
    assert GroupAt(b, i);
    InOrder(Before(b.messages), b.members[i], j, l);
  }

  lemma InOrder(leq: Order<MessageId>, s: seq<MessageId>, j: nat, l: nat)
    requires Ascending(s, leq) && Distinct(s) && j < |s| && l < |s|
    ensures j < l ==> leq(s[j], s[l]) && s[j] != s[l]
    ensures l < j ==> leq(s[l], s[j]) && s[j] != s[l]
  {
  }

  ghost predicate HasNumber(b: Backfill, id: MessageId, sid: SessionId, n: int) {
    && id in b.messages && Eligible(b.agents, b.messages[id]) && id in b.messages'
    && b.messages'[id].session == Some(sid) && b.messages'[id].number == Some(n)
  }

  // The session of a backfilled message: tagged, for its company, agent and
  // conversation, spanning its messages' times.
  lemma SessionOfMessage(b: Backfill, x: MessageId)
    requires IsBackfill(b) && x in b.messages && Eligible(b.agents, b.messages[x])
    ensures x in b.messages' && b.messages'[x].session.Some? && b.messages'[x].number.Some?
    ensures b.messages'[x].session.value in b.sessions'
    ensures var s := b.sessions'[b.messages'[x].session.value];
            && s.company == b.messages[x].company && s.agent == b.messages[x].agent
            && s.metadata == Dict(true, Some("ws03"), b.messages[x].conversation)
            && s.status == "idle" && s.adapter == "unknown"
            && 1 <= b.messages'[x].number.value <= s.eventSeq
            && s.startedAt <= b.messages[x].createdAt <= s.lastActivityAt
  {
    var i, j := Locate(b, x);
    assert GroupAt(b, i) && SessionAt(b, i);
    InOrder(Before(b.messages), b.members[i], 0, j);
    InOrder(Before(b.messages), b.members[i], j, |b.members[i]| - 1);
  }

  // Every number from 1 to event_seq is used in it; the first message sets
  // started_at, the last one last_activity_at.
  lemma NumbersComplete(b: Backfill, x: MessageId, n: int) returns (y: MessageId)
    requires IsBackfill(b) && x in b.messages && Eligible(b.agents, b.messages[x])
    requires x in b.messages' && b.messages'[x].session.Some? && b.messages'[x].session.value in b.sessions'
    requires 1 <= n <= b.sessions'[b.messages'[x].session.value].eventSeq
    ensures HasNumber(b, y, b.messages'[x].session.value, n)
    ensures var s := b.sessions'[b.messages'[x].session.value];
            && (n == 1 ==> b.messages[y].createdAt == s.startedAt)
            && (n == s.eventSeq ==> b.messages[y].createdAt == s.lastActivityAt)
  {
    var i, j := Locate(b, x);
    assert GroupAt(b, i) && SessionAt(b, i);
    assert MemberAt(b, i, n - 1);
    y := b.members[i][n - 1];
  }

  /* --- the round trip --- */

  // Downgrading right after the upgrade gives back messages and sessions
  // exactly, if and only if the database held no ws03 session before and no
  // message the upgrade links had a number.
  lemma RoundTrip(b: Backfill)
    requires IsBackfill(b) && LinksOk(b.messages, b.sessions)
    ensures Unlinked(b.messages', TaggedIds(b.sessions')) == b.messages
            && Without(b.sessions', TaggedIds(b.sessions')) == b.sessions
            <==>
            && (forall s <- b.sessions :: b.sessions[s].metadata.Dict? ==>
                  b.sessions[s].metadata.backfill != Some("ws03"))
            && forall id <- b.messages ::
                 var m := b.messages[id];
                 m.session.None? && m.agent in b.agents && b.agents[m.agent] == m.company ==> m.number.None?
  {
    NoneTagged(b.sessions);
    SessionsBack(b);
    if TaggedIds(b.sessions) == {} {
      MessagesBack(b);
    }
  }

  lemma NoneTagged(sessions: Sessions)
    ensures TaggedIds(sessions) == {} <==>
            forall s <- sessions :: sessions[s].metadata.Dict? ==> sessions[s].metadata.backfill != Some("ws03")
  {
    forall s | s in sessions && Tagged(sessions[s]) ensures s in TaggedIds(sessions) {
    }
  }

  lemma SessionsBack(b: Backfill)
    requires IsBackfill(b)
    ensures Without(b.sessions', TaggedIds(b.sessions')) == b.sessions <==> TaggedIds(b.sessions) == {}
  {
    var back := Without(b.sessions', TaggedIds(b.sessions'));
    forall s | s in b.sessions' && s !in b.sessions ensures Tagged(b.sessions'[s]) {
      var i: nat :| i < |b.keys| && s == b.newId(i);
      assert SessionAt(b, i);
    }
    if s :| s in TaggedIds(b.sessions) {
      assert s !in back && s in b.sessions;
    }
    forall s | s in b.sessions && s !in TaggedIds(b.sessions) ensures s in back && back[s] == b.sessions[s] {
    }
  }

  lemma MessagesBack(b: Backfill)
    requires IsBackfill(b) && LinksOk(b.messages, b.sessions) && TaggedIds(b.sessions) == {}
    ensures Unlinked(b.messages', TaggedIds(b.sessions')) == b.messages <==>
            forall id <- b.messages :: Eligible(b.agents, b.messages[id]) ==> b.messages[id].number.None?
  {
    var back := Unlinked(b.messages', TaggedIds(b.sessions'));
    forall id | id in b.messages
      ensures id in back
      ensures back[id] == if Eligible(b.agents, b.messages[id]) then b.messages[id].(number := None) else b.messages[id]
    {
      MessageBack(b, id);
    }
    assert back.Keys == b.messages.Keys;
    if back == b.messages {
      forall id | id in b.messages && Eligible(b.agents, b.messages[id]) ensures b.messages[id].number.None? {
        assert back[id] == b.messages[id].(number := None);
      }
    }
  }

  lemma MessageBack(b: Backfill, id: MessageId)
    requires IsBackfill(b) && LinksOk(b.messages, b.sessions) && TaggedIds(b.sessions) == {} && id in b.messages
    ensures id in b.messages'
    ensures Unlinked(b.messages', TaggedIds(b.sessions'))[id] ==
            if Eligible(b.agents, b.messages[id]) then b.messages[id].(number := None) else b.messages[id]
  {
    if Eligible(b.agents, b.messages[id]) {
      SessionOfMessage(b, id);
      var i, j := Locate(b, id);
    } else {
      OthersUnchanged(b, id);
      if b.messages[id].session.Some? {
        assert b.messages[id].session.value !in TaggedIds(b.sessions);
      }
    }
  }

  // Sessions and messages that came in between, not tagged and not linked to
  // tagged sessions, stay as they are.
  lemma InterimKept(messages: Messages, sessions: Sessions, moreMessages: Messages, moreSessions: Sessions)
    requires messages.Keys !! moreMessages.Keys && sessions.Keys !! moreSessions.Keys
    requires LinksOk(messages, sessions) && TaggedIds(moreSessions) == {}
    requires forall id <- moreMessages :: !PointsInto(moreMessages[id], TaggedIds(sessions))
    ensures Unlinked(messages + moreMessages, TaggedIds(sessions + moreSessions)) ==
            Unlinked(messages, TaggedIds(sessions)) + moreMessages
    ensures Without(sessions + moreSessions, TaggedIds(sessions + moreSessions)) ==
            Without(sessions, TaggedIds(sessions)) + moreSessions
  {
    var all := sessions + moreSessions;
    assert TaggedIds(all) == TaggedIds(sessions) by {
      forall s ensures s in TaggedIds(all) <==> s in TaggedIds(sessions) {
        assert s !in TaggedIds(moreSessions);
      }
    }
  }

  // Both migrations on one database.
  method UpgradeAndDowngrade(db: ChatDatabase, newId: nat -> SessionId)
    requires FreshIds(newId, db.sessions) && LinksOk(db.messages, db.sessions)
    modifies db
    ensures db.messages == old(db.messages) && db.sessions == old(db.sessions) <==>
            && (forall s <- old(db.sessions) :: old(db.sessions)[s].metadata.Dict? ==>
                  old(db.sessions)[s].metadata.backfill != Some("ws03"))
            && forall id <- old(db.messages) ::
                 var m := old(db.messages)[id];
                 m.session.None? && m.agent in db.agents && db.agents[m.agent] == m.company ==> m.number.None?
  {
    ghost var messages, sessions := db.messages, db.sessions;
    ghost var groups, ids := db.Upgrade(newId);
    UpgradeIsBackfill(db.agents, groups, ids, newId, messages, sessions, db.messages, db.sessions);
    RoundTrip(BackfillOf(db.agents, groups, newId, messages, sessions, db.messages, db.sessions));
    db.Downgrade();
  }
}
