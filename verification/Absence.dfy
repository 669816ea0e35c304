/** The unread count over whole runs, in terms of who was a member at each send. */
module Absence {
  import opened MessageStore
  import opened Unread

  // ---------------------------------------------------------------- what the log of actions says

  /** A send of this conversation. */
  predicate SendIn(a: Action, c: ConvId) {
    a.CommitSend? && a.message.conv == c
  }

  /** Some send of the conversation had the owner among its members. */
  ghost predicate WasMember(acts: seq<Action>, key: ConvKey) {
    exists a :: a in acts && SendIn(a, key.1) && key.0 in a.members
  }

  ghost predicate Sent(acts: seq<Action>, id: nat, c: ConvId) {
    exists a :: a in acts && SendIn(a, c) && a.id == id
  }

  /** The action recounts the owner's row: the owner reads in the conversation, or a message of it is recalled. */
  ghost predicate Recounts(acts: seq<Action>, a: Action, key: ConvKey) {
    match a
    case CommitRead(id, u, _) => u == key.0 && Sent(acts, id, key.1)
    case CommitReadUpTo(c, u, _, _) => u == key.0 && c == key.1
    case CommitRecall(id, _) => Sent(acts, id, key.1)
    case _ => false
  }

  /** The messages of the conversation sent while the owner was not a member, since the last recount of
  the owner's row. */
  ghost function SentWhileAbsent(acts: seq<Action>, key: ConvKey): set<nat>
    decreases |acts|
  {
    if acts == [] then {} else
    var before, a := acts[..|acts| - 1], acts[|acts| - 1];
    if SendIn(a, key.1) && key.0 !in a.members then SentWhileAbsent(before, key) + {a.id}
    else if WasMember(before, key) && Recounts(before, a, key) then {}
    else SentWhileAbsent(before, key)
  }

  // ---------------------------------------------------------------- the tables against the log

  lemma {:induction false} RunsLast(s: Store, acts: seq<Action>)
    requires Runs(s, acts) && acts != []
    ensures var before, a := acts[..|acts| - 1], acts[|acts| - 1];
            Runs(s, before) && Enabled(After(s, before), a) && After(s, acts) == Apply(After(s, before), a)
    decreases |acts|
  {
    var before := acts[..|acts| - 1];
    if |acts| == 1 {
      assert before == [] && acts[1..] == [];
    } else {
      assert acts[1..][..|acts| - 2] == before[1..] && before[0] == acts[0];
      RunsLast(Apply(s, acts[0]), acts[1..]);
    }
  }

  lemma RowsStep(s: Store, a: Action, key: ConvKey)
    requires Enabled(s, a)
    ensures key in Apply(s, a).convs <==> key in s.convs || (SendIn(a, key.1) && key.0 in a.members)
  {
    if a.CommitSend? { SendFrame(s, a.id, a.message, a.members, key); }
  }

  lemma MessagesStep(s: Store, a: Action, id: nat, c: ConvId)
    requires Enabled(s, a)
    ensures id in InConv(Apply(s, a), c) <==> id in InConv(s, c) || (SendIn(a, c) && a.id == id)
  {
  }

  lemma {:induction false} RowsAreMembers(acts: seq<Action>, key: ConvKey)
    requires Runs(Empty, acts)
    ensures key in After(Empty, acts).convs <==> WasMember(acts, key)
    decreases |acts|
  {
    if acts != [] {
      var before, a := acts[..|acts| - 1], acts[|acts| - 1];
      RunsLast(Empty, acts);
      RowsAreMembers(before, key);
      RowsStep(After(Empty, before), a, key);
      assert acts == before + [a];
      assert forall b :: b in acts <==> b in before || b == a;
    }
  }

  lemma {:induction false} MessagesWereSent(acts: seq<Action>, id: nat, c: ConvId)
    requires Runs(Empty, acts)
    ensures id in InConv(After(Empty, acts), c) <==> Sent(acts, id, c)
    decreases |acts|
  {
    if acts != [] {
      var before, a := acts[..|acts| - 1], acts[|acts| - 1];
      RunsLast(Empty, acts);
      MessagesWereSent(before, id, c);
      MessagesStep(After(Empty, before), a, id, c);
      assert acts == before + [a];
      assert forall b :: b in acts <==> b in before || b == a;
    }
  }

  // ---------------------------------------------------------------- what a row was not told about

  /** Messages of the conversation that the row was not told about. */
  ghost function Untold(s: Store, key: ConvKey): set<nat> {
    InConv(s, key.1) - Counted(s, key)
  }

  /** What is needed of the bookkeeping. */
  ghost predicate Sound(s: Store, key: ConvKey) {
    (key in s.counted ==> key in s.convs) && Counted(s, key) <= InConv(s, key.1)
  }

  lemma SendUntold(s: Store, id: nat, m: Message, members: seq<nat>, key: ConvKey)
    requires Enabled(s, CommitSend(id, m, members)) && Sound(s, key)
    ensures Untold(SendApply(s, id, m, members), key)
         == if m.conv == key.1 && key.0 !in members then Untold(s, key) + {id} else Untold(s, key)
  {
    var s' := SendApply(s, id, m, members);
    SendFrame(s, id, m, members, key);
    assert InConv(s', key.1) == if m.conv == key.1 then InConv(s, key.1) + {id} else InConv(s, key.1);
    assert key in KeysFor(members, m.conv) <==> m.conv == key.1 && key.0 in members;
  }

  lemma RecountUntold(s: Store, c: ConvId, owners: set<nat>, key: ConvKey)
    requires key in s.counted ==> key in s.convs
    ensures Untold(Recalculated(s, c, owners), key)
         == if key in s.convs && key.1 == c && key.0 in owners then {} else Untold(s, key)
  {
    var s' := Recalculated(s, c, owners);
    assert InConv(s', key.1) == InConv(s, key.1);
  }

  lemma RecallUntold(s: Store, id: nat, e: nat, key: ConvKey)
    requires id in s.messages && (key in s.counted ==> key in s.convs)
    ensures Untold(RecallApply(s, id, e), key)
         == if key in s.convs && key.1 == s.messages[id].conv then {} else Untold(s, key)
  {
    var s1, c := Recalled(s, id, e), s.messages[id].conv;
    assert InConv(s1, key.1) == InConv(s, key.1);
    RecountUntold(s1, c, Owners(s1, c), key);
    var s2, s' := Recalculated(s1, c, Owners(s1, c)), RecallApply(s, id, e);
    assert s'.counted == s2.counted && s'.messages == s2.messages;
    assert Untold(s', key) == Untold(s2, key);
  }

  /** The recounts, read off the tables. */
  predicate RecountsRow(s: Store, a: Action, key: ConvKey)
    requires Enabled(s, a)
  {
    match a
    case CommitRead(id, u, _) => u == key.0 && s.messages[id].conv == key.1
    case CommitReadUpTo(c, u, _, _) => u == key.0 && c == key.1
    case CommitRecall(id, _) => s.messages[id].conv == key.1
    case _ => false
  }

  lemma ReadUntold(s: Store, receipts: map<(nat, nat), Receipt>, c: ConvId, u: nat, key: ConvKey)
    requires Sound(s, key)
    ensures Untold(Recalculated(s.(receipts := receipts), c, {u}), key)
         == if key in s.convs && key.1 == c && key.0 == u then {} else Untold(s, key)
  {
    var s1 := s.(receipts := receipts);
    assert InConv(s1, key.1) == InConv(s, key.1) && Counted(s1, key) == Counted(s, key);
    RecountUntold(s1, c, {u}, key);
  }

  lemma OtherUntold(s: Store, a: Action, key: ConvKey)
    requires Enabled(s, a) && (a.CommitAck? || a.DeleteConversation? || a.CacheSet? || a.CacheDrop? || a.ReplyOk?)
    ensures Untold(Apply(s, a), key) == Untold(s, key)
  {
    assert InConv(Apply(s, a), key.1) == InConv(s, key.1);
  }

  lemma UntoldStep(s: Store, a: Action, key: ConvKey)
    requires Sound(s, key) && Enabled(s, a)
    ensures Untold(Apply(s, a), key)
         == if SendIn(a, key.1) && key.0 !in a.members then Untold(s, key) + {a.id}
            else if key in s.convs && RecountsRow(s, a, key) then {}
            else Untold(s, key)
  {
    match a
    case CommitSend(id, m, members) => SendUntold(s, id, m, members, key);
    case CommitRead(id, u, now) =>
      ReadUntold(s, s.receipts[(id, u) := MarkedRead(s.receipts, id, u, now)], s.messages[id].conv, u, key);
    case CommitReadUpTo(c, u, cursor, now) => ReadUntold(s, ReadUpTo(s, c, u, cursor, now), c, u, key);
    case CommitRecall(id, e) => RecallUntold(s, id, e, key);
    case _ => OtherUntold(s, a, key);
  }

  lemma RecountsMatch(acts: seq<Action>, a: Action, key: ConvKey)
    requires Runs(Empty, acts) && Enabled(After(Empty, acts), a)
    ensures RecountsRow(After(Empty, acts), a, key) <==> Recounts(acts, a, key)
  {
    if a.CommitRead? || a.CommitRecall? { MessagesWereSent(acts, a.id, key.1); }
  }

  lemma SoundRow(s: Store, key: ConvKey)
    requires UnreadInv(s)
    ensures Sound(s, key)
  {
    if key in s.convs { assert RowInv(s, key); }
  }

  /** In every reachable state a row, or the place of one, was not told about exactly the messages sent
  while its owner was absent. */
  lemma {:induction false} UntoldIsAbsent(acts: seq<Action>, key: ConvKey)
    requires Runs(Empty, acts)
    ensures Untold(After(Empty, acts), key) == SentWhileAbsent(acts, key)
    decreases |acts|
  {
    if acts != [] {
      var before, a := acts[..|acts| - 1], acts[|acts| - 1];
      RunsLast(Empty, acts);
      var s := After(Empty, before);
      UntoldIsAbsent(before, key);
      RunKeepsUnread(Empty, before);
      SoundRow(s, key);
      UntoldStep(s, a, key);
      RowsAreMembers(before, key);
      RecountsMatch(before, a, key);
    }
  }

  // ---------------------------------------------------------------- theorems

  /** The unread messages among those sent while the owner was absent. */
  ghost function UnreadWhileAbsent(acts: seq<Action>, key: ConvKey): set<nat>
    requires Runs(Empty, acts)
  {
    set m | m in SentWhileAbsent(acts, key) && Countable(After(Empty, acts), key.0, m)
  }

  /** For every run and every row, of a group or a single chat: the stored count falls short of the
  recount by the unread messages sent while the owner was absent since the row's last recount, so the two
  agree if and only if there are none. */
  lemma StoredCountExact(acts: seq<Action>, key: ConvKey)
    requires Runs(Empty, acts) && key in After(Empty, acts).convs
    ensures var s := After(Empty, acts);
            && s.convs[key].unread + |UnreadWhileAbsent(acts, key)| == Recount(s, key.0, key.1)
            && (s.convs[key].unread == Recount(s, key.0, key.1) <==> UnreadWhileAbsent(acts, key) == {})
  {
    var s := After(Empty, acts);
    UnreadExact(acts, key);
    UntoldIsAbsent(acts, key);
    assert UnreadWhileAbsent(acts, key) == MissedUnread(s, key);
  }

  /** The owner was a member at every send of the conversation from the `n`-th action on. */
  ghost predicate PresentSince(acts: seq<Action>, key: ConvKey, n: nat) {
    forall i :: n <= i < |acts| && SendIn(acts[i], key.1) ==> key.0 in acts[i].members
  }

  /** The action before the `n`-th recounted the row, or the run began there. */
  ghost predicate FreshAt(acts: seq<Action>, key: ConvKey, n: nat) {
    n == 0 || (n <= |acts| && WasMember(acts[..n - 1], key) && Recounts(acts[..n - 1], acts[n - 1], key))
  }

  lemma {:induction false} PresentMissesNothing(acts: seq<Action>, key: ConvKey, n: nat)
    requires n <= |acts| && FreshAt(acts, key, n) && PresentSince(acts, key, n)
    ensures SentWhileAbsent(acts, key) == {}
    decreases |acts|
  {
    if n < |acts| {
      var before := acts[..|acts| - 1];
      assert n > 0 ==> before[..n - 1] == acts[..n - 1] && before[n - 1] == acts[n - 1];
      PresentMissesNothing(before, key, n);
    }
  }

  /** Whoever was a member at every send of the conversation, or at every one since their row was last
  recounted, has the right count. */
  lemma PresentCountsRight(acts: seq<Action>, key: ConvKey, n: nat)
    requires Runs(Empty, acts) && key in After(Empty, acts).convs
    requires n <= |acts| && FreshAt(acts, key, n) && PresentSince(acts, key, n)
    ensures var s := After(Empty, acts); s.convs[key].unread == Recount(s, key.0, key.1)
  {
    PresentMissesNothing(acts, key, n);
    StoredCountExact(acts, key);
  }

  // ---------------------------------------------------------------- two ways to miss a message

  const GROUP := GroupChat(9)

  function Note(at: int): Message { Message(GROUP, 1, 0, 0, false, at) }

  /** User 1 has sent these notes to the group, nobody has read any, and this is user 3's row. */
  ghost predicate Notes(s: Store, ids: set<nat>, unread: Option<nat>) {
    && s.messages.Keys == ids && s.events.Keys == ids && s.receipts == map[]
    && (forall m :: m in ids ==> s.messages[m].conv == GROUP && s.messages[m].from == 1 && !s.messages[m].recalled)
    && ((3, GROUP) in s.convs <==> unread.Some?)
    && (unread.Some? ==> s.convs[(3, GROUP)].unread == unread.value)
  }

  lemma NotesRecount(s: Store, ids: set<nat>, unread: Option<nat>)
    requires Notes(s, ids, unread)
    ensures Recount(s, 3, GROUP) == |ids|
  {
    assert UnreadSet(s, 3, GROUP) == ids;
  }

  function NextUnread(unread: Option<nat>, members: seq<nat>): Option<nat> {
    if 3 !in members then unread else if unread.Some? then Some(unread.value + 1) else Some(1)
  }

  lemma NoteSent(s: Store, ids: set<nat>, unread: Option<nat>, id: nat, at: int, members: seq<nat>)
    requires Notes(s, ids, unread) && id !in ids && Distinct(members)
    ensures Enabled(s, CommitSend(id, Note(at), members))
    ensures Notes(SendApply(s, id, Note(at), members), ids + {id}, NextUnread(unread, members))
  {
    SendFrame(s, id, Note(at), members, (3, GROUP));
    assert (3, GROUP) in KeysFor(members, GROUP) <==> 3 in members;
  }

  lemma OneNote(s: Store, ids: set<nat>, unread: Option<nat>, id: nat, at: int, members: seq<nat>)
    requires Notes(s, ids, unread) && id !in ids && Distinct(members)
    ensures var acts := [CommitSend(id, Note(at), members)];
            Runs(s, acts) && Notes(After(s, acts), ids + {id}, NextUnread(unread, members))
  {
    NoteSent(s, ids, unread, id, at, members);
    var a := CommitSend(id, Note(at), members);
    assert [a][1..] == [];
    assert Runs(Apply(s, a), []);
  }

  lemma NoteThen(s: Store, a: Action, rest: seq<Action>)
    requires Enabled(s, a) && Runs(Apply(s, a), rest)
    ensures Runs(s, [a] + rest) && After(s, [a] + rest) == After(Apply(s, a), rest)
  {
    assert ([a] + rest)[1..] == rest;
  }

  lemma TwoNotes(s: Store, ids: set<nat>, unread: Option<nat>, id: nat, at: int, members: seq<nat>, id2: nat, at2: int,
                 members2: seq<nat>)
    requires Notes(s, ids, unread) && id !in ids && Distinct(members) && id2 !in ids + {id} && Distinct(members2)
    ensures var acts := [CommitSend(id, Note(at), members)] + [CommitSend(id2, Note(at2), members2)];
            Runs(s, acts) && Notes(After(s, acts), ids + {id} + {id2},
                                   NextUnread(NextUnread(unread, members), members2))
  {
    NoteSent(s, ids, unread, id, at, members);
    OneNote(SendApply(s, id, Note(at), members), ids + {id}, NextUnread(unread, members), id2, at2, members2);
    NoteThen(s, CommitSend(id, Note(at), members), [CommitSend(id2, Note(at2), members2)]);
  }

  lemma NoteThenTwo(s: Store, ids: set<nat>, unread: Option<nat>, id: nat, at: int, members: seq<nat>,
                    id2: nat, at2: int, members2: seq<nat>, id3: nat, at3: int, members3: seq<nat>)
    requires Notes(s, ids, unread) && id !in ids && Distinct(members) && id2 !in ids + {id} && Distinct(members2)
    requires id3 !in ids + {id} + {id2} && Distinct(members3)
    ensures var acts := [CommitSend(id, Note(at), members)]
            + ([CommitSend(id2, Note(at2), members2)] + [CommitSend(id3, Note(at3), members3)]);
            && Runs(s, acts)
            && Notes(After(s, acts), ids + {id} + {id2} + {id3},
                     NextUnread(NextUnread(NextUnread(unread, members), members2), members3))
  {
    NoteSent(s, ids, unread, id, at, members);
    TwoNotes(SendApply(s, id, Note(at), members), ids + {id}, NextUnread(unread, members), id2, at2, members2, id3, at3,
             members3);
    NoteThen(s, CommitSend(id, Note(at), members),
             [CommitSend(id2, Note(at2), members2)] + [CommitSend(id3, Note(at3), members3)]);
  }

  /** In groups the count can be wrong: somebody who joins between two messages has one unread message by
  the stored count and two by the recount. */
  lemma LateJoinerMiscounts()
    ensures var acts := [CommitSend(100, Note(5), [1, 2])] + [CommitSend(101, Note(6), [1, 2, 3])];
            Runs(Empty, acts) && var s := After(Empty, acts);
            (3, GROUP) in s.convs && s.convs[(3, GROUP)].unread == 1 && Recount(s, 3, GROUP) == 2
  {
    assert [1, 2, 3][2] == 3;
    TwoNotes(Empty, {}, None, 100, 5, [1, 2], 101, 6, [1, 2, 3]);
    var acts := [CommitSend(100, Note(5), [1, 2])] + [CommitSend(101, Note(6), [1, 2, 3])];
    NotesRecount(After(Empty, acts), {} + {100} + {101}, Some(1));
  }

  /** So it can for somebody who had a row all along: a member leaves the group, a message is sent, the
  member comes back. The row counts two unread messages and the recount three. */
  lemma RejoinerMiscounts()
    ensures var acts := [CommitSend(100, Note(5), [1, 2, 3])]
            + ([CommitSend(101, Note(6), [1, 2])] + [CommitSend(102, Note(7), [1, 2, 3])]);
            Runs(Empty, acts) && var s := After(Empty, acts);
            (3, GROUP) in s.convs && s.convs[(3, GROUP)].unread == 2 && Recount(s, 3, GROUP) == 3
  {
    assert [1, 2, 3][2] == 3;
    NoteThenTwo(Empty, {}, None, 100, 5, [1, 2, 3], 101, 6, [1, 2], 102, 7, [1, 2, 3]);
    var acts := [CommitSend(100, Note(5), [1, 2, 3])]
        + ([CommitSend(101, Note(6), [1, 2])] + [CommitSend(102, Note(7), [1, 2, 3])]);
    NotesRecount(After(Empty, acts), {} + {100} + {101} + {102}, Some(2));
  }
}
