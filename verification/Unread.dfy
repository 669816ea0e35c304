/** The incrementally maintained unread_count against the recount. */
module Unread {
  import opened MessageStore

  ghost function CountableIn(s: Store, owner: nat, known: set<nat>): set<nat> {
    set m | m in known && Countable(s, owner, m)
  }

  /** Messages the owner's row has been told about and that still count. */
  ghost function KnownUnread(s: Store, key: ConvKey): set<nat> {
    CountableIn(s, key.0, Counted(s, key))
  }

  /** Messages that count but that the row was never told about: they were sent while the owner
  was not among the upserted members, and no recount has happened since. */
  ghost function MissedUnread(s: Store, key: ConvKey): set<nat> {
    UnreadSet(s, key.0, key.1) - Counted(s, key)
  }

  ghost predicate RowInv(s: Store, key: ConvKey)
    requires key in s.convs
  {
    && Counted(s, key) <= InConv(s, key.1)
    && s.convs[key].unread == |KnownUnread(s, key)|
  }

  ghost predicate UnreadInv(s: Store) {
    && (forall m, u :: (m, u) in s.receipts ==> m in s.messages)
    && (forall key :: key in s.counted ==> key in s.convs)
    && (forall key :: key in s.convs ==> RowInv(s, key))
  }

  /** A row whose conversation an action leaves alone. */
  lemma RowKept(s: Store, s': Store, key: ConvKey)
    requires key in s.convs && RowInv(s, key) && key in s'.convs
    requires s'.convs[key].unread == s.convs[key].unread && Counted(s', key) == Counted(s, key)
    requires InConv(s, key.1) <= InConv(s', key.1)
    requires forall m :: m in Counted(s, key) ==> Countable(s', key.0, m) == Countable(s, key.0, m)
    ensures RowInv(s', key)
  {
    assert KnownUnread(s', key) == KnownUnread(s, key);
  }

  lemma RowSame(s: Store, s': Store, key: ConvKey)
    requires key in s.convs && RowInv(s, key) && key in s'.convs && s'.convs[key].unread == s.convs[key].unread
    requires s'.counted == s.counted && s'.messages == s.messages && s'.receipts == s.receipts
    ensures RowInv(s', key)
  {
    RowKept(s, s', key);
  }

  lemma CountableGrows(s: Store, s': Store, owner: nat, known: set<nat>, id: nat)
    requires id !in known
    requires forall m :: m in known ==> Countable(s', owner, m) == Countable(s, owner, m)
    ensures |CountableIn(s', owner, known + {id})| == |CountableIn(s, owner, known)| + if Countable(s', owner, id) then
            1 else 0
  {
    var before, after := CountableIn(s, owner, known), CountableIn(s', owner, known + {id});
    if Countable(s', owner, id) {
      assert after == before + {id};
    } else {
      assert after == before;
    }
  }

  /** One more message known to a row. */
  lemma KnownGrows(s: Store, s': Store, key: ConvKey, id: nat)
    requires Counted(s', key) == Counted(s, key) + {id} && id !in Counted(s, key)
    requires forall m :: m in Counted(s, key) ==> Countable(s', key.0, m) == Countable(s, key.0, m)
    ensures |KnownUnread(s', key)| == |KnownUnread(s, key)| + if Countable(s', key.0, id) then 1 else 0
  {
    CountableGrows(s, s', key.0, Counted(s, key), id);
  }

  /** A recounted row. */
  lemma RowRecounted(s: Store, c: ConvId, owners: set<nat>, key: ConvKey)
    requires key in s.convs && key.1 == c && key.0 in owners
    ensures RowInv(Recalculated(s, c, owners), key)
  {
    var s' := Recalculated(s, c, owners);
    assert Counted(s', key) == InConv(s, c);
    assert KnownUnread(s', key) == UnreadSet(s, key.0, c);
  }

  lemma RecalculatedFrame(s: Store, c: ConvId, owners: set<nat>, key: ConvKey)
    requires key in s.convs && !(key.1 == c && key.0 in owners)
    ensures var s' := Recalculated(s, c, owners);
            key in s'.convs && s'.convs[key] == s.convs[key] && Counted(s', key) == Counted(s, key)
  {
  }

  /** What a send does to one row. */
  lemma SendFrame(s: Store, id: nat, m: Message, members: seq<nat>, key: ConvKey)
    ensures var s' := SendApply(s, id, m, members);
            if key in KeysFor(members, m.conv)
            then key in s'.convs && s'.convs[key] == UpsertOne(s.convs, key, id, UnreadInc(m.from, key.0))
                 && Counted(s', key) == Counted(s, key) + {id}
            else (key in s'.convs <==> key in s.convs) && (key in s.convs ==> s'.convs[key] == s.convs[key])
                 && Counted(s', key) == Counted(s, key)
  {
  }

  lemma SendCountable(s: Store, id: nat, m: Message, members: seq<nat>, owner: nat, x: nat)
    requires UnreadInv(s) && Enabled(s, CommitSend(id, m, members))
    ensures var s' := SendApply(s, id, m, members);
            && (x in s.messages ==> Countable(s', owner, x) == Countable(s, owner, x))
            && (x == id ==> Countable(s', owner, x) == (m.from != owner))
  {
  }

  lemma SendUpserts(s: Store, id: nat, m: Message, members: seq<nat>, key: ConvKey)
    requires UnreadInv(s) && Enabled(s, CommitSend(id, m, members)) && key in KeysFor(members, m.conv)
    ensures key in SendApply(s, id, m, members).convs && RowInv(SendApply(s, id, m, members), key)
  {
    SendFrame(s, id, m, members, key);
    SendKnows(s, id, m, members, key);
    SendCountable(s, id, m, members, key.0, id);
    SendExtends(s, id, m, members, key);
  }

  lemma SendExtends(s: Store, id: nat, m: Message, members: seq<nat>, key: ConvKey)
    requires UnreadInv(s) && Enabled(s, CommitSend(id, m, members)) && key in KeysFor(members, m.conv)
    ensures Counted(s, key) + {id} <= InConv(SendApply(s, id, m, members), key.1)
    ensures key !in s.convs ==> |KnownUnread(s, key)| == 0
    ensures key in s.convs ==> |KnownUnread(s, key)| == s.convs[key].unread
  {
    if key in s.convs { assert RowInv(s, key); } else { assert Counted(s, key) == {} && KnownUnread(s, key) == {}; }
  }

  lemma SendKnows(s: Store, id: nat, m: Message, members: seq<nat>, key: ConvKey)
    requires UnreadInv(s) && Enabled(s, CommitSend(id, m, members)) && key in KeysFor(members, m.conv)
    ensures var s' := SendApply(s, id, m, members);
            |KnownUnread(s', key)| == |KnownUnread(s, key)| + if Countable(s', key.0, id) then 1 else 0
  {
    SendFrame(s, id, m, members, key);
    if key in s.convs { assert RowInv(s, key); }
    forall x | x in Counted(s, key)
      ensures Countable(SendApply(s, id, m, members), key.0, x) == Countable(s, key.0, x)
    {
      SendCountable(s, id, m, members, key.0, x);
    }
    KnownGrows(s, SendApply(s, id, m, members), key, id);
  }

  lemma SendRow(s: Store, id: nat, m: Message, members: seq<nat>, key: ConvKey)
    requires UnreadInv(s) && Enabled(s, CommitSend(id, m, members)) && key in SendApply(s, id, m, members).convs
    ensures RowInv(SendApply(s, id, m, members), key)
  {
    if key in KeysFor(members, m.conv) {
      SendUpserts(s, id, m, members, key);
    } else {
      SendFrame(s, id, m, members, key);
      assert RowInv(s, key);
      forall x | x in Counted(s, key)
        ensures Countable(SendApply(s, id, m, members), key.0, x) == Countable(s, key.0, x)
      {
        SendCountable(s, id, m, members, key.0, x);
      }
      RowKept(s, SendApply(s, id, m, members), key);
    }
  }

  lemma SendKeeps(s: Store, id: nat, m: Message, members: seq<nat>)
    requires UnreadInv(s) && Enabled(s, CommitSend(id, m, members))
    ensures UnreadInv(SendApply(s, id, m, members))
  {
    var s' := SendApply(s, id, m, members);
    forall key | key in s'.convs ensures RowInv(s', key) { SendRow(s, id, m, members, key); }
  }

  /** Receipts of one user change and that user's row of the conversation is recounted. */
  lemma ReadRow(s: Store, s1: Store, c: ConvId, u: nat, key: ConvKey)
    requires UnreadInv(s) && s1 == s.(receipts := s1.receipts) && key in s.convs
    requires forall m, v :: v != u || m !in InConv(s, c) ==> ReadAt(s1, m, v) == ReadAt(s, m, v)
    ensures RowInv(Recalculated(s1, c, {u}), key)
  {
    assert RowInv(s, key);
    if key.1 == c && key.0 == u {
      RowRecounted(s1, c, {u}, key);
    } else {
      RecalculatedFrame(s1, c, {u}, key);
      RowKept(s, Recalculated(s1, c, {u}), key);
    }
  }

  lemma ReadKeeps(s: Store, s1: Store, c: ConvId, u: nat)
    requires UnreadInv(s) && s1 == s.(receipts := s1.receipts)
    requires forall m, v :: (m, v) in s1.receipts ==> m in s.messages
    requires forall m, v :: v != u || m !in InConv(s, c) ==> ReadAt(s1, m, v) == ReadAt(s, m, v)
    ensures UnreadInv(Recalculated(s1, c, {u}))
  {
    var s' := Recalculated(s1, c, {u});
    forall key | key in s'.convs ensures RowInv(s', key) { ReadRow(s, s1, c, u, key); }
  }

  /** The message row and the event row of a recall. */
  ghost function Recalled(s: Store, id: nat, e: nat): Store
    requires id in s.messages
  {
    s.(messages := s.messages[id := s.messages[id].(recalled := true)], events := s.events[e := id])
  }

  /** The last step of a recall only marks previews. */
  lemma RecallFrame(s: Store, id: nat, e: nat, key: ConvKey)
    requires id in s.messages && key in s.convs
    ensures var c := s.messages[id].conv;
            var s2 := Recalculated(Recalled(s, id, e), c, Owners(Recalled(s, id, e), c));
            var s' := RecallApply(s, id, e);
            && key in s2.convs && key in s'.convs && s'.convs[key].unread == s2.convs[key].unread
            && s'.counted == s2.counted && s'.messages == s2.messages && s'.receipts == s2.receipts
            && s2.messages == Recalled(s, id, e).messages && s2.receipts == s.receipts
  {
  }

  lemma RecallHere(s: Store, id: nat, e: nat, key: ConvKey)
    requires id in s.messages && key in s.convs && key.1 == s.messages[id].conv
    ensures key in RecallApply(s, id, e).convs && RowInv(RecallApply(s, id, e), key)
  {
    var c := s.messages[id].conv;
    var s1 := Recalled(s, id, e);
    RecallFrame(s, id, e, key);
    RowRecounted(s1, c, Owners(s1, c), key);
    RowSame(Recalculated(s1, c, Owners(s1, c)), RecallApply(s, id, e), key);
  }

  lemma RecallCountable(s: Store, id: nat, e: nat, owner: nat, m: nat)
    requires id in s.messages && m != id
    ensures Countable(RecallApply(s, id, e), owner, m) == Countable(s, owner, m)
  {
  }

  lemma RecallElsewhere(s: Store, id: nat, e: nat, key: ConvKey)
    requires UnreadInv(s) && Enabled(s, CommitRecall(id, e)) && key in s.convs && key.1 != s.messages[id].conv
    ensures key in RecallApply(s, id, e).convs && RowInv(RecallApply(s, id, e), key)
  {
    var s1, c := Recalled(s, id, e), s.messages[id].conv;
    RecallFrame(s, id, e, key);
    RecalculatedFrame(s1, c, Owners(s1, c), key);
    assert RowInv(s, key);
    forall m | m in Counted(s, key) ensures Countable(RecallApply(s, id, e), key.0, m) == Countable(s, key.0, m) {
      RecallCountable(s, id, e, key.0, m);
    }
    RowKept(s, RecallApply(s, id, e), key);
  }

  lemma RecallRow(s: Store, id: nat, e: nat, key: ConvKey)
    requires UnreadInv(s) && Enabled(s, CommitRecall(id, e)) && key in s.convs
    ensures key in RecallApply(s, id, e).convs && RowInv(RecallApply(s, id, e), key)
  {
    if key.1 == s.messages[id].conv { RecallHere(s, id, e, key); } else { RecallElsewhere(s, id, e, key); }
  }

  lemma RecallKeeps(s: Store, id: nat, e: nat)
    requires UnreadInv(s) && Enabled(s, CommitRecall(id, e))
    ensures UnreadInv(RecallApply(s, id, e))
  {
    var s' := RecallApply(s, id, e);
    forall key | key in s'.convs ensures RowInv(s', key) { RecallRow(s, id, e, key); }
  }

  lemma OtherKeeps(s: Store, a: Action)
    requires UnreadInv(s) && Enabled(s, a)
    requires a.CommitAck? || a.DeleteConversation? || a.CacheSet? || a.CacheDrop? || a.ReplyOk?
    ensures UnreadInv(Apply(s, a))
  {
    var s' := Apply(s, a);
    forall key | key in s'.convs ensures RowInv(s', key) {
      assert RowInv(s, key);
      RowKept(s, s', key);
    }
  }

  lemma ReadUpToFrame(s: Store, c: ConvId, u: nat, cursor: nat, now: int)
    ensures var s1 := s.(receipts := ReadUpTo(s, c, u, cursor, now));
            && (forall m, v :: (m, v) in s1.receipts ==> (m, v) in s.receipts || m in s.messages)
            && (forall m, v :: v != u || m !in InConv(s, c) ==> ReadAt(s1, m, v) == ReadAt(s, m, v))
  {
  }

  lemma ActionKeepsUnread(s: Store, a: Action)
    requires UnreadInv(s) && Enabled(s, a)
    ensures UnreadInv(Apply(s, a))
  {
    match a
    case CommitSend(id, m, members) => SendKeeps(s, id, m, members);
    case CommitRead(id, u, now) =>
      ReadKeeps(s, s.(receipts := s.receipts[(id, u) := MarkedRead(s.receipts, id, u, now)]), s.messages[id].conv, u);
    case CommitReadUpTo(c, u, cursor, now) =>
      ReadUpToFrame(s, c, u, cursor, now);
      ReadKeeps(s, s.(receipts := ReadUpTo(s, c, u, cursor, now)), c, u);
    case CommitRecall(id, e) => RecallKeeps(s, id, e);
    case _ => OtherKeeps(s, a);
  }

  lemma {:induction false} RunKeepsUnread(s: Store, acts: seq<Action>)
    requires UnreadInv(s) && Runs(s, acts)
    ensures UnreadInv(After(s, acts))
    decreases |acts|
  {
    if acts != [] {
      ActionKeepsUnread(s, acts[0]);
      RunKeepsUnread(Apply(s, acts[0]), acts[1..]);
    }
  }

  /** The exact relation, in every reachable state and for every conversation row: the stored
  count falls short of the recount by the missed messages, so the two agree if and only if
  nothing that counts was missed. */
  lemma UnreadExact(acts: seq<Action>, key: ConvKey)
    requires Runs(Empty, acts) && key in After(Empty, acts).convs
    ensures var s := After(Empty, acts);
            && s.convs[key].unread + |MissedUnread(s, key)| == Recount(s, key.0, key.1)
            && (s.convs[key].unread == Recount(s, key.0, key.1) <==> MissedUnread(s, key) == {})
  {
    RunKeepsUnread(Empty, acts);
    var s := After(Empty, acts);
    assert RowInv(s, key);
    assert UnreadSet(s, key.0, key.1) == KnownUnread(s, key) + MissedUnread(s, key);
  }

  // ---------------------------------------------------------------- who can miss a message

  /** Rows of a single chat belong to its two users and know all its messages. */
  ghost predicate SingleInv(s: Store) {
    && (forall m :: m in s.messages && s.messages[m].conv.SingleChat? ==>
          var c := s.messages[m].conv;
          (c.low, c) in s.convs && (c.high, c) in s.convs)
    && (forall key :: key in s.convs ==> SingleRow(s, key))
  }

  lemma SingleSendUpserts(s: Store, m: Message, members: seq<nat>)
    requires Audience(m, members) && m.conv.SingleChat?
    ensures forall key :: key in KeysFor(members, m.conv) <==>
                          key == (m.conv.low, m.conv) || key == (m.conv.high, m.conv)
  {
    assert m.from == members[0] && m.toUser == members[1];
  }

  ghost predicate SingleRow(s: Store, key: ConvKey) {
    key.1.SingleChat? ==> (key.0 == key.1.low || key.0 == key.1.high) && InConv(s, key.1) <= Counted(s, key)
  }

  lemma SendSingleRow(s: Store, id: nat, m: Message, members: seq<nat>, key: ConvKey)
    requires SingleInv(s) && Enabled(s, CommitSend(id, m, members)) && key in SendApply(s, id, m, members).convs
    ensures SingleRow(SendApply(s, id, m, members), key)
  {
    var s' := SendApply(s, id, m, members);
    SendFrame(s, id, m, members, key);
    if key.1.SingleChat? {
      if key.1 == m.conv {
        SingleSendUpserts(s, m, members);
        forall x | x in InConv(s', key.1) ensures x in Counted(s', key) {
          if x != id { assert x in InConv(s, key.1) && key in s.convs; }
        }
      } else {
        assert InConv(s', key.1) == InConv(s, key.1);
        assert key in s.convs;
      }
    }
  }

  lemma SendKeepsSingle(s: Store, id: nat, m: Message, members: seq<nat>)
    requires SingleInv(s) && Enabled(s, CommitSend(id, m, members))
    ensures SingleInv(SendApply(s, id, m, members))
  {
    var s' := SendApply(s, id, m, members);
    forall key | key in s'.convs ensures SingleRow(s', key) { SendSingleRow(s, id, m, members, key); }
    forall x | x in s'.messages && s'.messages[x].conv.SingleChat?
      ensures var c := s'.messages[x].conv; (c.low, c) in s'.convs && (c.high, c) in s'.convs
    {
      var c := s'.messages[x].conv;
      if x == id { SingleSendUpserts(s, m, members); }
      SendFrame(s, id, m, members, (c.low, c));
      SendFrame(s, id, m, members, (c.high, c));
    }
  }

  lemma RecalculatedKeepsSingle(s: Store, c: ConvId, owners: set<nat>)
    requires SingleInv(s)
    ensures SingleInv(Recalculated(s, c, owners))
  {
    var s' := Recalculated(s, c, owners);
    forall key | key in s'.convs ensures SingleRow(s', key) {
      assert InConv(s', key.1) == InConv(s, key.1);
      if !(key.1 == c && key.0 in owners) { RecalculatedFrame(s, c, owners, key); }
    }
  }

  lemma RecallKeepsSingle(s: Store, id: nat, e: nat)
    requires SingleInv(s) && id in s.messages
    ensures SingleInv(RecallApply(s, id, e))
  {
    var s1, s' := Recalled(s, id, e), RecallApply(s, id, e);
    forall c ensures InConv(s1, c) == InConv(s, c) && InConv(s', c) == InConv(s, c) {}
    assert SingleInv(s1);
    var c := s.messages[id].conv;
    RecalculatedKeepsSingle(s1, c, Owners(s1, c));
    var s2 := Recalculated(s1, c, Owners(s1, c));
    assert s'.convs.Keys == s2.convs.Keys && s'.counted == s2.counted && s'.messages == s2.messages;
  }

  lemma ActionKeepsSingle(s: Store, a: Action)
    requires SingleInv(s) && Enabled(s, a)
    ensures SingleInv(Apply(s, a))
  {
    match a
    case CommitSend(id, m, members) => SendKeepsSingle(s, id, m, members);
    case CommitRecall(id, e) => RecallKeepsSingle(s, id, e);
    case CommitRead(id, u, now) =>
      var s1 := s.(receipts := s.receipts[(id, u) := MarkedRead(s.receipts, id, u, now)]);
      assert forall c :: InConv(s1, c) == InConv(s, c);
      RecalculatedKeepsSingle(s1, s.messages[id].conv, {u});
    case CommitReadUpTo(c, u, cursor, now) =>
      var s1 := s.(receipts := ReadUpTo(s, c, u, cursor, now));
      assert forall d :: InConv(s1, d) == InConv(s, d);
      RecalculatedKeepsSingle(s1, c, {u});
    case _ =>
      var s' := Apply(s, a);
      assert forall c :: InConv(s', c) == InConv(s, c);
  }

  lemma {:induction false} RunKeepsSingle(s: Store, acts: seq<Action>)
    requires SingleInv(s) && Runs(s, acts)
    ensures SingleInv(After(s, acts))
    decreases |acts|
  {
    if acts != [] {
      ActionKeepsSingle(s, acts[0]);
      RunKeepsSingle(Apply(s, acts[0]), acts[1..]);
    }
  }

  /** In single chats the incremental count is always the recount. */
  lemma SingleChatUnread(acts: seq<Action>, key: ConvKey)
    requires Runs(Empty, acts) && key in After(Empty, acts).convs && key.1.SingleChat?
    ensures var s := After(Empty, acts); s.convs[key].unread == Recount(s, key.0, key.1)
  {
    RunKeepsSingle(Empty, acts);
    UnreadExact(acts, key);
    var s := After(Empty, acts);
    assert InConv(s, key.1) <= Counted(s, key);
  }

  lemma UnreadAfterSend(s: Store, id: nat, m: Message, members: seq<nat>, owner: nat)
    requires UnreadInv(s) && Enabled(s, CommitSend(id, m, members))
    ensures var before := UnreadSet(s, owner, m.conv);
            && id !in before
            && UnreadSet(SendApply(s, id, m, members), owner, m.conv) == if m.from != owner then before + {id}
               else before
  {
    var s' := SendApply(s, id, m, members);
    forall x
      ensures x in UnreadSet(s', owner, m.conv) <==> x in UnreadSet(s, owner, m.conv) || (x == id && m.from != owner)
    {
      SendCountable(s, id, m, members, owner, x);
    }
  }

  /** In groups it need not be. A send that gives somebody their first row of a conversation sets
  the count as if the conversation began with it: the count is right if and only if no earlier
  message counts for them. */
  lemma NewMemberUnread(s: Store, id: nat, m: Message, members: seq<nat>, owner: nat)
    requires UnreadInv(s) && Enabled(s, CommitSend(id, m, members)) && owner in members && (owner, m.conv) !in s.convs
    ensures var s' := SendApply(s, id, m, members);
            && (owner, m.conv) in s'.convs
            && (s'.convs[(owner, m.conv)].unread == Recount(s', owner, m.conv) <==> UnreadSet(s, owner, m.conv) == {})
  {
    var key := (owner, m.conv);
    assert key in KeysFor(members, m.conv);
    SendFrame(s, id, m, members, key);
    UnreadAfterSend(s, id, m, members, owner);
  }
}
