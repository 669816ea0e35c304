/** What each transaction leaves in the receipts and in the conversation rows, message by message. */
module Receipts {
  import opened MessageStore

  /** A message its reader can have read: of this conversation, from somebody else, not recalled. */
  predicate Readable(s: Store, c: ConvId, reader: nat, m: nat) {
    m in s.messages && s.messages[m].conv == c && s.messages[m].from != reader && !s.messages[m].recalled
  }

  /** The messages the reader has still to read. */
  ghost function ToRead(s: Store, c: ConvId, reader: nat): set<nat> {
    set m | m in s.messages && Readable(s, c, reader, m) && ReadAt(s, m, reader) == 0
  }

  /** `m` comes behind the cursor in (created_at, message_id) order. */
  predicate Behind(s: Store, cursor: nat, m: nat)
    requires cursor in s.messages && m in s.messages
  {
    || s.messages[m].createdAt > s.messages[cursor].createdAt
    || (s.messages[m].createdAt == s.messages[cursor].createdAt && m > cursor)
  }

  ghost function Through(s: Store, c: ConvId, reader: nat, cursor: nat): set<nat>
    requires cursor in s.messages
  {
    set m | m in s.messages && Readable(s, c, reader, m) && !Behind(s, cursor, m)
  }

  /** A time stamp only moves forward. */
  predicate Latest(before: Option<int>, now: int, after: int) {
    && after >= now && (before.Some? ==> after >= before.value)
    && (after == now || before == Some(after))
  }

  function DeliveredBefore(s: Store, m: nat, u: nat): Option<int> {
    if (m, u) in s.receipts then Some(s.receipts[(m, u)].deliveredAt) else None
  }

  function ReadBefore(s: Store, m: nat, u: nat): Option<int> {
    if (m, u) in s.receipts then Some(s.receipts[(m, u)].readAt) else None
  }

  /** Exactly these messages were read by `u`, and nobody else's receipt or message changed. */
  ghost predicate ReadExactly(s: Store, s': Store, u: nat, read: set<nat>, now: int) {
    var keys := set m | m in read :: (m, u);
    && s'.messages == s.messages
    && s'.receipts - keys == s.receipts - keys
    && forall m :: m in read ==>
         && (m, u) in s'.receipts
         && Latest(DeliveredBefore(s, m, u), now, s'.receipts[(m, u)].deliveredAt)
         && Latest(ReadBefore(s, m, u), now, s'.receipts[(m, u)].readAt)
  }

  /** Of all the rows only this one changed, and of it only the count. */
  ghost predicate CountOnly(s: Store, s': Store, key: ConvKey) {
    && s'.convs.Keys == s.convs.Keys && s'.convs - {key} == s.convs - {key}
    && (key in s.convs ==> s'.convs[key] == s.convs[key].(unread := |ToRead(s', key.1, key.0)|))
  }

  /** The recount is the number of messages still to read. */
  lemma RecountMeans(s: Store, c: ConvId, u: nat)
    ensures UnreadSet(s, u, c) == ToRead(s, c, u) && Recount(s, u, c) == |ToRead(s, c, u)|
  {
    assert UnreadSet(s, u, c) == ToRead(s, c, u);
  }

  lemma RecountedRow(s: Store, c: ConvId, u: nat)
    ensures CountOnly(s, Recalculated(s, c, {u}), (u, c))
  {
    var s' := Recalculated(s, c, {u});
    RecountMeans(s, c, u);
    assert ToRead(s', c, u) == ToRead(s, c, u);
    assert s'.convs - {(u, c)} == s.convs - {(u, c)};
  }

  // ---------------------------------------------------------------- reading up to a cursor

  /** After a conversation is read up to a cursor: the messages that are not behind it are read, no other
  receipt changes, and what remains to be read is what is behind it. */
  ghost predicate ReadThrough(s: Store, s': Store, c: ConvId, u: nat, cursor: nat, now: int)
    requires cursor in s.messages
  {
    && ReadExactly(s, s', u, Through(s, c, u, cursor), now) && CountOnly(s, s', (u, c))
    && (now > 0 ==> ToRead(s', c, u) == set m | m in ToRead(s, c, u) && Behind(s, cursor, m))
  }

  lemma UpToIsThrough(s: Store, c: ConvId, u: nat, cursor: nat)
    requires cursor in s.messages
    ensures (set m | m in InConv(s, c) && UpTo(s, c, u, cursor, m)) == Through(s, c, u, cursor)
  {
  }

  lemma Stamped(s: Store, u: nat, read: set<nat>, keys: set<(nat, nat)>, now: int)
    requires forall key :: key in keys <==> key.1 == u && key.0 in read
    ensures var after := s.receipts + map key | key in keys :: MarkedRead(s.receipts, key.0, u, now);
            ReadExactly(s, s.(receipts := after), u, read, now)
  {
    var after := s.receipts + map key | key in keys :: MarkedRead(s.receipts, key.0, u, now);
    assert keys == set m | m in read :: (m, u);
    assert after - keys == s.receipts - keys;
    forall m | m in read ensures (m, u) in keys && after[(m, u)] == MarkedRead(s.receipts, m, u, now) {}
  }

  lemma ReadUpToStamps(s: Store, c: ConvId, u: nat, cursor: nat, now: int)
    requires cursor in s.messages
    ensures ReadExactly(s, s.(receipts := ReadUpTo(s, c, u, cursor, now)), u, Through(s, c, u, cursor), now)
  {
    var keys := set m | m in InConv(s, c) && UpTo(s, c, u, cursor, m) :: (m, u);
    forall key ensures key in keys <==> key.1 == u && key.0 in Through(s, c, u, cursor) {
      if key.1 == u && key.0 in Through(s, c, u, cursor) { assert key == (key.0, u); }
    }
    Stamped(s, u, Through(s, c, u, cursor), keys, now);
  }

  lemma StillToRead(s: Store, s': Store, c: ConvId, u: nat, read: set<nat>, now: int)
    requires now > 0 && ReadExactly(s, s', u, read, now)
    ensures ToRead(s', c, u) == ToRead(s, c, u) - read
  {
    forall m ensures m !in read ==> ReadAt(s', m, u) == ReadAt(s, m, u) {
      var keys := set m | m in read :: (m, u);
      if m !in read {
        assert (m, u) in s.receipts <==> (m, u) in s.receipts - keys;
        assert (m, u) in s'.receipts <==> (m, u) in s'.receipts - keys;
      }
    }
  }

  /** A read and the recount after it. */
  lemma ReadAndRecounted(s: Store, s1: Store, c: ConvId, u: nat, read: set<nat>, now: int)
    requires ReadExactly(s, s1, u, read, now) && s1.convs == s.convs
    ensures var s' := Recalculated(s1, c, {u});
            && ReadExactly(s, s', u, read, now) && CountOnly(s, s', (u, c))
            && (now > 0 ==> ToRead(s', c, u) == ToRead(s, c, u) - read)
  {
    var s' := Recalculated(s1, c, {u});
    RecountedRow(s1, c, u);
    assert s'.messages == s1.messages && s'.receipts == s1.receipts;
    assert ToRead(s', c, u) == ToRead(s1, c, u);
    if now > 0 { StillToRead(s, s1, c, u, read, now); }
  }

  lemma ReadUpToExact(s: Store, c: ConvId, u: nat, cursor: nat, now: int)
    requires Enabled(s, CommitReadUpTo(c, u, cursor, now))
    ensures ReadThrough(s, Apply(s, CommitReadUpTo(c, u, cursor, now)), c, u, cursor, now)
  {
    var read := Through(s, c, u, cursor);
    ReadUpToStamps(s, c, u, cursor, now);
    ReadAndRecounted(s, s.(receipts := ReadUpTo(s, c, u, cursor, now)), c, u, read, now);
    assert ToRead(s, c, u) - read == set m | m in ToRead(s, c, u) && Behind(s, cursor, m);
  }

  // ---------------------------------------------------------------- one message

  /** After one message is read: its receipt alone changes, and it is no longer among those to read. */
  ghost predicate ReadOne(s: Store, s': Store, id: nat, u: nat, now: int)
    requires id in s.messages
  {
    var c := s.messages[id].conv;
    && ReadExactly(s, s', u, {id}, now) && CountOnly(s, s', (u, c))
    && (now > 0 ==> ToRead(s', c, u) == ToRead(s, c, u) - {id})
  }

  lemma ReadOneExact(s: Store, id: nat, u: nat, now: int)
    requires Enabled(s, CommitRead(id, u, now))
    ensures ReadOne(s, Apply(s, CommitRead(id, u, now)), id, u, now)
  {
    var c := s.messages[id].conv;
    var s1 := s.(receipts := s.receipts[(id, u) := MarkedRead(s.receipts, id, u, now)]);
    var keys := set m | m in {id} :: (m, u);
    assert keys == {(id, u)};
    assert s1.receipts - keys == s.receipts - keys;
    ReadAndRecounted(s, s1, c, u, {id}, now);
  }

  /** After an acknowledgement: the message is delivered and its offline row acked. No read is recorded
  and no row changes. */
  ghost predicate AckedOne(s: Store, s': Store, id: nat, u: nat, now: int) {
    && s'.messages == s.messages && s'.convs == s.convs && s'.offlineAcks == s.offlineAcks + {(u, id)}
    && s'.receipts - {(id, u)} == s.receipts - {(id, u)} && (id, u) in s'.receipts
    && Latest(DeliveredBefore(s, id, u), now, s'.receipts[(id, u)].deliveredAt)
    && ReadAt(s', id, u) == ReadAt(s, id, u)
  }

  lemma AckExact(s: Store, id: nat, u: nat, now: int)
    requires Enabled(s, CommitAck(id, u, now))
    ensures AckedOne(s, Apply(s, CommitAck(id, u, now)), id, u, now)
  {
    assert Apply(s, CommitAck(id, u, now)).receipts - {(id, u)} == s.receipts - {(id, u)};
  }

  // ---------------------------------------------------------------- recalls and sends

  /** After a recall: the message has ceased to be unread for everybody, and the rows that show it as
  their last message show it recalled. */
  ghost predicate RecalledOne(s: Store, s': Store, id: nat)
    requires id in s.messages
  {
    var c := s.messages[id].conv;
    && s'.messages == s.messages[id := s.messages[id].(recalled := true)] && s'.receipts == s.receipts
    && s'.convs.Keys == s.convs.Keys
    && forall key :: key in s.convs ==>
         var row := s.convs[key];
         s'.convs[key] == if key.1 != c then row
                          else row.(unread := |ToRead(s, c, key.0) - {id}|,
                                    lastRecalled := row.lastRecalled || row.lastMessage == id)
  }

  lemma RecallExact(s: Store, id: nat, e: nat)
    requires Enabled(s, CommitRecall(id, e))
    ensures RecalledOne(s, Apply(s, CommitRecall(id, e)), id)
  {
    var c := s.messages[id].conv;
    var s1 := s.(messages := s.messages[id := s.messages[id].(recalled := true)], events := s.events[e := id]);
    forall key | key in s.convs && key.1 == c
      ensures key.0 in Owners(s1, c) && Recount(s1, key.0, c) == |ToRead(s, c, key.0) - {id}|
    {
      RecountMeans(s1, c, key.0);
      assert ToRead(s1, c, key.0) == ToRead(s, c, key.0) - {id};
    }
  }

  /** After a send: every member's row shows the new message and is there again if it was deleted;
  all but the sender have one more to read, and no other row changes. */
  ghost predicate SentOne(s: Store, s': Store, id: nat, m: Message, members: seq<nat>) {
    && s'.messages == s.messages[id := m] && s'.receipts == s.receipts
    && (forall key :: key in s'.convs <==> key in s.convs || (key.1 == m.conv && key.0 in members))
    && forall key :: key in s'.convs ==>
         if key.1 == m.conv && key.0 in members then
           var before := if key in s.convs then s.convs[key].unread else 0;
           s'.convs[key] == Conversation(if key.0 == m.from then before else before + 1, id, false, false)
         else
           key in s.convs && s'.convs[key] == s.convs[key]
  }

  lemma SendExact(s: Store, id: nat, m: Message, members: seq<nat>)
    requires Enabled(s, CommitSend(id, m, members))
    ensures SentOne(s, Apply(s, CommitSend(id, m, members)), id, m, members)
  {
    forall key ensures key in KeysFor(members, m.conv) <==> key.1 == m.conv && key.0 in members {
      if key.1 == m.conv && key.0 in members { assert key == (key.0, m.conv); }
    }
  }
}
