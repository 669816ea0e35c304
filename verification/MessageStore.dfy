/** The message tables and the transactions of MessageService on them: sends, acks, reads, recalls.
Each transaction is one action; the Redis dedup cache sits beside the tables and may hold anything. */
module MessageStore {

  datatype Option<T> = None | Some(value: T)

  /** ConversationId::single sorts its users; single and group ids never meet. */
  datatype ConvId = SingleChat(low: nat, high: nat) | GroupChat(group: nat)

  function SingleId(a: nat, b: nat): ConvId {
    if a <= b then SingleChat(a, b) else SingleChat(b, a)
  }

  /** Two users share one conversation, whoever writes first, and with nobody else. */
  lemma SingleIdIsPair(a: nat, b: nat, c: nat, d: nat)
    ensures SingleId(a, b) == SingleId(c, d) <==> {a, b} == {c, d}
  {
    if {a, b} == {c, d} {
      assert a in {c, d} && b in {c, d} && c in {a, b} && d in {a, b};
    }
  }

  /** Client sequence 0 is the SQL NULL: it takes no part in the unique key. */
  datatype Message = Message(conv: ConvId, from: nat, sequence: nat, toUser: nat, recalled: bool, createdAt: int)

  datatype Receipt = Receipt(deliveredAt: int, readAt: int)

  datatype Conversation = Conversation(unread: nat, lastMessage: nat, lastRecalled: bool, deleted: bool)

  type ConvKey = (nat, ConvId)

  /** `events` maps an outbox event to its message. `offlineAcks` are the (user, message) pairs whose
  offline row was marked acked. `counted` and `replies` are history: which messages an owner's row has
  been told about, and which ids send requests were answered with. */
  datatype Store = Store(messages: map<nat, Message>,
                         receipts: map<(nat, nat), Receipt>,
                         offlineAcks: set<(nat, nat)>,
                         convs: map<ConvKey, Conversation>,
                         events: map<nat, nat>,
                         cache: map<(nat, nat), nat>,
                         counted: map<ConvKey, set<nat>>,
                         replies: seq<Reply>)

  datatype Reply = Reply(from: nat, sequence: nat, messageId: nat)

  const Empty := Store(map[], map[], {}, map[], map[], map[], map[], [])

  // ---------------------------------------------------------------- unread counts

  function ReadAt(s: Store, m: nat, u: nat): int {
    if (m, u) in s.receipts then s.receipts[(m, u)].readAt else 0
  }

  /** The WHERE clause of the recount: from somebody else, not recalled, not read. */
  predicate Countable(s: Store, owner: nat, m: nat) {
    m in s.messages && s.messages[m].from != owner && !s.messages[m].recalled && ReadAt(s, m, owner) == 0
  }

  function InConv(s: Store, c: ConvId): set<nat> {
    set m | m in s.messages && s.messages[m].conv == c
  }

  function UnreadSet(s: Store, owner: nat, c: ConvId): set<nat> {
    set m | m in InConv(s, c) && Countable(s, owner, m)
  }

  /** What recalculateUnread stores. */
  function Recount(s: Store, owner: nat, c: ConvId): nat {
    |UnreadSet(s, owner, c)|
  }

  function Counted(s: Store, key: ConvKey): set<nat> {
    if key in s.counted then s.counted[key] else {}
  }

  // ---------------------------------------------------------------- the parts of a transaction

  /** upsertOne: INSERT ... ON DUPLICATE KEY UPDATE. */
  function UpsertOne(convs: map<ConvKey, Conversation>, key: ConvKey, m: nat, inc: nat): Conversation {
    if key in convs then convs[key].(unread := convs[key].unread + inc, lastMessage := m, lastRecalled := false,
                                     deleted := false)
    else Conversation(inc, m, false, false)
  }

  function UnreadInc(sender: nat, owner: nat): nat {
    if owner == sender then 0 else 1
  }

  function KeysFor(members: seq<nat>, c: ConvId): set<ConvKey> {
    set o | o in members :: (o, c)
  }

  /** One row per member; everybody but the sender gets one more unread message. */
  function UpsertAll(convs: map<ConvKey, Conversation>, c: ConvId, members: seq<nat>, sender: nat,
                     m: nat): map<ConvKey, Conversation>
  {
    convs + map key | key in KeysFor(members, c) :: UpsertOne(convs, key, m, UnreadInc(sender, key.0))
  }

  function Max(a: int, b: int): int { if a >= b then a else b }

  function Delivered(r: map<(nat, nat), Receipt>, m: nat, u: nat, now: int): Receipt {
    if (m, u) in r then r[(m, u)].(deliveredAt := Max(r[(m, u)].deliveredAt, now)) else Receipt(now, 0)
  }

  function MarkedRead(r: map<(nat, nat), Receipt>, m: nat, u: nat, now: int): Receipt {
    if (m, u) in r then Receipt(Max(r[(m, u)].deliveredAt, now), Max(r[(m, u)].readAt, now)) else Receipt(now, now)
  }

  /** markConversationRead: at or before the cursor in (created_at, message_id) order. */
  predicate UpTo(s: Store, c: ConvId, u: nat, cursor: nat, m: nat) {
    && cursor in s.messages && m in InConv(s, c)
    && (s.messages[m].createdAt < s.messages[cursor].createdAt
        || (s.messages[m].createdAt == s.messages[cursor].createdAt && m <= cursor))
    && s.messages[m].from != u && !s.messages[m].recalled
  }

  function ReadUpTo(s: Store, c: ConvId, u: nat, cursor: nat, now: int): map<(nat, nat), Receipt> {
    var read := set m | m in InConv(s, c) && UpTo(s, c, u, cursor, m) :: (m, u);
    s.receipts + map key | key in read :: MarkedRead(s.receipts, key.0, u, now)
  }

  /** recalculateUnread for the given rows of a conversation. */
  function Recalculated(s: Store, c: ConvId, owners: set<nat>): Store {
    var keys := set key | key in s.convs && key.1 == c && key.0 in owners;
    s.(convs := map key | key in s.convs ::
                  if key in keys then s.convs[key].(unread := Recount(s, key.0, c)) else s.convs[key],
       counted := s.counted + map key | key in keys :: InConv(s, c))
  }

  function Owners(s: Store, c: ConvId): set<nat> {
    set key | key in s.convs && key.1 == c :: key.0
  }

  // ---------------------------------------------------------------- actions

  datatype Action =
    | CommitSend(id: nat, message: Message, members: seq<nat>)
    | CommitAck(id: nat, user: nat, now: int)
    | CommitRead(id: nat, user: nat, now: int)
    | CommitReadUpTo(conv: ConvId, user: nat, cursor: nat, now: int)
    | CommitRecall(id: nat, eventId: nat)
    | DeleteConversation(owner: nat, conv: ConvId)
    | CacheSet(from: nat, sequence: nat, value: nat)
    | CacheDrop(from: nat, sequence: nat)
    | ReplyOk(from: nat, sequence: nat, id: nat)

  predicate Distinct(members: seq<nat>) {
    forall i, j :: 0 <= i < j < |members| ==> members[i] != members[j]
  }

  /** The unique keys of the messages table. */
  predicate KeyFree(s: Store, id: nat, from: nat, sequence: nat) {
    id !in s.messages && (sequence != 0 ==> forall m :: m in s.messages ==>
                          !(s.messages[m].from == from && s.messages[m].sequence == sequence))
  }

  predicate IsOwner(s: Store, u: nat, c: ConvId) {
    u != 0 && (u, c) in s.convs && !s.convs[(u, c)].deleted
  }

  predicate CanReceive(s: Store, u: nat, m: Message) {
    u != 0 && m.from != u && if m.conv.GroupChat? then IsOwner(s, u, m.conv) else m.toUser == u
  }

  /** Whom a send upserts: both sides of a single chat, the listed members of a group. */
  predicate Audience(m: Message, members: seq<nat>) {
    m.conv.SingleChat? ==> m.from != m.toUser && m.conv == SingleId(m.from, m.toUser) && members == [m.from, m.toUser]
  }

  /** Permission checks read the tables before the transaction starts and may be stale by the time
  it commits, so they are no part of an action; what the statements themselves check is. */
  predicate Enabled(s: Store, a: Action) {
    match a
    case CommitSend(id, m, members) =>
      KeyFree(s, id, m.from, m.sequence) && id !in s.events && Distinct(members) && !m.recalled && Audience(m, members)
    case CommitAck(id, _, _) => id in s.messages
    case CommitRead(id, _, _) => id in s.messages
    case CommitReadUpTo(c, _, cursor, _) => cursor in s.messages && s.messages[cursor].conv == c
    case CommitRecall(id, e) => id in s.messages && !s.messages[id].recalled && e !in s.events
    case DeleteConversation(o, c) => (o, c) in s.convs
    case CacheSet(_, _, _) => true
    case CacheDrop(_, _) => true
    case ReplyOk(from, q, id) => id in s.messages && s.messages[id].from == from && s.messages[id].sequence == q
  }

  function SendApply(s: Store, id: nat, m: Message, members: seq<nat>): Store {
    s.(messages := s.messages[id := m],
       convs := UpsertAll(s.convs, m.conv, members, m.from, id),
       events := s.events[id := id],
       counted := s.counted + map key | key in KeysFor(members, m.conv) :: Counted(s, key) + {id})
  }

  function RecallApply(s: Store, id: nat, e: nat): Store
    requires id in s.messages
  {
    var c := s.messages[id].conv;
    var s1 := s.(messages := s.messages[id := s.messages[id].(recalled := true)], events := s.events[e := id]);
    var s2 := Recalculated(s1, c, Owners(s1, c));
    s2.(convs := map key | key in s2.convs ::
                   if key.1 == c && s2.convs[key].lastMessage == id then s2.convs[key].(lastRecalled := true)
                      else s2.convs[key])
  }

  function Apply(s: Store, a: Action): Store
    requires Enabled(s, a)
  {
    match a
    case CommitSend(id, m, members) => SendApply(s, id, m, members)
    case CommitAck(id, u, now) =>
      s.(receipts := s.receipts[(id, u) := Delivered(s.receipts, id, u, now)], offlineAcks := s.offlineAcks + {(u, id)})
    case CommitRead(id, u, now) =>
      Recalculated(s.(receipts := s.receipts[(id, u) := MarkedRead(s.receipts, id, u, now)]), s.messages[id].conv, {u})
    case CommitReadUpTo(c, u, cursor, now) =>
      Recalculated(s.(receipts := ReadUpTo(s, c, u, cursor, now)), c, {u})
    case CommitRecall(id, e) => RecallApply(s, id, e)
    case DeleteConversation(o, c) => s.(convs := s.convs[(o, c) := s.convs[(o, c)].(deleted := true)])
    case CacheSet(from, q, v) => s.(cache := s.cache[(from, q) := v])
    case CacheDrop(from, q) => s.(cache := s.cache - {(from, q)})
    case ReplyOk(from, q, id) => s.(replies := s.replies + [Reply(from, q, id)])
  }

  predicate Runs(s: Store, acts: seq<Action>)
    decreases |acts|
  {
    acts == [] || (Enabled(s, acts[0]) && Runs(Apply(s, acts[0]), acts[1..]))
  }

  function After(s: Store, acts: seq<Action>): Store
    requires Runs(s, acts)
    decreases |acts|
  {
    if acts == [] then s else After(Apply(s, acts[0]), acts[1..])
  }
}
