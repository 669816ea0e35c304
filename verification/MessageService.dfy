/** The RPC handlers of MessageService: checks first, then one transaction, with everybody else's
transactions and cache writes in between. */
module MessageServices {
  import opened MessageStore
  import opened IdempotentSend
  import opened Receipts

  datatype Code =
    | OK | INVALID_ARGUMENT | MESSAGE_EMPTY | MESSAGE_TOO_LARGE | USER_NOT_FOUND | GROUP_NOT_FOUND
    | MESSAGE_PERMISSION_DENIED | DB_ERROR | MESSAGE_PERSIST_FAILED | OUTBOX_PUBLISH_FAILED
    | MESSAGE_NOT_FOUND | CONVERSATION_NOT_FOUND
    | MESSAGE_RECALL_PERMISSION_DENIED | MESSAGE_ALREADY_RECALLED | MESSAGE_RECALL_TIMEOUT

  /** Users, accepted friendships and group memberships, kept by other services. */
  datatype Directory = Directory(users: set<nat>, friends: set<(nat, nat)>, groups: map<nat, seq<nat>>)

  /** `replayed` distinguishes the DUPLICATED_REQUEST_REPLAYED answer. */
  datatype SendReply = SendReply(code: Code, messageId: nat, replayed: bool)

  /** How the database answers the statements of a transaction. A COMMIT that fails may have taken effect. */
  datatype Answers = Answers(begins: bool, inserts: bool, upserts: bool, events: bool, commits: bool, applies: bool)

  const NoFault := Answers(true, true, true, true, true, true)

  function CheckContent(length: nat, maxLength: nat): Code {
    if length == 0 then MESSAGE_EMPTY else if length > maxLength then MESSAGE_TOO_LARGE else OK
  }

  function CheckSingle(dir: Directory, from: nat, to: nat, length: nat, maxLength: nat): Code {
    if from == 0 || to == 0 || from == to then INVALID_ARGUMENT
    else if CheckContent(length, maxLength) != OK then CheckContent(length, maxLength)
    else if from !in dir.users || to !in dir.users then USER_NOT_FOUND
    else if (from, to) !in dir.friends || (to, from) !in dir.friends then MESSAGE_PERMISSION_DENIED
    else OK
  }

  function CheckGroup(dir: Directory, from: nat, group: nat, length: nat, maxLength: nat): Code {
    if from == 0 || group == 0 then INVALID_ARGUMENT
    else if CheckContent(length, maxLength) != OK then CheckContent(length, maxLength)
    else if from !in dir.users then USER_NOT_FOUND
    else if group !in dir.groups then GROUP_NOT_FOUND
    else if from !in dir.groups[group] then MESSAGE_PERMISSION_DENIED
    else OK
  }

  /** What a single-chat send is answered with, refusal by refusal. */
  ghost predicate AnswersSingle(dir: Directory, from: nat, to: nat, length: nat, maxLength: nat, code: Code) {
    var addressed := from != 0 && to != 0 && from != to;
    var sized := addressed && 0 < length <= maxLength;
    var known := sized && from in dir.users && to in dir.users;
    var befriended := known && (from, to) in dir.friends && (to, from) in dir.friends;
    && (code == INVALID_ARGUMENT <==> !addressed)
    && (code == MESSAGE_EMPTY <==> addressed && length == 0)
    && (code == MESSAGE_TOO_LARGE <==> addressed && length > maxLength)
    && (code == USER_NOT_FOUND <==> sized && !known)
    && (code == MESSAGE_PERMISSION_DENIED <==> known && !befriended)
    && (code in {OK, DB_ERROR, MESSAGE_PERSIST_FAILED, OUTBOX_PUBLISH_FAILED} <==> befriended)
  }

  /** What a group send is answered with, refusal by refusal. */
  ghost predicate AnswersGroup(dir: Directory, from: nat, group: nat, length: nat, maxLength: nat, code: Code) {
    var addressed := from != 0 && group != 0;
    var sized := addressed && 0 < length <= maxLength;
    var known := sized && from in dir.users;
    var found := known && group in dir.groups;
    var member := found && from in dir.groups[group];
    && (code == INVALID_ARGUMENT <==> !addressed)
    && (code == MESSAGE_EMPTY <==> addressed && length == 0)
    && (code == MESSAGE_TOO_LARGE <==> addressed && length > maxLength)
    && (code == USER_NOT_FOUND <==> sized && !known)
    && (code == GROUP_NOT_FOUND <==> known && !found)
    && (code == MESSAGE_PERMISSION_DENIED <==> found && !member)
    && (code in {OK, DB_ERROR, MESSAGE_PERSIST_FAILED, OUTBOX_PUBLISH_FAILED} <==> member)
  }

  /** The user is somebody the message was sent to, and for a group still has the conversation. */
  predicate SentTo(s: Store, user: nat, id: nat)
    requires id in s.messages
  {
    var m := s.messages[id];
    && m.from != user
    && match m.conv
       case SingleChat(_, _) => user == m.toUser
       case GroupChat(g) => (user, GroupChat(g)) in s.convs && !s.convs[(user, GroupChat(g))].deleted
  }

  lemma {:induction false} RunsExtend(s: Store, acts: seq<Action>, a: Action)
    requires Runs(s, acts) && Enabled(After(s, acts), a)
    ensures Runs(s, acts + [a]) && After(s, acts + [a]) == Apply(After(s, acts), a)
    decreases |acts|
  {
    if acts == [] {
      assert ([] + [a])[1..] == [];
    } else {
      assert (acts + [a])[0] == acts[0] && (acts + [a])[1..] == acts[1..] + [a];
      RunsExtend(Apply(s, acts[0]), acts[1..], a);
    }
  }

  /** Action `a` happened after the first `before` actions of the history. */
  ghost predicate Since(history: seq<Action>, before: nat, a: Action) {
    exists i :: before <= i < |history| && history[i] == a
  }

  lemma SinceStays(history: seq<Action>, later: seq<Action>, before: nat, earlier: nat, a: Action)
    requires history <= later && earlier <= before && Since(history, before, a)
    ensures Since(later, earlier, a)
  {
    var i :| before <= i < |history| && history[i] == a;
    assert later[i] == a;
  }

  /** upsertGroupConversationForMembers: one statement per member, in turn. */
  method UpsertMembers(convs: map<ConvKey, Conversation>, c: ConvId, members: seq<nat>, sender: nat, m: nat)
    returns (after: map<ConvKey, Conversation>)
    requires Distinct(members)
    ensures after == UpsertAll(convs, c, members, sender, m)
  {
    after := convs;
    assert KeysFor(members[..0], c) == {};
    for i := 0 to |members|
      invariant after == UpsertAll(convs, c, members[..i], sender, m)
    {
      UpsertNext(convs, c, members, i, sender, m);
      after := after[(members[i], c) := UpsertOne(after, (members[i], c), m, UnreadInc(sender, members[i]))];
    }
    assert members[..|members|] == members;
  }

  lemma UpsertNext(convs: map<ConvKey, Conversation>, c: ConvId, members: seq<nat>, i: nat, sender: nat, m: nat)
    requires Distinct(members) && i < |members|
    ensures var before, key := UpsertAll(convs, c, members[..i], sender, m), (members[i], c);
            UpsertAll(convs, c, members[..i + 1], sender, m) ==
            before[key := UpsertOne(before, key, m, UnreadInc(sender, members[i]))]
  {
    KeysNext(members, c, i);
    UpsertOneMore(convs, KeysFor(members[..i], c), (members[i], c), sender, m);
  }

  lemma KeysNext(members: seq<nat>, c: ConvId, i: nat)
    requires Distinct(members) && i < |members|
    ensures KeysFor(members[..i + 1], c) == KeysFor(members[..i], c) + {(members[i], c)}
    ensures (members[i], c) !in KeysFor(members[..i], c)
  {
    assert members[..i + 1] == members[..i] + [members[i]];
  }

  ghost function Upserted(convs: map<ConvKey, Conversation>, keys: set<ConvKey>, sender: nat,
                          m: nat): map<ConvKey, Conversation>
  {
    convs + map key | key in keys :: UpsertOne(convs, key, m, UnreadInc(sender, key.0))
  }

  lemma UpsertOneMore(convs: map<ConvKey, Conversation>, keys: set<ConvKey>, key: ConvKey, sender: nat, m: nat)
    requires key !in keys
    ensures Upserted(convs, keys + {key}, sender, m) ==
            var before := Upserted(convs, keys, sender, m);
            before[key := UpsertOne(before, key, m, UnreadInc(sender, key.0))]
  {
  }

  class MessageService {
    var store: Store
    ghost var history: seq<Action>

    ghost predicate Valid()
      reads this
    {
      Runs(Empty, history) && store == After(Empty, history)
    }

    constructor ()
      ensures Valid() && history == []
    {
      store := Empty;
      history := [];
    }

    lemma Reached()
      requires Valid()
      ensures SendInv(store)
    {
      RunKeepsSend(Empty, history);
    }

    method Perform(a: Action)
      requires Valid() && Enabled(store, a)
      modifies this
      ensures Valid() && store == Apply(old(store), a) && history == old(history) + [a]
      ensures SendInv(store) && KeepsMessages(old(store), store)
    {
      Reached();
      ActionFrame(store, a);
      ActionKeepsSend(store, a);
      RunsExtend(Empty, history, a);
      store := Apply(store, a);
      history := history + [a];
    }

    /** Other requests, clients and the cache's own expiry take any number of steps. */
    method Others()
      requires Valid()
      modifies this
      ensures Valid() && SendInv(store) && KeepsMessages(old(store), store) && old(history) <= history
    {
      Reached();
      var steps: int := *;
      while steps > 0
        invariant Valid() && SendInv(store) && KeepsMessages(old(store), store) && old(history) <= history
      {
        var a: Action := *;
        if Enabled(store, a) { Perform(a); }
        steps := steps - 1;
      }
    }

    /** getMessageByClientSequence. `dbUp` false lets the query fail. */
    method FindBySequence(from: nat, sequence: nat, dbUp: bool) returns (found: Option<nat>)
      requires Valid()
      ensures found.Some? ==> sequence != 0 && HasPair(store, found.value, from, sequence)
      ensures found.None? && dbUp && from != 0 && sequence != 0 ==> forall m :: !HasPair(store, m, from, sequence)
    {
      if from == 0 || sequence == 0 || !dbUp { return None; }
      if m :| m in store.messages && HasPair(store, m, from, sequence) { return Some(m); }
      return None;
    }

    /** The cache is only a hint: the row it points to is checked, and the table has the last word. */
    method FindPersisted(from: nat, sequence: nat, dbUp: bool) returns (found: Option<nat>)
      requires Valid() && sequence != 0 && from != 0
      modifies this
      ensures Valid() && SendInv(store) && KeepsMessages(old(store), store) && old(history) <= history
      ensures found.Some? ==> HasPair(store, found.value, from, sequence)
      ensures forall m: nat :: dbUp && HasPair(old(store), m, from, sequence) ==> found == Some(m)
    {
      var cached := if (from, sequence) in store.cache then Some(store.cache[(from, sequence)]) else None;
      Others();
      found := None;
      if cached.Some? && dbUp && HasPair(store, cached.value, from, sequence) { found := cached; }
      if found.None? { found := FindBySequence(from, sequence, dbUp); }
    }

    /** The transaction of a send, from BEGIN to the reply. Any statement may fail. A failed COMMIT
    may have taken effect. */
    method CommitNew(id: nat, m: Message, members: seq<nat>, dbUp: bool, db: Answers) returns (reply: SendReply)
      requires Valid() && m.from != 0 && !m.recalled && Distinct(members) && Audience(m, members)
      modifies this
      ensures Valid() && SendInv(store) && KeepsMessages(old(store), store)
      ensures reply.code in {OK, DB_ERROR, MESSAGE_PERSIST_FAILED, OUTBOX_PUBLISH_FAILED}
      ensures reply.code == OK ==> HasPair(store, reply.messageId, m.from, m.sequence)
      ensures reply.code == OK && !reply.replayed ==>
                reply.messageId == id && history == old(history) + [CommitSend(id, m, members)]
      ensures reply.code == OK && reply.replayed ==> m.sequence != 0 && store == old(store) && history == old(history)
      ensures history == old(history) || history == old(history) + [CommitSend(id, m, members)]
      ensures reply.code != OK && reply.code != DB_ERROR ==> history == old(history)
      ensures db == NoFault && dbUp ==>
                match reply.code
                case MESSAGE_PERSIST_FAILED => id in old(store).messages
                case OUTBOX_PUBLISH_FAILED => id in old(store).events
                case code => code == OK
    {
      Reached();
      if !db.begins { return SendReply(DB_ERROR, 0, false); }
      if !db.inserts || !KeyFree(store, id, m.from, m.sequence) {     // failed, or hit a unique key
        var existing := FindBySequence(m.from, m.sequence, dbUp);
        return if existing.Some? then SendReply(OK, existing.value, true)
               else SendReply(MESSAGE_PERSIST_FAILED, 0, false);
      }
      var messages := store.messages[id := m];
      var convs := UpsertMembers(store.convs, m.conv, members, m.from, id);
      if !db.upserts { return SendReply(DB_ERROR, 0, false); }         // rolled back: the copies are dropped
      if !db.events || id in store.events { return SendReply(OUTBOX_PUBLISH_FAILED, 0, false); }
      var events := store.events[id := id];
      if db.commits || db.applies {
        Perform(CommitSend(id, m, members));
        assert store.messages == messages && store.convs == convs && store.events == events;
      }
      return SendReply(if db.commits then OK else DB_ERROR, if db.commits then id else 0, false);
    }

    /** The part SendSingleMessage and SendGroupMessage share once the request is accepted. */
    method SendAccepted(id: nat, m: Message, members: seq<nat>, dbUp: bool, db: Answers) returns (reply: SendReply)
      requires Valid() && m.from != 0 && !m.recalled && Distinct(members) && Audience(m, members)
      modifies this
      ensures Valid() && SendInv(store) && KeepsMessages(old(store), store) && old(history) <= history
      ensures reply.code in {OK, DB_ERROR, MESSAGE_PERSIST_FAILED, OUTBOX_PUBLISH_FAILED}
      ensures db == NoFault && dbUp && reply.code != OK ==> id in store.messages || id in store.events
      ensures reply.code == OK ==>
                HasPair(store, reply.messageId, m.from, m.sequence) &&
                    Reply(m.from, m.sequence, reply.messageId) in store.replies
      ensures reply.code == OK && !reply.replayed ==>
                Since(history, |old(history)|, CommitSend(reply.messageId, m, members))
      ensures forall x: nat :: dbUp && m.sequence != 0 && HasPair(old(store), x, m.from, m.sequence) ==>
                reply == SendReply(OK, x, true)
    {
      Reached();
      var found := None;
      if m.sequence != 0 { found := FindPersisted(m.from, m.sequence, dbUp); }
      if found.Some? {
        reply := SendReply(OK, found.value, true);
      } else {
        ghost var n := |history|;
        reply := SendFresh(id, m, members, dbUp, db);
        if reply.code == OK && !reply.replayed {
          SinceStays(history, history, n, |old(history)|, CommitSend(reply.messageId, m, members));
        }
      }
      ghost var sent := history;
      if reply.code == OK { Perform(ReplyOk(m.from, m.sequence, reply.messageId)); }
      if reply.code == OK && !reply.replayed {
        SinceStays(sent, history, |old(history)|, |old(history)|, CommitSend(reply.messageId, m, members));
      }
    }

    /** No earlier message was found, which may have changed by the time the transaction runs. */
    method SendFresh(id: nat, m: Message, members: seq<nat>, dbUp: bool, db: Answers) returns (reply: SendReply)
      requires Valid() && m.from != 0 && !m.recalled && Distinct(members) && Audience(m, members)
      modifies this
      ensures Valid() && SendInv(store) && KeepsMessages(old(store), store) && old(history) <= history
      ensures reply.code in {OK, DB_ERROR, MESSAGE_PERSIST_FAILED, OUTBOX_PUBLISH_FAILED}
      ensures db == NoFault && dbUp && reply.code != OK ==> id in store.messages || id in store.events
      ensures reply.code == OK ==> HasPair(store, reply.messageId, m.from, m.sequence)
      ensures reply.code == OK && !reply.replayed ==>
                Since(history, |old(history)|, CommitSend(reply.messageId, m, members))
    {
      Others();
      ghost var n := |history|;
      reply := CommitAndCache(id, m, members, dbUp, db);
      ghost var committed := history;
      Others();
      if reply.code == OK && !reply.replayed {
        SinceStays(committed, history, n, |old(history)|, CommitSend(id, m, members));
      }
    }

    method CommitAndCache(id: nat, m: Message, members: seq<nat>, dbUp: bool, db: Answers) returns (reply: SendReply)
      requires Valid() && m.from != 0 && !m.recalled && Distinct(members) && Audience(m, members)
      modifies this
      ensures Valid() && SendInv(store) && KeepsMessages(old(store), store) && old(history) <= history
      ensures reply.code in {OK, DB_ERROR, MESSAGE_PERSIST_FAILED, OUTBOX_PUBLISH_FAILED}
      ensures db == NoFault && dbUp && reply.code != OK ==> id in store.messages || id in store.events
      ensures reply.code == OK ==> HasPair(store, reply.messageId, m.from, m.sequence)
      ensures reply.code == OK && !reply.replayed ==>
                reply.messageId == id && Since(history, |old(history)|, CommitSend(id, m, members))
    {
      reply := CommitNew(id, m, members, dbUp, db);
      var cached: bool := *;
      if reply.code == OK && m.sequence != 0 && cached { Perform(CacheSet(m.from, m.sequence, reply.messageId)); }
      if reply.code == OK && !reply.replayed { assert history[|old(history)|] == CommitSend(id, m, members); }
    }

    method SendSingleMessage(dir: Directory, from: nat, to: nat, sequence: nat, length: nat, maxLength: nat, now: int,
                             id: nat, dbUp: bool, db: Answers)
      returns (reply: SendReply)
      requires Valid()
      modifies this
      ensures Valid() && SendInv(store) && KeepsMessages(old(store), store) && old(history) <= history
      ensures var check := CheckSingle(dir, from, to, length, maxLength);
              && (check != OK ==> reply == SendReply(check, 0, false) && history == old(history))
              && (check == OK && dbUp && sequence != 0 ==>
                    forall x: nat :: HasPair(old(store), x, from, sequence) ==> reply == SendReply(OK, x, true))
      ensures AnswersSingle(dir, from, to, length, maxLength, reply.code)
      ensures db == NoFault && dbUp && reply.code in {DB_ERROR, MESSAGE_PERSIST_FAILED, OUTBOX_PUBLISH_FAILED} ==>
                id in store.messages || id in store.events
      ensures reply.code == OK ==> HasPair(store, reply.messageId, from, sequence)
      ensures reply.code == OK && !reply.replayed ==>
                Since(history, |old(history)|,
                      CommitSend(reply.messageId, Message(SingleId(from, to), from, sequence, to, false, now),
                                 [from, to]))
    {
      Reached();
      var check := CheckSingle(dir, from, to, length, maxLength);
      if check != OK { return SendReply(check, 0, false); }
      reply := SendAccepted(id, Message(SingleId(from, to), from, sequence, to, false, now), [from, to], dbUp, db);
    }

    method SendGroupMessage(dir: Directory, from: nat, group: nat, sequence: nat, length: nat, maxLength: nat, now: int,
                            id: nat, dbUp: bool, db: Answers)
      returns (reply: SendReply)
      requires Valid() && forall g :: g in dir.groups ==> Distinct(dir.groups[g])
      modifies this
      ensures Valid() && SendInv(store) && KeepsMessages(old(store), store) && old(history) <= history
      ensures var check := CheckGroup(dir, from, group, length, maxLength);
              && (check != OK ==> reply == SendReply(check, 0, false) && history == old(history))
              && (check == OK && dbUp && sequence != 0 ==>
                    forall x: nat :: HasPair(old(store), x, from, sequence) ==> reply == SendReply(OK, x, true))
      ensures AnswersGroup(dir, from, group, length, maxLength, reply.code)
      ensures db == NoFault && dbUp && reply.code in {DB_ERROR, MESSAGE_PERSIST_FAILED, OUTBOX_PUBLISH_FAILED} ==>
                id in store.messages || id in store.events
      ensures reply.code == OK ==> HasPair(store, reply.messageId, from, sequence)
      ensures reply.code == OK && !reply.replayed ==>
                group in dir.groups &&
                Since(history, |old(history)|,
                      CommitSend(reply.messageId, Message(GroupChat(group), from, sequence, 0, false, now),
                                 dir.groups[group]))
    {
      Reached();
      var check := CheckGroup(dir, from, group, length, maxLength);
      if check != OK { return SendReply(check, 0, false); }
      reply := SendAccepted(id, Message(GroupChat(group), from, sequence, 0, false, now), dir.groups[group], dbUp, db);
    }

    // -------------------------------------------------------------- acks, reads and recalls

    /** One transaction that either happens, fails, or fails after taking effect. */
    method Transact(a: Action, ok: bool, applied: bool) returns (code: Code)
      requires Valid() && Enabled(store, a)
      modifies this
      ensures Valid() && KeepsMessages(old(store), store) && code == if ok then OK else DB_ERROR
      ensures code == OK ==> history == old(history) + [a] && store == Apply(old(store), a)
      ensures history == old(history) || history == old(history) + [a]
    {
      if ok || applied { Perform(a); }
      code := if ok then OK else DB_ERROR;
    }

    /** `before` is the store the transaction found. */
    method AckMessage(dir: Directory, user: nat, id: nat, now: int, ok: bool, applied: bool)
      returns (code: Code, ghost before: Store)
      requires Valid()
      modifies this
      ensures Valid() && old(history) <= history
      ensures code == if user == 0 || id == 0 then INVALID_ARGUMENT
                      else if user !in dir.users then USER_NOT_FOUND
                      else if id !in old(store).messages then MESSAGE_NOT_FOUND
                      else if !CanReceive(old(store), user, old(store).messages[id]) then MESSAGE_PERMISSION_DENIED
                      else if ok then OK else DB_ERROR
      ensures code == MESSAGE_PERMISSION_DENIED <==>
                && user != 0 && id != 0 && user in dir.users
                && id in old(store).messages && !SentTo(old(store), user, id)
      ensures code == OK ==> CommitAck(id, user, now) == history[|history| - 1]
      ensures code == OK ==>
                && (user, id) in store.offlineAcks
                && (id, user) in store.receipts && store.receipts[(id, user)].deliveredAt >= now
      ensures KeepsMessages(old(store), before) && (code == OK ==> AckedOne(before, store, id, user, now))
      ensures code != OK && code != DB_ERROR ==> history == old(history)
    {
      if user == 0 || id == 0 { return INVALID_ARGUMENT, store; }
      if user !in dir.users { return USER_NOT_FOUND, store; }
      if id !in store.messages { return MESSAGE_NOT_FOUND, store; }
      if !CanReceive(store, user, store.messages[id]) { return MESSAGE_PERMISSION_DENIED, store; }
      Others();
      before := store;
      code := Transact(CommitAck(id, user, now), ok, applied);
      if code == OK { AckExact(before, id, user, now); }
    }

    method MarkMessageRead(user: nat, id: nat, now: int, ok: bool, applied: bool)
      returns (code: Code, ghost before: Store)
      requires Valid()
      modifies this
      ensures Valid() && old(history) <= history
      ensures code == if user == 0 || id == 0 then INVALID_ARGUMENT
                      else if id !in old(store).messages then MESSAGE_NOT_FOUND
                      else if !CanReceive(old(store), user, old(store).messages[id]) then MESSAGE_PERMISSION_DENIED
                      else if ok then OK else DB_ERROR
      ensures code == MESSAGE_PERMISSION_DENIED <==>
                && user != 0 && id != 0
                && id in old(store).messages && !SentTo(old(store), user, id)
      ensures KeepsMessages(old(store), before)
      ensures code == OK ==> id in before.messages && ReadOne(before, store, id, user, now)
      ensures code == OK ==> CommitRead(id, user, now) == history[|history| - 1]
      ensures code != OK && code != DB_ERROR ==> history == old(history)
    {
      if user == 0 || id == 0 { return INVALID_ARGUMENT, store; }
      if id !in store.messages { return MESSAGE_NOT_FOUND, store; }
      if !CanReceive(store, user, store.messages[id]) { return MESSAGE_PERMISSION_DENIED, store; }
      Others();
      before := store;
      code := Transact(CommitRead(id, user, now), ok, applied);
      if code == OK { ReadOneExact(before, id, user, now); }
    }

    method MarkConversationRead(user: nat, c: ConvId, cursor: nat, now: int, ok: bool, applied: bool)
      returns (code: Code, ghost before: Store)
      requires Valid()
      modifies this
      ensures Valid() && old(history) <= history
      ensures code == if user == 0 || cursor == 0 then INVALID_ARGUMENT
                      else if !IsOwner(old(store), user, c) then CONVERSATION_NOT_FOUND
                      else if cursor !in old(store).messages ||
                           old(store).messages[cursor].conv != c then MESSAGE_NOT_FOUND
                      else if ok then OK else DB_ERROR
      ensures code == CONVERSATION_NOT_FOUND <==>
                user != 0 && cursor != 0 &&
                    !((user, c) in old(store).convs && !old(store).convs[(user, c)].deleted)
      ensures KeepsMessages(old(store), before)
      ensures code == OK ==> cursor in before.messages && ReadThrough(before, store, c, user, cursor, now)
      ensures code == OK ==> CommitReadUpTo(c, user, cursor, now) == history[|history| - 1]
      ensures code != OK && code != DB_ERROR ==> history == old(history)
    {
      if user == 0 || cursor == 0 { return INVALID_ARGUMENT, store; }
      if !IsOwner(store, user, c) { return CONVERSATION_NOT_FOUND, store; }
      if cursor !in store.messages || store.messages[cursor].conv != c { return MESSAGE_NOT_FOUND, store; }
      Others();
      before := store;
      code := Transact(CommitReadUpTo(c, user, cursor, now), ok, applied);
      if code == OK { ReadUpToExact(before, c, user, cursor, now); }
    }

    /** The transaction of a recall. An update that fails or finds the message recalled is told apart by
    reading the message again. */
    method RecallFound(id: nat, eventId: nat, db: Answers, rereads: bool) returns (code: Code, ghost before: Store)
      requires Valid() && id in store.messages
      modifies this
      ensures Valid() && old(history) <= history && before == old(store) && KeepsMessages(before, store)
      ensures if !db.begins then code == DB_ERROR
              else if before.messages[id].recalled then
                code == if rereads then MESSAGE_ALREADY_RECALLED else DB_ERROR
              else if !db.inserts then code in {MESSAGE_ALREADY_RECALLED, DB_ERROR}
              else if !db.events || eventId in before.events then code == OUTBOX_PUBLISH_FAILED
              else code == if db.upserts && db.commits then OK else DB_ERROR
      ensures code == OK || code == MESSAGE_ALREADY_RECALLED ==>
                id in store.messages && store.messages[id].recalled
      ensures code == OK ==> history[|history| - 1] == CommitRecall(id, eventId) && RecalledOne(before, store, id)
    {
      before := store;
      if !db.begins { return DB_ERROR, before; }
      if !db.inserts || store.messages[id].recalled {          // failed, or changed no row
        Others();
        code := if rereads && store.messages[id].recalled then MESSAGE_ALREADY_RECALLED else DB_ERROR;
        return code, before;
      }
      if !db.events || eventId in store.events { return OUTBOX_PUBLISH_FAILED, before; }
      if !db.upserts { return DB_ERROR, before; }
      code := Transact(CommitRecall(id, eventId), db.commits, db.applies);
      if code == OK { RecallExact(before, id, eventId); }
    }

    method RecallMessage(user: nat, id: nat, now: int, windowSeconds: nat, eventId: nat, db: Answers, rereads: bool)
      returns (code: Code, ghost before: Store)
      requires Valid()
      modifies this
      ensures Valid() && old(history) <= history
      ensures user == 0 || id == 0 ==> code == INVALID_ARGUMENT && history == old(history)
      ensures user != 0 && id != 0 && id !in old(store).messages ==>
                code == MESSAGE_NOT_FOUND && history == old(history)
      ensures user != 0 && id != 0 && id in old(store).messages ==>
                var m := old(store).messages[id];
                if m.from != user then code == MESSAGE_RECALL_PERMISSION_DENIED && history == old(history)
                else if m.recalled then code == MESSAGE_ALREADY_RECALLED && history == old(history)
                else if now - m.createdAt > windowSeconds * 1000 then code == MESSAGE_RECALL_TIMEOUT &&
                     history == old(history)
                else
                  && id in before.messages
                  && (if !db.begins then code == DB_ERROR
                      else if before.messages[id].recalled then
                        code == if rereads then MESSAGE_ALREADY_RECALLED else DB_ERROR
                      else if !db.inserts then code in {MESSAGE_ALREADY_RECALLED, DB_ERROR}
                      else if !db.events || eventId in before.events then code == OUTBOX_PUBLISH_FAILED
                      else code == if db.upserts && db.commits then OK else DB_ERROR)
                  && (code == OK || code == MESSAGE_ALREADY_RECALLED ==>
                      id in store.messages && store.messages[id].recalled)
                  && (code == OK ==> history[|history| - 1] == CommitRecall(id, eventId))
      ensures KeepsMessages(old(store), before)
      ensures code == OK ==> id in before.messages && RecalledOne(before, store, id)
    {
      if user == 0 || id == 0 { return INVALID_ARGUMENT, store; }
      if id !in store.messages { return MESSAGE_NOT_FOUND, store; }
      var m := store.messages[id];
      if m.from != user { return MESSAGE_RECALL_PERMISSION_DENIED, store; }
      if m.recalled { return MESSAGE_ALREADY_RECALLED, store; }
      if now - m.createdAt > windowSeconds * 1000 { return MESSAGE_RECALL_TIMEOUT, store; }
      Others();
      code, before := RecallFound(id, eventId, db, rereads);
    }
  }
}
