/** The offline message table: hex payloads, and the pull and ack status machine. */
module OfflineMessages {
  import opened Bytes
  import opened Selection

  // ---------------------------------------------------------------- hex

  /** The digit table, lower case. */
  function Digit(v: nat): char
    requires v < 16
  {
    if v < 10 then ('0' as int + v) as char else ('a' as int + v - 10) as char
  }

  function HexValue(c: char): (v: int)
    ensures -1 <= v < 16
  {
    if '0' <= c <= '9' then c as int - '0' as int
    else if 'a' <= c <= 'f' then c as int - 'a' as int + 10
    else if 'A' <= c <= 'F' then c as int - 'A' as int + 10
    else -1
  }

  /** Payloads are written in lower case. */
  lemma HexAlphabet(v: nat)
    requires v < 16
    ensures Digit(v) == "0123456789abcdef"[v]
  {
  }

  /** They are read in either case. */
  lemma HexEitherCase(c: char)
    requires 'a' <= c <= 'f'
    ensures HexValue((c as int - 'a' as int + 'A' as int) as char) == HexValue(c) >= 10
  {
  }

  function Pair(b: byte): (h: string)
    ensures |h| == 2
  {
    [Digit(b / 16), Digit(b % 16)]
  }

  function Hex(bytes: seq<byte>): (h: string)
    ensures |h| == 2 * |bytes|
  {
    if bytes == [] then [] else Hex(bytes[..|bytes| - 1]) + Pair(bytes[|bytes| - 1])
  }

  ghost predicate IsHex(h: string) {
    |h| % 2 == 0 && forall i :: 0 <= i < |h| ==> HexValue(h[i]) >= 0
  }

  function Unhex(h: string): (bytes: seq<byte>)
    requires IsHex(h)
    ensures |bytes| == |h| / 2
  {
    if h == [] then []
    else Unhex(h[..|h| - 2]) + [16 * HexValue(h[|h| - 2]) + HexValue(h[|h| - 1])]
  }

  lemma DigitValue(v: nat)
    requires v < 16
    ensures HexValue(Digit(v)) == v
  {
  }

  lemma UnhexAppend(h: string, a: char, b: char)
    requires IsHex(h) && HexValue(a) >= 0 && HexValue(b) >= 0
    ensures IsHex(h + [a, b]) && Unhex(h + [a, b]) == Unhex(h) + [16 * HexValue(a) + HexValue(b)]
  {
    var h' := h + [a, b];
    assert h'[..|h'| - 2] == h;
  }

  lemma UnhexPair(h: string, b: byte)
    requires IsHex(h)
    ensures IsHex(h + Pair(b)) && Unhex(h + Pair(b)) == Unhex(h) + [b]
  {
    DigitValue(b / 16);
    DigitValue(b % 16);
    UnhexAppend(h, Digit(b / 16), Digit(b % 16));
  }

  /** Every payload comes back from its stored form. */
  lemma {:induction false} HexRoundTrip(bytes: seq<byte>)
    ensures IsHex(Hex(bytes)) && Unhex(Hex(bytes)) == bytes
  {
    if bytes != [] {
      var front, last := bytes[..|bytes| - 1], bytes[|bytes| - 1];
      HexRoundTrip(front);
      var h := Hex(front);
      UnhexPair(h, last);
      assert Hex(bytes) == h + Pair(last);
      assert bytes == front + [last];
    }
  }

  method ToHex(bytes: seq<byte>) returns (out: string)
    ensures out == Hex(bytes)
  {
    out := [];
    for i := 0 to |bytes|
      invariant out == Hex(bytes[..i])
    {
      assert bytes[..i + 1][..i] == bytes[..i];
      out := out + [Digit(bytes[i] / 16)];
      out := out + [Digit(bytes[i] % 16)];
    }
    assert bytes[..|bytes|] == bytes;
  }

  /** Malformed text gives the empty payload. */
  method FromHex(hex: string) returns (out: seq<byte>)
    ensures out == if IsHex(hex) then Unhex(hex) else []
  {
    if |hex| % 2 != 0 { return []; }
    out := [];
    var i := 0;
    while i < |hex|
      invariant 0 <= i <= |hex| && i % 2 == 0 && IsHex(hex[..i]) && out == Unhex(hex[..i])
    {
      var hi, lo := HexValue(hex[i]), HexValue(hex[i + 1]);
      if hi < 0 || lo < 0 { return []; }
      assert hex[..i + 2][..i] == hex[..i];
      out := out + [16 * hi + lo];
      i := i + 2;
    }
    assert hex[..|hex|] == hex;
  }

  // ---------------------------------------------------------------- the table

  datatype Key = Key(user: nat, message: nat)

  datatype Status = Unread | Pulled | Acked

  datatype Row = Row(payload: string, status: Status, created: int)

  datatype Event =
    | Insert(key: Key, bytes: seq<byte>, at: int)
    | Pull(user: nat, messages: set<nat>)
    | Ack(key: Key)

  type Table = map<Key, Row>

  function Apply(t: Table, e: Event): Table {
    match e
    case Insert(k, bytes, at) =>
      if k !in t then t[k := Row(Hex(bytes), Unread, at)]
      else if t[k].status.Acked? then t
      else t[k := t[k].(payload := Hex(bytes), status := Unread)]
    case Pull(u, ms) =>
      map k | k in t :: if k.user == u && k.message in ms && !t[k].status.Acked? then t[k].(status := Pulled) else t[k]
    case Ack(k) => if k in t then t[k := t[k].(status := Acked)] else t
  }

  lemma PullMore(t: Table, u: nat, ms: set<nat>, m: nat)
    ensures var before, k := Apply(t, Pull(u, ms)), Key(u, m);
            Apply(t, Pull(u, ms + {m})) ==
            if k in before && !before[k].status.Acked? then before[k := before[k].(status := Pulled)] else before
  {
  }

  ghost function Replay(h: seq<Event>): Table {
    if h == [] then map[] else Apply(Replay(h[..|h| - 1]), h[|h| - 1])
  }

  predicate Inserts(e: Event, k: Key) {
    e.Insert? && e.key == k
  }

  ghost predicate Inserted(h: seq<Event>, k: Key) {
    exists i :: 0 <= i < |h| && Inserts(h[i], k)
  }

  /** The message was acknowledged after it had been stored. */
  ghost predicate Settled(h: seq<Event>, k: Key) {
    exists j :: 0 <= j < |h| && h[j] == Ack(k) && Inserted(h[..j], k)
  }

  /** `bytes` came with the last insert before the acknowledgement, if there was one. */
  ghost predicate Stored(h: seq<Event>, k: Key, bytes: seq<byte>) {
    exists i :: 0 <= i < |h| && Inserts(h[i], k) && h[i].bytes == bytes && LastCounting(h, i, k)
  }

  ghost predicate LastCounting(h: seq<Event>, i: nat, k: Key)
    requires i < |h|
  {
    !Settled(h[..i], k) && forall j :: i < j < |h| && Inserts(h[j], k) ==> Settled(h[..j], k)
  }

  lemma InsertedAppend(h: seq<Event>, e: Event, k: Key)
    ensures Inserted(h + [e], k) <==> Inserted(h, k) || Inserts(e, k)
  {
    var h' := h + [e];
    if Inserted(h, k) {
      var i :| 0 <= i < |h| && Inserts(h[i], k);
      assert Inserts(h'[i], k);
    }
    if Inserts(e, k) { assert Inserts(h'[|h|], k); }
  }

  lemma SettledAppend(h: seq<Event>, e: Event, k: Key)
    ensures Settled(h + [e], k) <==> Settled(h, k) || (e == Ack(k) && Inserted(h, k))
  {
    var h' := h + [e];
    if Settled(h, k) {
      var j :| 0 <= j < |h| && h[j] == Ack(k) && Inserted(h[..j], k);
      assert h'[j] == Ack(k) && h'[..j] == h[..j];
    }
    if e == Ack(k) && Inserted(h, k) {
      assert h'[|h|] == Ack(k) && h'[..|h|] == h;
    }
    if Settled(h', k) && !(e == Ack(k) && Inserted(h, k)) {
      var j :| 0 <= j < |h'| && h'[j] == Ack(k) && Inserted(h'[..j], k);
      assert h'[..|h|] == h;
      assert j < |h| && h'[..j] == h[..j] && h[j] == Ack(k);
    }
  }

  lemma StoredAppend(h: seq<Event>, e: Event, k: Key, bytes: seq<byte>)
    requires if Inserts(e, k) && !Settled(h, k) then e.bytes == bytes else Stored(h, k, bytes)
    ensures Stored(h + [e], k, bytes)
  {
    var h' := h + [e];
    if Inserts(e, k) && !Settled(h, k) {
      assert h'[..|h|] == h && Inserts(h'[|h|], k) && LastCounting(h', |h|, k);
    } else {
      var i :| 0 <= i < |h| && Inserts(h[i], k) && h[i].bytes == bytes && LastCounting(h, i, k);
      assert h'[..i] == h[..i];
      forall j | i < j < |h'| && Inserts(h'[j], k) ensures Settled(h'[..j], k) {
        assert h'[..j] == if j < |h| then h[..j] else h;
      }
      assert Inserts(h'[i], k) && LastCounting(h', i, k);
    }
  }

  /** The table is what the history says: a row for every message inserted, acknowledged exactly when
  an ack came after an insert, holding the payload of the last insert before that. */
  lemma {:induction false} TableIsHistory(h: seq<Event>, k: Key)
    ensures k in Replay(h) <==> Inserted(h, k)
    ensures k in Replay(h) ==>
              && (Replay(h)[k].status.Acked? <==> Settled(h, k))
              && IsHex(Replay(h)[k].payload) && Stored(h, k, Unhex(Replay(h)[k].payload))
  {
    if h != [] {
      var front, e := h[..|h| - 1], h[|h| - 1];
      assert h == front + [e];
      TableIsHistory(front, k);
      InsertedAppend(front, e, k);
      SettledAppend(front, e, k);
      if k in Replay(h) {
        if Inserts(e, k) { HexRoundTrip(e.bytes); }
        if !Inserted(front, k) { NothingSettled(front, k); }
        StoredAppend(front, e, k, Unhex(Replay(h)[k].payload));
      }
    }
  }

  /** `at` came with the first insert of the message. */
  ghost predicate FirstInserted(h: seq<Event>, k: Key, at: int) {
    exists i :: 0 <= i < |h| && Inserts(h[i], k) && h[i].at == at && forall j :: 0 <= j < i ==> !Inserts(h[j], k)
  }

  /** A row's created_at, by which the list is ordered, is the time of the first insert. */
  lemma {:induction false} CreatedIsFirst(h: seq<Event>, k: Key)
    requires k in Replay(h)
    ensures FirstInserted(h, k, Replay(h)[k].created)
  {
    var front, e := h[..|h| - 1], h[|h| - 1];
    TableIsHistory(front, k);
    if k in Replay(front) {
      CreatedIsFirst(front, k);
      var at := Replay(front)[k].created;
      var i :| 0 <= i < |front| && Inserts(front[i], k) && front[i].at == at
               && forall j :: 0 <= j < i ==> !Inserts(front[j], k);
      assert Inserts(h[i], k) && forall j :: 0 <= j < i ==> h[j] == front[j];
    } else {
      assert Inserts(e, k);
      forall j | 0 <= j < |h| - 1 ensures !Inserts(h[j], k) { assert h[j] == front[j]; }
    }
  }

  lemma NothingSettled(h: seq<Event>, k: Key)
    requires !Inserted(h, k)
    ensures !Settled(h, k)
  {
    forall j | 0 <= j < |h| ensures !Inserted(h[..j], k) {
      forall i | 0 <= i < j ensures !Inserts(h[..j][i], k) { assert h[..j][i] == h[i]; }
    }
  }

  // ---------------------------------------------------------------- the DAO

  datatype Message = Message(key: Key, payload: seq<byte>)

  /** ORDER BY created_at ASC, message_id ASC. */
  predicate Earlier(t: Table, a: Key, b: Key) {
    && a in t && b in t
    && (t[a].created < t[b].created || (t[a].created == t[b].created && a.message < b.message))
  }

  /** A user's messages that were stored and not acknowledged since, pulled or not. */
  function Waiting(t: Table, user: nat): set<Key> {
    set k | k in t && k.user == user && !t[k].status.Acked?
  }

  /** The `limit` oldest waiting messages, oldest first. */
  ghost predicate OldestFirst(t: Table, user: nat, limit: nat, ks: seq<Key>) {
    FirstOf((a, b) => Earlier(t, a, b), Waiting(t, user), limit, ks)
  }

  /** What a user is listed: stored messages of their own that they have not acknowledged, by the time they
  were stored and then by id, and none left out while there is room. */
  ghost predicate Listed(t: Table, user: nat, limit: nat, ks: seq<Key>) {
    && (forall k :: k in ks ==> k in t && k.user == user && t[k].status != Acked)
    && |ks| <= limit
    && (forall i, j :: 0 <= i < j < |ks| ==>
          SoonerThan(t[ks[i]].created, ks[i].message, t[ks[j]].created, ks[j].message))
    && forall k :: k in t && k.user == user && t[k].status != Acked && k !in ks ==>
         |ks| == limit && forall r :: r in ks ==> SoonerThan(t[r].created, r.message, t[k].created, k.message)
  }

  predicate SoonerThan(at: int, m: nat, otherAt: int, other: nat) {
    at <= otherAt && (at == otherAt ==> m < other)
  }

  lemma OldestFirstListed(t: Table, user: nat, limit: nat, ks: seq<Key>)
    requires OldestFirst(t, user, limit, ks)
    ensures Listed(t, user, limit, ks)
  {
    var lt := (a, b) => Earlier(t, a, b);
    forall k ensures k in ks <==> k in Elements(ks) {}
    forall k | k in t && k.user == user && t[k].status != Acked && k !in ks
      ensures |ks| == limit && forall r :: r in ks ==> SoonerThan(t[r].created, r.message, t[k].created, k.message)
    {
      assert k in Waiting(t, user) - Elements(ks);
      if |ks| < limit { StrictlyFewer(Elements(ks), Waiting(t, user), k); }
      forall r | r in ks ensures Earlier(t, r, k) { assert r in Elements(ks) && lt(r, k); }
    }
    forall i, j | 0 <= i < j < |ks| ensures Earlier(t, ks[i], ks[j]) { assert lt(ks[i], ks[j]); }
  }

  /** The page for these keys: the oldest waiting messages with the payloads stored for them. */
  ghost predicate IsPage(h: seq<Event>, user: nat, limit: nat, keys: seq<Key>, page: seq<Message>) {
    && OldestFirst(Replay(h), user, limit, keys) && |page| == |keys|
    && forall i :: 0 <= i < |keys| ==>
         page[i].key == keys[i] && Stored(h, keys[i], page[i].payload) && !Settled(h, keys[i])
  }

  /** The messages of a page whose payload parses. */
  function Parsable(page: seq<Message>, parses: seq<byte> -> bool): seq<Message> {
    if page == [] then []
    else
      var m := page[|page| - 1];
      Parsable(page[..|page| - 1], parses) + if parses(m.payload) then [m] else []
  }

  class OfflineMessageDao {
    var rows: Table
    ghost var history: seq<Event>

    ghost predicate Valid()
      reads this
    {
      rows == Replay(history)
    }

    constructor ()
      ensures Valid() && history == []
    {
      rows, history := map[], [];
    }

    ghost method Record(e: Event)
      requires rows == Apply(Replay(history), e)
      modifies this`history
      ensures Valid() && history == old(history) + [e]
    {
      history := history + [e];
      assert history[..|history| - 1] == old(history);
    }

    method InsertOfflineMessage(key: Key, payload: seq<byte>, at: int)
      requires Valid()
      modifies this
      ensures Valid() && history == old(history) + [Insert(key, payload, at)]
    {
      var hex := ToHex(payload);
      if key !in rows {
        rows := rows[key := Row(hex, Unread, at)];
      } else if !rows[key].status.Acked? {
        rows := rows[key := rows[key].(payload := hex, status := Unread)];
      }
      Record(Insert(key, payload, at));
    }

    /** UPDATE ... WHERE message_id IN (...) AND status IN (0,1), row by row. */
    method MarkBatchAsPulled(user: nat, messages: seq<nat>)
      requires Valid()
      modifies this
      ensures Valid() && history == old(history) + [Pull(user, Elements(messages))]
    {
      var i := 0;
      while i < |messages|
        invariant 0 <= i <= |messages| && history == old(history)
        invariant rows == Apply(old(rows), Pull(user, Elements(messages[..i])))
      {
        var k := Key(user, messages[i]);
        assert messages[..i + 1] == messages[..i] + [messages[i]];
        assert Elements(messages[..i + 1]) == Elements(messages[..i]) + {messages[i]};
        PullMore(old(rows), user, Elements(messages[..i]), messages[i]);
        if k in rows && !rows[k].status.Acked? {
          rows := rows[k := rows[k].(status := Pulled)];
        }
        i := i + 1;
      }
      assert messages[..|messages|] == messages;
      Record(Pull(user, Elements(messages)));
    }

    method MarkAsAcked(key: Key)
      requires Valid()
      modifies this
      ensures Valid() && history == old(history) + [Ack(key)]
    {
      if key in rows {
        rows := rows[key := rows[key].(status := Acked)];
      }
      Record(Ack(key));
    }

    /** listOfflineMessages: the oldest waiting messages, oldest first, with their payloads. */
    method ListOfflineMessages(user: nat, limit: nat) returns (messages: seq<Message>, ghost keys: seq<Key>)
      requires Valid()
      ensures IsPage(history, user, limit, keys, messages) && Listed(rows, user, limit, keys)
    {
      var selected := SelectOldest(rows, user, limit);
      OldestFirstListed(rows, user, limit, selected);
      keys := selected;
      messages := [];
      for i := 0 to |selected|
        invariant |messages| == i
        invariant forall j :: 0 <= j < i ==>
                    messages[j].key == keys[j] && Stored(history, keys[j], messages[j].payload) &&
                        !Settled(history, keys[j])
      {
        var k := selected[i];
        assert k in Elements(selected) && k in Waiting(rows, user);
        TableIsHistory(history, k);
        var payload := FromHex(rows[k].payload);
        messages := messages + [Message(k, payload)];
      }
    }

    /** Whatever other requests do. */
    method Meanwhile(others: seq<Event>)
      requires Valid()
      modifies this
      ensures Valid() && history == old(history) + others
    {
      for i := 0 to |others|
        invariant Valid() && history == old(history) + others[..i]
      {
        rows := Apply(rows, others[i]);
        Record(others[i]);
        assert others[..i + 1] == others[..i] + [others[i]];
      }
      assert others[..|others|] == others;
    }

    /** PullOfflineMessages: the messages of the page whose payload parses are handed out and marked,
    or, when a statement fails, nothing is handed out or marked. `others` happens between the page and the
    transaction. What was handed out stays waiting until it is acknowledged. */
    method PullOfflineMessages(user: nat, pageSize: nat, pullLimit: nat, parses: seq<byte> -> bool, dbOk: bool,
                               others: seq<Event>)
      returns (delivered: seq<Message>, ghost page: seq<Message>, ghost keys: seq<Key>)
      requires Valid()
      modifies this
      ensures Valid() && IsPage(old(history), user, PullLimit(pageSize, pullLimit), keys, page)
      ensures Listed(old(rows), user, if 1 <= pageSize <= pullLimit then pageSize else pullLimit, keys)
      ensures delivered == if dbOk then Parsable(page, parses) else []
      ensures history == old(history) + others + if dbOk then [Pull(user, MessageIdsOf(delivered))] else []
      ensures Waiting(rows, user) == Waiting(Replay(old(history) + others), user)
    {
      var listed;
      listed, keys := ListOfflineMessages(user, PullLimit(pageSize, pullLimit));
      page := listed;
      Meanwhile(others);
      if !dbOk { return [], page, keys; }
      var ids;
      delivered, ids := ParseAll(listed, parses);
      ghost var before := rows;
      MarkBatchAsPulled(user, ids);
      assert history[..|history| - 1] == old(history) + others;
      assert rows == Apply(before, Pull(user, Elements(ids)));
      PullKeepsWaiting(before, user, Elements(ids));
    }
  }

  /** The loop of PullOfflineMessages over its page. */
  method ParseAll(page: seq<Message>, parses: seq<byte> -> bool) returns (delivered: seq<Message>, ids: seq<nat>)
    ensures delivered == Parsable(page, parses) && Elements(ids) == MessageIdsOf(delivered)
  {
    delivered, ids := [], [];
    for i := 0 to |page|
      invariant delivered == Parsable(page[..i], parses) && Elements(ids) == MessageIdsOf(delivered)
    {
      assert page[..i + 1][..i] == page[..i];
      if parses(page[i].payload) {
        IdsAppend(delivered, page[i]);
        assert Elements(ids + [page[i].key.message]) == Elements(ids) + {page[i].key.message};
        delivered := delivered + [page[i]];
        ids := ids + [page[i].key.message];
      }
    }
    assert page[..|page|] == page;
  }

  /** Exactly the parsable ones, in the page's order. */
  lemma {:induction false} ParsableIs(page: seq<Message>, parses: seq<byte> -> bool)
    ensures forall m :: m in Parsable(page, parses) <==> m in page && parses(m.payload)
    ensures |Parsable(page, parses)| <= |page|
  {
    if page != [] {
      var front, m := page[..|page| - 1], page[|page| - 1];
      ParsableIs(front, parses);
      assert page == front + [m];
    }
  }

  function PullLimit(pageSize: nat, pullLimit: nat): nat {
    if pageSize == 0 || pageSize > pullLimit then pullLimit else pageSize
  }

  ghost function MessageIdsOf(ms: seq<Message>): set<nat> {
    set m | m in ms :: m.key.message
  }

  lemma IdsAppend(ms: seq<Message>, m: Message)
    ensures MessageIdsOf(ms + [m]) == MessageIdsOf(ms) + {m.key.message}
  {
    assert forall x :: x in ms + [m] <==> x in ms || x == m;
  }

  /** Pulling takes nothing off the list: a message waits until it is acknowledged. */
  lemma PullKeepsWaiting(t: Table, user: nat, ms: set<nat>)
    ensures Waiting(Apply(t, Pull(user, ms)), user) == Waiting(t, user)
  {
  }

  method SelectOldest(t: Table, user: nat, limit: nat) returns (ks: seq<Key>)
    ensures OldestFirst(t, user, limit, ks)
  {
    ks := Select((a, b) => Earlier(t, a, b), Waiting(t, user), limit);
  }
}
