/** Keyset pagination of a conversation's history, newest page first. */
module Pagination {
  import opened Selection

  /** The sort key of a message; message ids are unique, so the key identifies it. */
  datatype Key = Key(time: int, id: nat)

  predicate Before(a: Key, b: Key) {
    a.time < b.time || (a.time == b.time && a.id < b.id)
  }

  /** Strictly increasing: in order, and nothing twice. */
  ghost predicate Ascending(ks: seq<Key>) {
    forall i, j :: 0 <= i < j < |ks| ==> Before(ks[i], ks[j])
  }

  /** The cursor clause of listConversationMessages. */
  function Matching(table: set<Key>, beforeTime: int, beforeId: nat): set<Key> {
    if beforeTime > 0 && beforeId > 0 then set k | k in table && Before(k, Key(beforeTime, beforeId))
    else if beforeTime > 0 then set k | k in table && k.time < beforeTime
    else table
  }

  // ---------------------------------------------------------------- the query

  /** ORDER BY created_at DESC, message_id DESC. */
  predicate Newer(a: Key, b: Key) {
    Before(b, a)
  }

  method ListConversationMessages(table: set<Key>, beforeTime: int, beforeId: nat, limit: nat) returns (rows: seq<Key>)
    ensures FirstOf(Newer, Matching(table, beforeTime, beforeId), limit, rows)
  {
    rows := Select(Newer, Matching(table, beforeTime, beforeId), limit);
  }

  // ---------------------------------------------------------------- a page

  datatype Page = Page(messages: seq<Key>, nextTime: int, nextId: nat, hasMore: bool)

  function PageLimit(pageSize: nat): nat {
    if pageSize == 0 then 50 else if pageSize <= 100 then pageSize else 100
  }

  /** `rows` are the `limit` newest of `matching`, or all of them if there are fewer. */
  ghost predicate Newest(matching: set<Key>, limit: nat, rows: set<Key>) {
    && rows <= matching && |rows| == (if |matching| <= limit then |matching| else limit)
    && forall k, r :: k in matching - rows && r in rows ==> Before(k, r)
  }

  /** The page holds the newest matching messages in reading order, and says whether older ones
  remain and where they start. */
  ghost predicate PageOf(matching: set<Key>, limit: nat, page: Page) {
    && Ascending(page.messages) && Newest(matching, limit, Elements(page.messages))
    && (page.hasMore <==> |matching| > limit)
    && (page.messages != [] ==> page.nextTime == page.messages[0].time && page.nextId == page.messages[0].id)
  }

  /** std::reverse on the row vector. */
  method Reverse(rows: array<Key>)
    modifies rows
    ensures forall i :: 0 <= i < rows.Length ==> rows[i] == old(rows[rows.Length - 1 - i])
  {
    var n, i := rows.Length, 0;
    while i < n / 2
      invariant 0 <= i <= n / 2
      invariant forall k :: 0 <= k < i ==> rows[k] == old(rows[n - 1 - k]) && rows[n - 1 - k] == old(rows[k])
      invariant forall k :: i <= k < n - i ==> rows[k] == old(rows[k])
    {
      rows[i], rows[n - 1 - i] := rows[n - 1 - i], rows[i];
      i := i + 1;
    }
  }

  /** Dropping the extra row that was fetched to see whether there is more. */
  lemma DropExtra(matching: set<Key>, limit: nat, rows: seq<Key>)
    requires FirstOf(Newer, matching, limit + 1, rows) && |rows| == limit + 1
    ensures FirstOf(Newer, matching, limit, rows[..limit]) && |matching| > limit
  {
    var kept, last := rows[..limit], rows[limit];
    assert rows == kept + [last];
    assert Elements(rows) == Elements(kept) + {last};
    assert last !in Elements(kept);
    forall k, late | k in Elements(kept) && late in matching - Elements(kept) ensures Newer(k, late) {
      if late == last {
        var i :| 0 <= i < limit && kept[i] == k;
        assert Newer(rows[i], rows[limit]);
      }
    }
  }

  /** What a reader gets for a request: the newest messages older than the cursor, oldest of them first,
  50 of them unless asked for another number up to 100. */
  ghost predicate Shows(table: set<Key>, pageSize: nat, beforeTime: int, beforeId: nat, page: Page) {
    var asked := set k | k in table && (beforeTime > 0 ==>
                                          k.time < beforeTime || (k.time == beforeTime && k.id < beforeId));
    var limit := if 1 <= pageSize <= 100 then pageSize else if pageSize == 0 then 50 else 100;
    var shown := page.messages;
    && |Elements(shown)| == (if |asked| < limit then |asked| else limit) && (page.hasMore <==> |asked| > limit)
    && (forall k :: k in shown ==> k in asked)
    && (forall i, j :: 0 <= i < j < |shown| ==>
          shown[i].time < shown[j].time || (shown[i].time == shown[j].time && shown[i].id < shown[j].id))
    && forall k, r :: k in asked && k !in shown && r in shown ==>
         k.time < r.time || (k.time == r.time && k.id < r.id)
  }

  lemma PageShows(table: set<Key>, pageSize: nat, beforeTime: int, beforeId: nat, page: Page)
    requires PageOf(Matching(table, beforeTime, beforeId), PageLimit(pageSize), page)
    ensures Shows(table, pageSize, beforeTime, beforeId, page)
  {
    var asked := set k | k in table && (beforeTime > 0 ==>
                                          k.time < beforeTime || (k.time == beforeTime && k.id < beforeId));
    assert asked == Matching(table, beforeTime, beforeId);
    forall k ensures k in page.messages <==> k in Elements(page.messages) {}
    forall k, r | k in asked && k !in page.messages && r in page.messages ensures Before(k, r) {
      assert k in asked - Elements(page.messages) && r in Elements(page.messages);
    }
  }

  method ListPage(table: set<Key>, pageSize: nat, beforeTime: int, beforeId: nat) returns (page: Page)
    ensures PageOf(Matching(table, beforeTime, beforeId), PageLimit(pageSize), page)
    ensures Shows(table, pageSize, beforeTime, beforeId, page)
  {
    var limit := PageLimit(pageSize);
    var rows := ListConversationMessages(table, beforeTime, beforeId, limit + 1);
    var hasMore := |rows| > limit;
    if hasMore {
      DropExtra(Matching(table, beforeTime, beforeId), limit, rows);
      rows := rows[..limit];
    }
    var vector := new Key[|rows|](i requires 0 <= i < |rows| => rows[i]);
    Reverse(vector);
    var messages := vector[..];
    assert forall i :: 0 <= i < |rows| ==> messages[i] == rows[|rows| - 1 - i];
    page := if messages == [] then Page(messages, 0, 0, hasMore)
            else Page(messages, messages[0].time, messages[0].id, hasMore);
    IsPage(Matching(table, beforeTime, beforeId), limit, rows, page);
    PageShows(table, pageSize, beforeTime, beforeId, page);
  }

  lemma IsPage(matching: set<Key>, limit: nat, rows: seq<Key>, page: Page)
    requires FirstOf(Newer, matching, limit, rows) && |page.messages| == |rows|
    requires forall i :: 0 <= i < |rows| ==> page.messages[i] == rows[|rows| - 1 - i]
    requires page.hasMore <==> |matching| > limit
    requires page.messages != [] ==> page.nextTime == page.messages[0].time && page.nextId == page.messages[0].id
    ensures PageOf(matching, limit, page)
  {
    SameElements(rows, page.messages);
  }

  lemma SameElements(rows: seq<Key>, messages: seq<Key>)
    requires |messages| == |rows| && forall i :: 0 <= i < |rows| ==> messages[i] == rows[|rows| - 1 - i]
    ensures Elements(messages) == Elements(rows)
    ensures Sorted(Newer, rows) ==> Ascending(messages)
  {
    forall k | k in rows ensures k in messages {
      var i :| 0 <= i < |rows| && rows[i] == k;
      assert messages[|rows| - 1 - i] == k;
    }
  }

  // ---------------------------------------------------------------- following the cursor

  /** Where the cursor clause applies it means: strictly before the cursor. */
  lemma MatchingIsBefore(table: set<Key>, t: int, id: nat)
    requires t > 0
    ensures Matching(table, t, id) == set k | k in table && Before(k, Key(t, id))
  {
  }

  /** The next request resumes exactly after the page if and only if the cursor it is given has a
  positive time. */
  lemma ResumeExact(table: set<Key>, t: int, id: nat, limit: nat, page: Page)
    requires PageOf(Matching(table, t, id), limit, page) && limit > 0 && page.hasMore
    ensures Matching(table, page.nextTime, page.nextId) == Matching(table, t, id) - Elements(page.messages) <==>
              page.nextTime > 0
  {
    var matching, first := Matching(table, t, id), page.messages[0];
    assert first in Elements(page.messages);
    if page.nextTime > 0 {
      MatchingIsBefore(table, page.nextTime, page.nextId);
      forall k | k in table ensures Before(k, first) <==> k in matching && k !in Elements(page.messages) {
        if k in Elements(page.messages) {
          var i :| 0 <= i < |page.messages| && page.messages[i] == k;
        } else if k in matching {
          assert Before(k, first);
        } else {
          assert first in matching;
        }
      }
    } else {
      assert first in Matching(table, page.nextTime, page.nextId);
    }
  }

  /** With a non-positive time the same page comes back. */
  lemma ZeroTimeRepeats()
    ensures var table := {Key(0, 1), Key(0, 2)};
            var page := Page([Key(0, 2)], 0, 2, true);
            PageOf(Matching(table, 0, 0), 1, page) &&
                Matching(table, page.nextTime, page.nextId) == Matching(table, 0, 0)
  {
    var table := {Key(0, 1), Key(0, 2)};
    assert Elements([Key(0, 2)]) == {Key(0, 2)};
    assert table - {Key(0, 1)} == {Key(0, 2)};
  }

  ghost function Below(universe: set<Key>, started: bool, cursor: Key): set<Key> {
    if started then set k | k in universe && Before(k, cursor) else universe
  }

  /** Joining an older page in front. */
  lemma JoinPages(table: set<Key>, started: bool, cursor: Key, page: Page, limit: nat, all: seq<Key>)
    requires started ==> cursor.time > 0 && all != [] && all[0] == cursor
    requires !started ==> all == []
    requires PageOf(Matching(table, if started then cursor.time else 0, if started then cursor.id else 0), limit, page)
    requires Ascending(all)
    ensures Ascending(page.messages + all)
    ensures started ==> forall k :: k in page.messages ==> Before(k, cursor)
    ensures forall k :: k in page.messages ==> k in table
  {
    if started { MatchingIsBefore(table, cursor.time, cursor.id); }
    assert forall k :: k in page.messages ==> k in Elements(page.messages);
    var older := page.messages;
    forall i, j | 0 <= i < j < |older + all| ensures Before((older + all)[i], (older + all)[j]) {
      if i < |older| <= j {
        assert older[i] in page.messages;
        assert j > |older| ==> Before(all[0], all[j - |older|]);
      }
    }
  }

  /** What one fetch leaves to be found: only what lies before its first message. */
  lemma FetchCovers(table: set<Key>, started: bool, cursor: Key, page: Page, limit: nat, k: Key)
    requires started ==> cursor.time > 0
    requires PageOf(Matching(table, if started then cursor.time else 0, if started then cursor.id else 0), limit, page)
    requires limit > 0
    requires k in table && (started ==> Before(k, cursor))
    ensures k in page.messages || (page.hasMore && page.messages != [] && Before(k, page.messages[0]))
  {
    if started { MatchingIsBefore(table, cursor.time, cursor.id); }
    var matching := Matching(table, if started then cursor.time else 0, if started then cursor.id else 0);
    var rows := Elements(page.messages);
    assert k in matching;
    if k !in rows {
      if |matching| <= limit {
        SubsetSize(rows, matching);
        assert false;
      }
      assert |rows| == limit > 0;
      assert page.messages[0] in rows;
    }
  }

  lemma SubsetSize(a: set<Key>, b: set<Key>)
    requires a <= b && |a| == |b|
    ensures a == b
  {
    assert |b - a| == 0;
  }

  /** A client that follows the cursor while has_more, with any page sizes, while other messages
  keep arriving. It stops, and has then read every message that was there at the start, once, in
  order, and nothing that is not there. `universe` is everything that ever arrives. */
  method ReadAll(initial: set<Key>, universe: set<Key>) returns (all: seq<Key>, table: set<Key>)
    requires initial <= universe && forall k :: k in universe ==> k.time > 0
    ensures initial <= table <= universe
    ensures Ascending(all) && Elements(all) <= table && initial <= Elements(all)
  {
    all, table := [], initial;
    var started, cursor, more := false, Key(0, 0), true;
    while more
      invariant initial <= table <= universe && Ascending(all) && forall k :: k in all ==> k in table
      invariant more && started ==> cursor.time > 0 && all != [] && all[0] == cursor
      invariant more && !started ==> all == [] && cursor == Key(0, 0)
      invariant forall k :: k in initial ==> k in all || (more && (started ==> Before(k, cursor)))
      decreases Below(universe, started, cursor), more
    {
      var arrived: set<Key> := *;
      table := table + (arrived * universe);
      var pageSize: nat := *;
      var page := ListPage(table, pageSize, cursor.time, cursor.id);
      var limit := PageLimit(pageSize);
      forall k | k in initial && k !in all
        ensures k in page.messages || (page.hasMore && page.messages != [] && Before(k, page.messages[0]))
      {
        FetchCovers(table, started, cursor, page, limit, k);
      }
      JoinPages(table, started, cursor, page, limit, all);
      if page.hasMore {
        assert |Elements(page.messages)| == limit > 0;
        assert page.messages[0] in page.messages;
        var next := Key(page.nextTime, page.nextId);
        assert Below(universe, true, next) <= Below(universe, started, cursor);
        assert next in Below(universe, started, cursor) && next !in Below(universe, true, next);
        started, cursor := true, next;
      }
      all := page.messages + all;
      more := page.hasMore;
    }
  }
}
