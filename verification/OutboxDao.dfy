/** The outbox table's statements, and how they are the step system's database steps. */
module OutboxDaos {
  import opened PipelineState
  import opened Selection

  /** A row of outbox_events with the columns that order it. */
  datatype Stored = Stored(row: Row, createdAt: int, rowId: nat)

  type Table = map<nat, Stored>

  predicate Older(t: Table, a: nat, b: nat) {
    && a in t && b in t
    && (t[a].createdAt < t[b].createdAt || (t[a].createdAt == t[b].createdAt && t[a].rowId < t[b].rowId))
  }

  /** The rows a claiming SELECT sees: due, and not locked by another transaction. */
  function Due(t: Table, now: int, locked: set<nat>): set<nat> {
    set id | id in t && id !in locked && Claimable(t[id].row, now)
  }

  /** The oldest due events, oldest first. */
  ghost predicate OldestDue(t: Table, now: int, locked: set<nat>, limit: nat, ids: seq<nat>) {
    FirstOf((a, b) => Older(t, a, b), Due(t, now, locked), limit, ids)
  }

  /** What a worker is handed: events that wait to be published, failed or were left by another worker,
  whose time has come; by the time they were created and then by row, and none left out while there is room. */
  ghost predicate Handed(t: Table, now: int, locked: set<nat>, limit: nat, ids: seq<nat>) {
    && (forall id :: id in ids ==> Waits(t, now, locked, id))
    && |ids| <= limit
    && (forall i, j :: 0 <= i < j < |ids| ==> Waits(t, now, locked, ids[i]) && Waits(t, now, locked, ids[j])
                                                     && CreatedSooner(t[ids[i]], t[ids[j]]))
    && forall id :: Waits(t, now, locked, id) && id !in ids ==>
         |ids| == limit && forall r :: r in ids ==> CreatedSooner(t[r], t[id])
  }

  predicate Waits(t: Table, now: int, locked: set<nat>, id: nat) {
    && id in t && id !in locked && t[id].row.nextRetryAt <= now
    && t[id].row.status != PUBLISHED && t[id].row.status != DEAD
  }

  predicate CreatedSooner(a: Stored, b: Stored) {
    a.createdAt <= b.createdAt && (a.createdAt == b.createdAt ==> a.rowId < b.rowId)
  }

  lemma OldestDueHanded(t: Table, now: int, locked: set<nat>, limit: nat, ids: seq<nat>)
    requires OldestDue(t, now, locked, limit, ids)
    ensures Handed(t, now, locked, limit, ids)
  {
    var lt := (a, b) => Older(t, a, b);
    forall id ensures id in ids <==> id in Elements(ids) {}
    forall id ensures Waits(t, now, locked, id) <==> id in Due(t, now, locked) {}
    forall id | Waits(t, now, locked, id) && id !in ids
      ensures |ids| == limit && forall r :: r in ids ==> CreatedSooner(t[r], t[id])
    {
      assert id in Due(t, now, locked) - Elements(ids);
      if |ids| < limit { StrictlyFewer(Elements(ids), Due(t, now, locked), id); }
      forall r | r in ids ensures Older(t, r, id) { assert r in Elements(ids) && lt(r, id); }
    }
    forall i, j | 0 <= i < j < |ids| ensures Older(t, ids[i], ids[j]) { assert lt(ids[i], ids[j]); }
  }

  function LeaseUntil(now: int, lease: int): int {
    now + (if lease > 0 then lease else 30000)
  }

  function ClaimedRow(row: Row, token: nat, until: int): Row {
    row.(status := PUBLISHING, token := token, nextRetryAt := until)
  }

  /** The table after these events are claimed. */
  function ClaimAll(t: Table, ids: set<nat>, token: nat, until: int): Table {
    map id | id in t :: if id in ids then t[id].(row := ClaimedRow(t[id].row, token, until)) else t[id]
  }

  /** These events are due again from `until` on, and not before. */
  ghost predicate HeldUntil(t: Table, ids: seq<nat>, until: int) {
    forall id, at :: id in ids ==> (id in Due(t, at, {}) <==> at >= until)
  }

  lemma ClaimHolds(t: Table, ids: seq<nat>, token: nat, now: int, lease: int)
    requires Elements(ids) <= t.Keys
    ensures HeldUntil(ClaimAll(t, Elements(ids), token, LeaseUntil(now, lease)), ids,
                      if lease > 0 then now + lease else now + 30000)
  {
    forall id | id in ids ensures id in Elements(ids) {}
  }

  function Rows(t: Table): map<nat, Row> {
    map id | id in t :: t[id].row
  }

  /** What a database call does for the caller. */
  datatype Answer = Succeeds | Fails

  class OutboxDao {
    var rows: Table

    /** Row ids are the table's primary key. */
    ghost predicate Valid()
      reads this
    {
      forall a, b :: a in rows && b in rows && rows[a].rowId == rows[b].rowId ==> a == b
    }

    constructor ()
      ensures Valid() && rows == map[]
    {
      rows := map[];
    }

    /** insertEvent: fails on a known event id, or in the database. */
    method InsertEvent(id: nat, row: Row, createdAt: int, rowId: nat, answer: Answer) returns (ok: bool)
      requires Valid() && forall x :: x in rows ==> rows[x].rowId != rowId
      modifies this
      ensures Valid() && ok == (answer.Succeeds? && id !in old(rows))
      ensures rows == if ok then old(rows)[id := Stored(row, createdAt, rowId)] else old(rows)
    {
      ok := answer.Succeeds? && id !in rows;
      if ok {
        rows := rows[id := Stored(row, createdAt, rowId)];
      }
    }

    /** claimPendingEvents. Either the oldest due events are claimed, all under one token, and
    returned; or nothing is returned and the table is as before, unless it was the commit that
    failed, when the claims may stand without a worker knowing. */
    method ClaimPendingEvents(limit: nat, now: int, lease: int, token: nat, locked: set<nat>, updates: nat -> Answer,
                              commit: Answer, stands: bool) returns (events: seq<nat>)
      requires Valid()
      modifies this
      ensures Valid() && Rows(rows).Keys == Rows(old(rows)).Keys
      ensures events != [] ==> OldestDue(old(rows), now, locked, limit, events)
      ensures events != [] ==> Handed(old(rows), now, locked, limit, events)
      ensures rows == old(rows)
           || exists ids :: OldestDue(old(rows), now, locked, limit, ids)
                            && rows == ClaimAll(old(rows), Elements(ids), token, LeaseUntil(now, lease))
                            && (events == ids || (events == [] && commit.Fails?))
      ensures HeldUntil(rows, events, if lease > 0 then now + lease else now + 30000)
    {
      var until := LeaseUntil(now, lease);
      events := ClaimDue(limit, now, until, token, locked, updates, commit, stands);
      if events != [] {
        OldestDueHanded(old(rows), now, locked, limit, events);
        ClaimHolds(old(rows), events, token, now, lease);
      }
    }

    /** The SELECT ... FOR UPDATE SKIP LOCKED and the UPDATE per event. */
    method ClaimDue(limit: nat, now: int, until: int, token: nat, locked: set<nat>, updates: nat -> Answer,
                    commit: Answer, stands: bool) returns (events: seq<nat>)
      requires Valid()
      modifies this
      ensures Valid() && Rows(rows).Keys == Rows(old(rows)).Keys
      ensures events != [] ==> OldestDue(old(rows), now, locked, limit, events)
                               && rows == ClaimAll(old(rows), Elements(events), token, until)
      ensures rows == old(rows)
           || exists ids :: OldestDue(old(rows), now, locked, limit, ids)
                            && rows == ClaimAll(old(rows), Elements(ids), token, until)
                            && (events == ids || (events == [] && commit.Fails?))
    {
      var before := rows;
      var due := Due(before, now, locked);
      DueLinear(before, due);
      var ids := Select((a, b) => Older(before, a, b), due, limit);
      var i := 0;
      while i < |ids|
        invariant 0 <= i <= |ids| && rows == ClaimAll(before, Elements(ids[..i]), token, until)
      {
        if updates(i).Fails? {
          rows := before;
          return [];
        }
        assert ids[i] in Elements(ids);
        ClaimMore(before, ids, i, token, until);
        rows := rows[ids[i] := rows[ids[i]].(row := ClaimedRow(rows[ids[i]].row, token, until))];
        i := i + 1;
      }
      assert ids[..|ids|] == ids;
      if commit.Fails? {
        if !stands { rows := before; }
        return [];
      }
      events := ids;
    }

    /** The three mark statements: UPDATE ... WHERE event_id AND status=4 AND claim_token, and whether a
    row changed. A call that fails reports no row, and the update may stand without the caller knowing. */
    method MarkPublished(id: nat, token: nat, answer: Answer, stands: bool) returns (changed: bool)
      requires Valid()
      modifies this
      ensures Valid() && (changed <==> Marks(Rows(old(rows)), id, token) && answer.Succeeds?)
      ensures Rows(rows) == if Marks(Rows(old(rows)), id, token) && (answer.Succeeds? || stands)
                            then Rows(old(rows))[id := Rows(old(rows))[id].(status := PUBLISHED, token := 0)]
                            else Rows(old(rows))
    {
      if token == 0 { return false; }
      var owned := id in rows && rows[id].row.status == PUBLISHING && rows[id].row.token == token;
      if owned && (answer.Succeeds? || stands) {
        rows := rows[id := rows[id].(row := rows[id].row.(status := PUBLISHED, token := 0))];
      }
      changed := owned && answer.Succeeds?;
    }

    method MarkFailed(id: nat, token: nat, retryCount: nat, nextRetryAt: int, answer: Answer, stands: bool)
      returns (changed: bool)
      requires Valid()
      modifies this
      ensures Valid() && (changed <==> Marks(Rows(old(rows)), id, token) && answer.Succeeds?)
      ensures Rows(rows) == if Marks(Rows(old(rows)), id, token) && (answer.Succeeds? || stands)
                            then Rows(old(rows))[id := FailedRow(Rows(old(rows))[id], retryCount, nextRetryAt)]
                            else Rows(old(rows))
    {
      if token == 0 { return false; }
      var owned := id in rows && rows[id].row.status == PUBLISHING && rows[id].row.token == token;
      if owned && (answer.Succeeds? || stands) {
        rows := rows[id := rows[id].(row := FailedRow(rows[id].row, retryCount, nextRetryAt))];
      }
      changed := owned && answer.Succeeds?;
    }

    method MarkDead(id: nat, token: nat, answer: Answer, stands: bool) returns (changed: bool)
      requires Valid()
      modifies this
      ensures Valid() && (changed <==> Marks(Rows(old(rows)), id, token) && answer.Succeeds?)
      ensures Rows(rows) == if Marks(Rows(old(rows)), id, token) && (answer.Succeeds? || stands)
                            then Rows(old(rows))[id := Rows(old(rows))[id].(status := DEAD, token := 0)]
                            else Rows(old(rows))
    {
      if token == 0 { return false; }
      var owned := id in rows && rows[id].row.status == PUBLISHING && rows[id].row.token == token;
      if owned && (answer.Succeeds? || stands) {
        rows := rows[id := rows[id].(row := rows[id].row.(status := DEAD, token := 0))];
      }
      changed := owned && answer.Succeeds?;
    }
  }

  function FailedRow(row: Row, retryCount: nat, nextRetryAt: int): Row {
    row.(status := FAILED, token := 0, retryCount := retryCount, nextRetryAt := nextRetryAt)
  }

  predicate OwnedIn(outbox: map<nat, Row>, id: nat, token: nat) {
    id in outbox && outbox[id].status == PUBLISHING && outbox[id].token == token
  }

  /** The WHERE clause; an empty token matches nothing. */
  predicate Marks(outbox: map<nat, Row>, id: nat, token: nat) {
    token != 0 && OwnedIn(outbox, id, token)
  }

  lemma DueLinear(t: Table, due: set<nat>)
    requires due <= t.Keys && forall a, b :: a in t && b in t && t[a].rowId == t[b].rowId ==> a == b
    ensures Linear((a, b) => Older(t, a, b), due)
  {
  }

  lemma ClaimMore(t: Table, ids: seq<nat>, i: nat, token: nat, until: int)
    requires i < |ids| && ids[i] in t && |ids| == |Elements(ids)|
    ensures var before := ClaimAll(t, Elements(ids[..i]), token, until);
            ClaimAll(t, Elements(ids[..i + 1]), token, until) ==
            before[ids[i] := before[ids[i]].(row := ClaimedRow(before[ids[i]].row, token, until))]
  {
    assert ids[..i + 1] == ids[..i] + [ids[i]];
    assert Elements(ids[..i + 1]) == Elements(ids[..i]) + {ids[i]};
  }

  // ---------------------------------------------------------------- the step system's view

  /** One claimed event is the step system's Claim: the same row, changed the same way. */
  lemma ClaimIsStep(s: State, w: nat, t: Table, id: nat, token: nat, now: int, lease: int)
    requires Rows(t) == s.db.outbox && id in Due(t, now, {})
    requires PublisherEnabled(s, w, Claim(id, token, now, LeaseUntil(now, lease)))
    ensures Rows(ClaimAll(t, {id}, token, LeaseUntil(now, lease)))
         == PublisherApply(s, w, Claim(id, token, now, LeaseUntil(now, lease))).db.outbox
  {
  }

  /** A mark is the step system's, applied exactly when the statement changes a row. */
  lemma MarkIsStep(s: State, w: nat, e: PublisherEvent)
    requires PublisherEnabled(s, w, e) && (e.MarkPublished? || e.MarkDead? || e.MarkFailed?) && e.applied
    ensures var p := PublisherOf(s, w);
            && OwnedIn(s.db.outbox, e.eventId, p.token)
            && var row := s.db.outbox[e.eventId];
            var marked := match e
              case MarkPublished(_, _) => row.(status := PUBLISHED, token := 0)
              case MarkDead(_, _) => row.(status := DEAD, token := 0)
              case MarkFailed(_, counted, _, at) => FailedRow(row, p.row.retryCount + (if counted then 1 else 0), at)
              case _ => row;
            PublisherApply(s, w, e).db.outbox == s.db.outbox[e.eventId := marked]
  {
  }
}
