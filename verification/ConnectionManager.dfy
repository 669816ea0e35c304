/** The gateway's two-way index between connections and (user, device) pairs. */
module ConnectionManagers {

  type ConnectionId = nat
  type Connection = nat
  type User = nat
  type Device = string

  /** user 0 means not bound. */
  datatype Context = Context(user: User, device: Device)

  type Index = map<User, map<Device, ConnectionId>>

  datatype Event = Added(c: ConnectionId) | Bound(c: ConnectionId, user: User, device: Device)
      | Removed(c: ConnectionId)

  predicate Mapped(index: Index, u: User, d: Device, c: ConnectionId) {
    u in index && d in index[u] && index[u][d] == c
  }

  /** `c` made the most recent bind of (u, d), and has since been neither removed nor bound again. */
  ghost predicate Holds(h: seq<Event>, u: User, d: Device, c: ConnectionId) {
    exists i :: 0 <= i < |h| && h[i] == Bound(c, u, d) && LastWord(h, i, u, d, c)
  }

  ghost predicate LastWord(h: seq<Event>, i: int, u: User, d: Device, c: ConnectionId)
    requires 0 <= i
  {
    forall j :: i < j < |h| ==> !Overrides(h[j], u, d, c)
  }

  predicate Overrides(e: Event, u: User, d: Device, c: ConnectionId) {
    match e
    case Added(_) => false
    case Bound(c', u', d') => c' == c || (u' == u && d' == d)
    case Removed(c') => c' == c
  }

  /** One more event. */
  lemma HoldsAppend(h: seq<Event>, e: Event, u: User, d: Device, c: ConnectionId)
    ensures Holds(h + [e], u, d, c) <==> e == Bound(c, u, d) || (Holds(h, u, d, c) && !Overrides(e, u, d, c))
  {
    var h' := h + [e];
    if e == Bound(c, u, d) {
      assert h'[|h|] == Bound(c, u, d) && LastWord(h', |h|, u, d, c);
    }
    if Holds(h, u, d, c) && !Overrides(e, u, d, c) {
      var i :| 0 <= i < |h| && h[i] == Bound(c, u, d) && LastWord(h, i, u, d, c);
      assert h'[i] == Bound(c, u, d) && LastWord(h', i, u, d, c);
    }
    if Holds(h', u, d, c) && e != Bound(c, u, d) {
      var i :| 0 <= i < |h'| && h'[i] == Bound(c, u, d) && LastWord(h', i, u, d, c);
      assert h[i] == Bound(c, u, d) && h'[|h|] == e;
      assert LastWord(h, i, u, d, c) by {
        forall j | i < j < |h| ensures !Overrides(h[j], u, d, c) { assert h'[j] == h[j]; }
      }
    }
  }

  /** The pair's entry removed if it is `c`'s, and the user's map removed if that empties it. */
  function Unlink(index: Index, u: User, d: Device, c: ConnectionId): Index {
    if u !in index then index
    else
      var devices := if d in index[u] && index[u][d] == c then index[u] - {d} else index[u];
      if devices == map[] then index - {u} else index[u := devices]
  }

  function Link(index: Index, u: User, d: Device, c: ConnectionId): Index {
    index[u := (if u in index then index[u] else map[])[d := c]]
  }

  ghost predicate NoEmptyMaps(index: Index) {
    forall u :: u in index ==> index[u] != map[]
  }

  lemma UnlinkMapped(index: Index, u: User, d: Device, c: ConnectionId, u': User, d': Device, c': ConnectionId)
    ensures Mapped(Unlink(index, u, d, c), u', d', c') <==>
              Mapped(index, u', d', c') && !(u' == u && d' == d && c' == c)
    ensures NoEmptyMaps(index) ==> NoEmptyMaps(Unlink(index, u, d, c))
  {
    if u in index && u == u' {
      var devices := if d in index[u] && index[u][d] == c then index[u] - {d} else index[u];
      if devices == map[] { assert d' !in devices; }
    }
  }

  lemma LinkMapped(index: Index, u: User, d: Device, c: ConnectionId, u': User, d': Device, c': ConnectionId)
    ensures Mapped(Link(index, u, d, c), u', d', c') <==>
            if u' == u && d' == d then c' == c else Mapped(index, u', d', c')
    ensures NoEmptyMaps(index) ==> NoEmptyMaps(Link(index, u, d, c))
  {
    var index' := Link(index, u, d, c);
    assert d in index'[u];
  }

  /** The two directions agree: an indexed connection is known, and bound to just that pair. */
  ghost predicate TwoWay(contexts: map<ConnectionId, Context>, index: Index) {
    forall u, d, c :: Mapped(index, u, d, c) ==> u != 0 && c in contexts && contexts[c] == Context(u, d)
  }

  /** The index is what the history says. */
  ghost predicate Faithful(index: Index, h: seq<Event>) {
    forall u, d, c :: Mapped(index, u, d, c) <==> Holds(h, u, d, c)
  }

  /** The index after a bind: the connection's old entry goes, the new one comes. */
  function Rebound(contexts: map<ConnectionId, Context>, index: Index, c: ConnectionId, u: User, d: Device): Index
    requires c in contexts
  {
    var was := contexts[c];
    Link(if was.user != 0 && was.device != "" then Unlink(index, was.user, was.device, c) else index, u, d, c)
  }

  function Forgotten(contexts: map<ConnectionId, Context>, index: Index, c: ConnectionId): Index {
    if c in contexts && contexts[c].user != 0 then Unlink(index, contexts[c].user, contexts[c].device, c) else index
  }

  /** The connection other than `c` that the pair leads to, if any. */
  function OtherHolder(index: Index, u: User, d: Device, c: ConnectionId): set<ConnectionId> {
    if u in index && d in index[u] && index[u][d] != c then {index[u][d]} else {}
  }

  lemma SameHolder(index: Index, was: Context, c: ConnectionId, u: User, d: Device)
    ensures OtherHolder(Unlink(index, was.user, was.device, c), u, d, c) == OtherHolder(index, u, d, c)
  {
    var after := Unlink(index, was.user, was.device, c);
    if u in index && d in index[u] { UnlinkMapped(index, was.user, was.device, c, u, d, index[u][d]); }
    if u in after && d in after[u] { UnlinkMapped(index, was.user, was.device, c, u, d, after[u][d]); }
  }

  /** By history: whoever else holds the pair. */
  lemma OtherHolderHolds(index: Index, h: seq<Event>, u: User, d: Device, c: ConnectionId)
    requires Faithful(index, h)
    ensures forall x :: x in OtherHolder(index, u, d, c) <==> x != c && Holds(h, u, d, x)
  {
    forall x ensures x in OtherHolder(index, u, d, c) <==> x != c && Holds(h, u, d, x) {
      assert Mapped(index, u, d, x) <==> Holds(h, u, d, x);
    }
  }

  lemma OtherHolderKnown(contexts: map<ConnectionId, Context>, index: Index, u: User, d: Device, c: ConnectionId)
    requires TwoWay(contexts, index)
    ensures OtherHolder(index, u, d, c) <= contexts.Keys
  {
    if u in index && d in index[u] { assert Mapped(index, u, d, index[u][d]); }
  }

  /** No bind has an empty device. */
  ghost predicate DevicesNamed(contexts: map<ConnectionId, Context>) {
    forall c :: c in contexts ==> (contexts[c].user == 0 <==> contexts[c].device == "")
  }

  lemma BindMapped(contexts: map<ConnectionId, Context>, index: Index, c: ConnectionId, u: User, d: Device,
                   u': User, d': Device, c': ConnectionId)
    requires c in contexts && TwoWay(contexts, index) && DevicesNamed(contexts)
    ensures Mapped(Rebound(contexts, index, c, u, d), u', d', c') <==>
            (u' == u && d' == d && c' == c) || (Mapped(index, u', d', c') && !(u' == u && d' == d) && c' != c)
  {
    var was := contexts[c];
    var middle := if was.user != 0 && was.device != "" then Unlink(index, was.user, was.device, c) else index;
    UnlinkMapped(index, was.user, was.device, c, u', d', c');
    LinkMapped(middle, u, d, c, u', d', c');
  }

  lemma BindKeeps(contexts: map<ConnectionId, Context>, index: Index, h: seq<Event>, c: ConnectionId, u: User,
                  d: Device)
    requires c in contexts && TwoWay(contexts, index) && DevicesNamed(contexts) && Faithful(index, h) &&
             NoEmptyMaps(index)
    requires u != 0 && d != ""
    ensures TwoWay(contexts[c := Context(u, d)], Rebound(contexts, index, c, u, d))
    ensures Faithful(Rebound(contexts, index, c, u, d), h + [Bound(c, u, d)])
    ensures NoEmptyMaps(Rebound(contexts, index, c, u, d))
  {
    var index' := Rebound(contexts, index, c, u, d);
    forall u', d', c' ensures Mapped(index', u', d', c') <==> Holds(h + [Bound(c, u, d)], u', d', c') {
      BindMapped(contexts, index, c, u, d, u', d', c');
      HoldsAppend(h, Bound(c, u, d), u', d', c');
    }
    forall u', d', c' | Mapped(index', u', d', c')
      ensures u' != 0 && c' in contexts[c := Context(u, d)] && contexts[c := Context(u, d)][c'] == Context(u', d')
    {
      BindMapped(contexts, index, c, u, d, u', d', c');
    }
    var was := contexts[c];
    UnlinkMapped(index, was.user, was.device, c, 0, "", 0);
    var cleared := if was.user != 0 && was.device != "" then Unlink(index, was.user, was.device, c) else index;
    LinkMapped(cleared, u, d, c, 0, "", 0);
  }

  lemma RemoveMapped(contexts: map<ConnectionId, Context>, index: Index, c: ConnectionId, u': User, d': Device,
                     c': ConnectionId)
    requires TwoWay(contexts, index)
    ensures Mapped(Forgotten(contexts, index, c), u', d', c') <==> Mapped(index, u', d', c') && c' != c
    ensures NoEmptyMaps(index) ==> NoEmptyMaps(Forgotten(contexts, index, c))
  {
    if c in contexts { UnlinkMapped(index, contexts[c].user, contexts[c].device, c, u', d', c'); }
  }

  lemma RemoveKeeps(contexts: map<ConnectionId, Context>, index: Index, h: seq<Event>, c: ConnectionId)
    requires TwoWay(contexts, index) && Faithful(index, h) && NoEmptyMaps(index)
    ensures TwoWay(contexts - {c}, Forgotten(contexts, index, c))
    ensures Faithful(Forgotten(contexts, index, c), h + [Removed(c)]) && NoEmptyMaps(Forgotten(contexts, index, c))
  {
    var index' := Forgotten(contexts, index, c);
    forall u', d', c'
      ensures Mapped(index', u', d', c') <==> Holds(h + [Removed(c)], u', d', c')
      ensures Mapped(index', u', d', c') <==> Mapped(index, u', d', c') && c' != c
    {
      RemoveMapped(contexts, index, c, u', d', c');
      HoldsAppend(h, Removed(c), u', d', c');
    }
    RemoveMapped(contexts, index, c, 0, "", 0);
  }

  class ConnectionManager {
    var connections: map<ConnectionId, Connection>
    var contexts: map<ConnectionId, Context>
    var index: Index
    var nextConnId: nat
    ghost var history: seq<Event>

    /** The index is a function of the history; the two directions agree; nothing empty is kept. */
    ghost predicate Valid()
      reads this
    {
      && connections.Keys == contexts.Keys && (forall c :: c in contexts ==> c < nextConnId)
      && DevicesNamed(contexts) && TwoWay(contexts, index) && NoEmptyMaps(index) && Faithful(index, history)
    }

    constructor ()
      ensures Valid() && history == [] && connections == map[]
    {
      connections, contexts, index, nextConnId := map[], map[], map[], 1;
      history := [];
    }

    method AddConnection(conn: Connection) returns (id: ConnectionId)
      requires Valid()
      modifies this
      ensures Valid() && history == old(history) + [Added(id)] && id !in old(connections)
      ensures connections == old(connections)[id := conn] && index == old(index)
    {
      id := nextConnId;
      nextConnId := nextConnId + 1;
      connections := connections[id := conn];
      contexts := contexts[id := Context(0, "")];
      history := history + [Added(id)];
      forall u, d, c ensures Holds(history, u, d, c) <==> Holds(old(history), u, d, c) {
        HoldsAppend(old(history), Added(id), u, d, c);
      }
    }

    method RemoveConnection(id: ConnectionId)
      requires Valid()
      modifies this
      ensures Valid() && history == old(history) + [Removed(id)]
      ensures connections == old(connections) - {id}
    {
      RemoveKeeps(contexts, index, history, id);
      if id in contexts && contexts[id].user != 0 {
        EraseEntry(contexts[id].user, contexts[id].device, id);
      }
      contexts := contexts - {id};
      connections := connections - {id};
      history := history + [Removed(id)];
    }

    /** Erases the pair's entry if it is this connection's, and then the user's map if it is empty. */
    method EraseEntry(u: User, d: Device, id: ConnectionId)
      modifies this`index
      ensures index == Unlink(old(index), u, d, id)
    {
      if u in index {
        var devices := index[u];
        if d in devices && devices[d] == id {
          devices := devices - {d};
        }
        if devices == map[] {
          index := index - {u};
        } else {
          index := index[u := devices];
        }
      }
    }

    /** bindUser; `replaced` is the connection that is told to close because it held the pair before. */
    method BindUser(id: ConnectionId, user: User, device: Device) returns (ok: bool, replaced: set<ConnectionId>)
      requires Valid()
      modifies this
      ensures Valid() && ok == (user != 0 && device != "" && id in old(contexts))
      ensures connections == old(connections)
      ensures history == old(history) + (if ok then [Bound(id, user, device)] else [])
      ensures ok ==> Mapped(index, user, device, id) && contexts == old(contexts)[id := Context(user, device)]
      ensures forall c :: c in replaced <==> ok && c != id && Holds(old(history), user, device, c)
      ensures replaced <= connections.Keys
    {
      if user == 0 || device == "" { return false, {}; }
      if id !in contexts { return false, {}; }
      BindKeeps(contexts, index, history, id, user, device);
      OtherHolderKnown(contexts, index, user, device, id);
      OtherHolderHolds(index, history, user, device, id);
      BindMapped(contexts, index, id, user, device, user, device, id);
      replaced := Reindex(id, user, device);
      contexts := contexts[id := Context(user, device)];
      history := history + [Bound(id, user, device)];
      ok := true;
    }

    /** bindUser's work on the index. */
    method Reindex(id: ConnectionId, user: User, device: Device) returns (replaced: set<ConnectionId>)
      requires id in contexts
      modifies this`index
      ensures index == Rebound(contexts, old(index), id, user, device)
      ensures replaced == OtherHolder(old(index), user, device, id)
    {
      var was := contexts[id];
      SameHolder(index, was, id, user, device);
      if was.user != 0 && was.device != "" {
        EraseEntry(was.user, was.device, id);
      }
      var devices: map<Device, ConnectionId> := if user in index then index[user] else map[];
      replaced := if device in devices && devices[device] != id then {devices[device]} else {};
      index := index[user := devices[device := id]];
    }

    /** getContextsByUserId: one context for each of the user's indexed devices. */
    method GetContextsByUserId(user: User) returns (result: seq<Context>)
      requires Valid()
      ensures (set x | x in result) == set d | user in index && d in index[user] :: Context(user, d)
      ensures |result| == if user in index then |index[user]| else 0
    {
      result := [];
      if user !in index { return; }
      var left := index[user].Keys;
      while left != {}
        invariant left <= index[user].Keys && |result| + |left| == |index[user].Keys|
        invariant (set x | x in result) == set d | d in index[user] && d !in left :: Context(user, d)
        decreases |left|
      {
        var d :| d in left;
        var id := index[user][d];
        assert Mapped(index, user, d, id);
        ghost var before := result;
        left := left - {d};
        if id in contexts { result := result + [contexts[id]]; }
        assert contexts[id] == Context(user, d) && result == before + [Context(user, d)];
        assert (set x | x in result) == (set x | x in before) + {Context(user, d)};
      }
    }

    /** onlineUserCount: the users that hold some connection. */
    method OnlineUserCount() returns (n: nat)
      requires Valid()
      ensures n == |OnlineUsers()|
      ensures forall u :: u in OnlineUsers() <==> exists d, c :: Holds(history, u, d, c)
    {
      n := |index|;
      assert n == |index.Keys|;
      forall u ensures u in index <==> exists d, c :: Holds(history, u, d, c) {
        if u in index {
          var d :| d in index[u];
          assert Mapped(index, u, d, index[u][d]);
          assert Holds(history, u, d, index[u][d]);
        } else {
          forall d, c ensures !Holds(history, u, d, c) { assert !Mapped(index, u, d, c); }
        }
      }
    }

    ghost function OnlineUsers(): set<User>
      reads this
    {
      index.Keys
    }
  }

  /** A connection is indexed under at most one pair. */
  lemma IndexedOnce(m: ConnectionManager, u1: User, d1: Device, u2: User, d2: Device, c: ConnectionId)
    requires m.Valid() && Holds(m.history, u1, d1, c) && Holds(m.history, u2, d2, c)
    ensures u1 == u2 && d1 == d2
  {
    assert Mapped(m.index, u1, d1, c) && Mapped(m.index, u2, d2, c);
  }
}
