/** Time-ordered 64-bit message ids: 42 bits of milliseconds, 10 of node, 12 of sequence. */
module MessageIds {

  type uint64 = n: int | 0 <= n < UINT64_RANGE

  const UINT64_RANGE: int := 0x1_0000_0000_0000_0000
  const EPOCH_MS: uint64 := 1767225600000
  const MAX_NODE: uint64 := 1023
  const SEQUENCE_MASK: uint64 := 4095
  const MS_LIMIT: uint64 := 0x400_0000_0000

  const NODE_SHIFT: int := 0x1000
  const MS_SHIFT: int := 0x40_0000

  /** The fields shifted into place. What a shift pushes out of 64 bits is lost; the places do not
  overlap, so or-ing them is adding them. */
  function Pack(ms: uint64, node: uint64, sequence: uint64): (id: uint64)
    requires node <= MAX_NODE && sequence <= SEQUENCE_MASK
  {
    (ms % MS_LIMIT) * MS_SHIFT + node * NODE_SHIFT + sequence
  }

  function NodeOf(id: uint64): uint64 {
    (id / NODE_SHIFT) % (MAX_NODE + 1)
  }

  function Effective(node: uint64): (r: uint64)
    ensures r <= MAX_NODE
  {
    if node > MAX_NODE then MAX_NODE else node
  }

  // ---------------------------------------------------------------- packing

  /** On machine words: shifting and or-ing is the sum that Pack takes. */
  lemma OrIsSum(ms: bv64, node: bv64, sequence: bv64)
    requires node <= 1023 && sequence <= 4095
    ensures (ms << 22) | (node << 12) | sequence == (ms << 22) + (node << 12) + sequence
    ensures ms << 22 == (ms & 0x3FF_FFFF_FFFF) << 22
  {
  }

  /** The three fields can be read back, so packing is injective. */
  lemma PackFields(ms: uint64, node: uint64, sequence: uint64)
    requires ms < MS_LIMIT && node <= MAX_NODE && sequence <= SEQUENCE_MASK
    ensures Pack(ms, node, sequence) / MS_SHIFT == ms && NodeOf(Pack(ms, node, sequence)) == node
    ensures Pack(ms, node, sequence) % NODE_SHIFT == sequence
  {
    assert Pack(ms, node, sequence) / NODE_SHIFT == ms * 1024 + node;
  }

  /** Packing keeps the order of (ms, sequence) on one node. */
  lemma PackOrder(ms1: uint64, s1: uint64, ms2: uint64, s2: uint64, node: uint64)
    requires ms1 < MS_LIMIT && ms2 < MS_LIMIT && s1 <= SEQUENCE_MASK && s2 <= SEQUENCE_MASK && node <= MAX_NODE
    ensures Pack(ms1, node, s1) < Pack(ms2, node, s2) <==> ms1 < ms2 || (ms1 == ms2 && s1 < s2)
  {
  }

  /** The range is exact: one millisecond past it, packing starts over. */
  lemma RangeExact(node: uint64, sequence: uint64)
    requires node <= MAX_NODE && sequence <= SEQUENCE_MASK
    ensures Pack(MS_LIMIT, node, sequence) == Pack(0, node, sequence)
  {
  }

  // ---------------------------------------------------------------- the generator

  function Clamp(now: uint64): uint64 {
    if now < EPOCH_MS then EPOCH_MS else now
  }

  datatype Outcome = Id(id: uint64) | StillWaiting

  ghost predicate Increasing(ids: seq<uint64>) {
    forall i, j :: 0 <= i < j < |ids| ==> ids[i] < ids[j]
  }

  class MessageIdGenerator {
    const node: uint64
    var last: uint64
    var sequence: uint64
    ghost var issued: seq<uint64>
    /** The clock has gone past what 42 bits hold. */
    ghost var worn: bool

    ghost predicate Valid()
      reads this
    {
      && node <= MAX_NODE && sequence <= SEQUENCE_MASK
      && (!worn ==>
            && (last == 0 || (EPOCH_MS <= last && last - EPOCH_MS < MS_LIMIT))
            && (last == 0 <==> issued == [])
            && Increasing(issued) && (forall id :: id in issued ==> NodeOf(id) == node)
            && (issued != [] ==> issued[|issued| - 1] == Pack(last - EPOCH_MS, node, sequence)))
    }

    constructor (nodeId: uint64)
      ensures Valid() && node == Effective(nodeId) && issued == [] && !worn && last == 0 && sequence == 0
      ensures (nodeId <= 1023 ==> node == nodeId) && (nodeId > 1023 ==> node == 1023)
    {
      node := Effective(nodeId);
      last, sequence := 0, 0;
      issued, worn := [], false;
    }

    /** waitNextMs on the coming clock readings: stops behind the first that is past `lastMs` or before
    the epoch. */
    method WaitNextMs(lastMs: uint64, readings: seq<uint64>, from: nat) returns (next: nat, done: bool)
      requires from <= |readings|
      ensures from <= next <= |readings|
      ensures done ==> from < next && (readings[next - 1] < EPOCH_MS || readings[next - 1] > lastMs)
      ensures forall i :: from <= i < (if done then next - 1 else |readings|) ==> EPOCH_MS <= readings[i] <= lastMs
    {
      next := from;
      while next < |readings|
        invariant from <= next <= |readings|
        invariant forall i :: from <= i < next ==> EPOCH_MS <= readings[i] <= lastMs
      {
        var now := readings[next];
        next := next + 1;
        if now < EPOCH_MS || now > lastMs {
          return next, true;
        }
      }
      done := false;
    }

    /** The wait and the reading after it; whatever the clock then says, the result is past `last`. */
    method PastLast(readings: seq<uint64>, from: nat) returns (now: uint64, done: bool, ghost next: nat)
      requires from <= |readings| && EPOCH_MS <= last && last - EPOCH_MS < MS_LIMIT
      ensures done ==> now > last && EPOCH_MS <= now
      ensures done ==>
                && from < next < |readings| && (readings[next - 1] < EPOCH_MS || readings[next - 1] > last)
                && now == if readings[next] > last then readings[next] else last + 1
    {
      var waited;
      var stop;
      stop, waited := WaitNextMs(last, readings, from);
      next := stop;
      if !waited || stop == |readings| {
        return last, false, next;
      }
      now := Clamp(readings[stop]);
      if now <= last {
        now := (last + 1) % UINT64_RANGE;
      }
      done := true;
    }

    /** nextId, for any clock readings whatever. A call whose readings run out is still waiting, and has
    not returned. */
    method NextId(readings: seq<uint64>) returns (r: Outcome)
      requires Valid() && !worn && readings != []
      modifies this
      ensures Valid()
      ensures r.StillWaiting? ==> issued == old(issued) && last == old(last) && sequence == old(sequence) && !worn
      ensures r.Id? ==> issued == old(issued) + [r.id] && (worn <==> last - EPOCH_MS >= MS_LIMIT)
      ensures r.Id? && !worn ==>
                && (forall id :: id in old(issued) ==> id < r.id) && NodeOf(r.id) == node
                && (r.id == 0 <==> node == 0 && last == EPOCH_MS && sequence == 0)
      ensures var now := if readings[0] < EPOCH_MS then EPOCH_MS else readings[0];
              && (now > old(last) ==> r == Id(Pack(now - EPOCH_MS, node, 0)) && last == now)
              && (now == old(last) && old(sequence) < SEQUENCE_MASK ==>
                    r == Id(Pack(now - EPOCH_MS, node, old(sequence) + 1)) && last == now)
              && (r.Id? && (now < old(last) || (now == old(last) && old(sequence) == SEQUENCE_MASK)) ==>
                    last > old(last) && sequence == 0)
      ensures r.Id? ==> 1767225600000 <= last && r.id == Pack(last - 1767225600000, node, sequence)
      ensures old(issued) == [] ==> r == Id(Pack(Clamp(readings[0]) - EPOCH_MS, node, 0)) && last == Clamp(readings[0])
    {
      var now := Clamp(readings[0]);
      var done := true;
      var used := 1;
      ghost var at;
      if now < last {
        now, done, at := PastLast(readings, used);
        if !done { return StillWaiting; }
      }
      var seqNext: uint64 := 0;
      if now == last {
        seqNext := (sequence + 1) % (SEQUENCE_MASK + 1);
        if seqNext == 0 {
          now, done, at := PastLast(readings, used);
          if !done { return StillWaiting; }
        }
      }
      r := Issue(now, seqNext);
    }

    method Issue(now: uint64, seqNext: uint64) returns (r: Outcome)
      requires Valid() && !worn && EPOCH_MS <= now && seqNext <= SEQUENCE_MASK
      requires (now > last && seqNext == 0) || (now == last && seqNext > sequence)
      modifies this
      ensures Valid() && r.Id? && r.id == Pack(now - EPOCH_MS, node, seqNext) && last == now && sequence == seqNext
      ensures issued == old(issued) + [r.id] && (worn <==> last - EPOCH_MS >= MS_LIMIT)
      ensures !worn ==> (forall id :: id in old(issued) ==> id < r.id) && NodeOf(r.id) == node
      ensures !worn ==> (r.id == 0 <==> node == 0 && last == EPOCH_MS && sequence == 0)
    {
      ghost var lastBefore, sequenceBefore := last, sequence;
      last, sequence := now, seqNext;
      var id := Pack(now - EPOCH_MS, node, seqNext);
      worn := now - EPOCH_MS >= MS_LIMIT;
      if !worn {
        PackFields(now - EPOCH_MS, node, seqNext);
        if issued != [] {
          PackOrder(lastBefore - EPOCH_MS, sequenceBefore, now - EPOCH_MS, seqNext, node);
          LastIsGreatest(issued, id);
        }
        ZeroId(now - EPOCH_MS, node, seqNext);
      }
      issued := issued + [id];
      r := Id(id);
    }
  }

  lemma LastIsGreatest(ids: seq<uint64>, id: uint64)
    requires Increasing(ids) && ids != [] && ids[|ids| - 1] < id
    ensures forall x :: x in ids ==> x < id
  {
  }

  lemma ZeroId(ms: uint64, node: uint64, sequence: uint64)
    requires ms < MS_LIMIT && node <= MAX_NODE && sequence <= SEQUENCE_MASK
    ensures Pack(ms, node, sequence) == 0 <==> ms == 0 && node == 0 && sequence == 0
  {
  }

  // ---------------------------------------------------------------- several generators

  /** Generators with different effective nodes never share an id. */
  lemma DisjointGenerators(a: MessageIdGenerator, b: MessageIdGenerator)
    requires a.Valid() && b.Valid() && !a.worn && !b.worn && a.node != b.node
    ensures forall id :: id in a.issued ==> id !in b.issued
  {
  }

  /** Generators with the same effective node can: on the same first reading they issue the same id.
  Every node id from 1023 up is the same node. */
  method SharedId(a: uint64, b: uint64, reading: uint64) returns (x: Outcome, y: Outcome)
    requires Effective(a) == Effective(b)
    ensures x.Id? && x == y
  {
    var g := new MessageIdGenerator(a);
    var h := new MessageIdGenerator(b);
    x := g.NextId([reading]);
    y := h.NextId([reading]);
  }
}
