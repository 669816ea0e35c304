/** The keyed rate limiter, which forgets idle buckets. */
module RateLimiters {
  import opened TokenBuckets

  type Key = string

  datatype Config = Config(maxBucketCount: nat, idle: real)

  datatype Entry = Entry(bucket: Bucket, lastUsed: real)

  /** One call of allow: the clock is read before the lock is taken and again by the bucket. */
  datatype Op = Op(key: Key, now: real, bucketNow: real)

  /** Capacity and rate are fixed by the kind of key. */
  datatype Limits = Limits(capacity: Key -> nat, rate: Key -> real)

  // ---------------------------------------------------------------- the limiter

  function Pruned(buckets: map<Key, Entry>, now: real, idle: real): map<Key, Entry> {
    map k | k in buckets && now - buckets[k].lastUsed < idle :: buckets[k]
  }

  /** The map after the pruning that this call does. */
  function Swept(config: Config, buckets: map<Key, Entry>, count: nat, now: real): map<Key, Entry> {
    if count % 256 == 0 || |buckets| >= config.maxBucketCount then Pruned(buckets, now, config.idle) else buckets
  }

  predicate Full(config: Config, swept: map<Key, Entry>, key: Key) {
    key !in swept && |swept| >= config.maxBucketCount
  }

  function BucketFor(limits: Limits, swept: map<Key, Entry>, op: Op): Bucket {
    if op.key in swept then swept[op.key].bucket
       else NewBucket(limits.capacity(op.key), limits.rate(op.key), op.bucketNow)
  }

  predicate Allows(config: Config, limits: Limits, buckets: map<Key, Entry>, count: nat, op: Op) {
    var swept := Swept(config, buckets, count, op.now);
    !Full(config, swept, op.key) && Grants(BucketFor(limits, swept, op), op.bucketNow, 1)
  }

  function AfterOp(config: Config, limits: Limits, buckets: map<Key, Entry>, count: nat, op: Op): map<Key, Entry> {
    var swept := Swept(config, buckets, count, op.now);
    if Full(config, swept, op.key) then swept
    else swept[op.key := Entry(AfterAllow(BucketFor(limits, swept, op), op.bucketNow, 1), op.now)]
  }

  class RateLimiter {
    const config: Config
    const limits: Limits
    var buckets: map<Key, Entry>
    var operationCount: nat

    ghost predicate Valid()
      reads this
    {
      |buckets| <= config.maxBucketCount
    }

    constructor (config: Config, limits: Limits)
      ensures Valid() && this.config == config && this.limits == limits && buckets == map[] && operationCount == 0
    {
      this.config, this.limits := config, limits;
      buckets, operationCount := map[], 0;
    }

    /** pruneLocked: erases while iterating. */
    method PruneLocked(now: real)
      modifies this`buckets
      ensures buckets == Pruned(old(buckets), now, config.idle) && |buckets| <= |old(buckets)|
    {
      var left := buckets.Keys;
      while left != {}
        invariant left <= buckets.Keys <= old(buckets).Keys && |buckets| <= |old(buckets)|
        invariant forall k :: k in buckets ==> buckets[k] == old(buckets)[k]
        invariant forall k :: k in old(buckets) && k !in left ==>
                    (k in buckets <==> now - old(buckets)[k].lastUsed < config.idle)
        decreases |left|
      {
        var k :| k in left;
        left := left - {k};
        if now - buckets[k].lastUsed >= config.idle {
          assert (buckets - {k}).Keys == buckets.Keys - {k};
          buckets := buckets - {k};
        }
      }
    }

    method Allow(op: Op) returns (granted: bool)
      requires Valid()
      modifies this
      ensures Valid() && operationCount == old(operationCount) + 1
      ensures granted == Allows(config, limits, old(buckets), operationCount, op)
      ensures buckets == AfterOp(config, limits, old(buckets), operationCount, op)
    {
      operationCount := operationCount + 1;
      if operationCount % 256 == 0 || |buckets| >= config.maxBucketCount {
        PruneLocked(op.now);
      }
      if op.key !in buckets && |buckets| >= config.maxBucketCount {
        return false;
      }
      granted := AllowFound(op);
    }

    /** The second half of allow: find or make the bucket, stamp it, and ask it. */
    method AllowFound(op: Op) returns (granted: bool)
      requires |buckets| <= config.maxBucketCount && !Full(config, buckets, op.key)
      modifies this`buckets
      ensures |buckets| <= config.maxBucketCount
      ensures granted == Grants(BucketFor(limits, old(buckets), op), op.bucketNow, 1)
      ensures buckets == old(buckets)[op.key :=
                                      Entry(AfterAllow(BucketFor(limits, old(buckets), op), op.bucketNow, 1), op.now)]
    {
      var bucket := BucketFor(limits, buckets, op);
      granted := Grants(bucket, op.bucketNow, 1);
      var entry := Entry(AfterAllow(bucket, op.bucketNow, 1), op.now);
      SizeOfInsert(buckets, op.key, entry);
      buckets := buckets[op.key := entry];
    }
  }

  lemma SizeOfInsert(m: map<Key, Entry>, k: Key, e: Entry)
    ensures |m[k := e]| == if k in m then |m| else |m| + 1
  {
    var n := m[k := e];
    if k in m {
      assert n.Keys == m.Keys;
    } else {
      assert n.Keys == m.Keys + {k};
    }
  }

  // ---------------------------------------------------------------- a limiter that never forgets

  function RefBucket(limits: Limits, all: map<Key, Bucket>, op: Op): Bucket {
    if op.key in all then all[op.key] else NewBucket(limits.capacity(op.key), limits.rate(op.key), op.bucketNow)
  }

  function RefAfter(limits: Limits, all: map<Key, Bucket>, op: Op): map<Key, Bucket> {
    all[op.key := AfterAllow(RefBucket(limits, all, op), op.bucketNow, 1)]
  }

  /** The decisions of the pruning limiter over a run, from its `count`-th call on. */
  ghost function Decisions(config: Config, limits: Limits, buckets: map<Key, Entry>, count: nat,
                           ops: seq<Op>): (ds: seq<bool>)
    ensures |ds| == |ops|
    decreases |ops|
  {
    if ops == [] then []
    else [Allows(config, limits, buckets, count + 1, ops[0])]
         + Decisions(config, limits, AfterOp(config, limits, buckets, count + 1, ops[0]), count + 1, ops[1..])
  }

  ghost function RefDecisions(limits: Limits, all: map<Key, Bucket>, ops: seq<Op>): seq<bool>
    decreases |ops|
  {
    if ops == [] then []
    else [Grants(RefBucket(limits, all, ops[0]), ops[0].bucketNow, 1)]
         + RefDecisions(limits, RefAfter(limits, all, ops[0]), ops[1..])
  }

  /** No call finds the map full. */
  ghost predicate NeverFull(config: Config, limits: Limits, buckets: map<Key, Entry>, count: nat, ops: seq<Op>)
    decreases |ops|
  {
    ops == [] ||
    (&& !Full(config, Swept(config, buckets, count + 1, ops[0].now), ops[0].key)
     && NeverFull(config, limits, AfterOp(config, limits, buckets, count + 1, ops[0]), count + 1, ops[1..]))
  }

  /** The bucket's clock is read at most `skew` after the limiter's, and does not run backwards. */
  ghost predicate Clocked(ops: seq<Op>, since: real, skew: real)
    decreases |ops|
  {
    ops == [] ||
    (&& ops[0].now <= ops[0].bucketNow <= ops[0].now + skew && since <= ops[0].bucketNow
     && Clocked(ops[1..], ops[0].bucketNow, skew))
  }

  /** What a new bucket for this key looks like. */
  function Fresh(limits: Limits, k: Key, now: real): Bucket {
    NewBucket(limits.capacity(k), limits.rate(k), now)
  }

  /** An idle bucket is full again by the time it is forgotten, even if its last use was stamped early. */
  predicate IdleRefills(config: Config, limits: Limits, skew: real, k: Key) {
    Gained(config.idle - skew, Fresh(limits, k, 0.0).rate) >= Fresh(limits, k, 0.0).capacity
  }

  /** Full at `at`, so also at any later time. */
  predicate FullAt(b: Bucket, at: real) {
    b.last <= at && Gained(at - b.last, b.rate) + b.tokens >= b.capacity
  }

  ghost predicate KnownKey(config: Config, limits: Limits, skew: real, k: Key, b: Bucket, at: real) {
    && ValidBucket(b) && b.last <= at && IdleRefills(config, limits, skew, k)
    && b.capacity == Fresh(limits, k, 0.0).capacity && b.rate == Fresh(limits, k, 0.0).rate
  }

  /** Every remembered bucket is the reference's; every forgotten one is full in the reference. */
  ghost predicate Agrees(config: Config, limits: Limits, skew: real, buckets: map<Key, Entry>, all: map<Key, Bucket>,
                         at: real)
  {
    && (forall k :: k in all ==> KnownKey(config, limits, skew, k, all[k], at))
    && (forall k :: k in buckets ==>
        k in all && buckets[k].bucket == all[k] && all[k].last <= buckets[k].lastUsed + skew)
    && (forall k :: k in all && k !in buckets ==> FullAt(all[k], at))
  }

  lemma FullStays(b: Bucket, at: real, later: real)
    requires ValidBucket(b) && FullAt(b, at) && at <= later
    ensures FullAt(b, later)
  {
    LongerGainsMore(later - b.last, at - b.last, b.rate);
  }

  /** A bucket left alone for the idle time is full. */
  lemma IdleIsFull(config: Config, limits: Limits, skew: real, k: Key, b: Bucket, lastUsed: real, now: real, at: real)
    requires KnownKey(config, limits, skew, k, b, at) && b.last <= lastUsed + skew
    requires now - lastUsed >= config.idle && now <= at
    ensures FullAt(b, at)
  {
    LongerGainsMore(at - b.last, config.idle - skew, b.rate);
  }

  lemma SweepAgrees(config: Config, limits: Limits, skew: real, buckets: map<Key, Entry>, all: map<Key, Bucket>,
                    at: real,
                    count: nat, op: Op)
    requires Agrees(config, limits, skew, buckets, all, at) && op.now <= op.bucketNow && at <= op.bucketNow
    ensures Agrees(config, limits, skew, Swept(config, buckets, count, op.now), all, op.bucketNow)
  {
    var swept := Swept(config, buckets, count, op.now);
    forall k | k in all ensures KnownKey(config, limits, skew, k, all[k], op.bucketNow) {
      assert KnownKey(config, limits, skew, k, all[k], at);
    }
    forall k | k in all && k !in swept ensures FullAt(all[k], op.bucketNow) {
      if k in buckets {
        IdleIsFull(config, limits, skew, k, all[k], buckets[k].lastUsed, op.now, op.bucketNow);
      } else {
        FullStays(all[k], at, op.bucketNow);
      }
    }
  }

  /** A full bucket and a new one do the same. */
  lemma FullIsNew(limits: Limits, k: Key, b: Bucket, now: real)
    requires ValidBucket(b) && FullAt(b, now)
    requires b.capacity == Fresh(limits, k, 0.0).capacity && b.rate == Fresh(limits, k, 0.0).rate
    ensures Grants(b, now, 1) == Grants(Fresh(limits, k, now), now, 1)
    ensures AfterAllow(b, now, 1) == AfterAllow(Fresh(limits, k, now), now, 1)
  {
    if now == b.last { assert Gained(0.0, b.rate) == 0.0; }
    assert Refill(b, now) == Fresh(limits, k, now);
  }

  lemma AllowKeeps(b: Bucket, now: real)
    requires ValidBucket(b) && b.last <= now
    ensures ValidBucket(AfterAllow(b, now, 1)) && AfterAllow(b, now, 1).last == now
    ensures AfterAllow(b, now, 1).capacity == b.capacity && AfterAllow(b, now, 1).rate == b.rate
  {
    LevelIsRefill(b, now);
  }

  /** One call: the same decision, and agreement goes on. */
  lemma StepAgrees(config: Config, limits: Limits, skew: real, buckets: map<Key, Entry>, all: map<Key, Bucket>,
                   at: real,
                   count: nat, op: Op)
    requires Agrees(config, limits, skew, buckets, all, at) && IdleRefills(config, limits, skew, op.key)
    requires op.now <= op.bucketNow <= op.now + skew && at <= op.bucketNow
    requires !Full(config, Swept(config, buckets, count, op.now), op.key)
    ensures Allows(config, limits, buckets, count, op) == Grants(RefBucket(limits, all, op), op.bucketNow, 1)
    ensures Agrees(config, limits, skew, AfterOp(config, limits, buckets, count, op), RefAfter(limits, all, op),
                   op.bucketNow)
  {
    SweepAgrees(config, limits, skew, buckets, all, at, count, op);
    var swept := Swept(config, buckets, count, op.now);
    SameBucket(config, limits, skew, swept, all, op);
    AllowKeeps(RefBucket(limits, all, op), op.bucketNow);
    AgreesAfter(config, limits, skew, swept, all, op);
  }

  lemma SameBucket(config: Config, limits: Limits, skew: real, swept: map<Key, Entry>, all: map<Key, Bucket>, op: Op)
    requires Agrees(config, limits, skew, swept, all, op.bucketNow)
    ensures var mine, his := BucketFor(limits, swept, op), RefBucket(limits, all, op);
            && Grants(mine, op.bucketNow, 1) == Grants(his, op.bucketNow, 1)
            && AfterAllow(mine, op.bucketNow, 1) == AfterAllow(his, op.bucketNow, 1)
            && ValidBucket(his) && his.last <= op.bucketNow
            && his.capacity == Fresh(limits, op.key, 0.0).capacity && his.rate == Fresh(limits, op.key, 0.0).rate
  {
    if op.key in all {
      assert KnownKey(config, limits, skew, op.key, all[op.key], op.bucketNow);
      if op.key !in swept { FullIsNew(limits, op.key, all[op.key], op.bucketNow); }
    }
  }

  lemma AgreesAfter(config: Config, limits: Limits, skew: real, swept: map<Key, Entry>, all: map<Key, Bucket>, op: Op)
    requires Agrees(config, limits, skew, swept, all, op.bucketNow) && IdleRefills(config, limits, skew, op.key)
    requires op.bucketNow <= op.now + skew
    requires AfterAllow(BucketFor(limits, swept, op), op.bucketNow, 1)
             == AfterAllow(RefBucket(limits, all, op), op.bucketNow, 1)
    requires var b := AfterAllow(RefBucket(limits, all, op), op.bucketNow, 1);
             && ValidBucket(b) && b.last == op.bucketNow
             && b.capacity == Fresh(limits, op.key, 0.0).capacity && b.rate == Fresh(limits, op.key, 0.0).rate
    ensures Agrees(config, limits, skew,
                   swept[op.key := Entry(AfterAllow(BucketFor(limits, swept, op), op.bucketNow, 1), op.now)],
                   RefAfter(limits, all, op), op.bucketNow)
  {
  }

  /** Forgetting is invisible: if every bucket would refill within the idle time, the limiter decides
  every call as one that never forgets, in every run that does not find the map full. */
  lemma {:induction false} PruneTransparent(config: Config, limits: Limits, skew: real, buckets: map<Key, Entry>,
                                            all: map<Key, Bucket>, at: real, count: nat, ops: seq<Op>)
    requires Agrees(config, limits, skew, buckets, all, at) && Clocked(ops, at, skew)
    requires NeverFull(config, limits, buckets, count, ops)
    requires forall op :: op in ops ==> IdleRefills(config, limits, skew, op.key)
    ensures Decisions(config, limits, buckets, count, ops) == RefDecisions(limits, all, ops)
    decreases |ops|
  {
    if ops != [] {
      var op := ops[0];
      StepAgrees(config, limits, skew, buckets, all, at, count + 1, op);
      PruneTransparent(config, limits, skew, AfterOp(config, limits, buckets, count + 1, op), RefAfter(limits, all, op),
                       op.bucketNow, count + 1, ops[1..]);
    }
  }

  /** From an empty limiter. */
  lemma PruneTransparentFromStart(config: Config, limits: Limits, skew: real, at: real, ops: seq<Op>)
    requires Clocked(ops, at, skew) && NeverFull(config, limits, map[], 0, ops)
    requires forall op :: op in ops ==> IdleRefills(config, limits, skew, op.key)
    ensures Decisions(config, limits, map[], 0, ops) == RefDecisions(limits, map[], ops)
  {
    PruneTransparent(config, limits, skew, map[], map[], at, 0, ops);
  }

  /** With skew zero the condition is that the idle time refills the bucket: idle * rate >= capacity. A
  bucket that is `n` per minute refills at a sixtieth of `n` a second, so sixty seconds are enough. */
  lemma PerMinuteRefills(config: Config, limits: Limits, skew: real, k: Key)
    requires config.idle - skew >= 60.0 && limits.rate(k) == limits.capacity(k) as real / 60.0
    ensures IdleRefills(config, limits, skew, k)
  {
    LongerGainsMore(config.idle - skew, 60.0, Fresh(limits, k, 0.0).rate);
    assert Gained(60.0, Fresh(limits, k, 0.0).rate) >= Fresh(limits, k, 0.0).capacity;
  }

  lemma PerSecondRefills(config: Config, limits: Limits, skew: real, k: Key)
    requires config.idle - skew >= 1.0 && limits.rate(k) == limits.capacity(k) as real
    ensures IdleRefills(config, limits, skew, k)
  {
    LongerGainsMore(config.idle - skew, 1.0, Fresh(limits, k, 0.0).rate);
  }

  /** The time between the two clock readings counts: here idle * rate equals capacity, the last use is
  stamped half a second early, and a fresh limiter with room for one bucket grants a call that one which
  never forgets refuses. */
  lemma SkewMatters(k: Key)
    ensures var config, limits := Config(1, 1.0), Limits(_ => 1, _ => 1.0);
            var ops := [Op(k, 0.0, 0.5), Op(k, 1.0, 1.0)];
            && IdleRefills(config, limits, 0.0, k) && NeverFull(config, limits, map[], 0, ops)
            && Decisions(config, limits, map[], 0, ops) == [true, true]
            && RefDecisions(limits, map[], ops) == [true, false]
  {
    var config, limits := Config(1, 1.0), Limits(_ => 1, _ => 1.0);
    var first, second := Op(k, 0.0, 0.5), Op(k, 1.0, 1.0);
    var ops := [first, second];
    assert ops[1..] == [second] && [second][1..] == [];
    var used := Bucket(1.0, 1.0, 0.0, 0.5);
    var m := AfterOp(config, limits, map[], 1, first);
    assert m == map[k := Entry(used, 0.0)] && |m| == 1;
    assert Swept(config, m, 2, 1.0) == map[];
    assert RefAfter(limits, map[], first) == map[k := used];
    assert RefDecisions(limits, map[k := used], [second]) == [false];
    assert Decisions(config, limits, m, 1, [second]) == [true];
    assert NeverFull(config, limits, m, 1, [second]);
  }
}
