/** Exactly when forgetting idle buckets is invisible: the condition of prune transparency is needed too. */
module PruneExact {
  import opened TokenBuckets
  import opened RateLimiters

  // ---------------------------------------------------------------- the rest of a run

  ghost function RefAfterFirst(limits: Limits, all: map<Key, Bucket>, ops: seq<Op>, n: nat): map<Key, Bucket>
    requires n <= |ops|
    decreases n
  {
    if n == 0 then all else RefAfterFirst(limits, RefAfter(limits, all, ops[0]), ops[1..], n - 1)
  }

  lemma TailAt(d: bool, rest: seq<bool>, n: nat)
    requires 0 < n <= |rest| + 1
    ensures ([d] + rest)[n..] == rest[n - 1..]
  {
  }

  lemma {:induction false} LaterRefDecisions(limits: Limits, all: map<Key, Bucket>, ops: seq<Op>, n: nat)
    requires n <= |ops|
    ensures |RefDecisions(limits, all, ops)| == |ops|
    ensures RefDecisions(limits, all, ops)[n..] == RefDecisions(limits, RefAfterFirst(limits, all, ops, n), ops[n..])
    decreases |ops|
  {
    if n == 0 {
      assert ops[0..] == ops;
      if ops != [] { LaterRefDecisions(limits, RefAfter(limits, all, ops[0]), ops[1..], 0); }
    } else {
      LaterRefDecisions(limits, RefAfter(limits, all, ops[0]), ops[1..], n - 1);
      assert ops[1..][n - 1..] == ops[n..];
    }
  }

  predicate AllTrue(ds: seq<bool>) {
    forall i :: 0 <= i < |ds| ==> ds[i]
  }

  function Repeat(op: Op, n: nat): (ops: seq<Op>)
    ensures |ops| == n && forall i :: 0 <= i < n ==> ops[i] == op
  {
    if n == 0 then [] else [op] + Repeat(op, n - 1)
  }

  lemma RepeatTail(op: Op, n: nat)
    requires n > 0
    ensures Repeat(op, n)[0] == op && Repeat(op, n)[1..] == Repeat(op, n - 1)
  {
  }

  // ---------------------------------------------------------------- the limiter that forgets

  /** Only `k` has a bucket, stamped `stamp`. */
  ghost predicate Only(m: map<Key, Entry>, k: Key, stamp: real) {
    forall x :: x in m ==> x == k && m[x].lastUsed == stamp
  }

  lemma OneKeyRoom(config: Config, m: map<Key, Entry>, k: Key)
    requires m.Keys <= {k} && config.maxBucketCount > 0
    ensures !Full(config, m, k)
  {
    if k !in m { assert m.Keys == {}; }
  }

  /** One key alone never finds the map full. */
  lemma {:induction false} OneKeyHasRoom(config: Config, limits: Limits, m: map<Key, Entry>, count: nat, ops: seq<Op>,
                                         k: Key)
    requires m.Keys <= {k} && config.maxBucketCount > 0 && Over(ops, {k})
    ensures NeverFull(config, limits, m, count, ops)
    decreases |ops|
  {
    if ops != [] {
      OneKeyRoom(config, Swept(config, m, count + 1, ops[0].now), k);
      OneKeyHasRoom(config, limits, AfterOp(config, limits, m, count + 1, ops[0]), count + 1, ops[1..], k);
    }
  }

  /** Every map with at most this bucket grants all of `rest`, from this call on. */
  ghost predicate GrantsAll(config: Config, limits: Limits, k: Key, stamp: real, count: nat, rest: seq<Op>) {
    forall m {:trigger Decisions(config, limits, m, count, rest)} ::
      Only(m, k, stamp) ==> AllTrue(Decisions(config, limits, m, count, rest))
  }

  lemma StaysOnly(config: Config, limits: Limits, m: map<Key, Entry>, count: nat, op: Op)
    requires Only(m, op.key, op.now)
    ensures Only(AfterOp(config, limits, m, count, op), op.key, op.now)
  {
  }

  /** Calls at one moment leave such a map, so what follows them is granted. */
  lemma {:induction false} GrantedLater(config: Config, limits: Limits, m: map<Key, Entry>, count: nat, op: Op, n: nat,
                                        rest: seq<Op>)
    requires Only(m, op.key, op.now) && GrantsAll(config, limits, op.key, op.now, count + n, rest)
    ensures AllTrue(Decisions(config, limits, m, count, Repeat(op, n) + rest)[n..])
    decreases n
  {
    var ops := Repeat(op, n) + rest;
    if n == 0 {
      assert ops == rest;
      assert Decisions(config, limits, m, count, ops)[0..] == Decisions(config, limits, m, count, rest);
    } else {
      RepeatTail(op, n);
      assert ops[0] == op && ops[1..] == Repeat(op, n - 1) + rest;
      var next := AfterOp(config, limits, m, count + 1, op);
      StaysOnly(config, limits, m, count + 1, op);
      GrantedLater(config, limits, next, count + 1, op, n - 1, rest);
      TailAt(Allows(config, limits, m, count + 1, op), Decisions(config, limits, next, count + 1, ops[1..]), n);
    }
  }

  /** The bucket of `k`, if remembered, can still give `r` tokens. */
  ghost predicate Gives(limits: Limits, m: map<Key, Entry>, op: Op, r: nat) {
    Fresh(limits, op.key, 0.0).capacity >= r as real &&
        (op.key in m ==> m[op.key].bucket.last == op.bucketNow && m[op.key].bucket.tokens >= r as real)
  }

  lemma GrantStep(config: Config, limits: Limits, m: map<Key, Entry>, count: nat, op: Op, r: nat)
    requires Only(m, op.key, op.now) && config.maxBucketCount > 0 && Gives(limits, m, op, r) && r > 0
    ensures Allows(config, limits, m, count, op)
    ensures var m' := AfterOp(config, limits, m, count, op); Only(m', op.key, op.now) && Gives(limits, m', op, r - 1)
  {
    OneKeyRoom(config, Swept(config, m, count, op.now), op.key);
  }

  lemma AllTrueCons(d: bool, ds: seq<bool>)
    requires d && AllTrue(ds)
    ensures AllTrue([d] + ds)
  {
  }

  /** Remembered or forgotten, `r` calls at one moment are granted. */
  lemma {:induction false} AllGranted(config: Config, limits: Limits, m: map<Key, Entry>, count: nat, op: Op, r: nat)
    requires Only(m, op.key, op.now) && config.maxBucketCount > 0 && Gives(limits, m, op, r)
    ensures AllTrue(Decisions(config, limits, m, count, Repeat(op, r)))
    decreases r
  {
    if r > 0 {
      RepeatTail(op, r);
      GrantStep(config, limits, m, count + 1, op, r);
      var next := AfterOp(config, limits, m, count + 1, op);
      AllGranted(config, limits, next, count + 1, op, r - 1);
      AllTrueCons(true, Decisions(config, limits, next, count + 1, Repeat(op, r - 1)));
    }
  }

  // ---------------------------------------------------------------- the limiter that does not

  function Whole(limits: Limits, k: Key): (n: nat)
    ensures n > 0 && n as real == Fresh(limits, k, 0.0).capacity
  {
    if limits.capacity(k) == 0 then 1 else limits.capacity(k)
  }

  /** Calls at one moment take a token each until there are none. */
  lemma {:induction false} RefEmpties(limits: Limits, all: map<Key, Bucket>, op: Op, t: nat, n: nat, rest: seq<Op>)
    requires op.key in all && all[op.key].last == op.bucketNow && all[op.key].tokens == t as real
    ensures var end := RefAfterFirst(limits, all, Repeat(op, n) + rest, n);
            && op.key in end && end[op.key] == all[op.key].(tokens := (if n <= t then t - n else 0) as real)
    decreases n
  {
    if n > 0 {
      RepeatTail(op, n);
      var ops := Repeat(op, n) + rest;
      assert ops[0] == op && ops[1..] == Repeat(op, n - 1) + rest;
      RefEmpties(limits, RefAfter(limits, all, op), op, if t > 0 then t - 1 else 0, n - 1, rest);
    }
  }

  /** With fewer than `r` tokens not all of `r` calls at one moment are granted. */
  lemma {:induction false} RefRefuses(limits: Limits, all: map<Key, Bucket>, op: Op, r: nat)
    requires op.key in all && ValidBucket(all[op.key]) && all[op.key].last <= op.bucketNow && r > 0
    requires Refill(all[op.key], op.bucketNow).tokens < r as real
    ensures !AllTrue(RefDecisions(limits, all, Repeat(op, r)))
    decreases r
  {
    RepeatTail(op, r);
    var ds := RefDecisions(limits, all, Repeat(op, r));
    if Grants(all[op.key], op.bucketNow, 1) {
      var all' := RefAfter(limits, all, op);
      AllowKeeps(all[op.key], op.bucketNow);
      RefRefuses(limits, all', op, r - 1);
      var rest := RefDecisions(limits, all', Repeat(op, r - 1));
      var i :| 0 <= i < |rest| && !rest[i];
      assert ds[i + 1] == rest[i];
    } else {
      assert !ds[0];
    }
  }

  // ---------------------------------------------------------------- the run that tells them apart

  function Wait(config: Config): real {
    if config.idle <= 0.0 then 0.0 else config.idle
  }

  function Later(config: Config, skew: real): real {
    if config.idle <= skew then skew else config.idle
  }

  /** Drain the bucket, with its last use stamped as early as the skew allows; wait for the idle time;
  ask for a whole bucket. The calls are so many that the first one after the wait prunes. */
  function Draining(config: Config, limits: Limits, skew: real, k: Key): seq<Op> {
    Repeat(Op(k, 0.0, skew), 256 * Whole(limits, k) + 255)
  }

  function Asking(config: Config, limits: Limits, skew: real, k: Key): seq<Op> {
    Repeat(Op(k, Wait(config), Later(config, skew)), Whole(limits, k))
  }

  lemma {:induction false} RepeatClocked(op: Op, n: nat, since: real, skew: real, rest: seq<Op>)
    requires op.now <= op.bucketNow <= op.now + skew && since <= op.bucketNow && Clocked(rest, op.bucketNow, skew)
    ensures Clocked(Repeat(op, n) + rest, since, skew)
    decreases n
  {
    if n > 0 {
      RepeatTail(op, n);
      assert (Repeat(op, n) + rest)[1..] == Repeat(op, n - 1) + rest && (Repeat(op, n) + rest)[0] == op;
      RepeatClocked(op, n - 1, op.bucketNow, skew, rest);
    } else {
      assert Repeat(op, n) + rest == rest;
      if rest != [] { assert since <= rest[0].bucketNow; }
    }
  }

  /** The first call after the wait finds a new bucket. */
  lemma Forgotten(config: Config, limits: Limits, m: map<Key, Entry>, count: nat, op: Op)
    requires Only(m, op.key, 0.0) && config.maxBucketCount > 0 && count % 256 == 0 && op.now == Wait(config)
    ensures Swept(config, m, count, op.now) == map[] && !Full(config, map[], op.key)
    ensures Allows(config, limits, m, count, op)
    ensures AfterOp(config, limits, m, count, op)
         == map[op.key := Entry(AfterAllow(Fresh(limits, op.key, op.bucketNow), op.bucketNow, 1), op.now)]
  {
    assert Swept(config, m, count, op.now) == map[];
  }

  lemma AskingGranted(config: Config, limits: Limits, skew: real, k: Key, m: map<Key, Entry>, count: nat)
    requires Only(m, k, 0.0) && config.maxBucketCount > 0 && (count + 1) % 256 == 0
    ensures AllTrue(Decisions(config, limits, m, count, Asking(config, limits, skew, k)))
  {
    var op, r := Op(k, Wait(config), Later(config, skew)), Whole(limits, k);
    RepeatTail(op, r);
    Forgotten(config, limits, m, count + 1, op);
    AllGranted(config, limits, AfterOp(config, limits, m, count + 1, op), count + 1, op, r - 1);
  }

  lemma Drained(config: Config, limits: Limits, skew: real, k: Key, rest: seq<Op>) returns (all: map<Key, Bucket>)
    ensures var a := Draining(config, limits, skew, k); all == RefAfterFirst(limits, map[], a + rest, |a|)
    ensures k in all && all[k] == Fresh(limits, k, skew).(tokens := 0.0)
  {
    var op, n := Op(k, 0.0, skew), 256 * Whole(limits, k) + 255;
    var ops := Repeat(op, n) + rest;
    RepeatTail(op, n);
    assert ops[0] == op && ops[1..] == Repeat(op, n - 1) + rest;
    RefEmpties(limits, RefAfter(limits, map[], op), op, Whole(limits, k) - 1, n - 1, rest);
    all := RefAfterFirst(limits, map[], ops, n);
  }

  lemma AskingRefused(config: Config, limits: Limits, skew: real, k: Key, all: map<Key, Bucket>)
    requires k in all && all[k] == Fresh(limits, k, skew).(tokens := 0.0) && !IdleRefills(config, limits, skew, k)
    ensures !AllTrue(RefDecisions(limits, all, Asking(config, limits, skew, k)))
  {
    RefRefuses(limits, all, Op(k, Wait(config), Later(config, skew)), Whole(limits, k));
  }

  /** The condition is needed: if some key's bucket does not refill within the idle time less the skew,
  a clocked run from a fresh limiter, which never finds the map full, tells the limiter from one that
  never forgets. */
  lemma PruneVisible(config: Config, limits: Limits, skew: real, k: Key) returns (ops: seq<Op>)
    requires config.maxBucketCount > 0 && skew >= 0.0 && !IdleRefills(config, limits, skew, k)
    ensures Clocked(ops, 0.0, skew) && NeverFull(config, limits, map[], 0, ops) && forall op :: op in ops ==>
              op.key == k
    ensures Decisions(config, limits, map[], 0, ops) != RefDecisions(limits, map[], ops)
  {
    var a, b := Draining(config, limits, skew, k), Asking(config, limits, skew, k);
    ops := a + b;
    RunClocked(config, limits, skew, k);
    OneKeyHasRoom(config, limits, map[], 0, ops, k);
    MineGrants(config, limits, skew, k, a, b);
    RefRefusesOne(config, limits, skew, k, a, b);
  }

  /** After the wait every call is granted... */
  lemma MineGrants(config: Config, limits: Limits, skew: real, k: Key, a: seq<Op>, b: seq<Op>)
    requires a == Draining(config, limits, skew, k) && b == Asking(config, limits, skew, k) && config.maxBucketCount > 0
    ensures AllTrue(Decisions(config, limits, map[], 0, a + b)[|a|..])
  {
    forall m | Only(m, k, 0.0) ensures AllTrue(Decisions(config, limits, m, |a|, b)) {
      AskingGranted(config, limits, skew, k, m, |a|);
    }
    GrantedLater(config, limits, map[], 0, Op(k, 0.0, skew), |a|, b);
  }

  /** ... but not by a limiter that remembers. */
  lemma RefRefusesOne(config: Config, limits: Limits, skew: real, k: Key, a: seq<Op>, b: seq<Op>)
    requires a == Draining(config, limits, skew, k) && b == Asking(config, limits, skew, k) &&
             !IdleRefills(config, limits, skew, k)
    ensures var ds := RefDecisions(limits, map[], a + b); |ds| == |a + b| && !AllTrue(ds[|a|..])
  {
    var all := Drained(config, limits, skew, k, b);
    AskingRefused(config, limits, skew, k, all);
    LaterRefDecisions(limits, map[], a + b, |a|);
    assert (a + b)[|a|..] == b;
  }

  lemma RunClocked(config: Config, limits: Limits, skew: real, k: Key)
    requires skew >= 0.0
    ensures Clocked(Draining(config, limits, skew, k) + Asking(config, limits, skew, k), 0.0, skew)
  {
    var op2, r := Op(k, Wait(config), Later(config, skew)), Whole(limits, k);
    RepeatClocked(op2, r, skew, skew, []);
    assert Repeat(op2, r) + [] == Repeat(op2, r);
    RepeatClocked(Op(k, 0.0, skew), 256 * Whole(limits, k) + 255, 0.0, skew, Repeat(op2, r));
  }

  // ---------------------------------------------------------------- exactness

  ghost predicate Over(ops: seq<Op>, keys: set<Key>) {
    forall op :: op in ops ==> op.key in keys
  }

  /** On every clocked run over these keys that never finds the map full, the limiter decides as one
  that never forgets. */
  ghost predicate Transparent(config: Config, limits: Limits, skew: real, keys: set<Key>) {
    forall ops: seq<Op> :: Clocked(ops, 0.0, skew) && NeverFull(config, limits, map[], 0, ops) && Over(ops, keys) ==>
      Decisions(config, limits, map[], 0, ops) == RefDecisions(limits, map[], ops)
  }

  /** Forgetting is invisible if and only if every bucket refills within the idle time less the skew; a
  limiter without room for a bucket refuses everything. */
  lemma TransparentIff(config: Config, limits: Limits, skew: real, keys: set<Key>)
    requires skew >= 0.0
    ensures Transparent(config, limits, skew, keys) <==>
            config.maxBucketCount == 0 || forall k :: k in keys ==> IdleRefills(config, limits, skew, k)
  {
    if config.maxBucketCount == 0 {
      forall ops: seq<Op> | ops != [] ensures !NeverFull(config, limits, map[], 0, ops) {
        assert Swept(config, map[], 1, ops[0].now) == map[];
      }
    } else if forall k :: k in keys ==> IdleRefills(config, limits, skew, k) {
      forall ops: seq<Op> | Clocked(ops, 0.0, skew) && NeverFull(config, limits, map[], 0, ops) && Over(ops, keys)
        ensures Decisions(config, limits, map[], 0, ops) == RefDecisions(limits, map[], ops)
      {
        PruneTransparentFromStart(config, limits, skew, 0.0, ops);
      }
    } else {
      var k :| k in keys && !IdleRefills(config, limits, skew, k);
      var ops := PruneVisible(config, limits, skew, k);
      assert Over(ops, keys);
    }
  }
}
