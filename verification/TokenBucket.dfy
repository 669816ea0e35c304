/** Token buckets over real time and real tokens. */
module TokenBuckets {

  datatype Bucket = Bucket(capacity: real, rate: real, tokens: real, last: real)

  predicate ValidBucket(b: Bucket) {
    b.capacity >= 1.0 && b.rate > 0.0 && 0.0 <= b.tokens <= b.capacity
  }

  /** The constructor's defaults for a zero capacity and a rate that is not positive. */
  function NewBucket(capacity: nat, rate: real, now: real): (b: Bucket)
    ensures ValidBucket(b) && b.tokens == b.capacity && b.last == now
    ensures capacity > 0 ==> b.capacity == capacity as real
    ensures rate > 0.0 ==> b.rate == rate
    ensures capacity == 0 ==> b.capacity == 1.0
    ensures rate <= 0.0 ==> b.rate == 1.0
  {
    var c := if capacity == 0 then 1.0 else capacity as real;
    Bucket(c, if rate > 0.0 then rate else 1.0, c, now)
  }

  function Min(a: real, b: real): real {
    if a <= b then a else b
  }

  /** What a bucket gains in some time. */
  function Gained(elapsed: real, rate: real): real {
    elapsed * rate
  }

  function Refill(b: Bucket, now: real): Bucket {
    if now - b.last <= 0.0 then b
    else b.(tokens := Min(b.capacity, b.tokens + Gained(now - b.last, b.rate)), last := now)
  }

  predicate Grants(b: Bucket, now: real, n: nat) {
    n == 0 || Refill(b, now).tokens >= n as real
  }

  function AfterAllow(b: Bucket, now: real, n: nat): Bucket {
    if n == 0 then b
    else
      var r := Refill(b, now);
      if r.tokens < n as real then r else r.(tokens := r.tokens - n as real)
  }

  class TokenBucket {
    const capacity: real
    const rate: real
    var tokens: real
    var last: real

    ghost function Value(): Bucket
      reads this
    {
      Bucket(capacity, rate, tokens, last)
    }

    ghost predicate Valid()
      reads this
    {
      ValidBucket(Value())
    }

    constructor (capacity: nat, rate: real, now: real)
      ensures Valid() && Value() == NewBucket(capacity, rate, now)
    {
      this.capacity := if capacity == 0 then 1.0 else capacity as real;
      this.rate := if rate > 0.0 then rate else 1.0;
      tokens := if capacity == 0 then 1.0 else capacity as real;
      last := now;
    }

    method RefillLocked(now: real)
      requires Valid()
      modifies this
      ensures Valid() && Value() == Refill(old(Value()), now)
    {
      var elapsed := now - last;
      if elapsed <= 0.0 { return; }
      Gain(elapsed, rate);
      tokens := Min(capacity, tokens + Gained(elapsed, rate));
      last := now;
    }

    method Allow(now: real, n: nat) returns (granted: bool)
      requires Valid()
      modifies this
      ensures Valid() && granted == Grants(old(Value()), now, n) && Value() == AfterAllow(old(Value()), now, n)
    {
      if n == 0 { return true; }
      RefillLocked(now);
      if tokens < n as real { return false; }
      tokens := tokens - n as real;
      granted := true;
    }
  }

  lemma Gain(elapsed: real, rate: real)
    requires elapsed >= 0.0 && rate > 0.0
    ensures elapsed * rate >= 0.0 && Gained(elapsed, rate) >= 0.0
  {
  }

  lemma LongerGainsMore(a: real, b: real, rate: real)
    requires a >= b && rate > 0.0
    ensures Gained(a, rate) >= Gained(b, rate)
  {
    Gain(a - b, rate);
    Distribute(a - b, b, rate);
  }

  lemma Distribute(a: real, b: real, rate: real)
    ensures (a + b) * rate == a * rate + b * rate
  {
  }

  // ---------------------------------------------------------------- whole runs

  /** A call and the tokens it was granted: all it asked for, or none. */
  datatype Call = Call(time: real, asked: nat, granted: nat)

  /** The calls were made on this bucket, in order, by a clock that does not run backwards. */
  ghost predicate Ran(start: Bucket, calls: seq<Call>, end: Bucket) {
    if calls == [] then end == start
    else
      var front, c := calls[..|calls| - 1], calls[|calls| - 1];
      exists mid :: Ran(start, front, mid) && Made(mid, c, end)
  }

  predicate Made(b: Bucket, c: Call, end: Bucket) {
    c.time >= b.last && end == AfterAllow(b, c.time, c.asked)
    && c.granted == (if Grants(b, c.time, c.asked) then c.asked else 0)
  }

  function GrantedFrom(calls: seq<Call>, i: nat): nat
    requires i <= |calls|
    decreases |calls| - i
  {
    if i == |calls| then 0 else calls[i].granted + GrantedFrom(calls, i + 1)
  }

  /** The tokens at hand at `now`; a bucket's clock is counted in the tokens it has brought. */
  function Level(b: Bucket, now: real): real {
    Min(b.capacity, b.tokens + (now * b.rate - b.last * b.rate))
  }

  /** `x` more tokens keep within the allowance of every window that ends now: capacity plus rate times
  its length. */
  ghost predicate Fits(capacity: real, rate: real, calls: seq<Call>, now: real, x: real) {
    x <= capacity && forall i: nat :: i < |calls| ==> Within(capacity, rate, calls, i, now, x)
  }

  predicate Within(capacity: real, rate: real, calls: seq<Call>, i: nat, now: real, x: real)
    requires i < |calls|
  {
    GrantedFrom(calls, i) as real + x <= capacity + (now * rate - calls[i].time * rate)
  }

  lemma {:induction false} GrantedAppend(calls: seq<Call>, c: Call, i: nat)
    requires i <= |calls|
    ensures GrantedFrom(calls + [c], i) == GrantedFrom(calls, i) + c.granted
    decreases |calls| - i
  {
    if i < |calls| { GrantedAppend(calls, c, i + 1); }
  }

  lemma LevelIsRefill(b: Bucket, now: real)
    requires ValidBucket(b) && b.last <= now
    ensures Refill(b, now).tokens == Level(b, now) && Refill(b, now).last == now && ValidBucket(Refill(b, now))
    ensures b.last * b.rate <= now * b.rate
  {
    Distribute(now, -b.last, b.rate);
    Gain(now - b.last, b.rate);
  }

  lemma FullLevel(b: Bucket, now: real)
    requires ValidBucket(b) && b.tokens == b.capacity && b.last <= now
    ensures Level(b, now) == b.capacity
  {
    LevelIsRefill(b, now);
  }

  lemma MadeKeeps(b: Bucket, c: Call, end: Bucket)
    requires ValidBucket(b) && Made(b, c, end)
    ensures ValidBucket(end) && end.capacity == b.capacity && end.rate == b.rate
    ensures c.asked > 0 ==> end.last == c.time && end.tokens == Level(b, c.time) - c.granted as real
  {
    LevelIsRefill(b, c.time);
  }

  lemma {:induction false} RanKeeps(start: Bucket, calls: seq<Call>, end: Bucket)
    requires ValidBucket(start) && Ran(start, calls, end)
    ensures ValidBucket(end) && end.capacity == start.capacity && end.rate == start.rate
  {
    if calls != [] {
      var front, c := calls[..|calls| - 1], calls[|calls| - 1];
      var mid :| Ran(start, front, mid) && Made(mid, c, end);
      RanKeeps(start, front, mid);
      MadeKeeps(mid, c, end);
    }
  }

  /** One more call, seen from a later time. */
  lemma FitsAppend(capacity: real, rate: real, calls: seq<Call>, c: Call, now: real, x: real)
    requires c.time * rate <= now * rate
    ensures Fits(capacity, rate, calls + [c], now, x)
       <==> x <= capacity && Fits(capacity, rate, calls, c.time, Before(c, now, rate, x))
  {
    var y := Before(c, now, rate, x);
    var all := calls + [c];
    forall i: nat | i < |calls|
      ensures Within(capacity, rate, all, i, now, x) <==> Within(capacity, rate, calls, i, c.time, y)
    {
      GrantedAppend(calls, c, i);
    }
    GrantedAppend(calls, c, |calls|);
    assert Within(capacity, rate, all, |calls|, now, x) <==> y <= capacity;
  }

  /** The bucket is exactly the windowed allowance: after any calls that ask for something, on a full
  bucket, what it can still give at any later time is what every window that ends then has left. */
  lemma {:induction false} LevelIsAllowance(start: Bucket, calls: seq<Call>, end: Bucket, now: real, x: real)
    requires ValidBucket(start) && start.tokens == start.capacity && Ran(start, calls, end) && end.last <= now
    requires forall c :: c in calls ==> c.asked > 0
    ensures x <= Level(end, now) <==> Fits(start.capacity, start.rate, calls, now, x)
    decreases |calls|
  {
    if calls == [] {
      FullLevel(end, now);
      assert Fits(start.capacity, start.rate, [], now, x) <==> x <= start.capacity;
    } else {
      var front, c := calls[..|calls| - 1], calls[|calls| - 1];
      var mid :| Ran(start, front, mid) && Made(mid, c, end);
      assert calls == front + [c];
      RanKeeps(start, front, mid);
      LevelIsAllowance(start, front, mid, c.time, Before(c, now, start.rate, x));
      LevelStep(front, mid, c, end, now, x);
    }
  }

  /** What was needed just before `c` for `x` to be left at `now`. */
  function Before(c: Call, now: real, rate: real, x: real): real {
    c.granted as real + x - (now * rate - c.time * rate)
  }

  lemma LevelStep(front: seq<Call>, mid: Bucket, c: Call, end: Bucket, now: real, x: real)
    requires ValidBucket(mid) && Made(mid, c, end) && c.asked > 0 && end.last <= now
    requires Before(c, now, mid.rate, x) <= Level(mid, c.time)
        <==> Fits(mid.capacity, mid.rate, front, c.time, Before(c, now, mid.rate, x))
    ensures x <= Level(end, now) <==> Fits(mid.capacity, mid.rate, front + [c], now, x)
  {
    var gain := LevelNext(mid, c, end, now);
    FitsAppend(mid.capacity, mid.rate, front, c, now, x);
    BeforeIs(c, now, mid.rate, x, gain);
    LevelAfter(mid.capacity, Level(mid, c.time), c.granted as real, gain, x);
  }

  /** The level after a call and some time. */
  lemma LevelNext(mid: Bucket, c: Call, end: Bucket, now: real) returns (gain: real)
    requires ValidBucket(mid) && Made(mid, c, end) && c.asked > 0 && end.last <= now
    ensures gain == now * mid.rate - c.time * mid.rate && gain >= 0.0
    ensures Level(end, now) == Min(mid.capacity, Level(mid, c.time) - c.granted as real + gain)
  {
    MadeKeeps(mid, c, end);
    LevelIsRefill(end, now);
    gain := now * mid.rate - c.time * mid.rate;
  }

  lemma BeforeIs(c: Call, now: real, rate: real, x: real, gain: real)
    requires gain == now * rate - c.time * rate
    ensures Before(c, now, rate, x) == c.granted as real + x - gain
  {
  }

  /** What is left after a grant and a gain, against what was needed before them. */
  lemma LevelAfter(capacity: real, level: real, granted: real, gain: real, x: real)
    ensures x <= Min(capacity, level - granted + gain) <==> x <= capacity && granted + x - gain <= level
  {
  }

  /** A call is granted if and only if it fits the allowance of every window that ends with it. */
  lemma GrantedIff(start: Bucket, calls: seq<Call>, b: Bucket, now: real, n: nat)
    requires ValidBucket(start) && start.tokens == start.capacity && Ran(start, calls, b) && b.last <= now && n > 0
    requires forall c :: c in calls ==> c.asked > 0
    ensures Grants(b, now, n) <==> Fits(start.capacity, start.rate, calls, now, n as real)
  {
    RanKeeps(start, calls, b);
    LevelIsAllowance(start, calls, b, now, n as real);
    LevelIsRefill(b, now);
  }

  /** Within, with the window's length written out. */
  lemma WithinIsWindow(capacity: real, rate: real, calls: seq<Call>, i: nat, now: real, x: real)
    requires i < |calls|
    ensures Within(capacity, rate, calls, i, now, x)
       <==> GrantedFrom(calls, i) as real + x <= capacity + (now - calls[i].time) * rate
  {
    Distribute(now, -calls[i].time, rate);
  }

  lemma WindowHolds(start: Bucket, calls: seq<Call>, end: Bucket, i: nat, now: real)
    requires ValidBucket(start) && start.tokens == start.capacity && Ran(start, calls, end)
    requires (forall c :: c in calls ==> c.asked > 0) && i < |calls| && end.last <= now
    ensures Within(start.capacity, start.rate, calls, i, now, 0.0)
  {
    RanKeeps(start, calls, end);
    LevelIsRefill(end, now);
    LevelIsAllowance(start, calls, end, now, 0.0);
  }

  /** In any window that begins with call `i` and ends by `now`, at most capacity plus rate times its
  length is granted. */
  lemma RateBound(start: Bucket, calls: seq<Call>, end: Bucket, i: nat, now: real)
    requires ValidBucket(start) && start.tokens == start.capacity && Ran(start, calls, end)
    requires (forall c :: c in calls ==> c.asked > 0) && i < |calls| && end.last <= now
    ensures GrantedFrom(calls, i) as real <= start.capacity + (now - calls[i].time) * start.rate
  {
    WindowHolds(start, calls, end, i, now);
    WithinIsWindow(start.capacity, start.rate, calls, i, now, 0.0);
  }
}
