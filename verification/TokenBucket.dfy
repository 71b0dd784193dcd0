/** The rate limiter's token bucket, over exact reals. */
module TokenBucket {
  import opened Options

  // It is refilled lazily, not written when a request is denied, and dropped by Redis when its key expires.

  /** Tokens per second, the size of the bucket, and the lifetime of a key in seconds. */
  datatype Policy = Policy(rate: real, capacity: real, expireSeconds: int)

  /** A stored bucket and the moment its key expires. */
  datatype Entry = Entry(tokens: real, lastRefill: real, expiresAt: real)

  // ---- the script ----

  /** HGETALL finds nothing once the key has expired. */
  function Lookup(entry: Option<Entry>, now: real): Option<Entry> {
    if entry.Some? && now < entry.value.expiresAt then entry else None
  }

  function Refilled(p: Policy, tokens: real, elapsed: real): real {
    if tokens + elapsed * p.rate > p.capacity then p.capacity else tokens + elapsed * p.rate
  }

  /** What the bucket holds for a request at `now`. */
  function Available(p: Policy, entry: Option<Entry>, now: real): real {
    match Lookup(entry, now)
    case None => p.capacity
    case Some(e) => Refilled(p, e.tokens, now - e.lastRefill)
  }

  predicate Allows(p: Policy, entry: Option<Entry>, now: real) {
    Available(p, entry, now) >= 1.0
  }

  /** What is stored after the request: only an allowed one writes. */
  function Stored(p: Policy, entry: Option<Entry>, now: real): Option<Entry> {
    if Allows(p, entry, now) then Some(Entry(Available(p, entry, now) - 1.0, now, now + p.expireSeconds as real))
    else Lookup(entry, now)
  }

  /** The key after requests at the given times. */
  function After(p: Policy, times: seq<real>): Option<Entry> {
    if |times| == 0 then None else Stored(p, After(p, times[..|times| - 1]), times[|times| - 1])
  }

  /** Whether the k-th request is allowed. */
  predicate Decision(p: Policy, times: seq<real>, k: nat)
    requires k < |times|
  {
    Allows(p, After(p, times[..k]), times[k])
  }

  predicate Ordered(times: seq<real>) {
    forall j, k :: 0 <= j <= k < |times| ==> times[j] <= times[k]
  }

  /** What createLimiter makes sure of: a key that expires would have been refilled to the brim. */
  predicate Harmless(p: Policy) {
    p.rate >= 0.0 && p.capacity >= 1.0 && p.expireSeconds as real * p.rate >= p.capacity
  }

  // ---- the simple bucket ----

  /** A bucket that every request refills and writes, and that never expires. */
  datatype Bucket = Bucket(tokens: real, lastRefill: real)

  function Level(p: Policy, bucket: Option<Bucket>, now: real): real {
    match bucket
    case None => p.capacity
    case Some(b) => Refilled(p, b.tokens, now - b.lastRefill)
  }

  function Drawn(p: Policy, bucket: Option<Bucket>, now: real): Option<Bucket> {
    var level := Level(p, bucket, now);
    Some(Bucket(if level >= 1.0 then level - 1.0 else level, now))
  }

  function Eager(p: Policy, times: seq<real>): Option<Bucket> {
    if |times| == 0 then None else Drawn(p, Eager(p, times[..|times| - 1]), times[|times| - 1])
  }

  predicate EagerDecision(p: Policy, times: seq<real>, k: nat)
    requires k < |times|
  {
    Level(p, Eager(p, times[..k]), times[k]) >= 1.0
  }

  // ---- refinement ----

  /** From now on the two buckets offer the same. */
  ghost predicate Agree(p: Policy, entry: Option<Entry>, bucket: Option<Bucket>, now: real) {
    forall t: real :: now <= t ==> Available(p, entry, t) == Level(p, bucket, t)
  }

  /** What the script keeps true of a stored bucket. */
  predicate Sound(p: Policy, entry: Option<Entry>, now: real) {
    entry.Some? ==>
      && 0.0 <= entry.value.tokens <= p.capacity && entry.value.lastRefill <= now
      && entry.value.expiresAt == entry.value.lastRefill + p.expireSeconds as real
  }

  lemma GainGrows(rate: real, a: real, b: real)
    requires rate >= 0.0 && a <= b
    ensures a * rate <= b * rate
  {
  }

  lemma GainAdds(rate: real, a: real, b: real)
    ensures (a + b) * rate == a * rate + b * rate
  {
  }

  lemma RefillTwice(p: Policy, tokens: real, a: real, b: real)
    requires p.rate >= 0.0 && b >= 0.0
    ensures Refilled(p, Refilled(p, tokens, a), b) == Refilled(p, tokens, a + b)
  {
    GainGrows(p.rate, 0.0, b);
    GainAdds(p.rate, a, b);
  }

  /** A key that has expired would be full again. */
  lemma ExpiredIsFull(p: Policy, e: Entry, now: real, t: real)
    requires Harmless(p) && Sound(p, Some(e), now) && t >= e.expiresAt
    ensures Refilled(p, e.tokens, t - e.lastRefill) == p.capacity
  {
    var elapsed := t - e.lastRefill;
    GainGrows(p.rate, p.expireSeconds as real, elapsed);
    assert elapsed * p.rate >= p.capacity;
  }

  lemma RequestKeepsAgreement(p: Policy, entry: Option<Entry>, bucket: Option<Bucket>, before: real, now: real)
    requires Harmless(p) && before <= now && Sound(p, entry, before) && Agree(p, entry, bucket, before)
    ensures Sound(p, Stored(p, entry, now), now)
    ensures Agree(p, Stored(p, entry, now), Drawn(p, bucket, now), now)
  {
    var entry', bucket' := Stored(p, entry, now), Drawn(p, bucket, now);
    AvailableBounds(p, entry, before, now);
    forall t: real | now <= t ensures Available(p, entry', t) == Level(p, bucket', t) {
      assert Available(p, entry, now) == Level(p, bucket, now) && Available(p, entry, t) == Level(p, bucket, t);
      if Allows(p, entry, now) {
        if t >= entry'.value.expiresAt {
          ExpiredIsFull(p, entry'.value, now, t);
        }
      } else {
        assert t - now >= 0.0;
        match Lookup(entry, now) {
          case None =>
          case Some(e) =>
            RefillTwice(p, e.tokens, now - e.lastRefill, t - now);
            if t >= e.expiresAt {
              ExpiredIsFull(p, e, now, t);
            }
        }
      }
    }
  }

  lemma AvailableBounds(p: Policy, entry: Option<Entry>, before: real, now: real)
    requires Harmless(p) && before <= now && Sound(p, entry, before)
    ensures 0.0 <= Available(p, entry, now) <= p.capacity
  {
    match Lookup(entry, now) {
      case None =>
      case Some(e) =>
        GainGrows(p.rate, 0.0, now - e.lastRefill);
        assert 0.0 * p.rate == 0.0;
    }
  }

  lemma {:induction false} AlwaysAgree(p: Policy, times: seq<real>, now: real)
    requires Harmless(p) && Ordered(times) && (|times| > 0 ==> times[|times| - 1] <= now)
    ensures Sound(p, After(p, times), now) && Agree(p, After(p, times), Eager(p, times), now)
  {
    if |times| > 0 {
      var front, last := times[..|times| - 1], times[|times| - 1];
      AlwaysAgree(p, front, last);
      RequestKeepsAgreement(p, After(p, front), Eager(p, front), last, last);
    }
  }

  /** Skipping the write on denial and letting keys expire never changes any decision. */
  lemma LazyIsEager(p: Policy, times: seq<real>, k: nat)
    requires Harmless(p) && Ordered(times) && k < |times|
    ensures Decision(p, times, k) <==> EagerDecision(p, times, k)
  {
    AlwaysAgree(p, times[..k], times[k]);
  }

  // ---- windows ----

  /** How many of the requests i, ..., j - 1 were allowed. */
  function AllowedIn(p: Policy, times: seq<real>, i: nat, j: nat): nat
    requires i <= j <= |times|
  {
    if i == j then 0 else AllowedIn(p, times, i, j - 1) + if Decision(p, times, j - 1) then 1 else 0
  }

  /** The most requests a window of the given length may allow. */
  function Limit(p: Policy, length: real): real {
    p.capacity + length * p.rate
  }

  /** What the window that opens with request i leaves for request k. */
  function Allowance(p: Policy, times: seq<real>, i: nat, k: nat): real
    requires i <= k < |times|
  {
    Limit(p, times[k] - times[i]) - AllowedIn(p, times, i, k) as real
  }

  /** What the simple bucket holds for request k. */
  function LevelAt(p: Policy, times: seq<real>, k: nat): real
    requires k < |times|
  {
    Level(p, Eager(p, times[..k]), times[k])
  }

  /** The allowances of all windows that end with request k. */
  function Allowances(p: Policy, times: seq<real>, k: nat): seq<real>
    requires k < |times|
  {
    seq(k + 1, i requires 0 <= i <= k => Allowance(p, times, i, k))
  }

  ghost predicate IsLeast(x: real, xs: seq<real>) {
    (forall i :: 0 <= i < |xs| ==> x <= xs[i]) && (exists i :: 0 <= i < |xs| && x == xs[i])
  }

  /** Shifting every member and adding the bound itself keeps a capped minimum a minimum. */
  lemma LeastShifts(x: real, xs: seq<real>, shift: real, cap: real, x': real, xs': seq<real>)
    requires IsLeast(x, xs) && |xs'| == |xs| + 1 && xs'[|xs|] == cap
    requires forall i :: 0 <= i < |xs| ==> xs'[i] == xs[i] + shift
    requires x' == if x + shift > cap then cap else x + shift
    ensures IsLeast(x', xs')
  {
    var i :| 0 <= i < |xs| && x == xs[i];
    assert xs'[i] == x + shift;
  }

  /** Refill and consumption between request k - 1 and request k. */
  function Shift(p: Policy, times: seq<real>, k: nat): real
    requires 0 < k < |times|
  {
    (times[k] - times[k - 1]) * p.rate - if Decision(p, times, k - 1) then 1.0 else 0.0
  }

  lemma LevelShifts(p: Policy, times: seq<real>, k: nat)
    requires Harmless(p) && Ordered(times) && 0 < k < |times|
    ensures LevelAt(p, times, k)
         == if LevelAt(p, times, k - 1) + Shift(p, times, k) > p.capacity then p.capacity
            else LevelAt(p, times, k - 1) + Shift(p, times, k)
  {
    LazyIsEager(p, times, k - 1);
    assert times[..k][..k - 1] == times[..k - 1];
  }

  lemma AllowanceShifts(p: Policy, times: seq<real>, i: nat, k: nat)
    requires i < k < |times|
    ensures Allowance(p, times, i, k) == Allowance(p, times, i, k - 1) + Shift(p, times, k)
  {
    GainAdds(p.rate, times[k - 1] - times[i], times[k] - times[k - 1]);
    assert (times[k - 1] - times[i]) + (times[k] - times[k - 1]) == times[k] - times[i];
  }

  /** The bucket holds the least allowance of all windows that end with the request. */
  lemma {:induction false} LevelIsLeastAllowance(p: Policy, times: seq<real>, k: nat)
    requires Harmless(p) && Ordered(times) && k < |times|
    ensures IsLeast(LevelAt(p, times, k), Allowances(p, times, k))
  {
    WholeCapacity(p, times, k);
    if k > 0 {
      LevelIsLeastAllowance(p, times, k - 1);
      LevelShifts(p, times, k);
      forall i | 0 <= i < k
        ensures Allowances(p, times, k)[i] == Allowances(p, times, k - 1)[i] + Shift(p, times, k)
      {
        AllowanceShifts(p, times, i, k);
      }
      LeastShifts(LevelAt(p, times, k - 1), Allowances(p, times, k - 1), Shift(p, times, k), p.capacity,
                  LevelAt(p, times, k), Allowances(p, times, k));
    }
  }

  lemma WholeCapacity(p: Policy, times: seq<real>, k: nat)
    requires k < |times|
    ensures Allowances(p, times, k)[k] == p.capacity
    ensures LevelAt(p, times, 0) == p.capacity
  {
    assert (times[k] - times[k]) * p.rate == 0.0;
  }

  /** A request is denied exactly when allowing it would overfill some window that ends with it. */
  lemma DeniedIffWindowFull(p: Policy, times: seq<real>, k: nat)
    requires Harmless(p) && Ordered(times) && k < |times|
    ensures !Decision(p, times, k) <==> exists i :: 0 <= i <= k && Allowance(p, times, i, k) < 1.0
  {
    LazyIsEager(p, times, k);
    LevelIsLeastAllowance(p, times, k);
    var level, all := LevelAt(p, times, k), Allowances(p, times, k);
    if level < 1.0 {
      var i :| 0 <= i < |all| && level == all[i];
      assert Allowance(p, times, i, k) < 1.0;
    } else {
      forall i | 0 <= i <= k ensures Allowance(p, times, i, k) >= 1.0 {
        assert level <= all[i];
      }
    }
  }

  /** At most capacity + rate * length requests are allowed among any consecutive ones. */
  lemma WindowBound(p: Policy, times: seq<real>, i: nat, k: nat)
    requires Harmless(p) && Ordered(times) && i <= k < |times|
    ensures AllowedIn(p, times, i, k + 1) as real <= Limit(p, times[k] - times[i])
  {
    LevelWithinAllowance(p, times, i, k);
    OneMoreFits(Limit(p, times[k] - times[i]), AllowedIn(p, times, i, k), Decision(p, times, k));
  }

  lemma OneMoreFits(bound: real, n: nat, more: bool)
    requires bound - n as real >= if more then 1.0 else 0.0
    ensures (n + if more then 1 else 0) as real <= bound
  {
  }

  lemma LevelWithinAllowance(p: Policy, times: seq<real>, i: nat, k: nat)
    requires Harmless(p) && Ordered(times) && i <= k < |times|
    ensures Allowance(p, times, i, k) >= if Decision(p, times, k) then 1.0 else 0.0
  {
    LazyIsEager(p, times, k);
    LevelIsLeastAllowance(p, times, k);
    AlwaysAgree(p, times[..k], times[k]);
    AvailableBounds(p, After(p, times[..k]), times[k], times[k]);
    assert LevelAt(p, times, k) <= Allowances(p, times, k)[i];
  }

  /** How many of the first n requests were allowed at a time in [t0, t1]. */
  function AllowedBetween(p: Policy, times: seq<real>, t0: real, t1: real, n: nat): nat
    requires n <= |times|
  {
    if n == 0 then 0
    else AllowedBetween(p, times, t0, t1, n - 1)
         + if t0 <= times[n - 1] <= t1 && Decision(p, times, n - 1) then 1 else 0
  }

  lemma {:induction false} BetweenIsConsecutive(p: Policy, times: seq<real>, t0: real, t1: real, n: nat)
    returns (i: nat, j: nat)
    requires Ordered(times) && n <= |times|
    ensures i <= j <= n && AllowedBetween(p, times, t0, t1, n) == AllowedIn(p, times, i, j)
    ensures i < j ==> t0 <= times[i] && times[j - 1] <= t1
    ensures i == j && n > 0 && times[n - 1] <= t1 ==> times[n - 1] < t0
    ensures i < j && times[n - 1] <= t1 ==> j == n
  {
    if n == 0 {
      i, j := 0, 0;
    } else {
      i, j := BetweenIsConsecutive(p, times, t0, t1, n - 1);
      if t0 <= times[n - 1] <= t1 {
        if i == j {
          i, j := n - 1, n;
        } else {
          j := n;
        }
      }
    }
  }

  lemma WindowLength(p: Policy, length: real)
    requires Harmless(p) && length >= 0.0
    ensures Limit(p, length) >= 0.0
  {
    assert 0.0 * p.rate == 0.0;
    GainGrows(p.rate, 0.0, length);
  }

  lemma WiderWindow(p: Policy, length: real, wider: real, n: nat)
    requires Harmless(p) && length <= wider && n as real <= Limit(p, length)
    ensures n as real <= Limit(p, wider)
  {
    GainGrows(p.rate, length, wider);
  }

  /** In any window of time at most capacity + rate * length requests are allowed. */
  lemma AnyWindowBound(p: Policy, times: seq<real>, t0: real, t1: real)
    requires Harmless(p) && Ordered(times) && t0 <= t1
    ensures AllowedBetween(p, times, t0, t1, |times|) as real <= Limit(p, t1 - t0)
  {
    var i, j := BetweenIsConsecutive(p, times, t0, t1, |times|);
    WindowLength(p, t1 - t0);
    if i < j {
      WindowBound(p, times, i, j - 1);
      WiderWindow(p, times[j - 1] - times[i], t1 - t0, AllowedIn(p, times, i, j));
    }
  }

  // ---- the lifetime of a key is exactly long enough ----

  function Repeat(n: nat, t: real): seq<real> {
    seq(n, j requires 0 <= j < n => t)
  }

  /** Emptying the bucket at time zero, then again the moment the key has expired. */
  function TwoBursts(p: Policy, n: nat, j: nat): seq<real> {
    Repeat(n, 0.0) + Repeat(j, p.expireSeconds as real)
  }

  lemma OneLonger(p: Policy, n: nat, j: nat)
    ensures j > 0 ==> TwoBursts(p, n, j)[..n + j - 1] == TwoBursts(p, n, j - 1)
    ensures n > 0 ==> TwoBursts(p, n, 0)[..n - 1] == TwoBursts(p, n - 1, 0)
  {
  }

  lemma {:induction false} FirstBurst(p: Policy, n: nat)
    requires p.expireSeconds > 0 && n as real <= p.capacity
    ensures var left := p.capacity - n as real;
      && (n > 0 ==> After(p, TwoBursts(p, n, 0)) == Some(Entry(left, 0.0, p.expireSeconds as real)))
      && (n > 0 ==> Eager(p, TwoBursts(p, n, 0)) == Some(Bucket(left, 0.0)))
  {
    if n > 0 {
      FirstBurst(p, n - 1);
      OneLonger(p, n, 0);
      assert 0.0 * p.rate == 0.0;
    }
  }

  lemma NoTimeNoRefill(p: Policy, tokens: real, now: real)
    requires tokens <= p.capacity
    ensures Refilled(p, tokens, now - now) == tokens
  {
    var elapsed := now - now;
    assert elapsed == 0.0;
    assert elapsed * p.rate == 0.0;
  }

  lemma AgainAtOnce(p: Policy, tokens: real, now: real)
    requires p.expireSeconds > 0 && 1.0 <= tokens <= p.capacity
    ensures var expiry := now + p.expireSeconds as real;
      Stored(p, Some(Entry(tokens, now, expiry)), now) == Some(Entry(tokens - 1.0, now, expiry))
  {
    NoTimeNoRefill(p, tokens, now);
  }

  lemma LevelAfterDraw(p: Policy, bucket: Option<Bucket>, now: real)
    ensures var level := Level(p, bucket, now);
      Level(p, Drawn(p, bucket, now), now) == if level >= 1.0 then level - 1.0 else level
  {
    assert (now - now) * p.rate == 0.0;
  }

  lemma {:induction false} SecondBurst(p: Policy, n: nat, j: nat)
    requires 0 < j <= n && p.expireSeconds > 0 && p.capacity == n as real
    ensures var now := p.expireSeconds as real;
      After(p, TwoBursts(p, n, j)) == Some(Entry((n - j) as real, now, now + now))
  {
    OneLonger(p, n, j);
    if j == 1 {
      FirstBurst(p, n);
    } else {
      SecondBurst(p, n, j - 1);
      AgainAtOnce(p, (n - j + 1) as real, p.expireSeconds as real);
    }
  }

  lemma BaseLevel(p: Policy, n: nat)
    requires n > 0 && p.expireSeconds > 0 && p.capacity == n as real
    requires p.expireSeconds as real * p.rate < p.capacity
    ensures Level(p, Eager(p, TwoBursts(p, n, 0)), p.expireSeconds as real) < n as real
  {
    FirstBurst(p, n);
    assert p.expireSeconds as real - 0.0 == p.expireSeconds as real;
  }

  lemma DrawBelow(level: real, m: nat)
    requires m > 0 && level < (m + 1) as real
    ensures (if level >= 1.0 then level - 1.0 else level) < m as real
  {
  }

  lemma {:induction false} SecondBurstEager(p: Policy, n: nat, j: nat)
    requires j < n && p.expireSeconds > 0 && p.capacity == n as real
    requires p.expireSeconds as real * p.rate < p.capacity
    ensures Level(p, Eager(p, TwoBursts(p, n, j)), p.expireSeconds as real) < (n - j) as real
  {
    if j == 0 {
      BaseLevel(p, n);
    } else {
      SecondBurstEager(p, n, j - 1);
      OneLonger(p, n, j);
      LevelAfterDraw(p, Eager(p, TwoBursts(p, n, j - 1)), p.expireSeconds as real);
      DrawBelow(Level(p, Eager(p, TwoBursts(p, n, j - 1)), p.expireSeconds as real), n - j);
    }
  }

  lemma LastIsAllowed(p: Policy, n: nat)
    requires n > 0 && p.expireSeconds > 0 && p.capacity == n as real
    ensures Decision(p, TwoBursts(p, n, n), 2 * n - 1)
  {
    OneLonger(p, n, n);
    FirstBurst(p, n);
    if n > 1 {
      SecondBurst(p, n, n - 1);
      NoTimeNoRefill(p, 1.0, p.expireSeconds as real);
    }
  }

  lemma LastIsDenied(p: Policy, n: nat)
    requires n > 0 && p.expireSeconds > 0 && p.capacity == n as real
    requires p.expireSeconds as real * p.rate < p.capacity
    ensures !EagerDecision(p, TwoBursts(p, n, n), 2 * n - 1)
  {
    OneLonger(p, n, n);
    SecondBurstEager(p, n, n - 1);
  }

  /** With a shorter lifetime a client that empties the bucket twice is allowed one request too many. */
  lemma ShortLifeMatters(p: Policy, n: nat)
    requires n > 0 && p.expireSeconds > 0 && p.capacity == n as real
    requires p.expireSeconds as real * p.rate < p.capacity
    ensures var times := TwoBursts(p, n, n);
      Ordered(times) && |times| == 2 * n && Decision(p, times, 2 * n - 1) && !EagerDecision(p, times, 2 * n - 1)
  {
    LastIsAllowed(p, n);
    LastIsDenied(p, n);
  }

  ghost predicate SameDecisions(p: Policy, times: seq<real>) {
    forall k :: 0 <= k < |times| ==> (Decision(p, times, k) <==> EagerDecision(p, times, k))
  }

  /** Expiry never changes a decision exactly when a key lives long enough for an empty bucket to refill. */
  lemma ExpiryHarmlessIff(p: Policy, n: nat)
    requires n > 0 && p.expireSeconds > 0 && p.capacity == n as real && p.rate >= 0.0
    ensures (forall times :: Ordered(times) ==> SameDecisions(p, times))
       <==> p.expireSeconds as real * p.rate >= p.capacity
  {
    if p.expireSeconds as real * p.rate >= p.capacity {
      forall times | Ordered(times) ensures SameDecisions(p, times) {
        forall k | 0 <= k < |times| ensures Decision(p, times, k) <==> EagerDecision(p, times, k) {
          LazyIsEager(p, times, k);
        }
      }
    } else {
      ShortLifeMatters(p, n);
      assert !SameDecisions(p, TwoBursts(p, n, n));
    }
  }
}
