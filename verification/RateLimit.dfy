/** The fixed-window limiter on sign-in requests, and the cleanup of its buckets. */
module RateLimit {

  type Instant = int  // microseconds since the epoch, UTC

  const MINUTE: int := 60 * 1_000_000
  const HOUR: int := 60 * MINUTE
  const RATE_LIMIT_WINDOW: int := 15 * MINUTE
  const RATE_LIMIT_RETENTION: int := 24 * HOUR

  datatype Dimension = EmailDelivery | NetworkRequest

  datatype Key = Key(dimension: Dimension, digest: int)

  function LimitOf(dimension: Dimension): nat {
    match dimension
    case EmailDelivery => 3
    case NetworkRequest => 30
  }

  /** The minute rounded down to a quarter of an hour, without seconds. */
  function FixedWindowStart(now: Instant): Instant {
    var minute := now % HOUR / MINUTE;
    now - now % HOUR + (minute - minute % 15) * MINUTE
  }

  lemma QuarterOfAnHour(now: Instant, hour: int, minute: int, quarter: int, window: int)
    requires hour == now / HOUR && minute == now % HOUR / MINUTE && quarter == minute / 15 && window == 4 * hour + quarter
    ensures now - now % HOUR + (minute - minute % 15) * MINUTE == window * RATE_LIMIT_WINDOW
    ensures window * RATE_LIMIT_WINDOW <= now < (window + 1) * RATE_LIMIT_WINDOW
  {
  }

  /** Windows tile time: each instant lies in its own, a whole number of quarters of an hour from the epoch. */
  lemma WindowContains(now: Instant)
    ensures FixedWindowStart(now) <= now < FixedWindowStart(now) + RATE_LIMIT_WINDOW
    ensures FixedWindowStart(now) == now / RATE_LIMIT_WINDOW * RATE_LIMIT_WINDOW
  {
    var hour, minute := now / HOUR, now % HOUR / MINUTE;
    var window := 4 * hour + minute / 15;
    QuarterOfAnHour(now, hour, minute, minute / 15, window);
    WindowNumber(now, window);
  }

  lemma WindowNumber(now: Instant, window: int)
    requires window * RATE_LIMIT_WINDOW <= now < (window + 1) * RATE_LIMIT_WINDOW
    ensures now / RATE_LIMIT_WINDOW == window
  {
  }

  datatype Slot = Slot(key: Key, windowStartedAt: Instant)

  datatype Bucket = Bucket(count: nat, expiresAt: Instant)

  type Buckets = map<Slot, Bucket>

  datatype Reservation = Reservation(key: Key, windowStartedAt: Instant, expiresAt: Instant, limit: nat)

  function MakeReservation(key: Key, now: Instant, limit: nat): Reservation {
    var start := FixedWindowStart(now);
    Reservation(key, start, start + RATE_LIMIT_RETENTION, limit)
  }

  predicate Allows(b: Buckets, r: Reservation) {
    var slot := Slot(r.key, r.windowStartedAt);
    slot in b ==> b[slot].count < r.limit
  }

  /** Insert with a count of one, or add one while the count is below the limit. */
  function Reserve(b: Buckets, r: Reservation): Buckets {
    var slot := Slot(r.key, r.windowStartedAt);
    if slot !in b then b[slot := Bucket(1, r.expiresAt)]
    else if b[slot].count < r.limit then b[slot := b[slot].(count := b[slot].count + 1)]
    else b
  }

  predicate Stale(b: Buckets, slot: Slot, now: Instant)
    requires slot in b
  {
    b[slot].expiresAt <= now || slot.windowStartedAt <= now - RATE_LIMIT_RETENTION
  }

  /** Remove stale buckets from a batch of rows. */
  function CleanUp(b: Buckets, batch: set<Slot>, now: Instant): Buckets {
    b - set slot | slot in batch && slot in b && Stale(b, slot, now)
  }

  class RateLimiter {
    var buckets: Buckets

    constructor ()
      ensures buckets == map[]
    {
      buckets := map[];
    }

    method ReserveSlot(r: Reservation) returns (allowed: bool)
      modifies this
      ensures buckets == Reserve(old(buckets), r) && allowed == Allows(old(buckets), r)
    {
      var slot := Slot(r.key, r.windowStartedAt);
      if slot !in buckets {
        buckets := buckets[slot := Bucket(1, r.expiresAt)];
        return true;
      }
      allowed := buckets[slot].count < r.limit;
      if allowed {
        buckets := buckets[slot := buckets[slot].(count := buckets[slot].count + 1)];
      }
    }

    /** Stale rows of the batch go; rows locked elsewhere are simply not in it. */
    method DeleteBuckets(batch: set<Slot>, now: Instant) returns (deleted: nat)
      modifies this
      ensures buckets == CleanUp(old(buckets), batch, now)
      ensures deleted == |old(buckets).Keys - buckets.Keys|
    {
      var gone := set slot | slot in batch && slot in buckets && Stale(buckets, slot, now);
      assert buckets.Keys - (buckets - gone).Keys == gone;
      buckets := buckets - gone;
      deleted := |gone|;
    }
  }

  // --- runs: reservations and cleanups under a clock that does not go back ---

  datatype Event = Request(key: Key, now: Instant, limit: nat) | Cleanup(batch: set<Slot>, now: Instant)

  datatype Run = Start | Then(earlier: Run, event: Event)

  function BucketsAfter(r: Run): Buckets {
    if r.Start? then map[]
    else
      match r.event
      case Request(key, now, limit) => Reserve(BucketsAfter(r.earlier), MakeReservation(key, now, limit))
      case Cleanup(batch, now) => CleanUp(BucketsAfter(r.earlier), batch, now)
  }

  predicate InOrder(r: Run) {
    r.Then? ==> InOrder(r.earlier) && (r.earlier.Then? ==> r.earlier.event.now <= r.event.now)
  }

  predicate WasAllowed(r: Run)
    requires r.Then?
  {
    r.event.Request? && Allows(BucketsAfter(r.earlier), MakeReservation(r.event.key, r.event.now, r.event.limit))
  }

  /** Every request for this key carries this limit. */
  predicate Limited(r: Run, key: Key, limit: nat) {
    r.Then? ==> Limited(r.earlier, key, limit) && (r.event.Request? && r.event.key == key ==> r.event.limit == limit)
  }

  /** How many reservations of a key succeeded in the window that starts at `start`. */
  function AllowedInWindow(r: Run, key: Key, start: Instant): nat {
    if r.Start? then 0
    else AllowedInWindow(r.earlier, key, start)
         + if r.event.Request? && r.event.key == key && FixedWindowStart(r.event.now) == start && WasAllowed(r) then 1 else 0
  }

  /** How many succeeded from `a` up to, not including, `b`. */
  function AllowedBetween(r: Run, key: Key, a: Instant, b: Instant): nat {
    if r.Start? then 0
    else AllowedBetween(r.earlier, key, a, b)
         + if r.event.Request? && r.event.key == key && a <= r.event.now < b && WasAllowed(r) then 1 else 0
  }

  function Most(limit: nat): nat {
    if limit == 0 then 1 else limit
  }

  /** A bucket counts its window's successes; a window without one has had none, or is past for good. */
  ghost predicate Counts(r: Run, key: Key, limit: nat, start: Instant) {
    var slot, b := Slot(key, start), BucketsAfter(r);
    && AllowedInWindow(r, key, start) <= Most(limit)
    && (slot in b ==> b[slot].count == AllowedInWindow(r, key, start) && b[slot].expiresAt == start + RATE_LIMIT_RETENTION)
    && (slot !in b ==> AllowedInWindow(r, key, start) == 0 || (r.Then? && start + RATE_LIMIT_RETENTION <= r.event.now))
  }

  lemma {:induction false} AlwaysCounts(r: Run, key: Key, limit: nat, start: Instant)
    requires InOrder(r) && Limited(r, key, limit)
    ensures Counts(r, key, limit, start)
  {
    if r.Then? {
      AlwaysCounts(r.earlier, key, limit, start);
      WindowContains(r.event.now);
    }
  }

  /** At most `limit` reservations of a key succeed in any window, cleanups or not; a limit of zero still lets one through. */
  lemma AtMostTheLimit(r: Run, key: Key, limit: nat, start: Instant)
    requires InOrder(r) && Limited(r, key, limit)
    ensures AllowedInWindow(r, key, start) <= Most(limit)
  {
    AlwaysCounts(r, key, limit, start);
  }

  /** The first reservation of a window always succeeds, whatever its limit, so with a limit of zero exactly one does. */
  lemma LimitZeroLetsOneThrough(key: Key, now: Instant)
    ensures var once := Then(Start, Request(key, now, 0)); var twice := Then(once, Request(key, now, 0));
            AllowedInWindow(once, key, FixedWindowStart(now)) == 1 == AllowedInWindow(twice, key, FixedWindowStart(now))
  {
    var once := Then(Start, Request(key, now, 0));
    var twice := Then(once, Request(key, now, 0));
    assert WasAllowed(once) && !WasAllowed(twice);
    assert AllowedInWindow(once, key, FixedWindowStart(now)) == AllowedInWindow(Start, key, FixedWindowStart(now)) + 1;
  }

  /** Successes in windows number `m` up to, not including, `n`. */
  function WindowsSum(r: Run, key: Key, m: int, n: int): nat
    decreases n - m
  {
    if n <= m then 0 else WindowsSum(r, key, m, n - 1) + AllowedInWindow(r, key, (n - 1) * RATE_LIMIT_WINDOW)
  }

  lemma {:induction false} OneMore(r: Run, key: Key, m: int, n: int)
    requires r.Then?
    ensures WindowsSum(r, key, m, n) >= WindowsSum(r.earlier, key, m, n)
    ensures r.event.Request? && r.event.key == key && WasAllowed(r) && m <= r.event.now / RATE_LIMIT_WINDOW < n ==>
              WindowsSum(r, key, m, n) >= WindowsSum(r.earlier, key, m, n) + 1
    decreases n - m
  {
    if m < n {
      OneMore(r, key, m, n - 1);
      WindowContains(r.event.now);
    }
  }

  lemma {:induction false} SpanWithinWindows(r: Run, key: Key, a: Instant, b: Instant, m: int, n: int)
    requires m == a / RATE_LIMIT_WINDOW && n == (b - 1) / RATE_LIMIT_WINDOW + 1
    ensures AllowedBetween(r, key, a, b) <= WindowsSum(r, key, m, n)
  {
    if r.Then? {
      SpanWithinWindows(r.earlier, key, a, b, m, n);
      OneMore(r, key, m, n);
      if a <= r.event.now < b {
        DivideInOrder(a, r.event.now);
        DivideInOrder(r.event.now, b - 1);
      }
    }
  }

  lemma DivideInOrder(x: int, y: int)
    requires x <= y
    ensures x / RATE_LIMIT_WINDOW <= y / RATE_LIMIT_WINDOW
  {
  }

  lemma {:induction false} WindowsBounded(r: Run, key: Key, limit: nat, m: int, n: int)
    requires InOrder(r) && Limited(r, key, limit) && m <= n
    ensures WindowsSum(r, key, m, n) <= (n - m) * Most(limit)
    decreases n - m
  {
    if m < n {
      WindowsBounded(r, key, limit, m, n - 1);
      AtMostTheLimit(r, key, limit, (n - 1) * RATE_LIMIT_WINDOW);
      assert (n - m) * Most(limit) == (n - 1 - m) * Most(limit) + Most(limit);
    }
  }

  /** Any span of time admits at most the limit for each window it meets. */
  lemma SpanIsBounded(r: Run, key: Key, limit: nat, a: Instant, b: Instant)
    requires InOrder(r) && Limited(r, key, limit) && a < b
    ensures AllowedBetween(r, key, a, b) <= ((b - 1) / RATE_LIMIT_WINDOW - a / RATE_LIMIT_WINDOW + 1) * Most(limit)
  {
    var m, n := a / RATE_LIMIT_WINDOW, (b - 1) / RATE_LIMIT_WINDOW + 1;
    DivideInOrder(a, b - 1);
    SpanWithinWindows(r, key, a, b, m, n);
    WindowsBounded(r, key, limit, m, n);
  }

  /** So any fifteen minutes admit at most twice the limit. */
  lemma FifteenMinutesAdmitTwiceTheLimit(r: Run, key: Key, a: Instant)
    requires InOrder(r) && Limited(r, key, LimitOf(key.dimension))
    ensures AllowedBetween(r, key, a, a + RATE_LIMIT_WINDOW) <= 2 * LimitOf(key.dimension)
  {
    var limit := LimitOf(key.dimension);
    var b := a + RATE_LIMIT_WINDOW;
    SpanIsBounded(r, key, limit, a, b);
    assert (b - 1) / RATE_LIMIT_WINDOW <= a / RATE_LIMIT_WINDOW + 1;
    DivideInOrder(a, b - 1);
    AtMostTwo((b - 1) / RATE_LIMIT_WINDOW - a / RATE_LIMIT_WINDOW + 1, Most(limit));
  }

  lemma AtMostTwo(windows: int, most: nat)
    requires windows <= 2
    ensures windows * most <= 2 * most
  {
  }
}
