/** The lazy token bucket. Instants and durations are integers in clock ticks (nanoseconds);
    the rate is a real number of permits per second. */
module RateLimiter {

  const TICKS_PER_MICROSECOND := 1000
  const TICKS_PER_SECOND := 1_000_000_000

  /** 1e6, the numerator of the interval and the bound the source asserts on the rate. */
  function MicrosPerSecond(): real { 1_000_000.0 }

  function Min(a: int, b: int): int { if a < b then a else b }
  function Max(a: int, b: int): int { if a < b then b else a }

  /** interval: ticks per permit; burst: the cap, maxPermits truncated to a long. */
  datatype Config = Config(interval: int, burst: int) {
    predicate Valid() { interval >= 1 && burst >= 0 }
  }

  /** The cast from double to long, towards zero. */
  function Trunc(x: real): int { if x >= 0.0 then x.Floor else -(-x).Floor }

  datatype Bucket = Bucket(stored: int, nextFree: int)

  /** Both fields start at zero; the clock's epoch is tick 0. */
  const FRESH := Bucket(0, 0)

  function ConfigOf(rate: real): Config
    requires 0.0 < rate < MicrosPerSecond()
  {
    Config((MicrosPerSecond() / rate).Floor * TICKS_PER_MICROSECOND, rate.Floor)
  }

  /** Credit earned while idle, truncated to whole permits and capped. */
  function Refill(c: Config, s: Bucket, now: int): Bucket
    requires c.Valid()
  {
    if now > s.nextFree then Bucket(Min(c.burst, s.stored + (now - s.nextFree) / c.interval), now) else s
  }

  /** Stored permits are free; beyond ones push nextFree into the future. */
  function Consume(c: Config, s: Bucket, permits: int): Bucket {
    var fromStore := Min(permits, s.stored);
    Bucket(s.stored - fromStore, s.nextFree + (permits - fromStore) * c.interval)
  }

  function AfterCall(c: Config, s: Bucket, now: int, permits: int): Bucket
    requires c.Valid()
  {
    Consume(c, Refill(c, s, now), permits)
  }

  /** The instant at which a call made now returns, having slept nextFree - now. */
  function Grant(c: Config, s: Bucket, now: int): int
    requires c.Valid()
  {
    Refill(c, s, now).nextFree
  }

  // ---------------------------------------------------------------- one call

  lemma QuotientBounds(x: int, d: int)
    requires d >= 1
    ensures x / d * d <= x < x / d * d + d
  {
  }

  lemma QuotientIsLargest(q: int, x: int, d: int)
    requires d >= 1 && q * d <= x
    ensures q <= x / d
  {
    BelowMultiple(q, x / d, d);
  }

  lemma BelowMultiple(q: int, p: int, d: int)
    requires d >= 1 && q * d < (p + 1) * d
    ensures q <= p
  {
  }

  lemma IntervalIs(rate: real)
    requires 0.0 < rate < MicrosPerSecond()
    ensures ConfigOf(rate).Valid()
    ensures var us := ConfigOf(rate).interval / 1000;
      && us >= 1 && ConfigOf(rate).interval == us * 1000
      && us as real * rate <= MicrosPerSecond() < (us + 1) as real * rate
    ensures ConfigOf(rate).burst as real <= rate < (ConfigOf(rate).burst + 1) as real
  {
    hide MicrosPerSecond;
    var p := MicrosPerSecond();
    var x := p / rate;
    assert x * rate == p;
    AboveOne(x, rate, p);
    var us := x.Floor;
    Brackets(rate, x, us as real, (us + 1) as real, p);
    assert ConfigOf(rate).interval / TICKS_PER_MICROSECOND == us;
  }

  /** The configured interval is the whole number of microseconds just below a million by the
      rate, and the burst the whole number of permits just below the rate. */
  lemma IntervalBrackets(rate: real)
    requires 0.0 < rate < 1_000_000.0
    ensures var c, us := ConfigOf(rate), ConfigOf(rate).interval / 1000;
      && us >= 1 && c.interval == us * 1000
      && us as real * rate <= 1_000_000.0 < (us + 1) as real * rate
      && c.burst as real <= rate < (c.burst + 1) as real
  {
    IntervalIs(rate);
  }

  lemma AboveOne(x: real, rate: real, p: real)
    requires 0.0 < rate < p && x * rate == p
    ensures x > 1.0
  {
    if x <= 1.0 {
      AtMostOne(x, rate);
    }
  }

  lemma AtMostOne(x: real, m: real)
    requires m > 0.0 && x <= 1.0
    ensures x * m <= m
  {
  }

  lemma Brackets(m: real, x: real, a: real, b: real, p: real)
    requires m > 0.0 && a <= x < b && x * m == p
    ensures a * m <= p < b * m
  {
    Times(m, a, x);
    Times(m, x, b);
  }

  lemma Times(m: real, a: real, b: real)
    requires m > 0.0
    ensures a < b ==> a * m < b * m
    ensures a == b ==> a * m == b * m
  {
  }

  /** Between calls: the store is within its cap, and there is no credit while in debt.
      `last` is the instant of the latest call. */
  predicate Settled(c: Config, s: Bucket, last: int) {
    0 <= s.stored <= c.burst && s.nextFree >= last && (s.nextFree > last ==> s.stored == 0)
  }

  predicate Sound(c: Config, s: Bucket, now: int) {
    0 <= s.stored <= c.burst && (s.stored > 0 ==> s.nextFree <= now)
  }

  /** Every call leaves the bucket settled; nextFree never decreases. */
  lemma CallSettles(c: Config, s: Bucket, now: int, permits: int)
    requires c.Valid() && Sound(c, s, now) && permits >= 0
    ensures Settled(c, AfterCall(c, s, now, permits), now)
    ensures s.nextFree <= Grant(c, s, now) <= AfterCall(c, s, now, permits).nextFree
    ensures now <= Grant(c, s, now)
  {
    var r := Refill(c, s, now);
    var beyond := permits - Min(permits, r.stored);
    assert now > s.nextFree ==> (now - s.nextFree) / c.interval >= 0;
    assert beyond * c.interval >= 0;
  }

  /** Credit minus debt, in ticks, as seen at instant `at`. */
  function Balance(c: Config, s: Bucket, at: int): int {
    s.stored * c.interval - (s.nextFree - at)
  }

  /** The bucket a signed balance stands for. */
  function FromBalance(c: Config, balance: int, at: int): Bucket
    requires c.Valid()
  {
    if balance >= 0 then Bucket(balance / c.interval, at) else Bucket(0, at - balance)
  }

  /** Credit and debt never coexist, so right after a call the two fields are one signed
      balance: nothing is lost by keeping only that. */
  lemma OneSignedBalance(c: Config, s: Bucket, last: int)
    requires c.Valid() && Settled(c, s, last)
    ensures FromBalance(c, Balance(c, s, last), last) == s
  {
    if s.nextFree == last {
      ProductQuotient(s.stored, c.interval);
      assert s.stored * c.interval >= 0;
    }
  }

  lemma ProductQuotient(q: int, d: int)
    requires d >= 1
    ensures q * d / d == q
  {
    QuotientBounds(q * d, d);
    QuotientIsLargest(q, q * d, d);
    var p := q * d / d;
    assert p >= q + 1 ==> p * d >= (q + 1) * d;
  }

  /** The potential of the window argument: refilling never raises it, consuming lowers it by
      exactly the time the permits are worth. */
  function Potential(c: Config, s: Bucket): int { s.stored * c.interval - s.nextFree }

  lemma RefillNeverRaises(c: Config, s: Bucket, now: int)
    requires c.Valid()
    ensures Potential(c, Refill(c, s, now)) <= Potential(c, s)
  {
    if now > s.nextFree {
      var q := (now - s.nextFree) / c.interval;
      QuotientBounds(now - s.nextFree, c.interval);
      assert Min(c.burst, s.stored + q) * c.interval <= (s.stored + q) * c.interval;
      assert (s.stored + q) * c.interval == s.stored * c.interval + q * c.interval;
    }
  }

  lemma ConsumeLowersExactly(c: Config, s: Bucket, permits: int)
    ensures Potential(c, Consume(c, s, permits)) == Potential(c, s) - permits * c.interval
  {
    var f := Min(permits, s.stored);
    assert (s.stored - f) * c.interval == s.stored * c.interval - f * c.interval;
    assert (permits - f) * c.interval == permits * c.interval - f * c.interval;
  }

  lemma NegativeQuotient(p: real, rate: real)
    requires p > 0.0 && rate < 0.0
    ensures p / rate < 0.0
  {
    var q := p / rate;
    assert q * rate == p;
    assert q >= 0.0 ==> q * rate <= 0.0;
  }

  // ---------------------------------------------------------------- the object

  class Limiter {
    const interval: int
    const maxPermits: real
    var storedPermits: int
    var nextFree: int

    function Setup(): Config { Config(interval, Trunc(maxPermits)) }

    function State(): Bucket
      reads this
    {
      Bucket(storedPermits, nextFree)
    }

    /** The source asserts rate < 1e6 and nothing else. A negative rate gives a negative interval;
        for a rate of zero the quotient is infinite, and `cast` is what its conversion to an
        integer happens to give. */
    constructor (rate: real, cast: int)
      requires rate < MicrosPerSecond()
      ensures rate > 0.0 ==> Setup() == ConfigOf(rate) && Setup().Valid()
      ensures rate < 0.0 ==> !Setup().Valid()
      ensures rate != 0.0 ==> interval == Trunc(MicrosPerSecond() / rate) * TICKS_PER_MICROSECOND
      ensures rate == 0.0 ==> interval == cast * TICKS_PER_MICROSECOND
      ensures maxPermits == rate && State() == FRESH && storedPermits == 0 && nextFree == 0
    {
      interval := (if rate == 0.0 then cast else Trunc(MicrosPerSecond() / rate)) * TICKS_PER_MICROSECOND;
      maxPermits := rate;
      storedPermits, nextFree := 0, 0;
      new;
      if rate > 0.0 {
        IntervalIs(rate);
        assert MicrosPerSecond() / rate > 0.0;
      } else if rate < 0.0 {
        NegativeQuotient(MicrosPerSecond(), rate);
      }
    }

    /** `now` is the clock reading on entry; `wait` is how long the caller is put to sleep. */
    method Acquire(now: int, permits: int) returns (wait: int)
      requires Setup().Valid()
      modifies this
      ensures State() == AfterCall(Setup(), old(State()), now, permits)
      ensures now + wait == Grant(Setup(), old(State()), now)
    {
      if now > nextFree {
        storedPermits := Min(Trunc(maxPermits), storedPermits + (now - nextFree) / interval);
        nextFree := now;
      }
      wait := nextFree - now;
      var stored := Min(permits, storedPermits);
      var beyond := permits - stored;
      var next := beyond * interval;
      nextFree := nextFree + next;
      storedPermits := storedPermits - stored;
    }
  }
}
