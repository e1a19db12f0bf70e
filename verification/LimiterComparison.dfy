/** The limiter under more load, and against an exact bucket that keeps fractions. */
module LimiterComparison {
  import opened RateLimiter
  import opened LimiterRuns

  // ---------------------------------------------------------------- more load

  /** One arrival in two runs at once: the loaded run makes the call with `loaded` permits;
      the base run makes it with at most as many, or does not make it. */
  datatype Base = Absent | Present(permits: nat)
  datatype Arrival_Raw = Arrival(now: int, base: Base, loaded: nat)
  type Arrival = a: Arrival_Raw | a.base.Present? ==> a.base.permits <= a.loaded
    witness Arrival(0, Absent, 0)

  predicate Ordered(arrivals: seq<Arrival>) {
    forall i, j :: 0 <= i <= j < |arrivals| ==> arrivals[i].now <= arrivals[j].now
  }

  function BaseCalls(arrivals: seq<Arrival>): seq<Call> {
    if arrivals == [] then []
    else
      var k := |arrivals| - 1;
      BaseCalls(arrivals[..k])
      + match arrivals[k].base case Absent => [] case Present(p) => [Call(arrivals[k].now, p)]
  }

  function LoadedCalls(arrivals: seq<Arrival>): (calls: seq<Call>)
    ensures |calls| == |arrivals|
  {
    if arrivals == [] then []
    else
      var k := |arrivals| - 1;
      LoadedCalls(arrivals[..k]) + [Call(arrivals[k].now, arrivals[k].loaded)]
  }

  /** t has been asked for more than s: it is free later, and worth less overall. */
  predicate Heavier(c: Config, s: Bucket, t: Bucket) {
    Bounded(c, s) && Bounded(c, t) && s.nextFree <= t.nextFree && Potential(c, t) <= Potential(c, s)
  }

  lemma EarnsAtLeast(c: Config, s: Bucket, t: Bucket, now: int)
    requires c.Valid() && Heavier(c, s, t) && t.nextFree <= now
    ensures t.stored + (now - t.nextFree) / c.interval <= s.stored + (now - s.nextFree) / c.interval
  {
    var q := (now - t.nextFree) / c.interval;
    QuotientBounds(now - t.nextFree, c.interval);
    Distribute(t.stored - s.stored, q, c.interval);
    assert (t.stored - s.stored) * c.interval == t.stored * c.interval - s.stored * c.interval;
    QuotientIsLargest(t.stored - s.stored + q, now - s.nextFree, c.interval);
  }

  /** Truncating the credit of both runs does not reorder them. */
  lemma RefillKeepsHeavier(c: Config, s: Bucket, t: Bucket, now: int)
    requires c.Valid() && Heavier(c, s, t) && Sound(c, t, now)
    ensures Heavier(c, Refill(c, s, now), Refill(c, t, now))
  {
    RefillBounded(c, s, now);
    RefillBounded(c, t, now);
    var s', t' := Refill(c, s, now), Refill(c, t, now);
    if s.nextFree < now {
      if t.nextFree <= now {
        EarnsAtLeast(c, s, t, now);
        assert t.nextFree == now ==> (now - t.nextFree) / c.interval == 0;
        Monotone(t'.stored, s'.stored, c.interval);
      } else {
        Monotone(0, s'.stored, c.interval);
      }
    }
  }

  /** An extra call of the loaded run alone. */
  lemma ExtraRefillKeepsHeavier(c: Config, s: Bucket, t: Bucket, now: int)
    requires c.Valid() && Heavier(c, s, t)
    ensures Heavier(c, s, Refill(c, t, now))
  {
    RefillBounded(c, t, now);
    RefillNeverRaises(c, t, now);
  }

  lemma ConsumeKeepsHeavier(c: Config, s: Bucket, t: Bucket, p: nat, q: nat)
    requires c.Valid() && Heavier(c, s, t) && p <= q
    ensures Heavier(c, Consume(c, s, p), Consume(c, t, q))
  {
    ConsumeLowersExactly(c, s, p);
    ConsumeLowersExactly(c, t, q);
    Monotone(p, q, c.interval);
    var s', t' := Consume(c, s, p), Consume(c, t, q);
    Monotone(0, q - Min(q, t.stored), c.interval);
    Monotone(0, t'.stored, c.interval);
    if p > s.stored {
      assert s'.stored == 0;
    } else {
      assert s'.nextFree == s.nextFree;
    }
  }

  lemma ExtraConsumeKeepsHeavier(c: Config, s: Bucket, t: Bucket, q: nat)
    requires c.Valid() && Heavier(c, s, t)
    ensures Heavier(c, s, Consume(c, t, q))
  {
    ConsumeKeepsHeavier(c, s, t, 0, q);
    assert Consume(c, s, 0) == s;
  }

  lemma {:induction false} LoadedStaysHeavier(c: Config, arrivals: seq<Arrival>)
    requires c.Valid() && Ordered(arrivals)
    ensures Heavier(c, After(c, FRESH, BaseCalls(arrivals)), After(c, FRESH, LoadedCalls(arrivals)))
    ensures arrivals != [] ==>
      Settled(c, After(c, FRESH, LoadedCalls(arrivals)), arrivals[|arrivals| - 1].now)
  {
    if arrivals != [] {
      hide Consume, Refill, Potential;
      var k := |arrivals| - 1;
      var init, a := arrivals[..k], arrivals[k];
      LoadedStaysHeavier(c, init);
      var s, t := After(c, FRESH, BaseCalls(init)), After(c, FRESH, LoadedCalls(init));
      assert Sound(c, t, a.now);
      assert LoadedCalls(arrivals)[..k] == LoadedCalls(init);
      CallSettles(c, t, a.now, a.loaded);
      match a.base
      case Absent =>
        ExtraRefillKeepsHeavier(c, s, t, a.now);
        ExtraConsumeKeepsHeavier(c, s, Refill(c, t, a.now), a.loaded);
        assert BaseCalls(arrivals) == BaseCalls(init);
      case Present(p) =>
        RefillKeepsHeavier(c, s, t, a.now);
        ConsumeKeepsHeavier(c, Refill(c, s, a.now), Refill(c, t, a.now), p, a.loaded);
        assert BaseCalls(arrivals)[..|BaseCalls(init)|] == BaseCalls(init);
    }
  }

  /** For fixed arrival times, asking for more in any call, or inserting calls anywhere, never
      makes a call common to both runs earlier. */
  lemma MoreLoadIsNeverEarlier(c: Config, arrivals: seq<Arrival>, k: nat)
    requires c.Valid() && Ordered(arrivals) && k < |arrivals| && arrivals[k].base.Present?
    ensures Grant(c, After(c, FRESH, BaseCalls(arrivals[..k])), arrivals[k].now)
         <= Grant(c, After(c, FRESH, LoadedCalls(arrivals[..k])), arrivals[k].now)
  {
    LoadedStaysHeavier(c, arrivals[..k]);
    var s, t := After(c, FRESH, BaseCalls(arrivals[..k])), After(c, FRESH, LoadedCalls(arrivals[..k]));
    RefillKeepsHeavier(c, s, t, arrivals[k].now);
  }

  // ---------------------------------------------------------------- truncation

  /** A bucket that keeps its credit in ticks, so no fraction of a permit is lost. */
  datatype Exact = Exact(credit: int, at: int)

  function ExactRefill(c: Config, e: Exact, now: int): Exact {
    Exact(Min(c.burst * c.interval, e.credit + (now - e.at)), now)
  }

  function ExactAfter(c: Config, calls: seq<Call>): Exact {
    if calls == [] then Exact(0, 0)
    else
      var k := |calls| - 1;
      var e := ExactRefill(c, ExactAfter(c, calls[..k]), calls[k].now);
      Exact(e.credit - calls[k].permits * c.interval, e.at)
  }

  function ExactGrant(c: Config, e: Exact, now: int): int {
    now + Max(0, -ExactRefill(c, e, now).credit)
  }

  /** Calls that found the bucket idle, each of which truncates once. */
  function IdleRefills(c: Config, calls: seq<Call>): nat
    requires c.Valid()
  {
    if calls == [] then 0
    else
      var k := |calls| - 1;
      IdleRefills(c, calls[..k]) + if calls[k].now > After(c, FRESH, calls[..k]).nextFree then 1 else 0
  }

  predicate InOrder(calls: seq<Call>) {
    (forall i :: 0 <= i < |calls| ==> calls[i].now >= 0)
    && forall i, j :: 0 <= i <= j < |calls| ==> calls[i].now <= calls[j].now
  }

  /** The exact bucket holds at least as much, and at most `loss` ticks more. */
  predicate Trails(c: Config, s: Bucket, e: Exact, loss: int) {
    0 <= e.credit - Balance(c, s, e.at) <= loss
  }

  /** Each refill loses less than one interval, none if the call finds no idle time; at the
      cap the two buckets agree again. */
  lemma RefillTrails(c: Config, s: Bucket, e: Exact, loss: nat, now: int)
    requires c.Valid() && Sound(c, s, now) && Trails(c, s, e, loss) && e.at <= now
    ensures var loss' := if now > s.nextFree then loss + c.interval - 1 else loss;
      Trails(c, Refill(c, s, now), ExactRefill(c, e, now), loss')
  {
    var r := Refill(c, s, now);
    Monotone(0, c.burst, c.interval);
    Monotone(s.stored, c.burst, c.interval);
    if now > s.nextFree {
      var q := (now - s.nextFree) / c.interval;
      QuotientBounds(now - s.nextFree, c.interval);
      Distribute(s.stored, q, c.interval);
      if s.stored + q <= c.burst {
        Monotone(s.stored + q, c.burst, c.interval);
      } else {
        Monotone(c.burst, s.stored + q, c.interval);
      }
    }
  }

  lemma {:induction false} RunTrails(c: Config, calls: seq<Call>)
    requires c.Valid() && InOrder(calls)
    ensures Trails(c, After(c, FRESH, calls), ExactAfter(c, calls), IdleRefills(c, calls) * (c.interval - 1))
    ensures ExactAfter(c, calls).at == if calls == [] then 0 else calls[|calls| - 1].now
    ensures calls != [] ==> Settled(c, After(c, FRESH, calls), calls[|calls| - 1].now)
  {
    if calls != [] {
      var k := |calls| - 1;
      var s, e := After(c, FRESH, calls[..k]), ExactAfter(c, calls[..k]);
      RunTrails(c, calls[..k]);
      Monotone(0, IdleRefills(c, calls[..k]), c.interval - 1);
      RefillTrails(c, s, e, IdleRefills(c, calls[..k]) * (c.interval - 1), calls[k].now);
      CallSettles(c, s, calls[k].now, calls[k].permits);
      ConsumeLowersExactly(c, Refill(c, s, calls[k].now), calls[k].permits);
      Distribute(IdleRefills(c, calls[..k]), 1, c.interval - 1);
    }
  }

  lemma GrantFromBalance(c: Config, s: Bucket, now: int)
    requires c.Valid() && Sound(c, s, now)
    ensures Grant(c, s, now) == now + Max(0, -Balance(c, Refill(c, s, now), now))
  {
    RefillBounded(c, s, now);
    Monotone(0, Refill(c, s, now).stored, c.interval);
  }

  /** In every run, capped or not, the limiter grants no call before the exact bucket would,
      and no later than one tick less than an interval for each time it was found idle. */
  lemma TruncationLossIsBounded(c: Config, calls: seq<Call>, i: nat)
    requires c.Valid() && InOrder(calls) && i < |calls|
    ensures var exact := ExactGrant(c, ExactAfter(c, calls[..i]), calls[i].now);
      exact <= GrantOf(c, FRESH, calls, i) <= exact + IdleRefills(c, calls[..i + 1]) * (c.interval - 1)
  {
    var s, e, now := After(c, FRESH, calls[..i]), ExactAfter(c, calls[..i]), calls[i].now;
    var loss := IdleRefills(c, calls[..i]) * (c.interval - 1);
    RunTrails(c, calls[..i]);
    Monotone(0, IdleRefills(c, calls[..i]), c.interval - 1);
    RefillTrails(c, s, e, loss, now);
    assert calls[..i + 1][..i] == calls[..i];
    Distribute(IdleRefills(c, calls[..i]), 1, c.interval - 1);
    GrantFromBalance(c, s, now);
  }

  /** Every call after the first finds the bucket in debt. */
  predicate Backlogged(c: Config, s: Bucket, calls: seq<Call>, i: nat, j: nat)
    requires c.Valid() && i <= j < |calls|
  {
    forall k :: i < k <= j ==> calls[k].now <= After(c, s, calls[..k]).nextFree
  }

  lemma {:induction false} BacklogKeepsPotential(c: Config, s: Bucket, calls: seq<Call>, i: nat, j: nat)
    requires c.Valid() && i <= j < |calls| && Backlogged(c, s, calls, i, j)
    ensures Potential(c, Refilled(c, s, calls, j))
      == Potential(c, Refilled(c, s, calls, i)) - Permits(calls, i, j) * c.interval
  {
    if i < j {
      BacklogKeepsPotential(c, s, calls, i, j - 1);
      AfterNext(c, s, calls, j - 1);
      assert calls[j].now <= After(c, s, calls[..j]).nextFree;
      assert Refilled(c, s, calls, j) == After(c, s, calls[..j]);
      hide Consume, Refill, Potential, Refilled;
      ConsumeLowersExactly(c, Refilled(c, s, calls, j - 1), calls[j - 1].permits);
      Distribute(Permits(calls, i, j - 1), calls[j - 1].permits, c.interval);
    }
  }

  /** Under a backlog nothing is truncated: the time between two grants is exactly what the
      permits asked for in between are worth, less those taken from the store. */
  lemma BackloggedRunIsPacedExactly(c: Config, s: Bucket, calls: seq<Call>, i: nat, j: nat)
    requires c.Valid() && i <= j < |calls| && Backlogged(c, s, calls, i, j)
    ensures var fromStore := Refilled(c, s, calls, i).stored - Refilled(c, s, calls, j).stored;
      GrantOf(c, s, calls, j) - GrantOf(c, s, calls, i) == (Permits(calls, i, j) - fromStore) * c.interval
  {
    BacklogKeepsPotential(c, s, calls, i, j);
    hide Permits;
    var a, b := Refilled(c, s, calls, i).stored, Refilled(c, s, calls, j).stored;
    Settle(a, b, Permits(calls, i, j), GrantOf(c, s, calls, i), GrantOf(c, s, calls, j), c.interval);
  }

  lemma Settle(a: int, b: int, permits: int, g: int, h: int, d: int)
    requires b * d - h == a * d - g - permits * d
    ensures h - g == (permits - (a - b)) * d
  {
  }
}
