/** The token-bucket arithmetic of internal/domain/ratelimit.go.

    Credits are reals. Instants and durations are integer nanoseconds, and the
    instant 0 is Go's zero time. */
module RateWindow {

  const SECOND: int := 1_000_000_000

  function Seconds(d: int): real {
    d as real / 1000000000.0
  }

  function Min(a: real, b: real): real {
    if a <= b then a else b
  }

  function Max(a: real, b: real): real {
    if a >= b then a else b
  }

  /** The least integer at or above x. */
  function Ceil(x: real): (r: int)
    ensures (r - 1) as real < x <= r as real
  {
    if x.Floor as real == x then x.Floor else x.Floor + 1
  }

  function CeilSeconds(d: int): int {
    Ceil(Seconds(d))
  }

  datatype Bucket = Bucket(level: real, at: int)

  const NEW_BUCKET := Bucket(0.0, 0)

  datatype Window = Window(capacity: real, period: int) {

    predicate Limited() {
      capacity > 0.0 && period > 0
    }

    /** The refill in credits per second. */
    function Rate(): real
      requires Limited()
    {
      capacity / Seconds(period)
    }

    /** What refills in dt nanoseconds, before the clamp to the capacity. */
    function Accrued(dt: int): real
      requires Limited()
    {
      Seconds(dt) * Rate()
    }

    function Refill(b: Bucket, now: int): Bucket {
      if !Limited() then Bucket(0.0, now)
      else if b.at == 0 then Bucket(capacity, now)
      else if now > b.at then Bucket(Min(b.level + Accrued(now - b.at), capacity), now)
      else Bucket(Min(b.level, capacity), b.at)
    }

    function Wait(level: real, cost: real): int {
      if !Limited() || level >= cost then 0
      else Ceil((cost - level) / Rate() * 1000000000.0)
    }

    function UntilFull(level: real): int {
      Wait(level, capacity)
    }

    predicate Full(b: Bucket) {
      !Limited() || b.level >= capacity
    }

    /** Takes c credits out of a bucket, when the window limits anything. */
    function Take(b: Bucket, c: real): Bucket {
      if Limited() then b.(level := b.level - c) else b
    }
  }

  lemma RateIsPositive(w: Window)
    requires w.Limited()
    ensures w.Rate() > 0.0
  {
    assert Seconds(w.period) > 0.0;
  }

  lemma AccruedAdds(w: Window, d1: int, d2: int)
    requires w.Limited()
    ensures w.Accrued(d1 + d2) == w.Accrued(d1) + w.Accrued(d2)
  {
    assert Seconds(d1 + d2) == Seconds(d1) + Seconds(d2);
  }

  lemma AccruedIsMonotone(w: Window, d1: int, d2: int)
    requires w.Limited() && d1 <= d2
    ensures w.Accrued(d1) <= w.Accrued(d2)
    ensures 0 <= d1 ==> 0.0 <= w.Accrued(d1)
  {
    RateIsPositive(w);
    ProductIsMonotone(Seconds(d1), Seconds(d2), w.Rate());
    if 0 <= d1 {
      ProductIsMonotone(0.0, Seconds(d1), w.Rate());
    }
  }

  lemma ProductIsMonotone(x: real, y: real, r: real)
    requires r > 0.0
    ensures x <= y <==> x * r <= y * r
  {
    if x <= y {
      assert (y - x) * r >= 0.0;
    } else {
      assert (x - y) * r > 0.0;
    }
  }

  /** Refilling twice is refilling once, clamp included: when a bucket was last
      brought up to date leaves no trace. */
  lemma RefillComposes(w: Window, b: Bucket, t1: int, t2: int)
    requires 0 < t1 <= t2 && b.at <= t1
    ensures w.Refill(w.Refill(b, t1), t2) == w.Refill(b, t2)
  {
    if w.Limited() && b.at != 0 {
      AccruedAdds(w, t1 - b.at, t2 - t1);
      AccruedIsMonotone(w, 0, t2 - t1);
      AccruedIsMonotone(w, 0, t1 - b.at);
    }
  }

  /** A bucket is refilled by its capacity once a period, in proportion, and no
      further than the capacity; a new one is full. */
  lemma RefillIsProportional(w: Window, b: Bucket, now: int)
    requires w.Limited() && 0 <= b.at <= now && 0 < now && b.level <= w.capacity
    ensures var r := w.Refill(b, now);
            && r.at == now
            && (b.at == 0 ==> r.level == w.capacity)
            && (b.at > 0 ==> var due := w.capacity * (now - b.at) as real;
                  if due >= (w.capacity - b.level) * w.period as real then r.level == w.capacity
                  else (r.level - b.level) * w.period as real == due)
  {
    if b.at > 0 {
      AccruedInPeriods(w, now - b.at);
      ProductIsMonotone(w.capacity - b.level, w.Accrued(now - b.at), w.period as real);
      AccruedIsMonotone(w, 0, now - b.at);
      AccruedIsZero(w);
    }
  }

  lemma AccruedInPeriods(w: Window, dt: int)
    requires w.Limited()
    ensures w.Accrued(dt) * w.period as real == w.capacity * dt as real
  {
    QuotientTimes(w.capacity, Seconds(w.period), w.Rate());
    ScaledProduct(Seconds(dt), w.Rate(), Seconds(w.period), w.capacity);
  }

  lemma ScaledProduct(s: real, rate: real, p: real, c: real)
    requires rate * p == c
    ensures (s * rate) * (p * 1000000000.0) == c * (s * 1000000000.0)
  {
    assert s * rate * p == s * c;
  }

  /** A full bucket and one never used are the same from here on. */
  lemma FullIsNew(w: Window, b: Bucket, now: int)
    requires 0 < now && b.at <= now
    requires w.Full(w.Refill(b, now))
    ensures w.Refill(b, now) == w.Refill(NEW_BUCKET, now)
  {
  }

  /** Wait is exact: d nanoseconds of refill make level hold cost if and only
      if d has reached Wait. A wait is asked for only when the level lacks the
      cost, and the cost is within the capacity. */
  lemma WaitIsExact(w: Window, level: real, cost: real, d: int)
    requires w.Limited() && cost <= w.capacity && 0 <= d
    ensures w.Wait(level, cost) >= 0
    ensures Min(level + w.Accrued(d), w.capacity) >= cost <==> d >= w.Wait(level, cost)
  {
    RateIsPositive(w);
    AccruedIsMonotone(w, 0, d);
    if level < cost {
      CeilOfQuotient(cost - level, w.Rate(), d);
    } else {
      assert w.Wait(level, cost) == 0;
      assert w.Accrued(d) >= 0.0;
    }
  }

  lemma CeilOfQuotient(gap: real, rate: real, d: int)
    requires rate > 0.0 && gap > 0.0
    ensures Ceil(gap / rate * 1000000000.0) >= 0
    ensures Seconds(d) * rate >= gap <==> d >= Ceil(gap / rate * 1000000000.0)
  {
    QuotientTimes(gap, rate, gap / rate);
    CeilReaches(gap, rate, gap / rate, d, Seconds(d));
  }

  lemma CeilReaches(gap: real, rate: real, q: real, d: int, s: real)
    requires rate > 0.0 && gap > 0.0 && q * rate == gap && s == Seconds(d)
    ensures Ceil(q * 1000000000.0) >= 0
    ensures s * rate >= gap <==> d >= Ceil(q * 1000000000.0)
  {
    ProductIsMonotone(q, s, rate);
    QuotientIsPositive(q, rate, gap);
    SecondsCount(q, d);
    CeilCounts(q, d);
  }

  lemma CeilCounts(q: real, d: int)
    requires q > 0.0
    ensures Ceil(q * 1000000000.0) >= 0
    ensures d >= Ceil(q * 1000000000.0) <==> d as real >= q * 1000000000.0
  {
    CeilIsLeast(q * 1000000000.0, d);
    CeilIsLeast(q * 1000000000.0, -1);
  }

  lemma QuotientTimes(gap: real, rate: real, q: real)
    requires rate > 0.0 && q == gap / rate
    ensures q * rate == gap
  {
  }

  lemma QuotientIsPositive(q: real, rate: real, gap: real)
    requires rate > 0.0 && gap > 0.0 && q * rate == gap
    ensures q > 0.0
  {
    ProductIsMonotone(q, 0.0, rate);
  }

  lemma SecondsCount(q: real, d: int)
    ensures Seconds(d) >= q <==> d as real >= q * 1000000000.0
  {
  }

  lemma CeilIsLeast(x: real, d: int)
    ensures d >= Ceil(x) <==> d as real >= x
  {
    if d >= Ceil(x) {
      assert d as real >= Ceil(x) as real;
    } else {
      assert d as real <= (Ceil(x) - 1) as real;
    }
  }

  /** A charge taken before an intermediate refill instead of after it ends up
      at the same level if and only if that refill was not clamped, or the
      bucket has had time to refill the charge since. */
  lemma LateChargeIsExact(w: Window, b: Bucket, t1: int, t2: int, x: real)
    requires w.Limited() && 0 < b.at <= t1 <= t2 && x >= 0.0
    ensures w.Refill(w.Take(w.Refill(b, t1), x), t2) == w.Refill(w.Take(b, x), t2)
       <==> b.level + w.Accrued(t1 - b.at) <= w.capacity || x <= w.Accrued(t2 - t1)
  {
    AccruedAdds(w, t1 - b.at, t2 - t1);
    AccruedIsMonotone(w, 0, t2 - t1);
    AccruedIsMonotone(w, 0, t1 - b.at);
    AccruedIsZero(w);
  }

  lemma AccruedIsZero(w: Window)
    requires w.Limited()
    ensures w.Accrued(0) == 0.0
  {
  }

  /** Credits a refill adds never exceed the rate times the time it covers. */
  lemma RefillAddsAtMostAccrued(w: Window, b: Bucket, now: int)
    requires w.Limited() && 0 < b.at <= now
    ensures w.Refill(b, now).level <= b.level + w.Accrued(now - b.at)
    ensures w.Refill(b, now).level <= w.capacity
    ensures w.Refill(b, now).at == now
    ensures b.level <= w.capacity ==> b.level <= w.Refill(b, now).level
  {
    AccruedIsMonotone(w, 0, now - b.at);
    AccruedIsZero(w);
  }
}
