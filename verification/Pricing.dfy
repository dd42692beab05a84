/** What a request is charged, why it is refused and what its client is told, in
    the terms of the request, the plan and the allowance
    (internal/domain/ratelimit.go, internal/domain/effort.go and
    internal/app/ratelimit.go). */
module Pricing {
  import opened RateWindow
  import opened Requests
  import opened Accounts
  import opened AccountLaws

  // --------------------------------------------------------------- the base

  /** The request is billed under the key: an object history page and a state delta
      more than eight rounds behind the best under keys of their own, any other by
      its kind. */
  predicate BilledAs(c: RequestClass, best: nat, key: string) {
    var past := c.deltas && c.round.Some? && best > c.round.value + 8;
    && (c.versions ==> key == "versions")
    && (!c.versions && past ==> key == "deltas_history")
    && (!c.versions && !past ==> OfKind(c, key))
  }

  lemma KeyIsBilled(c: RequestClass, best: nat)
    ensures BilledAs(c, best, CostKey(c, best))
    ensures forall key :: BilledAs(c, best, key) ==> key == CostKey(c, best)
  {
    forall key: string
      ensures OfKind(c, key) <==> key == c.StatKey()
    {
      StatKeyIsKind(c, key);
    }
  }

  /** A weight for each of n rounds. */
  function ForRounds(weight: real, n: nat): real {
    if n == 0 then 0.0 else ForRounds(weight, n - 1) + weight
  }

  /** The same for each of g groups. */
  function ForGroups(weight: real, g: nat, n: nat): real {
    if g == 0 then 0.0 else ForGroups(weight, g - 1, n) + ForRounds(weight, n)
  }

  /** The price of a request: its key's weight, and for a simulation that could be
      read the weight once for each round of each group it asks for, at least one
      of either. */
  function Price(w: CostWeights, c: RequestClass, key: string): real {
    var weight := if key in w then w[key] else 0.0;
    if c.simulate && c.simNeeds.Some?
    then ForGroups(weight, if c.simNeeds.value.groups == 0 then 1 else c.simNeeds.value.groups,
                   if c.simNeeds.value.rounds == 0 then 1 else c.simNeeds.value.rounds)
    else weight
  }

  lemma {:induction false} RoundsMultiply(weight: real, n: nat)
    ensures ForRounds(weight, n) == weight * n as real
  {
    if n > 0 {
      RoundsMultiply(weight, n - 1);
    }
  }

  lemma {:induction false} GroupsMultiply(weight: real, g: nat, n: nat)
    ensures ForGroups(weight, g, n) == weight * (g * n) as real
  {
    if g > 0 {
      GroupsMultiply(weight, g - 1, n);
      RoundsMultiply(weight, n);
      assert g * n == (g - 1) * n + n;
      assert (g * n) as real == ((g - 1) * n) as real + n as real;
      Distributes(weight, ((g - 1) * n) as real, n as real);
    }
  }

  lemma Distributes(a: real, b: real, c: real)
    ensures a * (b + c) == a * b + a * c
  {
  }

  /** What a request is asked for is its price. */
  lemma AskIsPriced(w: CostWeights, c: RequestClass, best: nat, key: string)
    requires BilledAs(c, best, key)
    ensures AskOf(w, c, best).cost == Price(w, c, key)
    ensures AskOf(w, c, best).metered == c.simulate && AskOf(w, c, best).needs == c.simNeeds
  {
    KeyIsBilled(c, best);
    if c.simulate && c.simNeeds.Some? {
      var n := c.simNeeds.value;
      GroupsMultiply(Weight(w, key), MaxNat(n.groups, 1), MaxNat(n.rounds, 1));
    }
  }

  // ------------------------------------------------------------ the verdict

  /** The needs are beyond this cap of the plan's; a zero cap is no cap. */
  predicate Beyond(caps: SimulateCaps, n: SimulateNeeds, why: Refusal) {
    match why
    case GroupsCap => 0 < caps.maxGroups < n.groups
    case RoundsCap => 0 < caps.maxRounds < n.rounds
    case BudgetCap => 0 < caps.maxExtraOpcodeBudget < n.extraOpcodeBudget
    case UnnamedCap => caps.denyUnnamedResources && n.unnamedResources
    case TraceCap => caps.denyExecTrace && n.execTrace
    case _ => false
  }

  /** A reason the plan never allows the request: beyond a cap, or dearer than a
      window ever holds. */
  predicate Never(p: Plan, ask: Ask, why: Refusal) {
    match why
    case OverMinute => p.minute.capacity > 0.0 && p.minute.period > 0 && ask.cost > p.minute.capacity
    case OverDay => p.day.capacity > 0.0 && p.day.period > 0 && ask.cost > p.day.capacity
    case _ => ask.metered && ask.needs.Some? && Beyond(p.simulate, ask.needs.value, why)
  }

  /** Refused for good if and only if there is such a reason, and with one. */
  lemma ForbiddenExactly<T>(p: Plan, a: Account<T>, ask: Ask, now: int)
    ensures AdmitVerdict(p, a, ask, now).Forbidden? <==> exists why :: Never(p, ask, why)
    ensures AdmitVerdict(p, a, ask, now).Forbidden? ==> Never(p, ask, AdmitVerdict(p, a, ask, now).why)
  {
    var r := Refused(p, ask);
    if r.Some? {
      assert Never(p, ask, r.value);
    }
    forall why | Never(p, ask, why)
      ensures r.Some?
    {
      match why {
        case OverMinute =>
        case OverDay =>
        case _ => assert CheckCaps(p.simulate, ask.needs.value).Some?;
      }
    }
  }

  /** The plan bounds simulations in some way. */
  predicate Bounds(caps: SimulateCaps) {
    caps.maxGroups > 0 || caps.maxRounds > 0 || caps.maxExtraOpcodeBudget > 0 || caps.denyUnnamedResources || caps.denyExecTrace
  }

  /** d after a bucket stood at a level the window holds the cost. */
  predicate HoldsIn(w: Window, level: real, cost: real, d: int) {
    w.Limited() ==> Min(level + w.Accrued(d), w.capacity) >= cost
  }

  /** What is left of a window at an instant, less what requests in flight have run
      up. */
  ghost function Left<T>(w: Window, b: Bucket, a: Account<T>, now: int): real {
    w.Refill(b, now).level - Owed(a.flights)
  }

  /** Both windows hold the cost d from now. */
  ghost predicate BothHold<T>(p: Plan, a: Account<T>, cost: real, now: int, d: int) {
    HoldsIn(p.minute, Left(p.minute, a.minute, a, now), cost, d) && HoldsIn(p.day, Left(p.day, a.day, a, now), cost, d)
  }

  /** A request not refused for good is put off exactly when it costs something and
      a window lacks it; a simulation that could not be read is then refused by a
      plan that bounds simulations; all others are admitted. */
  lemma VerdictExactly<T>(p: Plan, a: Account<T>, ask: Ask, now: int)
    requires forall why :: !Never(p, ask, why)
    requires forall t :: t in a.flights ==> a.flights[t].extra >= 0.0
    ensures var v := AdmitVerdict(p, a, ask, now);
            && (v.TooMany? <==> ask.cost > 0.0 && !BothHold(p, a, ask.cost, now, 0))
            && (v.BadRequest? <==> !v.TooMany? && ask.metered && ask.needs.None? && Bounds(p.simulate))
            && (v.Admitted? <==> !v.TooMany? && !v.BadRequest?)
  {
    ForbiddenExactly(p, a, ask, now);
    OwedIsNonNegative(Extras(a.flights));
    var b := Refill(p, a, now);
    if ask.cost > 0.0 {
      EnoughCovers(p, b.minute.level - Owed(a.flights), b.day.level - Owed(a.flights), ask.cost);
    }
    if p.minute.Limited() { AccruedIsZero(p.minute); }
    if p.day.Limited() { AccruedIsZero(p.day); }
    assert Bounds(p.simulate) <==> p.simulate != NO_CAPS;
  }

  /** The wait of a request put off is the least, of a second or more, after which
      both windows hold its cost, less what is owed; the window named is the day
      exactly when the minute holds it sooner. */
  lemma WaitIsLeast<T>(p: Plan, a: Account<T>, ask: Ask, now: int)
    requires AdmitVerdict(p, a, ask, now).TooMany?
    ensures var v := AdmitVerdict(p, a, ask, now);
            && v.wait >= SECOND
            && (forall d: int :: d >= v.wait ==> BothHold(p, a, ask.cost, now, d))
            && (v.wait > SECOND ==> forall d: int :: 0 <= d < v.wait ==> !BothHold(p, a, ask.cost, now, d))
    ensures var v := AdmitVerdict(p, a, ask, now);
            v.window == ByDay <==>
              exists d: int :: 0 <= d && HoldsIn(p.minute, Left(p.minute, a.minute, a, now), ask.cost, d)
                               && !HoldsIn(p.day, Left(p.day, a.day, a, now), ask.cost, d)
  {
    ShortIsLeast(p, Left(p.minute, a.minute, a, now), Left(p.day, a.day, a, now), ask.cost);
  }

  lemma ShortIsLeast(p: Plan, minute: real, day: real, cost: real)
    requires (p.minute.Limited() ==> cost <= p.minute.capacity) && (p.day.Limited() ==> cost <= p.day.capacity)
    ensures var s := ShortBy(p, minute, day, cost);
            if s.Enough? then
              cost > 0.0 ==> forall d: int :: d >= 0 ==> HoldsIn(p.minute, minute, cost, d) && HoldsIn(p.day, day, cost, d)
            else
              && s.wait >= SECOND
              && (forall d: int :: d >= s.wait ==> HoldsIn(p.minute, minute, cost, d) && HoldsIn(p.day, day, cost, d))
              && (s.wait > SECOND ==>
                    forall d: int :: 0 <= d < s.wait ==> !(HoldsIn(p.minute, minute, cost, d) && HoldsIn(p.day, day, cost, d)))
              && (s.window == ByDay <==> exists d: int :: 0 <= d && HoldsIn(p.minute, minute, cost, d) && !HoldsIn(p.day, day, cost, d))
  {
    var m, d := p.minute.Wait(minute, cost), p.day.Wait(day, cost);
    HoldsAfterWait(p.minute, minute, cost);
    HoldsAfterWait(p.day, day, cost);
    if d > m {
      assert HoldsIn(p.minute, minute, cost, m) && !HoldsIn(p.day, day, cost, m);
    }
  }

  lemma HoldsAfterWait(w: Window, level: real, cost: real)
    requires w.Limited() ==> cost <= w.capacity
    ensures w.Wait(level, cost) >= 0
    ensures forall d: int :: 0 <= d ==> (HoldsIn(w, level, cost, d) <==> d >= w.Wait(level, cost))
  {
    if w.Limited() {
      forall d: int | 0 <= d
        ensures w.Wait(level, cost) >= 0
        ensures HoldsIn(w, level, cost, d) <==> d >= w.Wait(level, cost)
      {
        WaitIsExact(w, level, cost, d);
      }
      WaitIsExact(w, level, cost, 0);
    }
  }

  /** An admission takes the request's price out of the account, whether the
      request goes through or its body could not be read, and nothing otherwise;
      and a price beyond what a window ever holds is refused for good. */
  lemma AdmissionTakes<T>(x: Terms, me: Client, a: Account<T>, c: RequestClass, best: nat, t: T, now: int, key: string)
    requires BilledAs(c, best, key)
    ensures var price := Price(x.weights, c, key);
            var e: Event<T> := Admit(me, AskOf(x.weights, c, best), t, now);
            var v := AdmitVerdict(x.plan, a, e.ask, now);
            && Debit(x, me, a, e) == (if v.Admitted? || v.BadRequest? then price else 0.0)
            && (v.Admitted? ==> Next(x, me, a, e).flights[t].base == price)
            && (x.plan.minute.Limited() && price > x.plan.minute.capacity ==> v.Forbidden?)
            && (x.plan.day.Limited() && price > x.plan.day.capacity ==> v.Forbidden?)
  {
    AskIsPriced(x.weights, c, best, key);
    var ask := AskOf(x.weights, c, best);
    ForbiddenExactly(x.plan, a, ask, now);
    assert x.plan.minute.Limited() && ask.cost > x.plan.minute.capacity ==> Never(x.plan, ask, OverMinute);
    assert x.plan.day.Limited() && ask.cost > x.plan.day.capacity ==> Never(x.plan, ask, OverDay);
  }

  /** The price counts groups and rounds: one of each costs the weight, as does any
      request that is no readable simulation; a group more costs the weight once a
      round, and a round more once a group. */
  lemma PriceCounts(w: CostWeights, c: RequestClass, key: string, n: SimulateNeeds)
    requires c.simulate && c.simNeeds == Some(n) && n.groups > 0 && n.rounds > 0
    ensures var weight := if key in w then w[key] else 0.0;
            && Price(w, c.(simNeeds := None), key) == weight && Price(w, c.(simulate := false), key) == weight
            && (n.groups == 1 && n.rounds == 1 ==> Price(w, c, key) == weight)
            && Price(w, c.(simNeeds := Some(n.(groups := n.groups + 1))), key) == Price(w, c, key) + weight * n.rounds as real
            && Price(w, c.(simNeeds := Some(n.(rounds := n.rounds + 1))), key) == Price(w, c, key) + weight * n.groups as real
  {
    var weight := if key in w then w[key] else 0.0;
    RoundsMultiply(weight, n.rounds);
    RoundMore(weight, n.groups, n.rounds);
    OfOne(weight);
  }

  lemma OfOne(weight: real)
    ensures ForGroups(weight, 1, 1) == weight
  {
    assert ForGroups(weight, 0, 1) == 0.0 && ForRounds(weight, 0) == 0.0;
  }

  lemma {:induction false} RoundMore(weight: real, g: nat, n: nat)
    ensures ForGroups(weight, g, n + 1) == ForGroups(weight, g, n) + weight * g as real
  {
    if g > 0 {
      RoundMore(weight, g - 1, n);
      Distributes(weight, (g - 1) as real, 1.0);
    }
  }

  // -------------------------------------------------------------- the effort

  /** What n units of a kind cost at so many for a credit. */
  ghost predicate CostsAtRate(credits: real, n: nat, rate: real) {
    if rate <= 0.0 then credits == 0.0 else credits * rate == n as real
  }

  /** Effort is priced by the kind: each kind at its own rate, a trace by the
      kilobyte, a kind without a rate free. */
  lemma CreditsByKind(r: EffortRates, n: nat)
    ensures CostsAtRate(r.Credits(Effort(n, 0, 0, 0, 0, 0)), n, r.opcodes)
    ensures CostsAtRate(r.Credits(Effort(0, n, 0, 0, 0, 0)), n, r.lookups)
    ensures CostsAtRate(r.Credits(Effort(0, 0, n, 0, 0, 0)), n, r.history)
    ensures CostsAtRate(r.Credits(Effort(0, 0, 0, n, 0, 0)), n, r.scanned)
    ensures CostsAtRate(r.Credits(Effort(0, 0, 0, 0, n, 0)), n, r.traceKB * 1024.0)
    ensures r.Credits(Effort(0, 0, 0, 0, 0, n)) == 0.0
  {
    PerRate(n, r.opcodes);
    PerRate(n, r.lookups);
    PerRate(n, r.history);
    PerRate(n, r.scanned);
    PerRate(n, r.traceKB * 1024.0);
    NothingPer(r.opcodes);
    NothingPer(r.lookups);
    NothingPer(r.history);
    NothingPer(r.scanned);
    NothingPer(r.traceKB * 1024.0);
  }

  lemma PerRate(n: nat, rate: real)
    ensures CostsAtRate(EffortRates.Per(n, rate), n, rate)
  {
    if rate > 0.0 {
      QuotientTimes(n as real, rate, n as real / rate);
    }
  }

  lemma NothingPer(rate: real)
    ensures EffortRates.Per(0, rate) == 0.0
  {
  }

  lemma PerAdds(n: nat, m: nat, rate: real)
    ensures EffortRates.Per(n + m, rate) == EffortRates.Per(n, rate) + EffortRates.Per(m, rate)
  {
    if rate > 0.0 {
      var a, b := n as real / rate, m as real / rate;
      QuotientTimes(n as real, rate, a);
      QuotientTimes(m as real, rate, b);
      assert (a + b) * rate == (n + m) as real;
      QuotientTimes((n + m) as real, rate, (n + m) as real / rate);
      SameProduct(a + b, (n + m) as real / rate, rate);
    }
  }

  lemma SameProduct(a: real, b: real, rate: real)
    requires rate > 0.0 && a * rate == b * rate
    ensures a == b
  {
    assert (a - b) * rate == 0.0;
  }

  /** The effort of several attempts costs what they cost one by one. */
  lemma CreditsAdd(r: EffortRates, e: Effort, o: Effort)
    ensures r.Credits(e.Add(o)) == r.Credits(e) + r.Credits(o)
  {
    PerAdds(e.opcodes, o.opcodes, r.opcodes);
    PerAdds(e.lookups, o.lookups, r.lookups);
    PerAdds(e.history, o.history, r.history);
    PerAdds(e.scanned, o.scanned, r.scanned);
    PerAdds(e.traceBytes, o.traceBytes, r.traceKB * 1024.0);
  }

  // ------------------------------------------------------------- the refund

  /** A busy answer no node reported effort for costs the default weight, or the
      request's base when that is less; the rest goes back to the account. */
  lemma BusyAnswerCosts<T>(x: Terms, me: Client, a: Account<T>, t: T, now: int)
    requires t in a.flights && !a.flights[t].reported && !a.flights[t].refunded
    ensures var least := if "default" in x.weights then x.weights["default"] else 0.0;
            var base := a.flights[t].base;
            var e: Event<T> := Respond(t, true, now);
            var cost := if base < least then base else least;
            && Observe(x, me, a, e).Answered? && Observe(x, me, a, e).cost == cost
            && Debit(x, me, a, e) == cost - base
  {
  }

  // ------------------------------------------------------------- the headers

  /** The gauge of a window at a level: its capacity and its period in whole
      seconds; what is left, no less than nothing; and the least whole seconds
      after which it is full again. */
  ghost predicate Gauges(w: Window, level: real, g: Gauge)
    requires w.Limited()
  {
    && g.quota as real <= w.capacity < g.quota as real + 1.0
    && g.period * SECOND <= w.period < (g.period + 1) * SECOND
    && 0 <= g.left && (level >= 0.0 ==> g.left as real <= level < g.left as real + 1.0) && (level < 0.0 ==> g.left == 0)
    && 0 <= g.reset && HoldsIn(w, level, w.capacity, g.reset * SECOND)
    && (g.reset > 0 ==> !HoldsIn(w, level, w.capacity, (g.reset - 1) * SECOND))
  }

  /** The RateLimit headers have each limited window under its own name. */
  lemma HeaderTells<T>(p: Plan, a: Account<T>)
    ensures var h, owed := HeaderOf(p, a), Owed(a.flights);
            && (h.minute.Some? <==> p.minute.Limited()) && (h.day.Some? <==> p.day.Limited())
            && (p.minute.Limited() ==> Gauges(p.minute, a.minute.level - owed, h.minute.value))
            && (p.day.Limited() ==> Gauges(p.day, a.day.level - owed, h.day.value))
  {
    if p.minute.Limited() { GaugeTells(p.minute, a.minute.level - Owed(a.flights)); }
    if p.day.Limited() { GaugeTells(p.day, a.day.level - Owed(a.flights)); }
  }

  lemma GaugeTells(w: Window, level: real)
    requires w.Limited()
    ensures GaugeOf(w, level).Some? && Gauges(w, level, GaugeOf(w, level).value)
  {
    var wait := w.UntilFull(level);
    HoldsAfterWait(w, level, w.capacity);
    WholeSeconds(wait);
    WholePeriod(w.period);
  }

  lemma WholeSeconds(d: int)
    requires d >= 0
    ensures var s := CeilSeconds(d); 0 <= s && s * SECOND >= d && (s > 0 ==> (s - 1) * SECOND < d)
  {
    var s := CeilSeconds(d);
    assert (s * SECOND) as real >= d as real > ((s - 1) * SECOND) as real;
  }

  lemma WholePeriod(d: int)
    ensures var s := Seconds(d).Floor; s * SECOND <= d < (s + 1) * SECOND
  {
    var s := Seconds(d).Floor;
    assert (s * SECOND) as real <= d as real < ((s + 1) * SECOND) as real;
  }

  /** Every answer's headers tell the account as the event leaves it. */
  lemma HeadersAreCurrent<T>(x: Terms, me: Client, a: Account<T>, e: Event<T>)
    ensures var out, h := Observe(x, me, a, e), HeaderOf(x.plan, Next(x, me, a, e));
            && (out.Answered? || out.CutShort? ==> out.header == h)
            && (out.Admission? && (out.verdict.TooMany? || out.verdict.BadRequest?) ==> out.verdict.header == h)
  {
  }
}
