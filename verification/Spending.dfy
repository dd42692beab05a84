/** What a client may spend over an interval, and what a refill that comes early
    shows. Both turn on the same condition: a bill still to come on a bucket that
    has already overflowed. */
module Spending {
  import opened RateWindow
  import opened Requests
  import opened Accounts
  import opened AccountLaws

  /** Some kind of reported work has a price. */
  predicate Priced(r: EffortRates) {
    r.opcodes > 0.0 || r.lookups > 0.0 || r.history > 0.0 || r.scanned > 0.0 || r.traceKB > 0.0
  }

  /** The request may be billed some extra at its end, with nothing but reports
      in between: it has run it up for good, it can still be reported on at a
      price, or its meter still runs at one. */
  predicate Billable(x: Terms, f: Flight) {
    if f.frozen then f.extra > 0.0
    else Priced(x.rates) || (!f.reported && (if f.metered then x.perSecond > 0.0 else f.extra > 0.0))
  }

  /** Nothing in flight has anything left to bill. */
  ghost predicate AllBilled<T>(x: Terms, a: Account<T>) {
    forall t :: t in a.flights ==> !Billable(x, a.flights[t])
  }

  lemma NothingBilled(x: Terms, f: Flight, now: int)
    requires x.Valid() && f.extra >= 0.0 && !Billable(x, f)
    ensures Settle(x, f, now).extra == 0.0
  {
  }

  lemma SomethingBilled(x: Terms, f: Flight, now: int)
    requires x.Valid() && f.start < now && Billable(x, f) && (f.frozen || !Priced(x.rates))
    ensures Settle(x, f, now).extra > 0.0
  {
    if !f.frozen && f.metered {
      assert Seconds(now - f.start) > 0.0;
      ProductIsMonotone(0.0, Seconds(now - f.start), x.perSecond);
      assert Meter(x, f, now) > 0.0 by { PositiveProduct(Seconds(now - f.start), x.perSecond); }
    }
  }

  lemma PositiveProduct(a: real, b: real)
    requires a > 0.0 && b > 0.0
    ensures a * b > 0.0
  {
  }

  predicate UnclampedSide(w: Window, b: Bucket, now: int) {
    w.Limited() ==> Unclamped(w, b, now)
  }

  /** No refill up to now would be lost to the capacity. */
  predicate Slack<T>(p: Plan, a: Account<T>, now: int) {
    UnclampedSide(p.minute, a.minute, now) && UnclampedSide(p.day, a.day, now)
  }

  // --------------------------------------------------------- early refills

  /** b is a, or a refilled at t0 with nothing to tell the two apart. */
  ghost predicate Early<T>(x: Terms, a: Account<T>, b: Account<T>, t0: int) {
    || a == b
    || (b == Refill(x.plan, a, t0) && a.minute.at <= t0 && a.day.at <= t0 && (AllBilled(x, a) || Slack(x.plan, a, t0)))
  }

  lemma RefundCommutes(w: Window, b: Bucket, t0: int, now: int, back: real)
    requires 0 < t0 <= now && 0 < b.at <= t0 && back >= 0.0
    ensures w.Refill(w.Take(w.Refill(b, t0), -back), now) == w.Refill(w.Take(b, -back), now)
  {
    if w.Limited() {
      AccruedAdds(w, t0 - b.at, now - t0);
      AccruedIsMonotone(w, 0, t0 - b.at);
      AccruedIsMonotone(w, 0, now - t0);
      AccruedIsZero(w);
    }
  }

  lemma BillCommutes(w: Window, b: Bucket, t0: int, bill: real)
    requires 0 < t0 && 0 < b.at <= t0 && bill >= 0.0
    requires bill == 0.0 || UnclampedSide(w, b, t0)
    requires w.Limited() ==> b.level <= w.capacity
    ensures w.Take(w.Refill(b, t0), bill) == w.Refill(w.Take(b, bill), t0)
    ensures UnclampedSide(w, b, t0) ==> UnclampedSide(w, w.Take(b, bill), t0)
  {
    if w.Limited() {
      AccruedIsZero(w);
      AccruedIsMonotone(w, 0, t0 - b.at);
    }
  }

  lemma SameOnceRefilled<T>(x: Terms, a: Account<T>, t0: int, now: int)
    requires 0 < t0 <= now && a.minute.at <= t0 && a.day.at <= t0
    ensures Refill(x.plan, Refill(x.plan, a, t0), now) == Refill(x.plan, a, now)
  {
    RefillComposes(x.plan.minute, a.minute, t0, now);
    RefillComposes(x.plan.day, a.day, t0, now);
  }

  lemma EarlyRespond<T>(x: Terms, a: Account<T>, b: Account<T>, t: T, busy: bool, t0: int, now: int)
    requires x.Valid() && Tidy(x, a, now) && 0 < t0 <= now && t in a.flights
    requires b == Refill(x.plan, a, t0) && a.minute.at <= t0 && a.day.at <= t0
    ensures RespondNext(x, a, t, busy, now) == RespondNext(x, b, t, busy, now)
  {
    var f := a.flights[t];
    if Idle(f, busy) {
      RefundCommutes(x.plan.minute, a.minute, t0, now, Back(x, f));
      RefundCommutes(x.plan.day, a.day, t0, now, Back(x, f));
    } else {
      SameOnceRefilled(x, a, t0, now);
    }
  }

  lemma EarlyFinish<T>(x: Terms, a: Account<T>, b: Account<T>, t: T, t0: int, now: int)
    requires x.Valid() && Tidy(x, a, now) && 0 < t0 <= now && t in a.flights
    requires b == Refill(x.plan, a, t0) && a.minute.at <= t0 && a.day.at <= t0
    requires AllBilled(x, a) || Slack(x.plan, a, t0)
    ensures Early(x, FinishNext(x, a, t, now), FinishNext(x, b, t, now), t0)
  {
    var bill := Settle(x, a.flights[t], now).extra;
    MeterIsNonNegative(x, a.flights[t], now);
    if AllBilled(x, a) { NothingBilled(x, a.flights[t], now); }
    BillCommutes(x.plan.minute, a.minute, t0, bill);
    BillCommutes(x.plan.day, a.day, t0, bill);
  }

  lemma EarlyStep<T>(x: Terms, me: Client, a: Account<T>, b: Account<T>, e: Event<T>, c: int, t0: int)
    requires x.Valid() && Tidy(x, a, c) && InOrder(e, c) && 0 < t0 <= c && Early(x, a, b, t0)
    ensures Observe(x, me, a, e) == Observe(x, me, b, e) && Debit(x, me, a, e) == Debit(x, me, b, e)
    ensures Early(x, Next(x, me, a, e), Next(x, me, b, e), t0)
  {
    if a != b {
      match e {
        case Report(_, _) => EarlyNote(x, me, a, b, e, t0);
        case Track(_) => EarlyNote(x, me, a, b, e, t0);
        case Respond(t, busy, now) =>
          if t in a.flights { EarlyRespond(x, a, b, t, busy, t0, now); }
        case Finish(t, now) =>
          if t in a.flights { EarlyFinish(x, a, b, t, t0, now); }
        case Sweep(now) =>
          SameOnceRefilled(x, a, t0, now);
        case _ =>
          SameOnceRefilled(x, a, t0, e.now);
          EarlyRefills(x, me, a, b, e, t0);
      }
    }
  }

  /** A report or a tracking leaves the buckets, and makes nothing billable that
      was not. */
  lemma EarlyNote<T>(x: Terms, me: Client, a: Account<T>, b: Account<T>, e: Event<T>, t0: int)
    requires (e.Report? || e.Track?) && Early(x, a, b, t0)
    ensures Early(x, Next(x, me, a, e), Next(x, me, b, e), t0)
  {
  }

  /** The events that refill: from here on the two accounts are one. */
  lemma EarlyRefills<T>(x: Terms, me: Client, a: Account<T>, b: Account<T>, e: Event<T>, t0: int)
    requires e.Admit? || e.Exhaust? || e.Tick? || e.Save?
    requires Early(x, a, b, t0) && a.flights == b.flights && Refill(x.plan, a, e.now) == Refill(x.plan, b, e.now)
    ensures Observe(x, me, a, e) == Observe(x, me, b, e) && Debit(x, me, a, e) == Debit(x, me, b, e)
    ensures Early(x, Next(x, me, a, e), Next(x, me, b, e), t0)
  {
    if e.Tick? {
      assert Metering1(x, a, e.now) == Metering1(x, b, e.now);
    }
  }

  lemma {:induction false} EarlyRun<T>(x: Terms, me: Client, a: Account<T>, b: Account<T>, es: seq<Event<T>>, t0: int)
    requires x.Valid() && Tidy(x, a, t0) && 0 < t0 && Timely(t0, es) && Early(x, a, b, t0)
    ensures Early(x, Run(x, me, a, es), Run(x, me, b, es), t0)
    ensures Sights(x, me, a, es) == Sights(x, me, b, es) && Debits(x, me, a, es) == Debits(x, me, b, es)
  {
    if |es| > 0 {
      var front := es[..|es| - 1];
      EarlyRun(x, me, a, b, front, t0);
      TidyRun(x, me, a, front, t0);
      ClockAdvances(t0, front);
      EarlyStep(x, me, Run(x, me, a, front), Run(x, me, b, front), es[|es| - 1], Clock(t0, front), t0);
    }
  }

  // -------------------------------------------------------- the bound holds

  lemma RefilledIsUnclamped<T>(x: Terms, a: Account<T>, now: int, daily: bool)
    requires Tidy(x, a, now) && 0 < now && SideOf(x.plan, daily).Limited()
    ensures Tidy(x, Refill(x.plan, a, now), now) && Unclamped(SideOf(x.plan, daily), Side(Refill(x.plan, a, now), daily), now)
  {
    AccruedIsZero(SideOf(x.plan, daily));
  }

  lemma RefillRaises<T>(x: Terms, a: Account<T>, t0: int, daily: bool)
    requires Side(a, daily).at <= t0 && 0 < t0 && SideOf(x.plan, daily).Limited()
    requires Side(a, daily).at != 0 ==> Side(a, daily).level <= SideOf(x.plan, daily).capacity && 0 < Side(a, daily).at
    ensures Stock(SideOf(x.plan, daily), Side(Refill(x.plan, a, t0), daily)) >= Stock(SideOf(x.plan, daily), Side(a, daily))
  {
    var w, b := SideOf(x.plan, daily), Side(a, daily);
    if b.at != 0 {
      RefillAddsAtMostAccrued(w, b, t0);
    }
  }

  /** Over any interval that begins with a bucket that has not overflowed, or with
      nothing left to bill, the net credits are within the capacity, the interval's
      refill and the debt at its end. An idle client's always are. */
  lemma SpendingBound<T>(x: Terms, me: Client, a: Account<T>, es: seq<Event<T>>, start: int, daily: bool)
    requires x.Valid() && Tidy(x, a, start) && Timely(start, es) && SideOf(x.plan, daily).Limited()
    requires Unclamped(SideOf(x.plan, daily), Side(a, daily), start) || AllBilled(x, a)
    ensures WithinAllowance(x, me, a, es, start, daily)
  {
    if Unclamped(SideOf(x.plan, daily), Side(a, daily), start) {
      UnclampedBound(x, me, a, es, start, daily);
    } else {
      RefilledIsUnclamped(x, a, start, daily);
      UnclampedBound(x, me, Refill(x.plan, a, start), es, start, daily);
      EndsNoHigher(x, me, a, es, start, daily);
    }
  }

  /** A run from an account with nothing left to bill spends what the run from the
      refilled account spends, and ends with no more. */
  lemma EndsNoHigher<T>(x: Terms, me: Client, a: Account<T>, es: seq<Event<T>>, start: int, daily: bool)
    requires x.Valid() && Tidy(x, a, start) && Timely(start, es) && SideOf(x.plan, daily).Limited()
    requires 0 < start && AllBilled(x, a)
    ensures var b, w := Refill(x.plan, a, start), SideOf(x.plan, daily);
            && Debits(x, me, a, es) == Debits(x, me, b, es)
            && Stock(w, Side(Run(x, me, a, es), daily)) <= Stock(w, Side(Run(x, me, b, es), daily))
  {
    var b := Refill(x.plan, a, start);
    EarlyRun(x, me, a, b, es, start);
    TidyRun(x, me, a, es, start);
    var z := Run(x, me, a, es);
    if z != Run(x, me, b, es) {
      RefillRaises(x, z, start, daily);
    }
  }

  /** The same for an interval that lasts longer than its last event. */
  lemma BoundByThen<T>(x: Terms, me: Client, a: Account<T>, es: seq<Event<T>>, start: int, end: int, daily: bool, z: Account<T>)
    requires x.Valid() && Tidy(x, a, start) && Timely(start, es) && SideOf(x.plan, daily).Limited()
    requires Unclamped(SideOf(x.plan, daily), Side(a, daily), start) || AllBilled(x, a)
    requires Clock(start, es) <= end && z == Run(x, me, a, es)
    ensures var w := SideOf(x.plan, daily);
            Debits(x, me, a, es) <= w.capacity + w.Accrued(end - start) + Max(0.0, -Stock(w, Side(z, daily)))
  {
    SpendingBound(x, me, a, es, start, daily);
    AccruedIsMonotone(SideOf(x.plan, daily), Clock(start, es) - start, end - start);
  }

  // ------------------------------------------------------- the bound breaks

  lemma PricedAbove(c: real, rate: real) returns (n: nat)
    requires rate > 0.0
    ensures forall m: nat :: m >= n ==> EffortRates.Per(m, rate) > c
  {
    var least := Ceil(Max(c, 0.0) * rate) + 1;
    assert Max(c, 0.0) * rate >= 0.0;
    n := least;
    forall m: nat | m >= n
      ensures EffortRates.Per(m, rate) > c
    {
      QuotientAbove(Max(c, 0.0), rate, m);
    }
  }

  lemma QuotientAbove(c: real, rate: real, m: nat)
    requires rate > 0.0 && m as real > c * rate
    ensures m as real / rate > c
  {
    var q := m as real / rate;
    QuotientTimes(m as real, rate, q);
    ProductIsMonotone(q, c, rate);
  }

  /** With a price, work can be reported that costs more than any amount. */
  lemma Expensive(r: EffortRates, e: Effort, c: real) returns (more: Effort)
    requires Priced(r)
    ensures r.Credits(e.Add(more)) > c
  {
    if r.opcodes > 0.0 {
      var n := PricedAbove(c, r.opcodes);
      more := Effort(n, 0, 0, 0, 0, 0);
    } else if r.lookups > 0.0 {
      var n := PricedAbove(c, r.lookups);
      more := Effort(0, n, 0, 0, 0, 0);
    } else if r.history > 0.0 {
      var n := PricedAbove(c, r.history);
      more := Effort(0, 0, n, 0, 0, 0);
    } else if r.scanned > 0.0 {
      var n := PricedAbove(c, r.scanned);
      more := Effort(0, 0, 0, n, 0, 0);
    } else {
      var n := PricedAbove(c, r.traceKB * 1024.0);
      more := Effort(0, 0, 0, 0, n, 0);
    }
  }

  const FREE := Ask(0.0, false, None)

  /** One more event at the end of a run, at the instant it began. */
  lemma RunGrows<T>(x: Terms, me: Client, a: Account<T>, es: seq<Event<T>>, e: Event<T>, start: int)
    requires Timely(start, es) && Clock(start, es) == start && start > 0
    requires e.Report? || (!e.Track? && e.now == start)
    requires e.Admit? ==> e.ask.cost >= 0.0
    ensures Timely(start, es + [e]) && Clock(start, es + [e]) == start
    ensures Run(x, me, a, es + [e]) == Next(x, me, Run(x, me, a, es), e)
    ensures Debits(x, me, a, es + [e]) == Debits(x, me, a, es) + Debit(x, me, Run(x, me, a, es), e)
    ensures Sights(x, me, a, es + [e]) == Sights(x, me, a, es) + [Observe(x, me, Run(x, me, a, es), e)]
  {
    assert (es + [e])[..|es + [e]| - 1] == es;
  }

  /** A report, then the end of the request it is for. */
  lemma ReportThenFinish<T>(x: Terms, me: Client, a: Account<T>, es: seq<Event<T>>, t: T, c: real, start: int)
      returns (more: seq<Event<T>>, bill: real)
    requires Timely(start, es) && Clock(start, es) == start && start > 0 && Priced(x.rates)
    requires var m := Run(x, me, a, es); t in m.flights && !m.flights[t].frozen
    ensures bill > c && Timely(start, more) && Clock(start, more) == start
    ensures Run(x, me, a, more) == Charge(x.plan, Run(x, me, a, es), bill).(flights := Run(x, me, a, es).flights - {t})
    ensures Debits(x, me, a, more) == Debits(x, me, a, es) + bill
  {
    var m := Run(x, me, a, es);
    var work := Expensive(x.rates, m.flights[t].effort, c);
    var e0: Event<T>, e1: Event<T> := Report(t, work), Finish(t, start);
    RunGrows(x, me, a, es, e0, start);
    RunGrows(x, me, a, es + [e0], e1, start);
    more := es + [e0] + [e1];
    var m1 := Next(x, me, m, e0);
    bill := Settle(x, m1.flights[t], start).extra;
    assert bill == x.rates.Credits(m.flights[t].effort.Add(work));
    assert m1.flights - {t} == m.flights - {t};
  }

  /** Whether a report can add to the request's bill. */
  predicate Reportable(x: Terms, f: Flight) {
    !f.frozen && Priced(x.rates)
  }

  /** A request comes to its end, reported on first if that adds to its bill. */
  function EndOf<T>(x: Terms, f: Flight, t: T, work: Effort, now: int): seq<Event<T>> {
    if Reportable(x, f) then [] + [Report(t, work)] + [Finish(t, now)] else [] + [Finish(t, now)]
  }

  function BillAtEnd(x: Terms, f: Flight, work: Effort, now: int): real {
    if Reportable(x, f) then x.rates.Credits(f.effort.Add(work)) else Settle(x, f, now).extra
  }

  lemma EndIsBilled<T>(x: Terms, me: Client, a: Account<T>, t: T, work: Effort, now: int)
    requires t in a.flights && now > 0
    ensures var es, bill := EndOf(x, a.flights[t], t, work, now), BillAtEnd(x, a.flights[t], work, now);
            && Timely(now, es) && Clock(now, es) == now && Debits(x, me, a, es) == bill
            && Run(x, me, a, es) == Charge(x.plan, a, bill).(flights := a.flights - {t})
  {
    if Reportable(x, a.flights[t]) {
      ReportedEnd(x, me, a, t, work, now);
      RunOfTwo(x, me, a, Report(t, work), Finish(t, now), now);
    } else {
      PlainEnd(x, me, a, t, now);
    }
  }

  lemma PlainEnd<T>(x: Terms, me: Client, a: Account<T>, t: T, now: int)
    requires t in a.flights && now > 0
    ensures var es: seq<Event<T>>, bill := [] + [Finish(t, now)], Settle(x, a.flights[t], now).extra;
            && Timely(now, es) && Clock(now, es) == now && Debits(x, me, a, es) == bill
            && Run(x, me, a, es) == Charge(x.plan, a, bill).(flights := a.flights - {t})
  {
    var e: Event<T> := Finish(t, now);
    RunGrows(x, me, a, [], e, now);
  }

  lemma RunOfTwo<T>(x: Terms, me: Client, a: Account<T>, e0: Event<T>, e1: Event<T>, now: int)
    requires now > 0 && e0.Report? && e1.Finish? && e1.now == now
    ensures var es, m := [] + [e0] + [e1], Next(x, me, a, e0);
            && Timely(now, es) && Clock(now, es) == now
            && Run(x, me, a, es) == Next(x, me, m, e1) && Debits(x, me, a, es) == Debit(x, me, a, e0) + Debit(x, me, m, e1)
  {
    RunGrows(x, me, a, [], e0, now);
    RunGrows(x, me, a, [] + [e0], e1, now);
  }

  lemma ReportedEnd<T>(x: Terms, me: Client, a: Account<T>, t: T, work: Effort, now: int)
    requires t in a.flights && !a.flights[t].frozen
    ensures var m, bill := Next(x, me, a, Report(t, work)), x.rates.Credits(a.flights[t].effort.Add(work));
            && Debit(x, me, a, Report(t, work)) == 0.0 && Debit(x, me, m, Finish(t, now)) == bill
            && Next(x, me, m, Finish(t, now)) == Charge(x.plan, a, bill).(flights := a.flights - {t})
  {
    var m := Next(x, me, a, Report(t, work));
    assert m.flights - {t} == a.flights - {t};
  }

  /** The same bill on two accounts with the same flights. */
  lemma Billing<T>(x: Terms, me: Client, a: Account<T>, b: Account<T>, t: T, now: int) returns (es: seq<Event<T>>, bill: real)
    requires x.Valid() && a.flights == b.flights && now > 0
    requires t in a.flights && Billable(x, a.flights[t]) && a.flights[t].start < now
    ensures bill > 0.0 && Timely(now, es) && Clock(now, es) == now && Debits(x, me, a, es) == bill
    ensures Run(x, me, a, es) == Charge(x.plan, a, bill).(flights := a.flights - {t})
    ensures Run(x, me, b, es) == Charge(x.plan, b, bill).(flights := a.flights - {t})
  {
    var work := NO_EFFORT;
    if Reportable(x, a.flights[t]) {
      work := Expensive(x.rates, a.flights[t].effort, 0.0);
    } else {
      SomethingBilled(x, a.flights[t], now);
    }
    EndIsBilled(x, me, a, t, work, now);
    EndIsBilled(x, me, b, t, work, now);
    es, bill := EndOf(x, a.flights[t], t, work, now), BillAtEnd(x, a.flights[t], work, now);
  }

  /** A free request of the client, and a report for it priced above anything. */
  lemma ThenSpendMore<T>(x: Terms, me: Client, a: Account<T>, es: seq<Event<T>>, t: T, c: real, start: int)
      returns (more: seq<Event<T>>, bill: real)
    requires Timely(start, es) && Clock(start, es) == start && start > 0 && Priced(x.rates)
    requires t !in Run(x, me, a, es).flights
    ensures bill > c && Timely(start, more) && Clock(start, more) == start
    ensures var m := Refill(x.plan, Run(x, me, a, es), start);
            Run(x, me, a, more).minute == x.plan.minute.Take(m.minute, bill) && Run(x, me, a, more).day == x.plan.day.Take(m.day, bill)
    ensures Debits(x, me, a, more) == Debits(x, me, a, es) + bill
  {
    var e: Event<T> := Admit(me, FREE, t, start);
    var m := Run(x, me, a, es);
    RunGrows(x, me, a, es, e, start);
    FreeIsAdmitted(x, me, m, e);
    more, bill := ReportThenFinish(x, me, a, es + [e], t, c, start);
  }

  lemma FreeIsAdmitted<T>(x: Terms, me: Client, a: Account<T>, e: Event<T>)
    requires e.Admit? && e.client == me && e.ask == FREE
    ensures Next(x, me, a, e) == Refill(x.plan, a, e.now).(flights := a.flights[e.t := NewFlight(FREE, e.now)])
    ensures Debit(x, me, a, e) == 0.0
  {
    assert AdmitVerdict(x.plan, a, FREE, e.now) == Admitted;
    assert Charge(x.plan, Refill(x.plan, a, e.now), 0.0) == Refill(x.plan, a, e.now);
  }

  /** A bucket that has overflowed was last brought up to date some time ago, and
      its requests in flight are older still. */
  lemma OverflowedIsOlder<T>(x: Terms, a: Account<T>, now: int, daily: bool)
    requires Tidy(x, a, now) && SideOf(x.plan, daily).Limited() && !Unclamped(SideOf(x.plan, daily), Side(a, daily), now)
    ensures 0 < Side(a, daily).at < now && forall t :: t in a.flights ==> a.flights[t].start < now
  {
    AccruedIsZero(SideOf(x.plan, daily));
  }

  /** A run over the allowance, from any account with a bill to come on a bucket
      that has overflowed: the bill is taken off the level from before the
      overflow, and the refill gives it back to be spent. With reported work
      priced a free request spends it; without, a costed one does when the other
      window does not hold it back. */
  lemma OverSpend<T>(x: Terms, me: Client, a: Account<T>, t: T, start: int, daily: bool) returns (es: seq<Event<T>>)
    requires x.Valid() && Tidy(x, a, start) && SideOf(x.plan, daily).Limited()
    requires Priced(x.rates) || !SideOf(x.plan, !daily).Limited()
    requires t in a.flights && Billable(x, a.flights[t])
    requires !Unclamped(SideOf(x.plan, daily), Side(a, daily), start)
    ensures Timely(start, es) && !WithinAllowance(x, me, a, es, start, daily)
  {
    OverflowedIsOlder(x, a, start, daily);
    if Priced(x.rates) {
      es := OverSpendByReport(x, me, a, t, start, daily);
    } else {
      es := OverSpendByCost(x, me, a, t, start, daily);
    }
  }

  lemma OverSpendByReport<T>(x: Terms, me: Client, a: Account<T>, t: T, start: int, daily: bool) returns (es: seq<Event<T>>)
    requires x.Valid() && Tidy(x, a, start) && SideOf(x.plan, daily).Limited() && Priced(x.rates)
    requires t in a.flights && Billable(x, a.flights[t]) && a.flights[t].start < start
    requires !Unclamped(SideOf(x.plan, daily), Side(a, daily), start)
    ensures Timely(start, es) && !WithinAllowance(x, me, a, es, start, daily)
  {
    var w, b := SideOf(x.plan, daily), Side(a, daily);
    var first, bill := Billing(x, me, a, a, t, start);
    var m := Run(x, me, a, first);
    assert Side(m, daily) == w.Take(b, bill);
    var last;
    es, last := ThenSpendMore(x, me, a, first, t, w.capacity + 2.0 * Max(bill, -bill) + Max(b.level, -b.level), start);
    OverBy(w, b, start, bill, last);
    AccruedIsZero(w);
  }

  /** Every request in flight ends at once. */
  lemma {:induction false} EndAll<T>(x: Terms, me: Client, a: Account<T>, es: seq<Event<T>>, start: int)
      returns (more: seq<Event<T>>, bill: real)
    requires x.Valid() && Timely(start, es) && Clock(start, es) == start && start > 0 && TidyFlights(Run(x, me, a, es).flights)
    ensures Timely(start, more) && Clock(start, more) == start
    ensures Run(x, me, a, more) == Charge(x.plan, Run(x, me, a, es), bill).(flights := map[])
    ensures Debits(x, me, a, more) == Debits(x, me, a, es) + bill
    ensures var fs := Run(x, me, a, es).flights; bill >= 0.0 && forall t :: t in fs ==> bill >= Settle(x, fs[t], start).extra
    decreases |Run(x, me, a, es).flights|
  {
    var m := Run(x, me, a, es);
    if m.flights == map[] {
      more, bill := es, 0.0;
    } else {
      var t :| t in m.flights;
      var e: Event<T> := Finish(t, start);
      EndOne(x, me, a, es, m, e);
      var rest;
      more, rest := EndAll(x, me, a, es + [e], start);
      var extra := Settle(x, m.flights[t], start).extra;
      bill := extra + rest;
      EndsAdd(x, m, FinishNext(x, m, t, start), t, start, extra, rest);
    }
  }

  lemma EndOne<T>(x: Terms, me: Client, a: Account<T>, es: seq<Event<T>>, m: Account<T>, e: Event<T>)
    requires x.Valid() && e.Finish? && e.now > 0 && Timely(e.now, es) && Clock(e.now, es) == e.now
    requires m == Run(x, me, a, es) && TidyFlights(m.flights) && e.t in m.flights
    ensures Timely(e.now, es + [e]) && Clock(e.now, es + [e]) == e.now
    ensures var m' := FinishNext(x, m, e.t, e.now);
            Run(x, me, a, es + [e]) == m' && TidyFlights(m'.flights) && |m'.flights| < |m.flights|
    ensures var extra := Settle(x, m.flights[e.t], e.now).extra;
            Debits(x, me, a, es + [e]) == Debits(x, me, a, es) + extra && extra >= 0.0
  {
    RunGrows(x, me, a, es, e, e.now);
    MeterIsNonNegative(x, m.flights[e.t], e.now);
    assert (m.flights - {e.t}).Keys == m.flights.Keys - {e.t};
  }

  lemma EndsAdd<T>(x: Terms, m: Account<T>, m': Account<T>, t: T, now: int, extra: real, rest: real)
    requires t in m.flights && extra == Settle(x, m.flights[t], now).extra >= 0.0 && rest >= 0.0
    requires m' == FinishNext(x, m, t, now) && forall u :: u in m'.flights ==> rest >= Settle(x, m'.flights[u], now).extra
    ensures Charge(x.plan, m', rest).(flights := map[]) == Charge(x.plan, m, extra + rest).(flights := map[])
    ensures forall u :: u in m.flights ==> extra + rest >= Settle(x, m.flights[u], now).extra
  {
    forall u | u in m.flights
      ensures extra + rest >= Settle(x, m.flights[u], now).extra
    {
      if u != t {
        assert u in m'.flights && m'.flights[u] == m.flights[u];
      }
    }
  }

  /** What the refill left is spent on one request, when only one window limits. */
  lemma SpendsLeft<T>(x: Terms, me: Client, a: Account<T>, t: T, now: int, daily: bool) returns (e: Event<T>)
    requires a.flights == map[] && SideOf(x.plan, daily).Limited() && !SideOf(x.plan, !daily).Limited()
    ensures var left := Max(SideOf(x.plan, daily).Refill(Side(a, daily), now).level, 0.0);
            && e == Admit(me, Ask(left, false, None), t, now)
            && Debit(x, me, a, e) == left
            && Side(Next(x, me, a, e), daily) == SideOf(x.plan, daily).Take(SideOf(x.plan, daily).Refill(Side(a, daily), now), left)
  {
    var left := Max(SideOf(x.plan, daily).Refill(Side(a, daily), now).level, 0.0);
    e := Admit(me, Ask(left, false, None), t, now);
    IdleVerdict(x.plan, a, e.ask, now);
    assert AdmitVerdict(x.plan, a, e.ask, now).Admitted?;
  }

  lemma OverSpendByCost<T>(x: Terms, me: Client, a: Account<T>, t: T, start: int, daily: bool) returns (es: seq<Event<T>>)
    requires x.Valid() && Tidy(x, a, start) && SideOf(x.plan, daily).Limited() && !SideOf(x.plan, !daily).Limited()
    requires t in a.flights && Billable(x, a.flights[t]) && a.flights[t].start < start && !Priced(x.rates)
    requires !Unclamped(SideOf(x.plan, daily), Side(a, daily), start) && 0 < Side(a, daily).at
    ensures Timely(start, es) && !WithinAllowance(x, me, a, es, start, daily)
  {
    var w, b := SideOf(x.plan, daily), Side(a, daily);
    var first, bill := EndAll(x, me, a, [], start);
    SomethingBilled(x, a.flights[t], start);
    var m := Run(x, me, a, first);
    assert Side(m, daily) == w.Take(b, bill);
    var e := SpendsLeft(x, me, m, t, start, daily);
    RunGrows(x, me, a, first, e, start);
    es := first + [e];
    LeftOver(w, b, start, bill);
    AccruedIsZero(w);
  }

  lemma LeftOver(w: Window, b: Bucket, start: int, bill: real)
    requires w.Limited() && 0 < b.at <= start && bill > 0.0 && !Unclamped(w, b, start)
    ensures var r := w.Refill(w.Take(b, bill), start);
            bill + Max(r.level, 0.0) > w.capacity + Max(0.0, -(r.level - Max(r.level, 0.0)))
  {
    AccruedIsZero(w);
    AccruedIsMonotone(w, 0, start - b.at);
  }

  lemma OverBy(w: Window, b: Bucket, start: int, bill: real, last: real)
    requires w.Limited() && 0 < b.at <= start && bill > 0.0 && !Unclamped(w, b, start)
    requires last > w.capacity
    ensures var left := w.Take(w.Refill(w.Take(b, bill), start), last);
            left.level < 0.0 && bill + last > w.capacity - left.level
  {
    AccruedIsZero(w);
    AccruedIsMonotone(w, 0, start - b.at);
  }

  /** The bound holds of every run from an account if and only if its bucket has
      not overflowed since it was last brought up to date, or nothing in flight
      has anything left to bill. */
  lemma SpendingBoundExactly<T>(x: Terms, me: Client, a: Account<T>, start: int, daily: bool)
    requires x.Valid() && Tidy(x, a, start) && SideOf(x.plan, daily).Limited()
    requires Priced(x.rates) || !SideOf(x.plan, !daily).Limited()
    ensures (forall es :: Timely(start, es) ==> WithinAllowance(x, me, a, es, start, daily))
       <==> Unclamped(SideOf(x.plan, daily), Side(a, daily), start) || AllBilled(x, a)
  {
    if Unclamped(SideOf(x.plan, daily), Side(a, daily), start) || AllBilled(x, a) {
      forall es | Timely(start, es)
        ensures WithinAllowance(x, me, a, es, start, daily)
      {
        SpendingBound(x, me, a, es, start, daily);
      }
    } else {
      var t :| t in a.flights && Billable(x, a.flights[t]);
      var es := OverSpend(x, me, a, t, start, daily);
    }
  }

  // -------------------------------------------------------- saving is not free

  /** The account's save at an instant, as the client and the file see it. */
  lemma SavesDiffer<T>(x: Terms, me: Client, u: Account<T>, v: Account<T>, now: int, daily: bool)
    requires SideOf(x.plan, daily).Limited() && u.flights == v.flights && TidyFlights(u.flights)
    requires var w := SideOf(x.plan, daily);
             w.Refill(Side(v, daily), now).level < w.Refill(Side(u, daily), now).level <= w.capacity
    ensures Observe(x, me, u, Save(now)) != Observe(x, me, v, Save(now))
  {
    OwedIsNonNegative(Extras(v.flights));
    assert SaveEntry(x.plan, v, now).Some?;
  }

  lemma LateBillShows(w: Window, b: Bucket, now: int, bill: real)
    requires w.Limited() && 0 < b.at <= now && bill > 0.0 && !Unclamped(w, b, now)
    ensures w.Refill(w.Take(w.Refill(b, now), bill), now).level < w.Refill(w.Take(b, bill), now).level <= w.capacity
  {
    AccruedIsZero(w);
    AccruedIsMonotone(w, 0, now - b.at);
  }

  /** A run that tells an account from its refill. */
  lemma Telling<T>(x: Terms, me: Client, a: Account<T>, t: T, now: int, daily: bool) returns (es: seq<Event<T>>)
    requires x.Valid() && Tidy(x, a, now) && SideOf(x.plan, daily).Limited()
    requires t in a.flights && Billable(x, a.flights[t])
    requires !Unclamped(SideOf(x.plan, daily), Side(a, daily), now)
    ensures Timely(now, es) && Sights(x, me, Refill(x.plan, a, now), es) != Sights(x, me, a, es)
  {
    var w, b, r := SideOf(x.plan, daily), Side(a, daily), Refill(x.plan, a, now);
    OverflowedIsOlder(x, a, now, daily);
    var front, bill := Billing(x, me, a, r, t, now);
    var save: Event<T> := Save(now);
    RunGrows(x, me, a, front, save, now);
    RunGrows(x, me, r, front, save, now);
    LateBillShows(w, b, now, bill);
    var u, v := Run(x, me, a, front), Run(x, me, r, front);
    SavesDiffer(x, me, u, v, now, daily);
    es := front + [save];
    assert Sights(x, me, a, es)[|Sights(x, me, a, front)|] == Observe(x, me, u, save);
    SightsLength(x, me, a, r, front);
    assert Sights(x, me, r, es)[|Sights(x, me, a, front)|] == Observe(x, me, v, save);
  }

  lemma {:induction false} SightsLength<T>(x: Terms, me: Client, a: Account<T>, b: Account<T>, es: seq<Event<T>>)
    ensures |Sights(x, me, a, es)| == |Sights(x, me, b, es)| == |es|
  {
    if |es| > 0 {
      SightsLength(x, me, a, b, es[..|es| - 1]);
    }
  }

  /** A save refills every account, those with requests in flight too. It shows in
      no run if and only if no refill up to it was lost to a capacity, or nothing
      in flight has anything left to bill. */
  lemma SaveLeavesNoTraceExactly<T>(x: Terms, me: Client, a: Account<T>, now: int)
    requires x.Valid() && Tidy(x, a, now) && now > 0
    ensures (forall es :: Timely(now, es) ==> Sights(x, me, Next(x, me, a, Save(now)), es) == Sights(x, me, a, es))
       <==> Slack(x.plan, a, now) || AllBilled(x, a)
  {
    var b := Refill(x.plan, a, now);
    if Slack(x.plan, a, now) || AllBilled(x, a) {
      forall es | Timely(now, es)
        ensures Sights(x, me, b, es) == Sights(x, me, a, es)
      {
        EarlyRun(x, me, a, b, es, now);
      }
    } else {
      var t :| t in a.flights && Billable(x, a.flights[t]);
      var daily := UnclampedSide(x.plan.minute, a.minute, now);
      var es := Telling(x, me, a, t, now, daily);
    }
  }

  // ------------------------------------------------------ it does come to that

  const ONE_A_SECOND := Plan(Window(1.0, SECOND), Window(0.0, 0), NO_CAPS)
  const PRICED_TERMS := Terms(ONE_A_SECOND, map[], 0.0, EffortRates(1.0, 0.0, 0.0, 0.0, 0.0))

  /** A client that spends its one credit at the first second and is still being
      answered at the third has a bucket that has overflowed and a bill to come:
      from there it can spend over its allowance, and a save shows. */
  lemma OverflowWithABillOccurs(me: Client, e: Event<nat>)
    requires e == Admit(me, Ask(1.0, false, None), 0, SECOND)
    ensures var a := Run(PRICED_TERMS, me, Fresh(), [e]);
            && Timely(0, [e]) && Tidy(PRICED_TERMS, a, 3 * SECOND) && !AllBilled(PRICED_TERMS, a)
            && !Unclamped(ONE_A_SECOND.minute, a.minute, 3 * SECOND)
            && (exists es :: Timely(3 * SECOND, es) && !WithinAllowance(PRICED_TERMS, me, a, es, 3 * SECOND, false))
            && (exists es :: Timely(3 * SECOND, es)
                  && Sights(PRICED_TERMS, me, Next(PRICED_TERMS, me, a, Save(3 * SECOND)), es) != Sights(PRICED_TERMS, me, a, es))
  {
    var z: Account<nat> := Fresh();
    assert [e][..0] == [];
    assert Run(PRICED_TERMS, me, z, [e]) == Next(PRICED_TERMS, me, z, e);
    FirstCredit(z, e.ask);
    var a := Run(PRICED_TERMS, me, z, [e]);
    assert a == Account(Bucket(0.0, SECOND), Bucket(0.0, SECOND), map[0 := NewFlight(e.ask, SECOND)]);
    assert 0 in a.flights && !a.flights[0].frozen;
    TwoSecondsAccrue(ONE_A_SECOND.minute);
    SpendingBoundExactly(PRICED_TERMS, me, a, 3 * SECOND, false);
    SaveLeavesNoTraceExactly(PRICED_TERMS, me, a, 3 * SECOND);
  }

  lemma FirstCredit(a: Account<nat>, ask: Ask)
    requires a == Fresh() && ask == Ask(1.0, false, None)
    ensures AdmitVerdict(ONE_A_SECOND, a, ask, SECOND).Admitted?
  {
    assert ONE_A_SECOND.minute.Refill(NEW_BUCKET, SECOND) == Bucket(1.0, SECOND);
    IdleVerdict(ONE_A_SECOND, a, ask, SECOND);
  }

  lemma TwoSecondsAccrue(w: Window)
    requires w == ONE_A_SECOND.minute
    ensures w.Accrued(2 * SECOND) == 2.0
  {
    assert Seconds(SECOND) == 1.0 && Seconds(2 * SECOND) == 2.0;
    assert w.Rate() == 1.0;
  }
}
