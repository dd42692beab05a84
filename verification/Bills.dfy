/** What a request is finally billed, from the list of events: its price, or the
    default weight once refunded, and what it ran up, by the effort reported for it
    or else by its time, up to its response, its cancellation or its end. */
module Bills {
  import opened RateWindow
  import opened Requests
  import opened Accounts
  import opened AccountLaws
  import opened Pricing

  /** How many reports the ticket has had. */
  ghost function Reports<T>(es: seq<Event<T>>, t: T): nat {
    if |es| == 0 then 0 else Reports(es[..|es| - 1], t) + if es[|es| - 1].Report? && es[|es| - 1].t == t then 1 else 0
  }

  /** The limiter was given the means to cancel the request. */
  ghost predicate Tracked<T>(es: seq<Event<T>>, t: T) {
    |es| > 0 && (Tracked(es[..|es| - 1], t) || (es[|es| - 1].Track? && es[|es| - 1].t == t))
  }

  /** What they cost, one by one. */
  ghost function ReportedCredits<T>(r: EffortRates, es: seq<Event<T>>, t: T): real {
    if |es| == 0 then 0.0
    else
      var e := es[|es| - 1];
      ReportedCredits(r, es[..|es| - 1], t) + if e.Report? && e.t == t then r.Credits(e.effort) else 0.0
  }

  /** The price of the time from a request's start. */
  function TimePrice(x: Terms, start: int, now: int): real {
    (if now > start then Seconds(now - start) else 0.0) * x.perSecond
  }

  /** What a request has run up by now: what was reported for it, or the time of a
      simulation nothing was reported for. */
  ghost function RunUp<T>(x: Terms, ask: Ask, start: int, es: seq<Event<T>>, t: T, now: int): real {
    if Reports(es, t) > 0 then ReportedCredits(x.rates, es, t)
    else if ask.metered then TimePrice(x, start, now)
    else 0.0
  }

  /** Whether a request was refunded, and what it was fixed at. */
  datatype Standing = Standing(refunded: bool, fixed: Option<real>)

  /** A request is fixed at its first response, for what it has run up, or at
      nothing when the answer is busy and nothing was reported for it, which also
      refunds it; or at the tick that cancels it, for its time. */
  ghost function StandingOf<T>(x: Terms, me: Client, a: Account<T>, ask: Ask, start: int, es: seq<Event<T>>, t: T): Standing {
    if |es| == 0 then Standing(false, None)
    else
      var front, e := es[..|es| - 1], es[|es| - 1];
      var s := StandingOf(x, me, a, ask, start, front, t);
      if e.Respond? && e.t == t then
        if e.busy && Reports(front, t) == 0 && !s.refunded then Standing(true, Some(0.0))
        else if s.fixed.Some? then s
        else s.(fixed := Some(RunUp(x, ask, start, front, t, e.now)))
      else if e.Tick? && Cancels(Observe(x, me, Run(x, me, a, front), e), t) then
        s.(fixed := Some(if ask.metered then TimePrice(x, start, e.now) else 0.0))
      else s
  }

  ghost predicate Cancels<T>(out: Output<T>, t: T) {
    out.Stopped? && t in out.ts
  }

  /** The bill of a request that ends now. */
  ghost function BillOf<T>(x: Terms, ask: Ask, start: int, es: seq<Event<T>>, t: T, s: Standing, now: int): real {
    var least := if "default" in x.weights then x.weights["default"] else 0.0;
    (if s.refunded && least < ask.cost then least else ask.cost)
    + (if s.fixed.Some? then s.fixed.value else RunUp(x, ask, start, es, t, now))
  }

  /** Nothing ends or re-creates the ticket. */
  ghost predicate InFlight<T>(es: seq<Event<T>>, t: T) {
    |es| > 0 ==> InFlight(es[..|es| - 1], t) && !((es[|es| - 1].Admit? || es[|es| - 1].Finish?) && es[|es| - 1].t == t)
  }

  /** The ticket's fields stand for its history. */
  ghost predicate Tells<T>(x: Terms, ask: Ask, start: int, es: seq<Event<T>>, t: T, s: Standing, f: Flight) {
    var least := if "default" in x.weights then x.weights["default"] else 0.0;
    && f.metered == ask.metered && f.start == start
    && (f.reported <==> Reports(es, t) > 0) && x.rates.Credits(f.effort) == ReportedCredits(x.rates, es, t)
    && f.refunded == s.refunded && (f.frozen <==> s.fixed.Some?)
    && (f.frozen ==> f.extra == s.fixed.value)
    && (!f.frozen && !f.metered ==> f.extra == 0.0)
    && f.base == (if s.refunded && least < ask.cost then least else ask.cost)
    && (s.refunded ==> s.fixed.Some?) && (f.cancellable <==> Tracked(es, t))
  }

  lemma TellsReport<T>(x: Terms, ask: Ask, start: int, es: seq<Event<T>>, t: T, s: Standing, f: Flight)
    requires |es| > 0 && es[|es| - 1].Report? && es[|es| - 1].t == t && Tells(x, ask, start, es[..|es| - 1], t, s, f)
    ensures Tells(x, ask, start, es, t, s, f.Report(es[|es| - 1].effort))
  {
    CreditsAdd(x.rates, f.effort, es[|es| - 1].effort);
  }

  lemma TellsTrack<T>(x: Terms, ask: Ask, start: int, es: seq<Event<T>>, t: T, s: Standing, f: Flight)
    requires |es| > 0 && es[|es| - 1].Track? && es[|es| - 1].t == t && Tells(x, ask, start, es[..|es| - 1], t, s, f)
    ensures Tells(x, ask, start, es, t, s, f.(cancellable := true))
  {
  }

  lemma TellsOther<T>(x: Terms, ask: Ask, start: int, es: seq<Event<T>>, t: T, s: Standing, f: Flight)
    requires |es| > 0 && !((es[|es| - 1].Report? || es[|es| - 1].Track?) && es[|es| - 1].t == t)
    ensures Tells(x, ask, start, es[..|es| - 1], t, s, f) == Tells(x, ask, start, es, t, s, f)
  {
  }

  lemma TellsResponse<T>(x: Terms, ask: Ask, start: int, es: seq<Event<T>>, t: T, s: Standing, f: Flight, busy: bool, now: int)
    requires Tells(x, ask, start, es, t, s, f)
    ensures var s' := if busy && Reports(es, t) == 0 && !s.refunded then Standing(true, Some(0.0))
                      else if s.fixed.Some? then s else s.(fixed := Some(RunUp(x, ask, start, es, t, now)));
            Tells(x, ask, start, es, t, s', Responding(x, f, busy, now))
  {
  }

  lemma TellsTick<T>(x: Terms, ask: Ask, start: int, es: seq<Event<T>>, t: T, s: Standing, f: Flight, now: int, stopped: bool)
    requires Tells(x, ask, start, es, t, s, f) && (stopped ==> Stoppable(f))
    ensures var m := Metered(x, f, now);
            var s' := if stopped then s.(fixed := Some(if ask.metered then TimePrice(x, start, now) else 0.0)) else s;
            Tells(x, ask, start, es, t, s', if stopped then Stop(m) else m)
  {
  }

  /** What one event does to a ticket that stays in flight. */
  lemma FlightMoves<T>(x: Terms, me: Client, a: Account<T>, e: Event<T>, t: T)
    requires t in a.flights && !((e.Admit? || e.Finish?) && e.t == t)
    ensures t in Next(x, me, a, e).flights
    ensures var f, g := a.flights[t], Next(x, me, a, e).flights[t];
            g == if e.Report? && e.t == t then f.Report(e.effort)
                 else if e.Track? && e.t == t then f.(cancellable := true)
                 else if e.Respond? && e.t == t then Responding(x, f, e.busy, e.now)
                 else if e.Tick? && Cancels(Observe(x, me, a, e), t) then Stop(Metered(x, f, e.now))
                 else if e.Tick? && Metering(a.flights) then Metered(x, f, e.now)
                 else f
    ensures e.Tick? && Cancels(Observe(x, me, a, e), t) ==> Stoppable(a.flights[t])
  {
  }

  lemma {:induction false} FlightTells<T>(x: Terms, me: Client, a: Account<T>, ask: Ask, start: int, es: seq<Event<T>>, t: T)
    requires t in a.flights && a.flights[t] == NewFlight(ask, start) && InFlight(es, t)
    ensures t in Run(x, me, a, es).flights
    ensures Tells(x, ask, start, es, t, StandingOf(x, me, a, ask, start, es, t), Run(x, me, a, es).flights[t])
  {
    if |es| == 0 {
      NothingReported(x.rates);
    } else {
      FlightTells(x, me, a, ask, start, es[..|es| - 1], t);
      TellsNext(x, me, a, ask, start, es, t);
    }
  }

  lemma NothingReported(r: EffortRates)
    ensures r.Credits(NO_EFFORT) == 0.0
  {
    CreditsByKind(r, 0);
  }

  lemma TellsNext<T>(x: Terms, me: Client, a: Account<T>, ask: Ask, start: int, es: seq<Event<T>>, t: T)
    requires |es| > 0 && InFlight(es, t) && t in Run(x, me, a, es[..|es| - 1]).flights
    requires var front := es[..|es| - 1];
             Tells(x, ask, start, front, t, StandingOf(x, me, a, ask, start, front, t), Run(x, me, a, front).flights[t])
    ensures t in Run(x, me, a, es).flights
    ensures Tells(x, ask, start, es, t, StandingOf(x, me, a, ask, start, es, t), Run(x, me, a, es).flights[t])
  {
    var front, e := es[..|es| - 1], es[|es| - 1];
    var m := Run(x, me, a, front);
    var f, s, s' := m.flights[t], StandingOf(x, me, a, ask, start, front, t), StandingOf(x, me, a, ask, start, es, t);
    FlightMoves(x, me, m, e, t);
    if e.Report? && e.t == t {
      TellsReport(x, ask, start, es, t, s, f);
    } else if e.Track? && e.t == t {
      TellsTrack(x, ask, start, es, t, s, f);
    } else {
      if e.Respond? && e.t == t {
        TellsResponse(x, ask, start, front, t, s, f, e.busy, e.now);
      } else if e.Tick? {
        TellsTick(x, ask, start, front, t, s, f, e.now, Cancels(Observe(x, me, m, e), t));
      }
      TellsOther(x, ask, start, es, t, s', Run(x, me, a, es).flights[t]);
    }
  }

  /** A request is billed, at its end, exactly what the events since its admission
      make it: the effort reported for it attempt by attempt, or its time, and its
      price, or the default weight when it was refunded. */
  lemma BillIsFromEvents<T>(x: Terms, me: Client, a: Account<T>, ask: Ask, start: int, es: seq<Event<T>>, t: T, now: int)
    requires t in a.flights && a.flights[t] == NewFlight(ask, start) && InFlight(es, t)
    ensures Observe(x, me, Run(x, me, a, es), Finish(t, now))
            == Billed(BillOf(x, ask, start, es, t, StandingOf(x, me, a, ask, start, es, t), now))
  {
    FlightTells(x, me, a, ask, start, es, t);
    SettledTells(x, ask, start, es, t, StandingOf(x, me, a, ask, start, es, t), Run(x, me, a, es).flights[t], now);
  }

  lemma SettledTells<T>(x: Terms, ask: Ask, start: int, es: seq<Event<T>>, t: T, s: Standing, f: Flight, now: int)
    requires Tells(x, ask, start, es, t, s, f)
    ensures Settle(x, f, now).Cost() == BillOf(x, ask, start, es, t, s, now)
  {
  }

  /** A request's account starts so at its admission. */
  lemma AdmissionStarts<T>(x: Terms, me: Client, a: Account<T>, ask: Ask, t: T, now: int)
    requires AdmitVerdict(x.plan, a, ask, now).Admitted?
    ensures var z := Next(x, me, a, Admit(me, ask, t, now)); t in z.flights && z.flights[t] == NewFlight(ask, now)
  {
  }

  // -------------------------------------------------------- cancellations

  /** What the requests in flight have run up by the time of a tick. */
  ghost function OwedAt<T>(x: Terms, fs: map<T, Flight>, now: int): real {
    Sum(RunUps(x, fs, now))
  }

  ghost function RunUps<T>(x: Terms, fs: map<T, Flight>, now: int): map<T, real> {
    map t | t in fs :: if fs[t].metered && !fs[t].frozen then TimePrice(x, fs[t].start, now) else fs[t].extra
  }

  lemma MeterIsTimePrice(x: Terms, f: Flight, now: int)
    ensures Meter(x, f, now) == TimePrice(x, f.start, now)
  {
  }

  /** A tick cancels a request exactly when the limiter can, nothing has fixed its
      bill yet, a simulation of the client's is in flight, and a window no longer
      holds what they have all run up. */
  lemma TickCancelsExactly<T>(x: Terms, me: Client, a: Account<T>, now: int, t: T)
    requires t in a.flights
    ensures Cancels(Observe(x, me, a, Tick(now)), t) <==>
              && a.flights[t].cancellable && !a.flights[t].frozen
              && (exists u :: u in a.flights && a.flights[u].metered)
              && (exists daily: bool :: SideOf(x.plan, daily).Limited()
                                        && SideOf(x.plan, daily).Refill(Side(a, daily), now).level < OwedAt(x, a.flights, now))
  {
    var m := Metering1(x, a, now);
    forall u | u in a.flights
      ensures Extras(m.flights)[u] == RunUps(x, a.flights, now)[u]
    {
      MeterIsTimePrice(x, a.flights[u], now);
    }
    assert Extras(m.flights) == RunUps(x, a.flights, now);
    assert Side(m, false) == SideOf(x.plan, false).Refill(Side(a, false), now);
    assert Side(m, true) == SideOf(x.plan, true).Refill(Side(a, true), now);
    assert Overdrawn(x.plan, m) <==>
           exists daily: bool :: SideOf(x.plan, daily).Limited() && Side(m, daily).level < OwedAt(x, a.flights, now);
  }

  /** The answer to a cancelled simulation: how long, a second or more, until both
      windows hold its base again less what is owed, and not longer. */
  lemma ExhaustedWaits<T>(x: Terms, me: Client, a: Account<T>, t: T, now: int)
    requires t in a.flights && TidyFlights(a.flights)
    requires (x.plan.minute.Limited() ==> a.flights[t].base <= x.plan.minute.capacity)
             && (x.plan.day.Limited() ==> a.flights[t].base <= x.plan.day.capacity)
    ensures var out, base := Observe(x, me, a, Exhaust(t, now)), a.flights[t].base;
            && out.CutShort? && out.wait >= SECOND
            && (base > 0.0 ==> forall d: int :: d >= out.wait ==> BothHold(x.plan, a, base, now, d))
            && (out.wait > SECOND ==> forall d: int :: 0 <= d < out.wait ==> !BothHold(x.plan, a, base, now, d))
  {
    ShortIsLeast(x.plan, Left(x.plan.minute, a.minute, a, now), Left(x.plan.day, a.day, a, now), a.flights[t].base);
  }
}
