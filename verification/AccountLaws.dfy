/** What holds of one client's account over every run of events: ticket
    lifecycle, ledger, spending bound and Retry-After. */
module AccountLaws {
  import opened RateWindow
  import opened Requests
  import opened Accounts

  // ------------------------------------------------------------------ sums

  lemma SumRemove<T>(m: map<T, real>, t: T)
    requires t in m
    ensures Sum(m) == m[t] + Sum(m - {t})
    decreases |m|
  {
    var u :| u in m && Sum(m) == m[u] + Sum(m - {u});
    if u != t {
      assert |m - {u}| < |m| by { assert (m - {u}).Keys == m.Keys - {u}; }
      assert |m - {t}| < |m| by { assert (m - {t}).Keys == m.Keys - {t}; }
      SumRemove(m - {u}, t);
      SumRemove(m - {t}, u);
      assert m - {u} - {t} == m - {t} - {u};
    }
  }

  lemma SumUpdate<T>(m: map<T, real>, t: T, v: real)
    ensures Sum(m[t := v]) == Sum(m) + v - (if t in m then m[t] else 0.0)
  {
    SumRemove(m[t := v], t);
    assert m[t := v] - {t} == m - {t};
    if t in m {
      SumRemove(m, t);
    } else {
      assert m - {t} == m;
    }
  }

  lemma SumOfZeros<T>(m: map<T, real>)
    requires forall t :: t in m ==> m[t] == 0.0
    ensures Sum(m) == 0.0
    decreases |m|
  {
    if m != map[] {
      var t :| t in m && Sum(m) == m[t] + Sum(m - {t});
      assert |m - {t}| < |m| by { assert (m - {t}).Keys == m.Keys - {t}; }
      SumOfZeros(m - {t});
    }
  }

  lemma {:induction false} OwedIsNonNegative<T>(m: map<T, real>)
    requires forall t :: t in m ==> m[t] >= 0.0
    ensures Sum(m) >= 0.0
    decreases |m|
  {
    if m != map[] {
      var t :| t in m && Sum(m) == m[t] + Sum(m - {t});
      assert |m - {t}| < |m| by { assert (m - {t}).Keys == m.Keys - {t}; }
      OwedIsNonNegative(m - {t});
    }
  }

  lemma BasesUpdate<T>(fs: map<T, Flight>, t: T, f: Flight)
    ensures Sum(Bases(fs[t := f])) == Sum(Bases(fs)) + f.base - (if t in fs then fs[t].base else 0.0)
  {
    SumUpdate(Bases(fs), t, f.base);
    assert Bases(fs[t := f]) == Bases(fs)[t := f.base];
  }

  lemma BasesRemove<T>(fs: map<T, Flight>, t: T)
    requires t in fs
    ensures Sum(Bases(fs - {t})) == Sum(Bases(fs)) - fs[t].base
  {
    SumRemove(Bases(fs), t);
    assert Bases(fs - {t}) == Bases(fs) - {t};
  }

  // ------------------------------------------------------------------ runs

  lemma ClockAdvances<T>(start: int, es: seq<Event<T>>)
    requires Timely(start, es)
    ensures start <= Clock(start, es)
  {
    if |es| > 0 {
      ClockAdvances(start, es[..|es| - 1]);
    }
  }

  /** The same event last, and the clock no further along before it. */
  lemma TimelyFurther<T>(start: int, es: seq<Event<T>>, w: seq<Event<T>>)
    requires |es| > 0 && |w| > 0 && es[|es| - 1] == w[|w| - 1]
    requires Timely(start, es) && Timely(start, w[..|w| - 1]) && Clock(start, w[..|w| - 1]) <= Clock(start, es[..|es| - 1])
    ensures Timely(start, w) && Clock(start, w) <= Clock(start, es)
  {
  }

  /** Everything a client sees over a run. */
  ghost function Sights<T>(x: Terms, me: Client, a: Account<T>, es: seq<Event<T>>): seq<Output<T>> {
    if |es| == 0 then []
    else Sights(x, me, a, es[..|es| - 1]) + [Observe(x, me, Run(x, me, a, es[..|es| - 1]), es[|es| - 1])]
  }

  /** What an event does to each of an account's buckets. */
  datatype Effect =
    | Untouched
    | Refilled(now: int)
    | RefilledThenTook(now: int, c: real)
    | TookThenRefilled(c: real, now: int)
    | Took(c: real)
    | Forgotten(now: int)

  ghost function EffectOf<T>(x: Terms, me: Client, a: Account<T>, e: Event<T>): Effect {
    match e
    case Admit(c, ask, t, now) =>
      if c != me then Untouched
      else
        (match AdmitVerdict(x.plan, a, ask, now)
         case Forbidden(_) => Untouched
         case TooMany(_, _, _) => Refilled(now)
         case _ => RefilledThenTook(now, ask.cost))
    case Respond(t, busy, now) =>
      if t !in a.flights then Untouched
      else if Idle(a.flights[t], busy) then TookThenRefilled(-Back(x, a.flights[t]), now)
      else Refilled(now)
    case Finish(t, now) => if t in a.flights then Took(Settle(x, a.flights[t], now).extra) else Untouched
    case Exhaust(t, now) => if t in a.flights then Refilled(now) else Untouched
    case Tick(now) => if Metering(a.flights) then Refilled(now) else Untouched
    case Save(now) => Refilled(now)
    case Sweep(now) =>
      if a.flights != map[] then Untouched else if Forgettable(x.plan, a, now) then Forgotten(now) else Refilled(now)
    case _ => Untouched
  }

  function Apply(w: Window, b: Bucket, f: Effect): Bucket {
    match f
    case Untouched => b
    case Refilled(now) => w.Refill(b, now)
    case RefilledThenTook(now, c) => w.Take(w.Refill(b, now), c)
    case TookThenRefilled(c, now) => w.Refill(w.Take(b, c), now)
    case Took(c) => w.Take(b, c)
    case Forgotten(_) => NEW_BUCKET
  }

  function Amount(f: Effect): real {
    match f
    case RefilledThenTook(_, c) => c
    case TookThenRefilled(c, _) => c
    case Took(c) => c
    case _ => 0.0
  }

  /** One window of an account. */
  function Side<T>(a: Account<T>, daily: bool): Bucket {
    if daily then a.day else a.minute
  }

  function SideOf(p: Plan, daily: bool): Window {
    if daily then p.day else p.minute
  }

  lemma NextSide<T>(x: Terms, me: Client, a: Account<T>, e: Event<T>, daily: bool)
    ensures Side(Next(x, me, a, e), daily) == Apply(SideOf(x.plan, daily), Side(a, daily), EffectOf(x, me, a, e))
  {
  }

  /** What the clock says of a bucket, and what no lock release leaves. */
  predicate TidyBucket(w: Window, b: Bucket, now: int) {
    0 <= b.at <= now && (w.Limited() && b.at != 0 ==> b.level <= w.capacity)
  }

  ghost predicate TidyFlights<T>(fs: map<T, Flight>) {
    forall t :: t in fs ==> fs[t].extra >= 0.0 && fs[t].base >= 0.0
  }

  /** What an account's buckets and flights keep at every instant `now`: both
      buckets are brought up to date together, and no request in flight began
      later than that. */
  ghost predicate Tidy<T>(x: Terms, a: Account<T>, now: int) {
    && TidyBucket(x.plan.minute, a.minute, now)
    && TidyBucket(x.plan.day, a.day, now)
    && a.minute.at == a.day.at
    && (a.minute.at == 0 ==> a.flights == map[])
    && (forall t :: t in a.flights ==> a.flights[t].start <= a.minute.at)
    && TidyFlights(a.flights)
  }

  /** An event that may follow a clock reading of c. */
  ghost predicate InOrder<T>(e: Event<T>, c: int) {
    && When(e, c) >= c
    && (e.Report? || e.Track? || e.now > 0)
    && (e.Admit? ==> e.ask.cost >= 0.0)
  }

  /** A debit takes nothing back except before a refill clamps it. */
  predicate Sound(f: Effect, c: int) {
    match f
    case Untouched => true
    case Refilled(now) => now >= c && now > 0
    case RefilledThenTook(now, x) => now >= c && now > 0 && x >= 0.0
    case TookThenRefilled(_, now) => now >= c && now > 0
    case Took(x) => x >= 0.0
    case Forgotten(now) => now >= c && now > 0
  }

  lemma EffectIsSound<T>(x: Terms, me: Client, a: Account<T>, e: Event<T>, c: int)
    requires x.Valid() && TidyFlights(a.flights) && InOrder(e, c)
    ensures Sound(EffectOf(x, me, a, e), c)
  {
    if e.Finish? && e.t in a.flights {
      MeterIsNonNegative(x, a.flights[e.t], e.now);
    }
  }

  lemma ApplyTidy(w: Window, b: Bucket, f: Effect, c: int, now: int)
    requires TidyBucket(w, b, c) && Sound(f, c) && c <= now
    requires f.Refilled? || f.RefilledThenTook? || f.TookThenRefilled? ==> f.now == now
    requires f.Took? || f.TookThenRefilled? ==> b.at != 0
    ensures TidyBucket(w, Apply(w, b, f), now)
    ensures Apply(w, b, f).at == if f.Forgotten? then 0 else if f.Untouched? || f.Took? then b.at else now
  {
  }

  lemma MeterIsNonNegative(x: Terms, f: Flight, now: int)
    requires x.Valid()
    ensures Meter(x, f, now) >= 0.0
  {
    assert Max(Seconds(now - f.start), 0.0) >= 0.0;
  }

  lemma FlightsStayTidy<T>(x: Terms, me: Client, a: Account<T>, e: Event<T>, c: int)
    requires x.Valid() && TidyFlights(a.flights) && InOrder(e, c)
    ensures TidyFlights(Next(x, me, a, e).flights)
  {
    var fs := Next(x, me, a, e).flights;
    forall t | t in fs
      ensures fs[t].extra >= 0.0 && fs[t].base >= 0.0
    {
      if t in a.flights {
        MeterIsNonNegative(x, a.flights[t], When(e, c));
        assert x.Floor() >= 0.0;
      }
    }
  }

  lemma TidyStep<T>(x: Terms, me: Client, a: Account<T>, e: Event<T>, c: int)
    requires x.Valid() && Tidy(x, a, c) && InOrder(e, c)
    ensures Tidy(x, Next(x, me, a, e), When(e, c))
  {
    var f := EffectOf(x, me, a, e);
    FlightsStayTidy(x, me, a, e, c);
    EffectIsSound(x, me, a, e, c);
    NextSide(x, me, a, e, false);
    NextSide(x, me, a, e, true);
    ApplyTidy(x.plan.minute, a.minute, f, c, When(e, c));
    ApplyTidy(x.plan.day, a.day, f, c, When(e, c));
    if f.Untouched? && a.minute.at == 0 {
      assert Next(x, me, a, e).flights == map[];
    }
    StartsStayBehind(x, me, a, e, c);
  }

  /** No request in flight began after its account was last brought up to date. */
  lemma StartsStayBehind<T>(x: Terms, me: Client, a: Account<T>, e: Event<T>, c: int)
    requires a.minute.at <= c && InOrder(e, c) && forall t :: t in a.flights ==> a.flights[t].start <= a.minute.at
    ensures var z := Next(x, me, a, e); forall t :: t in z.flights ==> z.flights[t].start <= z.minute.at
  {
    var z := Next(x, me, a, e);
    NextSide(x, me, a, e, false);
    forall t | t in z.flights
      ensures z.flights[t].start <= z.minute.at
    {
      if t !in a.flights {
        assert z.flights[t] == NewFlight(e.ask, e.now);
      }
    }
  }

  lemma FreshIsTidy<T>(x: Terms, c: int)
    requires 0 <= c
    ensures Tidy<T>(x, Fresh(), c)
  {
  }

  lemma RefillIsTidy<T>(x: Terms, a: Account<T>, c: int, now: int)
    requires Tidy(x, a, c) && c <= now && 0 < now
    ensures Tidy(x, Refill(x.plan, a, now), now)
  {
  }

  /** In every run no level ever exceeds the capacity once the lock is free. */
  lemma {:induction false} TidyRun<T>(x: Terms, me: Client, a: Account<T>, es: seq<Event<T>>, start: int)
    requires x.Valid() && Tidy(x, a, start) && Timely(start, es)
    ensures Tidy(x, Run(x, me, a, es), Clock(start, es))
  {
    if |es| > 0 {
      TidyRun(x, me, a, es[..|es| - 1], start);
      TidyStep(x, me, Run(x, me, a, es[..|es| - 1]), es[|es| - 1], Clock(start, es[..|es| - 1]));
    }
  }

  // ----------------------------------------------------- ticket lifecycles

  /** Nothing ends, answers or re-creates ticket t. */
  ghost predicate Undisturbed<T>(es: seq<Event<T>>, t: T) {
    forall i :: 0 <= i < |es| ==> !((es[i].Admit? || es[i].Respond? || es[i].Finish?) && es[i].t == t)
  }

  lemma {:induction false} FrozenStaysFrozen<T>(x: Terms, me: Client, a: Account<T>, es: seq<Event<T>>, t: T)
    requires t in a.flights && a.flights[t].frozen && Undisturbed(es, t)
    ensures t in Run(x, me, a, es).flights
    ensures Run(x, me, a, es).flights[t].frozen
    ensures Run(x, me, a, es).flights[t].Cost() == a.flights[t].Cost()
  {
    if |es| > 0 {
      var front := es[..|es| - 1];
      assert Undisturbed(front, t);
      FrozenStaysFrozen(x, me, a, front, t);
      var e := es[|es| - 1];
      assert !((e.Admit? || e.Respond? || e.Finish?) && e.t == t);
    }
  }

  /** The cost put in the response header is what the ticket is billed at its
      end, whatever ticks, reports, saves and other tickets come between. */
  lemma HeaderIsBill<T>(x: Terms, me: Client, a: Account<T>, t: T, busy: bool, now: int, es: seq<Event<T>>, end: int)
    requires t in a.flights && Undisturbed(es, t)
    ensures var b := Next(x, me, a, Respond(t, busy, now));
            var z := Run(x, me, b, es);
            && Observe(x, me, a, Respond(t, busy, now)).Answered?
            && Observe(x, me, z, Finish(t, end)) == Billed(Observe(x, me, a, Respond(t, busy, now)).cost)
  {
    FrozenStaysFrozen(x, me, Next(x, me, a, Respond(t, busy, now)), es, t);
  }

  /** How often a run cancels ticket t. */
  ghost function Stops<T>(x: Terms, me: Client, a: Account<T>, es: seq<Event<T>>, t: T): nat {
    if |es| == 0 then 0
    else
      var front := es[..|es| - 1];
      var out := Observe(x, me, Run(x, me, a, front), es[|es| - 1]);
      Stops(x, me, a, front, t) + if out.Stopped? && t in out.ts then 1 else 0
  }

  ghost function Admissions<T>(es: seq<Event<T>>, t: T): nat {
    if |es| == 0 then 0
    else Admissions(es[..|es| - 1], t) + if es[|es| - 1].Admit? && es[|es| - 1].t == t then 1 else 0
  }

  /** A ticket that may still be cancelled. */
  ghost function Live<T>(a: Account<T>, t: T): nat {
    if t in a.flights && !a.flights[t].frozen then 1 else 0
  }

  /** A run cancels a ticket at most once per admission under its name, and
      not at all once it is frozen. */
  lemma {:induction false} StopsAreBounded<T>(x: Terms, me: Client, a: Account<T>, es: seq<Event<T>>, t: T)
    ensures Stops(x, me, a, es, t) + Live(Run(x, me, a, es), t) <= Admissions(es, t) + Live(a, t)
  {
    if |es| > 0 {
      StopsAreBounded(x, me, a, es[..|es| - 1], t);
      StopStep(x, me, Run(x, me, a, es[..|es| - 1]), es[|es| - 1], t);
    }
  }

  lemma StopStep<T>(x: Terms, me: Client, a: Account<T>, e: Event<T>, t: T)
    ensures var out := Observe(x, me, a, e);
            (if out.Stopped? && t in out.ts then 1 else 0) + Live(Next(x, me, a, e), t)
            <= (if e.Admit? && e.t == t then 1 else 0) + Live(a, t)
  {
    if e.Tick? {
      TickStops(x, me, a, e.now, t);
    }
  }

  lemma TickStops<T>(x: Terms, me: Client, a: Account<T>, now: int, t: T)
    ensures var out := Observe(x, me, a, Tick(now));
            (if out.Stopped? && t in out.ts then 1 else 0) + Live(Next(x, me, a, Tick(now)), t) <= Live(a, t)
  {
  }

  /** A ticket's cancel never fires after its response has begun. */
  lemma NoStopAfterResponding<T>(x: Terms, me: Client, a: Account<T>, t: T, busy: bool, now: int, es: seq<Event<T>>)
    requires t in a.flights && Admissions(es, t) == 0
    ensures Stops(x, me, Next(x, me, a, Respond(t, busy, now)), es, t) == 0
  {
    StopsAreBounded(x, me, Next(x, me, a, Respond(t, busy, now)), es, t);
  }

  /** After a tick an overdrawn metered account has nothing left to cancel, and
      a tick that leaves the account in credit cancels nothing. */
  lemma TickLeavesNothingToStop<T>(x: Terms, me: Client, a: Account<T>, now: int)
    ensures var b := Next(x, me, a, Tick(now));
            && (Metering(b.flights) && Overdrawn(x.plan, b) ==> forall t :: t in b.flights ==> !Stoppable(b.flights[t]))
            && (Metering(b.flights) && !Overdrawn(x.plan, b) ==>
                  forall t :: t in b.flights ==> b.flights[t].cancelled == a.flights[t].cancelled)
  {
    var b := Next(x, me, a, Tick(now));
    if Metering(a.flights) {
      var m := Metering1(x, a, now);
      assert Extras(StopAll(m).flights) == Extras(m.flights);
      assert Overdrawn(x.plan, b) == Overdrawn(x.plan, m);
    } else {
      assert !Metering(b.flights);
    }
  }

  // ---------------------------------------------------------------- ledger

  /** What an event takes out of the account, or gives back when negative. */
  ghost function Debit<T>(x: Terms, me: Client, a: Account<T>, e: Event<T>): real {
    Amount(EffectOf(x, me, a, e))
  }

  ghost function Debits<T>(x: Terms, me: Client, a: Account<T>, es: seq<Event<T>>): real {
    if |es| == 0 then 0.0
    else Debits(x, me, a, es[..|es| - 1]) + Debit(x, me, Run(x, me, a, es[..|es| - 1]), es[|es| - 1])
  }

  /** What an event bills: the cost of a ticket it finishes, as reported, or the
      price of a simulation it refuses as unreadable. */
  function Bill<T>(e: Event<T>, out: Output<T>): real {
    match out
    case Billed(cost) => cost
    case Admission(v) => if v.BadRequest? && e.Admit? then e.ask.cost else 0.0
    case _ => 0.0
  }

  ghost function Bills<T>(x: Terms, me: Client, a: Account<T>, es: seq<Event<T>>): real {
    if |es| == 0 then 0.0
    else
      var e := es[|es| - 1];
      Bills(x, me, a, es[..|es| - 1]) + Bill(e, Observe(x, me, Run(x, me, a, es[..|es| - 1]), e))
  }

  /** Every admission names a ticket not in flight. */
  ghost predicate FreshNames<T>(x: Terms, me: Client, a: Account<T>, es: seq<Event<T>>) {
    |es| > 0 ==>
      && FreshNames(x, me, a, es[..|es| - 1])
      && (es[|es| - 1].Admit? && es[|es| - 1].client == me ==> es[|es| - 1].t !in Run(x, me, a, es[..|es| - 1]).flights)
  }

  lemma BasesMapped<T>(fs: map<T, Flight>, gs: map<T, Flight>)
    requires fs.Keys == gs.Keys && forall t :: t in fs ==> fs[t].base == gs[t].base
    ensures Sum(Bases(fs)) == Sum(Bases(gs))
  {
    assert Bases(fs) == Bases(gs);
  }

  /** One event keeps the balance. */
  ghost predicate Balanced<T>(x: Terms, me: Client, a: Account<T>, e: Event<T>) {
    Debit(x, me, a, e) + Sum(Bases(a.flights)) == Sum(Bases(Next(x, me, a, e).flights)) + Bill(e, Observe(x, me, a, e))
  }

  lemma LedgerAdmit<T>(x: Terms, me: Client, a: Account<T>, e: Event<T>)
    requires e.Admit? && e.client == me && e.t !in a.flights
    ensures Balanced(x, me, a, e)
  {
    BasesUpdate(a.flights, e.t, NewFlight(e.ask, e.now));
  }

  lemma LedgerRespond<T>(x: Terms, me: Client, a: Account<T>, e: Event<T>)
    requires e.Respond? && e.t in a.flights
    ensures Balanced(x, me, a, e)
  {
    BasesUpdate(a.flights, e.t, Responding(x, a.flights[e.t], e.busy, e.now));
  }

  lemma LedgerFinish<T>(x: Terms, me: Client, a: Account<T>, e: Event<T>)
    requires e.Finish? && e.t in a.flights
    ensures Balanced(x, me, a, e)
  {
    BasesRemove(a.flights, e.t);
  }

  /** An event that neither admits, answers nor ends a ticket of the account. */
  ghost predicate Bystander<T>(me: Client, a: Account<T>, e: Event<T>) {
    (e.Admit? ==> e.client != me) && (e.Respond? || e.Finish? ==> e.t !in a.flights)
  }

  lemma BystandersMoveNoBase<T>(x: Terms, me: Client, a: Account<T>, e: Event<T>)
    requires Bystander(me, a, e)
    ensures var fs := Next(x, me, a, e).flights; fs.Keys == a.flights.Keys && forall t :: t in fs ==> fs[t].base == a.flights[t].base
  {
  }

  lemma BystandersBillNothing<T>(x: Terms, me: Client, a: Account<T>, e: Event<T>)
    requires Bystander(me, a, e)
    ensures Debit(x, me, a, e) == 0.0 && Bill(e, Observe(x, me, a, e)) == 0.0
  {
  }

  lemma LedgerStays<T>(x: Terms, me: Client, a: Account<T>, e: Event<T>)
    requires Bystander(me, a, e)
    ensures Balanced(x, me, a, e)
  {
    BystandersMoveNoBase(x, me, a, e);
    BystandersBillNothing(x, me, a, e);
    BasesMapped(a.flights, Next(x, me, a, e).flights);
  }

  lemma LedgerStep<T>(x: Terms, me: Client, a: Account<T>, e: Event<T>)
    requires e.Admit? && e.client == me ==> e.t !in a.flights
    ensures Balanced(x, me, a, e)
  {
    if e.Admit? && e.client == me {
      LedgerAdmit(x, me, a, e);
    } else if e.Respond? && e.t in a.flights {
      LedgerRespond(x, me, a, e);
    } else if e.Finish? && e.t in a.flights {
      LedgerFinish(x, me, a, e);
    } else {
      LedgerStays(x, me, a, e);
    }
  }

  /** Conservation over every run: what was taken out of the account is what
      its finished tickets were billed, each once, plus the unreadable
      simulations, plus the current base of every ticket still in flight. */
  lemma {:induction false} LedgerBalances<T>(x: Terms, me: Client, a: Account<T>, es: seq<Event<T>>)
    requires FreshNames(x, me, a, es)
    ensures Debits(x, me, a, es) + Sum(Bases(a.flights)) == Bills(x, me, a, es) + Sum(Bases(Run(x, me, a, es).flights))
  {
    if |es| > 0 {
      LedgerBalances(x, me, a, es[..|es| - 1]);
      LedgerStep(x, me, Run(x, me, a, es[..|es| - 1]), es[|es| - 1]);
    }
  }

  // -------------------------------------------------------- spending bound

  /** A bucket's level, a new one counting as full. */
  function Stock(w: Window, b: Bucket): real {
    if b.at == 0 then w.capacity else b.level
  }

  /** When a bucket was last brought up to date, a new one just now. */
  function Origin(b: Bucket, now: int): int {
    if b.at == 0 then now else b.at
  }

  lemma StockStep(w: Window, b: Bucket, f: Effect, c: int, now: int)
    requires w.Limited() && TidyBucket(w, b, c) && Sound(f, c) && c <= now
    requires f.Refilled? || f.RefilledThenTook? || f.TookThenRefilled? || f.Forgotten? ==> f.now == now
    requires f.Took? || f.TookThenRefilled? ==> b.at != 0
    requires f.Forgotten? ==> w.Full(w.Refill(b, now))
    ensures Fell(w, b, Apply(w, b, f), c, now, Amount(f))
  {
    var b' := Apply(w, b, f);
    AccruedIsZero(w);
    AccruedIsMonotone(w, 0, now - Origin(b, c));
  }

  /** From start to end a bucket has risen by no more than accrued since it was last
      brought up to date, less what was spent. */
  predicate Fell(w: Window, b: Bucket, b': Bucket, start: int, end: int, spent: real)
    requires w.Limited()
  {
    && Origin(b, start) <= Origin(b', end) <= end
    && Stock(w, b') <= Stock(w, b) + w.Accrued(Origin(b', end) - Origin(b, start)) - spent
  }

  /** Over every run a limited bucket ends no higher than it started, plus
      what accrued since it was last brought up to date, less the debits. */
  lemma {:induction false} StockRun<T>(x: Terms, me: Client, a: Account<T>, es: seq<Event<T>>, start: int, daily: bool)
    requires x.Valid() && Tidy(x, a, start) && Timely(start, es) && SideOf(x.plan, daily).Limited()
    ensures Fell(SideOf(x.plan, daily), Side(a, daily), Side(Run(x, me, a, es), daily), start, Clock(start, es), Debits(x, me, a, es))
  {
    if |es| == 0 {
      AccruedIsZero(SideOf(x.plan, daily));
    } else {
      var front := es[..|es| - 1];
      StockRun(x, me, a, front, start, daily);
      TidyRun(x, me, a, front, start);
      StockExtends(x, me, a, Run(x, me, a, front), es[|es| - 1], Clock(start, front), start, daily, Debits(x, me, a, front));
    }
  }

  lemma StockExtends<T>(x: Terms, me: Client, a: Account<T>, m: Account<T>, e: Event<T>, c: int, start: int, daily: bool, spent: real)
    requires x.Valid() && Tidy(x, m, c) && InOrder(e, c) && SideOf(x.plan, daily).Limited()
    requires Fell(SideOf(x.plan, daily), Side(a, daily), Side(m, daily), start, c, spent)
    ensures Fell(SideOf(x.plan, daily), Side(a, daily), Side(Next(x, me, m, e), daily), start, When(e, c), spent + Debit(x, me, m, e))
  {
    var w, f := SideOf(x.plan, daily), EffectOf(x, me, m, e);
    EffectIsSound(x, me, m, e, c);
    NextSide(x, me, m, e, daily);
    StockStep(w, Side(m, daily), f, c, When(e, c));
    FallsAdd(w, Side(a, daily), Side(m, daily), Apply(w, Side(m, daily), f), start, c, When(e, c), spent, Amount(f));
  }

  lemma FallsAdd(w: Window, b0: Bucket, b1: Bucket, b2: Bucket, start: int, c: int, end: int, spent: real, more: real)
    requires w.Limited() && Fell(w, b0, b1, start, c, spent) && Fell(w, b1, b2, c, end, more)
    ensures Fell(w, b0, b2, start, end, spent + more)
  {
    AccruedAdds(w, Origin(b1, c) - Origin(b0, start), Origin(b2, end) - Origin(b1, c));
  }

  /** The promise of a limited window over the interval a run spans: the net
      debit is within the capacity, the refill of the interval, and the debt
      left at its end. */
  ghost predicate WithinAllowance<T>(x: Terms, me: Client, a: Account<T>, es: seq<Event<T>>, start: int, daily: bool)
    requires SideOf(x.plan, daily).Limited()
  {
    var w := SideOf(x.plan, daily);
    Debits(x, me, a, es) <=
      w.capacity + w.Accrued(Clock(start, es) - start) + Max(0.0, -Stock(w, Side(Run(x, me, a, es), daily)))
  }

  /** The bucket has accrued no more than it can hold since it was last
      brought up to date. */
  predicate Unclamped(w: Window, b: Bucket, now: int)
    requires w.Limited()
  {
    b.at == 0 || b.level + w.Accrued(now - b.at) <= w.capacity
  }

  lemma UnclampedBound<T>(x: Terms, me: Client, a: Account<T>, es: seq<Event<T>>, start: int, daily: bool)
    requires x.Valid() && Tidy(x, a, start) && Timely(start, es) && SideOf(x.plan, daily).Limited()
    requires Unclamped(SideOf(x.plan, daily), Side(a, daily), start)
    ensures WithinAllowance(x, me, a, es, start, daily)
  {
    StockRun(x, me, a, es, start, daily);
    ClockAdvances(start, es);
    StockBounds(SideOf(x.plan, daily), Side(a, daily), Side(Run(x, me, a, es), daily), start, Clock(start, es), Debits(x, me, a, es));
  }

  /** What a bucket's fall says of the spending, when it had not overflowed. */
  lemma StockBounds(w: Window, b: Bucket, b': Bucket, start: int, end: int, spent: real)
    requires w.Limited() && Unclamped(w, b, start) && 0 <= b.at <= start <= end && Fell(w, b, b', start, end, spent)
    ensures spent <= w.capacity + w.Accrued(end - start) + Max(0.0, -Stock(w, b'))
  {
    AccruedAdds(w, start - Origin(b, start), end - start);
    AccruedAdds(w, Origin(b', end) - Origin(b, start), end - Origin(b', end));
    AccruedIsMonotone(w, 0, end - Origin(b', end));
    AccruedIsZero(w);
  }

  /** No ticket has run anything up. */
  ghost predicate NoExtras<T>(a: Account<T>) {
    forall t :: t in a.flights ==> a.flights[t].extra == 0.0
  }

  /** In no moment of a run has a ticket of the account extra, nor is one billed
      any at its end. */
  ghost predicate ExtraFree<T>(x: Terms, me: Client, a: Account<T>, es: seq<Event<T>>) {
    && NoExtras(Run(x, me, a, es))
    && (|es| > 0 ==>
          && ExtraFree(x, me, a, es[..|es| - 1])
          && var m, e := Run(x, me, a, es[..|es| - 1]), es[|es| - 1];
             (e.Finish? && e.t in m.flights ==> Settle(x, m.flights[e.t], e.now).extra == 0.0))
  }

  ghost predicate InCredit<T>(p: Plan, a: Account<T>) {
    && (p.minute.Limited() && a.minute.at != 0 ==> a.minute.level >= 0.0)
    && (p.day.Limited() && a.day.at != 0 ==> a.day.level >= 0.0)
  }

  /** There is never a debt if no ticket has extra. */
  lemma {:induction false} NoDebtWithoutExtras<T>(x: Terms, me: Client, a: Account<T>, es: seq<Event<T>>, start: int)
    requires x.Valid() && Tidy(x, a, start) && Timely(start, es)
    requires ExtraFree(x, me, a, es) && InCredit(x.plan, a)
    ensures InCredit(x.plan, Run(x, me, a, es))
  {
    if |es| > 0 {
      var front := es[..|es| - 1];
      NoDebtWithoutExtras(x, me, a, front, start);
      TidyRun(x, me, a, front, start);
      var m := Run(x, me, a, front);
      SumOfZeros(Extras(m.flights));
      CreditStep(x, me, m, es[|es| - 1], Clock(start, front));
    }
  }

  /** A ticket that cannot run anything up: frozen without extra, or neither
      reported on nor metered at a price. */
  predicate Plain(x: Terms, f: Flight) {
    f.extra == 0.0 && (f.frozen || (!f.reported && (f.metered ==> x.perSecond == 0.0)))
  }

  /** The client's own admissions are not metered at a price, and nothing is
      reported for them before their response. */
  ghost predicate PlainRun<T>(x: Terms, me: Client, a: Account<T>, es: seq<Event<T>>) {
    |es| > 0 ==>
      && PlainRun(x, me, a, es[..|es| - 1])
      && var m, e := Run(x, me, a, es[..|es| - 1]), es[|es| - 1];
         && (e.Admit? && e.client == me ==> !e.ask.metered || x.perSecond == 0.0)
         && (e.Report? && e.t in m.flights ==> m.flights[e.t].frozen)
  }

  /** So a client that never simulates, or simulates for free, has no extras. */
  lemma {:induction false} PlainRunsAreExtraFree<T>(x: Terms, me: Client, a: Account<T>, es: seq<Event<T>>)
    requires PlainRun(x, me, a, es) && forall t :: t in a.flights ==> Plain(x, a.flights[t])
    ensures ExtraFree(x, me, a, es) && forall t :: t in Run(x, me, a, es).flights ==> Plain(x, Run(x, me, a, es).flights[t])
  {
    if |es| > 0 {
      PlainRunsAreExtraFree(x, me, a, es[..|es| - 1]);
      PlainStep(x, me, Run(x, me, a, es[..|es| - 1]), es[|es| - 1]);
    }
  }

  lemma PlainStep<T>(x: Terms, me: Client, a: Account<T>, e: Event<T>)
    requires forall t :: t in a.flights ==> Plain(x, a.flights[t])
    requires e.Admit? && e.client == me ==> !e.ask.metered || x.perSecond == 0.0
    requires e.Report? && e.t in a.flights ==> a.flights[e.t].frozen
    ensures forall t :: t in Next(x, me, a, e).flights ==> Plain(x, Next(x, me, a, e).flights[t])
  {
  }

  lemma ExtraFreeDebits<T>(x: Terms, me: Client, a: Account<T>, e: Event<T>)
    requires e.Finish? && e.t in a.flights ==> Settle(x, a.flights[e.t], e.now).extra == 0.0
    ensures EffectOf(x, me, a, e).Took? ==> EffectOf(x, me, a, e).c == 0.0
    ensures EffectOf(x, me, a, e).TookThenRefilled? ==> EffectOf(x, me, a, e).c <= 0.0
  {
  }

  lemma AdmissionIsCovered<T>(x: Terms, me: Client, a: Account<T>, e: Event<T>)
    requires Owed(a.flights) == 0.0
    ensures var f := EffectOf(x, me, a, e);
            f.RefilledThenTook? && f.c > 0.0 ==>
              && (x.plan.minute.Limited() ==> x.plan.minute.Refill(a.minute, f.now).level >= f.c)
              && (x.plan.day.Limited() ==> x.plan.day.Refill(a.day, f.now).level >= f.c)
  {
    var f := EffectOf(x, me, a, e);
    if f.RefilledThenTook? && f.c > 0.0 {
      var b := Refill(x.plan, a, f.now);
      assert Shortfall(x.plan, b, f.c) == Enough;
      EnoughCovers(x.plan, b.minute.level, b.day.level, f.c);
    }
  }

  lemma CreditStep<T>(x: Terms, me: Client, a: Account<T>, e: Event<T>, c: int)
    requires x.Valid() && Tidy(x, a, c) && InOrder(e, c) && InCredit(x.plan, a) && Owed(a.flights) == 0.0
    requires e.Finish? && e.t in a.flights ==> Settle(x, a.flights[e.t], e.now).extra == 0.0
    ensures InCredit(x.plan, Next(x, me, a, e))
  {
    var f := EffectOf(x, me, a, e);
    EffectIsSound(x, me, a, e, c);
    ExtraFreeDebits(x, me, a, e);
    AdmissionIsCovered(x, me, a, e);
    NextSide(x, me, a, e, false);
    NextSide(x, me, a, e, true);
    CreditSide(x.plan.minute, a.minute, f, c);
    CreditSide(x.plan.day, a.day, f, c);
  }

  lemma CreditSide(w: Window, b: Bucket, f: Effect, c: int)
    requires TidyBucket(w, b, c) && Sound(f, c) && (w.Limited() && b.at != 0 ==> b.level >= 0.0)
    requires f.RefilledThenTook? && f.c > 0.0 && w.Limited() ==> w.Refill(b, f.now).level >= f.c
    requires f.Took? ==> f.c == 0.0
    requires f.TookThenRefilled? ==> f.c <= 0.0
    ensures w.Limited() && Apply(w, b, f).at != 0 ==> Apply(w, b, f).level >= 0.0
  {
    if w.Limited() && !f.Untouched? && !f.Took? {
      AccruedIsMonotone(w, 0, f.now - b.at);
    }
  }

  /** A costed request passes exactly when every limited window holds it. */
  lemma EnoughCovers(p: Plan, minute: real, day: real, cost: real)
    requires cost > 0.0
    ensures ShortBy(p, minute, day, cost) == Enough <==>
            (p.minute.Limited() ==> minute >= cost) && (p.day.Limited() ==> day >= cost)
  {
    if p.minute.Limited() && minute < cost { WaitIsPositive(p.minute, minute, cost); }
    if p.day.Limited() && day < cost { WaitIsPositive(p.day, day, cost); }
  }

  lemma WaitIsPositive(w: Window, level: real, cost: real)
    requires w.Limited() && level < cost
    ensures w.Wait(level, cost) > 0
  {
    RateIsPositive(w);
    CeilOfQuotient(cost - level, w.Rate(), 0);
    assert Seconds(0) * w.Rate() == 0.0;
  }

  // ----------------------------------------------------------- Retry-After

  /** Nothing of this client's happens in es. */
  ghost predicate Elsewhere<T>(me: Client, es: seq<Event<T>>) {
    forall i :: 0 <= i < |es| ==> !(es[i].Admit? && es[i].client == me)
  }

  /** An idle account only refills, however often, and a sweep that forgets it
      comes to the same. */
  lemma {:induction false} IdleOnlyRefills<T>(x: Terms, me: Client, a: Account<T>, es: seq<Event<T>>, start: int, later: int)
    requires x.Valid() && Tidy(x, a, start) && Timely(start, es) && a.flights == map[] && Elsewhere(me, es)
    requires 0 < Clock(start, es) <= later
    ensures Run(x, me, a, es).flights == map[]
    ensures Refill(x.plan, Run(x, me, a, es), later) == Refill(x.plan, a, later)
  {
    if |es| > 0 {
      var front := es[..|es| - 1];
      if Clock(start, front) > 0 {
        IdleOnlyRefills(x, me, a, front, start, later);
      } else {
        IdleUntouched(x, me, a, front, start);
      }
      TidyRun(x, me, a, front, start);
      var m := Run(x, me, a, front);
      if es[|es| - 1].Save? || es[|es| - 1].Sweep? {
        RefilledMeanwhile(x, m, es[|es| - 1].now, later);
      }
    }
  }

  /** Neither a refill nor a sweep in between shows in an idle account later. */
  lemma RefilledMeanwhile<T>(x: Terms, a: Account<T>, now: int, later: int)
    requires Tidy(x, a, now) && 0 < now <= later && a.flights == map[]
    ensures Refill(x.plan, Refill(x.plan, a, now), later) == Refill(x.plan, a, later)
    ensures Refill(x.plan, Swept(x.plan, a, now), later) == Refill(x.plan, a, later)
  {
    RefillComposes(x.plan.minute, a.minute, now, later);
    RefillComposes(x.plan.day, a.day, now, later);
    if Forgettable(x.plan, a, now) {
      FullIsNew(x.plan.minute, a.minute, now);
      FullIsNew(x.plan.day, a.day, now);
      RefillComposes(x.plan.minute, NEW_BUCKET, now, later);
      RefillComposes(x.plan.day, NEW_BUCKET, now, later);
    }
  }

  lemma {:induction false} IdleUntouched<T>(x: Terms, me: Client, a: Account<T>, es: seq<Event<T>>, start: int)
    requires x.Valid() && Timely(start, es) && a.flights == map[] && Elsewhere(me, es) && Clock(start, es) <= 0
    ensures Run(x, me, a, es) == a
  {
    if |es| > 0 {
      ClockAdvances(start, es[..|es| - 1]);
      IdleUntouched(x, me, a, es[..|es| - 1], start);
    }
  }

  /** Retry-After is exact. When an account with nothing in flight is refused
      with 429 and a wait, then whatever else goes on in the limiter the same
      request passes at every instant from now + wait on; and when the wait is
      over the one-second floor, it is refused at every instant before. */
  lemma RetryAfterIsExact<T>(x: Terms, me: Client, a: Account<T>, ask: Ask, t: T, now: int,
                             es: seq<Event<T>>, d: int)
    requires x.Valid() && Tidy(x, a, now) && now > 0 && a.flights == map[] && ask.cost >= 0.0
    requires AdmitVerdict(x.plan, a, ask, now).TooMany?
    requires Timely(now, es) && Elsewhere(me, es) && Clock(now, es) <= now + d
    ensures var wait := AdmitVerdict(x.plan, a, ask, now).wait;
            var z := Run(x, me, Next(x, me, a, Admit(me, ask, t, now)), es);
            && (d >= wait ==> !AdmitVerdict(x.plan, z, ask, now + d).TooMany?)
            && (d < wait && wait > SECOND ==> AdmitVerdict(x.plan, z, ask, now + d).TooMany?)
  {
    var b := Refill(x.plan, a, now);
    RefusalRefills(x, me, a, Admit(me, ask, t, now), b);
    RefusedMeanwhile(x, me, a, b, ask, now, es, d, Run(x, me, b, es));
  }

  /** What goes on meanwhile only refills the account. */
  lemma RefusedMeanwhile<T>(x: Terms, me: Client, a: Account<T>, b: Account<T>, ask: Ask, now: int,
                            es: seq<Event<T>>, d: int, z: Account<T>)
    requires x.Valid() && now > 0 && a.flights == map[] == b.flights && ask.cost >= 0.0
    requires AdmitVerdict(x.plan, a, ask, now).TooMany? && b == Refill(x.plan, a, now)
    requires Tidy(x, b, now) && b.minute.at == now == b.day.at
    requires Timely(now, es) && Elsewhere(me, es) && Clock(now, es) <= now + d && z == Run(x, me, b, es)
    ensures var wait := AdmitVerdict(x.plan, a, ask, now).wait;
            && (d >= wait ==> !AdmitVerdict(x.plan, z, ask, now + d).TooMany?)
            && (d < wait && wait > SECOND ==> AdmitVerdict(x.plan, z, ask, now + d).TooMany?)
  {
    ClockAdvances(now, es);
    IdleOnlyRefills(x, me, b, es, now, now + d);
    RefusedUntil(x.plan, a, b, z, ask, now, d);
  }

  lemma RefusalRefills<T>(x: Terms, me: Client, a: Account<T>, e: Event<T>, b: Account<T>)
    requires x.Valid() && e.Admit? && e.client == me && e.now > 0 && Tidy(x, a, e.now) && b == Refill(x.plan, a, e.now)
    requires AdmitVerdict(x.plan, a, e.ask, e.now).TooMany?
    ensures Next(x, me, a, e) == b && Tidy(x, b, e.now) && b.minute.at == e.now == b.day.at
  {
  }

  /** The same for the account as it has become by then. */
  lemma RefusedUntil<T>(p: Plan, a: Account<T>, b: Account<T>, z: Account<T>, ask: Ask, now: int, d: int)
    requires a.flights == map[] == z.flights && ask.cost >= 0.0 && now > 0 && d >= 0
    requires b == Refill(p, a, now) && b.minute.at == now == b.day.at
    requires (p.minute.Limited() ==> b.minute.level <= p.minute.capacity) && (p.day.Limited() ==> b.day.level <= p.day.capacity)
    requires Refill(p, z, now + d) == Refill(p, b, now + d) && AdmitVerdict(p, a, ask, now).TooMany?
    ensures var wait := AdmitVerdict(p, a, ask, now).wait;
            && (d >= wait ==> !AdmitVerdict(p, z, ask, now + d).TooMany?)
            && (d < wait && wait > SECOND ==> AdmitVerdict(p, z, ask, now + d).TooMany?)
  {
    IdleVerdict(p, a, ask, now);
    IdleVerdict(p, z, ask, now + d);
    ShortfallWait(p, b.minute.level, b.day.level, ask.cost);
    if p.minute.Limited() { SideWait(p.minute, b.minute, ask.cost, now, d); }
    if p.day.Limited() { SideWait(p.day, b.day, ask.cost, now, d); }
  }

  /** Whether a side of an idle account lacks the cost at an instant. */
  predicate Lacks(w: Window, b: Bucket, cost: real, now: int) {
    w.Limited() && w.Refill(b, now).level < cost
  }

  lemma IdleVerdict<T>(p: Plan, a: Account<T>, ask: Ask, now: int)
    requires a.flights == map[] && ask.cost >= 0.0
    ensures var v := AdmitVerdict(p, a, ask, now);
            && (v.TooMany? <==> Refused(p, ask).None? && ask.cost > 0.0
                                && (Lacks(p.minute, a.minute, ask.cost, now) || Lacks(p.day, a.day, ask.cost, now)))
            && (v.TooMany? ==>
                  ShortBy(p, p.minute.Refill(a.minute, now).level, p.day.Refill(a.day, now).level, ask.cost)
                  == Short(v.wait, v.window))
  {
    var b := Refill(p, a, now);
    assert Extras(b.flights) == map[];
    assert Owed(b.flights) == 0.0;
    if ask.cost > 0.0 {
      EnoughCovers(p, b.minute.level, b.day.level, ask.cost);
    }
  }

  /** The wait is that of the slower side, but no less than a second. */
  lemma ShortfallWait(p: Plan, minute: real, day: real, cost: real)
    requires cost > 0.0 && ShortBy(p, minute, day, cost).Short?
    ensures var m, d, w := p.minute.Wait(minute, cost), p.day.Wait(day, cost), ShortBy(p, minute, day, cost).wait;
            && m <= w && d <= w && (w == m || w == d || w == SECOND)
  {
  }

  lemma SideWait(w: Window, b: Bucket, cost: real, now: int, d: int)
    requires w.Limited() && b.at == now && 0 < now && 0 <= d && b.level <= w.capacity && cost <= w.capacity
    ensures w.Refill(b, now + d).level >= cost <==> d >= w.Wait(b.level, cost)
    ensures w.Wait(b.level, cost) >= 0
  {
    WaitIsExact(w, b.level, cost, d);
    AccruedIsZero(w);
    if d > 0 {
      assert w.Refill(b, now + d).level == Min(b.level + w.Accrued(d), w.capacity);
    }
  }

  /** A client that waits the whole seconds of the Retry-After header has
      waited long enough. */
  lemma RetryAfterHeaderSuffices(wait: int)
    ensures CeilSeconds(wait) * SECOND >= wait
  {
    assert CeilSeconds(wait) as real * 1000000000.0 >= wait as real;
    assert (CeilSeconds(wait) * SECOND) as real >= wait as real;
  }
}
