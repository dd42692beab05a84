/** One client's account with the rate limiter, as a value: the limitKey and
    Ticket of internal/app/ratelimit.go and every locked section that touches
    them, one event each. Tickets are named by values of type T. The classes
    of Limiter.dfy carry the same account in place and are proved against this
    module. */
module Accounts {
  import opened RateWindow
  import opened Requests

  // ---------------------------------------------------------------- effort

  datatype Effort = Effort(opcodes: nat, lookups: nat, history: nat, scanned: nat, traceBytes: nat, evalUS: nat) {
    function Add(o: Effort): Effort {
      Effort(opcodes + o.opcodes, lookups + o.lookups, history + o.history,
             scanned + o.scanned, traceBytes + o.traceBytes, evalUS + o.evalUS)
    }
  }

  const NO_EFFORT := Effort(0, 0, 0, 0, 0, 0)

  datatype EffortRates = EffortRates(opcodes: real, lookups: real, history: real, scanned: real, traceKB: real) {
    static function Per(n: nat, rate: real): (c: real)
      ensures c >= 0.0
    {
      if rate <= 0.0 then 0.0 else n as real / rate
    }

    function Credits(e: Effort): (c: real)
      ensures c >= 0.0
    {
      Per(e.opcodes, opcodes) + Per(e.lookups, lookups) + Per(e.history, history)
      + Per(e.scanned, scanned) + Per(e.traceBytes, traceKB * 1024.0)
    }
  }

  // ----------------------------------------------------------------- plans

  datatype SimulateCaps = SimulateCaps(
    maxGroups: nat,
    maxRounds: nat,
    maxExtraOpcodeBudget: nat,
    denyUnnamedResources: bool,
    denyExecTrace: bool)

  const NO_CAPS := SimulateCaps(0, 0, 0, false, false)

  datatype Refusal = GroupsCap | RoundsCap | BudgetCap | UnnamedCap | TraceCap | OverMinute | OverDay

  function CheckCaps(c: SimulateCaps, n: SimulateNeeds): Option<Refusal> {
    if c.maxGroups > 0 && n.groups > c.maxGroups then Some(GroupsCap)
    else if c.maxRounds > 0 && n.rounds > c.maxRounds then Some(RoundsCap)
    else if c.maxExtraOpcodeBudget > 0 && n.extraOpcodeBudget > c.maxExtraOpcodeBudget then Some(BudgetCap)
    else if c.denyUnnamedResources && n.unnamedResources then Some(UnnamedCap)
    else if c.denyExecTrace && n.execTrace then Some(TraceCap)
    else None
  }

  datatype Plan = Plan(minute: Window, day: Window, simulate: SimulateCaps)

  /** What one client is billed by. */
  datatype Terms = Terms(plan: Plan, weights: CostWeights, perSecond: real, rates: EffortRates) {
    predicate Valid() {
      perSecond >= 0.0 && forall k :: k in weights ==> weights[k] >= 0.0
    }

    /** What a busy answer is billed. */
    function Floor(): real {
      Weight(weights, "default")
    }
  }

  datatype Ask = Ask(cost: real, metered: bool, needs: Option<SimulateNeeds>)

  function AskOf(w: CostWeights, c: RequestClass, best: nat): Ask {
    Ask(Base(w, c, best), c.simulate, c.simNeeds)
  }

  /** The 403s, which no allowance could cover. */
  function Refused(p: Plan, ask: Ask): Option<Refusal> {
    if ask.metered && ask.needs.Some? && CheckCaps(p.simulate, ask.needs.value).Some? then
      CheckCaps(p.simulate, ask.needs.value)
    else if p.minute.Limited() && ask.cost > p.minute.capacity then Some(OverMinute)
    else if p.day.Limited() && ask.cost > p.day.capacity then Some(OverDay)
    else None
  }

  /** A simulate body the router could not read cannot be held to the caps. */
  predicate Unreadable(p: Plan, ask: Ask) {
    ask.metered && ask.needs.None? && p.simulate != NO_CAPS
  }

  // --------------------------------------------------------------- flights

  datatype Flight = Flight(
    base: real,
    metered: bool,
    start: int,
    extra: real,
    frozen: bool,
    effort: Effort,
    reported: bool,
    refunded: bool,
    cancellable: bool,
    cancelled: bool)
  {
    function Report(e: Effort): Flight {
      this.(effort := effort.Add(e), reported := true)
    }

    function Cost(): real {
      base + extra
    }
  }

  function NewFlight(ask: Ask, now: int): Flight {
    Flight(ask.cost, ask.metered, now, 0.0, false, NO_EFFORT, false, false, false, false)
  }

  function Meter(x: Terms, f: Flight, now: int): real {
    Max(Seconds(now - f.start), 0.0) * x.perSecond
  }

  function Settle(x: Terms, f: Flight, now: int): Flight {
    if f.frozen then f
    else if f.reported then f.(extra := x.rates.Credits(f.effort))
    else if f.metered then f.(extra := Meter(x, f, now))
    else f
  }

  function Metered(x: Terms, f: Flight, now: int): Flight {
    if f.metered && !f.frozen then f.(extra := Meter(x, f, now)) else f
  }

  predicate Stoppable(f: Flight) {
    !f.frozen && f.cancellable
  }

  function Stop(f: Flight): Flight {
    if Stoppable(f) then f.(frozen := true, cancelled := true) else f
  }

  /** What refund gives back. */
  function Back(x: Terms, f: Flight): real {
    Max(f.base - x.Floor(), 0.0)
  }

  function Refund(x: Terms, f: Flight): Flight {
    f.(base := Min(f.base, x.Floor()), extra := 0.0, frozen := true, refunded := true)
  }

  /** A busy answer no node reported effort for did no work. */
  predicate Idle(f: Flight, busy: bool) {
    busy && !f.reported && !f.refunded
  }

  function Responding(x: Terms, f: Flight, busy: bool, now: int): Flight {
    Settle(x, if Idle(f, busy) then Refund(x, f) else f, now).(frozen := true)
  }

  // -------------------------------------------------------------- accounts

  datatype Account<T(==)> = Account(minute: Bucket, day: Bucket, flights: map<T, Flight>)

  /** newLimitKey: an account before its first refill. */
  function Fresh<T>(): Account<T> {
    Account(NEW_BUCKET, NEW_BUCKET, map[])
  }

  function Refill<T>(p: Plan, a: Account<T>, now: int): Account<T> {
    a.(minute := p.minute.Refill(a.minute, now), day := p.day.Refill(a.day, now))
  }

  function Charge<T>(p: Plan, a: Account<T>, c: real): Account<T> {
    a.(minute := p.minute.Take(a.minute, c), day := p.day.Take(a.day, c))
  }

  /** The sum of a finite map's values. */
  ghost function Sum<T>(m: map<T, real>): real {
    if m == map[] then 0.0
    else
      var t :| t in m;
      m[t] + Sum(m - {t})
  }

  ghost function Extras<T>(fs: map<T, Flight>): map<T, real> {
    map t | t in fs :: fs[t].extra
  }

  ghost function Bases<T>(fs: map<T, Flight>): map<T, real> {
    map t | t in fs :: fs[t].base
  }

  /** What the requests in flight have run up so far. */
  ghost function Owed<T>(fs: map<T, Flight>): real {
    Sum(Extras(fs))
  }

  ghost predicate Metering<T>(fs: map<T, Flight>) {
    exists t :: t in fs && fs[t].metered
  }

  datatype WindowName = ByMinute | ByDay
  datatype Shortage = Enough | Short(wait: int, window: WindowName)

  /** How long until both buckets, less what is owed, hold cost. */
  function ShortBy(p: Plan, minute: real, day: real, cost: real): Shortage {
    if cost <= 0.0 then Enough
    else
      var m := p.minute.Wait(minute, cost);
      var d := p.day.Wait(day, cost);
      var s := if d > (if m > 0 then m else 0) then Short(d, ByDay)
               else if m > 0 then Short(m, ByMinute)
               else Enough;
      if s.Short? && s.wait < SECOND then s.(wait := SECOND) else s
  }

  function AtLeastASecond(s: Shortage): int {
    if s.Short? && s.wait > SECOND then s.wait else SECOND
  }

  ghost function Shortfall<T>(p: Plan, a: Account<T>, cost: real): Shortage {
    ShortBy(p, a.minute.level - Owed(a.flights), a.day.level - Owed(a.flights), cost)
  }

  ghost predicate Overdrawn<T>(p: Plan, a: Account<T>) {
    || (p.minute.Limited() && a.minute.level - Owed(a.flights) < 0.0)
    || (p.day.Limited() && a.day.level - Owed(a.flights) < 0.0)
  }

  /** One window's entry in the RateLimit-Policy and RateLimit headers. */
  datatype Gauge = Gauge(quota: int, period: int, left: int, reset: int)
  datatype Header = Header(minute: Option<Gauge>, day: Option<Gauge>)

  function GaugeOf(w: Window, left: real): Option<Gauge> {
    if w.Limited() then
      Some(Gauge(w.capacity.Floor, Seconds(w.period).Floor,
                 if left.Floor > 0 then left.Floor else 0, CeilSeconds(w.UntilFull(left))))
    else None
  }

  function HeaderAt(p: Plan, minute: real, day: real): Header {
    Header(GaugeOf(p.minute, minute), GaugeOf(p.day, day))
  }

  ghost function HeaderOf<T>(p: Plan, a: Account<T>): Header {
    HeaderAt(p, a.minute.level - Owed(a.flights), a.day.level - Owed(a.flights))
  }

  // ---------------------------------------------------------------- events

  /** Who a request is billed to. */
  datatype Client = Token(name: string) | Ip(addr: string)

  /** One locked section of the limiter, with the instant its clock read. */
  datatype Event<T> =
    | Admit(client: Client, ask: Ask, t: T, now: int)
    | Report(t: T, effort: Effort)
    | Track(t: T)
    | Respond(t: T, busy: bool, now: int)
    | Finish(t: T, now: int)
    | Exhaust(t: T, now: int)
    | Tick(now: int)
    | Save(now: int)
    | Sweep(now: int)

  datatype Verdict =
    | Admitted
    | Forbidden(why: Refusal)
    | TooMany(wait: int, window: WindowName, header: Header)
    | BadRequest(header: Header)

  ghost function AdmitVerdict<T>(p: Plan, a: Account<T>, ask: Ask, now: int): Verdict {
    if Refused(p, ask).Some? then Forbidden(Refused(p, ask).value)
    else
      var b := Refill(p, a, now);
      match Shortfall(p, b, ask.cost)
      case Short(wait, window) => TooMany(wait, window, HeaderOf(p, b))
      case Enough =>
        if Unreadable(p, ask) then BadRequest(HeaderOf(p, Charge(p, b, ask.cost))) else Admitted
  }

  /** The account of an admission, before its ticket goes in flight. */
  ghost function AdmitAccount<T>(p: Plan, a: Account<T>, ask: Ask, now: int): Account<T> {
    match AdmitVerdict(p, a, ask, now)
    case Forbidden(_) => a
    case TooMany(_, _, _) => Refill(p, a, now)
    case _ => Charge(p, Refill(p, a, now), ask.cost)
  }

  ghost function AdmitNext<T>(p: Plan, a: Account<T>, ask: Ask, t: T, now: int): Account<T> {
    var b := AdmitAccount(p, a, ask, now);
    if AdmitVerdict(p, a, ask, now).Admitted? then b.(flights := b.flights[t := NewFlight(ask, now)]) else b
  }

  function RespondNext<T>(x: Terms, a: Account<T>, t: T, busy: bool, now: int): Account<T>
    requires t in a.flights
  {
    var f := a.flights[t];
    var b := if Idle(f, busy) then Charge(x.plan, a, -Back(x, f)) else a;
    Refill(x.plan, b.(flights := b.flights[t := Responding(x, f, busy, now)]), now)
  }

  function FinishNext<T>(x: Terms, a: Account<T>, t: T, now: int): Account<T>
    requires t in a.flights
  {
    Charge(x.plan, a, Settle(x, a.flights[t], now).extra).(flights := a.flights - {t})
  }

  /** tick's first half: the meters run and the buckets refill. */
  function Metering1<T>(x: Terms, a: Account<T>, now: int): Account<T> {
    Refill(x.plan, a.(flights := map t | t in a.flights :: Metered(x, a.flights[t], now)), now)
  }

  /** tick's second half on an overdrawn account. */
  function StopAll<T>(a: Account<T>): Account<T> {
    a.(flights := map t | t in a.flights :: Stop(a.flights[t]))
  }

  ghost function TickNext<T>(x: Terms, a: Account<T>, now: int): Account<T> {
    var b := Metering1(x, a, now);
    if Overdrawn(x.plan, b) then StopAll(b) else b
  }

  /** An account the sweep may forget: nothing in flight, and full again. */
  predicate Forgettable<T>(p: Plan, a: Account<T>, now: int) {
    a.flights == map[] && p.minute.Full(Refill(p, a, now).minute) && p.day.Full(Refill(p, a, now).day)
  }

  function SweptAccount<T>(p: Plan, a: Account<T>, now: int): Account<T> {
    if a.flights == map[] then Refill(p, a, now) else a
  }

  /** A sweep refills an idle account, and forgets it once it is full: the client
      starts anew. */
  function Swept<T>(p: Plan, a: Account<T>, now: int): Account<T> {
    if Forgettable(p, a, now) then Fresh() else SweptAccount(p, a, now)
  }

  ghost function Next<T>(x: Terms, me: Client, a: Account<T>, e: Event<T>): Account<T> {
    match e
    case Admit(c, ask, t, now) => if c == me then AdmitNext(x.plan, a, ask, t, now) else a
    case Report(t, effort) => if t in a.flights then a.(flights := a.flights[t := a.flights[t].Report(effort)]) else a
    case Track(t) => if t in a.flights then a.(flights := a.flights[t := a.flights[t].(cancellable := true)]) else a
    case Respond(t, busy, now) => if t in a.flights then RespondNext(x, a, t, busy, now) else a
    case Finish(t, now) => if t in a.flights then FinishNext(x, a, t, now) else a
    case Exhaust(t, now) => if t in a.flights then Refill(x.plan, a, now) else a
    case Tick(now) => if Metering(a.flights) then TickNext(x, a, now) else a
    case Save(now) => Refill(x.plan, a, now)
    case Sweep(now) => Swept(x.plan, a, now)
  }

  // --------------------------------------------------------------- outputs

  /** What the client, the metrics or the state file sees of an event. */
  datatype Output<T> =
    | Silent
    | Admission(verdict: Verdict)
    | Answered(header: Header, cost: real)
    | Billed(cost: real)
    | CutShort(wait: int, header: Header)
    | Stopped(ts: set<T>)
    | Saved(minute: Bucket, day: Bucket)

  /** What save writes for an account: its buckets less what is owed, unless
      both are full. */
  ghost function SaveEntry<T>(p: Plan, a: Account<T>, now: int): Option<(Bucket, Bucket)> {
    var b := Refill(p, a, now);
    var c := Charge(p, b, Owed(b.flights));
    if p.minute.Full(c.minute) && p.day.Full(c.day) then None else Some((c.minute, c.day))
  }

  ghost function Observe<T>(x: Terms, me: Client, a: Account<T>, e: Event<T>): Output<T> {
    match e
    case Admit(c, ask, t, now) => if c == me then Admission(AdmitVerdict(x.plan, a, ask, now)) else Silent
    case Report(t, effort) => Silent
    case Track(t) => Silent
    case Respond(t, busy, now) =>
      if t in a.flights then
        var b := RespondNext(x, a, t, busy, now);
        Answered(HeaderOf(x.plan, b), b.flights[t].Cost())
      else Silent
    case Finish(t, now) =>
      if t in a.flights then Billed(Settle(x, a.flights[t], now).Cost()) else Silent
    case Exhaust(t, now) =>
      if t in a.flights then
        var b := Refill(x.plan, a, now);
        CutShort(AtLeastASecond(Shortfall(x.plan, b, a.flights[t].base)), HeaderOf(x.plan, b))
      else Silent
    case Tick(now) =>
      if Metering(a.flights) && Overdrawn(x.plan, Metering1(x, a, now))
      then Stopped(set t | t in a.flights && Stoppable(a.flights[t]))
      else Silent
    case Save(now) =>
      (match SaveEntry(x.plan, a, now)
       case Some(e) => Saved(e.0, e.1)
       case None => Silent)
    case Sweep(now) => Silent
  }

  /** A run of one account, by its last event. */
  ghost function Run<T>(x: Terms, me: Client, a: Account<T>, es: seq<Event<T>>): Account<T> {
    if |es| == 0 then a else Next(x, me, Run(x, me, a, es[..|es| - 1]), es[|es| - 1])
  }

  /** The instant of an event; Report and Track read no clock. */
  function When<T>(e: Event<T>, before: int): int {
    if e.Report? || e.Track? then before else e.now
  }

  /** The instant of the last event that read the clock. */
  function Clock<T>(start: int, es: seq<Event<T>>): int {
    if |es| == 0 then start else When(es[|es| - 1], Clock(start, es[..|es| - 1]))
  }

  /** The clock never runs backwards, and no cost is negative. */
  ghost predicate Timely<T>(start: int, es: seq<Event<T>>) {
    0 <= start
    && (|es| > 0 ==>
          && Timely(start, es[..|es| - 1])
          && var e, c := es[|es| - 1], Clock(start, es[..|es| - 1]);
             When(e, c) >= c && (e.Report? || e.Track? || e.now > 0) && (e.Admit? ==> e.ask.cost >= 0.0))
  }
}
