/** Every account of the limiter, the overflow account and the swept ones
    included, moves by a run of its own: what holds of one account over every
    run holds of each account over every run of the limiter. */
module Holders {
  import opened RateWindow
  import opened Requests
  import opened Accounts
  import opened AccountLaws
  import opened Spending
  import opened LimiterSpec

  // ---------------------------------------------------- an account's own run

  /** An event as an account takes it: the admissions it is billed for, under its
      name; every event of its tickets, every tick; the sweeps and saves that
      reach it. */
  ghost function Mine<T>(cfg: Config, s: State<T>, h: Holder, e: Event<T>): Option<Event<T>> {
    match e
    case Admit(c, ask, t, now) => if cfg.Knows(c) && HolderOf(cfg, s, c) == h then Some(Admit(h.Name(), ask, t, now)) else None
    case Save(_) => if h.Own? && h.client in s.keys then Some(e) else None
    case Sweep(now) => if h.Own? || |SweptKeys(cfg, s.keys, now)| < cfg.maxKeys then Some(e) else None
    case _ => Some(e)
  }

  ghost function Listed<T>(e: Option<Event<T>>): seq<Event<T>> {
    if e.Some? then [e.value] else []
  }

  /** A run of the limiter as an account takes it. */
  ghost function Project<T>(cfg: Config, s: State<T>, es: seq<Event<T>>, h: Holder): seq<Event<T>> {
    if |es| == 0 then []
    else
      var front := es[..|es| - 1];
      Project(cfg, s, front, h) + Listed(Mine(cfg, LimiterRun(cfg, s, front), h, es[|es| - 1]))
  }

  lemma AdmissionMoves<T>(cfg: Config, s: State<T>, h: Holder, e: Event<T>)
    requires Covers(cfg, h) && e.Admit?
    ensures Held(LimiterNext(cfg, s, e), h) == match Mine(cfg, s, h, e)
              case Some(m) => Next(cfg.TermsOf(h.Name()), h.Name(), Held(s, h), m)
              case None => Held(s, h)
  {
    if cfg.Knows(e.client) && HolderOf(cfg, s, e.client) == h {
      assert AccountFor(cfg, s, e.client) == Held(s, h);
      assert cfg.TermsOf(h.Name()) == cfg.TermsOf(e.client);
    }
  }

  lemma SweepMoves<T>(cfg: Config, s: State<T>, h: Holder, e: Event<T>)
    requires Covers(cfg, h) && e.Sweep?
    ensures Held(LimiterNext(cfg, s, e), h) == match Mine(cfg, s, h, e)
              case Some(m) => Next(cfg.TermsOf(h.Name()), h.Name(), Held(s, h), m)
              case None => Held(s, h)
  {
    assert Forgettable<T>(cfg.TermsOf(h.Name()).plan, Fresh(), e.now);
  }

  lemma OtherMoves<T>(cfg: Config, s: State<T>, h: Holder, e: Event<T>)
    requires Covers(cfg, h) && !e.Admit? && !e.Sweep?
    ensures Held(LimiterNext(cfg, s, e), h) == match Mine(cfg, s, h, e)
              case Some(m) => Next(cfg.TermsOf(h.Name()), h.Name(), Held(s, h), m)
              case None => Held(s, h)
  {
    if Held(s, h) == Fresh() && !e.Save? {
      FreshStays(cfg.TermsOf(h.Name()), h.Name(), e);
    }
  }

  lemma FreshStays<T>(x: Terms, me: Client, e: Event<T>)
    requires !e.Admit? && !e.Save? && !e.Sweep?
    ensures Next(x, me, Fresh(), e) == Fresh()
  {
  }

  /** One event moves each account as its own event does, or not at all. */
  lemma HeldMoves<T>(cfg: Config, s: State<T>, h: Holder, e: Event<T>)
    requires Covers(cfg, h)
    ensures Held(LimiterNext(cfg, s, e), h) == match Mine(cfg, s, h, e)
              case Some(m) => Next(cfg.TermsOf(h.Name()), h.Name(), Held(s, h), m)
              case None => Held(s, h)
  {
    if e.Admit? {
      AdmissionMoves(cfg, s, h, e);
    } else if e.Sweep? {
      SweepMoves(cfg, s, h, e);
    } else {
      OtherMoves(cfg, s, h, e);
    }
  }

  lemma ProjectLast<T>(cfg: Config, s: State<T>, es: seq<Event<T>>, h: Holder)
    requires |es| > 0
    ensures var p, front := Project(cfg, s, es, h), es[..|es| - 1];
            match Mine(cfg, LimiterRun(cfg, s, front), h, es[|es| - 1])
            case Some(m) => |p| > 0 && p[..|p| - 1] == Project(cfg, s, front, h) && p[|p| - 1] == m
            case None => p == Project(cfg, s, front, h)
  {
  }

  /** In every run of the limiter, however crowded and however often swept, each
      account is where its own run takes it. */
  lemma {:induction false} HeldIsARun<T>(cfg: Config, s: State<T>, es: seq<Event<T>>, h: Holder)
    requires Covers(cfg, h)
    ensures Held(LimiterRun(cfg, s, es), h) == Run(cfg.TermsOf(h.Name()), h.Name(), Held(s, h), Project(cfg, s, es, h))
  {
    if |es| > 0 {
      var front := es[..|es| - 1];
      HeldIsARun(cfg, s, front, h);
      ProjectLast(cfg, s, es, h);
      HeldMoves(cfg, LimiterRun(cfg, s, front), h, es[|es| - 1]);
    }
  }

  lemma {:induction false} ProjectIsTimely<T>(cfg: Config, s: State<T>, es: seq<Event<T>>, h: Holder, start: int)
    requires Timely(start, es)
    ensures Timely(start, Project(cfg, s, es, h)) && Clock(start, Project(cfg, s, es, h)) <= Clock(start, es)
  {
    if |es| > 0 {
      var front, e := es[..|es| - 1], es[|es| - 1];
      ProjectIsTimely(cfg, s, front, h, start);
      ProjectLast(cfg, s, es, h);
      MineIsLike(cfg, LimiterRun(cfg, s, front), h, e);
      ThenTimely(start, es, Project(cfg, s, front, h), Project(cfg, s, es, h));
    }
  }

  /** The same event but for the name it goes by. */
  ghost predicate Like<T>(e: Event<T>, m: Event<T>) {
    m == e || (e.Admit? && m.Admit? && m.ask == e.ask && m.now == e.now)
  }

  lemma MineIsLike<T>(cfg: Config, s: State<T>, h: Holder, e: Event<T>)
    ensures Mine(cfg, s, h, e).Some? ==> Like(e, Mine(cfg, s, h, e).value)
  {
  }

  lemma ThenTimely<T>(start: int, es: seq<Event<T>>, before: seq<Event<T>>, p: seq<Event<T>>)
    requires |es| > 0 && Timely(start, es) && Timely(start, before) && Clock(start, before) <= Clock(start, es[..|es| - 1])
    requires p == before || (|p| > 0 && p[..|p| - 1] == before && Like(es[|es| - 1], p[|p| - 1]))
    ensures Timely(start, p) && Clock(start, p) <= Clock(start, es)
  {
    if p != before {
      OneMoreIsTimely(start, es, p);
    }
  }

  lemma OneMoreIsTimely<T>(start: int, es: seq<Event<T>>, p: seq<Event<T>>)
    requires |es| > 0 && |p| > 0 && Timely(start, es) && Timely(start, p[..|p| - 1])
    requires Clock(start, p[..|p| - 1]) <= Clock(start, es[..|es| - 1])
    requires Like(es[|es| - 1], p[|p| - 1])
    ensures Timely(start, p) && Clock(start, p) <= Clock(start, es)
  {
  }

  /** What an account's own event shows is what its holder, or the client it is
      billed for, sees of the limiter. */
  lemma MineIsFaced<T>(cfg: Config, s: State<T>, h: Holder, e: Event<T>)
    requires Covers(cfg, h) && Mine(cfg, s, h, e).Some?
    ensures Observe(cfg.TermsOf(h.Name()), h.Name(), Held(s, h), Mine(cfg, s, h, e).value)
            == Facing(cfg, s, if e.Admit? then Own(e.client) else h, e)
  {
    if e.Admit? {
      assert AccountFor(cfg, s, e.client) == Held(s, h);
      assert cfg.TermsOf(h.Name()) == cfg.TermsOf(e.client);
    }
  }

  // ------------------------------------------------------------ reachability

  /** How a limiter came to be: it starts empty, serves, is restarted from what it
      saved at t1, and may read a file while serving. */
  datatype Past<T(==)> =
    | Started
    | Served(before: Past<T>, es: seq<Event<T>>)
    | Restarted(before: Past<T>, t1: int, t2: int)
    | Read(before: Past<T>, file: StateFile, now: int)

  ghost function StateOf<T>(cfg: Config, p: Past<T>): State<T> {
    match p
    case Started => Empty()
    case Served(b, es) => LimiterRun(cfg, StateOf(cfg, b), es)
    case Restarted(b, t1, t2) => LoadNext(cfg, Empty<T>(), FileOf(cfg, StateOf(cfg, b), t1), t2)
    case Read(b, file, now) => LoadNext(cfg, StateOf(cfg, b), file, now)
  }

  function ClockOf<T>(p: Past<T>): int {
    match p
    case Started => 0
    case Served(b, es) => Clock(ClockOf(b), es)
    case Restarted(_, _, t2) => t2
    case Read(_, _, now) => now
  }

  /** No saved instant is still to come. */
  predicate Earlier(file: StateFile, now: int) {
    forall c :: c in file ==> 0 <= file[c].0.at <= now && 0 <= file[c].1.at <= now
  }

  ghost predicate Possible<T>(p: Past<T>) {
    match p
    case Started => true
    case Served(b, es) => Possible(b) && Timely(ClockOf(b), es)
    case Restarted(b, t1, t2) => Possible(b) && ClockOf(b) <= t1 <= t2 && 0 < t1
    case Read(b, file, now) => Possible(b) && ClockOf(b) <= now && 0 < now && Earlier(file, now)
  }

  lemma {:induction false} ClockIsNonNegative<T>(p: Past<T>)
    requires Possible(p)
    ensures 0 <= ClockOf(p)
  {
    if p.Served? {
      ClockIsNonNegative(p.before);
      ClockAdvances(ClockOf(p.before), p.es);
    }
  }

  lemma TidyStays<T>(x: Terms, a: Account<T>, c: int, now: int)
    requires Tidy(x, a, c) && c <= now
    ensures Tidy(x, a, now)
  {
  }

  lemma RunIsTidy<T>(cfg: Config, s: State<T>, es: seq<Event<T>>, h: Holder, start: int)
    requires cfg.Valid() && Covers(cfg, h) && Timely(start, es) && Tidy(cfg.TermsOf(h.Name()), Held(s, h), start)
    ensures Tidy(cfg.TermsOf(h.Name()), Held(LimiterRun(cfg, s, es), h), Clock(start, es))
  {
    var x, p := cfg.TermsOf(h.Name()), Project(cfg, s, es, h);
    HeldIsARun(cfg, s, es, h);
    ProjectIsTimely(cfg, s, es, h, start);
    TidyRun(x, h.Name(), Held(s, h), p, start);
    TidyStays(x, Held(LimiterRun(cfg, s, es), h), Clock(start, p), Clock(start, es));
  }

  lemma LoadedIsTidy<T>(x: Terms, m: map<Client, Account<T>>, k: Client, entry: (Bucket, Bucket), c: int, now: int)
    requires Tidy(x, AccountIn(m, k), c) && c <= now && 0 < now && 0 <= entry.0.at <= now && 0 <= entry.1.at <= now
    ensures Tidy(x, LoadedAccount(x.plan, m, k, entry, now), now)
  {
  }

  lemma ReadIsTidy<T>(cfg: Config, s: State<T>, file: StateFile, h: Holder, c: int, now: int)
    requires Covers(cfg, h) && Tidy(cfg.TermsOf(h.Name()), Held(s, h), c) && c <= now && 0 < now && Earlier(file, now)
    ensures Tidy(cfg.TermsOf(h.Name()), Held(LoadNext(cfg, s, file, now), h), now)
  {
    TidyStays(cfg.TermsOf(h.Name()), Held(s, h), c, now);
    if h.Own? && h.client in file {
      LoadedIsTidy(cfg.TermsOf(h.client), s.keys, h.client, file[h.client], c, now);
    }
  }

  /** What a limiter saves is not from the future. */
  lemma SavedIsEarlier<T>(cfg: Config, s: State<T>, c: int, t1: int, t2: int)
    requires forall k :: k in s.keys && cfg.Knows(k) ==> Tidy(cfg.TermsOf(k), s.keys[k], c)
    requires c <= t1 <= t2 && 0 < t1
    ensures Earlier(FileOf(cfg, s, t1), t2)
  {
  }

  /** Whatever a limiter has been through, sweeps, crowds, restarts and files read
      included, no level of any of its accounts exceeds the capacity once the lock
      is free; neither does the overflow account's. */
  lemma {:induction false} EveryAccountIsTidy<T>(cfg: Config, p: Past<T>, h: Holder)
    requires cfg.Valid() && Covers(cfg, h) && Possible(p)
    ensures Tidy(cfg.TermsOf(h.Name()), Held(StateOf(cfg, p), h), ClockOf(p))
    decreases p
  {
    match p {
      case Started =>
        FreshIsTidy<T>(cfg.TermsOf(h.Name()), 0);
      case Served(b, es) =>
        EveryAccountIsTidy(cfg, b, h);
        RunIsTidy(cfg, StateOf(cfg, b), es, h, ClockOf(b));
      case Restarted(b, t1, t2) =>
        forall k: Client | cfg.Knows(k)
          ensures Tidy(cfg.TermsOf(k), AccountIn(StateOf(cfg, b).keys, k), ClockOf(b))
        {
          EveryAccountIsTidy(cfg, b, Own(k));
        }
        ClockIsNonNegative(b);
        SavedIsEarlier(cfg, StateOf(cfg, b), ClockOf(b), t1, t2);
        FreshIsTidy<T>(cfg.TermsOf(h.Name()), t1);
        ReadIsTidy(cfg, Empty<T>(), FileOf(cfg, StateOf(cfg, b), t1), h, t1, t2);
      case Read(b, file, now) =>
        EveryAccountIsTidy(cfg, b, h);
        ReadIsTidy(cfg, StateOf(cfg, b), file, h, ClockOf(b), now);
    }
  }

  /** Only clients the configuration knows have accounts, and the overflow account
      exists only where anonymous clients are served. */
  ghost predicate OnlyKnown<T>(cfg: Config, s: State<T>) {
    (forall k :: k in s.keys ==> cfg.Knows(k)) && (s.overflow.Some? ==> cfg.anonymous.Some?)
  }

  lemma {:induction false} RunIsKnown<T>(cfg: Config, s: State<T>, es: seq<Event<T>>)
    requires OnlyKnown(cfg, s)
    ensures OnlyKnown(cfg, LimiterRun(cfg, s, es))
  {
    if |es| > 0 {
      RunIsKnown(cfg, s, es[..|es| - 1]);
    }
  }

  lemma {:induction false} PastIsKnown<T>(cfg: Config, p: Past<T>)
    ensures OnlyKnown(cfg, StateOf(cfg, p))
  {
    if !p.Started? {
      PastIsKnown(cfg, p.before);
    }
    if p.Served? {
      RunIsKnown(cfg, StateOf(cfg, p.before), p.es);
    }
  }

  // ---------------------------------------------- the laws, for every account

  /** No account has the ticket in flight. */
  ghost predicate Unused<T>(s: State<T>, t: T) {
    (forall c :: c in s.keys ==> t !in s.keys[c].flights) && (s.overflow.Some? ==> t !in s.overflow.value.flights)
  }

  /** Every admission gets a ticket of its own. */
  ghost predicate OwnTickets<T>(cfg: Config, s: State<T>, es: seq<Event<T>>) {
    |es| > 0 ==>
      && OwnTickets(cfg, s, es[..|es| - 1])
      && (es[|es| - 1].Admit? ==> Unused(LimiterRun(cfg, s, es[..|es| - 1]), es[|es| - 1].t))
  }

  lemma {:induction false} ProjectNamesAreFresh<T>(cfg: Config, s: State<T>, es: seq<Event<T>>, h: Holder)
    requires Covers(cfg, h) && OwnTickets(cfg, s, es)
    ensures FreshNames(cfg.TermsOf(h.Name()), h.Name(), Held(s, h), Project(cfg, s, es, h))
  {
    if |es| > 0 {
      var front := es[..|es| - 1];
      ProjectNamesAreFresh(cfg, s, front, h);
      ProjectLast(cfg, s, es, h);
      HeldIsARun(cfg, s, front, h);
    }
  }

  /** What the limiter takes out of an account over a run. */
  ghost function DebitsOf<T>(cfg: Config, s: State<T>, es: seq<Event<T>>, h: Holder): real
    requires Covers(cfg, h)
  {
    Debits(cfg.TermsOf(h.Name()), h.Name(), Held(s, h), Project(cfg, s, es, h))
  }

  /** What an event bills whoever is served on the account. */
  ghost function FacedBill<T>(cfg: Config, s: State<T>, h: Holder, e: Event<T>): real
    requires Covers(cfg, h)
  {
    if Mine(cfg, s, h, e).Some? then Bill(e, Facing(cfg, s, if e.Admit? then Own(e.client) else h, e)) else 0.0
  }

  /** What the holders of its tickets are billed. */
  ghost function BillsOf<T>(cfg: Config, s: State<T>, es: seq<Event<T>>, h: Holder): real
    requires Covers(cfg, h)
  {
    if |es| == 0 then 0.0
    else
      BillsOf(cfg, s, es[..|es| - 1], h) + FacedBill(cfg, LimiterRun(cfg, s, es[..|es| - 1]), h, es[|es| - 1])
  }

  lemma {:induction false} BillsAreFaced<T>(cfg: Config, s: State<T>, es: seq<Event<T>>, h: Holder)
    requires Covers(cfg, h)
    ensures BillsOf(cfg, s, es, h) == Bills(cfg.TermsOf(h.Name()), h.Name(), Held(s, h), Project(cfg, s, es, h))
  {
    if |es| > 0 {
      var front, e := es[..|es| - 1], es[|es| - 1];
      BillsAreFaced(cfg, s, front, h);
      ProjectLast(cfg, s, es, h);
      HeldIsARun(cfg, s, front, h);
      BillIsFaced(cfg, LimiterRun(cfg, s, front), h, e);
    }
  }

  lemma BillIsFaced<T>(cfg: Config, s: State<T>, h: Holder, e: Event<T>)
    requires Covers(cfg, h)
    ensures var m := Mine(cfg, s, h, e);
            m.Some? ==> Bill(m.value, Observe(cfg.TermsOf(h.Name()), h.Name(), Held(s, h), m.value)) == FacedBill(cfg, s, h, e)
  {
    if Mine(cfg, s, h, e).Some? {
      MineIsFaced(cfg, s, h, e);
    }
  }

  /** Conservation over every run of the limiter, for each client's account and the
      overflow account: what was taken out of it is what its finished tickets were
      billed, plus the unreadable simulations, plus the bases of the tickets still
      in flight. No sweep loses a credit. */
  lemma EveryLedgerBalances<T>(cfg: Config, s: State<T>, es: seq<Event<T>>, h: Holder)
    requires Covers(cfg, h) && OwnTickets(cfg, s, es)
    ensures DebitsOf(cfg, s, es, h) + Sum(Bases(Held(s, h).flights))
            == BillsOf(cfg, s, es, h) + Sum(Bases(Held(LimiterRun(cfg, s, es), h).flights))
  {
    ProjectNamesAreFresh(cfg, s, es, h);
    HeldIsARun(cfg, s, es, h);
    BillsAreFaced(cfg, s, es, h);
    LedgerBalances(cfg.TermsOf(h.Name()), h.Name(), Held(s, h), Project(cfg, s, es, h));
  }

  /** The account's bucket has not overflowed, or has nothing more to be billed. */
  ghost predicate Bounded<T>(cfg: Config, s: State<T>, h: Holder, now: int, daily: bool)
    requires Covers(cfg, h) && SideOf(cfg.TermsOf(h.Name()).plan, daily).Limited()
  {
    var x := cfg.TermsOf(h.Name());
    Unclamped(SideOf(x.plan, daily), Side(Held(s, h), daily), now) || AllBilled(x, Held(s, h))
  }

  /** The debits of a run are within the account's capacity, what accrues in the
      run's time, and the debt left. */
  ghost predicate KeepsAllowance<T>(cfg: Config, s: State<T>, es: seq<Event<T>>, h: Holder, start: int, daily: bool)
    requires Covers(cfg, h) && SideOf(cfg.TermsOf(h.Name()).plan, daily).Limited()
  {
    var w, left := SideOf(cfg.TermsOf(h.Name()).plan, daily), Side(Held(LimiterRun(cfg, s, es), h), daily);
    DebitsOf(cfg, s, es, h) <= w.capacity + w.Accrued(Clock(start, es) - start) + Max(0.0, -Stock(w, left))
  }

  lemma AllowanceOfRun<T>(cfg: Config, s: State<T>, es: seq<Event<T>>, h: Holder, start: int, daily: bool)
    requires cfg.Valid() && Covers(cfg, h) && Tidy(cfg.TermsOf(h.Name()), Held(s, h), start) && Timely(start, es)
    requires SideOf(cfg.TermsOf(h.Name()).plan, daily).Limited() && Bounded(cfg, s, h, start, daily)
    ensures KeepsAllowance(cfg, s, es, h, start, daily)
  {
    var x, mine := cfg.TermsOf(h.Name()), Project(cfg, s, es, h);
    HeldIsARun(cfg, s, es, h);
    ProjectIsTimely(cfg, s, es, h, start);
    BoundByThen(x, h.Name(), Held(s, h), mine, start, Clock(start, es), daily, Held(LimiterRun(cfg, s, es), h));
  }

  /** No account of a running limiter, the one the crowded share included, spends
      over its allowance, whatever is swept in between. */
  lemma EveryAllowanceHolds<T>(cfg: Config, p: Past<T>, es: seq<Event<T>>, h: Holder, daily: bool)
    requires cfg.Valid() && Covers(cfg, h) && Possible(p) && Timely(ClockOf(p), es)
    requires SideOf(cfg.TermsOf(h.Name()).plan, daily).Limited() && Bounded(cfg, StateOf(cfg, p), h, ClockOf(p), daily)
    ensures KeepsAllowance(cfg, StateOf(cfg, p), es, h, ClockOf(p), daily)
  {
    EveryAccountIsTidy(cfg, p, h);
    AllowanceOfRun(cfg, StateOf(cfg, p), es, h, ClockOf(p), daily);
  }

  lemma {:induction false} ProjectUndisturbed<T>(cfg: Config, s: State<T>, es: seq<Event<T>>, h: Holder, t: T)
    requires Undisturbed(es, t)
    ensures Undisturbed(Project(cfg, s, es, h), t)
  {
    if |es| > 0 {
      var front, e := es[..|es| - 1], es[|es| - 1];
      assert Undisturbed(front, t);
      ProjectUndisturbed(cfg, s, front, h, t);
      assert !((e.Admit? || e.Respond? || e.Finish?) && e.t == t);
    }
  }

  /** A ticket of any account is billed at its end the cost its response header
      gave, whatever the limiter does in between. */
  lemma EveryHeaderIsBill<T>(cfg: Config, s: State<T>, h: Holder, t: T, busy: bool, now: int, es: seq<Event<T>>, end: int)
    requires Covers(cfg, h) && t in Held(s, h).flights && Undisturbed(es, t)
    ensures var answer := Facing(cfg, s, h, Respond(t, busy, now));
            && answer.Answered?
            && Facing(cfg, LimiterRun(cfg, LimiterNext(cfg, s, Respond(t, busy, now)), es), h, Finish(t, end)) == Billed(answer.cost)
  {
    var s1 := LimiterNext(cfg, s, Respond(t, busy, now));
    HeldMoves(cfg, s, h, Respond(t, busy, now));
    HeldIsARun(cfg, s1, es, h);
    ProjectUndisturbed(cfg, s1, es, h, t);
    HeaderIsBill(cfg.TermsOf(h.Name()), h.Name(), Held(s, h), t, busy, now, Project(cfg, s1, es, h), end);
  }

  /** The cancellation of ticket t is among what is seen. */
  ghost predicate Stopping<T>(out: Output<T>, t: T) {
    out.Stopped? && t in out.ts
  }

  /** No ticket of any account is cancelled once its response has begun. */
  lemma NoStopOnceAnswered<T>(cfg: Config, s: State<T>, h: Holder, t: T, busy: bool, now: int, es: seq<Event<T>>, tick: int)
    requires Covers(cfg, h) && t in Held(s, h).flights && Undisturbed(es, t)
    ensures !Stopping(Facing(cfg, LimiterRun(cfg, LimiterNext(cfg, s, Respond(t, busy, now)), es), h, Tick(tick)), t)
  {
    var x, s1 := cfg.TermsOf(h.Name()), LimiterNext(cfg, s, Respond(t, busy, now));
    HeldMoves(cfg, s, h, Respond(t, busy, now));
    HeldIsARun(cfg, s1, es, h);
    ProjectUndisturbed(cfg, s1, es, h, t);
    FrozenStaysFrozen(x, h.Name(), Held(s1, h), Project(cfg, s1, es, h), t);
  }

  lemma {:induction false} ProjectElsewhere<T>(cfg: Config, s: State<T>, es: seq<Event<T>>, k: Client)
    requires Elsewhere(k, es)
    ensures Elsewhere(k, Project(cfg, s, es, Own(k)))
  {
    if |es| > 0 {
      var front := es[..|es| - 1];
      assert Elsewhere(k, front) && !(es[|es| - 1].Admit? && es[|es| - 1].client == k);
      ProjectElsewhere(cfg, s, front, k);
    }
  }

  /** Retry-After is exact in the running limiter. A client with an account of its
      own and nothing in flight, refused with a wait, passes from now + wait on and
      not before when the wait is over a second, whatever others do and however
      often it is swept or forgotten meanwhile, unless it finds the limiter crowded. */
  lemma RetryAfterHolds<T>(cfg: Config, p: Past<T>, k: Client, ask: Ask, t: T, now: int, es: seq<Event<T>>, d: int)
    requires cfg.Valid() && cfg.Knows(k) && Possible(p) && ClockOf(p) <= now && now > 0 && ask.cost >= 0.0
    requires var s := StateOf(cfg, p);
             && !Crowded(cfg, s, k) && AccountIn(s.keys, k).flights == map[]
             && AdmitVerdict(cfg.TermsOf(k).plan, AccountFor(cfg, s, k), ask, now).TooMany?
             && !Crowded(cfg, LimiterRun(cfg, LimiterNext(cfg, s, Admit(k, ask, t, now)), es), k)
    requires Timely(now, es) && Elsewhere(k, es) && Clock(now, es) <= now + d
    ensures var s := StateOf(cfg, p);
            var z := LimiterRun(cfg, LimiterNext(cfg, s, Admit(k, ask, t, now)), es);
            var wait := AdmitVerdict(cfg.TermsOf(k).plan, AccountFor(cfg, s, k), ask, now).wait;
            var later := AdmitVerdict(cfg.TermsOf(k).plan, AccountFor(cfg, z, k), ask, now + d);
            && (d >= wait ==> !later.TooMany?)
            && (d < wait && wait > SECOND ==> later.TooMany?)
  {
    var s := StateOf(cfg, p);
    EveryAccountIsTidy(cfg, p, Own(k));
    TidyStays(cfg.TermsOf(k), AccountIn(s.keys, k), ClockOf(p), now);
    RefusedInRun(cfg, s, k, ask, t, now, es, d);
  }

  lemma RefusedInRun<T>(cfg: Config, s: State<T>, k: Client, ask: Ask, t: T, now: int, es: seq<Event<T>>, d: int)
    requires cfg.Valid() && cfg.Knows(k) && now > 0 && ask.cost >= 0.0 && !Crowded(cfg, s, k)
    requires var a := AccountIn(s.keys, k);
             Tidy(cfg.TermsOf(k), a, now) && a.flights == map[] && AdmitVerdict(cfg.TermsOf(k).plan, a, ask, now).TooMany?
    requires Timely(now, es) && Elsewhere(k, es) && Clock(now, es) <= now + d
    ensures var z := Held(LimiterRun(cfg, LimiterNext(cfg, s, Admit(k, ask, t, now)), es), Own(k));
            var wait := AdmitVerdict(cfg.TermsOf(k).plan, AccountIn(s.keys, k), ask, now).wait;
            && (d >= wait ==> !AdmitVerdict(cfg.TermsOf(k).plan, z, ask, now + d).TooMany?)
            && (d < wait && wait > SECOND ==> AdmitVerdict(cfg.TermsOf(k).plan, z, ask, now + d).TooMany?)
  {
    var e: Event<T> := Admit(k, ask, t, now);
    var s1 := LimiterNext(cfg, s, e);
    HeldMoves(cfg, s, Own(k), e);
    HeldIsARun(cfg, s1, es, Own(k));
    ProjectIsTimely(cfg, s1, es, Own(k), now);
    ProjectElsewhere(cfg, s1, es, k);
    RetryAfterIsExact(cfg.TermsOf(k), k, AccountIn(s.keys, k), ask, t, now, Project(cfg, s1, es, Own(k)), d);
  }
}
