/** The limiter against its ideal: one account per client, never forgotten and
    never interrupted. Sweeping and restarting must not show. */
module LimiterLaws {
  import opened RateWindow
  import opened Requests
  import opened Accounts
  import opened AccountLaws
  import opened LimiterSpec
  import opened Holders

  // ------------------------------------------------------------- the ideal

  /** Everything the holder of an account sees of a limiter over a run, the sweeps
      left out. */
  ghost function Faced<T>(cfg: Config, s: State<T>, es: seq<Event<T>>, h: Holder): seq<Output<T>>
    requires Covers(cfg, h)
  {
    if |es| == 0 then []
    else
      var front, e := es[..|es| - 1], es[|es| - 1];
      Faced(cfg, s, front, h) + if e.Sweep? then [] else [Facing(cfg, LimiterRun(cfg, s, front), h, e)]
  }

  /** Everything clients see over a run, the sweeps themselves left out. */
  ghost function Trace<T(!new)>(cfg: Config, s: State<T>, es: seq<Event<T>>): seq<imap<Holder, Output<T>>> {
    if |es| == 0 then []
    else
      var front, e := es[..|es| - 1], es[|es| - 1];
      Trace(cfg, s, front) + if e.Sweep? then [] else [Seen(cfg, LimiterRun(cfg, s, front), e)]
  }

  /** At every admission of its own the client is tracked, or there is room to
      track it: it never shares the overflow account. Others may. */
  ghost predicate OwnRoom<T>(cfg: Config, s: State<T>, es: seq<Event<T>>, k: Client) {
    |es| > 0 ==>
      && OwnRoom(cfg, s, es[..|es| - 1], k)
      && (es[|es| - 1].Admit? && es[|es| - 1].client == k ==> !Crowded(cfg, LimiterRun(cfg, s, es[..|es| - 1]), k))
  }

  function Clients<T>(es: seq<Event<T>>): set<Client> {
    if |es| == 0 then {}
    else Clients(es[..|es| - 1]) + if es[|es| - 1].Admit? then {es[|es| - 1].client} else {}
  }

  function WithoutSweeps<T>(es: seq<Event<T>>): seq<Event<T>> {
    if |es| == 0 then []
    else WithoutSweeps(es[..|es| - 1]) + if es[|es| - 1].Sweep? then [] else [es[|es| - 1]]
  }

  // ----------------------------------------------------- indistinguishable

  /** Two accounts no later event can tell apart: equal, or both idle and equal
      once refilled. */
  ghost predicate Alike<T>(p: Plan, a: Account<T>, b: Account<T>, c: int) {
    a == b || (a.flights == map[] == b.flights && forall now :: now > 0 && now >= c ==> Refill(p, a, now) == Refill(p, b, now))
  }

  lemma AlikeStep<T>(x: Terms, me: Client, a: Account<T>, b: Account<T>, e: Event<T>, c: int)
    requires Alike(x.plan, a, b, c) && InOrder(e, c)
    ensures Observe(x, me, a, e) == Observe(x, me, b, e)
    ensures Alike(x.plan, Next(x, me, a, e), Next(x, me, b, e), When(e, c))
  {
    if a != b {
      assert e.Save? || e.Admit? || e.Sweep? ==> Refill(x.plan, a, e.now) == Refill(x.plan, b, e.now);
    }
  }

  /** Refilling an idle account does not show. */
  lemma RefilledIsAlike<T>(x: Terms, a: Account<T>, b: Account<T>, c: int, now: int)
    requires Alike(x.plan, a, b, c) && a.flights == map[] && Tidy(x, a, c) && c <= now && 0 < now
    ensures Alike(x.plan, Refill(x.plan, a, now), b, now)
  {
    forall later | later >= now
      ensures Refill(x.plan, Refill(x.plan, a, now), later) == Refill(x.plan, b, later)
    {
      RefillComposes(x.plan.minute, a.minute, now, later);
      RefillComposes(x.plan.day, a.day, now, later);
    }
  }

  /** Neither does forgetting one that is full again. */
  lemma ForgottenIsAlike<T>(x: Terms, a: Account<T>, b: Account<T>, c: int, now: int)
    requires Alike(x.plan, a, b, c) && Tidy(x, a, c) && c <= now && 0 < now
    requires Forgettable(x.plan, a, now)
    ensures Alike(x.plan, Fresh(), b, now)
  {
    RefilledIsAlike(x, a, b, c, now);
    FullIsNew(x.plan.minute, a.minute, now);
    FullIsNew(x.plan.day, a.day, now);
    var z: Account<T> := Fresh();
    assert Refill(x.plan, z, now) == Refill(x.plan, a, now);
    forall later | later >= now
      ensures Refill(x.plan, z, later) == Refill(x.plan, b, later)
    {
      RefillComposes(x.plan.minute, z.minute, now, later);
      RefillComposes(x.plan.day, z.day, now, later);
      RefillComposes(x.plan.minute, a.minute, now, later);
      RefillComposes(x.plan.day, a.day, now, later);
    }
  }

  // ---------------------------------------------------------- the relation

  /** The limiter and the ideal agree on a client at instant c. */
  ghost predicate Agrees<T>(cfg: Config, s: State<T>, k: Client, ideal: Account<T>, c: int)
    requires cfg.Knows(k)
  {
    Tidy(cfg.TermsOf(k), AccountIn(s.keys, k), c) && Alike(cfg.TermsOf(k).plan, AccountIn(s.keys, k), ideal, c)
  }

  /** One event keeps the agreement and shows the client what the ideal shows,
      whoever else is crowded, unless it is the client's own crowded admission. */
  lemma AgreementStep<T>(cfg: Config, s: State<T>, e: Event<T>, k: Client, ideal: Account<T>, c: int)
    requires cfg.Valid() && 0 <= c && cfg.Knows(k) && InOrder(e, c) && Agrees(cfg, s, k, ideal, c)
    requires e.Admit? && e.client == k ==> !Crowded(cfg, s, k)
    ensures Agrees(cfg, LimiterNext(cfg, s, e), k, if e.Sweep? then ideal else Next(cfg.TermsOf(k), k, ideal, e), When(e, c))
    ensures !e.Sweep? ==> Facing(cfg, s, Own(k), e) == Observe(cfg.TermsOf(k), k, ideal, e)
  {
    if e.Sweep? {
      SweptStep(cfg, s, e, k, ideal, c);
    } else if e.Admit? && e.client != k {
      StaysAlike(cfg.TermsOf(k), AccountIn(s.keys, k), ideal, c, e.now);
      ElsewhereStays(cfg, s, e, k);
    } else if k in s.keys || e.Admit? {
      TrackedStep(cfg, s, e, k);
      AlikeStep(cfg.TermsOf(k), k, AccountIn(s.keys, k), ideal, e, c);
      TidyStep(cfg.TermsOf(k), k, AccountIn(s.keys, k), e, c);
    } else {
      MissingStep(cfg, s, e, k, ideal, c);
    }
  }

  lemma SweptStep<T>(cfg: Config, s: State<T>, e: Event<T>, k: Client, ideal: Account<T>, c: int)
    requires 0 <= c && cfg.Knows(k) && InOrder(e, c) && Agrees(cfg, s, k, ideal, c) && e.Sweep?
    ensures Agrees(cfg, LimiterNext(cfg, s, e), k, ideal, e.now)
  {
    var x, a := cfg.TermsOf(k), AccountIn(s.keys, k);
    FreshIsTidy<T>(x, e.now);
    if k in s.keys && Forgettable(x.plan, a, e.now) {
      ForgottenIsAlike(x, a, ideal, c, e.now);
    } else if k in s.keys && a.flights == map[] {
      RefilledIsAlike(x, a, ideal, c, e.now);
      RefillIsTidy(x, a, c, e.now);
    } else {
      StaysAlike(x, a, ideal, c, e.now);
    }
  }

  /** Another client's admission, crowded or not. */
  lemma ElsewhereStays<T>(cfg: Config, s: State<T>, e: Event<T>, k: Client)
    requires cfg.Knows(k) && e.Admit? && e.client != k
    ensures AccountIn(LimiterNext(cfg, s, e).keys, k) == AccountIn(s.keys, k)
    ensures Facing(cfg, s, Own(k), e) == Silent
  {
  }

  /** A tracked client's account, or one that gets its own with its admission,
      moves by itself. */
  lemma TrackedStep<T>(cfg: Config, s: State<T>, e: Event<T>, k: Client)
    requires cfg.Knows(k) && !e.Sweep? && (k in s.keys || e.Admit?)
    requires e.Admit? ==> e.client == k && !Crowded(cfg, s, k)
    ensures AccountIn(LimiterNext(cfg, s, e).keys, k) == Next(cfg.TermsOf(k), k, AccountIn(s.keys, k), e)
    ensures Facing(cfg, s, Own(k), e) == Observe(cfg.TermsOf(k), k, AccountIn(s.keys, k), e)
  {
    if e.Admit? && Refused(cfg.TermsOf(k).plan, e.ask).Some? {
      assert AdmitNext(cfg.TermsOf(k).plan, AccountIn(s.keys, k), e.ask, e.t, e.now) == AccountIn(s.keys, k);
    }
  }

  lemma StaysAlike<T>(x: Terms, a: Account<T>, b: Account<T>, c: int, now: int)
    requires Alike(x.plan, a, b, c) && c <= now && Tidy(x, a, c)
    ensures Alike(x.plan, a, b, now) && Tidy(x, a, now)
  {
  }

  /** A client not tracked, when the event is no admission. */
  lemma MissingStep<T>(cfg: Config, s: State<T>, e: Event<T>, k: Client, ideal: Account<T>, c: int)
    requires cfg.Valid() && 0 <= c && cfg.Knows(k) && InOrder(e, c) && !e.Sweep? && !e.Admit?
    requires k !in s.keys && Alike(cfg.TermsOf(k).plan, Fresh(), ideal, c)
    ensures Agrees(cfg, LimiterNext(cfg, s, e), k, Next(cfg.TermsOf(k), k, ideal, e), When(e, c))
    ensures Facing(cfg, s, Own(k), e) == Observe(cfg.TermsOf(k), k, ideal, e)
  {
    var x := cfg.TermsOf(k);
    var z: Account<T> := Fresh();
    FreshIsTidy<T>(x, c);
    FreshIsTidy<T>(x, When(e, c));
    AlikeStep(x, k, z, ideal, e, c);
    TidyStep(x, k, z, e, c);
    if e.Save? {
      RefilledIsAlike(x, z, z, c, e.now);
      ForgottenIsAlike(x, Refill(x.plan, z, e.now), Next(x, k, ideal, e), e.now, e.now);
    }
  }

  /** Refinement over every run, client by client: a limiter that starts in
      agreement with a client's ideal account, to which no sweep happens, shows the
      client in every event exactly what the ideal would, sweeping whenever it likes and whoever shares
      the overflow account, as long as the client's own admissions do not. */
  lemma {:induction false} LimiterRefinesIdeal<T>(cfg: Config, s: State<T>, k: Client, ideal: Account<T>, start: int, es: seq<Event<T>>)
    requires cfg.Valid() && cfg.Knows(k) && Timely(start, es) && Agrees(cfg, s, k, ideal, start) && OwnRoom(cfg, s, es, k)
    ensures Agrees(cfg, LimiterRun(cfg, s, es), k, Run(cfg.TermsOf(k), k, ideal, WithoutSweeps(es)), Clock(start, es))
    ensures Faced(cfg, s, es, Own(k)) == Sights(cfg.TermsOf(k), k, ideal, WithoutSweeps(es))
  {
    if |es| > 0 {
      var front, e := es[..|es| - 1], es[|es| - 1];
      LimiterRefinesIdeal(cfg, s, k, ideal, start, front);
      ClockAdvances(start, front);
      AgreementStep(cfg, LimiterRun(cfg, s, front), e, k, Run(cfg.TermsOf(k), k, ideal, WithoutSweeps(front)), Clock(start, front));
      WithoutLast(es);
    }
  }

  lemma EmptyAgrees<T>(cfg: Config, k: Client, start: int)
    requires cfg.Knows(k) && 0 <= start
    ensures Agrees<T>(cfg, Empty(), k, Fresh(), start)
  {
    FreshIsTidy<T>(cfg.TermsOf(k), start);
  }

  lemma WithoutLast<T>(es: seq<Event<T>>)
    requires |es| > 0
    ensures var w, front, e := WithoutSweeps(es), es[..|es| - 1], es[|es| - 1];
            if e.Sweep? then w == WithoutSweeps(front)
            else |w| > 0 && w[..|w| - 1] == WithoutSweeps(front) && w[|w| - 1] == e
  {
  }

  lemma {:induction false} SweptTwice<T>(es: seq<Event<T>>)
    ensures WithoutSweeps(WithoutSweeps(es)) == WithoutSweeps(es)
  {
    if |es| > 0 {
      SweptTwice(es[..|es| - 1]);
      WithoutLast(es);
    }
  }

  lemma {:induction false} WithoutSweepsIsTimely<T>(start: int, es: seq<Event<T>>)
    requires Timely(start, es)
    ensures Timely(start, WithoutSweeps(es)) && Clock(start, WithoutSweeps(es)) <= Clock(start, es)
  {
    if |es| > 0 {
      WithoutSweepsIsTimely(start, es[..|es| - 1]);
      WithoutLast(es);
      if !es[|es| - 1].Sweep? {
        TimelyFurther(start, es, WithoutSweeps(es));
      }
    }
  }

  /** Sweeping is unobservable: a limiter swept at any moments makes the same
      admissions of a client with the same waits and levels, sends it the same
      answers, makes the same cancellations and saves the same entry as one never
      swept, in every run in which the client finds room in both. */
  lemma SweepIsUnobservable<T>(cfg: Config, es: seq<Event<T>>, k: Client)
    requires cfg.Valid() && cfg.Knows(k) && Timely(0, es)
    requires OwnRoom<T>(cfg, Empty(), es, k) && OwnRoom<T>(cfg, Empty(), WithoutSweeps(es), k)
    ensures Faced(cfg, Empty(), es, Own(k)) == Faced(cfg, Empty(), WithoutSweeps(es), Own(k))
  {
    var s: State<T> := Empty();
    EmptyAgrees<T>(cfg, k, 0);
    SweptTwice(es);
    WithoutSweepsIsTimely(0, es);
    LimiterRefinesIdeal(cfg, s, k, Fresh(), 0, es);
    LimiterRefinesIdeal(cfg, s, k, Fresh(), 0, WithoutSweeps(es));
  }

  lemma {:induction false} TokensHaveRoom<T>(cfg: Config, s: State<T>, es: seq<Event<T>>, k: Client)
    requires k.Token?
    ensures OwnRoom(cfg, s, es, k)
  {
    if |es| > 0 {
      TokensHaveRoom(cfg, s, es[..|es| - 1], k);
    }
  }

  /** A client with a token never sees a sweep, however crowded the limiter. */
  lemma TokensNeverSeeSweeps<T>(cfg: Config, es: seq<Event<T>>, k: Client)
    requires cfg.Valid() && cfg.Knows(k) && Timely(0, es) && k.Token?
    ensures Faced(cfg, Empty(), es, Own(k)) == Faced(cfg, Empty(), WithoutSweeps(es), Own(k))
  {
    TokensHaveRoom<T>(cfg, Empty(), es, k);
    TokensHaveRoom<T>(cfg, Empty(), WithoutSweeps(es), k);
    SweepIsUnobservable(cfg, es, k);
  }

  /** The window has all it can hold. */
  predicate Brimful(w: Window, level: real) {
    w.capacity > 0.0 && w.period > 0 ==> level >= w.capacity
  }

  /** The account has nothing in flight and, refilled, all its windows can hold. */
  ghost predicate Spared<T>(p: Plan, a: Account<T>, now: int) {
    a.flights == map[] && Brimful(p.minute, p.minute.Refill(a.minute, now).level) && Brimful(p.day, p.day.Refill(a.day, now).level)
  }

  /** A sweep forgets exactly the clients with nothing in flight and a full allowance,
      and the overflow account in the same state once it has left fewer than MaxKeys. */
  lemma SweepForgetsExactly<T>(cfg: Config, s: State<T>, now: int, k: Client)
    requires OnlyKnown(cfg, s) && cfg.Knows(k)
    ensures var z := LimiterNext(cfg, s, Sweep(now));
            && (k in z.keys <==> k in s.keys && !Spared(cfg.TermsOf(k).plan, s.keys[k], now))
            && (z.overflow.None? <==> s.overflow.None? || (|z.keys| < cfg.maxKeys && Spared(cfg.anonymous.value, s.overflow.value, now)))
  {
  }

  /** A save writes exactly the clients whose allowance, less what their requests in
      flight have run up, is not full, and that much of it. */
  lemma SaveWritesExactly<T>(cfg: Config, s: State<T>, now: int, k: Client)
    requires cfg.Knows(k) && k in s.keys
    ensures var p, a := cfg.TermsOf(k).plan, s.keys[k];
            var minute, day := p.minute.Refill(a.minute, now).level - Owed(a.flights), p.day.Refill(a.day, now).level - Owed(a.flights);
            && (k in FileOf(cfg, s, now) <==> !(Brimful(p.minute, minute) && Brimful(p.day, day)))
            && (k in FileOf(cfg, s, now) && p.minute.Limited() ==> FileOf(cfg, s, now)[k].0.level == minute)
            && (k in FileOf(cfg, s, now) && p.day.Limited() ==> FileOf(cfg, s, now)[k].1.level == day)
  {
  }

  /** A load drops the clients the configuration does not know, and touches no other
      client than the file's. */
  lemma LoadKeepsExactly<T>(cfg: Config, s: State<T>, file: StateFile, now: int, k: Client)
    ensures var z := LoadNext(cfg, s, file, now);
            && (k in z.keys <==> k in s.keys || (k in file && cfg.Knows(k)))
            && (k in s.keys && k !in file ==> z.keys[k] == s.keys[k]) && z.overflow == s.overflow
  {
  }

  // --------------------------------------------------------------- restart

  /** The accounts at a restart: refilled, and every request in flight billed
      what it has run up and gone. */
  ghost function Settled<T>(cfg: Config, s: State<T>, now: int): map<Client, Account<T>> {
    map c | c in s.keys && cfg.Knows(c) :: SettledAccount(cfg.TermsOf(c).plan, s.keys[c], now)
  }

  ghost function SettledAccount<T>(p: Plan, a: Account<T>, now: int): Account<T> {
    Charge(p, Refill(p, a, now), Owed(a.flights)).(flights := map[])
  }

  lemma SettledIsTidy<T>(x: Terms, a: Account<T>, c: int, now: int)
    requires Tidy(x, a, c) && c <= now && 0 < now
    ensures Tidy(x, SettledAccount(x.plan, a, now), now)
  {
    OwedIsNonNegative(Extras(a.flights));
  }

  /** One client across a save at t1 and a load at t2 into a new limiter. */
  lemma LoadedIsAlike<T>(x: Terms, a: Account<T>, c: int, t1: int, t2: int)
    requires Tidy(x, a, c) && c <= t1 <= t2 && 0 < t1
    ensures var z := SettledAccount(x.plan, a, t1);
            match SaveEntry(x.plan, a, t1)
            case Some(entry) => Alike(x.plan, Refill(x.plan, Stored<T>(entry), t2), z, t2)
                                && Tidy(x, Refill(x.plan, Stored<T>(entry), t2), t2)
            case None => Alike(x.plan, Fresh(), z, t2)
  {
    var z := SettledAccount(x.plan, a, t1);
    SettledIsTidy(x, a, c, t1);
    match SaveEntry(x.plan, a, t1) {
      case Some(entry) =>
        assert Stored<T>(entry) == z;
        RefilledIsAlike(x, z, z, t1, t2);
        RefillIsTidy(x, z, t1, t2);
      case None =>
        RefillOfFull(x.plan.minute, z.minute, t1);
        RefillOfFull(x.plan.day, z.day, t1);
        ForgottenIsAlike(x, z, z, t1, t1);
    }
  }

  lemma RefillOfFull(w: Window, b: Bucket, now: int)
    requires w.Full(b) && b.at == now && 0 < now
    ensures w.Full(w.Refill(b, now))
  {
  }

  /** A limiter loaded at t2 from what another saved at t1 agrees with the
      uninterrupted one on every client, its requests in flight billed as they
      stood. */
  lemma LoadedAgrees<T>(cfg: Config, p: Past<T>, k: Client, t1: int, t2: int)
    requires cfg.Valid() && cfg.Knows(k) && Possible(p) && ClockOf(p) <= t1 <= t2 && 0 < t1
    ensures Agrees(cfg, StateOf(cfg, Restarted(p, t1, t2)), k, AccountIn(Settled(cfg, StateOf(cfg, p), t1), k), t2)
  {
    var s := StateOf(cfg, p);
    EveryAccountIsTidy(cfg, p, Own(k));
    FreshIsTidy<T>(cfg.TermsOf(k), t2);
    if k in s.keys {
      LoadedIsAlike(cfg.TermsOf(k), s.keys[k], ClockOf(p), t1, t2);
    }
  }

  /** Restart transparency: from the load on, every client with room sees in every
      event what it would have seen of an ideal account that went on without the
      interruption, with what was in flight counted as spent. */
  lemma RestartIsTransparent<T>(cfg: Config, p: Past<T>, k: Client, t1: int, t2: int, es: seq<Event<T>>)
    requires cfg.Valid() && cfg.Knows(k) && Possible(p) && ClockOf(p) <= t1 <= t2 && 0 < t1 && Timely(t2, es)
    requires OwnRoom(cfg, StateOf(cfg, Restarted(p, t1, t2)), es, k)
    ensures Faced(cfg, StateOf(cfg, Restarted(p, t1, t2)), es, Own(k))
            == Sights(cfg.TermsOf(k), k, AccountIn(Settled(cfg, StateOf(cfg, p), t1), k), WithoutSweeps(es))
  {
    LoadedAgrees(cfg, p, k, t1, t2);
    LimiterRefinesIdeal(cfg, StateOf(cfg, Restarted(p, t1, t2)), k, AccountIn(Settled(cfg, StateOf(cfg, p), t1), k), t2, es);
  }

  /** To a client with nothing in flight a restart does not show at all: the
      limiter that was saved and loaded and the one that kept running face it
      alike, whatever others have in flight or share. */
  lemma IdleRestartIsUnobservable<T>(cfg: Config, p: Past<T>, k: Client, t1: int, t2: int, es: seq<Event<T>>)
    requires cfg.Valid() && cfg.Knows(k) && Possible(p) && ClockOf(p) <= t1 <= t2 && 0 < t1 && Timely(t2, es)
    requires AccountIn(StateOf(cfg, p).keys, k).flights == map[]
    requires OwnRoom(cfg, StateOf(cfg, Restarted(p, t1, t2)), es, k) && OwnRoom(cfg, StateOf(cfg, p), es, k)
    ensures Faced(cfg, StateOf(cfg, Restarted(p, t1, t2)), es, Own(k)) == Faced(cfg, StateOf(cfg, p), es, Own(k))
  {
    var s := StateOf(cfg, p);
    RestartIsTransparent(cfg, p, k, t1, t2, es);
    ClockIsNonNegative(p);
    EveryAccountIsTidy(cfg, p, Own(k));
    if k in s.keys {
      IdleAccountIsSettled(cfg.TermsOf(k), s.keys[k], ClockOf(p), t1, t2);
    } else {
      EmptyAgrees<T>(cfg, k, t2);
    }
    LimiterRefinesIdeal(cfg, s, k, AccountIn(Settled(cfg, s, t1), k), t2, es);
  }

  /** A file loaded into a limiter that already serves: a client of the file sees
      from then on what the ideal would show of the loaded account, which has the
      lower level of each limited window and its requests still in flight. What it
      spent since the start is not taken off the saved level. */
  lemma LoadIntoServing<T>(cfg: Config, p: Past<T>, file: StateFile, k: Client, now: int, es: seq<Event<T>>)
    requires cfg.Valid() && cfg.Knows(k) && k in file && Possible(Read(p, file, now)) && Timely(now, es)
    requires OwnRoom(cfg, StateOf(cfg, Read(p, file, now)), es, k)
    ensures var plan, l, was := cfg.TermsOf(k).plan, StateOf(cfg, Read(p, file, now)), AccountIn(StateOf(cfg, p).keys, k);
            var a := AccountIn(l.keys, k);
            && Faced(cfg, l, es, Own(k)) == Sights(cfg.TermsOf(k), k, a, WithoutSweeps(es))
            && a.flights == was.flights
            && (plan.minute.Limited() ==>
                  a.minute.level == LowerLevel(plan.minute, k in StateOf(cfg, p).keys, was.minute, file[k].0, now))
            && (plan.day.Limited() ==>
                  a.day.level == LowerLevel(plan.day, k in StateOf(cfg, p).keys, was.day, file[k].1, now))
  {
    var l := StateOf(cfg, Read(p, file, now));
    EveryAccountIsTidy(cfg, Read(p, file, now), Own(k));
    LimiterRefinesIdeal(cfg, l, k, AccountIn(l.keys, k), now, es);
  }

  /** A client's level after a load: the saved one, or the lower of it and the
      client's present one. */
  function LowerLevel(w: Window, tracked: bool, b: Bucket, saved: Bucket, now: int): real {
    if tracked then Min(w.Refill(b, now).level, w.Refill(saved, now).level) else w.Refill(saved, now).level
  }

  lemma IdleAccountIsSettled<T>(x: Terms, a: Account<T>, c: int, t1: int, t2: int)
    requires Tidy(x, a, c) && c <= t1 <= t2 && 0 < t1 && a.flights == map[]
    ensures Alike(x.plan, a, SettledAccount(x.plan, a, t1), t2) && Tidy(x, a, t2)
  {
    assert Extras(a.flights) == map[];
    ChargeNothing(x.plan, Refill(x.plan, a, t1));
    RefilledIsAlike(x, a, a, c, t1);
  }

  lemma ChargeNothing<T>(p: Plan, a: Account<T>)
    ensures Charge(p, a, 0.0) == a
  {
  }

  // ------------------------------------------------- no ticket is ever lost

  predicate InAccount<T>(s: State<T>, c: Client, t: T) {
    t in AccountIn(s.keys, c).flights
  }

  predicate InShared<T>(s: State<T>, t: T) {
    s.overflow.Some? && t in s.overflow.value.flights
  }

  /** The event is client c's own admission of t. */
  ghost predicate Admits<T>(cfg: Config, s: State<T>, e: Event<T>, c: Client, t: T) {
    e.Admit? && e.client == c && e.t == t && cfg.Knows(c)
    && AdmitVerdict(cfg.TermsOf(c).plan, AccountFor(cfg, s, c), e.ask, e.now).Admitted?
  }

  ghost predicate Finishes<T>(e: Event<T>, t: T) {
    e.Finish? && e.t == t
  }

  lemma FlightsOfNext<T>(x: Terms, me: Client, a: Account<T>, e: Event<T>, t: T)
    requires !e.Admit?
    ensures t in Next(x, me, a, e).flights <==> t in a.flights && !Finishes(e, t)
  {
  }

  lemma FlightsOfAdmission<T>(p: Plan, a: Account<T>, ask: Ask, t: T, now: int, u: T)
    ensures u in AdmitNext(p, a, ask, t, now).flights <==> u in a.flights || (u == t && AdmitVerdict(p, a, ask, now).Admitted?)
  {
  }

  lemma TicketAdmitted<T>(cfg: Config, s: State<T>, k: Client, ask: Ask, u: T, now: int, t: T)
    requires cfg.Knows(k) && Refused(cfg.TermsOf(k).plan, ask).None?
    ensures var e: Event<T> := Admit(k, ask, u, now);
            t in AdmitNext(cfg.TermsOf(k).plan, AccountFor(cfg, s, k), ask, u, now).flights <==>
              t in AccountFor(cfg, s, k).flights || Admits(cfg, s, e, k, t)
  {
    FlightsOfAdmission(cfg.TermsOf(k).plan, AccountFor(cfg, s, k), ask, u, now, t);
  }

  lemma TicketOnAdmission<T>(cfg: Config, s: State<T>, e: Event<T>, c: Client, t: T)
    requires e.Admit?
    ensures var s' := LimiterNext(cfg, s, e);
            && (InAccount(s', c, t) <==> InAccount(s, c, t) || (Admits(cfg, s, e, c, t) && !Crowded(cfg, s, c)))
            && (InShared(s', t) <==> InShared(s, t) || (Admits(cfg, s, e, e.client, t) && Crowded(cfg, s, e.client)))
  {
    var k := e.client;
    if cfg.Knows(k) && Refused(cfg.TermsOf(k).plan, e.ask).None? {
      TicketAdmitted(cfg, s, k, e.ask, e.t, e.now, t);
    }
  }

  lemma TicketOnSweep<T>(cfg: Config, s: State<T>, now: int, c: Client, t: T)
    requires OnlyKnown(cfg, s)
    ensures InAccount(SweepNext(cfg, s, now), c, t) <==> InAccount(s, c, t)
    ensures InShared(SweepNext(cfg, s, now), t) <==> InShared(s, t)
  {
  }

  lemma TicketOnEach<T>(cfg: Config, s: State<T>, e: Event<T>, c: Client, t: T)
    requires !e.Admit? && !e.Sweep? && OnlyKnown(cfg, s)
    ensures InAccount(EachNext(cfg, s, e), c, t) <==> InAccount(s, c, t) && !Finishes(e, t)
    ensures InShared(EachNext(cfg, s, e), t) <==> InShared(s, t) && !Finishes(e, t)
  {
    if c in s.keys {
      FlightsOfNext(cfg.TermsOf(c), c, s.keys[c], e, t);
    }
    if s.overflow.Some? {
      FlightsOfNext(cfg.TermsOf(SHARED), SHARED, s.overflow.value, e, t);
    }
  }

  /** An account holds a ticket after an event exactly when it held it before or
      admitted it, and the event is not the ticket's own finish. No sweep, save,
      tick or overflow loses the account of a request in flight, so its bill
      always has an account to go to. */
  lemma NoTicketIsLost<T>(cfg: Config, p: Past<T>, e: Event<T>, c: Client, t: T)
    ensures var s, s' := StateOf(cfg, p), LimiterNext(cfg, StateOf(cfg, p), e);
            && (InAccount(s', c, t) <==>
                  (InAccount(s, c, t) || (Admits(cfg, s, e, c, t) && !Crowded(cfg, s, c))) && !Finishes(e, t))
            && (InShared(s', t) <==>
                  (InShared(s, t) || (e.Admit? && Admits(cfg, s, e, e.client, t) && Crowded(cfg, s, e.client))) && !Finishes(e, t))
  {
    var s := StateOf(cfg, p);
    PastIsKnown(cfg, p);
    match e {
      case Admit(_, _, _, _) =>
        TicketOnAdmission(cfg, s, e, c, t);
      case Sweep(now) =>
        TicketOnSweep(cfg, s, now, c, t);
      case _ =>
        TicketOnEach(cfg, s, e, c, t);
    }
  }
}
