/** The rate limiter in place: the Ticket, limitKey and Limiter of
    internal/app/ratelimit.go, every method proved against LimiterSpec. A
    method is one section under the limiter's lock; `now` is its clock
    reading. */
module Limiters {
  import opened RateWindow
  import opened Requests
  import opened Accounts
  import AccountLaws

  import opened LimiterSpec

  /** One admitted request's account with its client. */
  class Ticket {
    const owner: Limiter
    const key: LimitKey
    const metered: bool
    const start: int
    var base: real
    var extra: real
    var frozen: bool
    var effort: Effort
    var reported: bool
    var refunded: bool
    var cancellable: bool
    var cancelled: bool
    var done: bool

    ghost function View(): Flight
      reads this
    {
      Flight(base, metered, start, extra, frozen, effort, reported, refunded, cancellable, cancelled)
    }

    constructor (owner: Limiter, key: LimitKey, ask: Ask, now: int)
      ensures View() == NewFlight(ask, now) && !done && this.owner == owner && this.key == key && metered == ask.metered
    {
      this.owner, this.key, metered, start := owner, key, ask.metered, now;
      base, extra, frozen, effort, reported := ask.cost, 0.0, false, NO_EFFORT, false;
      refunded, cancellable, cancelled, done := false, false, false, false;
    }

    /** Admitted by its owner and not done. */
    ghost predicate Open()
      reads this, owner, key
    {
      key in owner.Keys() && this in key.flights && !done
    }

    /** Adds the work a mesh node reported for one attempt. */
    method Reported(e: Effort)
      requires owner.Valid() && Open()
      modifies this`effort, this`reported
      ensures owner.Valid() && Open() && owner.OnlyAt(key)
      ensures key.View() == Next(owner.TermsOf(key), SHARED, old(key.View()), Report(this, e))
    {
      effort, reported := effort.Add(e), true;
      assert key.View().flights == old(key.View()).flights[this := View()];
    }

    /** Lets the limiter cancel the request. */
    method Tracked()
      requires owner.Valid() && Open()
      modifies this`cancellable
      ensures owner.Valid() && Open() && owner.OnlyAt(key)
      ensures key.View() == Next(owner.TermsOf(key), SHARED, old(key.View()), Track(this))
    {
      cancellable := true;
      assert key.View().flights == old(key.View()).flights[this := View()];
    }

    method Settle(x: Terms, now: int)
      modifies this`extra
      ensures View() == Accounts.Settle(x, old(View()), now)
    {
      if frozen {
      } else if reported {
        extra := x.rates.Credits(effort);
      } else if metered {
        extra := Max(Seconds(now - start), 0.0) * x.perSecond;
      }
    }

    /** Gives back the base of a request that did no work, down to the default
        weight, and stops its meter. */
    method Refund(x: Terms)
      requires x.plan == key.plan
      modifies this`base, this`extra, this`frozen, this`refunded, key`minute, key`day
      ensures View() == Accounts.Refund(x, old(View()))
      ensures key.minute == x.plan.minute.Take(old(key.minute), -Back(x, old(View())))
      ensures key.day == x.plan.day.Take(old(key.day), -Back(x, old(View())))
    {
      var back := base - x.Floor();
      if back > 0.0 {
        key.Charge(-back);
        base := x.Floor();
      }
      extra, frozen, refunded := 0.0, true, true;
    }

    /** The ticket's side of Responding. */
    method Freeze(x: Terms, busy: bool, now: int)
      requires x.plan == key.plan
      modifies this`base, this`extra, this`frozen, this`refunded, key`minute, key`day
      ensures View() == Accounts.Responding(x, old(View()), busy, now)
      ensures var back := if Idle(old(View()), busy) then -Back(x, old(View())) else 0.0;
              && key.minute == x.plan.minute.Take(old(key.minute), back)
              && key.day == x.plan.day.Take(old(key.day), back)
    {
      if busy && !reported && !refunded {
        Refund(x);
      }
      Settle(x, now);
      frozen := true;
    }

    /** The key's side of Responding. */
    method StopMeter(x: Terms, busy: bool, now: int) returns (header: Header, cost: real)
      requires x.plan == key.plan && this in key.flights
      modifies this`base, this`extra, this`frozen, this`refunded, key`minute, key`day
      ensures key.View() == RespondNext(x, old(key.View()), this, busy, now)
      ensures header == HeaderOf(key.plan, key.View()) && cost == View().Cost()
    {
      ghost var was := key.View();
      Freeze(x, busy, now);
      assert key.View().flights == was.flights[this := View()];
      RespondParts(x, was, this, busy, now, key.View());
      key.Refill(now);
      header := key.CurrentHeader();
      cost := base + extra;
    }

    /** The response headers go out: the meter stops, a busy answer is refunded,
        and the client is told where it stands and what the request cost. */
    method Responding(busy: bool, now: int) returns (header: Header, cost: real)
      requires owner.Valid() && Open()
      modifies this`base, this`extra, this`frozen, this`refunded, key`minute, key`day
      ensures owner.Valid() && Open() && owner.OnlyAt(key)
      ensures key.View() == RespondNext(owner.TermsOf(key), old(key.View()), this, busy, now)
      ensures header == HeaderOf(key.plan, key.View()) && cost == View().Cost()
    {
      header, cost := StopMeter(owner.TermsOf(key), busy, now);
      owner.OnlyAtKey(key);
      owner.StillValid();
    }

    /** The key's side of Done. */
    method Bill(x: Terms, now: int)
      requires x.plan == key.plan && this in key.flights
      modifies this`extra, this`done, key
      ensures key.View() == FinishNext(x, old(key.View()), this, now) && key.flights == old(key.flights) - {this}
      ensures done && View() == Accounts.Settle(x, old(View()), now)
    {
      done := true;
      Settle(x, now);
      key.flights := key.flights - {this};
      key.Charge(extra);
      assert key.View().flights == old(key.View()).flights - {this};
    }

    /** The limiter's side of Done. */
    method Close(now: int)
      requires owner.Valid() && Open()
      modifies this`extra, this`done, key, owner`active
      ensures owner.Valid() && done && owner.OnlyAt(key)
      ensures key.View() == FinishNext(owner.TermsOf(key), old(key.View()), this, now)
      ensures View() == Accounts.Settle(owner.TermsOf(key), old(View()), now)
    {
      Bill(owner.TermsOf(key), now);
      forall k | k in owner.Keys() && k != key
        ensures k.View() == old(k.View())
      {
        assert this !in k.flights;
      }
      owner.Recheck(key);
    }

    /** Bills what the request ran up and ends its account, once. */
    method Done(now: int) returns (billed: Option<real>)
      requires owner.Valid() && (done || Open())
      modifies this`extra, this`done, key, owner`active
      ensures owner.Valid() && done
      ensures old(done) ==> billed.None? && unchanged(key) && unchanged(owner) && unchanged(this)
      ensures !old(done) ==> owner.OnlyAt(key)
      ensures !old(done) ==> key.View() == FinishNext(owner.TermsOf(key), old(key.View()), this, now)
      ensures !old(done) ==> billed == Some(Accounts.Settle(owner.TermsOf(key), old(View()), now).Cost())
    {
      if done { return None; }
      Close(now);
      return Some(base + extra);
    }

    /** The answer to a simulation cancelled for an exhausted allowance. */
    method Exhausted(now: int) returns (wait: int, header: Header)
      requires owner.Valid() && Open()
      modifies key`minute, key`day
      ensures owner.Valid() && Open() && owner.OnlyAt(key)
      ensures key.View() == Accounts.Refill(key.plan, old(key.View()), now)
      ensures header == HeaderOf(key.plan, key.View())
      ensures wait == AtLeastASecond(Shortfall(key.plan, key.View(), base))
    {
      wait, header := key.WhereItStands(base, now);
      owner.OnlyAtKey(key);
      owner.StillValid();
    }
  }

  lemma RespondParts<T>(x: Terms, a: Account<T>, t: T, busy: bool, now: int, b: Account<T>)
    requires t in a.flights
    requires b.flights == a.flights[t := Accounts.Responding(x, a.flights[t], busy, now)]
    requires var back := if Idle(a.flights[t], busy) then -Back(x, a.flights[t]) else 0.0;
             && b.minute == x.plan.minute.Take(a.minute, back)
             && b.day == x.plan.day.Take(a.day, back)
    ensures RespondNext(x, a, t, busy, now) == Accounts.Refill(x.plan, b, now)
  {
  }

  /** The accounts partway through a sweep. */
  ghost predicate PartlySwept<T>(cfg: Config, before: map<Client, Account<T>>, m: map<Client, Account<T>>, rest: set<Client>, now: int) {
    && (forall c :: c in before ==> cfg.Knows(c))
    && rest <= before.Keys && m.Keys <= before.Keys
    && (forall c :: c in rest ==> c in m && m[c] == before[c])
    && (forall c :: c in before && c !in rest ==> (c in m <==> !Forgettable(cfg.TermsOf(c).plan, before[c], now)))
    && (forall c :: c in m && c !in rest ==> m[c] == SweptAccount(cfg.TermsOf(c).plan, before[c], now))
  }

  lemma SweptFurther<T>(cfg: Config, before: map<Client, Account<T>>, m: map<Client, Account<T>>, rest: set<Client>, now: int, c: Client)
    requires PartlySwept(cfg, before, m, rest, now) && c in rest
    ensures var p := cfg.TermsOf(c).plan;
            var m' := m[c := SweptAccount(p, m[c], now)];
            PartlySwept(cfg, before, if Forgettable(p, m[c], now) then m' - {c} else m', rest - {c}, now)
  {
  }

  lemma SweptThrough<T>(cfg: Config, before: map<Client, Account<T>>, m: map<Client, Account<T>>, now: int)
    requires PartlySwept(cfg, before, m, {}, now)
    ensures m == SweptKeys(cfg, before, now)
  {
  }

  /** The accounts and the file partway through a save. */
  ghost predicate PartlySaved<T>(cfg: Config, before: map<Client, Account<T>>, m: map<Client, Account<T>>, file: StateFile,
                                 rest: set<Client>, now: int) {
    && m.Keys == before.Keys && rest <= before.Keys && file.Keys <= before.Keys - rest
    && (forall c :: c in before ==> cfg.Knows(c))
    && (forall c :: c in rest ==> m[c] == before[c])
    && (forall c :: c in before && c !in rest ==>
          && m[c] == Accounts.Refill(cfg.TermsOf(c).plan, before[c], now)
          && SaveEntry(cfg.TermsOf(c).plan, before[c], now) == if c in file then Some(file[c]) else None)
  }

  lemma SavedFurther<T>(cfg: Config, before: map<Client, Account<T>>, m: map<Client, Account<T>>, file: StateFile,
                        rest: set<Client>, now: int, c: Client)
    requires PartlySaved(cfg, before, m, file, rest, now) && c in rest
    ensures var p := cfg.TermsOf(c).plan;
            var entry := SaveEntry(p, m[c], now);
            PartlySaved(cfg, before, m[c := Accounts.Refill(p, m[c], now)],
                        if entry.Some? then file[c := entry.value] else file, rest - {c}, now)
  {
  }

  lemma SavedFile<T>(cfg: Config, s: State<T>, m: map<Client, Account<T>>, file: StateFile, now: int)
    requires PartlySaved(cfg, s.keys, m, file, {}, now)
    ensures file == FileOf(cfg, s, now)
  {
  }

  lemma SavedKeys<T>(cfg: Config, s: State<T>, m: map<Client, Account<T>>, file: StateFile, now: int)
    requires PartlySaved(cfg, s.keys, m, file, {}, now)
    ensures m == EachNext(cfg, s, Accounts.Save(now)).keys
  {
  }

  lemma SavedThrough<T>(cfg: Config, s: State<T>, s': State<T>, file: StateFile, now: int)
    requires PartlySaved(cfg, s.keys, s'.keys, file, {}, now) && s'.overflow == s.overflow
    ensures s' == LimiterNext(cfg, s, Accounts.Save(now))
    ensures file == FileOf(cfg, s, now)
  {
    SavedKeys(cfg, s, s'.keys, file, now);
    SavedFile(cfg, s, s'.keys, file, now);
  }

  /** The accounts partway through a load. */
  ghost predicate PartlyLoaded<T>(cfg: Config, before: map<Client, Account<T>>, m: map<Client, Account<T>>, file: StateFile,
                                  rest: set<Client>, now: int) {
    && rest <= file.Keys
    && (forall c :: c in m <==> c in before || (c in file && c !in rest && cfg.Knows(c)))
    && (forall c :: c in m && c in file && c !in rest && cfg.Knows(c) ==>
          m[c] == LoadedAccount(cfg.TermsOf(c).plan, before, c, file[c], now))
    && (forall c :: c in m && !(c in file && c !in rest && cfg.Knows(c)) ==> m[c] == before[c])
  }

  lemma LoadedFurther<T>(cfg: Config, before: map<Client, Account<T>>, m: map<Client, Account<T>>, file: StateFile,
                         rest: set<Client>, now: int, c: Client)
    requires PartlyLoaded(cfg, before, m, file, rest, now) && c in rest
    ensures PartlyLoaded(cfg, before,
              if cfg.Knows(c) then m[c := LoadedAccount(cfg.TermsOf(c).plan, m, c, file[c], now)] else m,
              file, rest - {c}, now)
  {
  }

  lemma LoadedThrough<T>(cfg: Config, s: State<T>, s': State<T>, file: StateFile, now: int)
    requires PartlyLoaded(cfg, s.keys, s'.keys, file, {}, now) && s'.overflow == s.overflow
    ensures s' == LoadNext(cfg, s, file, now)
  {
  }

  lemma Overwritten<A, B>(m: map<A, B>, a: A, x: B, y: B)
    ensures m[a := x][a := y] == m[a := y]
  {
  }

  function WithFlight<T>(a: Account<T>, t: T, f: Flight): Account<T> {
    a.(flights := a.flights[t := f])
  }

  lemma EachNextIs<T>(cfg: Config, s: State<T>, s': State<T>, e: Event<T>)
    requires !e.Admit? && !e.Sweep?
    requires s'.keys.Keys == s.keys.Keys && forall c :: c in s.keys ==> cfg.Knows(c)
    requires forall c :: c in s.keys ==> s'.keys[c] == Next(cfg.TermsOf(c), c, s.keys[c], e)
    requires s.overflow.Some? ==> cfg.anonymous.Some?
    requires s'.overflow == if s.overflow.Some? && !e.Save?
                            then Some(Next(cfg.TermsOf(SHARED), SHARED, s.overflow.value, e)) else s.overflow
    ensures s' == LimiterNext(cfg, s, e)
  {
  }

  lemma NameIsIrrelevant<T>(x: Terms, me: Client, you: Client, a: Account<T>, e: Event<T>)
    requires !e.Admit?
    ensures Next(x, me, a, e) == Next(x, you, a, e)
  {
  }

  lemma NotHeld<T>(x: Terms, me: Client, a: Account<T>, e: Event<T>)
    requires e.Report? || e.Track? || e.Respond? || e.Finish? || e.Exhaust?
    requires e.t !in a.flights
    ensures Next(x, me, a, e) == a
  {
  }

  ghost function ExtrasOf(ts: set<Ticket>): map<Ticket, real>
    reads ts
  {
    map t | t in ts :: t.extra
  }

  /** One client's allowance. */
  class LimitKey {
    const owner: Limiter
    const plan: Plan
    var minute: Bucket
    var day: Bucket
    var flights: set<Ticket>

    constructor (owner: Limiter, plan: Plan)
      ensures this.owner == owner && this.plan == plan && flights == {} && View() == Fresh()
    {
      this.owner, this.plan, minute, day, flights := owner, plan, NEW_BUCKET, NEW_BUCKET, {};
    }

    ghost function View(): Account<Ticket>
      reads this, flights
    {
      Account(minute, day, map t | t in flights :: t.View())
    }

    /** A ticket in flight is its own key's. */
    ghost predicate Valid()
      reads this
    {
      forall t :: t in flights ==> t.key == this && t.owner == owner
    }

    ghost predicate Meters()
      reads this
    {
      exists t :: t in flights && t.metered
    }

    lemma MetersByView()
      ensures Meters() <==> Metering(View().flights)
    {
      if Meters() {
        var t :| t in flights && t.metered;
        assert View().flights[t].metered;
      }
      if Metering(View().flights) {
        var t :| t in View().flights && View().flights[t].metered;
        assert t in flights && t.metered;
      }
    }

    method Refill(now: int)
      modifies this`minute, this`day
      ensures View() == Accounts.Refill(plan, old(View()), now)
    {
      minute, day := plan.minute.Refill(minute, now), plan.day.Refill(day, now);
    }

    method Charge(c: real)
      modifies this`minute, this`day
      ensures minute == plan.minute.Take(old(minute), c) && day == plan.day.Take(old(day), c)
    {
      if plan.minute.Limited() {
        minute := minute.(level := minute.level - c);
      }
      if plan.day.Limited() {
        day := day.(level := day.level - c);
      }
    }

    method SumOwed() returns (sum: real)
      ensures sum == Owed(View().flights)
    {
      sum := 0.0;
      var rest := flights;
      assert ExtrasOf(flights) == Extras(View().flights);
      while rest != {}
        invariant rest <= flights
        invariant sum + Sum(ExtrasOf(rest)) == Sum(ExtrasOf(flights))
      {
        var t :| t in rest;
        AccountLaws.SumRemove(ExtrasOf(rest), t);
        assert ExtrasOf(rest) - {t} == ExtrasOf(rest - {t});
        sum := sum + t.extra;
        rest := rest - {t};
      }
    }

    method IsMetering() returns (found: bool)
      ensures found <==> Meters()
    {
      var rest := flights;
      found := false;
      while rest != {}
        invariant rest <= flights
        invariant !found
        invariant forall t :: t in flights && t !in rest ==> !t.metered
      {
        var t :| t in rest;
        if t.metered {
          return true;
        }
        rest := rest - {t};
      }
    }

    method ShortBy(cost: real) returns (s: Shortage)
      ensures s == Shortfall(plan, View(), cost)
    {
      var owed := SumOwed();
      s := Accounts.ShortBy(plan, minute.level - owed, day.level - owed, cost);
    }

    method IsOverdrawn() returns (r: bool)
      ensures r == Overdrawn(plan, View())
    {
      var owed := SumOwed();
      r := (plan.minute.Limited() && minute.level - owed < 0.0) || (plan.day.Limited() && day.level - owed < 0.0);
    }

    method CurrentHeader() returns (h: Header)
      ensures h == HeaderOf(plan, View())
    {
      var owed := SumOwed();
      h := HeaderAt(plan, minute.level - owed, day.level - owed);
    }

    /** Refills, and says how long until the cost could be met. */
    method WhereItStands(cost: real, now: int) returns (wait: int, h: Header)
      modifies this`minute, this`day
      ensures View() == Accounts.Refill(plan, old(View()), now)
      ensures wait == AtLeastASecond(Shortfall(plan, View(), cost))
      ensures h == HeaderOf(plan, View())
    {
      Refill(now);
      var s := ShortBy(cost);
      wait := AtLeastASecond(s);
      h := CurrentHeader();
    }

    /** Refills, and takes the cost if both buckets hold it. */
    method Take(cost: real, now: int) returns (s: Shortage)
      modifies this`minute, this`day
      ensures s == Shortfall(plan, Accounts.Refill(plan, old(View()), now), cost)
      ensures View() == var b := Accounts.Refill(plan, old(View()), now);
                        if s.Short? then b else Accounts.Charge(plan, b, cost)
    {
      Refill(now);
      s := ShortBy(cost);
      if s.Enough? {
        Charge(cost);
      }
    }

    /** The locked part of Admit on one key. */
    method TryCharge(ask: Ask, now: int) returns (v: Verdict)
      requires Refused(plan, ask).None?
      modifies this`minute, this`day
      ensures v == AdmitVerdict(plan, old(View()), ask, now)
      ensures View() == AdmitAccount(plan, old(View()), ask, now)
    {
      var s := Take(ask.cost, now);
      var h := CurrentHeader();
      v := match s
        case Short(wait, window) => TooMany(wait, window, h)
        case Enough => if Unreadable(plan, ask) then BadRequest(h) else Admitted;
    }

    /** sweep on one key: an idle one is refilled, and may go once it is full. */
    method SweepRefill(now: int) returns (forget: bool)
      modifies this`minute, this`day
      ensures View() == SweptAccount(plan, old(View()), now)
      ensures forget == Forgettable(plan, old(View()), now)
    {
      assert View().flights.Keys == flights;
      if flights != {} {
        return false;
      }
      assert View().flights == map[];
      Refill(now);
      forget := plan.minute.Full(minute) && plan.day.Full(day);
    }

    /** What save writes for the key, which it also refills. */
    method SaveEntryOf(now: int) returns (entry: Option<(Bucket, Bucket)>)
      modifies this`minute, this`day
      ensures View() == Accounts.Refill(plan, old(View()), now)
      ensures entry == SaveEntry(plan, old(View()), now)
    {
      Refill(now);
      var owed := SumOwed();
      var m, d := plan.minute.Take(minute, owed), plan.day.Take(day, owed);
      entry := if plan.minute.Full(m) && plan.day.Full(d) then None else Some((m, d));
    }

    method Merge(entry: (Bucket, Bucket), now: int)
      modifies this`minute, this`day
      ensures var saved: Account<Ticket> := Accounts.Refill(plan, Stored(entry), now);
              var was := Accounts.Refill(plan, old(View()), now);
              View() == was.(minute := Lower(was.minute, saved.minute), day := Lower(was.day, saved.day))
    {
      Refill(now);
      minute := Lower(minute, plan.minute.Refill(entry.0, now));
      day := Lower(day, plan.day.Refill(entry.1, now));
    }

    method Restore(entry: (Bucket, Bucket), now: int)
      requires flights == {}
      modifies this`minute, this`day
      ensures View() == Accounts.Refill(plan, Stored(entry), now)
    {
      minute := plan.minute.Refill(entry.0, now);
      day := plan.day.Refill(entry.1, now);
    }

    /** The meters of one key run. */
    method RunMeters(x: Terms, now: int)
      modifies flights`extra
      ensures forall t :: t in flights ==> t.View() == Metered(x, old(t.View()), now)
    {
      var rest := flights;
      while rest != {}
        invariant rest <= flights
        invariant forall t :: t in flights ==> t.View() == if t in rest then old(t.View()) else Metered(x, old(t.View()), now)
      {
        var t :| t in rest;
        if t.metered && !t.frozen {
          t.extra := Max(Seconds(now - t.start), 0.0) * x.perSecond;
        }
        rest := rest - {t};
      }
    }

    /** An overdrawn key's requests are cancelled. */
    method StopFlights()
      modifies flights`frozen, flights`cancelled
      ensures forall t :: t in flights ==> t.View() == Stop(old(t.View()))
    {
      var rest := flights;
      while rest != {}
        invariant rest <= flights
        invariant forall t :: t in flights ==> t.View() == if t in rest then old(t.View()) else Stop(old(t.View()))
      {
        var t :| t in rest;
        if !t.frozen && t.cancellable {
          t.frozen, t.cancelled := true, true;
        }
        rest := rest - {t};
      }
    }

    method MeterAndRefill(x: Terms, now: int)
      requires x.plan == plan
      modifies this`minute, this`day, flights`extra
      ensures View() == Metering1(x, old(View()), now)
    {
      RunMeters(x, now);
      assert View().flights == Metering1(x, old(View()), now).flights;
      Refill(now);
    }

    method CutOff()
      modifies flights`frozen, flights`cancelled
      ensures View() == StopAll(old(View()))
    {
      StopFlights();
      assert View().flights == StopAll(old(View())).flights;
    }

    /** One key's share of the limiter's tick. */
    method Tick(x: Terms, now: int)
      requires x.plan == plan
      modifies this`minute, this`day, flights`extra, flights`frozen, flights`cancelled
      ensures View() == TickNext(x, old(View()), now)
    {
      MeterAndRefill(x, now);
      var over := IsOverdrawn();
      if over {
        CutOff();
      }
    }
  }

  /** Every client's allowance. */
  class Limiter {
    const cfg: Config
    var keys: map<Client, LimitKey>
    var active: set<LimitKey>
    var overflow: LimitKey?

    constructor (cfg: Config)
      ensures this.cfg == cfg && Valid() && View() == Empty()
    {
      this.cfg, keys, active, overflow := cfg, map[], {}, null;
    }

    ghost function Keys(): set<LimitKey>
      reads this
    {
      keys.Values + if overflow == null then {} else {overflow}
    }

    function TermsOf(k: LimitKey): Terms {
      Terms(k.plan, cfg.weights, cfg.perSecond, cfg.rates)
    }

    ghost predicate Shape()
      reads this, Keys()
    {
      && (forall c :: c in keys ==> cfg.Knows(c) && keys[c].plan == cfg.PlanOf(c).value)
      && (forall c, d :: c in keys && d in keys && keys[c] == keys[d] ==> c == d)
      && (overflow != null ==> overflow !in keys.Values && cfg.anonymous.Some? && overflow.plan == cfg.anonymous.value)
      && (forall k :: k in Keys() ==> k.owner == this && k.Valid())
      && active <= Keys()
    }

    /** The active keys are those with a metered request in flight. */
    ghost predicate Valid()
      reads this, Keys()
    {
      Shape() && forall k :: k in Keys() ==> (k in active <==> k.Meters())
    }

    /** A key leaves the active set with its last metered request. */
    method Recheck(key: LimitKey)
      requires Shape() && key in Keys() && (key.Meters() ==> key in active)
      requires forall k :: k in Keys() && k != key ==> (k in active <==> k.Meters())
      modifies this`active
      ensures Valid() && active == if key.Meters() then old(active) else old(active) - {key}
    {
      var metering := key.IsMetering();
      if !metering {
        active := active - {key};
      }
    }

    ghost function Tickets(): set<Ticket>
      reads this, Keys()
    {
      set k, t | k in Keys() && t in k.flights :: t
    }

    ghost function KeyViews(): map<Client, Account<Ticket>>
      reads this, Keys(), Tickets()
    {
      map c | c in keys :: keys[c].View()
    }

    ghost function SharedView(): Option<Account<Ticket>>
      reads this, Keys(), Tickets()
    {
      if overflow == null then None else Some(overflow.View())
    }

    ghost function View(): State<Ticket>
      reads this, Keys(), Tickets()
    {
      State(KeyViews(), SharedView())
    }

    /** Client c is billed to key k, and every other account is as before. */
    ghost predicate Placed(before: State<Ticket>, c: Client, k: LimitKey)
      reads this, Keys(), Tickets()
    {
      if Crowded(cfg, before, c) then overflow == k && KeyViews() == before.keys
      else c in keys && keys[c] == k && KeyViews() == before.keys[c := k.View()] && SharedView() == before.overflow
    }

    lemma PlacedView(before: State<Ticket>, c: Client, k: LimitKey)
      requires Placed(before, c, k)
      ensures View() == Place(cfg, before, c, k.View())
    {
    }

    /** A new key becomes the client's. */
    method Adopt(c: Client, k: LimitKey)
      requires Valid() && cfg.Knows(c) && c !in keys && k !in Keys()
      requires k.owner == this && k.plan == cfg.PlanOf(c).value && k.flights == {}
      modifies this`keys
      ensures Valid() && keys == old(keys)[c := k] && Keys() == old(Keys()) + {k}
      ensures KeyViews() == old(KeyViews())[c := k.View()] && SharedView() == old(SharedView())
    {
      keys := keys[c := k];
      assert forall d :: d in old(keys) ==> d in keys && keys[d] == old(keys)[d];
      assert c in keys && keys[c] == k;
      assert keys.Values == old(keys.Values) + {k};
    }

    method MakeKey(plan: Plan) returns (k: LimitKey)
      requires Valid()
      ensures Valid() && KeyViews() == old(KeyViews()) && SharedView() == old(SharedView()) && Keys() == old(Keys())
      ensures fresh(k) && k !in Keys() && k.owner == this && k.plan == plan && k.flights == {} && k.View() == Fresh()
    {
      k := new LimitKey(this, plan);
    }

    method MakeStored(plan: Plan, entry: (Bucket, Bucket), now: int) returns (k: LimitKey)
      requires Valid()
      ensures Valid() && KeyViews() == old(KeyViews()) && SharedView() == old(SharedView()) && Keys() == old(Keys())
      ensures fresh(k) && k !in Keys() && k.owner == this && k.plan == plan && k.flights == {}
      ensures k.View() == Accounts.Refill(plan, Stored(entry), now)
    {
      k := new LimitKey(this, plan);
      k.Restore(entry, now);
    }

    /** A client not tracked, with room for it. */
    method NewKey(c: Client) returns (k: LimitKey)
      requires Valid() && cfg.Knows(c) && c !in keys && !Crowded(cfg, View(), c)
      modifies this`keys
      ensures Valid() && k in Keys() && k.plan == cfg.PlanOf(c).value && fresh(k) && Keys() == old(Keys()) + {k}
      ensures k.View() == Fresh() && Placed(old(View()), c, k)
    {
      k := MakeKey(cfg.PlanOf(c).value);
      Adopt(c, k);
    }

    /** The account new anonymous clients share when too many are tracked. */
    method MakeShared()
      requires Valid() && cfg.anonymous.Some? && overflow == null
      modifies this`overflow
      ensures Valid() && overflow != null && fresh(overflow) && Keys() == old(Keys()) + {overflow}
      ensures View() == old(View()).(overflow := Some(Fresh()))
    {
      overflow := MakeKey(cfg.anonymous.value);
    }

    method SharedKey(c: Client) returns (k: LimitKey)
      requires Valid() && cfg.Knows(c) && Crowded(cfg, View(), c)
      modifies this`overflow
      ensures Valid() && k in Keys() && k.plan == cfg.PlanOf(c).value && Keys() == old(Keys()) + {k}
      ensures k !in old(Keys()) ==> fresh(k)
      ensures k.View() == AccountFor(cfg, old(View()), c) && Placed(old(View()), c, k)
    {
      if overflow == null {
        MakeShared();
      }
      k := overflow;
    }

    /** Finds or makes the client's allowance. */
    method FindKey(c: Client) returns (k: LimitKey)
      requires Valid() && cfg.Knows(c)
      modifies this`keys, this`overflow
      ensures Valid() && k in Keys() && k.plan == cfg.PlanOf(c).value && Keys() == old(Keys()) + {k}
      ensures k !in old(Keys()) ==> fresh(k)
      ensures k.View() == AccountFor(cfg, old(View()), c) && Placed(old(View()), c, k)
    {
      assert View().keys.Keys == keys.Keys;
      if c in keys {
        k := keys[c];
      } else if c.Ip? && |keys| >= cfg.maxKeys {
        k := SharedKey(c);
      } else {
        k := NewKey(c);
      }
    }

    /** Of all accounts only that of key k has moved. */
    twostate predicate OnlyAt(k: LimitKey)
      reads this, Keys(), Tickets()
    {
      && keys == old(keys) && overflow == old(overflow)
      && (forall j :: j in Keys() && j != k ==> j.View() == old(j.View()))
    }

    /** Nothing but key k and its own tickets was written. */
    twostate lemma OnlyAtKey(k: LimitKey)
      requires old(Shape()) && unchanged(this)
      requires forall j :: j in old(Keys()) && j != k ==> unchanged(j)
      requires forall t :: t in old(Tickets()) && t.key != k ==> unchanged(t)
      ensures OnlyAt(k)
    {
      forall j | j in Keys() && j != k
        ensures j.View() == old(j.View())
      {
        assert forall t :: t in j.flights ==> t in old(Tickets()) && t.key == j;
      }
    }

    /** Who holds what is as it was: buckets and meters may have moved. */
    twostate lemma StillValid()
      requires old(Valid()) && unchanged(this) && forall k :: k in old(Keys()) ==> k.flights == old(k.flights)
      ensures Valid()
    {
      forall k | k in Keys()
        ensures k.Valid() && (k in active <==> k.Meters())
      {
        assert k in old(Keys()) && old(k.Meters()) == k.Meters();
      }
    }

    twostate lemma KeyMoved(c: Client)
      requires old(Valid()) && c in old(keys) && OnlyAt(old(keys)[c])
      ensures KeyViews() == old(KeyViews())[c := keys[c].View()] && SharedView() == old(SharedView())
    {
      assert forall d :: d in keys && d != c ==> keys[d] in Keys() && keys[d] != keys[c];
    }

    twostate lemma SharedMoved()
      requires old(Valid()) && overflow != null && old(overflow) == overflow && OnlyAt(overflow)
      ensures KeyViews() == old(KeyViews())
    {
      assert forall d :: d in keys ==> keys[d] in Keys() && keys[d] != overflow;
    }

    /** TryCharge on one key. */
    method ChargeOne(k: LimitKey, ask: Ask, now: int) returns (v: Verdict)
      requires Valid() && k in Keys() && Refused(k.plan, ask).None?
      modifies k`minute, k`day
      ensures Valid() && OnlyAt(k)
      ensures v == AdmitVerdict(k.plan, old(k.View()), ask, now)
      ensures k.View() == AdmitAccount(k.plan, old(k.View()), ask, now)
    {
      v := k.TryCharge(ask, now);
      OnlyAtKey(k);
      StillValid();
    }

    /** TryCharge on the key a client is billed to. */
    method ChargeKey(c: Client, k: LimitKey, ask: Ask, now: int, ghost before: State<Ticket>) returns (v: Verdict)
      requires Valid() && k in Keys() && Refused(k.plan, ask).None? && Placed(before, c, k)
      modifies k`minute, k`day
      ensures Valid() && Placed(before, c, k)
      ensures v == AdmitVerdict(k.plan, old(k.View()), ask, now)
      ensures k.View() == AdmitAccount(k.plan, old(k.View()), ask, now)
    {
      ghost var was := k.View();
      v := ChargeOne(k, ask, now);
      if Crowded(cfg, before, c) {
        SharedMoved();
      } else {
        KeyMoved(c);
        Overwritten(before.keys, c, was, k.View());
      }
    }

    /** Charges the client's allowance, or finds it short. */
    method ChargeClient(c: Client, ask: Ask, now: int) returns (k: LimitKey, v: Verdict)
      requires Valid() && cfg.Knows(c) && Refused(cfg.PlanOf(c).value, ask).None?
      modifies this`keys, this`overflow, Keys()`minute, Keys()`day
      ensures Valid() && k in Keys() && Keys() == old(Keys()) + {k} && (k !in old(Keys()) ==> fresh(k))
      ensures v == AdmitVerdict(cfg.PlanOf(c).value, AccountFor(cfg, old(View()), c), ask, now)
      ensures k.View() == AdmitAccount(cfg.PlanOf(c).value, AccountFor(cfg, old(View()), c), ask, now)
      ensures Placed(old(View()), c, k)
    {
      ghost var before := View();
      k := FindKey(c);
      v := ChargeKey(c, k, ask, now, before);
    }

    /** A ticket joins its key's flights. */
    method Enter(t: Ticket)
      requires Shape() && t.owner == this && t.key in Keys() && t !in t.key.flights
      modifies t.key`flights
      ensures Shape() && OnlyAt(t.key)
      ensures t.key.flights == old(t.key.flights) + {t}
      ensures t.key.View() == old(t.key.View()).(flights := old(t.key.View()).flights[t := t.View()])
    {
      t.key.flights := t.key.flights + {t};
      assert t.key.View().flights == old(t.key.View()).flights[t := t.View()];
    }

    /** A key with a metered request in flight is active. */
    method Activate(t: Ticket)
      requires Shape() && t.key in Keys() && t in t.key.flights
      requires forall j :: j in Keys() && j != t.key ==> (j in active <==> j.Meters())
      requires t.key in active ==> t.key.Meters()
      requires t.key.Meters() && !t.metered ==> t.key in active
      modifies this`active
      ensures Valid() && active == if t.metered then old(active) + {t.key} else old(active)
    {
      if t.metered {
        active := active + {t.key};
      }
    }

    method MakeTicket(k: LimitKey, ask: Ask, now: int) returns (t: Ticket)
      requires Valid() && k in Keys()
      ensures Valid() && OnlyAt(k) && k.View() == old(k.View())
      ensures fresh(t) && t.owner == this && t.key == k && !t.done && t.View() == NewFlight(ask, now)
    {
      t := new Ticket(this, k, ask, now);
    }

    /** A request in flight keeps its key. */
    method Launch(k: LimitKey, ask: Ask, now: int) returns (t: Ticket)
      requires Valid() && k in Keys()
      modifies this`active, k`flights
      ensures Valid() && fresh(t) && t.owner == this && t.key == k && t.Open() && OnlyAt(k)
      ensures k.View() == old(k.View()).(flights := old(k.View()).flights[t := NewFlight(ask, now)])
    {
      t := MakeTicket(k, ask, now);
      Enter(t);
      Activate(t);
    }

    /** Admit past the 403s. */
    method AdmitPriced(c: Client, ask: Ask, now: int) returns (v: Verdict, t: Ticket?)
      requires Valid() && cfg.Knows(c) && Refused(cfg.PlanOf(c).value, ask).None?
      modifies this`keys, this`overflow, this`active, Keys()`minute, Keys()`day, Keys()`flights
      ensures Valid() && (t != null <==> v.Admitted?)
      ensures v == AdmitVerdict(cfg.PlanOf(c).value, AccountFor(cfg, old(View()), c), ask, now)
      ensures t != null ==> fresh(t) && t.owner == this && t.Open()
      ensures var a := AdmitAccount(cfg.PlanOf(c).value, AccountFor(cfg, old(View()), c), ask, now);
              View() == Place(cfg, old(View()), c, if t == null then a else WithFlight(a, t, NewFlight(ask, now)))
    {
      ghost var before := View();
      var k;
      k, v := ChargeClient(c, ask, now);
      t := null;
      if v.Admitted? {
        t := LaunchPlaced(c, k, ask, now, before);
      }
      PlacedView(before, c, k);
    }

    /** Launch on the key a client is billed to. */
    method LaunchPlaced(c: Client, k: LimitKey, ask: Ask, now: int, ghost before: State<Ticket>) returns (t: Ticket)
      requires Valid() && k in Keys() && Placed(before, c, k)
      modifies this`active, k`flights
      ensures Valid() && fresh(t) && t.owner == this && t.Open() && Placed(before, c, k)
      ensures k.View() == WithFlight(old(k.View()), t, NewFlight(ask, now))
    {
      ghost var was := k.View();
      t := Launch(k, ask, now);
      if Crowded(cfg, before, c) {
        SharedMoved();
      } else {
        KeyMoved(c);
        Overwritten(before.keys, c, was, k.View());
      }
    }

    /** Charges a request's base cost to its client, best being the fleet's best
        round, or refuses it. */
    method Admit(c: Client, class_: RequestClass, best: nat, now: int) returns (v: Verdict, t: Ticket?)
      requires Valid() && cfg.Knows(c)
      modifies this`keys, this`overflow, this`active, Keys()`minute, Keys()`day, Keys()`flights
      ensures Valid() && (t != null <==> v.Admitted?)
      ensures v == AdmitVerdict(cfg.PlanOf(c).value, AccountFor(cfg, old(View()), c), AskOf(cfg.weights, class_, best), now)
      ensures t != null ==> fresh(t) && t.owner == this && t.Open()
      ensures t != null ==> View() == LimiterNext(cfg, old(View()), Accounts.Admit(c, AskOf(cfg.weights, class_, best), t, now))
      ensures v.Forbidden? ==> View() == old(View())
      ensures v.TooMany? || v.BadRequest? ==> View() == Place(cfg, old(View()), c,
                AdmitAccount(cfg.PlanOf(c).value, AccountFor(cfg, old(View()), c), AskOf(cfg.weights, class_, best), now))
    {
      var ask := AskOf(cfg.weights, class_, best);
      var r := Refused(cfg.PlanOf(c).value, ask);
      if r.Some? {
        return Forbidden(r.value), null;
      }
      v, t := AdmitPriced(c, ask, now);
    }

    // ------------------------------------------------------ the Run loop

    /** The accounts partway through a tick: the active keys ticked but for rest. */
    ghost predicate Ticked(was: map<LimitKey, Account<Ticket>>, rest: set<LimitKey>, now: int)
      reads this, Keys(), Tickets()
    {
      was.Keys == Keys() && forall k :: k in Keys() ==>
        k.View() == if k in active - rest then TickNext(TermsOf(k), was[k], now) else was[k]
    }

    /** tick on one active key. */
    method TickKey(k: LimitKey, now: int, ghost was: map<LimitKey, Account<Ticket>>, ghost rest: set<LimitKey>)
      requires Valid() && k in rest && rest <= active && Ticked(was, rest, now)
      modifies k`minute, k`day, k.flights`extra, k.flights`frozen, k.flights`cancelled
      ensures Valid() && Ticked(was, rest - {k}, now)
    {
      k.Tick(TermsOf(k), now);
      forall j | j in Keys() && j != k
        ensures j.View() == old(j.View())
      {
        assert j.flights !! k.flights;
      }
      StillValid();
    }

    /** tick on every active key. */
    method TickActive(now: int, ghost was: map<LimitKey, Account<Ticket>>)
      requires Valid() && Ticked(was, active, now)
      modifies Keys()`minute, Keys()`day, Tickets()`extra, Tickets()`frozen, Tickets()`cancelled
      ensures Valid() && Ticked(was, {}, now)
    {
      var rest := active;
      while rest != {}
        invariant rest <= active && Valid() && Ticked(was, rest, now)
      {
        var k :| k in rest;
        assert k.flights <= Tickets();
        TickKey(k, now, was, rest);
        rest := rest - {k};
      }
    }

    /** Runs the meter of every request in flight, and cancels those of a client
        it leaves overdrawn. */
    method Tick(now: int)
      requires Valid()
      modifies Keys()`minute, Keys()`day, Tickets()`extra, Tickets()`frozen, Tickets()`cancelled
      ensures Valid()
      ensures View() == LimiterNext(cfg, old(View()), Accounts.Tick(now))
    {
      forall k | k in Keys()
        ensures k.Meters() <==> Metering(k.View().flights)
      {
        k.MetersByView();
      }
      ghost var was := map k | k in Keys() :: k.View();
      TickActive(now, was);
      TickedThrough(old(View()), was, now);
    }

    lemma TickedThrough(before: State<Ticket>, was: map<LimitKey, Account<Ticket>>, now: int)
      requires Valid() && Ticked(was, {}, now)
      requires forall k :: k in Keys() ==> (k in active <==> Metering(was[k].flights))
      requires before.keys.Keys == keys.Keys && forall c :: c in keys ==> keys[c] in was && before.keys[c] == was[keys[c]]
      requires before.overflow == if overflow == null then None else Some(was[overflow])
      ensures View() == LimiterNext(cfg, before, Accounts.Tick(now))
    {
      forall c | c in keys
        ensures keys[c].View() == Next(cfg.TermsOf(c), c, before.keys[c], Accounts.Tick(now))
      {
        assert keys[c] in Keys();
      }
      EachNextIs(cfg, before, View(), Accounts.Tick(now));
    }

    /** One key's buckets move, and no other account. */
    method VisitKey(k: LimitKey, now: int) returns (forget: bool)
      requires Valid() && k in Keys()
      modifies k`minute, k`day
      ensures Valid() && OnlyAt(k)
      ensures k.View() == SweptAccount(k.plan, old(k.View()), now)
      ensures forget == Forgettable(k.plan, old(k.View()), now)
    {
      forget := k.SweepRefill(now);
      OnlyAtKey(k);
      StillValid();
    }

    /** sweep's first look at one client. */
    method Visit(c: Client, now: int) returns (forget: bool)
      requires Valid() && c in keys
      modifies keys.Values`minute, keys.Values`day
      ensures Valid() && SharedView() == old(SharedView())
      ensures KeyViews() == old(KeyViews())[c := SweptAccount(keys[c].plan, old(KeyViews())[c], now)]
      ensures forget == Forgettable(keys[c].plan, old(KeyViews())[c], now)
    {
      forget := VisitKey(keys[c], now);
      KeyMoved(c);
    }

    /** Forgets an idle client. */
    method Forget(c: Client)
      requires Valid() && c in keys && keys[c].flights == {}
      modifies this`keys
      ensures Valid() && keys == old(keys) - {c} && Keys() <= old(Keys())
      ensures KeyViews() == old(KeyViews()) - {c} && SharedView() == old(SharedView())
    {
      assert !keys[c].Meters();
      keys := keys - {c};
      assert forall d :: d in keys ==> keys[d] == old(keys)[d];
    }

    /** sweep on one client. */
    method SweepClient(c: Client, now: int)
      requires Valid() && c in keys
      modifies this`keys, keys.Values`minute, keys.Values`day
      ensures Valid() && Keys() <= old(Keys()) && SharedView() == old(SharedView())
      ensures var p := cfg.PlanOf(c).value;
              var m := old(KeyViews())[c := SweptAccount(p, old(KeyViews())[c], now)];
              KeyViews() == if Forgettable(p, old(KeyViews())[c], now) then m - {c} else m
    {
      var forget := Visit(c, now);
      if forget {
        assert KeyViews()[c].flights.Keys == keys[c].flights;
        Forget(c);
      }
    }

    /** Forgets the clients whose allowance is full again. */
    method SweepKeys(now: int)
      requires Valid()
      modifies this`keys, Keys()`minute, Keys()`day
      ensures Valid() && Keys() <= old(Keys()) && overflow == old(overflow) && SharedView() == old(SharedView())
      ensures KeyViews() == SweptKeys(cfg, old(KeyViews()), now)
    {
      ghost var before := KeyViews();
      var rest := keys.Keys;
      while rest != {}
        invariant Valid() && Keys() <= old(Keys()) && overflow == old(overflow) && SharedView() == old(SharedView())
        invariant PartlySwept(cfg, before, KeyViews(), rest, now)
      {
        var c :| c in rest;
        assert KeyViews().Keys == keys.Keys;
        ghost var m := KeyViews();
        SweepClient(c, now);
        SweptFurther(cfg, before, m, rest, now, c);
        rest := rest - {c};
      }
      SweptThrough(cfg, before, KeyViews(), now);
    }

    /** The overflow account is forgotten too once there is room again. */
    method SweepOverflow(now: int)
      requires Valid() && overflow != null && overflow.flights == {}
      modifies this`overflow, Keys()`minute, Keys()`day
      ensures Valid() && KeyViews() == old(KeyViews())
      ensures SharedView() == if Forgettable(cfg.anonymous.value, old(overflow.View()), now) then None
                              else Some(SweptAccount(cfg.anonymous.value, old(overflow.View()), now))
    {
      var forget := VisitKey(overflow, now);
      SharedMoved();
      if forget {
        ForgetShared();
      }
    }

    method ForgetShared()
      requires Valid() && overflow != null && overflow.flights == {}
      modifies this`overflow
      ensures Valid() && overflow == null && KeyViews() == old(KeyViews())
    {
      assert !overflow.Meters();
      overflow := null;
    }

    method SweepShared(now: int)
      requires Valid()
      modifies this`overflow, Keys()`minute, Keys()`day
      ensures Valid() && KeyViews() == old(KeyViews())
      ensures SharedView() == SweptOverflow(cfg, old(SharedView()), |old(keys)|, now)
    {
      assert overflow != null ==> overflow.View().flights.Keys == overflow.flights;
      if overflow != null && overflow.flights == {} && |keys| < cfg.maxKeys {
        SweepOverflow(now);
      }
    }

    /** Forgets the clients whose allowance is full again. */
    method Sweep(now: int)
      requires Valid()
      modifies this`keys, this`overflow, Keys()`minute, Keys()`day
      ensures Valid() && View() == LimiterNext(cfg, old(View()), Accounts.Sweep(now))
    {
      SweepKeys(now);
      assert KeyViews().Keys == keys.Keys;
      SweepShared(now);
    }

    // ----------------------------------------------------- save and load

    /** What save writes for one key, which it also refills. */
    method SaveKey(k: LimitKey, now: int) returns (entry: Option<(Bucket, Bucket)>)
      requires Valid() && k in Keys()
      modifies k`minute, k`day
      ensures Valid() && OnlyAt(k)
      ensures k.View() == Accounts.Refill(k.plan, old(k.View()), now)
      ensures entry == SaveEntry(k.plan, old(k.View()), now)
    {
      entry := k.SaveEntryOf(now);
    }

    method SaveClient(c: Client, now: int) returns (entry: Option<(Bucket, Bucket)>)
      requires Valid() && c in keys
      modifies keys.Values`minute, keys.Values`day
      ensures Valid() && SharedView() == old(SharedView())
      ensures KeyViews() == old(KeyViews())[c := Accounts.Refill(keys[c].plan, old(KeyViews())[c], now)]
      ensures entry == SaveEntry(keys[c].plan, old(KeyViews())[c], now)
    {
      entry := SaveKey(keys[c], now);
      KeyMoved(c);
    }

    /** Writes the allowances that are not full. */
    method Save(now: int) returns (file: StateFile)
      requires Valid()
      modifies keys.Values`minute, keys.Values`day
      ensures Valid() && View() == LimiterNext(cfg, old(View()), Accounts.Save(now))
      ensures file == FileOf(cfg, old(View()), now)
    {
      ghost var before := KeyViews();
      var rest := keys.Keys;
      file := map[];
      while rest != {}
        invariant Valid() && SharedView() == old(SharedView())
        invariant PartlySaved(cfg, before, KeyViews(), file, rest, now)
      {
        var c :| c in rest;
        ghost var m, f := KeyViews(), file;
        var entry := SaveClient(c, now);
        if entry.Some? {
          file := file[c := entry.value];
        }
        SavedFurther(cfg, before, m, f, rest, now, c);
        rest := rest - {c};
      }
      SavedThrough(cfg, old(View()), View(), file, now);
    }

    /** A saved allowance for a client seen since the start: the lower level of
        each window stays. */
    method MergeKey(k: LimitKey, entry: (Bucket, Bucket), now: int)
      requires Valid() && k in Keys()
      modifies k`minute, k`day
      ensures Valid() && OnlyAt(k)
      ensures var saved: Account<Ticket> := Accounts.Refill(k.plan, Stored(entry), now);
              var was := Accounts.Refill(k.plan, old(k.View()), now);
              k.View() == was.(minute := Lower(was.minute, saved.minute), day := Lower(was.day, saved.day))
    {
      k.Merge(entry, now);
    }

    /** A saved allowance for a client not seen since. */
    method RestoreKey(c: Client, entry: (Bucket, Bucket), now: int)
      requires Valid() && cfg.Knows(c) && c !in keys
      modifies this`keys
      ensures Valid() && SharedView() == old(SharedView()) && Keys() >= old(Keys()) && fresh(Keys() - old(Keys()))
      ensures KeyViews() == old(KeyViews())[c := Accounts.Refill(cfg.PlanOf(c).value, Stored(entry), now)]
    {
      var k := MakeStored(cfg.PlanOf(c).value, entry, now);
      Adopt(c, k);
    }

    /** load on one client. */
    method LoadClient(c: Client, entry: (Bucket, Bucket), now: int)
      requires Valid() && cfg.Knows(c)
      modifies this`keys, Keys()`minute, Keys()`day
      ensures Valid() && SharedView() == old(SharedView()) && Keys() >= old(Keys()) && fresh(Keys() - old(Keys()))
      ensures KeyViews() == old(KeyViews())[c := LoadedAccount(cfg.PlanOf(c).value, old(KeyViews()), c, entry, now)]
    {
      if c in keys {
        MergeKey(keys[c], entry, now);
        KeyMoved(c);
      } else {
        RestoreKey(c, entry, now);
      }
    }

    /** Reads the saved allowances. A client whose token or plan is gone is
        dropped. */
    method Load(file: StateFile, now: int)
      requires Valid()
      modifies this`keys, Keys()`minute, Keys()`day
      ensures Valid() && View() == LoadNext(cfg, old(View()), file, now)
    {
      ghost var before := KeyViews();
      var rest := file.Keys;
      while rest != {}
        invariant Valid() && SharedView() == old(SharedView()) && Keys() >= old(Keys()) && fresh(Keys() - old(Keys()))
        invariant PartlyLoaded(cfg, before, KeyViews(), file, rest, now)
      {
        var c :| c in rest;
        ghost var m := KeyViews();
        if cfg.Knows(c) {
          LoadClient(c, file[c], now);
        }
        LoadedFurther(cfg, before, m, file, rest, now, c);
        rest := rest - {c};
      }
      LoadedThrough(cfg, old(View()), View(), file, now);
    }

    /** Then the whole limiter has moved as the event says: what a ticket's
        method promises of its own key is a step of LimiterSpec. */
    twostate lemma MovedIsAStep(t: Ticket, new e: Event<Ticket>)
      requires old(Valid()) && t.key in old(Keys()) && t in old(t.key.flights) && OnlyAt(t.key)
      requires e.Report? || e.Track? || e.Respond? || e.Finish? || e.Exhaust?
      requires e.t == t && t.key.View() == Next(TermsOf(t.key), SHARED, old(t.key.View()), e)
      ensures View() == LimiterNext(cfg, old(View()), e)
    {
      forall c | c in keys
        ensures keys[c].View() == Next(cfg.TermsOf(c), c, old(keys[c].View()), e)
      {
        if keys[c] == t.key {
          NameIsIrrelevant(cfg.TermsOf(c), c, SHARED, old(keys[c].View()), e);
        } else {
          assert old(keys[c]) in old(Keys());
          assert t !in old(keys[c].flights);
          NotHeld(cfg.TermsOf(c), c, old(keys[c].View()), e);
        }
      }
      if overflow != null && overflow != t.key {
        assert t !in old(overflow.flights);
        NotHeld(cfg.TermsOf(SHARED), SHARED, old(overflow.View()), e);
      }
      EachNextIs(cfg, old(View()), View(), e);
    }
  }
}
