/** When a sweep shows: with more clients than MaxKeys, and only then. */
module Crowding {
  import opened RateWindow
  import opened Requests
  import opened Accounts
  import opened AccountLaws
  import opened LimiterSpec
  import opened LimiterLaws
  import opened Spending

  // ------------------------------------------------------ room for everyone

  /** Nothing tracks a client no admission named. */
  lemma {:induction false} TrackedWereAdmitted<T>(cfg: Config, s: State<T>, es: seq<Event<T>>)
    ensures LimiterRun(cfg, s, es).keys.Keys <= s.keys.Keys + Clients(es)
  {
    if |es| > 0 {
      TrackedWereAdmitted(cfg, s, es[..|es| - 1]);
      AdmissionsTrack(cfg, LimiterRun(cfg, s, es[..|es| - 1]), es[|es| - 1]);
    }
  }

  lemma AdmissionsTrack<T>(cfg: Config, s: State<T>, e: Event<T>)
    ensures LimiterNext(cfg, s, e).keys.Keys <= s.keys.Keys + if e.Admit? then {e.client} else {}
  {
  }

  lemma SubsetIsSmaller<A>(a: set<A>, b: set<A>)
    requires a <= b
    ensures |a| <= |b|
  {
    assert b == a + (b - a);
  }

  /** With no more clients than MaxKeys every client has room. */
  lemma {:induction false} RoomForAll<T>(cfg: Config, s: State<T>, es: seq<Event<T>>, k: Client, all: set<Client>)
    requires s.keys.Keys + Clients(es) <= all && |all| <= cfg.maxKeys
    ensures OwnRoom(cfg, s, es, k)
  {
    if |es| > 0 {
      var front, e := es[..|es| - 1], es[|es| - 1];
      RoomForAll(cfg, s, front, k, all);
      TrackedWereAdmitted(cfg, s, front);
      var keys := LimiterRun(cfg, s, front).keys.Keys;
      if e.Admit? && e.client == k && k !in keys {
        SubsetIsSmaller(keys + {k}, all);
      }
    }
  }

  lemma {:induction false} SweepsNameNobody<T>(es: seq<Event<T>>)
    ensures Clients(es) == Clients(WithoutSweeps(es))
  {
    if |es| > 0 {
      SweepsNameNobody(es[..|es| - 1]);
      WithoutLast(es);
    }
  }

  /** With room for everyone nobody shares the overflow account. */
  lemma {:induction false} NobodyShares<T>(cfg: Config, s: State<T>, es: seq<Event<T>>, all: set<Client>)
    requires s.keys.Keys + Clients(es) <= all && |all| <= cfg.maxKeys && s.overflow.None?
    ensures LimiterRun(cfg, s, es).overflow.None?
  {
    if |es| > 0 {
      var front, e := es[..|es| - 1], es[|es| - 1];
      NobodyShares(cfg, s, front, all);
      if e.Admit? {
        RoomForAll(cfg, s, es, e.client, all);
      }
    }
  }

  /** Then nothing is seen of that account. */
  lemma {:induction false} SharedIsSilent<T>(cfg: Config, s: State<T>, es: seq<Event<T>>, all: set<Client>)
    requires s.keys.Keys + Clients(es) <= all && |all| <= cfg.maxKeys && s.overflow.None? && Covers(cfg, Shared)
    ensures Faced(cfg, s, es, Shared) == seq(|WithoutSweeps(es)|, _ => Silent)
  {
    if |es| > 0 {
      SharedIsSilent(cfg, s, es[..|es| - 1], all);
      NobodyShares(cfg, s, es[..|es| - 1], all);
    }
  }

  // --------------------------------------------------- traces, view by view

  ghost function View<T>(cfg: Config, s: State<T>, es: seq<Event<T>>, i: nat, h: Holder): Output<T>
    requires Covers(cfg, h)
  {
    if i < |Faced(cfg, s, es, h)| then Faced(cfg, s, es, h)[i] else Silent
  }

  ghost function Views<T(!new)>(cfg: Config, s: State<T>, es: seq<Event<T>>, i: nat): imap<Holder, Output<T>> {
    imap h: Holder | Covers(cfg, h) && View(cfg, s, es, i, h) != Silent :: View(cfg, s, es, i, h)
  }

  lemma {:induction false} FacedLength<T>(cfg: Config, s: State<T>, es: seq<Event<T>>, h: Holder)
    requires Covers(cfg, h)
    ensures |Faced(cfg, s, es, h)| == |WithoutSweeps(es)|
  {
    if |es| > 0 {
      FacedLength(cfg, s, es[..|es| - 1], h);
    }
  }

  /** A trace is what everyone faces, event by event. */
  lemma {:induction false} TraceIsFaced<T(!new)>(cfg: Config, s: State<T>, es: seq<Event<T>>)
    ensures |Trace(cfg, s, es)| == |WithoutSweeps(es)|
    ensures forall i: nat :: i < |Trace(cfg, s, es)| ==> Trace(cfg, s, es)[i] == Views(cfg, s, es, i)
  {
    if |es| > 0 {
      var front, e := es[..|es| - 1], es[|es| - 1];
      TraceIsFaced(cfg, s, front);
      forall h: Holder | Covers(cfg, h)
        ensures |Faced(cfg, s, front, h)| == |Trace(cfg, s, front)|
      {
        FacedLength(cfg, s, front, h);
      }
      forall i: nat | i < |Trace(cfg, s, es)|
        ensures Trace(cfg, s, es)[i] == Views(cfg, s, es, i)
      {
        if i < |Trace(cfg, s, front)| {
          EarlierViews(cfg, s, es, i, |Trace(cfg, s, front)|);
        } else {
          LastViews(cfg, s, es, i);
        }
      }
    }
  }

  lemma EarlierViews<T(!new)>(cfg: Config, s: State<T>, es: seq<Event<T>>, i: nat, n: nat)
    requires |es| > 0 && i < n
    requires forall h: Holder :: Covers(cfg, h) ==> |Faced(cfg, s, es[..|es| - 1], h)| == n
    ensures Views(cfg, s, es, i) == Views(cfg, s, es[..|es| - 1], i)
  {
    forall h: Holder | Covers(cfg, h)
      ensures View(cfg, s, es, i, h) == View(cfg, s, es[..|es| - 1], i, h)
    {
      assert |Faced(cfg, s, es[..|es| - 1], h)| == n;
    }
  }

  lemma LastViews<T(!new)>(cfg: Config, s: State<T>, es: seq<Event<T>>, i: nat)
    requires |es| > 0 && !es[|es| - 1].Sweep?
    requires forall h: Holder :: Covers(cfg, h) ==> |Faced(cfg, s, es[..|es| - 1], h)| == i
    ensures Views(cfg, s, es, i) == Seen(cfg, LimiterRun(cfg, s, es[..|es| - 1]), es[|es| - 1])
  {
    var front, e := es[..|es| - 1], es[|es| - 1];
    forall h: Holder | Covers(cfg, h)
      ensures View(cfg, s, es, i, h) == Facing(cfg, LimiterRun(cfg, s, front), h, e)
    {
      assert |Faced(cfg, s, front, h)| == i;
    }
  }

  /** With no more clients than MaxKeys the whole trace is that of the run without
      its sweeps. */
  lemma SweepIsInvisibleWithRoom<T(!new)>(cfg: Config, es: seq<Event<T>>)
    requires cfg.Valid() && Timely(0, es) && |Clients(es)| <= cfg.maxKeys
    ensures Trace(cfg, Empty(), es) == Trace(cfg, Empty(), WithoutSweeps(es))
  {
    var s: State<T> := Empty();
    var w := WithoutSweeps(es);
    SweptTwice(es);
    forall h: Holder | Covers(cfg, h)
      ensures Faced(cfg, s, es, h) == Faced(cfg, s, w, h)
    {
      FacedAlike(cfg, es, h);
    }
    TraceIsFaced(cfg, s, es);
    TraceIsFaced(cfg, s, w);
    assert forall i: nat :: Views(cfg, s, es, i) == Views(cfg, s, w, i);
  }

  lemma FacedAlike<T>(cfg: Config, es: seq<Event<T>>, h: Holder)
    requires cfg.Valid() && Timely(0, es) && |Clients(es)| <= cfg.maxKeys && Covers(cfg, h)
    ensures Faced(cfg, Empty(), es, h) == Faced(cfg, Empty(), WithoutSweeps(es), h)
  {
    var s: State<T> := Empty();
    var w := WithoutSweeps(es);
    SweepsNameNobody(es);
    match h {
      case Own(k) =>
        RoomForAll(cfg, s, es, k, Clients(es));
        RoomForAll(cfg, s, w, k, Clients(es));
        SweepIsUnobservable(cfg, es, k);
      case Shared =>
        SweptTwice(es);
        SharedIsSilent(cfg, s, es, Clients(es));
        SharedIsSilent(cfg, s, w, Clients(es));
    }
  }

  // ------------------------------------------------- a crowd of any size

  /** The i-th of any number of addresses. */
  function Address(i: nat): string {
    seq(i, _ => 'a')
  }

  /** A client's allowance, all at once: the least of what is limited. */
  function All(p: Plan): real {
    if !p.minute.Limited() then p.day.capacity
    else if !p.day.Limited() then p.minute.capacity
    else Min(p.minute.capacity, p.day.capacity)
  }

  predicate LimitsAnonymous(cfg: Config) {
    cfg.anonymous.Some? && (cfg.anonymous.value.minute.Limited() || cfg.anonymous.value.day.Limited())
  }

  function Everything(p: Plan): Ask {
    Ask(All(p), false, None)
  }

  /** An account full at the first instant. */
  function FullAt1<T>(p: Plan): Account<T> {
    Refill(p, Fresh(), 1)
  }

  /** n clients come for nothing and go. */
  function Filling<T>(n: nat, t: T): seq<Event<T>> {
    if n == 0 then [] else Filling(n - 1, t) + [Admit(Ip(Address(n - 1)), FREE, t, 1)] + [Finish(t, 1)]
  }

  lemma RunExtends<T>(cfg: Config, s: State<T>, es: seq<Event<T>>, e: Event<T>)
    ensures LimiterRun(cfg, s, []) == s
    ensures LimiterRun(cfg, s, es + [e]) == LimiterNext(cfg, LimiterRun(cfg, s, es), e)
  {
    assert (es + [e])[..|es + [e]| - 1] == es;
  }

  /** A run at the first instants, without sweeps. */
  ghost predicate Early1<T>(es: seq<Event<T>>) {
    Timely(0, es) && Clock(0, es) <= 1 && WithoutSweeps(es) == es
  }

  lemma EarlyExtends<T>(es: seq<Event<T>>, e: Event<T>)
    requires Timely(0, es) && Clock(0, es) <= 1 && !e.Report? && !e.Track? && e.now == 1 && (e.Admit? ==> e.ask.cost >= 0.0)
    ensures Timely(0, es + [e]) && Clock(0, es + [e]) == 1
    ensures WithoutSweeps(es + [e]) == WithoutSweeps(es) + (if e.Sweep? then [] else [e])
    ensures Clients(es + [e]) == Clients(es) + if e.Admit? then {e.client} else {}
  {
    assert (es + [e])[..|es + [e]| - 1] == es;
  }

  lemma ThenComeAndGo<T>(es: seq<Event<T>>, e0: Event<T>, e1: Event<T>)
    requires Early1(es) && e0.Admit? && e0.now == 1 && e0.ask.cost >= 0.0 && e1.Finish? && e1.now == 1
    ensures Early1(es + [e0] + [e1]) && Clients(es + [e0] + [e1]) == Clients(es) + {e0.client}
  {
    EarlyExtends(es, e0);
    EarlyExtends(es + [e0], e1);
  }

  lemma ThenSweepAndAsk<T>(es: seq<Event<T>>, sweep: Event<T>, ask: Event<T>)
    requires Early1(es) && sweep == Sweep(1) && ask.Admit? && ask.now == 1 && ask.ask.cost >= 0.0
    ensures Timely(0, es + [sweep] + [ask]) && WithoutSweeps(es + [sweep] + [ask]) == es + [ask]
    ensures Clients(es + [sweep] + [ask]) == Clients(es) + {ask.client}
  {
    EarlyExtends(es, sweep);
    EarlyExtends(es + [sweep], ask);
  }

  /** Every tracked client is anonymous, idle and full; nobody shares. */
  ghost predicate Parked<T>(cfg: Config, s: State<T>, n: nat)
    requires cfg.anonymous.Some?
  {
    && s.overflow == None && |s.keys| == n
    && (forall c :: c in s.keys ==> c.Ip? && |c.addr| < n && s.keys[c] == FullAt1(cfg.anonymous.value))
  }

  /** A request's end, when the account is the only one with requests. */
  lemma OneFinishes<T>(cfg: Config, s: State<T>, c: Client, t: T)
    requires (forall k :: k in s.keys ==> cfg.Knows(k)) && s.overflow == None && c in s.keys && t in s.keys[c].flights
    requires forall k :: k in s.keys && k != c ==> s.keys[k].flights == map[]
    ensures LimiterNext(cfg, s, Finish(t, 1)) == State(s.keys[c := FinishNext(cfg.TermsOf(c), s.keys[c], t, 1)], None)
  {
    var z := LimiterNext(cfg, s, Finish(t, 1));
    forall k | k in s.keys && k != c
      ensures z.keys[k] == s.keys[k]
    {
    }
    assert z.keys == s.keys[c := FinishNext(cfg.TermsOf(c), s.keys[c], t, 1)];
  }

  /** And when only the shared account has. */
  lemma SharedFinishes<T>(cfg: Config, s: State<T>, t: T)
    requires (forall k :: k in s.keys ==> cfg.Knows(k) && s.keys[k].flights == map[])
    requires cfg.anonymous.Some? && s.overflow.Some? && t in s.overflow.value.flights
    ensures LimiterNext(cfg, s, Finish(t, 1)) == State(s.keys, Some(FinishNext(cfg.TermsOf(SHARED), s.overflow.value, t, 1)))
  {
    var z := LimiterNext(cfg, s, Finish(t, 1));
    forall k | k in s.keys
      ensures z.keys[k] == s.keys[k]
    {
    }
    assert z.keys == s.keys;
  }

  lemma FreeArrival<T>(cfg: Config, s: State<T>, c: Client, t: T)
    requires LimitsAnonymous(cfg) && c.Ip? && c !in s.keys && |s.keys| < cfg.maxKeys
    ensures LimiterNext(cfg, s, Admit(c, FREE, t, 1))
            == s.(keys := s.keys[c := FullAt1(cfg.anonymous.value).(flights := map[t := NewFlight(FREE, 1)])])
  {
    var e: Event<T> := Admit(c, FREE, t, 1);
    FreeIsAdmitted(cfg.TermsOf(c), c, Fresh(), e);
  }

  lemma ComeAndGo<T>(cfg: Config, s: State<T>, n: nat, t: T)
    requires LimitsAnonymous(cfg) && Parked(cfg, s, n) && n < cfg.maxKeys
    ensures Parked(cfg, LimiterNext(cfg, LimiterNext(cfg, s, Admit(Ip(Address(n)), FREE, t, 1)), Finish(t, 1)), n + 1)
  {
    var c, p := Ip(Address(n)), cfg.anonymous.value;
    assert c !in s.keys;
    FreeArrival(cfg, s, c, t);
    var s1 := LimiterNext(cfg, s, Admit(c, FREE, t, 1));
    OneFinishes(cfg, s1, c, t);
    FreeIsDone(cfg.TermsOf(c), s1.keys[c], t);
    var s2 := LimiterNext(cfg, s1, Finish(t, 1));
    assert s2.keys == s.keys[c := FullAt1(p)];
  }

  lemma FreeIsDone<T>(x: Terms, a: Account<T>, t: T)
    requires a == Refill(x.plan, Fresh(), 1).(flights := map[t := NewFlight(FREE, 1)])
    ensures FinishNext(x, a, t, 1) == FullAt1(x.plan)
  {
    assert a.flights - {t} == map[];
    ChargeNothing(x.plan, a);
  }

  lemma {:induction false} FillingParks<T>(cfg: Config, n: nat, t: T)
    requires LimitsAnonymous(cfg) && n <= cfg.maxKeys
    ensures Parked<T>(cfg, LimiterRun(cfg, Empty(), Filling(n, t)), n)
  {
    if n == 0 {
      NobodyIsParked<T>(cfg);
    } else {
      FillingParks(cfg, n - 1, t);
      ParksOneMore(cfg, Empty(), Filling(n - 1, t), n - 1, t);
    }
  }

  lemma NobodyIsParked<T>(cfg: Config)
    requires cfg.anonymous.Some?
    ensures Parked<T>(cfg, LimiterRun(cfg, Empty(), []), 0)
  {
  }

  lemma ParksOneMore<T>(cfg: Config, s: State<T>, es: seq<Event<T>>, n: nat, t: T)
    requires LimitsAnonymous(cfg) && n < cfg.maxKeys && Parked(cfg, LimiterRun(cfg, s, es), n)
    ensures Parked(cfg, LimiterRun(cfg, s, es + [Admit(Ip(Address(n)), FREE, t, 1)] + [Finish(t, 1)]), n + 1)
  {
    TwoMore(cfg, s, es, Admit(Ip(Address(n)), FREE, t, 1), Finish(t, 1));
    ComeAndGo(cfg, LimiterRun(cfg, s, es), n, t);
  }

  lemma TwoMore<T>(cfg: Config, s: State<T>, es: seq<Event<T>>, e0: Event<T>, e1: Event<T>)
    ensures LimiterRun(cfg, s, es + [e0] + [e1]) == LimiterNext(cfg, LimiterNext(cfg, LimiterRun(cfg, s, es), e0), e1)
  {
    RunExtends(cfg, s, es, e0);
    RunExtends(cfg, s, es + [e0], e1);
  }

  lemma {:induction false} FillingIsEarly<T>(n: nat, t: T)
    ensures Early1(Filling(n, t)) && |Clients(Filling(n, t))| <= n
  {
    if n > 0 {
      var front := Filling(n - 1, t);
      var e0: Event<T>, e1: Event<T> := Admit(Ip(Address(n - 1)), FREE, t, 1), Finish(t, 1);
      FillingIsEarly(n - 1, t);
      ThenComeAndGo(front, e0, e1);
    }
  }

  // ------------------------------------------------------ the one too many

  lemma AllIsCovered(p: Plan)
    requires p.minute.Limited() || p.day.Limited()
    ensures All(p) > 0.0 && Refused(p, Everything(p)).None?
    ensures (p.minute.Limited() ==> All(p) <= p.minute.capacity) && (p.day.Limited() ==> All(p) <= p.day.capacity)
    ensures (p.minute.Limited() && All(p) == p.minute.capacity) || (p.day.Limited() && All(p) == p.day.capacity)
  {
  }

  lemma SpendsAll<T>(p: Plan, t: T)
    requires p.minute.Limited() || p.day.Limited()
    ensures AdmitVerdict<T>(p, Fresh(), Everything(p), 1).Admitted?
    ensures AdmitNext<T>(p, Fresh(), Everything(p), t, 1)
            == Charge(p, FullAt1(p), All(p)).(flights := map[t := NewFlight(Everything(p), 1)])
  {
    AllIsCovered(p);
    IdleVerdict<T>(p, Fresh(), Everything(p), 1);
  }

  lemma SpentIsRefused<T>(p: Plan, a: Account<T>)
    requires p.minute.Limited() || p.day.Limited()
    requires a == Charge(p, FullAt1(p), All(p))
    ensures AdmitVerdict(p, a, Everything(p), 1).TooMany?
  {
    AllIsCovered(p);
    IdleVerdict(p, a, Everything(p), 1);
  }

  /** Once the map is full, the next client spends the shared allowance. */
  lemma OneTooMany<T>(cfg: Config, s: State<T>, n: nat, t: T) returns (z: State<T>)
    requires LimitsAnonymous(cfg) && Parked(cfg, s, n) && n == cfg.maxKeys
    ensures z == LimiterNext(cfg, LimiterNext(cfg, s, Admit(Ip(Address(n)), Everything(cfg.anonymous.value), t, 1)), Finish(t, 1))
    ensures z == State(s.keys, Some(Charge(cfg.anonymous.value, FullAt1(cfg.anonymous.value), All(cfg.anonymous.value))))
  {
    var p, c := cfg.anonymous.value, Ip(Address(n));
    var e0: Event<T>, e1: Event<T> := Admit(c, Everything(p), t, 1), Finish(t, 1);
    assert c !in s.keys;
    AllIsCovered(p);
    SpendsAll(p, t);
    var s1 := LimiterNext(cfg, s, e0);
    var a := AdmitNext<T>(p, Fresh(), Everything(p), t, 1);
    assert s1 == State(s.keys, Some(a));
    SharedIsDone(cfg.TermsOf(SHARED), a, t);
    SharedFinishes(cfg, s1, t);
    z := LimiterNext(cfg, s1, e1);
  }

  lemma SharedIsDone<T>(x: Terms, a: Account<T>, t: T)
    requires a == Charge(x.plan, FullAt1(x.plan), All(x.plan)).(flights := map[t := NewFlight(Everything(x.plan), 1)])
    ensures FinishNext(x, a, t, 1) == Charge(x.plan, FullAt1(x.plan), All(x.plan))
  {
    assert a.flights - {t} == map[];
    ChargeNothing(x.plan, a);
  }

  /** A sweep then makes room for it to have an allowance of its own. */
  lemma SweptIsRoomy<T>(cfg: Config, s: State<T>, n: nat)
    requires LimitsAnonymous(cfg) && cfg.maxKeys > 0
    requires s.overflow.Some? && Parked(cfg, State(s.keys, None), n)
    ensures LimiterNext(cfg, s, Sweep(1)).keys == map[]
  {
    forall c | c in s.keys
      ensures Forgettable(cfg.anonymous.value, s.keys[c], 1)
    {
    }
    assert SweptKeys(cfg, s.keys, 1) == map[];
  }

  lemma LastDiffers<T(!new)>(cfg: Config, s: State<T>, es: seq<Event<T>>, fs: seq<Event<T>>, e: Event<T>, h: Holder)
    requires Covers(cfg, h) && !e.Sweep?
    requires Facing(cfg, LimiterRun(cfg, s, es), h, e) != Facing(cfg, LimiterRun(cfg, s, fs), h, e)
    ensures Trace(cfg, s, es + [e]) != Trace(cfg, s, fs + [e])
  {
    var u, v := Trace(cfg, s, es + [e]), Trace(cfg, s, fs + [e]);
    assert (es + [e])[..|es + [e]| - 1] == es && (fs + [e])[..|fs + [e]| - 1] == fs;
    assert u[|u| - 1] == Seen(cfg, LimiterRun(cfg, s, es), e);
    assert v[|v| - 1] == Seen(cfg, LimiterRun(cfg, s, fs), e);
    SeenDiffers(cfg, LimiterRun(cfg, s, es), LimiterRun(cfg, s, fs), e, h);
  }

  lemma SeenDiffers<T(!new)>(cfg: Config, u: State<T>, v: State<T>, e: Event<T>, h: Holder)
    requires Covers(cfg, h) && Facing(cfg, u, h, e) != Facing(cfg, v, h, e)
    ensures Seen(cfg, u, e) != Seen(cfg, v, e)
  {
    if Facing(cfg, u, h, e) != Silent {
      assert h in Seen(cfg, u, e) && Seen(cfg, u, e)[h] == Facing(cfg, u, h, e);
    } else {
      assert h in Seen(cfg, v, e) && h !in Seen(cfg, u, e);
    }
  }

  /** The client that spent the shared allowance asks again: refused as things
      are, admitted after a sweep. */
  lemma AskedAgain<T>(cfg: Config, full: State<T>, swept: State<T>, n: nat, t: T)
    requires LimitsAnonymous(cfg) && n == cfg.maxKeys > 0 && Parked(cfg, State(full.keys, None), n)
    requires full.overflow == Some(Charge(cfg.anonymous.value, FullAt1(cfg.anonymous.value), All(cfg.anonymous.value)))
    requires swept == LimiterNext(cfg, full, Sweep(1))
    ensures var c, e: Event<T> := Ip(Address(n)), Admit(Ip(Address(n)), Everything(cfg.anonymous.value), t, 1);
            Facing(cfg, swept, Own(c), e) != Facing(cfg, full, Own(c), e)
  {
    var p, c := cfg.anonymous.value, Ip(Address(n));
    SweptIsRoomy(cfg, full, n);
    SpendsAll(p, t);
    SpentIsRefused(p, full.overflow.value);
    assert Crowded(cfg, full, c) && !Crowded(cfg, swept, c);
  }

  /** The map filled, and the shared allowance spent by one client more. */
  function Crowd<T>(p: Plan, n: nat, t: T): seq<Event<T>> {
    Filling(n, t) + [Admit(Ip(Address(n)), Everything(p), t, 1)] + [Finish(t, 1)]
  }

  lemma CrowdSpends<T>(cfg: Config, n: nat, t: T) returns (full: State<T>)
    requires LimitsAnonymous(cfg) && n == cfg.maxKeys
    ensures full == LimiterRun(cfg, Empty(), Crowd(cfg.anonymous.value, n, t)) && Parked(cfg, State(full.keys, None), n)
    ensures full.overflow == Some(Charge(cfg.anonymous.value, FullAt1(cfg.anonymous.value), All(cfg.anonymous.value)))
  {
    var e0, s: State<T> := Filling(n, t), Empty();
    var ask: Event<T>, done: Event<T> := Admit(Ip(Address(n)), Everything(cfg.anonymous.value), t, 1), Finish(t, 1);
    FillingParks(cfg, n, t);
    RunExtends(cfg, s, e0, ask);
    RunExtends(cfg, s, e0 + [ask], done);
    var parked := LimiterRun(cfg, s, e0);
    full := OneTooMany(cfg, parked, n, t);
    assert State(full.keys, None) == parked;
  }

  lemma CrowdIsEarly<T>(p: Plan, n: nat, t: T)
    requires p.minute.Limited() || p.day.Limited()
    ensures Early1(Crowd(p, n, t)) && |Clients(Crowd(p, n, t)) + {Ip(Address(n))}| <= n + 1
  {
    var ask: Event<T>, done: Event<T> := Admit(Ip(Address(n)), Everything(p), t, 1), Finish(t, 1);
    AllIsPositive(p);
    FillingIsEarly(n, t);
    ThenComeAndGo(Filling(n, t), ask, done);
    OneMore(Clients(Filling(n, t)), Clients(Crowd(p, n, t)), Ip(Address(n)), n);
  }

  lemma OneMore(a: set<Client>, b: set<Client>, c: Client, n: nat)
    requires b == a + {c} && |a| <= n
    ensures |b + {c}| <= n + 1
  {
    assert b + {c} == b;
  }

  lemma AllIsPositive(p: Plan)
    requires p.minute.Limited() || p.day.Limited()
    ensures All(p) > 0.0
  {
  }

  /** A run of one client more than MaxKeys in which a sweep shows: the map fills
      with clients that want nothing, the next one spends the shared allowance and
      asks again. Swept, it gets an allowance of its own; unswept, it is refused. */
  lemma CrowdedRun<T(!new)>(cfg: Config, t: T) returns (es: seq<Event<T>>)
    requires cfg.Valid() && LimitsAnonymous(cfg) && cfg.maxKeys > 0
    ensures Timely(0, es) && |Clients(es)| <= cfg.maxKeys + 1
    ensures Trace(cfg, Empty(), es) != Trace(cfg, Empty(), WithoutSweeps(es))
  {
    CrowdIsEarly(cfg.anonymous.value, cfg.maxKeys, t);
    AllIsPositive(cfg.anonymous.value);
    var full := CrowdSpends(cfg, cfg.maxKeys, t);
    es := SweptAndAsked(cfg, t, Crowd(cfg.anonymous.value, cfg.maxKeys, t), full);
  }

  lemma SweptAndAsked<T(!new)>(cfg: Config, t: T, e1: seq<Event<T>>, full: State<T>) returns (es: seq<Event<T>>)
    requires cfg.Valid() && LimitsAnonymous(cfg) && cfg.maxKeys > 0 && All(cfg.anonymous.value) > 0.0
    requires Early1(e1) && |Clients(e1) + {Ip(Address(cfg.maxKeys))}| <= cfg.maxKeys + 1
    requires full == LimiterRun(cfg, Empty(), e1) && Parked(cfg, State(full.keys, None), cfg.maxKeys)
    requires full.overflow == Some(Charge(cfg.anonymous.value, FullAt1(cfg.anonymous.value), All(cfg.anonymous.value)))
    ensures Timely(0, es) && |Clients(es)| <= cfg.maxKeys + 1
    ensures Trace(cfg, Empty(), es) != Trace(cfg, Empty(), WithoutSweeps(es))
  {
    var c, s: State<T> := Ip(Address(cfg.maxKeys)), Empty();
    var ask: Event<T>, sweep: Event<T> := Admit(c, Everything(cfg.anonymous.value), t, 1), Sweep(1);
    ThenSweepAndAsk(e1, sweep, ask);
    RunExtends(cfg, s, e1, sweep);
    AskedAgain(cfg, full, LimiterRun(cfg, s, e1 + [sweep]), cfg.maxKeys, t);
    LastDiffers(cfg, s, e1 + [sweep], e1, ask, Own(c));
    es := e1 + [sweep] + [ask];
  }

  /** A limiter with limited anonymous clients hides its sweeps from every run of
      at most n clients if and only if it can track n. */
  lemma SweepsShowExactlyWhenCrowded<T(!new)>(cfg: Config, n: nat, t: T)
    requires cfg.Valid() && LimitsAnonymous(cfg) && cfg.maxKeys > 0
    ensures (forall es: seq<Event<T>> :: Timely(0, es) && |Clients(es)| <= n ==>
               Trace(cfg, Empty(), es) == Trace(cfg, Empty(), WithoutSweeps(es)))
       <==> n <= cfg.maxKeys
  {
    if n <= cfg.maxKeys {
      forall es: seq<Event<T>> | Timely(0, es) && |Clients(es)| <= n
        ensures Trace(cfg, Empty(), es) == Trace(cfg, Empty(), WithoutSweeps(es))
      {
        SweepIsInvisibleWithRoom(cfg, es);
      }
    } else {
      var es := CrowdedRun(cfg, t);
    }
  }

  // ------------------------------------------------------------ an instance

  const TIGHT := Plan(Window(1.0, SECOND), Window(0.0, 0), NO_CAPS)
  const ONE_KEY := Config(map[], Some(TIGHT), map[], 0.0, EffortRates(0.0, 0.0, 0.0, 0.0, 0.0), 1)
  const ONE_CREDIT := Ask(1.0, false, None)

  lemma TightRefill(level: real, at: int, now: int)
    requires 0 < at < now && level >= 0.0 && now - at >= SECOND
    ensures TIGHT.minute.Refill(Bucket(level, at), now) == Bucket(1.0, now)
    ensures TIGHT.minute.Refill(NEW_BUCKET, now) == Bucket(1.0, now)
  {
    var w := TIGHT.minute;
    assert w.Rate() == 1.0;
    assert w.Accrued(now - at) == Seconds(now - at);
    assert Seconds(now - at) >= 1.0;
  }

  lemma TightAdmission(a: Account<nat>, now: int, t: nat)
    requires a.flights == map[] && now > 0
    requires TIGHT.minute.Refill(a.minute, now) == Bucket(1.0, now)
    ensures AdmitVerdict(TIGHT, a, ONE_CREDIT, now).Admitted?
    ensures AdmitNext(TIGHT, a, ONE_CREDIT, t, now) ==
            Account(Bucket(0.0, now), Bucket(0.0, now), map[t := NewFlight(ONE_CREDIT, now)])
  {
    IdleVerdict(TIGHT, a, ONE_CREDIT, now);
  }

  /** With more clients than MaxKeys a sweep shows. One client spends its
      allowance, and is full again long before two others arrive in the same
      instant. Swept, the second client takes the first one's place and the
      third has the shared account to itself; unswept, the second spends the
      shared account and the third is refused. */
  lemma SweepShowsWhenCrowded(e0: Event<nat>, e1: Event<nat>, sweep: Event<nat>, e2: Event<nat>)
    requires e0 == Admit(Ip("a"), ONE_CREDIT, 0, SECOND) && e1 == Finish(0, SECOND)
    requires sweep == Sweep(9 * SECOND) && e2 == Admit(Ip("b"), ONE_CREDIT, 1, 10 * SECOND)
    ensures var third := Ip("c");
            var unswept := LimiterRun(ONE_KEY, Empty(), [e0] + [e1] + [e2]);
            var swept := LimiterRun(ONE_KEY, Empty(), [e0] + [e1] + [sweep] + [e2]);
            && AdmitVerdict(TIGHT, AccountFor(ONE_KEY, unswept, third), ONE_CREDIT, 10 * SECOND).TooMany?
            && AdmitVerdict(TIGHT, AccountFor(ONE_KEY, swept, third), ONE_CREDIT, 10 * SECOND).Admitted?
  {
    var s0: State<nat> := Empty();
    var s2 := FirstVisit(e0, e1);
    assert [] + [e0] == [e0];
    TwoMore(ONE_KEY, s0, [], e0, e1);
    RunExtends(ONE_KEY, s0, [e0] + [e1], e2);
    CrowdedArrival(s2, e2);
    RunExtends(ONE_KEY, s0, [e0] + [e1], sweep);
    FirstForgotten(sweep);
    RunExtends(ONE_KEY, s0, [e0] + [e1] + [sweep], e2);
    RoomyArrival(State(map[], None), e2);
  }

  const SPENT: Account<nat> := Account(Bucket(0.0, SECOND), Bucket(0.0, SECOND), map[])

  lemma FirstVisit(e0: Event<nat>, e1: Event<nat>) returns (s2: State<nat>)
    requires e0 == Admit(Ip("a"), ONE_CREDIT, 0, SECOND) && e1 == Finish(0, SECOND)
    ensures s2 == LimiterNext(ONE_KEY, LimiterNext(ONE_KEY, Empty(), e0), e1)
    ensures s2 == State(map[Ip("a") := SPENT], None)
  {
    var s0: State<nat> := Empty();
    assert TIGHT.minute.Refill(NEW_BUCKET, SECOND) == Bucket(1.0, SECOND);
    TightAdmission(Fresh(), SECOND, 0);
    var a1 := AdmitNext(TIGHT, Fresh(), ONE_CREDIT, 0, SECOND);
    assert |s0.keys| == 0;
    assert LimiterNext(ONE_KEY, s0, e0) == State(map[Ip("a") := a1], None);
    FirstDone(a1);
    s2 := State(map[Ip("a") := SPENT], None);
  }

  lemma FirstDone(a: Account<nat>)
    requires a == Account(Bucket(0.0, SECOND), Bucket(0.0, SECOND), map[0 := NewFlight(ONE_CREDIT, SECOND)])
    ensures LimiterNext(ONE_KEY, State(map[Ip("a") := a], None), Finish(0, SECOND)) == State(map[Ip("a") := SPENT], None)
  {
    assert FinishNext(ONE_KEY.TermsOf(Ip("a")), a, 0, SECOND) == SPENT;
  }

  lemma FirstForgotten(sweep: Event<nat>)
    requires sweep == Sweep(9 * SECOND)
    ensures LimiterNext(ONE_KEY, State(map[Ip("a") := SPENT], None), sweep) == State(map[], None)
  {
    TightRefill(0.0, SECOND, 9 * SECOND);
    assert Forgettable(TIGHT, SPENT, 9 * SECOND);
  }

  lemma CrowdedArrival(s: State<nat>, e: Event<nat>)
    requires s.keys.Keys == {Ip("a")} && s.overflow.None? && e == Admit(Ip("b"), ONE_CREDIT, 1, 10 * SECOND)
    ensures var s' := LimiterNext(ONE_KEY, s, e);
            AdmitVerdict(TIGHT, AccountFor(ONE_KEY, s', Ip("c")), ONE_CREDIT, 10 * SECOND).TooMany?
  {
    assert |s.keys| == 1;
    TightRefill(0.0, 1, 10 * SECOND);
    TightAdmission(Fresh(), 10 * SECOND, 1);
    var s' := LimiterNext(ONE_KEY, s, e);
    var b := s'.overflow.value;
    assert Extras(b.flights) == map[1 := 0.0];
    SumRemove(Extras(b.flights), 1);
    assert Extras(b.flights) - {1} == map[];
    EnoughCovers(TIGHT, 0.0, 0.0, 1.0);
  }

  lemma RoomyArrival(s: State<nat>, e: Event<nat>)
    requires s.keys == map[] && s.overflow.None? && e == Admit(Ip("b"), ONE_CREDIT, 1, 10 * SECOND)
    ensures var s' := LimiterNext(ONE_KEY, s, e);
            AdmitVerdict(TIGHT, AccountFor(ONE_KEY, s', Ip("c")), ONE_CREDIT, 10 * SECOND).Admitted?
  {
    TightRefill(0.0, 1, 10 * SECOND);
    var s' := LimiterNext(ONE_KEY, s, e);
    assert s'.keys.Keys == {Ip("b")};
    assert |s'.keys| == 1;
    TightAdmission(Fresh(), 10 * SECOND, 2);
  }
}
