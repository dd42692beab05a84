/** What a simulate request may ask of the fleet, and what its body asks
    (internal/domain/eligible.go and internal/domain/classify.go). */
module FleetLimits {
  import opened Requests
  import opened Upstreams
  import opened Routing
  import opened Accounts
  import opened Pricing

  // ---------------------------------------------------------- simulate bodies

  /** The part of a simulate request's body routing reads. */
  datatype SimulateBody = SimulateBody(
    txnGroups: nat,
    round: nat,
    rounds: seq<nat>,
    extraOpcodeBudget: int,
    execTrace: bool,
    allowUnnamedResources: bool,
    parallelGroups: bool,
    skipValidityWindow: bool,
    rewriteValidityWindow: bool,
    protocol: string)

  /** POST /v2/transactions/simulate before its body is read. */
  const SIMULATE := RequestClass(None, false, false, "", None, false, true, false, WindowBlock, false, true, None, 0, false, false)

  /** lo and hi are the earliest and the latest of the rounds other than 0. */
  ghost predicate Spans(rounds: seq<nat>, lo: nat, hi: nat) {
    if forall r :: r in rounds ==> r == 0 then lo == 0 && hi == 0
    else
      && 0 < lo <= hi && lo in rounds && hi in rounds
      && forall r :: r in rounds && r != 0 ==> lo <= r <= hi
  }

  lemma SpanGrows(rounds: seq<nat>, r: nat, lo: nat, hi: nat)
    requires Spans(rounds, lo, hi)
    ensures if r == 0 then Spans(rounds + [r], lo, hi)
            else Spans(rounds + [r], if lo == 0 || r < lo then r else lo, MaxNat(hi, r))
  {
    var more := rounds + [r];
    assert forall x :: x in more <==> x in rounds || x == r;
    assert r in more;
    if lo == 0 {
      assert forall x :: x in more && x != r ==> x == 0;
    } else {
      assert lo in more && hi in more;
    }
  }

  lemma SpanIsUnique(rounds: seq<nat>, lo: nat, hi: nat, from: nat, to: nat)
    requires Spans(rounds, lo, hi) && Spans(rounds, from, to)
    ensures lo == from && hi == to
  {
  }

  method SpanOf(rounds: seq<nat>) returns (lo: nat, hi: nat, latest: bool)
    ensures Spans(rounds, lo, hi) && (latest <==> 0 in rounds)
  {
    lo, hi, latest := 0, 0, false;
    for i := 0 to |rounds|
      invariant Spans(rounds[..i], lo, hi) && (latest <==> 0 in rounds[..i])
    {
      var r := rounds[i];
      assert rounds[..i + 1] == rounds[..i] + [r];
      SpanGrows(rounds[..i], r, lo, hi);
      if r == 0 {
        latest := true;
      } else {
        if lo == 0 || r < lo {
          lo := r;
        }
        hi := MaxNat(hi, r);
      }
    }
    assert rounds[..|rounds|] == rounds;
  }

  function NeedsOf(b: SimulateBody): SimulateNeeds {
    SimulateNeeds(b.txnGroups, |b.rounds|, if b.extraOpcodeBudget > 0 then b.extraOpcodeBudget else 0,
                  b.parallelGroups || b.skipValidityWindow || b.rewriteValidityWindow || b.protocol != "",
                  b.execTrace || b.protocol == "future", false, false, b.execTrace, b.allowUnnamedResources)
  }

  /** What a body asks: its groups and its rounds, the budget unless negative; the fork
      for an option stock algod lacks; the developer API for a trace or the future
      protocol; and the options a plan may deny. */
  lemma NeedsTell(b: SimulateBody)
    ensures var n := NeedsOf(b);
            && n.groups == b.txnGroups && n.rounds == |b.rounds|
            && (b.extraOpcodeBudget >= 0 ==> n.extraOpcodeBudget == b.extraOpcodeBudget)
            && (b.extraOpcodeBudget < 0 ==> n.extraOpcodeBudget == 0)
            && (n.fork <==> b.parallelGroups || b.skipValidityWindow || b.rewriteValidityWindow || b.protocol != "")
            && (n.developerAPI <==> b.execTrace || b.protocol == "future")
            && (n.execTrace <==> b.execTrace) && (n.unnamedResources <==> b.allowUnnamedResources)
  {
  }

  /** A plan that denies an option refuses every simulation that uses it, and one that
      bounds groups, rounds or the budget every simulation past the bound. */
  lemma PlanDenies<T>(p: Plan, a: Account<T>, b: SimulateBody, d: RequestClass, w: CostWeights, best: nat, now: int)
    requires Applied(SIMULATE, b, d)
    requires || (p.simulate.denyExecTrace && b.execTrace)
             || (p.simulate.denyUnnamedResources && b.allowUnnamedResources)
             || 0 < p.simulate.maxGroups < b.txnGroups
             || 0 < p.simulate.maxRounds < |b.rounds|
             || 0 < p.simulate.maxExtraOpcodeBudget < b.extraOpcodeBudget
    ensures AdmitVerdict(p, a, AskOf(w, d, best), now).Forbidden?
  {
    var ask := AskOf(w, d, best);
    ForbiddenExactly(p, a, ask, now);
    assert ask.metered && ask.needs == d.simNeeds;
    var why := if p.simulate.denyExecTrace && b.execTrace then TraceCap
               else if p.simulate.denyUnnamedResources && b.allowUnnamedResources then UnnamedCap
               else if 0 < p.simulate.maxGroups < b.txnGroups then GroupsCap
               else if 0 < p.simulate.maxRounds < |b.rounds| then RoundsCap
               else BudgetCap;
    assert Never(p, ask, why);
  }

  function Spanning(c: RequestClass, n: SimulateNeeds, lo: nat, hi: nat): RequestClass {
    c.(round := Some(lo), roundHigh := hi, roundWindow := WindowState, historyAnyRound := true, simNeeds := Some(n))
  }

  /** What a body makes of a class: its needs, and the rounds a node must hold. */
  ghost predicate Applied(c: RequestClass, b: SimulateBody, d: RequestClass) {
    if b.round != 0 then
      d == c.(round := Some(b.round), roundWindow := WindowState, historyAnyRound := true, simNeeds := Some(NeedsOf(b)))
    else
      var latest := 0 in b.rounds;
      if forall r :: r in b.rounds ==> r == 0 then d == c.(simNeeds := Some(NeedsOf(b).(latest := latest)))
      else
        && d.round.Some? && Spans(b.rounds, d.round.value, d.roundHigh)
        && d == Spanning(c, NeedsOf(b).(latest := latest, roundsSpan := true), d.round.value, d.roundHigh)
  }

  method ApplySimulate(c: RequestClass, b: SimulateBody) returns (d: RequestClass)
    ensures Applied(c, b, d)
  {
    var n := NeedsOf(b);
    d := c;
    if b.round != 0 {
      d := d.(round := Some(b.round), roundWindow := WindowState, historyAnyRound := true);
    } else if |b.rounds| > 0 {
      var lo, hi, latest := SpanOf(b.rounds);
      n := n.(latest := latest);
      if hi > 0 {
        d := d.(round := Some(lo), roundWindow := WindowState, historyAnyRound := true, roundHigh := hi);
        n := n.(roundsSpan := true);
      } else {
        assert forall r :: r in b.rounds ==> r == 0;
      }
    }
    d := d.(simNeeds := Some(n));
  }

  /** A body asks for one class. */
  lemma AppliedIsUnique(c: RequestClass, b: SimulateBody, d: RequestClass, e: RequestClass)
    requires Applied(c, b, d) && Applied(c, b, e)
    ensures d == e
  {
    if b.round == 0 && !(forall r :: r in b.rounds ==> r == 0) {
      SpanIsUnique(b.rounds, d.round.value, d.roundHigh, e.round.value, e.roundHigh);
    }
  }

  /** A node eligible for a rounds list holds every round the list names, and is
      in sync when it names the latest. */
  lemma ListedRoundsAreHeld(u: Upstream, c: RequestClass, b: SimulateBody, d: RequestClass, best: nat, tol: nat)
    requires Applied(c, b, d) && MayServe(u, d, best, tol) && b.round == 0
    ensures forall r: nat :: r in b.rounds && r != 0 ==> r <= u.lastRound && Keeps(u, d, r)
    ensures 0 in b.rounds && !c.localOnly ==> Current(u, best, tol)
  {
    forall r: nat | r in b.rounds && r != 0
      ensures r <= u.lastRound && Keeps(u, d, r)
    {
      ListedIsSpanned(c, b, d, r);
      LaterIsKept(u, d, d.round.value, r);
    }
    LatestNeedsSync(c, b, d);
  }

  lemma LatestNeedsSync(c: RequestClass, b: SimulateBody, d: RequestClass)
    requires Applied(c, b, d) && b.round == 0
    ensures 0 in b.rounds && !c.localOnly ==> NeedsSync(d)
  {
    AppliedKeeps(c, b, d);
  }

  lemma AppliedKeeps(c: RequestClass, b: SimulateBody, d: RequestClass)
    requires Applied(c, b, d) && b.round == 0
    ensures d.localOnly == c.localOnly && d.simNeeds.Some?
    ensures d.simNeeds.value.latest <==> 0 in b.rounds
  {
    if forall r :: r in b.rounds ==> r == 0 {
      assert d == c.(simNeeds := Some(NeedsOf(b).(latest := 0 in b.rounds)));
    } else {
      assert d == Spanning(c, NeedsOf(b).(latest := 0 in b.rounds, roundsSpan := true), d.round.value, d.roundHigh);
    }
  }

  lemma LaterIsKept(u: Upstream, c: RequestClass, r: nat, later: nat)
    requires Keeps(u, c, r) && r <= later
    ensures Keeps(u, c, later)
  {
  }

  lemma ListedIsSpanned(c: RequestClass, b: SimulateBody, d: RequestClass, r: nat)
    requires Applied(c, b, d) && b.round == 0 && r in b.rounds && r != 0
    ensures d.round.Some? && d.round.value <= r <= d.roundHigh
  {
  }

  // ------------------------------------------------------------ fleet limits

  datatype Reply = Reply(
    maxTxnGroups: nat,
    maxRounds: nat,
    maxExtraOpcodeBudget: nat,
    resourceLimitMultiplier: nat,
    timeTravel: bool,
    developerAPI: bool,
    maxExecTraceBytes: nat,
    timeLimitSeconds: nat)

  function ReplyOf(u: Upstream, multiplier: nat): Reply {
    var l := u.caps.Limits();
    Reply(l.maxTxnGroups, l.maxRounds, l.maxExtraOpcodeBudget, multiplier, u.caps.timeTravel, u.caps.developerAPI,
          l.maxExecTraceBytes, l.timeLimitSeconds)
  }

  /** The reply tells the node's own limits, capabilities and run limits, and the
      multiplier found for the fleet. */
  lemma ReplyTells(u: Upstream, multiplier: nat)
    requires u.caps.simulate.Some?
    ensures var r, l := ReplyOf(u, multiplier), u.caps.simulate.value;
            && r.resourceLimitMultiplier == multiplier
            && r.timeTravel == u.caps.timeTravel && r.developerAPI == u.caps.developerAPI
            && r.maxExecTraceBytes == l.maxExecTraceBytes && r.timeLimitSeconds == l.timeLimitSeconds
            && (1 <= l.maxTxnGroups <= 256 ==> r.maxTxnGroups == l.maxTxnGroups)
            && (l.maxRounds <= 256 ==> r.maxRounds == l.maxRounds)
            && (1 <= l.maxExtraOpcodeBudget <= 320_000_000 ==> r.maxExtraOpcodeBudget == l.maxExtraOpcodeBudget)
  {
    LimitsStand(u.caps);
  }

  predicate Above(a: Upstream, b: Upstream) {
    var la, lb := a.caps.Limits(), b.caps.Limits();
    if la.maxTxnGroups != lb.maxTxnGroups then la.maxTxnGroups > lb.maxTxnGroups
    else if la.maxRounds != lb.maxRounds then la.maxRounds > lb.maxRounds
    else if la.maxExtraOpcodeBudget != lb.maxExtraOpcodeBudget then la.maxExtraOpcodeBudget > lb.maxExtraOpcodeBudget
    else if a.caps.timeTravel != b.caps.timeTravel then a.caps.timeTravel
    else if a.caps.developerAPI != b.caps.developerAPI then a.caps.developerAPI
    else Before(a.id, b.id)
  }

  /** Limits are compared in order: groups, rounds, the budget, time travel, the
      developer API, and the id last. */
  lemma AboveCompares(a: Upstream, b: Upstream)
    ensures var la, lb := a.caps.Limits(), b.caps.Limits();
            && (la.maxTxnGroups > lb.maxTxnGroups ==> Above(a, b))
            && (la.maxTxnGroups == lb.maxTxnGroups ==>
                  && (la.maxRounds > lb.maxRounds ==> Above(a, b))
                  && (la.maxRounds == lb.maxRounds ==>
                        && (la.maxExtraOpcodeBudget > lb.maxExtraOpcodeBudget ==> Above(a, b))
                        && (la.maxExtraOpcodeBudget == lb.maxExtraOpcodeBudget ==> AboveByCaps(a, b))))
  {
  }

  predicate AboveByCaps(a: Upstream, b: Upstream) {
    && (a.caps.timeTravel && !b.caps.timeTravel ==> Above(a, b))
    && (a.caps.timeTravel == b.caps.timeTravel && a.caps.developerAPI && !b.caps.developerAPI ==> Above(a, b))
    && (a.caps.timeTravel == b.caps.timeTravel && a.caps.developerAPI == b.caps.developerAPI && Before(a.id, b.id) ==> Above(a, b))
  }

  lemma AboveIsTotal(a: Upstream, b: Upstream)
    ensures !(Above(a, b) && Above(b, a))
    ensures a.id != b.id ==> Above(a, b) || Above(b, a)
  {
    BeforeIsTotal(a.id, b.id);
  }

  lemma AboveIsTransitive(a: Upstream, b: Upstream, c: Upstream)
    requires !Above(b, a) && !Above(c, b)
    ensures !Above(c, a)
  {
    BeforeIsTotal(a.id, b.id);
    BeforeIsTotal(b.id, c.id);
    BeforeIsTotal(a.id, c.id);
    BeforeIsTransitive(c.id, a.id, b.id);
    BeforeIsTransitive(b.id, c.id, a.id);
    BeforeIsTransitive(a.id, b.id, c.id);
  }

  predicate Answers(u: Upstream, best: nat, tol: nat) {
    Eligible(u, SIMULATE, best, tol)
  }

  /** The limits of one eligible node that reports them, above every other such;
      the multiplier the least of every eligible node. */
  ghost predicate IsReport(us: seq<Upstream>, best: nat, tol: nat, top: Upstream, multiplier: nat) {
    && top in us && Answers(top, best, tol) && top.caps.simulate.Some?
    && (forall u :: u in us && Answers(u, best, tol) && u.caps.simulate.Some? ==> !Above(u, top))
    && IsMultiplier(us, best, tol, multiplier)
  }

  ghost predicate IsMultiplier(us: seq<Upstream>, best: nat, tol: nat, multiplier: nat) {
    && (forall u :: u in us && Answers(u, best, tol) ==> 0 < multiplier <= u.caps.Limits().resourceLimitMultiplier)
    && (multiplier > 0 ==> exists u :: u in us && Answers(u, best, tol) && u.caps.Limits().resourceLimitMultiplier == multiplier)
  }

  ghost predicate NoneReports(us: seq<Upstream>, best: nat, tol: nat) {
    forall u :: u in us && Answers(u, best, tol) ==> u.caps.simulate.None?
  }

  method FleetSimulateLimits(us: seq<Upstream>, best: nat, tol: nat) returns (reply: Option<Reply>, ghost top: Option<Upstream>)
    ensures reply.None? ==> NoneReports(us, best, tol)
    ensures reply.Some? ==> top.Some? && IsReport(us, best, tol, top.value, reply.value.resourceLimitMultiplier)
                            && reply.value == ReplyOf(top.value, reply.value.resourceLimitMultiplier)
  {
    var found, multiplier := None, 0;
    for i := 0 to |us|
      invariant IsMultiplier(us[..i], best, tol, multiplier)
      invariant found.None? ==> NoneReports(us[..i], best, tol)
      invariant found.Some? ==> IsReport(us[..i], best, tol, found.value, multiplier)
    {
      ReportStep(us, i, best, tol, found, multiplier);
      if Answers(us[i], best, tol) {
        var m := us[i].caps.Limits().resourceLimitMultiplier;
        if us[i].caps.simulate.Some? && (found.None? || Above(us[i], found.value)) {
          found := Some(us[i]);
        }
        if multiplier == 0 || m < multiplier {
          multiplier := m;
        }
      }
    }
    assert us[..|us|] == us;
    top := found;
    reply := if found.Some? then Some(ReplyOf(found.value, multiplier)) else None;
  }

  /** One round of FleetSimulateLimits' loop. */
  function Reported(u: Upstream, best: nat, tol: nat, found: Option<Upstream>, multiplier: nat): (Option<Upstream>, nat) {
    if !Answers(u, best, tol) then (found, multiplier)
    else
      var m := u.caps.Limits().resourceLimitMultiplier;
      (if u.caps.simulate.Some? && (found.None? || Above(u, found.value)) then Some(u) else found,
       if multiplier == 0 || m < multiplier then m else multiplier)
  }

  lemma ReportStep(us: seq<Upstream>, i: nat, best: nat, tol: nat, found: Option<Upstream>, multiplier: nat)
    requires i < |us| && IsMultiplier(us[..i], best, tol, multiplier)
    requires if found.None? then NoneReports(us[..i], best, tol) else IsReport(us[..i], best, tol, found.value, multiplier)
    ensures var (f, m) := Reported(us[i], best, tol, found, multiplier);
            && IsMultiplier(us[..i + 1], best, tol, m)
            && if f.None? then NoneReports(us[..i + 1], best, tol) else IsReport(us[..i + 1], best, tol, f.value, m)
  {
    var (f, m) := Reported(us[i], best, tol, found, multiplier);
    assert us[..i + 1] == us[..i] + [us[i]];
    assert us[i] in us[..i + 1];
    MultiplierStep(us, i, best, tol, multiplier, m);
    if f.Some? {
      forall u | u in us[..i + 1] && Answers(u, best, tol) && u.caps.simulate.Some?
        ensures !Above(u, f.value)
      {
        AboveIsTotal(u, f.value);
        if found.Some? {
          AboveIsTotal(f.value, found.value);
          if u in us[..i] {
            AboveIsTransitive(f.value, found.value, u);
          }
        }
      }
    }
  }

  lemma MultiplierStep(us: seq<Upstream>, i: nat, best: nat, tol: nat, multiplier: nat, m: nat)
    requires i < |us| && IsMultiplier(us[..i], best, tol, multiplier)
    requires m == if !Answers(us[i], best, tol) then multiplier
                  else if multiplier == 0 || us[i].caps.Limits().resourceLimitMultiplier < multiplier
                  then us[i].caps.Limits().resourceLimitMultiplier else multiplier
    ensures IsMultiplier(us[..i + 1], best, tol, m)
  {
    assert us[..i + 1] == us[..i] + [us[i]];
    assert us[i] in us[..i + 1];
  }

  /** With distinct ids the answer is one answer, whatever the candidates' order,
      and excluded candidates do not move it. */
  lemma ReportIsUnique(us: seq<Upstream>, others: seq<Upstream>, best: nat, tol: nat, a: Upstream, m: nat, b: Upstream, n: nat)
    requires forall u :: u in NotExcluded(us) <==> u in NotExcluded(others)
    requires forall x, y :: x in us && y in us && x.id == y.id ==> x == y
    requires IsReport(us, best, tol, a, m) && IsReport(others, best, tol, b, n)
    ensures a == b && m == n && ReplyOf(a, m) == ReplyOf(b, n)
  {
    NotExcludedKeeps(us);
    NotExcludedKeeps(others);
    forall u | Answers(u, best, tol)
      ensures u in us <==> u in others
    {
      assert u in us <==> u in NotExcluded(us);
    }
    AboveIsTotal(a, b);
  }

  /** A node whose limits are all at least another's, some more, comes first. */
  lemma LargestComesFirst(a: Upstream, b: Upstream)
    requires var la, lb := a.caps.Limits(), b.caps.Limits();
             && la.maxTxnGroups >= lb.maxTxnGroups && la.maxRounds >= lb.maxRounds && la.maxExtraOpcodeBudget >= lb.maxExtraOpcodeBudget
             && (b.caps.timeTravel ==> a.caps.timeTravel) && (b.caps.developerAPI ==> a.caps.developerAPI)
             && (la.maxTxnGroups, la.maxRounds, la.maxExtraOpcodeBudget, a.caps.timeTravel, a.caps.developerAPI)
                != (lb.maxTxnGroups, lb.maxRounds, lb.maxExtraOpcodeBudget, b.caps.timeTravel, b.caps.developerAPI)
    ensures Above(a, b)
  {
  }

  /** A body within the limits of a reply; without time travel it names no past
      round. */
  predicate Within(b: SimulateBody, reply: Reply) {
    && b.txnGroups <= reply.maxTxnGroups && |b.rounds| <= reply.maxRounds
    && b.extraOpcodeBudget <= reply.maxExtraOpcodeBudget
    && (b.execTrace || b.protocol == "future" ==> reply.developerAPI)
  }

  predicate NamesPast(b: SimulateBody) {
    b.round != 0 || exists r :: r in b.rounds && r != 0
  }

  /** Any request within the fleet's limits fits the node they were taken from,
      whether it names no past round or, with the history, rounds that node has
      reached: the router finds a node for it without relaxing it. */
  lemma PromiseIsKept(us: seq<Upstream>, best: nat, tol: nat, top: Upstream, reply: Reply, b: SimulateBody, d: RequestClass,
                      mode: Mode, w: Weights, draws: Option<(nat, nat)>)
    requires IsReport(us, best, tol, top, reply.resourceLimitMultiplier) && reply == ReplyOf(top, reply.resourceLimitMultiplier)
    requires Within(b, reply) && Applied(SIMULATE, b, d)
    requires NamesPast(b) ==> reply.timeTravel && b.round <= top.lastRound && forall r :: r in b.rounds ==> r <= top.lastRound
    ensures Eligible(top, d, best, tol)
    ensures SelectOf(mode, Scored(us, d, best, tol, w), d, draws).Some?
  {
    assert Fits(d.simNeeds.value, top.caps);
    SelectsWhenEligible(mode, us, d, best, tol, w, draws);
  }

  // ----------------------------------------------------------------- relaxing

  /** The classes selection falls back to, in order. */
  function Relaxed(c: RequestClass): seq<RequestClass> {
    if c.simNeeds.None? then []
    else if c.simNeeds.value.roundsSpan then
      var d := c.(round := None, roundHigh := 0, roundWindow := WindowBlock, historyAnyRound := false);
      [d, d.(simNeeds := None)]
    else [c.(simNeeds := None)]
  }

  /** A rounds list is dropped first, and with it the round and the window it gave the
      class; then what else the body asked; a single round stays. */
  lemma RelaxingDrops(c: RequestClass)
    ensures c.simNeeds.None? ==> Relaxed(c) == []
    ensures c.simNeeds.Some? ==>
              && |Relaxed(c)| == (if c.simNeeds.value.roundsSpan then 2 else 1)
              && var last := Relaxed(c)[|Relaxed(c)| - 1];
                 && last.simNeeds.None? && (!c.simNeeds.value.roundsSpan ==> last == c.(simNeeds := None))
                 && (c.simNeeds.value.roundsSpan ==>
                       && Relaxed(c)[0] == last.(simNeeds := c.simNeeds)
                       && last == c.(simNeeds := None, round := None, roundHigh := 0, roundWindow := WindowBlock, historyAnyRound := false))
  {
  }

  /** Each step of relaxing asks no more of a node in sync than the one before. */
  lemma RelaxingOnlyWidens(u: Upstream, c: RequestClass, best: nat, tol: nat, k: nat)
    requires Eligible(u, c, best, tol) && InSync(u, best, tol) && k < |Relaxed(c)|
    ensures Eligible(u, Relaxed(c)[k], best, tol)
  {
  }

  /** Which node eligible for the strict class a relaxed one gives up: exactly one
      that holds the listed rounds but is out of sync. */
  lemma RelaxingKeepsExactly(u: Upstream, c: RequestClass, best: nat, tol: nat, k: nat)
    requires Eligible(u, c, best, tol) && k < |Relaxed(c)|
    ensures Eligible(u, Relaxed(c)[k], best, tol) <==> (c.simNeeds.value.roundsSpan && !c.localOnly ==> InSync(u, best, tol))
  {
  }

  /** The router relaxes a class only when nothing could serve it: then no
      candidate is eligible for it, so relaxing gives up none. */
  lemma NothingIsGivenUp(cands: seq<Upstream>, c: RequestClass, best: nat, tol: nat)
    requires forall u :: u in cands ==> !Serves(u, c)
    ensures forall u :: u in cands ==> !Eligible(u, c, best, tol)
  {
    forall u | u in cands
      ensures !Eligible(u, c, best, tol)
    {
      if Eligible(u, c, best, tol) {
        EligibleCouldServe(u, c, best, tol);
      }
    }
  }

  const LATE_HOLDER := Upstream("n", Peer, 0, Lagging, 100,
                                Capabilities(0, false, false, true, Some(SimulateLimits(1, 4, 0, 1, 0, 0)), 4),
                                false, false, NO_STATS, 0.0)
  const TWO_ROUNDS := SimulateBody(1, 0, [40, 50], 0, false, false, false, false, false, "")

  /** A history node that lags but has reached both rounds of a list serves the
      list, and neither of its relaxed classes. */
  lemma RelaxingLosesLateHolders(d: RequestClass)
    requires Applied(SIMULATE, TWO_ROUNDS, d)
    ensures Eligible(LATE_HOLDER, d, 200, 0) && |Relaxed(d)| == 2
    ensures forall k :: 0 <= k < 2 ==> !Eligible(LATE_HOLDER, Relaxed(d)[k], 200, 0)
  {
    assert TWO_ROUNDS.rounds[0] == 40 && TWO_ROUNDS.rounds[1] == 50;
    assert Spans(TWO_ROUNDS.rounds, 40, 50);
    SpanIsUnique(TWO_ROUNDS.rounds, 40, 50, d.round.value, d.roundHigh);
  }
}
