/** What an upstream is and which may serve a request (internal/domain/types.go
    and internal/domain/eligible.go). */
module Upstreams {
  import opened Requests
  import UpstreamStats

  datatype Health = Starting | Offline | Online | Lagging | Synced {
    predicate Reachable() {
      Online? || Lagging? || Synced?
    }
  }

  datatype Kind = Local | Peer | External

  datatype SimulateLimits = SimulateLimits(
    maxTxnGroups: nat,
    maxRounds: nat,
    maxExtraOpcodeBudget: nat,
    resourceLimitMultiplier: nat,
    maxExecTraceBytes: nat,
    timeLimitSeconds: nat)

  const STOCK_MAX_EXTRA_OPCODE_BUDGET: nat := 320000
  const STOCK_LIMITS := SimulateLimits(1, 0, STOCK_MAX_EXTRA_OPCODE_BUDGET, 1, 0, 0)
  const MAX_SIMULATE_GROUPS: nat := 256
  const MAX_SIMULATE_ROUNDS: nat := 256
  const MAX_EXTRA_OPCODE_BUDGET: nat := 320000000
  const MAX_RESOURCE_LIMIT_MULTIPLIER: nat := 1024

  function MinNat(a: nat, b: nat): nat {
    if a <= b then a else b
  }

  datatype Capabilities = Capabilities(
    oldestRound: nat,
    developerAPI: bool,
    followMode: bool,
    timeTravel: bool,
    simulate: Option<SimulateLimits>,
    maxAcctLookback: nat)
  {
    /** Read as dtalgorand reads its config: stock for none, each within the
        fork's ceilings. */
    function Limits(): SimulateLimits {
      if simulate.None? then STOCK_LIMITS
      else
        var l := simulate.value;
        l.(maxTxnGroups := MinNat(MaxNat(l.maxTxnGroups, 1), MAX_SIMULATE_GROUPS),
           maxRounds := MinNat(l.maxRounds, MAX_SIMULATE_ROUNDS),
           maxExtraOpcodeBudget := MinNat(if l.maxExtraOpcodeBudget == 0 then STOCK_MAX_EXTRA_OPCODE_BUDGET else l.maxExtraOpcodeBudget,
                                          MAX_EXTRA_OPCODE_BUDGET),
           resourceLimitMultiplier := MinNat(MaxNat(l.resourceLimitMultiplier, 1), MAX_RESOURCE_LIMIT_MULTIPLIER))
    }
  }

  /** A node's limits are within the fork's ceilings, allow one group and some
      budget, and read back as they are. */
  lemma LimitsReadBack(c: Capabilities)
    ensures var l := c.Limits();
            && 1 <= l.maxTxnGroups <= 256 && l.maxRounds <= 256
            && 1 <= l.maxExtraOpcodeBudget <= 320_000_000
            && 1 <= l.resourceLimitMultiplier <= 1024
            && c.(simulate := Some(l)).Limits() == l
  {
  }

  /** A configured value stands when it is within the ceilings; none at all stands for
      one, or for the stock budget; and a node that reports no limits has the stock
      ones. */
  lemma LimitsStand(c: Capabilities)
    ensures c.simulate.None? ==> c.Limits() == SimulateLimits(1, 0, 320_000, 1, 0, 0)
    ensures c.simulate.Some? ==>
              var was, l := c.simulate.value, c.Limits();
              && (1 <= was.maxTxnGroups <= 256 ==> l.maxTxnGroups == was.maxTxnGroups)
              && (was.maxTxnGroups == 0 ==> l.maxTxnGroups == 1) && (was.maxTxnGroups > 256 ==> l.maxTxnGroups == 256)
              && (was.maxRounds <= 256 ==> l.maxRounds == was.maxRounds) && (was.maxRounds > 256 ==> l.maxRounds == 256)
              && (was.maxExtraOpcodeBudget == 0 ==> l.maxExtraOpcodeBudget == 320_000)
              && (1 <= was.maxExtraOpcodeBudget <= 320_000_000 ==> l.maxExtraOpcodeBudget == was.maxExtraOpcodeBudget)
              && (was.maxExtraOpcodeBudget > 320_000_000 ==> l.maxExtraOpcodeBudget == 320_000_000)
              && (1 <= was.resourceLimitMultiplier <= 1024 ==> l.resourceLimitMultiplier == was.resourceLimitMultiplier)
              && (was.resourceLimitMultiplier == 0 ==> l.resourceLimitMultiplier == 1)
              && (was.resourceLimitMultiplier > 1024 ==> l.resourceLimitMultiplier == 1024)
              && l.maxExecTraceBytes == was.maxExecTraceBytes && l.timeLimitSeconds == was.timeLimitSeconds
  {
  }

  const NO_STATS := UpstreamStats.Snapshot(map[], 0.0, 0, false, false, false)

  datatype Upstream = Upstream(
    id: string,
    kind: Kind,
    tier: int,
    health: Health,
    lastRound: nat,
    caps: Capabilities,
    draining: bool,
    excluded: bool,
    stats: UpstreamStats.Snapshot,
    score: real)

  predicate Fits(n: SimulateNeeds, c: Capabilities) {
    && (n.fork ==> c.simulate.Some?)
    && (n.developerAPI ==> c.developerAPI)
    && n.groups <= c.Limits().maxTxnGroups
    && n.rounds <= c.Limits().maxRounds
    && n.extraOpcodeBudget <= c.Limits().maxExtraOpcodeBudget
  }

  /** The oldest round a plain node answers in a state window; none when its
      lookback is unknown. */
  function StateOldest(u: Upstream, w: RoundWindow): Option<nat> {
    var lb := u.caps.maxAcctLookback;
    if lb == 0 then None
    else
      var oldest: nat := if u.lastRound > lb then u.lastRound - lb else 0;
      Some(if w == WindowDelta then oldest + 1 else oldest)
  }

  predicate StateWindowCovers(u: Upstream, r: nat, w: RoundWindow) {
    r >= if StateOldest(u, w).Some? then StateOldest(u, w).value else u.caps.oldestRound
  }

  /** A judgement, when one was made, is trusted over the rounds. */
  predicate InSync(u: Upstream, best: nat, tol: nat) {
    match u.health
    case Synced => true
    case Lagging => false
    case _ => u.lastRound + tol >= best
  }

  /** The node answers for the round, past or present. */
  predicate Holds(u: Upstream, c: RequestClass, r: nat) {
    && r <= u.lastRound && c.roundHigh <= u.lastRound
    && if u.caps.timeTravel && c.historyAnyRound then true
       else if u.caps.timeTravel || c.roundWindow == WindowBlock then r >= u.caps.oldestRound
       else StateWindowCovers(u, r, c.roundWindow)
  }

  predicate Eligible(u: Upstream, c: RequestClass, best: nat, tol: nat) {
    if u.excluded || !u.health.Reachable() || u.draining then false
    else if u.stats.breakerOpen || u.stats.throttled || (u.stats.busy && c.Heavy()) then false
    else if c.localOnly && !u.kind.Local? then false
    else if c.timeTravel && !u.caps.timeTravel then false
    else if c.round.Some? && !Holds(u, c, c.round.value) then false
    else if c.round.Some? && c.simNeeds.Some? && c.simNeeds.value.latest && !InSync(u, best, tol) then false
    else if c.round.None? && !c.localOnly && !InSync(u, best, tol) then false
    else if c.waitAfter.Some? && c.waitAfter.value > u.lastRound + 1 then false
    else if c.needsDev && !u.caps.developerAPI then false
    else if c.simNeeds.Some? && !Fits(c.simNeeds.value, u.caps) then false
    else !(c.broadcast && u.caps.followMode)
  }

  // ------------------------------------------------------------ the rules

  /** Nothing keeps requests of the class from the upstream for now. */
  predicate Open(u: Upstream, c: RequestClass) {
    && (u.health == Online || u.health == Lagging || u.health == Synced)
    && !u.draining && !u.stats.breakerOpen && !u.stats.throttled
    && (u.stats.busy ==> !c.simulate && !c.deltas)
  }

  /** Judged in sync, or not judged and within tol of the best round. */
  predicate Current(u: Upstream, best: nat, tol: nat) {
    u.health == Synced || (u.health != Lagging && best <= u.lastRound + tol)
  }

  /** The upstream still has round r for the window the class asks: any round in the
      history's; from its oldest block on in the block window, or when its lookback is
      not known; and in the state window its lookback's rounds and its last, of which
      a delta leaves out the first. */
  predicate Keeps(u: Upstream, c: RequestClass, r: nat) {
    if u.caps.timeTravel then c.historyAnyRound || u.caps.oldestRound <= r
    else if c.roundWindow == WindowBlock || u.caps.maxAcctLookback == 0 then u.caps.oldestRound <= r
    else if c.roundWindow == WindowState then u.lastRound <= r + u.caps.maxAcctLookback
    else 0 < r && u.lastRound < r + u.caps.maxAcctLookback
  }

  /** What a node's simulate limits allow: a group and the stock budget where they
      name none, nothing past the fork's ceilings, and the stock limits of a node that
      reports none. */
  predicate Allows(caps: Capabilities, n: SimulateNeeds) {
    && (n.fork ==> caps.simulate.Some?) && (n.developerAPI ==> caps.developerAPI)
    && match caps.simulate
       case None => n.groups <= 1 && n.rounds == 0 && n.extraOpcodeBudget <= 320_000
       case Some(l) =>
         && (n.groups <= 1 || n.groups <= l.maxTxnGroups) && n.groups <= 256
         && n.rounds <= l.maxRounds && n.rounds <= 256
         && n.extraOpcodeBudget <= (if l.maxExtraOpcodeBudget == 0 then 320_000 else l.maxExtraOpcodeBudget)
         && n.extraOpcodeBudget <= 320_000_000
  }

  /** What the class needs of the upstream whatever its state: that requests may go to
      it at all, its kind and history, the rounds, the developer API, the simulate
      limits, and no follower for a broadcast. */
  predicate Capable(u: Upstream, c: RequestClass) {
    && !u.excluded
    && (c.localOnly ==> u.kind == Local)
    && (c.timeTravel ==> u.caps.timeTravel)
    && (c.round.Some? ==> c.round.value <= u.lastRound && c.roundHigh <= u.lastRound && Keeps(u, c, c.round.value))
    && (c.waitAfter.Some? ==> c.waitAfter.value <= u.lastRound + 1)
    && (c.needsDev ==> u.caps.developerAPI)
    && (c.simNeeds.Some? ==> Allows(u.caps, c.simNeeds.value))
    && (c.broadcast ==> !u.caps.followMode)
  }

  /** The class needs an upstream in sync: it names no round, nor the local node, or
      it lists rounds and the latest. */
  predicate NeedsSync(c: RequestClass) {
    if c.round.Some? then c.simNeeds.Some? && c.simNeeds.value.latest else !c.localOnly
  }

  predicate MayServe(u: Upstream, c: RequestClass, best: nat, tol: nat) {
    Open(u, c) && Capable(u, c) && (NeedsSync(c) ==> Current(u, best, tol))
  }

  lemma FitsExactly(n: SimulateNeeds, caps: Capabilities)
    ensures Fits(n, caps) <==> Allows(caps, n)
  {
  }

  /** An upstream is eligible exactly when it meets every rule. */
  lemma EligibleExactly(u: Upstream, c: RequestClass, best: nat, tol: nat)
    ensures Eligible(u, c, best, tol) <==> MayServe(u, c, best, tol)
  {
    if c.simNeeds.Some? { FitsExactly(c.simNeeds.value, u.caps); }
  }

  /** The upstreams a request may ever go to. */
  function NotExcluded(us: seq<Upstream>): seq<Upstream> {
    if |us| == 0 then []
    else
      var front := NotExcluded(us[..|us| - 1]);
      if us[|us| - 1].excluded then front else front + [us[|us| - 1]]
  }

  lemma {:induction false} NotExcludedKeeps(us: seq<Upstream>)
    ensures forall u :: u in NotExcluded(us) <==> u in us && !u.excluded
  {
    if |us| > 0 {
      NotExcludedKeeps(us[..|us| - 1]);
      assert us == us[..|us| - 1] + [us[|us| - 1]];
    }
  }

  // ------------------------------------------------------------- best round

  predicate Reaches(u: Upstream) {
    u.health.Reachable() && !u.excluded
  }

  /** The highest last round of the upstreams a request may go to, 0 for none. */
  ghost predicate IsBestRound(us: seq<Upstream>, best: nat) {
    && (forall u :: u in us && Reaches(u) ==> u.lastRound <= best)
    && (best > 0 ==> exists u :: u in us && Reaches(u) && u.lastRound == best)
  }

  method BestRound(us: seq<Upstream>) returns (best: nat)
    ensures IsBestRound(us, best)
  {
    best := 0;
    for i := 0 to |us|
      invariant IsBestRound(us[..i], best)
    {
      assert us[..i + 1] == us[..i] + [us[i]];
      if us[i].health.Reachable() && !us[i].excluded && us[i].lastRound > best {
        best := us[i].lastRound;
        assert us[i] in us[..i + 1];
      }
    }
    assert us[..|us|] == us;
  }

  /** The best round is one value, whatever the order, and excluded upstreams do
      not move it. */
  lemma BestRoundIgnoresExcluded(us: seq<Upstream>, others: seq<Upstream>, a: nat, b: nat)
    requires forall u :: u in NotExcluded(us) <==> u in NotExcluded(others)
    requires IsBestRound(us, a) && IsBestRound(others, b)
    ensures a == b
  {
    NotExcludedKeeps(us);
    NotExcludedKeeps(others);
    forall u | Reaches(u)
      ensures u in us <==> u in others
    {
      assert u in us <==> u in NotExcluded(us);
    }
  }

  // ------------------------------------------------------------ could serve

  /** An upstream as it would be with nothing temporary in its way. */
  function Restored(u: Upstream): Upstream {
    u.(health := Synced, draining := false, stats := NO_STATS)
  }

  predicate Serves(u: Upstream, c: RequestClass) {
    Eligible(Restored(u), c, u.lastRound, 0)
  }

  /** Whatever its state, an upstream could serve what it is capable of. */
  lemma ServesExactly(u: Upstream, c: RequestClass)
    ensures Serves(u, c) <==> Capable(u, c)
  {
    EligibleExactly(Restored(u), c, u.lastRound, 0);
  }

  method CouldServe(us: seq<Upstream>, c: RequestClass) returns (could: bool)
    ensures could <==> exists u :: u in us && Capable(u, c)
  {
    forall u: Upstream
      ensures Serves(u, c) <==> Capable(u, c)
    {
      ServesExactly(u, c);
    }
    for i := 0 to |us|
      invariant forall k :: 0 <= k < i ==> !Serves(us[k], c)
    {
      if Serves(us[i], c) {
        return true;
      }
    }
    return false;
  }

  /** What may serve a request now could serve it: a request is relaxed only when
      it could have gone to no upstream, at any best round and tolerance. */
  lemma EligibleCouldServe(u: Upstream, c: RequestClass, best: nat, tol: nat)
    requires Eligible(u, c, best, tol)
    ensures Serves(u, c) && !u.excluded
  {
  }

  /** Excluded upstreams cannot serve anything. */
  lemma CouldServeIgnoresExcluded(us: seq<Upstream>, c: RequestClass)
    ensures (exists u :: u in us && Serves(u, c)) <==> exists u :: u in NotExcluded(us) && Serves(u, c)
  {
    NotExcludedKeeps(us);
    forall u | Serves(u, c)
      ensures u in us <==> u in NotExcluded(us)
    {
    }
  }

  /** And what could serve it may, once it is back, in sync and undisturbed. */
  lemma ServesWhenRestored(u: Upstream, c: RequestClass, best: nat, tol: nat)
    requires !u.excluded && u.health.Synced? && !u.draining
    requires !u.stats.breakerOpen && !u.stats.throttled && !u.stats.busy
    ensures Serves(u, c) <==> Eligible(u, c, best, tol)
  {
  }
}
