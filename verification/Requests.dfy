/** What routing and billing know about a client request
    (internal/domain/classify.go), without the parsing of its path. */
module Requests {

  datatype Option<+T> = None | Some(value: T)

  datatype RoundWindow = WindowBlock | WindowState | WindowDelta

  /** What a simulate request's body asks of the node that runs it. */
  datatype SimulateNeeds = SimulateNeeds(
    groups: nat,
    rounds: nat,
    extraOpcodeBudget: nat,
    fork: bool,
    developerAPI: bool,
    roundsSpan: bool,
    latest: bool,
    execTrace: bool,
    unnamedResources: bool)

  datatype RequestClass = RequestClass(
    round: Option<nat>,
    needsDev: bool,
    broadcast: bool,
    pendingID: string,
    waitAfter: Option<nat>,
    localOnly: bool,
    idempotent: bool,
    timeTravel: bool,
    roundWindow: RoundWindow,
    historyAnyRound: bool,
    simulate: bool,
    simNeeds: Option<SimulateNeeds>,
    roundHigh: nat,
    versions: bool,
    deltas: bool)
  {
    predicate Heavy() {
      simulate || deltas
    }

    function StatKey(): string {
      if timeTravel then "timetravel"
      else if simulate then "simulate"
      else if round.Some? then "round"
      else if broadcast then "broadcast"
      else if pendingID != "" then "pending"
      else if waitAfter.Some? then "wait"
      else if needsDev then "teal"
      else "default"
    }
  }

  /** The kind of request that goes by the key: each for the requests none before it
      in this list takes. */
  predicate OfKind(c: RequestClass, key: string) {
    && (c.timeTravel ==> key == "timetravel")
    && (!c.timeTravel && c.simulate ==> key == "simulate")
    && (!c.timeTravel && !c.simulate ==> OfPlainKind(c, key))
  }

  predicate OfPlainKind(c: RequestClass, key: string) {
    && (c.round.Some? ==> key == "round")
    && (c.round.None? && c.broadcast ==> key == "broadcast")
    && (c.round.None? && !c.broadcast && c.pendingID != "" ==> key == "pending")
    && (c.round.None? && !c.broadcast && c.pendingID == "" ==>
          key == if c.waitAfter.Some? then "wait" else if c.needsDev then "teal" else "default")
  }

  lemma StatKeyIsKind(c: RequestClass, key: string)
    ensures OfKind(c, key) <==> key == c.StatKey()
  {
  }

  /** How far behind the best round a state delta still comes from the node's
      own lookback. */
  const RECENT_DELTA_ROUNDS: nat := 8

  function CostKey(c: RequestClass, best: nat): string {
    if c.versions then "versions"
    else if c.deltas && c.round.Some? && c.round.value + RECENT_DELTA_ROUNDS < best then "deltas_history"
    else c.StatKey()
  }

  type CostWeights = map<string, real>

  function Weight(w: CostWeights, key: string): real {
    if key in w then w[key] else 0.0
  }

  function MaxNat(a: nat, b: nat): nat {
    if a >= b then a else b
  }

  /** What a request costs before it runs: its weight, and for a simulation its
      weight once per group and round it asks for. */
  function Base(w: CostWeights, c: RequestClass, best: nat): real {
    var v := Weight(w, CostKey(c, best));
    if c.simulate && c.simNeeds.Some?
    then v * (MaxNat(c.simNeeds.value.groups, 1) * MaxNat(c.simNeeds.value.rounds, 1)) as real
    else v
  }

  /** A body the client left empty still pays for one group and one round: a
      readable simulation never costs less than its weight. */
  lemma BaseAtLeastWeight(w: CostWeights, c: RequestClass, best: nat)
    requires Weight(w, CostKey(c, best)) >= 0.0
    ensures Base(w, c, best) >= Weight(w, CostKey(c, best))
  {
    if c.simulate && c.simNeeds.Some? {
      var g, r := MaxNat(c.simNeeds.value.groups, 1), MaxNat(c.simNeeds.value.rounds, 1);
      assert g * r >= 1;
      var n := (g * r) as real;
      var v := Weight(w, CostKey(c, best));
      assert v * n - v == v * (n - 1.0);
      assert v * (n - 1.0) >= 0.0;
    }
  }
}
