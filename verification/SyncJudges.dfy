/** Synced or lagging, over time (internal/domain/health.go), against the whole
    history of observations. */
module SyncJudges {
  import opened Upstreams

  datatype Params = Params(tolerance: nat, grace: int, required: int)

  datatype Obs = Obs(now: int, reachable: bool, round: nat, best: nat)

  // ----------------------------------------------- the history's own answers

  predicate Behind(p: Params, o: Obs) {
    o.reachable && o.best > o.round + p.tolerance
  }

  /** When the node fell behind, of a history that ends behind. */
  function BehindSince(p: Params, os: seq<Obs>): int
    requires |os| > 0 && Behind(p, os[|os| - 1])
  {
    if |os| > 1 && Behind(p, os[|os| - 2]) then BehindSince(p, os[..|os| - 1]) else os[|os| - 1].now
  }

  /** One round behind for Grace, or further at once. */
  predicate Lags(p: Params, os: seq<Obs>)
    requires |os| > 0
  {
    var o := os[|os| - 1];
    Behind(p, o) && (o.best > o.round + p.tolerance + 1 || o.now - BehindSince(p, os) >= p.grace)
  }

  /** The last observation finds the node reachable and not lagging. */
  predicate Good(p: Params, os: seq<Obs>) {
    |os| > 0 && os[|os| - 1].reachable && !Lags(p, os)
  }

  predicate EverGood(p: Params, os: seq<Obs>) {
    |os| > 0 && (Good(p, os) || EverGood(p, os[..|os| - 1]))
  }

  /** The round of the last good observation. */
  function LastGoodRound(p: Params, os: seq<Obs>): nat {
    if |os| == 0 then 0 else if Good(p, os) then os[|os| - 1].round else LastGoodRound(p, os[..|os| - 1])
  }

  /** A good observation at another round than the last good one's. */
  predicate Counts(p: Params, os: seq<Obs>) {
    && Good(p, os)
    && (!EverGood(p, os[..|os| - 1]) || os[|os| - 1].round != LastGoodRound(p, os[..|os| - 1]))
  }

  /** Lagging, or gone after it had once been seen. */
  predicate Loses(p: Params, os: seq<Obs>) {
    |os| > 0 && if os[|os| - 1].reachable then Lags(p, os) else EverGood(p, os[..|os| - 1])
  }

  predicate EverLost(p: Params, os: seq<Obs>) {
    |os| > 0 && (Loses(p, os) || EverLost(p, os[..|os| - 1]))
  }

  /** The observations since the last loss that count. */
  function CountedSinceLoss(p: Params, os: seq<Obs>): nat {
    if |os| == 0 || Loses(p, os) then 0
    else CountedSinceLoss(p, os[..|os| - 1]) + if Counts(p, os) then 1 else 0
  }

  function Needed(p: Params): nat {
    if p.required < 1 then 1 else p.required
  }

  predicate Trusted(p: Params, os: seq<Obs>) {
    !EverLost(p, os) || CountedSinceLoss(p, os) >= Needed(p)
  }

  /** What should be published after a history. */
  function Published(p: Params, os: seq<Obs>): Health
    requires |os| > 0
  {
    if !os[|os| - 1].reachable then Offline
    else if Lags(p, os) || !Trusted(p, os) then Lagging
    else Synced
  }

  // ------------------------------------------------------------ the machine

  datatype Hysteresis = Hysteresis(streak: int, trusted: bool)

  datatype State = State(hyst: Hysteresis, behind: int, lastRound: nat, seen: bool)

  function Start(): State {
    State(Hysteresis(0, true), 0, 0, false)
  }

  function Observed(required: int, h: Hysteresis, judged: Health): (Hysteresis, Health) {
    if judged != Synced then (Hysteresis(0, false), judged)
    else if h.trusted then (h, Synced)
    else if h.streak + 1 >= required then (Hysteresis(h.streak + 1, true), Synced)
    else (Hysteresis(h.streak + 1, false), Lagging)
  }

  function Current(h: Hysteresis): Health {
    if h.trusted then Synced else Lagging
  }

  /** More rounds behind than tolerated. */
  predicate Trails(p: Params, o: Obs) {
    o.reachable && o.best > o.round + p.tolerance
  }

  /** When the judge thinks the node fell behind, 0 when it is not. */
  function BehindNext(p: Params, j: State, o: Obs): int {
    if !Trails(p, o) then 0 else if j.behind == 0 then o.now else j.behind
  }

  function Next(p: Params, j: State, o: Obs): (State, Health) {
    var k := j.(behind := BehindNext(p, j, o));
    if !o.reachable then
      if !j.seen then (k, Offline)
      else
        var (h, out) := Observed(p.required, j.hyst, Offline);
        (k.(hyst := h), out)
    else if Trails(p, o) && (o.best > o.round + p.tolerance + 1 || o.now - k.behind >= p.grace) then
      var (h, out) := Observed(p.required, j.hyst, Lagging);
      (k.(hyst := h), out)
    else if !j.seen || o.round != j.lastRound then
      var (h, out) := Observed(p.required, j.hyst, Synced);
      (k.(hyst := h, seen := true, lastRound := o.round), out)
    else (k, Current(j.hyst))
  }

  function Run(p: Params, os: seq<Obs>): State {
    if |os| == 0 then Start() else Next(p, Run(p, os[..|os| - 1]), os[|os| - 1]).0
  }

  /** Instants are after the zero time. */
  predicate Timed(os: seq<Obs>) {
    forall k :: 0 <= k < |os| ==> os[k].now > 0
  }

  // -------------------------------------------------- the machine is right

  ghost predicate Agrees(p: Params, j: State, os: seq<Obs>) {
    && j.behind == (if |os| > 0 && Behind(p, os[|os| - 1]) then BehindSince(p, os) else 0)
    && j.seen == EverGood(p, os)
    && (j.seen ==> j.lastRound == LastGoodRound(p, os))
    && j.hyst.trusted == Trusted(p, os)
    && (!j.hyst.trusted ==> j.hyst.streak == CountedSinceLoss(p, os))
  }

  lemma {:induction false} SinceIsTimed(p: Params, os: seq<Obs>)
    requires Timed(os) && |os| > 0 && Behind(p, os[|os| - 1])
    ensures BehindSince(p, os) > 0
  {
    if |os| > 1 && Behind(p, os[|os| - 2]) {
      SinceIsTimed(p, os[..|os| - 1]);
    }
  }

  lemma BehindAgrees(p: Params, j: State, os: seq<Obs>)
    requires |os| > 0 && Timed(os) && Agrees(p, j, os[..|os| - 1])
    ensures BehindNext(p, j, os[|os| - 1]) == if Behind(p, os[|os| - 1]) then BehindSince(p, os) else 0
  {
    if |os| > 1 && Behind(p, os[|os| - 2]) {
      SinceIsTimed(p, os[..|os| - 1]);
    }
  }

  lemma AgreesNext(p: Params, j: State, os: seq<Obs>)
    requires |os| > 0 && Timed(os) && Agrees(p, j, os[..|os| - 1])
    ensures Agrees(p, Next(p, j, os[|os| - 1]).0, os)
    ensures Next(p, j, os[|os| - 1]).1 == Published(p, os)
  {
    BehindAgrees(p, j, os);
  }

  /** In every history the judge trusts a node, and publishes it synced, exactly
      as the history says. */
  lemma {:induction false} JudgeAgrees(p: Params, os: seq<Obs>)
    requires Timed(os)
    ensures Agrees(p, Run(p, os), os)
    ensures |os| > 0 ==> Next(p, Run(p, os[..|os| - 1]), os[|os| - 1]).1 == Published(p, os)
  {
    if |os| > 0 {
      JudgeAgrees(p, os[..|os| - 1]);
      AgreesNext(p, Run(p, os[..|os| - 1]), os);
    }
  }

  /** Observing the node again, at the same round and with the same verdict,
      neither advances nor resets its return. */
  lemma RepeatingChangesNothing(p: Params, os: seq<Obs>, o: Obs)
    requires |os| > 0 && o.reachable == os[|os| - 1].reachable && o.round == os[|os| - 1].round
    requires o.reachable ==> (Lags(p, os) <==> Lags(p, os + [o]))
    ensures Trusted(p, os + [o]) == Trusted(p, os)
    ensures CountedSinceLoss(p, os + [o]) == CountedSinceLoss(p, os)
    ensures Published(p, os + [o]) == Published(p, os)
  {
    var later := os + [o];
    assert later[..|later| - 1] == os;
  }

  /** The places of the counted observations since the last loss, latest first. */
  function CountedAt(p: Params, os: seq<Obs>): seq<nat> {
    if |os| == 0 || Loses(p, os) then []
    else if Counts(p, os) then [|os| - 1] + CountedAt(p, os[..|os| - 1])
    else CountedAt(p, os[..|os| - 1])
  }

  ghost predicate CountsAt(p: Params, os: seq<Obs>, k: nat) {
    k < |os| && Counts(p, os[..k + 1])
  }

  ghost predicate LosesAt(p: Params, os: seq<Obs>, k: nat) {
    k < |os| && Loses(p, os[..k + 1])
  }

  lemma PrefixAgrees(p: Params, os: seq<Obs>, front: seq<Obs>, k: nat)
    requires k < |front| <= |os| && front == os[..|front|]
    ensures CountsAt(p, front, k) == CountsAt(p, os, k) && LosesAt(p, front, k) == LosesAt(p, os, k)
  {
    assert front[..k + 1] == os[..k + 1];
  }

  /** Distinct places at each of which an observation counts, no loss since. */
  ghost predicate Earned(p: Params, os: seq<Obs>, at: seq<nat>) {
    && (forall i :: 0 <= i < |at| ==> CountsAt(p, os, at[i]))
    && (forall i, j :: 0 <= i < j < |at| ==> at[j] < at[i])
    && (forall i, k: nat :: 0 <= i < |at| && at[i] <= k < |os| ==> !LosesAt(p, os, k))
  }

  lemma {:induction false} CountedIsEarned(p: Params, os: seq<Obs>)
    ensures |CountedAt(p, os)| == CountedSinceLoss(p, os) && Earned(p, os, CountedAt(p, os))
  {
    if |os| > 0 && !Loses(p, os) {
      var front := os[..|os| - 1];
      CountedIsEarned(p, front);
      EarnedKept(p, os, CountedAt(p, front));
      if Counts(p, os) {
        EarnedOneMore(p, os, CountedAt(p, front));
      }
    }
  }

  /** An observation that is no loss leaves what was earned before it. */
  lemma {:induction false} EarnedKept(p: Params, os: seq<Obs>, at: seq<nat>)
    requires |os| > 0 && !Loses(p, os) && Earned(p, os[..|os| - 1], at)
    ensures Earned(p, os, at) && forall i :: 0 <= i < |at| ==> at[i] < |os| - 1
  {
    var front := os[..|os| - 1];
    forall i | 0 <= i < |at|
      ensures at[i] < |front| && CountsAt(p, os, at[i])
    {
      assert CountsAt(p, front, at[i]);
      PrefixAgrees(p, os, front, at[i]);
    }
    forall i, k: nat | 0 <= i < |at| && at[i] <= k < |os|
      ensures !LosesAt(p, os, k)
    {
      if k < |front| {
        PrefixAgrees(p, os, front, k);
      } else {
        assert os[..k + 1] == os;
      }
    }
  }

  lemma {:induction false} EarnedOneMore(p: Params, os: seq<Obs>, at: seq<nat>)
    requires |os| > 0 && Counts(p, os) && !Loses(p, os) && Earned(p, os, at)
    requires forall i :: 0 <= i < |at| ==> at[i] < |os| - 1
    ensures Earned(p, os, [|os| - 1] + at)
  {
    assert os[..|os|] == os;
    assert CountsAt(p, os, |os| - 1) && !LosesAt(p, os, |os| - 1);
  }

  /** A node whose trust was lost is published synced only after Needed
      observations since, each good and at another round than the good one before
      it, with no loss in between. */
  lemma SyncedWasEarned(p: Params, os: seq<Obs>)
    requires EverLost(p, os) && Published(p, os) == Synced
    ensures exists at :: |at| >= Needed(p) && Earned(p, os, at)
  {
    CountedIsEarned(p, os);
  }

  // ------------------------------------------------------------ the classes

  class ReturnHysteresis {
    const required: int
    var streak: int
    var trusted: bool

    function Value(): Hysteresis
      reads this
    {
      Hysteresis(streak, trusted)
    }

    constructor (required: int)
      ensures this.required == required && Value() == Start().hyst
    {
      this.required, streak, trusted := required, 0, true;
    }

    method Observe(judged: Health) returns (out: Health)
      modifies this
      ensures (Value(), out) == Observed(required, old(Value()), judged)
    {
      if judged != Synced {
        streak, trusted := 0, false;
        return judged;
      }
      if trusted {
        return Synced;
      }
      streak := streak + 1;
      if streak >= required {
        trusted := true;
        return Synced;
      }
      return Lagging;
    }
  }

  class SyncJudge {
    const params: Params
    const hyst: ReturnHysteresis
    var behind: int
    var lastRound: nat
    var seen: bool
    ghost var history: seq<Obs>

    ghost function Value(): State
      reads this, hyst
    {
      State(hyst.Value(), behind, lastRound, seen)
    }

    ghost predicate Valid()
      reads this, hyst
    {
      hyst.required == params.required && Timed(history) && Value() == Run(params, history)
    }

    constructor (p: Params)
      ensures Valid() && fresh(hyst) && params == p && history == []
    {
      params := p;
      hyst := new ReturnHysteresis(p.required);
      behind, lastRound, seen, history := 0, 0, false, [];
    }

    /** What is published is what the whole history says. */
    method Judge(now: int, reachable: bool, round: nat, best: nat) returns (out: Health)
      requires Valid() && now > 0
      modifies this, hyst
      ensures Valid() && history == old(history) + [Obs(now, reachable, round, best)]
      ensures out == Published(params, history)
    {
      ghost var was, o := Value(), Obs(now, reachable, round, best);
      history := history + [o];
      assert history[..|history| - 1] == old(history);
      JudgeAgrees(params, history);
      if !reachable {
        behind := 0;
        if !seen {
          return Offline;
        }
        out := hyst.Observe(Offline);
        return;
      }
      var lagging := false;
      if best > round + params.tolerance {
        if behind == 0 {
          behind := now;
        }
        lagging := best > round + params.tolerance + 1 || now - behind >= params.grace;
      } else {
        behind := 0;
      }
      if lagging {
        out := hyst.Observe(Lagging);
        return;
      }
      if !seen || round != lastRound {
        seen, lastRound := true, round;
        out := hyst.Observe(Synced);
        return;
      }
      return if hyst.trusted then Synced else Lagging;
    }
  }
}
