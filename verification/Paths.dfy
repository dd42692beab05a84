/** The path policy of internal/domain/path.go: which of a link's addresses
    carries the heartbeats. */
module Paths {

  /** One candidate address as the policy sees it; an rtt of 0 is unmeasured. */
  datatype PathStat = PathStat(addr: string, rtt: int, alive: bool, deaf: bool)

  datatype Reason = Initial | Dead | DeafPath | Faster | Keep | NoPath

  const PATH_FAILURES: nat := 3

  /** Measured before unmeasured, then by rtt. */
  predicate Better(a: PathStat, b: PathStat) {
    if a.rtt > 0 && b.rtt > 0 then a.rtt < b.rtt else a.rtt > 0
  }

  /** The best alive path among the first n: the running best of Choose's loop. */
  function BestOf(stats: seq<PathStat>, n: nat): (b: int)
    requires n <= |stats|
    ensures -1 <= b < n
  {
    if n == 0 then -1
    else
      var b := BestOf(stats, n - 1);
      if stats[n - 1].alive && (b < 0 || Better(stats[n - 1], stats[b])) then n - 1 else b
  }

  function Best(stats: seq<PathStat>): int {
    BestOf(stats, |stats|)
  }

  /** b is alive, measured if any alive path is, with the least rtt of those, and the
      first such: registry order breaks ties, so with nothing measured the lowest
      index wins. It is -1 when no path is alive. */
  ghost predicate IsBest(stats: seq<PathStat>, n: nat, b: int)
    requires n <= |stats|
  {
    if b < 0 then b == -1 && forall i :: 0 <= i < n ==> !stats[i].alive
    else
      && b < n && stats[b].alive
      && (forall i :: 0 <= i < n && stats[i].alive && stats[i].rtt > 0 ==> 0 < stats[b].rtt <= stats[i].rtt)
      && (forall i :: 0 <= i < b && stats[i].alive ==> stats[b].rtt > 0 && (stats[i].rtt > 0 ==> stats[b].rtt < stats[i].rtt))
  }

  lemma {:induction false} BestIsFirstBest(stats: seq<PathStat>, n: nat)
    requires n <= |stats|
    ensures IsBest(stats, n, BestOf(stats, n))
  {
    if n > 0 {
      BestIsFirstBest(stats, n - 1);
    }
  }

  /** A challenger a quarter faster, both measured. */
  predicate FasterByMargin(c: PathStat, b: PathStat) {
    c.rtt > 0 && b.rtt > 0 && b.rtt as real < c.rtt as real * 0.75
  }

  /** Both measured, and the second at less than three quarters of the first. */
  predicate QuarterFaster(c: PathStat, b: PathStat) {
    c.rtt > 0 && b.rtt > 0 && 4 * b.rtt < 3 * c.rtt
  }

  lemma MarginIsAQuarter(c: PathStat, b: PathStat)
    ensures FasterByMargin(c, b) == QuarterFaster(c, b)
  {
    assert 4.0 * (c.rtt as real * 0.75) == (3 * c.rtt) as real;
  }

  /** The path carrying the heartbeats works. */
  predicate Works(stats: seq<PathStat>, cur: int) {
    0 <= cur < |stats| && stats[cur].alive
  }

  /** Some alive path is a quarter faster than the working one, and the last switch
      two probe intervals ago. */
  ghost predicate Outrun(probeInterval: int, now: int, stats: seq<PathStat>, cur: int, since: int)
    requires Works(stats, cur)
  {
    now - since >= 2 * probeInterval && exists i :: 0 <= i < |stats| && stats[i].alive && QuarterFaster(stats[cur], stats[i])
  }

  /** What the policy promises: a path that does not work is left at once for the
      best, a working one for the best exactly when outrun; and the reason says
      which it was. */
  ghost predicate Answers(probeInterval: int, now: int, stats: seq<PathStat>, cur: int, since: int, idx: int, reason: Reason) {
    if !Works(stats, cur) then
      && IsBest(stats, |stats|, idx)
      && reason == if 0 <= cur < |stats| then (if stats[cur].deaf then DeafPath else Dead) else if idx < 0 then NoPath else Initial
    else if Outrun(probeInterval, now, stats, cur, since) then
      IsBest(stats, |stats|, idx) && idx != cur && QuarterFaster(stats[cur], stats[idx]) && reason == Faster
    else idx == cur && reason == Keep
  }

  function Decide(probeInterval: int, now: int, stats: seq<PathStat>, cur: int, since: int): (int, Reason) {
    var best := Best(stats);
    if cur < 0 || cur >= |stats| then (if best < 0 then (-1, NoPath) else (best, Initial))
    else if !stats[cur].alive then (best, if stats[cur].deaf then DeafPath else Dead)
    else if best < 0 || best == cur then (cur, Keep)
    else if FasterByMargin(stats[cur], stats[best]) && now - since >= 2 * probeInterval then (best, Faster)
    else (cur, Keep)
  }

  /** What is decided is what the policy promises. */
  lemma DecisionAnswers(probeInterval: int, now: int, stats: seq<PathStat>, cur: int, since: int)
    ensures var (idx, reason) := Decide(probeInterval, now, stats, cur, since); Answers(probeInterval, now, stats, cur, since, idx, reason)
  {
    BestIsFirstBest(stats, |stats|);
    if Works(stats, cur) {
      var best := Best(stats);
      forall i | 0 <= i < |stats| && stats[i].alive && QuarterFaster(stats[cur], stats[i])
        ensures best != cur && QuarterFaster(stats[cur], stats[best])
      {
        assert 0 < stats[best].rtt <= stats[i].rtt;
      }
      if best >= 0 { MarginIsAQuarter(stats[cur], stats[best]); }
    }
  }

  /** Choose, whose loop keeps a running best. */
  method Choose(probeInterval: int, now: int, stats: seq<PathStat>, cur: int, since: int) returns (idx: int, reason: Reason)
    ensures (idx, reason) == Decide(probeInterval, now, stats, cur, since)
    ensures Answers(probeInterval, now, stats, cur, since, idx, reason)
  {
    DecisionAnswers(probeInterval, now, stats, cur, since);
    var best := -1;
    for i := 0 to |stats|
      invariant best == BestOf(stats, i)
    {
      if stats[i].alive && (best < 0 || Better(stats[i], stats[best])) {
        best := i;
      }
    }
    if cur < 0 || cur >= |stats| {
      if best < 0 {
        return -1, NoPath;
      }
      return best, Initial;
    }
    if !stats[cur].alive {
      return best, if stats[cur].deaf then DeafPath else Dead;
    }
    if best < 0 || best == cur {
      return cur, Keep;
    }
    if FasterByMargin(stats[cur], stats[best]) && now - since >= 2 * probeInterval {
      return best, Faster;
    }
    return cur, Keep;
  }

  /** After a choice the index is -1 if and only if no path is alive, and names
      an alive one otherwise. */
  lemma ChoiceIsAlive(probeInterval: int, now: int, stats: seq<PathStat>, cur: int, since: int)
    ensures var idx := Decide(probeInterval, now, stats, cur, since).0;
            if idx < 0 then idx == -1 && forall i :: 0 <= i < |stats| ==> !stats[i].alive
            else idx < |stats| && stats[idx].alive
  {
    BestIsFirstBest(stats, |stats|);
  }

  /** A working path is left only for a quarter-faster one and only two probe
      intervals after the last switch; every other switch leaves no path, or one
      that is not alive. */
  lemma SwitchesHaveReasons(probeInterval: int, now: int, stats: seq<PathStat>, cur: int, since: int)
    requires -1 <= cur < |stats|
    ensures var (idx, reason) := Decide(probeInterval, now, stats, cur, since);
            && (idx == cur <==> reason == Keep || reason == NoPath || (idx < 0 && cur < 0))
            && (idx != cur && cur >= 0 && stats[cur].alive ==>
                  reason == Faster && QuarterFaster(stats[cur], stats[idx]) && now - since >= 2 * probeInterval)
            && (reason == Faster ==> cur >= 0 && stats[cur].alive && stats[idx].alive)
  {
    DecisionAnswers(probeInterval, now, stats, cur, since);
  }
}
