/** Which upstream a request goes to, and which after it (internal/domain/select.go). */
module Routing {
  import opened Requests
  import opened Upstreams

  datatype Mode = Fallback | LoadBalancer

  datatype Weights = Weights(
    errorPenaltyMS: real,
    lagPenaltyMS: real,
    inflightMS: real,
    localBonusMS: real,
    unknownLatMS: real,
    externalPenalty: real)

  const DEFAULT_WEIGHTS := Weights(2000.0, 50.0, 5.0, 2.0, 20.0, 100.0)
  const NO_WEIGHTS := Weights(0.0, 0.0, 0.0, 0.0, 0.0, 0.0)

  const MIN_INT32: int := -0x8000_0000
  const HALF_MAX_INT32: int := 0x3fff_ffff

  datatype Selection = Selection(chosen: Upstream, alternates: seq<Upstream>, tier: int)

  function Latency(u: Upstream, c: RequestClass, w: Weights): real {
    if c.StatKey() in u.stats.latencyMS then u.stats.latencyMS[c.StatKey()]
    else if "default" in u.stats.latencyMS then u.stats.latencyMS["default"]
    else w.unknownLatMS
  }

  /** Rounds behind the best. */
  function Lag(u: Upstream, best: nat): real {
    if best > u.lastRound then (best - u.lastRound) as real else 0.0
  }

  function Weighed(weight: real, x: real): real {
    weight * x
  }

  /** No weights at all stand for the defaults. */
  function Effective(weights: Weights): Weights {
    if weights == NO_WEIGHTS then DEFAULT_WEIGHTS else weights
  }

  /** Lower is better. */
  function Score(u: Upstream, c: RequestClass, best: nat, weights: Weights): real {
    var w := Effective(weights);
    Latency(u, c, w) + Weighed(w.errorPenaltyMS, u.stats.errorRate) + Weighed(w.lagPenaltyMS, Lag(u, best))
    + Weighed(w.inflightMS, u.stats.inflight as real)
    - (if u.kind.Local? then w.localBonusMS else 0.0)
    + (if u.kind.External? then w.externalPenalty else 0.0)
  }

  /** The local node ahead of everything in fallback, externals behind in both. */
  function EffectiveTier(mode: Mode, u: Upstream): int {
    match u.kind
    case Local => if mode == Fallback then MIN_INT32 else u.tier
    case External => HALF_MAX_INT32 + u.tier
    case Peer => u.tier
  }

  /** A plain peer whose state window begins exactly at the round asked for: its
      last round may trail, and the round be gone. */
  predicate Edge(u: Upstream, c: RequestClass) {
    && c.round.Some? && c.roundWindow != WindowBlock && !u.caps.timeTravel && !u.kind.Local?
    && u.lastRound >= u.caps.maxAcctLookback
    && StateOldest(u, c.roundWindow).Some? && c.round.value == StateOldest(u, c.roundWindow).value
  }

  // ---------------------------------------------------------------- the order

  /** Go's order on strings. */
  predicate Before(a: string, b: string) {
    if |b| == 0 then false
    else if |a| == 0 then true
    else if a[0] == b[0] then Before(a[1..], b[1..])
    else a[0] < b[0]
  }

  /** A string comes before another that it begins, or at the first place they differ. */
  lemma {:induction false} BeforeIsLexicographic(a: string, b: string)
    ensures Before(a, b) <==>
              exists k: nat :: k < |b| && k <= |a| && a[..k] == b[..k] && (k == |a| || (k < |a| && a[k] < b[k]))
  {
    if |a| > 0 && |b| > 0 && a[0] == b[0] {
      BeforeIsLexicographic(a[1..], b[1..]);
      if Before(a, b) {
        var c, d := a[1..], b[1..];
        var k: nat :| k < |d| && k <= |c| && c[..k] == d[..k] && (k == |c| || (k < |c| && c[k] < d[k]));
        assert a[..k + 1] == [a[0]] + c[..k] && b[..k + 1] == [b[0]] + d[..k];
        assert k + 1 == |a| || a[k + 1] < b[k + 1];
      }
      if k: nat :| k < |b| && k <= |a| && a[..k] == b[..k] && (k == |a| || (k < |a| && a[k] < b[k])) {
        assert k > 0;
        assert a[1..][..k - 1] == a[..k][1..] && b[1..][..k - 1] == b[..k][1..];
        assert k - 1 == |a[1..]| || a[1..][k - 1] < b[1..][k - 1];
      }
    } else if |a| > 0 && |b| > 0 {
      assert a[..0] == b[..0];
      assert forall k: nat :: 0 < k <= |a| && k <= |b| ==> a[..k][0] != b[..k][0];
    } else if |b| > 0 {
      assert a[..0] == b[..0];
    }
  }

  lemma {:induction false} BeforeIsTotal(a: string, b: string)
    ensures !(Before(a, b) && Before(b, a))
    ensures a != b ==> Before(a, b) || Before(b, a)
    ensures a == b ==> !Before(a, b)
  {
    if |a| > 0 && |b| > 0 && a[0] == b[0] {
      BeforeIsTotal(a[1..], b[1..]);
      assert a == [a[0]] + a[1..] && b == [b[0]] + b[1..];
    }
  }

  lemma {:induction false} BeforeIsTransitive(a: string, b: string, c: string)
    ensures Before(a, b) && Before(b, c) ==> Before(a, c)
  {
    if |a| > 0 && |b| > 0 && |c| > 0 && a[0] == b[0] == c[0] {
      BeforeIsTransitive(a[1..], b[1..], c[1..]);
    }
  }

  /** What the order depends on: the policy, whether a time-travel node is
      eligible, and the request. */
  datatype Order = Order(mode: Mode, hasTT: bool, request: RequestClass)

  predicate Less(o: Order, a: Upstream, b: Upstream) {
    if EffectiveTier(o.mode, a) != EffectiveTier(o.mode, b) then EffectiveTier(o.mode, a) < EffectiveTier(o.mode, b)
    else if o.hasTT && Edge(a, o.request) != Edge(b, o.request) then Edge(b, o.request)
    else if a.score != b.score then a.score < b.score
    else Before(a.id, b.id)
  }

  /** The order: by tier; then, while a time-travel node is eligible, an upstream off
      the edge before one on it; then the lower score; then the earlier id. */
  ghost predicate Precedes(o: Order, a: Upstream, b: Upstream) {
    var ta, tb := EffectiveTier(o.mode, a), EffectiveTier(o.mode, b);
    var ea, eb := o.hasTT && Edge(a, o.request), o.hasTT && Edge(b, o.request);
    || ta < tb
    || (ta == tb && !ea && eb)
    || (ta == tb && ea == eb && a.score < b.score)
    || (ta == tb && ea == eb && a.score == b.score && Before(a.id, b.id))
  }

  lemma LessExactly(o: Order, a: Upstream, b: Upstream)
    ensures Less(o, a, b) <==> Precedes(o, a, b)
  {
  }

  /** On the edge: a plain peer or external whose state window, its lookback known and
      not reaching back to genesis, begins exactly at the round asked for. */
  lemma EdgeExactly(u: Upstream, c: RequestClass)
    ensures Edge(u, c) <==>
              && c.round.Some? && !u.caps.timeTravel && u.kind != Local
              && 0 < u.caps.maxAcctLookback <= u.lastRound
              && (c.roundWindow == WindowState || c.roundWindow == WindowDelta)
              && c.round.value + u.caps.maxAcctLookback == u.lastRound + if c.roundWindow == WindowDelta then 1 else 0
  {
  }

  lemma LessIsTotal(o: Order, a: Upstream, b: Upstream)
    ensures !(Less(o, a, b) && Less(o, b, a))
    ensures a.id != b.id ==> Less(o, a, b) || Less(o, b, a)
  {
    BeforeIsTotal(a.id, b.id);
  }

  /** Not coming after is transitive: the order sorts. */
  lemma NotAfterIsTransitive(o: Order, a: Upstream, b: Upstream, c: Upstream)
    requires !Less(o, b, a) && !Less(o, c, b)
    ensures !Less(o, c, a)
  {
    BeforeIsTotal(a.id, b.id);
    BeforeIsTotal(b.id, c.id);
    BeforeIsTotal(a.id, c.id);
    BeforeIsTransitive(c.id, a.id, b.id);
    BeforeIsTransitive(b.id, c.id, a.id);
    BeforeIsTransitive(a.id, b.id, c.id);
  }

  predicate Sorted(o: Order, s: seq<Upstream>) {
    forall i, j :: 0 <= i < j < |s| ==> !Less(o, s[j], s[i])
  }

  /** x into a sorted list, after everything it does not come before. */
  function Insert(o: Order, s: seq<Upstream>, x: Upstream): seq<Upstream> {
    if |s| == 0 || !Less(o, x, s[|s| - 1]) then s + [x]
    else Insert(o, s[..|s| - 1], x) + [s[|s| - 1]]
  }

  /** sort.SliceStable. */
  function StableSort(o: Order, s: seq<Upstream>): seq<Upstream> {
    if |s| == 0 then [] else Insert(o, StableSort(o, s[..|s| - 1]), s[|s| - 1])
  }

  lemma {:induction false} InsertSorts(o: Order, s: seq<Upstream>, x: Upstream)
    requires Sorted(o, s)
    ensures Sorted(o, Insert(o, s, x)) && multiset(Insert(o, s, x)) == multiset(s) + multiset{x}
  {
    if |s| > 0 {
      var front, last := s[..|s| - 1], s[|s| - 1];
      assert s == front + [last];
      if Less(o, x, last) {
        InsertSorts(o, front, x);
        LessIsTotal(o, x, last);
        InsertedStaysBefore(o, s, x);
      } else {
        forall i | 0 <= i < |s|
          ensures !Less(o, x, s[i])
        {
          if i < |s| - 1 {
            NotAfterIsTransitive(o, s[i], last, x);
          }
        }
      }
    }
  }

  lemma {:induction false} InsertedStaysBefore(o: Order, s: seq<Upstream>, x: Upstream)
    requires |s| > 0 && Sorted(o, s) && !Less(o, s[|s| - 1], x)
    requires var z := Insert(o, s[..|s| - 1], x); multiset(z) == multiset(s[..|s| - 1]) + multiset{x}
    ensures var z := Insert(o, s[..|s| - 1], x); forall i :: 0 <= i < |z| ==> !Less(o, s[|s| - 1], z[i])
  {
    var front, last, z := s[..|s| - 1], s[|s| - 1], Insert(o, s[..|s| - 1], x);
    forall i | 0 <= i < |z|
      ensures !Less(o, last, z[i])
    {
      assert z[i] in multiset(front) + multiset{x};
      if z[i] in front {
        var k :| 0 <= k < |front| && front[k] == z[i];
      }
    }
  }

  lemma {:induction false} SortSorts(o: Order, s: seq<Upstream>)
    ensures Sorted(o, StableSort(o, s)) && multiset(StableSort(o, s)) == multiset(s)
  {
    if |s| > 0 {
      var front, last := s[..|s| - 1], s[|s| - 1];
      SortSorts(o, front);
      InsertSorts(o, StableSort(o, front), last);
      LastSplits(s);
    }
  }

  lemma LastSplits(s: seq<Upstream>)
    requires |s| > 0
    ensures multiset(s) == multiset(s[..|s| - 1]) + multiset{s[|s| - 1]}
  {
    assert s == s[..|s| - 1] + [s[|s| - 1]];
  }

  lemma SortKeepsLength(o: Order, s: seq<Upstream>)
    ensures |StableSort(o, s)| == |s|
  {
    SortSorts(o, s);
    SameMembers(StableSort(o, s), s);
  }

  lemma SameMembers(a: seq<Upstream>, b: seq<Upstream>)
    requires multiset(a) == multiset(b)
    ensures |a| == |b| && forall x :: x in a <==> x in b
  {
    assert |multiset(a)| == |multiset(b)|;
    forall x
      ensures x in a <==> x in b
    {
      assert x in a <==> x in multiset(a);
      assert x in b <==> x in multiset(b);
    }
  }

  // ------------------------------------------------------------- the selection

  /** The eligible candidates, scored, in the candidates' order. */
  function Scored(cands: seq<Upstream>, c: RequestClass, best: nat, tol: nat, w: Weights): seq<Upstream> {
    if |cands| == 0 then []
    else
      var front, u := Scored(cands[..|cands| - 1], c, best, tol, w), cands[|cands| - 1];
      if Eligible(u, c, best, tol) then front + [u.(score := Score(u, c, best, w))] else front
  }

  predicate HasTimeTravel(s: seq<Upstream>) {
    exists i :: 0 <= i < |s| && s[i].caps.timeTravel
  }

  /** How many lead with the first one's tier. */
  function TopCount(mode: Mode, s: seq<Upstream>, from: nat): (n: nat)
    requires from <= |s| && |s| > 0
    ensures from <= n <= |s|
    decreases |s| - from
  {
    if from < |s| && EffectiveTier(mode, s[from]) == EffectiveTier(mode, s[0]) then TopCount(mode, s, from + 1) else from
  }

  /** The first n places that are not on the edge. */
  function OffEdge(o: Order, s: seq<Upstream>, n: nat): (p: seq<nat>)
    requires n <= |s|
    ensures forall k :: 0 <= k < |p| ==> p[k] < n && !(o.hasTT && Edge(s[p[k]], o.request))
    ensures p == [] ==> forall i :: 0 <= i < n ==> o.hasTT && Edge(s[i], o.request)
  {
    if n == 0 then []
    else
      var front := OffEdge(o, s, n - 1);
      if o.hasTT && Edge(s[n - 1], o.request) then front else front + [n - 1]
  }

  /** Where the random pair is drawn from. */
  function Pool(o: Order, s: seq<Upstream>, n: nat): (p: seq<nat>)
    requires 0 < n <= |s|
    ensures |p| > 0 && forall k :: 0 <= k < |p| ==> p[k] < n
  {
    if OffEdge(o, s, n) != [] then OffEdge(o, s, n) else seq(n, i requires 0 <= i < n => i)
  }

  /** Two draws, each any number at all, taken within the pool; none without a
      source of randomness. */
  function PickIndex(o: Order, s: seq<Upstream>, draws: Option<(nat, nat)>): (i: nat)
    requires |s| > 0
    ensures i < |s|
  {
    var n := TopCount(o.mode, s, 0);
    if o.mode == LoadBalancer && n > 1 && draws.Some? then
      var pool := Pool(o, s, n);
      var a, b := pool[draws.value.0 % |pool|], pool[draws.value.1 % |pool|];
      if s[b].score < s[a].score then b else a
    else 0
  }

  function Taken(s: seq<Upstream>, i: nat): Selection
    requires i < |s|
  {
    Selection(s[i], s[..i] + s[i + 1..], s[i].tier)
  }

  function OrderOf(mode: Mode, elig: seq<Upstream>, c: RequestClass): Order {
    Order(mode, HasTimeTravel(elig), c)
  }

  /** Select's answer for a list of scored eligible upstreams. */
  function SelectOf(mode: Mode, elig: seq<Upstream>, c: RequestClass, draws: Option<(nat, nat)>): Option<Selection> {
    if |elig| == 0 then None
    else
      var o := OrderOf(mode, elig, c);
      var s := StableSort(o, elig);
      if |s| == 0 then None else Some(Taken(s, PickIndex(o, s, draws)))
  }

  method CollectEligible(cands: seq<Upstream>, c: RequestClass, best: nat, tol: nat, w: Weights) returns (elig: seq<Upstream>)
    ensures elig == Scored(cands, c, best, tol, w)
  {
    elig := [];
    for i := 0 to |cands|
      invariant elig == Scored(cands[..i], c, best, tol, w)
    {
      assert cands[..i + 1][..i] == cands[..i];
      if Eligible(cands[i], c, best, tol) {
        elig := elig + [cands[i].(score := Score(cands[i], c, best, w))];
      }
    }
    assert cands[..|cands|] == cands;
  }

  method FindTimeTravel(elig: seq<Upstream>) returns (hasTT: bool)
    ensures hasTT <==> HasTimeTravel(elig)
  {
    for i := 0 to |elig|
      invariant forall k :: 0 <= k < i ==> !elig[k].caps.timeTravel
    {
      if elig[i].caps.timeTravel {
        return true;
      }
    }
    return false;
  }

  method Pick(o: Order, s: seq<Upstream>, draws: Option<(nat, nat)>) returns (idx: nat)
    requires |s| > 0
    ensures idx == PickIndex(o, s, draws)
  {
    var n := 0;
    while n < |s| && EffectiveTier(o.mode, s[n]) == EffectiveTier(o.mode, s[0])
      invariant n <= |s| && TopCount(o.mode, s, 0) == TopCount(o.mode, s, n)
    {
      n := n + 1;
    }
    idx := 0;
    if o.mode == LoadBalancer && n > 1 && draws.Some? {
      var pool := MakePool(o, s, n);
      var a, b := pool[draws.value.0 % |pool|], pool[draws.value.1 % |pool|];
      if s[b].score < s[a].score {
        a := b;
      }
      idx := a;
    }
  }

  method MakePool(o: Order, s: seq<Upstream>, n: nat) returns (pool: seq<nat>)
    requires 0 < n <= |s|
    ensures pool == Pool(o, s, n)
  {
    pool := [];
    for i := 0 to n
      invariant pool == OffEdge(o, s, i)
    {
      if !(o.hasTT && Edge(s[i], o.request)) {
        pool := pool + [i];
      }
    }
    if |pool| == 0 {
      pool := seq(n, i requires 0 <= i < n => i);
    }
  }

  method Select(mode: Mode, cands: seq<Upstream>, c: RequestClass, best: nat, tol: nat, w: Weights, draws: Option<(nat, nat)>)
    returns (sel: Option<Selection>)
    ensures sel == SelectOf(mode, Scored(cands, c, best, tol, w), c, draws)
    ensures sel.Some? <==> exists u :: u in cands && MayServe(u, c, best, tol)
    ensures sel.Some? ==> forall x :: x in [sel.value.chosen] + sel.value.alternates <==>
              exists u :: u in cands && MayServe(u, c, best, tol) && x == u.(score := Score(u, c, best, w))
  {
    SelectsWhenEligible(mode, cands, c, best, tol, w, draws);
    forall x: Upstream | SelectOf(mode, Scored(cands, c, best, tol, w), c, draws).Some?
      ensures var sel := SelectOf(mode, Scored(cands, c, best, tol, w), c, draws).value;
              x in [sel.chosen] + sel.alternates <==>
                exists u :: u in cands && MayServe(u, c, best, tol) && x == u.(score := Score(u, c, best, w))
    {
      SelectedMayServe(mode, cands, c, best, tol, w, draws, x);
    }
    var elig := CollectEligible(cands, c, best, tol, w);
    if |elig| == 0 {
      return None;
    }
    var hasTT := FindTimeTravel(elig);
    var o := Order(mode, hasTT, c);
    var s := StableSort(o, elig);
    SortKeepsLength(o, elig);
    var idx := Pick(o, s, draws);
    sel := Some(Taken(s, idx));
  }

  // -------------------------------------------------------- what it promises

  lemma {:induction false} ScoredIsEligible(cands: seq<Upstream>, c: RequestClass, best: nat, tol: nat, w: Weights, x: Upstream)
    ensures x in Scored(cands, c, best, tol, w) <==>
            exists u :: u in cands && Eligible(u, c, best, tol) && x == u.(score := Score(u, c, best, w))
  {
    if |cands| > 0 {
      ScoredIsEligible(cands[..|cands| - 1], c, best, tol, w, x);
      assert cands == cands[..|cands| - 1] + [cands[|cands| - 1]];
    }
  }

  /** A request is routed if and only if some candidate is eligible. */
  lemma SelectsWhenEligible(mode: Mode, cands: seq<Upstream>, c: RequestClass, best: nat, tol: nat, w: Weights, draws: Option<(nat, nat)>)
    ensures SelectOf(mode, Scored(cands, c, best, tol, w), c, draws).Some? <==> exists u :: u in cands && MayServe(u, c, best, tol)
  {
    forall u: Upstream
      ensures Eligible(u, c, best, tol) <==> MayServe(u, c, best, tol)
    {
      EligibleExactly(u, c, best, tol);
    }
    var elig := Scored(cands, c, best, tol, w);
    if |elig| > 0 {
      ScoredIsEligible(cands, c, best, tol, w, elig[0]);
      SortSorts(OrderOf(mode, elig, c), elig);
      SameMembers(StableSort(OrderOf(mode, elig, c), elig), elig);
    }
    forall u | u in cands && Eligible(u, c, best, tol)
      ensures |elig| > 0
    {
      ScoredIsEligible(cands, c, best, tol, w, u.(score := Score(u, c, best, w)));
    }
  }

  /** The chosen and the alternates are the eligible upstreams, each once, and the
      alternates are in order. */
  lemma SelectionIsPermutation(mode: Mode, elig: seq<Upstream>, c: RequestClass, draws: Option<(nat, nat)>)
    requires SelectOf(mode, elig, c, draws).Some?
    ensures var sel := SelectOf(mode, elig, c, draws).value;
            && multiset([sel.chosen] + sel.alternates) == multiset(elig) && sel.tier == sel.chosen.tier
            && Sorted(OrderOf(mode, elig, c), sel.alternates)
  {
    var o := OrderOf(mode, elig, c);
    var s := StableSort(o, elig);
    SortSorts(o, elig);
    TakingKeeps(o, s, PickIndex(o, s, draws));
  }

  lemma TakingKeeps(o: Order, s: seq<Upstream>, i: nat)
    requires i < |s| && Sorted(o, s)
    ensures multiset([s[i]] + (s[..i] + s[i + 1..])) == multiset(s) && Sorted(o, s[..i] + s[i + 1..])
  {
    TakingKeepsMembers(s, i);
  }

  lemma TakingKeepsMembers(s: seq<Upstream>, i: nat)
    requires i < |s|
    ensures multiset([s[i]] + (s[..i] + s[i + 1..])) == multiset(s)
  {
    var x, before, after := s[i], s[..i], s[i + 1..];
    assert multiset([x] + (before + after)) == multiset{x} + (multiset(before) + multiset(after));
    assert s == before + ([x] + after);
    assert multiset(before + ([x] + after)) == multiset(before) + (multiset{x} + multiset(after));
  }

  lemma TopsShareTier(mode: Mode, s: seq<Upstream>, from: nat, i: nat)
    requires |s| > 0 && from <= |s| && i < TopCount(mode, s, from)
    requires forall k :: 0 <= k < from ==> EffectiveTier(mode, s[k]) == EffectiveTier(mode, s[0])
    ensures EffectiveTier(mode, s[i]) == EffectiveTier(mode, s[0])
    decreases |s| - from
  {
    if from < |s| && EffectiveTier(mode, s[from]) == EffectiveTier(mode, s[0]) {
      TopsShareTier(mode, s, from + 1, i);
    }
  }

  /** Nothing eligible is in a tier before the chosen one's. */
  lemma ChosenIsInTheLowestTier(mode: Mode, elig: seq<Upstream>, c: RequestClass, draws: Option<(nat, nat)>, x: Upstream)
    requires SelectOf(mode, elig, c, draws).Some? && x in elig
    ensures EffectiveTier(mode, SelectOf(mode, elig, c, draws).value.chosen) <= EffectiveTier(mode, x)
  {
    var o := OrderOf(mode, elig, c);
    var s := StableSort(o, elig);
    SortSorts(o, elig);
    SameMembers(s, elig);
    var k :| 0 <= k < |s| && s[k] == x;
    var i := PickIndex(o, s, draws);
    if i > 0 {
      TopsShareTier(mode, s, 0, i);
    }
    if k > 0 {
      assert !Less(o, s[k], s[0]);
    }
  }

  /** Without a draw nothing eligible comes before the chosen one. */
  lemma FallbackChoosesFirst(mode: Mode, elig: seq<Upstream>, c: RequestClass, draws: Option<(nat, nat)>, x: Upstream)
    requires SelectOf(mode, elig, c, draws).Some? && x in elig && (mode == Fallback || draws.None?)
    ensures !Precedes(OrderOf(mode, elig, c), x, SelectOf(mode, elig, c, draws).value.chosen)
  {
    LessExactly(OrderOf(mode, elig, c), x, SelectOf(mode, elig, c, draws).value.chosen);
    var o := OrderOf(mode, elig, c);
    var s := StableSort(o, elig);
    SortSorts(o, elig);
    SameMembers(s, elig);
    var k :| 0 <= k < |s| && s[k] == x;
    LessIsTotal(o, x, x);
  }

  /** While a time-travel node is eligible, a node on the edge of its window is
      chosen, by order or by draw, only when its whole tier is on the edge. */
  lemma EdgeIsAvoided(mode: Mode, elig: seq<Upstream>, c: RequestClass, draws: Option<(nat, nat)>, x: Upstream)
    requires SelectOf(mode, elig, c, draws).Some? && HasTimeTravel(elig) && x in elig && !Edge(x, c)
    requires EffectiveTier(mode, x) == EffectiveTier(mode, SelectOf(mode, elig, c, draws).value.chosen)
    ensures !Edge(SelectOf(mode, elig, c, draws).value.chosen, c)
  {
    var o := OrderOf(mode, elig, c);
    var s := StableSort(o, elig);
    SortSorts(o, elig);
    SameMembers(s, elig);
    var k :| 0 <= k < |s| && s[k] == x;
    FirstIsOffEdge(o, s, k, PickIndex(o, s, draws));
    PickIsOffEdge(o, s, draws);
  }

  lemma PickIsOffEdge(o: Order, s: seq<Upstream>, draws: Option<(nat, nat)>)
    requires |s| > 0 && o.hasTT && !Edge(s[0], o.request)
    ensures !Edge(s[PickIndex(o, s, draws)], o.request)
  {
    var n := TopCount(o.mode, s, 0);
    if o.mode == LoadBalancer && n > 1 && draws.Some? {
      assert Pool(o, s, n) == OffEdge(o, s, n);
    }
  }

  lemma FirstIsOffEdge(o: Order, s: seq<Upstream>, k: nat, i: nat)
    requires Sorted(o, s) && o.hasTT && k < |s| && !Edge(s[k], o.request)
    requires i < TopCount(o.mode, s, 0) && EffectiveTier(o.mode, s[k]) == EffectiveTier(o.mode, s[i])
    ensures !Edge(s[0], o.request)
  {
    TopsShareTier(o.mode, s, 0, i);
    if k > 0 {
      assert !Less(o, s[k], s[0]);
    }
  }

  /** With tiers small against half an int32, a fallback agent's own node comes
      first and an external only when nothing else is eligible; a load balancer's
      own node is one more of its tier. */
  lemma LocalFirstExternalLast(mode: Mode, elig: seq<Upstream>, c: RequestClass, draws: Option<(nat, nat)>, x: Upstream)
    requires SelectOf(mode, elig, c, draws).Some? && x in elig
    requires forall u :: u in elig ==> 0 <= u.tier < HALF_MAX_INT32
    ensures mode == Fallback && x.kind.Local? ==> SelectOf(mode, elig, c, draws).value.chosen.kind.Local?
    ensures !x.kind.External? ==> !SelectOf(mode, elig, c, draws).value.chosen.kind.External?
    ensures var chosen := SelectOf(mode, elig, c, draws).value.chosen;
            x.kind == chosen.kind || (mode == LoadBalancer && !x.kind.External? && !chosen.kind.External?) ==>
              chosen.tier <= x.tier || (mode == Fallback && x.kind.Local?)
  {
    ChosenIsInTheLowestTier(mode, elig, c, draws, x);
    SelectionIsPermutation(mode, elig, c, draws);
    var sel := SelectOf(mode, elig, c, draws).value;
    SameMembers([sel.chosen] + sel.alternates, elig);
    assert sel.chosen in [sel.chosen] + sel.alternates;
  }

  /** Of two draws the better is taken. */
  lemma BetterDrawIsTaken(o: Order, s: seq<Upstream>, a: nat, b: nat)
    requires o.mode == LoadBalancer && |s| > 0 && TopCount(o.mode, s, 0) > 1
    ensures var pool, i := Pool(o, s, TopCount(o.mode, s, 0)), PickIndex(o, s, Some((a, b)));
            && (i == pool[a % |pool|] || i == pool[b % |pool|])
            && s[i].score <= s[pool[a % |pool|]].score && s[i].score <= s[pool[b % |pool|]].score
  {
  }

  lemma {:induction false} OffEdgeHasAll(o: Order, s: seq<Upstream>, n: nat, i: nat)
    requires i < n <= |s| && !(o.hasTT && Edge(s[i], o.request))
    ensures i in OffEdge(o, s, n)
  {
    if i < n - 1 {
      OffEdgeHasAll(o, s, n - 1, i);
    }
  }

  lemma TopsAreCounted(mode: Mode, s: seq<Upstream>, from: nat, i: nat)
    requires |s| > 0 && from <= i < |s|
    requires forall k :: from <= k <= i ==> EffectiveTier(mode, s[k]) == EffectiveTier(mode, s[0])
    ensures i < TopCount(mode, s, from)
    decreases |s| - from
  {
    if from < i {
      TopsAreCounted(mode, s, from + 1, i);
    }
  }

  lemma LowestIsOnTop(o: Order, s: seq<Upstream>, i: nat)
    requires Sorted(o, s) && i < |s|
    requires forall k :: 0 <= k < |s| ==> EffectiveTier(o.mode, s[i]) <= EffectiveTier(o.mode, s[k])
    ensures i < TopCount(o.mode, s, 0)
  {
    forall k | 0 <= k < i
      ensures EffectiveTier(o.mode, s[k]) == EffectiveTier(o.mode, s[i])
    {
      assert !Less(o, s[i], s[k]);
    }
    TopsAreCounted(o.mode, s, 0, i);
  }

  /** A place on top and off the edge comes up when both draws fall on it. */
  lemma PlaceCanBeDrawn(o: Order, s: seq<Upstream>, i: nat) returns (draw: nat)
    requires |s| > 0 && i < TopCount(o.mode, s, 0) && !(o.hasTT && Edge(s[i], o.request)) && o.mode == LoadBalancer
    ensures PickIndex(o, s, Some((draw, draw))) == i
  {
    var n := TopCount(o.mode, s, 0);
    OffEdgeHasAll(o, s, n, i);
    var pool := Pool(o, s, n);
    assert i in pool;
    draw :| 0 <= draw < |pool| && pool[draw] == i;
    DrawWithin(draw, |pool|);
  }

  lemma DrawWithin(draw: nat, size: nat)
    requires draw < size
    ensures draw % size == draw
  {
  }

  /** The draws reach every eligible upstream of the lowest tier, those on the
      edge of their window aside while a time-travel node is eligible. */
  lemma EveryTopCanBeDrawn(elig: seq<Upstream>, c: RequestClass, x: Upstream) returns (draw: nat)
    requires x in elig && (HasTimeTravel(elig) ==> !Edge(x, c))
    requires forall y :: y in elig ==> EffectiveTier(LoadBalancer, x) <= EffectiveTier(LoadBalancer, y)
    ensures SelectOf(LoadBalancer, elig, c, Some((draw, draw))).Some?
    ensures SelectOf(LoadBalancer, elig, c, Some((draw, draw))).value.chosen == x
  {
    var o := OrderOf(LoadBalancer, elig, c);
    var s := StableSort(o, elig);
    SortSorts(o, elig);
    SameMembers(s, elig);
    var i :| 0 <= i < |s| && s[i] == x;
    forall k | 0 <= k < |s|
      ensures EffectiveTier(o.mode, s[i]) <= EffectiveTier(o.mode, s[k])
    {
      assert s[k] in elig;
    }
    LowestIsOnTop(o, s, i);
    draw := PlaceCanBeDrawn(o, s, i);
  }

  /** A request goes, first or on a retry, exactly to the candidates that meet every
      rule, each with its score. */
  lemma SelectedMayServe(mode: Mode, cands: seq<Upstream>, c: RequestClass, best: nat, tol: nat, w: Weights, draws: Option<(nat, nat)>,
                         x: Upstream)
    requires SelectOf(mode, Scored(cands, c, best, tol, w), c, draws).Some?
    ensures var sel := SelectOf(mode, Scored(cands, c, best, tol, w), c, draws).value;
            x in [sel.chosen] + sel.alternates <==>
              exists u :: u in cands && MayServe(u, c, best, tol) && x == u.(score := Score(u, c, best, w))
  {
    var elig := Scored(cands, c, best, tol, w);
    SelectionIsPermutation(mode, elig, c, draws);
    var sel := SelectOf(mode, elig, c, draws).value;
    SameMembers([sel.chosen] + sel.alternates, elig);
    ScoredIsEligible(cands, c, best, tol, w, x);
    forall u: Upstream
      ensures Eligible(u, c, best, tol) <==> MayServe(u, c, best, tol)
    {
      EligibleExactly(u, c, best, tol);
    }
  }

  // ------------------------------------------------------------------ scores

  /** What counts against an upstream never lowers its score: errors, lag, requests
      in flight, slowness, not being local, being external. */
  lemma WorseScoresNoLower(u: Upstream, v: Upstream, c: RequestClass, best: nat, w: Weights)
    requires NoPenaltyIsNegative(w)
    requires Latency(u, c, Effective(w)) <= Latency(v, c, Effective(w)) && u.stats.errorRate <= v.stats.errorRate
    requires u.lastRound >= v.lastRound && u.stats.inflight <= v.stats.inflight
    requires (v.kind.Local? ==> u.kind.Local?) && (u.kind.External? ==> v.kind.External?)
    ensures Score(u, c, best, w) <= Score(v, c, best, w)
  {
    var e := Effective(w);
    WeighedGrows(e.errorPenaltyMS, u.stats.errorRate, v.stats.errorRate);
    WeighedGrows(e.inflightMS, u.stats.inflight as real, v.stats.inflight as real);
    WeighedGrows(e.lagPenaltyMS, Lag(u, best), Lag(v, best));
  }

  /** The latency a score starts from: that of the request's kind, else the default's,
      else the one assumed of an upstream never measured. */
  ghost predicate StartsFrom(u: Upstream, c: RequestClass, w: Weights, latency: real) {
    exists key :: OfKind(c, key) &&
      latency == if key in u.stats.latencyMS then u.stats.latencyMS[key]
                 else if "default" in u.stats.latencyMS then u.stats.latencyMS["default"] else w.unknownLatMS
  }

  /** A peer in sync with no errors and nothing in flight scores its latency; each
      request in flight and each unit of the error rate adds its penalty; and no
      weights at all are the defaults. */
  lemma ScoreCounts(u: Upstream, c: RequestClass, best: nat, w: Weights, rate: real)
    requires w != NO_WEIGHTS
    ensures u.kind == Peer && u.stats.errorRate == 0.0 && u.stats.inflight == 0 && u.lastRound >= best ==>
              StartsFrom(u, c, w, Score(u, c, best, w))
    ensures Score(u.(stats := u.stats.(inflight := u.stats.inflight + 1)), c, best, w) == Score(u, c, best, w) + w.inflightMS
    ensures Score(u.(stats := u.stats.(errorRate := rate)), c, best, w)
            == Score(u, c, best, w) + w.errorPenaltyMS * (rate - u.stats.errorRate)
    ensures Score(u, c, best, NO_WEIGHTS) == Score(u, c, best, Weights(2000.0, 50.0, 5.0, 2.0, 20.0, 100.0))
  {
    StatKeyIsKind(c, c.StatKey());
    WeighedAdds(w.inflightMS, u.stats.inflight as real, 1.0);
    WeighedAdds(w.errorPenaltyMS, u.stats.errorRate, rate - u.stats.errorRate);
    WeighedAdds(w.lagPenaltyMS, 0.0, 0.0);
  }

  /** Each round behind the best adds its penalty, being ahead nothing; being local
      takes the bonus off, being external adds the penalty. */
  lemma ScorePlaces(u: Upstream, c: RequestClass, best: nat, w: Weights)
    requires w != NO_WEIGHTS
    ensures 0 < u.lastRound <= best ==> Score(u.(lastRound := u.lastRound - 1), c, best, w) == Score(u, c, best, w) + w.lagPenaltyMS
    ensures u.lastRound >= best ==> Score(u.(lastRound := u.lastRound + 1), c, best, w) == Score(u, c, best, w)
    ensures u.kind == Peer ==> Score(u.(kind := Local), c, best, w) == Score(u, c, best, w) - w.localBonusMS
    ensures u.kind == Peer ==> Score(u.(kind := External), c, best, w) == Score(u, c, best, w) + w.externalPenalty
  {
    if u.lastRound <= best {
      WeighedAdds(w.lagPenaltyMS, (best - u.lastRound) as real, 1.0);
    }
  }

  lemma WeighedAdds(weight: real, a: real, b: real)
    ensures Weighed(weight, a + b) == Weighed(weight, a) + weight * b
    ensures Weighed(weight, 0.0) == 0.0
  {
  }

  /** Holds of no weights, which the agent passes, as of any sensible ones. */
  predicate NoPenaltyIsNegative(w: Weights) {
    w.errorPenaltyMS >= 0.0 && w.lagPenaltyMS >= 0.0 && w.inflightMS >= 0.0 && w.localBonusMS >= 0.0 && w.externalPenalty >= 0.0
  }

  lemma WeighedGrows(weight: real, a: real, b: real)
    requires weight >= 0.0 && a <= b
    ensures Weighed(weight, a) <= Weighed(weight, b)
  {
    assert weight * (b - a) >= 0.0;
  }

  // --------------------------------------------------------- order and exclusion

  predicate DistinctIds(s: seq<Upstream>) {
    forall i, j :: 0 <= i < j < |s| ==> s[i].id != s[j].id
  }

  ghost predicate SameSet(a: seq<Upstream>, b: seq<Upstream>) {
    forall u :: u in a <==> u in b
  }

  ghost predicate StrictlySorted(o: Order, s: seq<Upstream>) {
    forall i, j :: 0 <= i < j < |s| ==> Less(o, s[i], s[j])
  }

  lemma StrictLast(o: Order, s: seq<Upstream>)
    requires StrictlySorted(o, s) && |s| > 0
    ensures StrictlySorted(o, s[..|s| - 1])
    ensures forall x :: x in s[..|s| - 1] <==> x in s && x != s[|s| - 1]
    ensures forall x :: x in s && x != s[|s| - 1] ==> Less(o, x, s[|s| - 1])
  {
    var front, last := s[..|s| - 1], s[|s| - 1];
    assert s == front + [last];
    forall x | x in front
      ensures x != last
    {
      LessIsTotal(o, x, last);
    }
  }

  lemma HasMember(s: seq<Upstream>)
    ensures |s| > 0 ==> exists u :: u in s
  {
    if |s| > 0 {
      assert s[0] in s;
    }
  }

  /** A set of upstreams has one strictly sorted list. */
  lemma {:induction false} SortedIsUnique(o: Order, a: seq<Upstream>, b: seq<Upstream>)
    requires StrictlySorted(o, a) && StrictlySorted(o, b) && SameSet(a, b)
    ensures a == b
  {
    HasMember(a);
    HasMember(b);
    if |a| > 0 && |b| > 0 {
      var x, y := a[|a| - 1], b[|b| - 1];
      StrictLast(o, a);
      StrictLast(o, b);
      assert x in b && y in a;
      assert x != y ==> Less(o, x, y) && Less(o, y, x);
      LessIsTotal(o, x, y);
      var front, rest := a[..|a| - 1], b[..|b| - 1];
      forall u
        ensures u in front <==> u in rest
      {
        assert u in a <==> u in b;
      }
      SortedIsUnique(o, front, rest);
      assert a == a[..|a| - 1] + [x] && b == b[..|b| - 1] + [y];
    }
  }

  /** Every place of a list with distinct ids holds another upstream, so its
      sorted list is strictly sorted. */
  lemma DistinctSortStrictly(o: Order, s: seq<Upstream>)
    requires DistinctIds(s)
    ensures StrictlySorted(o, StableSort(o, s))
  {
    var t := StableSort(o, s);
    SortSorts(o, s);
    SameMembers(t, s);
    forall i, j | 0 <= i < j < |t|
      ensures Less(o, t[i], t[j])
    {
      DistinctPlaces(s, t, i, j);
      LessIsTotal(o, t[i], t[j]);
    }
  }

  lemma DistinctPlaces(s: seq<Upstream>, t: seq<Upstream>, i: nat, j: nat)
    requires DistinctIds(s) && multiset(s) == multiset(t) && i < j < |t|
    ensures t[i].id != t[j].id
  {
    SameMembers(t, s);
    assert t[i] in s && t[j] in s;
    if t[i] == t[j] {
      assert t == t[..i] + [t[i]] + t[i + 1..j] + [t[j]] + t[j + 1..];
      assert multiset(t)[t[i]] >= 2;
      OncePerId(s, t[i]);
    }
  }

  lemma {:induction false} OncePerId(s: seq<Upstream>, x: Upstream)
    requires DistinctIds(s)
    ensures multiset(s)[x] <= 1
  {
    if |s| > 0 {
      var front := s[..|s| - 1];
      assert s == front + [s[|s| - 1]];
      OncePerId(front, x);
      assert s[|s| - 1] !in front;
    }
  }

  lemma {:induction false} ScoredIsDistinct(cands: seq<Upstream>, c: RequestClass, best: nat, tol: nat, w: Weights)
    requires DistinctIds(cands)
    ensures DistinctIds(Scored(cands, c, best, tol, w))
  {
    if |cands| > 0 {
      var front, u := cands[..|cands| - 1], cands[|cands| - 1];
      ScoredIsDistinct(front, c, best, tol, w);
      var s := Scored(front, c, best, tol, w);
      forall i | 0 <= i < |s|
        ensures s[i].id != u.id
      {
        ScoredIsEligible(front, c, best, tol, w, s[i]);
        var v :| v in front && s[i] == v.(score := Score(v, c, best, w));
        var k :| 0 <= k < |front| && front[k] == v;
        assert cands[k] == v;
      }
    }
  }

  /** With distinct ids the selection is the same whatever the candidates' order:
      in fallback always, in a load balancer for the same draws. */
  lemma OrderDoesNotMatter(mode: Mode, cands: seq<Upstream>, others: seq<Upstream>, c: RequestClass, best: nat, tol: nat, w: Weights,
                           draws: Option<(nat, nat)>)
    requires DistinctIds(cands) && DistinctIds(others) && SameSet(cands, others)
    ensures SelectOf(mode, Scored(cands, c, best, tol, w), c, draws) == SelectOf(mode, Scored(others, c, best, tol, w), c, draws)
  {
    var a, b := Scored(cands, c, best, tol, w), Scored(others, c, best, tol, w);
    ScoredIsDistinct(cands, c, best, tol, w);
    ScoredIsDistinct(others, c, best, tol, w);
    forall x
      ensures x in a <==> x in b
    {
      ScoredIsEligible(cands, c, best, tol, w, x);
      ScoredIsEligible(others, c, best, tol, w, x);
    }
    var o := OrderOf(mode, a, c);
    SameOrder(mode, a, b, c);
    DistinctSortStrictly(o, a);
    DistinctSortStrictly(o, b);
    SortSorts(o, a);
    SortSorts(o, b);
    SameMembers(StableSort(o, a), a);
    SameMembers(StableSort(o, b), b);
    SortedIsUnique(o, StableSort(o, a), StableSort(o, b));
  }

  lemma SameOrder(mode: Mode, a: seq<Upstream>, b: seq<Upstream>, c: RequestClass)
    requires SameSet(a, b)
    ensures OrderOf(mode, a, c) == OrderOf(mode, b, c)
  {
    if HasTimeTravel(a) {
      var i :| 0 <= i < |a| && a[i].caps.timeTravel;
      assert a[i] in b;
    }
    if HasTimeTravel(b) {
      var i :| 0 <= i < |b| && b[i].caps.timeTravel;
      assert b[i] in a;
    }
  }

  /** An excluded candidate might as well not be there. */
  lemma {:induction false} ExcludedChangeNothing(cands: seq<Upstream>, c: RequestClass, best: nat, tol: nat, w: Weights)
    ensures Scored(NotExcluded(cands), c, best, tol, w) == Scored(cands, c, best, tol, w)
  {
    if |cands| > 0 {
      var front := cands[..|cands| - 1];
      ExcludedChangeNothing(front, c, best, tol, w);
      if !cands[|cands| - 1].excluded {
        assert NotExcluded(cands)[..|NotExcluded(front)|] == NotExcluded(front);
      }
    }
  }
}
