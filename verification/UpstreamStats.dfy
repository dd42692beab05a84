/** What is recorded of one upstream (internal/app/stats.go), against the whole
    history of what happened to it. */
module UpstreamStats {
  import opened Requests

  datatype Breaker = Breaker(threshold: int, openFor: int, window: int, alpha: real)

  const DEFAULT_BREAKER := Breaker(5, 10_000_000_000, 50, 0.2)

  function Defaulted(o: Breaker): Breaker {
    if o.threshold == 0 then DEFAULT_BREAKER else o
  }

  const MILLISECOND: real := 1_000_000.0

  /** How one forwarded request ended: status 0 on a transport error. */
  datatype Outcome = Outcome(status: int, err: bool, duration: int) {
    predicate Failed() {
      err || status >= 500 || status == 429
    }

    function Ms(): real {
      duration as real / MILLISECOND
    }
  }

  /** A request begins under a ticket and is released, maybe more than once: first
      is what the release's once lets through. */
  datatype Event =
    | Began(ticket: nat)
    | Released(ticket: nat, first: bool)
    | Recorded(key: string, out: Outcome, now: int)
    | Busied(until: int)

  // ----------------------------------------------- the history's own answers

  /** A transport error, a server error or a 429. */
  predicate Bad(out: Outcome) {
    out.err || 500 <= out.status || out.status == 429
  }

  function Outcomes(es: seq<Event>): seq<bool> {
    if |es| == 0 then []
    else
      var e := es[|es| - 1];
      if e.Recorded? then Outcomes(es[..|es| - 1]) + [Bad(e.out)] else Outcomes(es[..|es| - 1])
  }

  function LastN(s: seq<bool>, n: nat): seq<bool> {
    if |s| <= n then s else s[|s| - n..]
  }

  function Failures(s: seq<bool>): (n: nat)
    ensures n <= |s|
  {
    if |s| == 0 then 0 else Failures(s[..|s| - 1]) + if s[|s| - 1] then 1 else 0
  }

  /** The failed share of the last window outcomes. */
  function ErrorRate(s: seq<bool>, window: nat): real {
    var kept := LastN(s, window);
    if |kept| == 0 then 0.0 else Failures(kept) as real / |kept| as real
  }

  /** Failures since the last success. */
  function Trailing(es: seq<Event>): nat {
    if |es| == 0 then 0
    else
      var e := es[|es| - 1];
      if !e.Recorded? then Trailing(es[..|es| - 1]) else if Bad(e.out) then Trailing(es[..|es| - 1]) + 1 else 0
  }

  /** An event that is at least the threshold's failure in a row. */
  predicate Trips(o: Breaker, es: seq<Event>) {
    |es| > 0 && es[|es| - 1].Recorded? && Bad(es[|es| - 1].out) && Trailing(es) >= o.threshold
  }

  /** Until when the last trip keeps the breaker open, 0 before any. */
  function OpenUntil(o: Breaker, es: seq<Event>): int {
    if |es| == 0 then 0 else if Trips(o, es) then es[|es| - 1].now + o.openFor else OpenUntil(o, es[..|es| - 1])
  }

  /** The outcome at place k is a 429. */
  predicate ThrottlesAt(es: seq<Event>, k: nat) {
    k < |es| && es[k].Recorded? && es[k].out.status == 429
  }

  /** until is OpenFor after the last 429, 0 before any. */
  ghost predicate IsThrottledUntil(o: Breaker, es: seq<Event>, until: int) {
    && ((forall k: nat :: !ThrottlesAt(es, k)) ==> until == 0)
    && (forall k: nat :: ThrottlesAt(es, k) && (forall j: nat :: ThrottlesAt(es, j) ==> j <= k) ==> until == es[k].now + o.openFor)
  }

  predicate BusyAt(es: seq<Event>, k: nat) {
    k < |es| && es[k].Busied?
  }

  /** until is the latest instant any busy answer asked for, and not before 0. */
  ghost predicate IsBusyUntil(es: seq<Event>, until: int) {
    && until >= 0
    && (forall k: nat :: BusyAt(es, k) ==> es[k].until <= until)
    && (until > 0 ==> exists k: nat :: BusyAt(es, k) && es[k].until == until)
  }

  /** The latencies of one key's successes. */
  function Samples(es: seq<Event>, key: string): seq<real> {
    if |es| == 0 then []
    else
      var e := es[|es| - 1];
      if e.Recorded? && !Bad(e.out) && e.key == key then Samples(es[..|es| - 1], key) + [e.out.duration as real / 1_000_000.0]
      else Samples(es[..|es| - 1], key)
  }

  function Scaled(alpha: real, d: real): real {
    alpha * d
  }

  /** The average of samples, the newest weighing alpha and those before it the rest. */
  function Ewma(alpha: real, s: seq<real>): real
    requires |s| > 0
  {
    if |s| == 1 then s[0]
    else Scaled(1.0 - alpha, Ewma(alpha, s[..|s| - 1])) + Scaled(alpha, s[|s| - 1])
  }

  /** The tickets begun and not yet released. */
  function Unreleased(es: seq<Event>): set<nat> {
    if |es| == 0 then {}
    else
      var e, before := es[|es| - 1], Unreleased(es[..|es| - 1]);
      match e
      case Began(t) => before + {t}
      case Released(t, _) => before - {t}
      case _ => before
  }

  function Begins(es: seq<Event>): nat {
    if |es| == 0 then 0 else Begins(es[..|es| - 1]) + if es[|es| - 1].Began? then 1 else 0
  }

  // ------------------------------------------------------------ about those

  /** A weighted latency never leaves the range of its samples. */
  lemma {:induction false} EwmaStaysBetween(alpha: real, s: seq<real>, lo: real, hi: real)
    requires 0.0 <= alpha <= 1.0 && |s| > 0
    requires forall i :: 0 <= i < |s| ==> lo <= s[i] <= hi
    ensures lo <= Ewma(alpha, s) <= hi
  {
    if |s| > 1 {
      EwmaStaysBetween(alpha, s[..|s| - 1], lo, hi);
      BlendWeighs(alpha, Ewma(alpha, s[..|s| - 1]), s[|s| - 1]);
      Mixed(alpha, Ewma(alpha, s[..|s| - 1]), s[|s| - 1], lo, hi);
    }
  }

  lemma BlendWeighs(alpha: real, prev: real, x: real)
    ensures Blend(alpha, prev, x) == Scaled(1.0 - alpha, prev) + Scaled(alpha, x)
  {
  }

  lemma Mixed(alpha: real, prev: real, x: real, lo: real, hi: real)
    requires 0.0 <= alpha <= 1.0 && lo <= prev <= hi && lo <= x <= hi
    ensures lo <= Blend(alpha, prev, x) <= hi
  {
    if x >= prev {
      Shrunk(alpha, x - prev, Scaled(alpha, x - prev));
    } else {
      Shrunk(alpha, prev - x, Scaled(alpha, prev - x));
      Negated(alpha, x - prev, prev - x);
    }
  }

  lemma Negated(alpha: real, d: real, e: real)
    requires d == -e
    ensures Scaled(alpha, d) == -Scaled(alpha, e)
  {
  }

  lemma Shrunk(alpha: real, d: real, p: real)
    requires 0.0 <= alpha <= 1.0 && d >= 0.0 && p == alpha * d
    ensures 0.0 <= p <= d
  {
    var rest := 1.0 - alpha;
    NotNegative(alpha, d);
    NotNegative(rest, d);
    assert rest * d == d - alpha * d;
  }

  lemma NotNegative(a: real, b: real)
    requires a >= 0.0 && b >= 0.0
    ensures a * b >= 0.0
  {
  }

  lemma {:induction false} FailuresAdd(a: seq<bool>, b: seq<bool>)
    ensures Failures(a + b) == Failures(a) + Failures(b)
  {
    if b == [] {
      assert a + b == a;
    } else {
      assert (a + b)[..|a + b| - 1] == a + b[..|b| - 1];
      FailuresAdd(a, b[..|b| - 1]);
    }
  }

  /** The last trip is the last failure that leaves a run of at least threshold
      failures: while such a run lasts, the breaker's time counts from its latest
      failure. */
  lemma {:induction false} OpenCountsFromLastFailure(o: Breaker, es: seq<Event>, k: nat)
    requires k < |es| && Trips(o, es[..k + 1])
    requires forall j :: k < j < |es| ==> !es[j].Recorded?
    ensures OpenUntil(o, es) == es[k].now + o.openFor && Trailing(es) >= o.threshold && Trailing(es) > 0
  {
    if k == |es| - 1 {
      assert es[..k + 1] == es;
    } else {
      assert es[..|es| - 1][..k + 1] == es[..k + 1];
      OpenCountsFromLastFailure(o, es[..|es| - 1], k);
    }
  }

  /** The ring in the order its outcomes came. */
  function Chronological(window: seq<bool>, pos: nat, full: bool): seq<bool>
    requires pos <= |window|
  {
    if full then window[pos..] + window[..pos] else window[..pos]
  }

  /** The ring holds the last outcomes, all of them until it is full. */
  ghost predicate RingOf(window: seq<bool>, pos: nat, full: bool, s: seq<bool>) {
    pos < |window| && (!full ==> |s| == pos) && Chronological(window, pos, full) == LastN(s, |window|)
  }

  /** A slot written: the ring forgets its oldest outcome once it is full. */
  lemma RingAdvances(window: seq<bool>, pos: nat, full: bool, s: seq<bool>, x: bool)
    requires RingOf(window, pos, full, s)
    ensures RingOf(window[pos := x], (pos + 1) % |window|, full || (pos + 1) % |window| == 0, s + [x])
  {
    if full {
      FullRingAdvances(window, pos, s, x);
    } else {
      var w := window[pos := x];
      assert w[..pos + 1] == window[..pos] + [x];
      assert s == window[..pos];
      if pos + 1 == |window| {
        assert (pos + 1) % |window| == 0;
        assert w[0..] + w[..0] == s + [x];
      }
    }
  }

  lemma Wraps(pos: nat, size: nat)
    requires pos < size
    ensures (pos + 1) % size == if pos + 1 == size then 0 else pos + 1
  {
  }

  lemma Rotates(window: seq<bool>, pos: nat, x: bool, next: nat)
    requires pos < |window| && next == if pos + 1 == |window| then 0 else pos + 1
    ensures Chronological(window[pos := x], next, true) == (window[pos..] + window[..pos])[1..] + [x]
  {
    var w, tail := window[pos := x], window[pos + 1..];
    assert w[..pos + 1] == window[..pos] + [x];
    assert w[pos + 1..] == tail;
    assert (window[pos..] + window[..pos])[1..] == tail + window[..pos];
    if pos + 1 == |window| {
      assert tail == [] && w[0..] + w[..0] == w[..pos + 1];
    }
  }

  lemma FullRingAdvances(window: seq<bool>, pos: nat, s: seq<bool>, x: bool)
    requires RingOf(window, pos, true, s)
    ensures RingOf(window[pos := x], (pos + 1) % |window|, true, s + [x])
  {
    var size := |window|;
    var kept := LastN(s, size);
    assert kept == window[pos..] + window[..pos];
    assert LastN(s + [x], size) == kept[1..] + [x];
    Wraps(pos, size);
    Rotates(window, pos, x, (pos + 1) % size);
  }

  /** Counting the ring's slots in place counts the last outcomes. */
  lemma RingCounts(window: seq<bool>, pos: nat, full: bool, s: seq<bool>)
    requires RingOf(window, pos, full, s)
    ensures var n := if full then |window| else pos;
            n == |LastN(s, |window|)| && Failures(window[..n]) == Failures(LastN(s, |window|))
  {
    if full {
      assert window[..|window|] == window[..pos] + window[pos..];
      FailuresAdd(window[..pos], window[pos..]);
      FailuresAdd(window[pos..], window[..pos]);
    }
  }

  /** Tickets are numbered as they begin, and a release passes once. */
  ghost predicate Consistent(es: seq<Event>) {
    |es| > 0 ==> Consistent(es[..|es| - 1]) && Fits(es[..|es| - 1], es[|es| - 1])
  }

  ghost predicate Fits(es: seq<Event>, e: Event) {
    (e.Began? ==> e.ticket == Begins(es)) && (e.Released? ==> (e.first <==> e.ticket in Unreleased(es)))
  }

  // ------------------------------------------------------------ the counters

  datatype Fields = Fields(
    latency: map<string, real>,
    window: seq<bool>,
    windowPos: nat,
    windowFull: bool,
    inflight: int,
    failures: nat,
    probing: bool,
    openUntil: int,
    throttledUntil: int,
    busyUntil: int)

  function Fresh(o: Breaker): Fields {
    Fields(map[], seq(if o.window > 0 then o.window else 0, i => false), 0, false, 0, 0, false, 0, 0, 0)
  }

  /** An average moved towards a new sample by the newest sample's weight. */
  function Blend(alpha: real, prev: real, x: real): real {
    prev + Scaled(alpha, x - prev)
  }

  function Pushed(f: Fields, failed: bool): Fields {
    if f.windowPos >= |f.window| then f
    else
      var next := (f.windowPos + 1) % |f.window|;
      f.(window := f.window[f.windowPos := failed], windowPos := next, windowFull := f.windowFull || next == 0)
  }

  function Failed(o: Breaker, f: Fields, out: Outcome, now: int): Fields {
    var probing := f.failures + 1 >= o.threshold || f.probing;
    f.(failures := f.failures + 1, probing := probing,
       openUntil := if probing then now + o.openFor else f.openUntil,
       throttledUntil := if out.status == 429 then now + o.openFor else f.throttledUntil)
  }

  function Succeeded(o: Breaker, f: Fields, key: string, out: Outcome): Fields {
    f.(failures := 0, probing := false,
       latency := f.latency[key := if key in f.latency then Blend(o.alpha, f.latency[key], out.Ms()) else out.Ms()])
  }

  function Next(o: Breaker, f: Fields, e: Event): Fields {
    match e
    case Began(_) => f.(inflight := f.inflight + 1)
    case Released(_, first) => if first then f.(inflight := f.inflight - 1) else f
    case Busied(until) => if until > f.busyUntil then f.(busyUntil := until) else f
    case Recorded(key, out, now) =>
      var g := Pushed(f, out.Failed());
      if out.Failed() then Failed(o, g, out, now) else Succeeded(o, g, key, out)
  }

  function Run(o: Breaker, es: seq<Event>): Fields {
    if |es| == 0 then Fresh(o) else Next(o, Run(o, es[..|es| - 1]), es[|es| - 1])
  }

  // ------------------------------------------------- the counters are right

  ghost predicate RingAgrees(f: Fields, s: seq<bool>) {
    RingOf(f.window, f.windowPos, f.windowFull, s)
  }

  lemma PushAgrees(f: Fields, s: seq<bool>, x: bool)
    requires RingAgrees(f, s)
    ensures RingAgrees(Pushed(f, x), s + [x]) && |Pushed(f, x).window| == |f.window|
  {
    RingAdvances(f.window, f.windowPos, f.windowFull, s, x);
  }

  lemma NextRing(o: Breaker, f: Fields, e: Event)
    ensures var g := if e.Recorded? then Pushed(f, e.out.Failed()) else f; Next(o, f, e).window == g.window
    ensures var g := if e.Recorded? then Pushed(f, e.out.Failed()) else f; Next(o, f, e).windowPos == g.windowPos
    ensures var g := if e.Recorded? then Pushed(f, e.out.Failed()) else f; Next(o, f, e).windowFull == g.windowFull
  {
  }

  lemma RingNext(o: Breaker, f: Fields, g: Fields, e: Event, s: seq<bool>)
    requires RingAgrees(f, s) && g == Next(o, f, e)
    ensures RingAgrees(g, if e.Recorded? then s + [e.out.Failed()] else s) && |g.window| == |f.window|
  {
    NextRing(o, f, e);
    if e.Recorded? {
      PushAgrees(f, s, e.out.Failed());
    }
  }

  /** The ring holds the last outcomes of every history. */
  lemma {:induction false} RingHolds(o: Breaker, es: seq<Event>)
    requires o.window > 0
    ensures RingAgrees(Run(o, es), Outcomes(es)) && |Run(o, es).window| == o.window
  {
    if |es| > 0 {
      var front, e := es[..|es| - 1], es[|es| - 1];
      RingHolds(o, front);
      RingNext(o, Run(o, front), Run(o, es), e, Outcomes(front));
    }
  }

  /** A run of at least threshold failures is being probed, and the breaker was
      last opened by the latest failure of one. */
  lemma {:induction false} BreakerHolds(o: Breaker, es: seq<Event>)
    ensures var f := Run(o, es);
            && f.failures == Trailing(es)
            && (f.probing <==> Trailing(es) > 0 && Trailing(es) >= o.threshold)
            && f.openUntil == OpenUntil(o, es)
  {
    if |es| > 0 {
      BreakerHolds(o, es[..|es| - 1]);
    }
  }

  lemma ThrottleStep(o: Breaker, es: seq<Event>, was: int, until: int)
    requires |es| > 0 && IsThrottledUntil(o, es[..|es| - 1], was)
    requires until == if ThrottlesAt(es, |es| - 1) then es[|es| - 1].now + o.openFor else was
    ensures IsThrottledUntil(o, es, until)
  {
    var front := es[..|es| - 1];
    forall k: nat | k < |front|
      ensures ThrottlesAt(es, k) == ThrottlesAt(front, k)
    {
    }
    if !ThrottlesAt(es, |es| - 1) {
      forall k: nat
        ensures ThrottlesAt(es, k) == ThrottlesAt(front, k)
      {
      }
    }
  }

  lemma BusyStep(es: seq<Event>, was: int, until: int)
    requires |es| > 0 && IsBusyUntil(es[..|es| - 1], was)
    requires until == if BusyAt(es, |es| - 1) && es[|es| - 1].until > was then es[|es| - 1].until else was
    ensures IsBusyUntil(es, until)
  {
    var front := es[..|es| - 1];
    forall k: nat | k < |front|
      ensures BusyAt(es, k) == BusyAt(front, k) && es[k] == front[k]
    {
    }
    if until > 0 && until == was {
      var k: nat :| BusyAt(front, k) && front[k].until == was;
      assert BusyAt(es, k);
    } else if until > 0 {
      assert BusyAt(es, |es| - 1);
    }
  }

  /** An upstream is throttled until OpenFor after its last 429, and busy until the
      latest instant any busy answer asked for. */
  lemma {:induction false} DeadlinesHold(o: Breaker, es: seq<Event>)
    ensures IsThrottledUntil(o, es, Run(o, es).throttledUntil) && IsBusyUntil(es, Run(o, es).busyUntil)
  {
    if |es| > 0 {
      var f := Run(o, es[..|es| - 1]);
      DeadlinesHold(o, es[..|es| - 1]);
      NextDeadlines(o, f, es[|es| - 1]);
      ThrottleStep(o, es, f.throttledUntil, Run(o, es).throttledUntil);
      BusyStep(es, f.busyUntil, Run(o, es).busyUntil);
    }
  }

  lemma NextDeadlines(o: Breaker, f: Fields, e: Event)
    ensures Next(o, f, e).throttledUntil == if e.Recorded? && e.out.status == 429 then e.now + o.openFor else f.throttledUntil
    ensures Next(o, f, e).busyUntil == if e.Busied? && e.until > f.busyUntil then e.until else f.busyUntil
  {
  }

  /** Each key with a success has its samples' weighted average. */
  lemma {:induction false} LatencyHolds(o: Breaker, es: seq<Event>, key: string)
    ensures key in Run(o, es).latency <==> Samples(es, key) != []
    ensures key in Run(o, es).latency ==> Run(o, es).latency[key] == Ewma(o.alpha, Samples(es, key))
  {
    if |es| > 0 {
      var front := es[..|es| - 1];
      LatencyHolds(o, front, key);
      var s := Samples(es, key);
      if s != Samples(front, key) {
        assert s[..|s| - 1] == Samples(front, key);
        if |s| > 1 { BlendWeighs(o.alpha, Ewma(o.alpha, s[..|s| - 1]), s[|s| - 1]); }
      }
    }
  }

  lemma NextInflight(o: Breaker, f: Fields, e: Event)
    ensures Next(o, f, e).inflight == f.inflight + if e.Began? then 1 else if e.Released? && e.first then -1 else 0
  {
  }

  /** The requests in flight are those begun and not released, however often a
      release is called. */
  lemma {:induction false} FlightsHold(o: Breaker, es: seq<Event>)
    requires Consistent(es)
    ensures Run(o, es).inflight == |Unreleased(es)|
    ensures forall t :: t in Unreleased(es) ==> t < Begins(es)
  {
    if |es| > 0 {
      FlightsHold(o, es[..|es| - 1]);
      NextInflight(o, Run(o, es[..|es| - 1]), es[|es| - 1]);
    }
  }

  lemma RunExtends(o: Breaker, es: seq<Event>, e: Event)
    ensures Run(o, es + [e]) == Next(o, Run(o, es), e)
    ensures Consistent(es + [e]) <==> Consistent(es) && Fits(es, e)
    ensures e.Began? ==> Begins(es + [e]) == Begins(es) + 1 && Unreleased(es + [e]) == Unreleased(es) + {e.ticket}
    ensures e.Released? ==> Begins(es + [e]) == Begins(es) && Unreleased(es + [e]) == Unreleased(es) - {e.ticket}
  {
    assert (es + [e])[..|es + [e]| - 1] == es;
  }

  /** What the selector sees of an upstream. */
  datatype Snapshot = Snapshot(
    latencyMS: map<string, real>,
    errorRate: real,
    inflight: int,
    breakerOpen: bool,
    throttled: bool,
    busy: bool)

  class Stats {
    const opts: Breaker
    var latency: map<string, real>
    const window: array<bool>
    var windowPos: nat
    var windowFull: bool
    var inflight: int
    var failures: nat
    var probing: bool
    var openUntil: int
    var throttledUntil: int
    var busyUntil: int
    ghost var history: seq<Event>

    ghost function Value(): Fields
      reads this, window
    {
      Fields(latency, window[..], windowPos, windowFull, inflight, failures, probing, openUntil, throttledUntil, busyUntil)
    }

    ghost predicate Valid()
      reads this, window
    {
      opts.window > 0 && Value() == Run(opts, history) && Consistent(history)
    }

    constructor (o: Breaker)
      requires Defaulted(o).window > 0
      ensures Valid() && fresh(window) && history == []
      ensures opts == if o.threshold == 0 then Breaker(5, 10_000_000_000, 50, 0.2) else o
    {
      opts := Defaulted(o);
      latency, windowPos, windowFull, inflight, failures, probing := map[], 0, false, 0, 0, false;
      openUntil, throttledUntil, busyUntil := 0, 0, 0;
      window := new bool[Defaulted(o).window](i => false);
      history := [];
    }

    /** A request in flight. */
    method Begin() returns (r: Release)
      requires Valid()
      modifies this
      ensures Valid() && history == old(history) + [Began(r.ticket)]
      ensures fresh(r) && r.of == this && r.Bound() && !r.done && r.ticket !in Unreleased(old(history))
    {
      FlightsHold(opts, history);
      RunExtends(opts, history, Began(Begins(history)));
      r := new Release(this, Begins(history));
      inflight := inflight + 1;
      history := history + [Began(r.ticket)];
    }

    method Record(key: string, out: Outcome, now: int)
      requires Valid()
      modifies this, window
      ensures Valid() && history == old(history) + [Recorded(key, out, now)]
    {
      RingHolds(opts, history);
      RunExtends(opts, history, Recorded(key, out, now));
      history := history + [Recorded(key, out, now)];
      Push(out.Failed());
      if out.Failed() {
        CountFailure(out, now);
        return;
      }
      CountSuccess(key, out);
    }

    method Push(failed: bool)
      requires windowPos < window.Length
      modifies `windowPos, `windowFull, window
      ensures Value() == Pushed(old(Value()), failed)
    {
      window[windowPos] := failed;
      assert window[..] == old(window[..])[old(windowPos) := failed];
      windowPos := (windowPos + 1) % window.Length;
      if windowPos == 0 {
        windowFull := true;
      }
    }

    method CountFailure(out: Outcome, now: int)
      modifies `failures, `probing, `openUntil, `throttledUntil
      ensures Value() == Failed(opts, old(Value()), out, now)
    {
      failures := failures + 1;
      if failures >= opts.threshold || probing {
        openUntil := now + opts.openFor;
        probing := true;
      }
      if out.status == 429 {
        throttledUntil := now + opts.openFor;
      }
    }

    method CountSuccess(key: string, out: Outcome)
      modifies `failures, `probing, `latency
      ensures Value() == Succeeded(opts, old(Value()), key, out)
    {
      failures, probing := 0, false;
      var ms := out.Ms();
      if key in latency {
        latency := latency[key := Blend(opts.alpha, latency[key], ms)];
      } else {
        latency := latency[key := ms];
      }
    }

    /** Its slots for heavy requests are full for d: not a failure. */
    method Busy(d: int, now: int)
      requires Valid()
      modifies this
      ensures Valid() && history == old(history) + [Busied(now + d)]
    {
      RunExtends(opts, history, Busied(now + d));
      history := history + [Busied(now + d)];
      if now + d > busyUntil {
        busyUntil := now + d;
      }
    }

    /** The stats, each an answer about the whole history. */
    method Take(now: int) returns (st: Snapshot)
      requires Valid()
      ensures st.errorRate == ErrorRate(Outcomes(history), opts.window)
      ensures st.inflight == |Unreleased(history)|
      ensures st.breakerOpen <==> now < OpenUntil(opts, history)
      ensures exists until :: IsThrottledUntil(opts, history, until) && (st.throttled <==> now < until)
      ensures now >= 0 ==> (st.busy <==> exists k: nat :: BusyAt(history, k) && now < history[k].until)
      ensures st.latencyMS == Run(opts, history).latency
    {
      RingHolds(opts, history);
      BreakerHolds(opts, history);
      DeadlinesHold(opts, history);
      FlightsHold(opts, history);
      var rate := Rate(Outcomes(history));
      st := Snapshot(latency, rate, inflight, now < openUntil, now < throttledUntil, now < busyUntil);
      assert IsThrottledUntil(opts, history, throttledUntil);
    }

    method Rate(ghost s: seq<bool>) returns (rate: real)
      requires RingOf(window[..], windowPos, windowFull, s)
      ensures rate == ErrorRate(s, window.Length)
    {
      var n := if windowFull then window.Length else windowPos;
      var fails := 0;
      for i := 0 to n
        invariant fails == Failures(window[..i])
      {
        assert window[..i + 1][..i] == window[..i];
        if window[i] {
          fails := fails + 1;
        }
      }
      RingCounts(window[..], windowPos, windowFull, s);
      assert window[..][..n] == window[..n];
      rate := if n > 0 then fails as real / n as real else 0.0;
    }
  }

  /** The func a Begin returns: it releases its request once, however often it
      is called. */
  class Release {
    const of: Stats
    ghost const ticket: nat
    var done: bool

    ghost predicate Bound()
      reads this, of
    {
      (done <==> ticket !in Unreleased(of.history)) && ticket < Begins(of.history)
    }

    constructor (of: Stats, ghost ticket: nat)
      ensures this.of == of && this.ticket == ticket && !done
    {
      this.of, this.ticket, done := of, ticket, false;
    }

    method Call()
      requires of.Valid() && Bound()
      modifies this, of
      ensures of.Valid() && Bound() && done && of.history == old(of.history) + [Released(ticket, !old(done))]
      ensures of.inflight == old(of.inflight) - if old(done) then 0 else 1
    {
      RunExtends(of.opts, of.history, Released(ticket, !done));
      of.history := of.history + [Released(ticket, !done)];
      if !done {
        done := true;
        of.inflight := of.inflight - 1;
      }
    }
  }

  /** Calling one request's release, or beginning another, leaves the rest bound. */
  lemma ReleasesAreSeparate(es: seq<Event>, e: Event, other: nat)
    requires (e.Began? || e.Released?) ==> e.ticket != other
    ensures other in Unreleased(es + [e]) <==> other in Unreleased(es)
  {
    assert (es + [e])[..|es + [e]| - 1] == es;
  }

  /** What is shown of a key's latency is within the range of its samples. */
  lemma LatencyStaysBetween(o: Breaker, es: seq<Event>, key: string, lo: real, hi: real)
    requires 0.0 <= o.alpha <= 1.0 && key in Run(o, es).latency
    requires forall i :: 0 <= i < |Samples(es, key)| ==> lo <= Samples(es, key)[i] <= hi
    ensures lo <= Run(o, es).latency[key] <= hi
  {
    LatencyHolds(o, es, key);
    EwmaStaysBetween(o.alpha, Samples(es, key), lo, hi);
  }
}
