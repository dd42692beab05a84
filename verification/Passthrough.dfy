/** The pass-through server's lifecycle (internal/adapters/passthrough/
    passthrough.go) as a transition system: accept loops, splices and Shutdown
    are program counters over the shared fields, and every event is one atomic
    piece of code. Runs are arbitrary interleavings. */
module Passthrough {

  /** An accept loop: not spawned, spawned, blocked in Accept, holding a new
      connection before wg.Add, and past accepting.Done. */
  datatype LoopPc = Unspawned | Spawned | Accepting | Holding(conn: nat) | Exited

  /** A splice, from wg.Add to wg.Done. */
  datatype SplicePc =
    | Started      // before reading the target
    | Dialing      // in DialContext
    | Dialed       // before track(add)
    | Tracked      // in conns, before active.Add(1)
    | Copying      // both copies running
    | Copied       // before track(remove)
    | Untracked    // out of conns, before active.Add(-1)
    | ClosingUp    // before the deferred up.Close
    | ClosingDown  // before the deferred c.Close
    | Finished     // past wg.Done

  datatype ServePc = NotServing | Serving | ServeClosing | ServeDone

  datatype ShutdownPc =
    | NotCalled
    | Locked       // closed is set and the listeners closed: in accepting.Wait
    | Draining     // in wg.Wait, the window still open
    | CutDone      // cut is set and the open pairs closed
    | DialsCut     // cutDials called: in wg.Wait
    | Returned

  datatype Conn = Down(id: nat) | Up(id: nat)

  datatype Server = Server(
    loops: seq<LoopPc>,
    splices: map<nat, SplicePc>,
    serve: ServePc,
    shutdown: ShutdownPc,
    accepting: int,         // the accept loops' wait group
    wg: int,                // the splices' wait group
    closed: bool,
    cut: bool,
    ncut: int,
    conns: set<Conn>,
    active: int,
    shut: set<Conn>,        // connections Close was called on
    taken: set<nat>,        // connections handed out by Accept
    dialed: set<nat>,       // splices whose dial succeeded
    openAtCut: set<nat>,    // pairs in conns when the cut ran
    lateAtCut: set<nat>)    // pairs tracked after it

  function Init(listeners: nat): Server {
    Server(seq(listeners, _ => Unspawned), map[], NotServing, NotCalled, 0, 0, false, false, 0, {}, 0, {}, {}, {}, {}, {})
  }

  datatype Event =
    | ServeEnter | ServeLeave | ServeReturn
    | LoopStart(l: nat) | Accept(l: nat, conn: nat) | AddSplice(l: nat) | LoopEnd(l: nat)
    | NoTarget(i: nat) | DialStart(i: nat) | DialOk(i: nat) | DialFail(i: nat)
    | Track(i: nat) | CountUp(i: nat) | CopiesEnd(i: nat) | Untrack(i: nat) | CountDown(i: nat)
    | CloseUp(i: nat) | CloseDown(i: nat)
    | ShutdownLock | AcceptingWaited | Drained | WindowOver | CutDials | CutWaited

  predicate LoopAt(s: Server, l: nat, pc: LoopPc) {
    l < |s.loops| && s.loops[l] == pc
  }

  predicate SpliceAt(s: Server, i: nat, pc: SplicePc) {
    i in s.splices && s.splices[i] == pc
  }

  /** Whether the event's code may run next. Nothing stops Accept from handing
      out a connection after its listener was closed, nor a dial from succeeding
      after cutDials: both can race. */
  predicate Can(s: Server, e: Event) {
    match e
    case ServeEnter => s.serve == NotServing
    case ServeLeave => s.serve == Serving
    case ServeReturn => s.serve == ServeClosing && s.accepting == 0
    case LoopStart(l) => LoopAt(s, l, Spawned)
    case Accept(l, conn) => LoopAt(s, l, Accepting) && conn !in s.taken
    case AddSplice(l) => l < |s.loops| && s.loops[l].Holding?
    case LoopEnd(l) => LoopAt(s, l, Accepting)
    case NoTarget(i) => SpliceAt(s, i, Started)
    case DialStart(i) => SpliceAt(s, i, Started)
    case DialOk(i) => SpliceAt(s, i, Dialing)
    case DialFail(i) => SpliceAt(s, i, Dialing)
    case Track(i) => SpliceAt(s, i, Dialed)
    case CountUp(i) => SpliceAt(s, i, Tracked)
    case CopiesEnd(i) => SpliceAt(s, i, Copying)
    case Untrack(i) => SpliceAt(s, i, Copied)
    case CountDown(i) => SpliceAt(s, i, Untracked)
    case CloseUp(i) => SpliceAt(s, i, ClosingUp)
    case CloseDown(i) => SpliceAt(s, i, ClosingDown)
    case ShutdownLock => s.shutdown == NotCalled
    case AcceptingWaited => s.shutdown == Locked && s.accepting == 0
    case Drained => s.shutdown == Draining && s.wg == 0
    case WindowOver => s.shutdown == Draining
    case CutDials => s.shutdown == CutDone
    case CutWaited => s.shutdown == DialsCut && s.wg == 0
  }

  function At(s: Server, i: nat, pc: SplicePc): Server {
    s.(splices := s.splices[i := pc])
  }

  function Do(s: Server, e: Event): Server
    requires Can(s, e)
  {
    match e
    case ServeEnter =>
      if s.closed then s.(serve := ServeDone)
      else s.(serve := Serving, accepting := s.accepting + |s.loops|, loops := seq(|s.loops|, _ => Spawned))
    case ServeLeave => s.(serve := ServeClosing)
    case ServeReturn => s.(serve := ServeDone)
    case LoopStart(l) => s.(loops := s.loops[l := Accepting])
    case Accept(l, conn) => s.(loops := s.loops[l := Holding(conn)], taken := s.taken + {conn})
    case AddSplice(l) =>
      At(s, s.loops[l].conn, Started).(loops := s.loops[l := Accepting], wg := s.wg + 1)
    case LoopEnd(l) => s.(loops := s.loops[l := Exited], accepting := s.accepting - 1)
    case NoTarget(i) => At(s, i, ClosingDown)
    case DialStart(i) => At(s, i, Dialing)
    case DialOk(i) => At(s, i, Dialed).(dialed := s.dialed + {i})
    case DialFail(i) => At(s, i, ClosingDown)
    case Track(i) =>
      var t := At(s, i, Tracked).(conns := s.conns + {Down(i), Up(i)});
      if s.cut then t.(shut := s.shut + {Down(i), Up(i)}, ncut := s.ncut + 1, lateAtCut := s.lateAtCut + {i}) else t
    case CountUp(i) => At(s, i, Copying).(active := s.active + 1)
    case CopiesEnd(i) => At(s, i, Copied)
    case Untrack(i) => At(s, i, Untracked).(conns := s.conns - {Down(i), Up(i)})
    case CountDown(i) => At(s, i, ClosingUp).(active := s.active - 1)
    case CloseUp(i) => At(s, i, ClosingDown).(shut := s.shut + {Up(i)})
    case CloseDown(i) => At(s, i, Finished).(shut := s.shut + {Down(i)}, wg := s.wg - 1)
    case ShutdownLock => s.(shutdown := Locked, closed := true)
    case AcceptingWaited => s.(shutdown := Draining)
    case Drained => s.(shutdown := Returned)
    case WindowOver =>
      s.(shutdown := CutDone, cut := true, ncut := s.ncut + |s.conns| / 2, shut := s.shut + s.conns, openAtCut := OpenPairs(s))
    case CutDials => s.(shutdown := DialsCut)
    case CutWaited => s.(shutdown := Returned)
  }

  ghost predicate Possible(s: Server, es: seq<Event>)
    decreases |es|, 0
  {
    |es| > 0 ==> Possible(s, es[..|es| - 1]) && Can(Run(s, es[..|es| - 1]), es[|es| - 1])
  }

  ghost function Run(s: Server, es: seq<Event>): Server
    requires Possible(s, es)
    decreases |es|, 1
  {
    if |es| == 0 then s else Do(Run(s, es[..|es| - 1]), es[|es| - 1])
  }

  // ------------------------------------------------------------ the invariant

  /** Between track(add) and track(remove). */
  predicate IsOpen(pc: SplicePc) {
    pc == Tracked || pc == Copying || pc == Copied
  }

  predicate IsCounted(pc: SplicePc) {
    pc == Copying || pc == Copied || pc == Untracked
  }

  function OpenIn(m: map<nat, SplicePc>): set<nat> {
    set i | i in m && IsOpen(m[i])
  }

  function UnfinishedIn(m: map<nat, SplicePc>): set<nat> {
    set i | i in m && m[i] != Finished
  }

  function CountedIn(m: map<nat, SplicePc>): set<nat> {
    set i | i in m && IsCounted(m[i])
  }

  function OpenPairs(s: Server): set<nat> {
    OpenIn(s.splices)
  }

  predicate Running(pc: LoopPc) {
    pc == Spawned || pc == Accepting || pc.Holding?
  }

  function RunningIn(loops: seq<LoopPc>): set<nat> {
    set l: nat | l < |loops| && Running(loops[l])
  }

  /** The wait groups and the gauge count what they stand for. */
  predicate Counts(s: Server) {
    && s.accepting == |RunningIn(s.loops)|
    && s.wg == |UnfinishedIn(s.splices)|
    && s.active == |CountedIn(s.splices)|
  }

  predicate AfterAccepting(s: Server) {
    s.shutdown != NotCalled && s.shutdown != Locked
  }

  predicate AfterCut(s: Server) {
    s.shutdown == CutDone || s.shutdown == DialsCut || (s.shutdown == Returned && s.cut)
  }

  /** A connection in hand is not yet anyone's splice. */
  predicate Held(s: Server) {
    && s.splices.Keys <= s.taken
    && (forall l :: 0 <= l < |s.loops| && s.loops[l].Holding? ==> s.loops[l].conn in s.taken && s.loops[l].conn !in s.splices)
    && (forall l, m :: 0 <= l < m < |s.loops| && s.loops[l].Holding? && s.loops[m].Holding? ==> s.loops[l].conn != s.loops[m].conn)
  }

  /** No accept loop survives accepting.Wait, and none starts again. */
  predicate Loops(s: Server) {
    && (s.serve == NotServing ==> RunningIn(s.loops) == {})
    && (s.closed <==> s.shutdown != NotCalled)
    && (AfterAccepting(s) ==> RunningIn(s.loops) == {})
    && (s.shutdown == Returned ==> UnfinishedIn(s.splices) == {})
  }

  /** Both ends of a splice are accounted for. */
  predicate EndsOf(pc: SplicePc, dialed: bool, downShut: bool, upShut: bool) {
    && (pc == Started || pc == Dialing ==> !dialed)
    && (pc == Dialed || IsOpen(pc) || pc == Untracked || pc == ClosingUp ==> dialed)
    && ((pc == ClosingDown || pc == Finished) && dialed ==> upShut)
    && (pc == Finished ==> downShut)
  }

  predicate Ends(s: Server) {
    && s.dialed <= s.splices.Keys
    && (forall i :: i in s.splices ==> EndsOf(s.splices[i], i in s.dialed, Down(i) in s.shut, Up(i) in s.shut))
  }

  function Pairs(ids: set<nat>): set<Conn> {
    (set i | i in ids :: Down(i)) + (set i | i in ids :: Up(i))
  }

  predicate BeforeTrack(pc: SplicePc) {
    pc == Started || pc == Dialing || pc == Dialed
  }

  /** The cut count is the pairs open at the cut plus those tracked after it. */
  predicate CutLedger(s: Server) {
    && s.conns == Pairs(OpenPairs(s))
    && (s.cut <==> AfterCut(s))
    && s.ncut == |s.openAtCut| + |s.lateAtCut|
    && s.openAtCut !! s.lateAtCut
    && (!s.cut ==> s.openAtCut == {} && s.lateAtCut == {})
    && (forall i :: i in s.openAtCut + s.lateAtCut ==> i in s.splices && !BeforeTrack(s.splices[i]))
  }

  /** Past the cut no tracked pair is left open. */
  predicate CutShuts(s: Server) {
    s.cut ==> forall i :: i in OpenPairs(s) ==> Down(i) in s.shut && Up(i) in s.shut && i in s.openAtCut + s.lateAtCut
  }

  predicate Inv(s: Server) {
    Counts(s) && Held(s) && Loops(s) && Ends(s) && CutLedger(s) && CutShuts(s)
  }

  // ------------------------------------------------------------------ proofs

  lemma PairsCount(ids: set<nat>)
    ensures |Pairs(ids)| == 2 * |ids|
  {
    if ids == {} {
      assert Pairs(ids) == {};
    } else {
      var i :| i in ids;
      PairsCount(ids - {i});
      assert Pairs(ids) == Pairs(ids - {i}) + {Down(i)} + {Up(i)};
      assert Down(i) !in Pairs(ids - {i}) && Up(i) !in Pairs(ids - {i}) + {Down(i)};
      assert |ids - {i}| == |ids| - 1;
    }
  }

  lemma PairsAdd(ids: set<nat>, i: nat)
    ensures Pairs(ids + {i}) == Pairs(ids) + {Down(i), Up(i)}
    ensures Pairs(ids - {i}) == Pairs(ids) - {Down(i), Up(i)}
  {
  }

  lemma InitHolds(listeners: nat)
    ensures Inv(Init(listeners))
  {
    var s := Init(listeners);
    assert RunningIn(s.loops) == {} && UnfinishedIn(s.splices) == {} && CountedIn(s.splices) == {} && OpenPairs(s) == {};
  }

  // How a splice's move changes the sets the counters count.

  lemma UnfinishedMoves(m: map<nat, SplicePc>, i: nat, pc: SplicePc)
    ensures UnfinishedIn(m[i := pc]) == if pc == Finished then UnfinishedIn(m) - {i} else UnfinishedIn(m) + {i}
    ensures |UnfinishedIn(m[i := pc])| == Moved(UnfinishedIn(m), i, pc != Finished)
  {
    MovedCount(UnfinishedIn(m), i);
  }

  lemma CountedMoves(m: map<nat, SplicePc>, i: nat, pc: SplicePc)
    ensures CountedIn(m[i := pc]) == if IsCounted(pc) then CountedIn(m) + {i} else CountedIn(m) - {i}
    ensures |CountedIn(m[i := pc])| == Moved(CountedIn(m), i, IsCounted(pc))
  {
    MovedCount(CountedIn(m), i);
  }

  lemma OpenMoves(m: map<nat, SplicePc>, i: nat, pc: SplicePc)
    ensures OpenIn(m[i := pc]) == if IsOpen(pc) then OpenIn(m) + {i} else OpenIn(m) - {i}
  {
  }

  /** The size of a set once i is in it, or out of it. */
  function Moved(ids: set<nat>, i: nat, inside: bool): int {
    |ids| + (if inside && i !in ids then 1 else if !inside && i in ids then -1 else 0)
  }

  lemma MovedCount(ids: set<nat>, i: nat)
    ensures |ids + {i}| == Moved(ids, i, true)
    ensures |ids - {i}| == Moved(ids, i, false)
  {
    if i in ids {
      assert ids + {i} == ids;
    } else {
      assert ids - {i} == ids;
    }
  }

  lemma LoopMoves(loops: seq<LoopPc>, l: nat, pc: LoopPc)
    requires l < |loops|
    ensures RunningIn(loops[l := pc]) == if Running(pc) then RunningIn(loops) + {l} else RunningIn(loops) - {l}
    ensures l in RunningIn(loops) <==> Running(loops[l])
    ensures |RunningIn(loops[l := pc])| == Moved(RunningIn(loops), l, Running(pc))
  {
    MovedCount(RunningIn(loops), l);
  }

  /** The events of one splice. */
  predicate OnSplice(e: Event) {
    e.NoTarget? || e.DialStart? || e.DialOk? || e.DialFail? || e.Track? || e.CountUp? || e.CopiesEnd? || e.Untrack?
    || e.CountDown? || e.CloseUp? || e.CloseDown?
  }

  /** Where such an event leaves its splice. */
  function Goes(e: Event): SplicePc
    requires OnSplice(e)
  {
    match e
    case NoTarget(_) => ClosingDown
    case DialStart(_) => Dialing
    case DialOk(_) => Dialed
    case DialFail(_) => ClosingDown
    case Track(_) => Tracked
    case CountUp(_) => Copying
    case CopiesEnd(_) => Copied
    case Untrack(_) => Untracked
    case CountDown(_) => ClosingUp
    case CloseUp(_) => ClosingDown
    case CloseDown(_) => Finished
  }

  /** What such an event leaves alone, and what it does to its own splice. */
  lemma SpliceFacts(s: Server, e: Event)
    requires Can(s, e) && OnSplice(e)
    ensures var s' := Do(s, e);
            && s'.splices == s.splices[e.i := Goes(e)] && s'.loops == s.loops && s'.accepting == s.accepting
            && s'.serve == s.serve && s'.shutdown == s.shutdown && s'.closed == s.closed && s'.taken == s.taken
            && s'.wg == s.wg - (if e.CloseDown? then 1 else 0)
            && s'.active == s.active + (if e.CountUp? then 1 else if e.CountDown? then -1 else 0)
            && s'.dialed == (if e.DialOk? then s.dialed + {e.i} else s.dialed) && s.shut <= s'.shut
            && (!e.Track? && !e.Untrack? ==>
                  && s'.conns == s.conns && s'.cut == s.cut && s'.ncut == s.ncut
                  && s'.openAtCut == s.openAtCut && s'.lateAtCut == s.lateAtCut)
    ensures EndsOf(s.splices[e.i], e.i in s.dialed, Down(e.i) in s.shut, Up(e.i) in s.shut) ==>
              var s' := Do(s, e);
              EndsOf(Goes(e), e.i in s'.dialed, Down(e.i) in s'.shut, Up(e.i) in s'.shut)
    ensures IsOpen(Goes(e)) == IsOpen(s.splices[e.i]) || e.Track? || e.Untrack?
    ensures BeforeTrack(Goes(e)) ==> BeforeTrack(s.splices[e.i])
    ensures s.splices[e.i] != Finished && (Goes(e) == Finished <==> e.CloseDown?)
    ensures IsCounted(Goes(e)) == IsCounted(s.splices[e.i]) || e.CountUp? || e.CountDown?
    ensures e.CountUp? ==> !IsCounted(s.splices[e.i]) && IsCounted(Goes(e))
    ensures e.CountDown? ==> IsCounted(s.splices[e.i]) && !IsCounted(Goes(e))
  {
  }

  lemma SpliceCounts(s: Server, s': Server, e: Event)
    requires Inv(s) && Can(s, e) && OnSplice(e) && s' == Do(s, e)
    ensures Counts(s')
  {
    SpliceFacts(s, e);
    UnfinishedMoves(s.splices, e.i, Goes(e));
    CountedMoves(s.splices, e.i, Goes(e));
  }

  lemma SpliceLoops(s: Server, s': Server, e: Event)
    requires Inv(s) && Can(s, e) && OnSplice(e) && s' == Do(s, e)
    ensures Held(s') && Loops(s')
  {
    SpliceFacts(s, e);
    assert e.i in UnfinishedIn(s.splices);
  }

  lemma SpliceEnds(s: Server, s': Server, e: Event)
    requires Inv(s) && Can(s, e) && OnSplice(e) && s' == Do(s, e)
    ensures Ends(s')
  {
    SpliceFacts(s, e);
    OthersKeepEnds(s, s', e.i, Goes(e));
  }

  lemma OthersKeepEnds(s: Server, s': Server, i: nat, pc: SplicePc)
    requires Ends(s) && i in s.splices && s'.splices == s.splices[i := pc]
    requires s.dialed <= s'.dialed <= s.dialed + {i} && s.shut <= s'.shut
    requires EndsOf(pc, i in s'.dialed, Down(i) in s'.shut, Up(i) in s'.shut)
    ensures Ends(s')
  {
  }

  lemma SpliceCut(s: Server, s': Server, e: Event)
    requires Inv(s) && Can(s, e) && OnSplice(e) && s' == Do(s, e)
    ensures CutLedger(s') && CutShuts(s')
  {
    if e.Track? {
      TrackCut(s, e.i);
    } else if e.Untrack? {
      UntrackCut(s, e.i);
    } else {
      SpliceFacts(s, e);
      QuietCut(s, s', e.i, Goes(e));
    }
  }

  /** A splice moves without entering or leaving conns. */
  lemma QuietCut(s: Server, s': Server, i: nat, pc: SplicePc)
    requires Inv(s) && i in s.splices && (IsOpen(pc) <==> IsOpen(s.splices[i])) && (BeforeTrack(pc) ==> BeforeTrack(s.splices[i]))
    requires s'.splices == s.splices[i := pc] && s.shut <= s'.shut
    requires s'.conns == s.conns && s'.cut == s.cut && s'.ncut == s.ncut && s'.shutdown == s.shutdown
    requires s'.openAtCut == s.openAtCut && s'.lateAtCut == s.lateAtCut
    ensures CutLedger(s') && CutShuts(s')
  {
    QuietPairs(s, s', i, pc);
  }

  lemma QuietPairs(s: Server, s': Server, i: nat, pc: SplicePc)
    requires i in s.splices && (IsOpen(pc) <==> IsOpen(s.splices[i])) && s'.splices == s.splices[i := pc]
    ensures OpenPairs(s') == OpenPairs(s)
  {
    OpenMoves(s.splices, i, pc);
  }

  lemma TrackCut(s: Server, i: nat)
    requires Inv(s) && SpliceAt(s, i, Dialed)
    ensures CutLedger(Do(s, Track(i))) && CutShuts(Do(s, Track(i)))
  {
    OpenMoves(s.splices, i, Tracked);
    PairsAdd(OpenPairs(s), i);
    assert i !in s.openAtCut + s.lateAtCut;
    MovedCount(s.lateAtCut, i);
    TrackedLedger(s, Do(s, Track(i)), i);
  }

  lemma TrackedLedger(s: Server, s': Server, i: nat)
    requires CutLedger(s) && CutShuts(s) && SpliceAt(s, i, Dialed) && i !in s.openAtCut + s.lateAtCut
    requires s'.splices == s.splices[i := Tracked] && OpenPairs(s') == OpenPairs(s) + {i}
    requires s'.conns == Pairs(OpenPairs(s')) && s'.cut == s.cut && s'.shutdown == s.shutdown && s'.openAtCut == s.openAtCut
    requires if s.cut then s'.shut == s.shut + {Down(i), Up(i)} && s'.ncut == s.ncut + 1 && s'.lateAtCut == s.lateAtCut + {i}
             else s'.shut == s.shut && s'.ncut == s.ncut && s'.lateAtCut == s.lateAtCut
    requires |s.lateAtCut + {i}| == |s.lateAtCut| + 1
    ensures CutLedger(s') && CutShuts(s')
  {
  }

  lemma UntrackCut(s: Server, i: nat)
    requires Inv(s) && SpliceAt(s, i, Copied)
    ensures CutLedger(Do(s, Untrack(i))) && CutShuts(Do(s, Untrack(i)))
  {
    OpenMoves(s.splices, i, Untracked);
    PairsAdd(OpenPairs(s), i);
    assert OpenPairs(Do(s, Untrack(i))) == OpenPairs(s) - {i};
  }

  predicate OnLoop(e: Event) {
    e.LoopStart? || e.Accept? || e.LoopEnd?
  }

  lemma LoopCounts(s: Server, s': Server, e: Event)
    requires Inv(s) && Can(s, e) && OnLoop(e) && s' == Do(s, e)
    ensures Counts(s') && Loops(s')
  {
    var pc := match e case LoopStart(_) => Accepting case Accept(_, conn) => Holding(conn) case _ => Exited;
    assert s'.loops == s.loops[e.l := pc];
    LoopMoves(s.loops, e.l, pc);
    assert e.l in RunningIn(s.loops);
  }

  lemma LoopHeld(s: Server, s': Server, e: Event)
    requires Inv(s) && Can(s, e) && OnLoop(e) && s' == Do(s, e)
    ensures Held(s') && Loops(s')
  {
    LoopCounts(s, s', e);
  }

  /** What is told by the splices and the cut alone. */
  lemma SplicesAlone(s: Server, s': Server)
    requires Ends(s) && CutLedger(s) && CutShuts(s)
    requires s'.splices == s.splices && s'.dialed == s.dialed && s'.shut == s.shut && s'.conns == s.conns
    requires s'.shutdown == s.shutdown && s'.cut == s.cut && s'.ncut == s.ncut
    requires s'.openAtCut == s.openAtCut && s'.lateAtCut == s.lateAtCut
    ensures Ends(s') && CutLedger(s') && CutShuts(s')
  {
  }

  lemma LoopStep(s: Server, s': Server, e: Event)
    requires Inv(s) && Can(s, e) && OnLoop(e) && s' == Do(s, e)
    ensures Inv(s')
  {
    LoopCounts(s, s', e);
    LoopHeld(s, s', e);
    SplicesAlone(s, s');
  }

  /** wg.Add: only a running accept loop gets here, so not during the wait. */
  lemma AddSpliceCounts(s: Server, s': Server, l: nat)
    requires Inv(s) && Can(s, AddSplice(l)) && s' == Do(s, AddSplice(l))
    ensures Counts(s')
  {
    LoopMoves(s.loops, l, Accepting);
    AddSpliceEnters(s.splices, s.loops[l].conn);
  }

  /** A new splice is unfinished, and not yet counted as active. */
  lemma AddSpliceEnters(splices: map<nat, SplicePc>, i: nat)
    requires i !in splices
    ensures |UnfinishedIn(splices[i := Started])| == |UnfinishedIn(splices)| + 1
    ensures |CountedIn(splices[i := Started])| == |CountedIn(splices)|
  {
    UnfinishedMoves(splices, i, Started);
    CountedMoves(splices, i, Started);
  }

  lemma AddSpliceLoops(s: Server, s': Server, l: nat)
    requires Inv(s) && Can(s, AddSplice(l)) && s' == Do(s, AddSplice(l))
    ensures Loops(s')
  {
    LoopMoves(s.loops, l, Accepting);
    assert l in RunningIn(s.loops);
  }

  lemma AddSpliceHeld(s: Server, s': Server, l: nat)
    requires Inv(s) && Can(s, AddSplice(l)) && s' == Do(s, AddSplice(l))
    ensures Held(s') && Ends(s')
  {
  }

  lemma AddSpliceCut(s: Server, s': Server, l: nat)
    requires Inv(s) && Can(s, AddSplice(l)) && s' == Do(s, AddSplice(l))
    ensures CutLedger(s') && CutShuts(s')
  {
    OpenMoves(s.splices, s.loops[l].conn, Started);
    assert OpenPairs(s') == OpenPairs(s);
  }

  lemma AddSpliceStep(s: Server, s': Server, l: nat)
    requires Inv(s) && Can(s, AddSplice(l)) && s' == Do(s, AddSplice(l))
    ensures Inv(s')
  {
    AddSpliceCounts(s, s', l);
    AddSpliceLoops(s, s', l);
    AddSpliceHeld(s, s', l);
    AddSpliceCut(s, s', l);
  }

  function Range(n: nat): (r: set<nat>)
    ensures |r| == n && forall l: nat :: l in r <==> l < n
  {
    if n == 0 then {} else Range(n - 1) + {n - 1}
  }

  lemma AllSpawned(n: nat)
    ensures |RunningIn(seq(n, _ => Spawned))| == n
  {
    assert RunningIn(seq(n, _ => Spawned)) == Range(n);
  }

  lemma ServeStep(s: Server, e: Event)
    requires Inv(s) && Can(s, e) && (e.ServeEnter? || e.ServeLeave? || e.ServeReturn?)
    ensures Inv(Do(s, e))
  {
    AllSpawned(|s.loops|);
  }

  lemma ShutdownStep(s: Server, e: Event)
    requires Inv(s) && Can(s, e)
    requires e.ShutdownLock? || e.AcceptingWaited? || e.Drained? || e.CutDials? || e.CutWaited?
    ensures Inv(Do(s, e))
  {
  }

  lemma ClosingKeepsEnds(s: Server, s': Server)
    requires Ends(s) && s'.splices == s.splices && s'.dialed == s.dialed && s.shut <= s'.shut
    ensures Ends(s')
  {
  }

  lemma CutLedgerStep(s: Server, s': Server)
    requires CutLedger(s) && Can(s, WindowOver) && s' == Do(s, WindowOver)
    ensures CutLedger(s') && CutShuts(s')
  {
    PairsCount(OpenPairs(s));
    PairsHold(OpenPairs(s));
    assert |s.conns| / 2 == |OpenPairs(s)|;
    CutLedgerFacts(s, s');
  }

  lemma CutLedgerFacts(s: Server, s': Server)
    requires CutLedger(s) && !s.cut && s'.cut && s'.shutdown == CutDone
    requires s'.splices == s.splices && s'.conns == s.conns && s.conns <= s'.shut
    requires s'.openAtCut == OpenPairs(s) && s'.lateAtCut == s.lateAtCut && s'.ncut == s.ncut + |OpenPairs(s)|
    requires forall i :: i in OpenPairs(s) ==> Down(i) in s.conns && Up(i) in s.conns
    ensures CutLedger(s') && CutShuts(s')
  {
    assert OpenPairs(s') == OpenPairs(s);
  }

  lemma CutStep(s: Server, s': Server)
    requires Inv(s) && Can(s, WindowOver) && s' == Do(s, WindowOver)
    ensures Inv(s')
  {
    ClosingKeepsEnds(s, s');
    CutLedgerStep(s, s');
  }

  lemma PairsHold(ids: set<nat>)
    ensures forall i :: i in ids ==> Down(i) in Pairs(ids) && Up(i) in Pairs(ids)
  {
  }

  lemma {:induction false} InvHolds(listeners: nat, es: seq<Event>)
    requires Possible(Init(listeners), es)
    ensures Inv(Run(Init(listeners), es))
  {
    if |es| == 0 {
      InitHolds(listeners);
    } else {
      InvHolds(listeners, es[..|es| - 1]);
      InvStep(Run(Init(listeners), es[..|es| - 1]), es[|es| - 1]);
    }
  }

  lemma InvStep(s: Server, e: Event)
    requires Inv(s) && Can(s, e)
    ensures Inv(Do(s, e))
  {
    if OnSplice(e) {
      SpliceCounts(s, Do(s, e), e);
      SpliceLoops(s, Do(s, e), e);
      SpliceEnds(s, Do(s, e), e);
      SpliceCut(s, Do(s, e), e);
    } else if OnLoop(e) {
      LoopStep(s, Do(s, e), e);
    } else if e.AddSplice? {
      AddSpliceStep(s, Do(s, e), e.l);
    } else if e.ServeEnter? || e.ServeLeave? || e.ServeReturn? {
      ServeStep(s, e);
    } else if e.WindowOver? {
      CutStep(s, Do(s, e));
    } else {
      ShutdownStep(s, e);
    }
  }

  // ---------------------------------------------------------------- theorems

  /** In every interleaving, when Shutdown returns no accept loop and no splice
      is alive, every connection ever spliced is closed at both ends, nothing is
      counted active, and the cut count is the pairs open at the cut plus those
      tracked after it. */
  lemma ShutdownIsClean(listeners: nat, es: seq<Event>)
    requires Possible(Init(listeners), es) && Run(Init(listeners), es).shutdown == Returned
    ensures var s := Run(Init(listeners), es);
            && (forall l: nat :: l < |s.loops| ==> !Running(s.loops[l]))
            && (forall i :: i in s.splices ==> s.splices[i] == Finished && Down(i) in s.shut && (i in s.dialed ==> Up(i) in s.shut))
            && s.conns == {} && s.active == 0 && s.wg == 0
            && s.ncut == |s.openAtCut| + |s.lateAtCut| && s.openAtCut !! s.lateAtCut
            && (!s.cut ==> s.ncut == 0)
  {
    InvHolds(listeners, es);
    var s := Run(Init(listeners), es);
    AllFinished(s);
  }

  lemma AllFinished(s: Server)
    requires Inv(s) && s.shutdown == Returned
    ensures forall l: nat :: l < |s.loops| ==> !Running(s.loops[l])
    ensures forall i :: i in s.splices ==> s.splices[i] == Finished && Down(i) in s.shut && (i in s.dialed ==> Up(i) in s.shut)
    ensures s.conns == {} && s.active == 0 && s.wg == 0
  {
    forall l: nat | l < |s.loops|
      ensures !Running(s.loops[l])
    {
      assert l !in RunningIn(s.loops);
    }
    forall i | i in s.splices
      ensures s.splices[i] == Finished
    {
      assert i !in UnfinishedIn(s.splices);
    }
    assert OpenPairs(s) == {} && CountedIn(s.splices) == {};
  }

  /** No connection joins the wait group once the wait on it has begun, not even
      one accepted while Shutdown closed the listeners; nor does any later Serve
      start accepting. */
  lemma NoAddDuringWait(listeners: nat, es: seq<Event>, e: Event)
    requires Possible(Init(listeners), es) && AfterAccepting(Run(Init(listeners), es)) && Can(Run(Init(listeners), es), e)
    ensures !e.AddSplice? && !e.Accept?
    ensures Do(Run(Init(listeners), es), e).wg <= Run(Init(listeners), es).wg
    ensures Do(Run(Init(listeners), es), e).accepting == 0
  {
    InvHolds(listeners, es);
    NoLoopRuns(Run(Init(listeners), es));
  }

  lemma NoLoopRuns(s: Server)
    requires Inv(s) && AfterAccepting(s)
    ensures forall l: nat :: l < |s.loops| ==> !Running(s.loops[l])
    ensures s.accepting == 0
  {
    forall l: nat | l < |s.loops|
      ensures !Running(s.loops[l])
    {
      assert l !in RunningIn(s.loops);
    }
  }

  /** From the cut on, a tracked pair is closed at both ends, also one whose dial
      was still running when the cut ran: it cannot outlive Shutdown. */
  lemma NothingOutlivesTheCut(listeners: nat, es: seq<Event>, i: nat)
    requires Possible(Init(listeners), es)
    requires var s := Run(Init(listeners), es); s.cut && i in s.splices && IsOpen(s.splices[i])
    ensures var s := Run(Init(listeners), es);
            Down(i) in s.shut && Up(i) in s.shut && (i in s.openAtCut || i in s.lateAtCut)
  {
    InvHolds(listeners, es);
    assert i in OpenPairs(Run(Init(listeners), es));
  }

  /** The cut count moves only by the pairs open when the window ends and by one
      for every pair tracked after that. */
  lemma CutCountGrowth(listeners: nat, es: seq<Event>, e: Event)
    requires Possible(Init(listeners), es) && Can(Run(Init(listeners), es), e)
    ensures var s, s' := Run(Init(listeners), es), Do(Run(Init(listeners), es), e);
            s'.ncut == s.ncut + (if e.Track? && s.cut then 1 else if e.WindowOver? then |OpenPairs(s)| else 0)
  {
    InvHolds(listeners, es);
    PairsCount(OpenPairs(Run(Init(listeners), es)));
  }

  // ------------------------------------------------- the locked sections

  /** What Server.mu guards, in place: track and the cut, each proved to be its
      event of the transition system. */
  class Splices {
    var conns: set<Conn>
    var cut: bool
    var ncut: int
    var shut: set<Conn>

    constructor ()
      ensures Holds(Init(0))
    {
      conns, cut, ncut, shut := {}, false, 0, {};
    }

    ghost predicate Holds(s: Server)
      reads this
    {
      conns == s.conns && cut == s.cut && ncut == s.ncut && shut == s.shut
    }

    /** Records a spliced pair, or forgets it. A pair tracked after the cut is
        closed on the spot. */
    method TrackPair(i: nat, add: bool, ghost s: Server)
      requires Holds(s) && SpliceAt(s, i, if add then Dialed else Copied)
      modifies this
      ensures Holds(Do(s, if add then Track(i) else Untrack(i)))
    {
      if add {
        conns := conns + {Down(i), Up(i)};
        if cut {
          shut := shut + {Down(i), Up(i)};
          ncut := ncut + 1;
        }
      } else {
        conns := conns - {Down(i), Up(i)};
      }
    }

    /** The end of the drain window: every open pair is closed and counted. */
    method CutOpen(ghost s: Server)
      requires Holds(s) && Can(s, WindowOver)
      modifies this
      ensures Holds(Do(s, WindowOver))
    {
      cut := true;
      ncut := ncut + |conns| / 2;
      var rest := conns;
      while rest != {}
        invariant rest <= conns == s.conns && cut && ncut == s.ncut + |s.conns| / 2
        invariant shut == s.shut + (conns - rest)
      {
        var c :| c in rest;
        shut := shut + {c};
        rest := rest - {c};
      }
    }
  }
}
