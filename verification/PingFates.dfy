/** What becomes of each ping, from the list of events: issued by a round, and
    answered by a pong with its nonce, expired at the first check after its
    timeout, or forgotten with its round when its send found no route. What the
    links keep of it, a nonce and two counters, is proved to agree. */
module PingFates {
  import opened Requests
  import opened Paths
  import opened Mesh
  import opened MeshLaws

  // --------------------------------------------------------- pings and ends

  /** How many pings a run has issued. */
  function Issued(es: seq<Event>): nat {
    if |es| == 0 then 0 else Issued(es[..|es| - 1]) + if es[|es| - 1].CheckBegin? then |es[|es| - 1].order| else 0
  }

  /** The round that begins at place b pings path i. */
  predicate Pinged(es: seq<Event>, i: nat, b: nat) {
    b < |es| && es[b].CheckBegin? && i in es[b].order
  }

  /** The nonce of that ping: nonces are issued in order from 1. */
  function NonceOf(es: seq<Event>, i: nat, b: nat): nat
    requires b < |es| && es[b].CheckBegin?
  {
    Issued(es[..b]) + 1 + NatIndex(es[b].order, i)
  }

  /** Where the last round began, -1 before any. */
  function LastBegin(es: seq<Event>): (b: int)
    ensures -1 <= b < |es| && (b >= 0 ==> es[b].CheckBegin?)
    ensures forall k :: b < k < |es| ==> !es[k].CheckBegin?
  {
    if |es| == 0 then -1 else if es[|es| - 1].CheckBegin? then |es| - 1 else LastBegin(es[..|es| - 1])
  }

  /** The send results last recorded. */
  function LastSent(es: seq<Event>): Option<seq<SendResult>> {
    if |es| == 0 then None else if es[|es| - 1].CheckSent? then Some(es[|es| - 1].results) else LastSent(es[..|es| - 1])
  }

  /** The datagram at place k comes from the peer path i belongs to. */
  ghost predicate FromPeer(t: Timing, es: seq<Event>, i: nat, k: nat) {
    k < |es| && es[k].Datagram? && Has(Run(t, es[..k]), es[k].name, i)
  }

  ghost predicate AnsweredBy(t: Timing, es: seq<Event>, i: nat, b: nat, k: nat)
    requires Pinged(es, i, b)
  {
    FromPeer(t, es, i, k) && es[k].msg.PongMsg? && es[k].msg.nonce == NonceOf(es, i, b)
  }

  ghost predicate TimedOutBy(t: Timing, es: seq<Event>, i: nat, b: nat, k: nat)
    requires Pinged(es, i, b)
  {
    k < |es| && es[k].CheckBegin? && Linked(Run(t, es[..k]), i) && es[k].now - es[b].now >= t.timeout
  }

  /** The round of the ping ends at k, its send having found no route. */
  predicate ForgottenBy(es: seq<Event>, i: nat, b: nat, k: nat)
    requires Pinged(es, i, b)
  {
    k < |es| && es[k].CheckEnd? && LastBegin(es[..k]) == b
    && LastSent(es[..k]).Some?
    && 0 <= IndexOf(es[b].order, i) < |LastSent(es[..k]).value|
    && LastSent(es[..k]).value[IndexOf(es[b].order, i)].NoRoute?
  }

  ghost predicate EndsAt(t: Timing, es: seq<Event>, i: nat, b: nat, k: nat) {
    Pinged(es, i, b) && b < k < |es| && (AnsweredBy(t, es, i, b, k) || TimedOutBy(t, es, i, b, k) || ForgottenBy(es, i, b, k))
  }

  /** Before place k nothing has ended the ping of place b. */
  ghost predicate Outstanding(t: Timing, es: seq<Event>, i: nat, b: nat, k: nat) {
    Pinged(es, i, b) && b < k <= |es| && forall j :: b < j < k ==> !EndsAt(t, es, i, b, j)
  }

  // ------------------------------------------------------------------ fates

  /** A ping of path i is lost at place k: the first check after its timeout finds
      it neither answered nor forgotten. */
  ghost predicate LostAt(t: Timing, es: seq<Event>, i: nat, k: nat) {
    exists b: nat :: Outstanding(t, es, i, b, k) && TimedOutBy(t, es, i, b, k)
  }

  /** A pong answers an outstanding ping of path i at place k. */
  ghost predicate PongedAt(t: Timing, es: seq<Event>, i: nat, k: nat) {
    exists b: nat :: Outstanding(t, es, i, b, k) && AnsweredBy(t, es, i, b, k)
  }

  /** The path is shown to deliver: any datagram from its address, or a pong. */
  ghost predicate ContactAt(t: Timing, es: seq<Event>, i: nat, k: nat) {
    && FromPeer(t, es, i, k) && i in Run(t, es[..k]).paths
    && (Run(t, es[..k]).paths[i].addr == es[k].from || PongedAt(t, es, i, k))
  }

  /** The pings of path i lost since its last contact. */
  ghost function LostSinceContact(t: Timing, es: seq<Event>, i: nat): nat {
    if |es| == 0 || ContactAt(t, es, i, |es| - 1) then 0
    else LostSinceContact(t, es[..|es| - 1], i) + if LostAt(t, es, i, |es| - 1) then 1 else 0
  }

  // --------------------------------------------------------- prefixes agree

  lemma EndsInPrefix(t: Timing, es: seq<Event>, front: seq<Event>, i: nat, b: nat, k: nat)
    requires |es| > 0 && front == es[..|es| - 1] && k < |front|
    ensures EndsAt(t, front, i, b, k) == EndsAt(t, es, i, b, k)
  {
    assert front[..k] == es[..k];
    if b < k {
      assert front[..b] == es[..b];
    }
  }

  /** One event later a ping is still outstanding unless the event ends it. */
  lemma StillOutstanding(t: Timing, es: seq<Event>, front: seq<Event>, i: nat, b: nat)
    requires |es| > 0 && front == es[..|es| - 1] && b < |front|
    ensures Outstanding(t, es, i, b, |es|) <==> Outstanding(t, front, i, b, |front|) && !EndsAt(t, es, i, b, |front|)
    ensures Outstanding(t, es, i, b, |front|) <==> Outstanding(t, front, i, b, |front|)
    ensures Pinged(front, i, b) ==> NonceOf(front, i, b) == NonceOf(es, i, b)
  {
    assert front[..b] == es[..b];
    forall j: nat | j < |front|
      ensures EndsAt(t, front, i, b, j) == EndsAt(t, es, i, b, j)
    {
      EndsInPrefix(t, es, front, i, b, j);
    }
  }

  // ------------------------------------------------------------ the machine

  lemma {:induction false} CounterIsIssued(t: Timing, es: seq<Event>)
    requires Possible(t, es)
    ensures Run(t, es).nonce == Issued(es)
  {
    if |es| > 0 {
      var front, e := es[..|es| - 1], es[|es| - 1];
      CounterIsIssued(t, front);
      NoncesHold(t, front);
      if e.SetRecords? {
        RecordsKeepPaths(t, Run(t, front), e.recs, |e.recs|, e.now);
      }
    }
  }

  /** The round in progress is the last one begun, with the results last sent. */
  ghost predicate RoundIsLast(m: Mesh, es: seq<Event>) {
    m.batch.Some? ==>
      && LastBegin(es) >= 0
      && m.batch.value.pings == Pings(es[LastBegin(es)].order, Issued(es[..LastBegin(es)]))
      && (m.batch.value.results.Some? ==> LastSent(es) == m.batch.value.results)
  }

  lemma {:induction false} RoundsAreLast(t: Timing, es: seq<Event>)
    requires Possible(t, es)
    ensures RoundIsLast(Run(t, es), es)
  {
    if |es| > 0 {
      var front, e := es[..|es| - 1], es[|es| - 1];
      RoundsAreLast(t, front);
      CounterIsIssued(t, front);
      NoncesHold(t, front);
      if e.SetRecords? {
        RecordsKeepPaths(t, Run(t, front), e.recs, |e.recs|, e.now);
      }
      if LastBegin(front) >= 0 {
        assert front[..LastBegin(front)] == es[..LastBegin(front)];
      }
    }
  }

  lemma PathsStayStored(t: Timing, m: Mesh, e: Event, i: nat)
    requires Nonces(m) && i in m.paths
    ensures i in Do(t, m, e).paths
  {
    if e.SetRecords? {
      RecordsKeepPaths(t, m, e.recs, |e.recs|, e.now);
    }
  }

  lemma {:induction false} PingedWasStored(t: Timing, es: seq<Event>, i: nat, b: nat)
    requires Possible(t, es) && Pinged(es, i, b)
    ensures i in Run(t, es).paths
  {
    var front, e := es[..|es| - 1], es[|es| - 1];
    NoncesHold(t, front);
    if b < |front| {
      PingedWasStored(t, front, i, b);
    }
    PathsStayStored(t, Run(t, front), e, i);
  }

  lemma {:induction false} IssuedGrows(es: seq<Event>, b: nat, c: nat)
    requires b < c <= |es| && es[b].CheckBegin?
    ensures Issued(es[..b]) + |es[b].order| <= Issued(es[..c])
  {
    assert es[..c][..c - 1] == es[..c - 1];
    if b < c - 1 {
      IssuedGrows(es, b, c - 1);
    }
  }

  /** A nonce names one round's ping. */
  lemma NoncesNameRounds(es: seq<Event>, i: nat, b: nat, j: nat, c: nat)
    requires Pinged(es, i, b) && Pinged(es, j, c) && b < c
    ensures NonceOf(es, i, b) < NonceOf(es, j, c)
  {
    IndexIsFound(es[b].order, i);
    IssuedGrows(es, b, c);
  }

  // ---------------------------------------------------------- the agreement

  /** What a path keeps of its outstanding ping, b being its place or -1: at most
      one is, and the nonce and the instant are its. */
  ghost predicate Keeps(t: Timing, es: seq<Event>, i: nat, p: Path, b: int) {
    && -1 <= b < |es|
    && (p.nonce == 0 <==> b == -1)
    && (b >= 0 ==> Outstanding(t, es, i, b, |es|) && p.nonce == NonceOf(es, i, b) && p.pingedAt == es[b].now)
    && (forall c: nat :: Outstanding(t, es, i, c, |es|) ==> c == b)
  }

  /** The events that end a path's ping are those that clear its nonce. */
  ghost predicate Clears(t: Timing, es: seq<Event>, i: nat, b: int, later: Path)
    requires |es| > 0 && b >= -1
  {
    later.nonce == 0 <==> (b == -1 || EndsAt(t, es, i, b, |es| - 1))
  }

  lemma DatagramClears(t: Timing, es: seq<Event>, front: seq<Event>, i: nat, b: int)
    requires |es| > 0 && front == es[..|es| - 1] && i in Run(t, front).paths && es[|front|].Datagram?
    requires Keeps(t, front, i, Run(t, front).paths[i], b)
    ensures var p, later := Run(t, front).paths[i], PathNext(t, Run(t, front), es[|front|], i);
            Clears(t, es, i, b, later) && (later.nonce != 0 ==> later.nonce == p.nonce && later.pingedAt == p.pingedAt)
  {
    if b >= 0 {
      DatagramAnswers(t, es, front, i, b);
    }
  }

  /** A datagram clears the nonce of the ping it answers, and no other. */
  lemma DatagramAnswers(t: Timing, es: seq<Event>, front: seq<Event>, i: nat, b: nat)
    requires |es| > 0 && front == es[..|es| - 1] && i in Run(t, front).paths && es[|front|].Datagram?
    requires Keeps(t, front, i, Run(t, front).paths[i], b)
    ensures PathNext(t, Run(t, front), es[|front|], i).nonce == 0 <==> EndsAt(t, es, i, b, |front|)
  {
    StillOutstanding(t, es, front, i, b);
    assert es[..|front|] == front;
  }

  lemma CheckClears(t: Timing, es: seq<Event>, front: seq<Event>, i: nat, b: int)
    requires |es| > 0 && front == es[..|es| - 1] && i in Run(t, front).paths && es[|front|].CheckBegin?
    requires Keeps(t, front, i, Run(t, front).paths[i], b) && Can(t, Run(t, front), es[|front|])
    ensures i !in es[|front|].order ==>
              var p, later := Run(t, front).paths[i], PathNext(t, Run(t, front), es[|front|], i);
              Clears(t, es, i, b, later) && (later.nonce != 0 ==> later.nonce == p.nonce && later.pingedAt == p.pingedAt)
  {
    if b >= 0 {
      StillOutstanding(t, es, front, i, b);
      assert es[..|front|] == front;
    }
  }

  /** A path that is pinged anew has no ping outstanding any more. */
  lemma CheckEnds(t: Timing, es: seq<Event>, front: seq<Event>, i: nat, b: int)
    requires |es| > 0 && front == es[..|es| - 1] && i in Run(t, front).paths && es[|front|].CheckBegin?
    requires Keeps(t, front, i, Run(t, front).paths[i], b) && Can(t, Run(t, front), es[|front|])
    ensures i in es[|front|].order && b >= 0 ==> EndsAt(t, es, i, b, |front|)
  {
    if b >= 0 {
      StillOutstanding(t, es, front, i, b);
      assert es[..|front|] == front;
    }
  }

  lemma EndClears(t: Timing, es: seq<Event>, front: seq<Event>, i: nat, b: int)
    requires |es| > 0 && front == es[..|es| - 1] && i in Run(t, front).paths && es[|front|].CheckEnd?
    requires Keeps(t, front, i, Run(t, front).paths[i], b) && Can(t, Run(t, front), es[|front|])
    requires RoundIsLast(Run(t, front), front)
    ensures var p, later := Run(t, front).paths[i], PathNext(t, Run(t, front), es[|front|], i);
            Clears(t, es, i, b, later) && (later.nonce != 0 ==> later.nonce == p.nonce && later.pingedAt == p.pingedAt)
  {
    if b >= 0 {
      EndForgets(t, es, front, i, b);
    }
  }

  /** A round's end clears the nonce of the ping it forgets, and no other. */
  lemma EndForgets(t: Timing, es: seq<Event>, front: seq<Event>, i: nat, b: nat)
    requires |es| > 0 && front == es[..|es| - 1] && i in Run(t, front).paths && es[|front|].CheckEnd?
    requires Keeps(t, front, i, Run(t, front).paths[i], b) && Can(t, Run(t, front), es[|front|])
    requires RoundIsLast(Run(t, front), front)
    ensures PathNext(t, Run(t, front), es[|front|], i).nonce == 0 <==> EndsAt(t, es, i, b, |front|)
  {
    var m, last := Run(t, front), LastBegin(front);
    var pings, order := m.batch.value.pings, front[last].order;
    PingOfIsIndex(pings, i);
    assert PingPaths(pings) == order;
    IndexIsFound(order, i);
    assert es[..|front|] == front && es[last] == front[last] && es[..last] == front[..last];
    StillOutstanding(t, es, front, i, b);
    if b < last && i in order {
      NoncesNameRounds(front, i, b, i, last);
    }
  }

  /** The other events end no ping and clear no nonce. */
  lemma OthersClear(t: Timing, es: seq<Event>, front: seq<Event>, i: nat, b: int)
    requires |es| > 0 && front == es[..|es| - 1] && i in Run(t, front).paths
    requires var e := es[|front|]; e.CheckSent? || e.BeatsSent? || e.Silent?
    requires Keeps(t, front, i, Run(t, front).paths[i], b)
    ensures var p, later := Run(t, front).paths[i], PathNext(t, Run(t, front), es[|front|], i);
            Clears(t, es, i, b, later) && (later.nonce != 0 ==> later.nonce == p.nonce && later.pingedAt == p.pingedAt)
  {
  }

  /** From one event to the next. */
  lemma KeepsNext(t: Timing, es: seq<Event>, front: seq<Event>, i: nat, p: Path, later: Path, b: int) returns (c: int)
    requires |es| > 0 && front == es[..|es| - 1] && Keeps(t, front, i, p, b) && Clears(t, es, i, b, later)
    requires later.nonce != 0 ==> later.nonce == p.nonce && later.pingedAt == p.pingedAt
    requires !Pinged(es, i, |front|)
    ensures Keeps(t, es, i, later, c)
  {
    c := if later.nonce == 0 then -1 else b;
    forall k: nat | Outstanding(t, es, i, k, |es|)
      ensures k == c
    {
      StillOutstanding(t, es, front, i, k);
    }
    if c >= 0 {
      StillOutstanding(t, es, front, i, c);
    }
  }

  /** A path pinged by the last event keeps that ping. */
  lemma KeepsNew(t: Timing, es: seq<Event>, front: seq<Event>, i: nat, p: Path, later: Path, b: int)
    requires |es| > 0 && front == es[..|es| - 1] && Keeps(t, front, i, p, b)
    requires Pinged(es, i, |front|) && (b >= 0 ==> EndsAt(t, es, i, b, |front|))
    requires later.nonce == NonceOf(es, i, |front|) && later.pingedAt == es[|front|].now
    ensures Keeps(t, es, i, later, |front|)
  {
    forall k: nat | Outstanding(t, es, i, k, |es|)
      ensures k == |front|
    {
      if k < |front| {
        StillOutstanding(t, es, front, i, k);
      }
    }
  }

  /** A path that appears with the last event has no ping outstanding. */
  lemma KeepsNothing(t: Timing, es: seq<Event>, front: seq<Event>, i: nat, p: Path)
    requires |es| > 0 && front == es[..|es| - 1] && Possible(t, front) && i !in Run(t, front).paths
    requires p.nonce == 0 && es[|front|].SetRecords?
    ensures Keeps(t, es, i, p, -1)
  {
    forall k: nat | Outstanding(t, es, i, k, |es|)
      ensures false
    {
      PingedWasStored(t, front, i, k);
    }
  }

  /** In every run a path's nonce and instant are those of its one outstanding
      ping, and it has none exactly when the nonce is 0. */
  lemma {:induction false} NonceIsOutstanding(t: Timing, es: seq<Event>, i: nat) returns (b: int)
    requires Possible(t, es) && i in Run(t, es).paths
    ensures Keeps(t, es, i, Run(t, es).paths[i], b)
  {
    var front, e := es[..|es| - 1], es[|es| - 1];
    var m := Run(t, front);
    NoncesHold(t, front);
    if e.SetRecords? {
      RecordsKeepPaths(t, m, e.recs, |e.recs|, e.now);
    }
    if i !in m.paths {
      KeepsNothing(t, es, front, i, Run(t, es).paths[i]);
      b := -1;
    } else {
      var was := NonceIsOutstanding(t, front, i);
      b := KeptNext(t, es, front, i, was);
    }
  }

  lemma KeptNext(t: Timing, es: seq<Event>, front: seq<Event>, i: nat, was: int) returns (b: int)
    requires |es| > 0 && front == es[..|es| - 1] && Possible(t, es) && i in Run(t, front).paths
    requires Keeps(t, front, i, Run(t, front).paths[i], was)
    ensures i in Run(t, es).paths && Keeps(t, es, i, Run(t, es).paths[i], b)
  {
    var m, e := Run(t, front), es[|es| - 1];
    var p := m.paths[i];
    NoncesHold(t, front);
    if e.SetRecords? {
      RecordsKeepPaths(t, m, e.recs, |e.recs|, e.now);
      b := KeepsNext(t, es, front, i, p, p, was);
    } else if e.CheckBegin? && i in e.order {
      CheckEnds(t, es, front, i, was);
      CounterIsIssued(t, front);
      assert es[..|front|] == front;
      KeepsNew(t, es, front, i, p, PathNext(t, m, e, i), was);
      b := |front|;
    } else {
      if e.Datagram? {
        DatagramClears(t, es, front, i, was);
      } else if e.CheckBegin? {
        CheckClears(t, es, front, i, was);
      } else if e.CheckEnd? {
        RoundsAreLast(t, front);
        EndClears(t, es, front, i, was);
      } else {
        OthersClear(t, es, front, i, was);
      }
      b := KeepsNext(t, es, front, i, p, PathNext(t, m, e, i), was);
    }
  }

  // -------------------------------------------------------------- the counts

  /** At each event the path's state tells what its fates say. */
  lemma FatesShow(t: Timing, es: seq<Event>, front: seq<Event>, i: nat)
    requires |es| > 0 && front == es[..|es| - 1] && Possible(t, es) && i in Run(t, front).paths
    ensures LostAt(t, es, i, |front|) <==> Loses(t, Run(t, front), es[|front|], i)
    ensures PongedAt(t, es, i, |front|) <==>
              es[|front|].Datagram? && Has(Run(t, front), es[|front|].name, i) && es[|front|].msg.PongMsg?
              && Matches(Run(t, front).paths[i], es[|front|].msg.nonce)
  {
    var b := NonceIsOutstanding(t, front, i);
    assert es[..|front|] == front;
    forall k: nat | Outstanding(t, es, i, k, |front|)
      ensures k == b
    {
      StillOutstanding(t, es, front, i, k);
    }
    if b >= 0 {
      StillOutstanding(t, es, front, i, b);
    }
  }

  lemma {:induction false} NothingLostYet(t: Timing, es: seq<Event>, i: nat)
    requires Possible(t, es) && i !in Run(t, es).paths
    ensures LostSinceContact(t, es, i) == 0
  {
    if |es| > 0 {
      var front := es[..|es| - 1];
      NoncesHold(t, front);
      if i in Run(t, front).paths {
        PathsStayStored(t, Run(t, front), es[|es| - 1], i);
      }
      NothingLostYet(t, front, i);
      forall b: nat | Outstanding(t, es, i, b, |front|)
        ensures false
      {
        PingedWasStored(t, es, i, b);
      }
    }
  }

  /** In every run a path's loss count is its pings lost since its last contact:
      no switch, record change, send result or other path's pong moves it. */
  lemma {:induction false} FailsCountLosses(t: Timing, es: seq<Event>, i: nat)
    requires Possible(t, es) && i in Run(t, es).paths
    ensures Run(t, es).paths[i].fails == LostSinceContact(t, es, i)
  {
    var front := es[..|es| - 1];
    if i in Run(t, front).paths {
      FailsCountLosses(t, front, i);
      FailsStep(t, es, front, i);
    } else {
      NothingLostYet(t, front, i);
      NewcomerHasLostNothing(t, es, front, i);
      NoncesHold(t, front);
      NewcomersStartClean(t, Run(t, front), es[|es| - 1], i);
    }
  }

  lemma FailsStep(t: Timing, es: seq<Event>, front: seq<Event>, i: nat)
    requires |es| > 0 && front == es[..|es| - 1] && Possible(t, es) && i in Run(t, front).paths
    requires Run(t, front).paths[i].fails == LostSinceContact(t, front, i)
    ensures i in Run(t, es).paths && Run(t, es).paths[i].fails == LostSinceContact(t, es, i)
  {
    var m, e := Run(t, front), es[|es| - 1];
    NoncesHold(t, front);
    if e.SetRecords? {
      RecordsKeepPaths(t, m, e.recs, |e.recs|, e.now);
    }
    assert es[|front|] == e;
    FatesShow(t, es, front, i);
    FailsNext(t, m, e, i);
    LossNext(t, es, front, i);
  }

  /** Only new records bring new paths, unmeasured and unflagged. */
  lemma NewcomersStartClean(t: Timing, m: Mesh, e: Event, i: nat)
    requires Nonces(m) && i !in m.paths && i in Do(t, m, e).paths
    ensures var p := Do(t, m, e).paths[i]; e.SetRecords? && p.fails == 0 && !p.noRoute && !p.deaf
  {
    if e.SetRecords? {
      RecordsKeepPaths(t, m, e.recs, |e.recs|, e.now);
    }
  }

  lemma LossNext(t: Timing, es: seq<Event>, front: seq<Event>, i: nat)
    requires |es| > 0 && front == es[..|es| - 1] && Possible(t, es) && i in Run(t, front).paths
    requires LostAt(t, es, i, |front|) <==> Loses(t, Run(t, front), es[|front|], i)
    requires PongedAt(t, es, i, |front|) <==>
               es[|front|].Datagram? && Has(Run(t, front), es[|front|].name, i) && es[|front|].msg.PongMsg?
               && Matches(Run(t, front).paths[i], es[|front|].msg.nonce)
    ensures LostSinceContact(t, es, i) ==
            if Contacts(Run(t, front), es[|front|], i) then 0
            else LostSinceContact(t, front, i) + if Loses(t, Run(t, front), es[|front|], i) then 1 else 0
  {
    assert es[..|front|] == front;
  }

  lemma NewcomerHasLostNothing(t: Timing, es: seq<Event>, front: seq<Event>, i: nat)
    requires |es| > 0 && front == es[..|es| - 1] && Possible(t, es) && i !in Run(t, front).paths
    requires LostSinceContact(t, front, i) == 0
    ensures LostSinceContact(t, es, i) == 0
  {
    forall b: nat | Outstanding(t, es, i, b, |front|)
      ensures false
    {
      assert Pinged(front, i, b);
      PingedWasStored(t, front, i, b);
    }
  }

  // --------------------------------------------------------------- the flags

  /** What place k proves of path i's route, true for no route: its own send's
      outcome, or a pong to its ping. */
  ghost function RouteProofAt(t: Timing, es: seq<Event>, i: nat, k: nat): Option<bool>
    requires k < |es|
  {
    match es[k]
    case Datagram(_, _, _, _) => if PongedAt(t, es, i, k) then Some(false) else None
    case CheckSent(results) =>
      var b := LastBegin(es[..k]);
      var place := if b >= 0 then IndexOf(es[..k][b].order, i) else -1;
      if 0 <= place < |results| then Proves(results[place]) else None
    case BeatsSent(outcomes) => if i in outcomes then Proves(outcomes[i]) else None
    case _ => None
  }

  /** The last proof of path i's route, false before any. */
  ghost function LastRouteProof(t: Timing, es: seq<Event>, i: nat): bool {
    if |es| == 0 then false
    else
      var front := es[..|es| - 1];
      if i in Run(t, front).paths && RouteProofAt(t, es, i, |front|).Some? then RouteProofAt(t, es, i, |front|).value
      else LastRouteProof(t, front, i)
  }

  /** The probe at place k is one the link listens to: a ping, or a pong to a ping
      of one of its paths. */
  ghost predicate Heeded(t: Timing, es: seq<Event>, k: nat) {
    k < |es| && es[k].Datagram?
    && (es[k].msg.PingMsg? || (es[k].msg.PongMsg? && exists j: nat :: PongedAt(t, es, j, k)))
  }

  /** A report at place k that the heartbeats on path i go unheard: it has carried
      them, since the link's last switch, for longer than three keepalives, and
      the peer has heard none for as long. */
  ghost predicate UnheardAt(t: Timing, es: seq<Event>, i: nat, k: nat) {
    && Heeded(t, es, k) && FromPeer(t, es, i, k)
    && var l := Run(t, es[..k]).links[es[k].name];
       && HasCur(l) && l.paths[l.cur] == i
       && es[k].msg.heardMS >= 0 && es[k].msg.heardMS * 1_000_000 > 3 * t.keepAlive
       && es[k].now - LastSwitch(t, es[..k], es[k].name) > 3 * t.keepAlive
  }

  /** What place k proves of path i being deaf; a report outweighs a pong in the
      same datagram. */
  ghost function DeafProofAt(t: Timing, es: seq<Event>, i: nat, k: nat): Option<bool> {
    if UnheardAt(t, es, i, k) then Some(true) else if PongedAt(t, es, i, k) then Some(false) else None
  }

  ghost function LastDeafProof(t: Timing, es: seq<Event>, i: nat): bool {
    if |es| == 0 then false
    else
      var front := es[..|es| - 1];
      if i in Run(t, front).paths && DeafProofAt(t, es, i, |front|).Some? then DeafProofAt(t, es, i, |front|).value
      else LastDeafProof(t, front, i)
  }

  lemma RouteProofShows(t: Timing, es: seq<Event>, front: seq<Event>, i: nat)
    requires |es| > 0 && front == es[..|es| - 1] && Possible(t, es) && i in Run(t, front).paths
    ensures RouteProofAt(t, es, i, |front|) == RouteProof(Run(t, front), es[|front|], i)
  {
    assert es[..|front|] == front;
    if es[|front|].Datagram? {
      FatesShow(t, es, front, i);
    } else if es[|front|].CheckSent? {
      RoundsAreLast(t, front);
      var m := Run(t, front);
      PingOfIsIndex(m.batch.value.pings, i);
      assert PingPaths(m.batch.value.pings) == front[LastBegin(front)].order;
    }
  }

  lemma HeededShows(t: Timing, es: seq<Event>, front: seq<Event>)
    requires |es| > 0 && front == es[..|es| - 1] && Possible(t, es) && es[|front|].Datagram?
    ensures Heeded(t, es, |front|) <==> !Stops(Run(t, front), es[|front|].name, es[|front|].msg)
  {
    var m, e := Run(t, front), es[|front|];
    assert es[..|front|] == front;
    forall j: nat | j in m.paths
      ensures PongedAt(t, es, j, |front|) <==> Has(m, e.name, j) && e.msg.PongMsg? && Matches(m.paths[j], e.msg.nonce)
    {
      FatesShow(t, es, front, j);
    }
    forall j: nat | PongedAt(t, es, j, |front|)
      ensures j in m.paths
    {
      PongedIsStored(t, es, front, j);
    }
  }

  lemma PongedIsStored(t: Timing, es: seq<Event>, front: seq<Event>, j: nat)
    requires |es| > 0 && front == es[..|es| - 1] && Possible(t, es) && PongedAt(t, es, j, |front|)
    ensures j in Run(t, front).paths
  {
    var b: nat :| Outstanding(t, es, j, b, |front|) && AnsweredBy(t, es, j, b, |front|);
    assert Pinged(front, j, b);
    PingedWasStored(t, front, j, b);
  }

  lemma DeafProofShows(t: Timing, es: seq<Event>, front: seq<Event>, i: nat)
    requires |es| > 0 && front == es[..|es| - 1] && Possible(t, es) && i in Run(t, front).paths
    ensures DeafProofAt(t, es, i, |front|) == DeafProof(t, Run(t, front), es[|front|], i)
  {
    assert es[..|front|] == front;
    if es[|front|].Datagram? {
      FatesShow(t, es, front, i);
      HeededShows(t, es, front);
      SwitchedAtIsLast(t, front, es[|front|].name);
    }
  }

  lemma {:induction false} NoProofYet(t: Timing, es: seq<Event>, i: nat)
    requires Possible(t, es) && i !in Run(t, es).paths
    ensures !LastRouteProof(t, es, i) && !LastDeafProof(t, es, i)
  {
    if |es| > 0 {
      var front := es[..|es| - 1];
      NoncesHold(t, front);
      if i in Run(t, front).paths {
        PathsStayStored(t, Run(t, front), es[|es| - 1], i);
      }
      NoProofYet(t, front, i);
    }
  }

  /** In every run a path is flagged unroutable, or deaf, exactly when the last
      thing that proved either way said so. */
  lemma {:induction false} FlagsAreLastProofs(t: Timing, es: seq<Event>, i: nat)
    requires Possible(t, es) && i in Run(t, es).paths
    ensures Run(t, es).paths[i].noRoute == LastRouteProof(t, es, i)
    ensures Run(t, es).paths[i].deaf == LastDeafProof(t, es, i)
  {
    var front := es[..|es| - 1];
    if i in Run(t, front).paths {
      FlagsAreLastProofs(t, front, i);
      FlagsStep(t, es, front, i);
    } else {
      NoProofYet(t, front, i);
      NoncesHold(t, front);
      NewcomersStartClean(t, Run(t, front), es[|es| - 1], i);
    }
  }

  lemma FlagsStep(t: Timing, es: seq<Event>, front: seq<Event>, i: nat)
    requires |es| > 0 && front == es[..|es| - 1] && Possible(t, es) && i in Run(t, front).paths && i in Run(t, es).paths
    requires Run(t, front).paths[i].noRoute == LastRouteProof(t, front, i)
    requires Run(t, front).paths[i].deaf == LastDeafProof(t, front, i)
    ensures Run(t, es).paths[i].noRoute == LastRouteProof(t, es, i)
    ensures Run(t, es).paths[i].deaf == LastDeafProof(t, es, i)
  {
    var m, e := Run(t, front), es[|es| - 1];
    NoncesHold(t, front);
    if e.SetRecords? {
      RecordsKeepPaths(t, m, e.recs, |e.recs|, e.now);
    }
    RouteProofShows(t, es, front, i);
    DeafProofShows(t, es, front, i);
    FlagsNext(t, m, e, i);
  }
}
