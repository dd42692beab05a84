/** When a path is pinged, and what its measurements are, from the list of events:
    the fates of its pings, its contacts and the proofs of its route. */
module Cadence {
  import opened Requests
  import opened Paths
  import opened Mesh
  import opened MeshLaws
  import opened PingFates

  // ------------------------------------------------------ pings and pongs

  /** The peer of path i falls silent at place k while no ping of the path is out:
      the path is hurried. */
  ghost predicate HurriedAt(t: Timing, es: seq<Event>, i: nat, k: nat) {
    k < |es| && es[k].Silent? && Has(Run(t, es[..k]), es[k].name, i) && forall b: nat :: !Outstanding(t, es, i, b, k)
  }

  /** When path i was last pinged, none before that or once it has been hurried. */
  ghost function LastPinged(t: Timing, es: seq<Event>, i: nat): Option<int> {
    if |es| == 0 then None
    else if Pinged(es, i, |es| - 1) then Some(es[|es| - 1].now)
    else if HurriedAt(t, es, i, |es| - 1) then None
    else LastPinged(t, es[..|es| - 1], i)
  }

  /** When a ping of path i was last answered. */
  ghost function LastPonged(t: Timing, es: seq<Event>, i: nat): Option<int> {
    if |es| == 0 then None
    else if PongedAt(t, es, i, |es| - 1) then Some(es[|es| - 1].now)
    else LastPonged(t, es[..|es| - 1], i)
  }

  /** Instants are after the zero time. */
  predicate AfterZero(es: seq<Event>) {
    forall k :: 0 <= k < |es| && (es[k].CheckBegin? || es[k].Datagram?) ==> es[k].now > 0
  }

  function Instant(at: Option<int>): int {
    if at.Some? then at.value else 0
  }

  lemma {:induction false} NeverPinged(t: Timing, es: seq<Event>, i: nat)
    requires Possible(t, es) && i !in Run(t, es).paths
    ensures LastPinged(t, es, i) == None && LastPonged(t, es, i) == None
  {
    if |es| > 0 {
      var front, e := es[..|es| - 1], es[|es| - 1];
      NoncesHold(t, front);
      if i in Run(t, front).paths {
        PathsStayStored(t, Run(t, front), e, i);
      }
      if PongedAt(t, es, i, |front|) {
        PongedIsStored(t, es, front, i);
      }
      NeverPinged(t, front, i);
    }
  }

  /** What an event does to the instants of a path. */
  lemma InstantsNext(t: Timing, m: Mesh, e: Event, i: nat)
    requires Can(t, m, e) && i in m.paths
    ensures PathNext(t, m, e, i).pingedAt ==
            if e.CheckBegin? && i in e.order then e.now
            else if e.Silent? && Has(m, e.name, i) && m.paths[i].nonce == 0 then 0 else m.paths[i].pingedAt
    ensures PathNext(t, m, e, i).pongedAt ==
            if e.Datagram? && Has(m, e.name, i) && e.msg.PongMsg? && Matches(m.paths[i], e.msg.nonce) then e.now
            else m.paths[i].pongedAt
  {
  }

  lemma HurryShows(t: Timing, es: seq<Event>, front: seq<Event>, i: nat)
    requires |es| > 0 && front == es[..|es| - 1] && Possible(t, es) && i in Run(t, front).paths
    ensures HurriedAt(t, es, i, |front|) <==>
              es[|front|].Silent? && Has(Run(t, front), es[|front|].name, i) && Run(t, front).paths[i].nonce == 0
  {
    var b := NonceIsOutstanding(t, front, i);
    assert es[..|front|] == front;
    forall k: nat | Outstanding(t, es, i, k, |front|)
      ensures k == b
    {
      StillOutstanding(t, es, front, i, k);
    }
    if b >= 0 {
      StillOutstanding(t, es, front, i, b);
    }
  }

  /** In every run a path keeps the instants of its last ping, 0 once hurried, and
      of its last pong. */
  lemma {:induction false} InstantsHold(t: Timing, es: seq<Event>, i: nat)
    requires Possible(t, es) && i in Run(t, es).paths && AfterZero(es)
    ensures Run(t, es).paths[i].pingedAt == Instant(LastPinged(t, es, i))
    ensures Run(t, es).paths[i].pongedAt == Instant(LastPonged(t, es, i))
  {
    var front := es[..|es| - 1];
    if i in Run(t, front).paths {
      InstantsHold(t, front, i);
      InstantsStep(t, es, front, i);
    } else {
      NeverPinged(t, front, i);
      NoncesHold(t, front);
      NewcomersAreUnmeasured(t, Run(t, front), es[|es| - 1], i);
      if PongedAt(t, es, i, |front|) {
        PongedIsStored(t, es, front, i);
      }
    }
  }

  lemma InstantsStep(t: Timing, es: seq<Event>, front: seq<Event>, i: nat)
    requires |es| > 0 && front == es[..|es| - 1] && Possible(t, es) && i in Run(t, front).paths && i in Run(t, es).paths
    requires Run(t, front).paths[i].pingedAt == Instant(LastPinged(t, front, i))
    requires Run(t, front).paths[i].pongedAt == Instant(LastPonged(t, front, i))
    ensures Run(t, es).paths[i].pingedAt == Instant(LastPinged(t, es, i))
    ensures Run(t, es).paths[i].pongedAt == Instant(LastPonged(t, es, i))
  {
    var m, e := Run(t, front), es[|es| - 1];
    NoncesHold(t, front);
    if e.SetRecords? {
      RecordsKeepPaths(t, m, e.recs, |e.recs|, e.now);
    }
    assert es[|front|] == e;
    FatesShow(t, es, front, i);
    HurryShows(t, es, front, i);
    InstantsNext(t, m, e, i);
  }

  lemma {:induction false} RecordsAddUnmeasured(t: Timing, m: Mesh, recs: seq<Record>, n: nat, now: int, i: nat)
    requires n <= |recs| && i !in m.paths && i in RecordsUpTo(t, m, recs, n, now).paths
    ensures var p := RecordsUpTo(t, m, recs, n, now).paths[i]; p == NewPath(p.addr)
  {
    if n > 0 {
      var done := RecordsUpTo(t, m, recs, n - 1, now);
      if i in done.paths {
        RecordsAddUnmeasured(t, m, recs, n - 1, now, i);
      }
      var from := done.(links := m.links);
      FilledAddsNew(from.paths, if recs[n - 1].name in from.links then from.links[recs[n - 1].name].paths else [],
                    recs[n - 1].addrs, |recs[n - 1].addrs|, from.nextPath, i);
    }
  }

  lemma {:induction false} FilledAddsNew(paths: map<nat, Path>, ids: seq<nat>, addrs: seq<string>, n: nat, next: nat, i: nat)
    requires n <= |addrs| && i in Filled(paths, ids, addrs, n, next)
    ensures var p := Filled(paths, ids, addrs, n, next)[i]; (i in paths && p == paths[i]) || p == NewPath(p.addr)
  {
    if n > 0 {
      if i in Filled(paths, ids, addrs, n - 1, next) {
        FilledAddsNew(paths, ids, addrs, n - 1, next, i);
      }
    }
  }

  /** A path new records bring has no history. */
  lemma NewcomersAreUnmeasured(t: Timing, m: Mesh, e: Event, i: nat)
    requires Nonces(m) && i !in m.paths && i in Do(t, m, e).paths
    ensures e.SetRecords? && var p := Do(t, m, e).paths[i]; p == NewPath(p.addr)
  {
    if e.SetRecords? {
      RecordsAddUnmeasured(t, m, e.recs, |e.recs|, e.now, i);
    }
  }

  // ------------------------------------------------------------- the cadence

  /** A ping of path i is out after the whole history. */
  ghost predicate Waiting(t: Timing, es: seq<Event>, i: nat) {
    exists b: nat :: Outstanding(t, es, i, b, |es|)
  }

  /** It has been out for PathTimeout. */
  ghost predicate Overdue(t: Timing, es: seq<Event>, i: nat, now: int) {
    exists b: nat :: Outstanding(t, es, i, b, |es|) && now - es[b].now >= t.timeout
  }

  /** The last ping of path i has been answered: its last pong is no older. */
  ghost predicate Answered(t: Timing, es: seq<Event>, i: nat) {
    LastPinged(t, es, i).Some? && LastPonged(t, es, i).Some? && LastPonged(t, es, i).value >= LastPinged(t, es, i).value
  }

  /** The cadence rule. A path is pinged when no ping of it is out, or only one that
      is lost now; at once when it was never pinged or has been hurried since; after
      ProbeInterval when its last ping was answered, when three pings in a row are
      lost, or when its address is known to have no route; and otherwise after twice
      PathTimeout. */
  ghost predicate ToBePinged(t: Timing, es: seq<Event>, i: nat, now: int) {
    var lost := LostSinceContact(t, es, i) + if Overdue(t, es, i, now) then 1 else 0;
    && (Waiting(t, es, i) ==> Overdue(t, es, i, now))
    && (LastPinged(t, es, i).Some? ==>
          var since := now - LastPinged(t, es, i).value;
          if Answered(t, es, i) || lost >= 3 || LastRouteProof(t, es, i) then since >= t.probeInterval
          else since >= 2 * t.timeout)
  }

  lemma WaitingShows(t: Timing, es: seq<Event>, i: nat, now: int)
    requires Possible(t, es) && i in Run(t, es).paths
    ensures Waiting(t, es, i) <==> Run(t, es).paths[i].nonce != 0
    ensures Overdue(t, es, i, now) <==> Expires(t, Run(t, es).paths[i], now)
  {
    var b := NonceIsOutstanding(t, es, i);
    if b >= 0 {
      assert Outstanding(t, es, i, b, |es|);
    }
  }

  /** In every run a round pings exactly the paths of its links that the rule names. */
  lemma CadenceHolds(t: Timing, es: seq<Event>, order: seq<nat>, now: int, i: nat)
    requires Possible(t, es) && Can(t, Run(t, es), CheckBegin(order, now)) && AfterZero(es)
    ensures i in order ==> i in Run(t, es).paths && Linked(Run(t, es), i)
    ensures i in Run(t, es).paths && Linked(Run(t, es), i) ==> (i in order <==> ToBePinged(t, es, i, now))
  {
    if i in Run(t, es).paths {
      WaitingShows(t, es, i, now);
      InstantsHold(t, es, i);
      FailsCountLosses(t, es, i);
      FlagsAreLastProofs(t, es, i);
      LastPingedIsLater(t, es, i);
      LastPongedIsLater(t, es, i);
    }
  }

  lemma {:induction false} LastPingedIsLater(t: Timing, es: seq<Event>, i: nat)
    requires AfterZero(es)
    ensures LastPinged(t, es, i).Some? ==> LastPinged(t, es, i).value > 0
  {
    if |es| > 0 {
      LastPingedIsLater(t, es[..|es| - 1], i);
    }
  }

  lemma {:induction false} LastPongedIsLater(t: Timing, es: seq<Event>, i: nat)
    requires AfterZero(es)
    ensures LastPonged(t, es, i).Some? ==> LastPonged(t, es, i).value > 0
  {
    if |es| > 0 {
      LastPongedIsLater(t, es[..|es| - 1], i);
    }
  }

  // -------------------------------------------------------- the measurements

  /** In every run a path is alive exactly when the last proof of its route was no
      failure, it was not last proved deaf, and fewer than three pings are lost since
      its last contact. */
  lemma AliveIsHistory(t: Timing, es: seq<Event>, i: nat)
    requires Possible(t, es) && i in Run(t, es).paths
    ensures Run(t, es).paths[i].Stat().alive <==>
              !LastRouteProof(t, es, i) && !LastDeafProof(t, es, i) && LostSinceContact(t, es, i) < 3
    ensures Run(t, es).paths[i].Stat().deaf == LastDeafProof(t, es, i)
  {
    FailsCountLosses(t, es, i);
    FlagsAreLastProofs(t, es, i);
  }

  /** A first sample is taken as it is, a later one moves the average a fifth of the
      way to it, rounded down. */
  predicate Averaged(was: int, sample: int, rtt: int) {
    if was == 0 then rtt == sample else 5 * rtt <= 4 * was + sample < 5 * rtt + 5
  }

  lemma SmoothedAverages(was: int, sample: int)
    ensures Averaged(was, sample, Smoothed(was, sample))
  {
    if was != 0 {
      var s := Smoothed(was, sample);
      assert s as real <= 0.8 * was as real + 0.2 * sample as real < s as real + 1.0;
      assert (5 * s) as real <= (4 * was + sample) as real < (5 * s + 5) as real;
    }
  }

  /** In every run a path's rtt moves only with a pong to one of its pings, by the
      time from that ping to the pong. */
  lemma RttIsOfItsPings(t: Timing, es: seq<Event>, e: Event, i: nat)
    requires Possible(t, es + [e]) && i in Run(t, es).paths
    ensures i in Run(t, es + [e]).paths
    ensures var was, rtt := Run(t, es).paths[i].rtt, Run(t, es + [e]).paths[i].rtt;
            if PongedAt(t, es + [e], i, |es|) then
              exists b: nat :: Outstanding(t, es + [e], i, b, |es|) && Averaged(was, e.now - es[b].now, rtt)
            else rtt == was
  {
    var more := es + [e];
    var m := Run(t, es);
    assert more[..|more| - 1] == es && more[|es|] == e;
    NoncesHold(t, es);
    PathsStayStored(t, m, e, i);
    if e.SetRecords? {
      RecordsKeepPaths(t, m, e.recs, |e.recs|, e.now);
    }
    FatesShow(t, more, es, i);
    RttNext(t, m, e, i);
    if PongedAt(t, more, i, |es|) {
      var b := NonceIsOutstanding(t, es, i);
      StillOutstanding(t, more, es, i, b);
      SmoothedAverages(m.paths[i].rtt, e.now - m.paths[i].pingedAt);
    }
  }

  lemma RttNext(t: Timing, m: Mesh, e: Event, i: nat)
    requires i in m.paths
    ensures PathNext(t, m, e, i).rtt ==
            if e.Datagram? && Has(m, e.name, i) && e.msg.PongMsg? && Matches(m.paths[i], e.msg.nonce)
            then Smoothed(m.paths[i].rtt, e.now - m.paths[i].pingedAt) else m.paths[i].rtt
  {
  }

  /** In every run a path was last seen by the last authenticated datagram from its
      address, and keeps its address. */
  lemma LastSeenIsContact(t: Timing, es: seq<Event>, e: Event, i: nat)
    requires Possible(t, es + [e]) && i in Run(t, es).paths
    ensures i in Run(t, es + [e]).paths && Run(t, es + [e]).paths[i].addr == Run(t, es).paths[i].addr
    ensures Run(t, es + [e]).paths[i].lastSeen ==
            if e.Datagram? && Has(Run(t, es), e.name, i) && Run(t, es).paths[i].addr == e.from then e.now
            else Run(t, es).paths[i].lastSeen
  {
    var m := Run(t, es);
    assert (es + [e])[..|es + [e]| - 1] == es;
    NoncesHold(t, es);
    SeenNext(t, m, e, i);
    if e.SetRecords? {
      RecordsKeepPaths(t, m, e.recs, |e.recs|, e.now);
    }
  }

  lemma SeenNext(t: Timing, m: Mesh, e: Event, i: nat)
    requires i in m.paths
    ensures PathNext(t, m, e, i).addr == m.paths[i].addr
    ensures PathNext(t, m, e, i).lastSeen ==
            if e.Datagram? && Has(m, e.name, i) && m.paths[i].addr == e.from then e.now else m.paths[i].lastSeen
  {
  }

  /** In every run a link was last heard by its peer's last heartbeat. */
  lemma HeardAtIsLastBeat(t: Timing, es: seq<Event>, e: Event, n: Name)
    requires Possible(t, es + [e]) && n in Run(t, es + [e]).links
    ensures Run(t, es + [e]).links[n].heardAt ==
            if e.Datagram? && e.name == n && e.msg.Beat? then e.now
            else if n in Run(t, es).links then Run(t, es).links[n].heardAt else 0
  {
    var m := Run(t, es);
    assert (es + [e])[..|es + [e]| - 1] == es;
    if e.SetRecords? {
      RecordsLink(t, m, e.recs, e.now, n);
      RecordIsFound(e.recs, n);
    }
  }
}
