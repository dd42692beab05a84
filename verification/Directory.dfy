/** The links of internal/app/directory.go updated in place. Each method is one
    section under Directory.mu; the events so far are kept as a ghost history, so
    whatever MeshLaws and MeshStore prove of every run holds of the object. */
module Directories {
  import opened Requests
  import opened Paths
  import opened Mesh
  import opened MeshLaws
  import opened MeshStore

  lemma RunExtends(t: Timing, es: seq<Event>, e: Event)
    requires Possible(t, es) && Can(t, Run(t, es), e)
    ensures Possible(t, es + [e]) && Run(t, es + [e]) == Do(t, Run(t, es), e)
  {
    assert (es + [e])[..|es + [e]| - 1] == es;
  }

  /** The store once a datagram from an address has come in on a link. */
  ghost function HeardAll(paths: map<nat, Path>, ids: seq<nat>, from: string, now: int): map<nat, Path> {
    map i | i in paths :: if i in ids then Heard(paths[i], from, now) else paths[i]
  }

  /** The store once a pong has come in on a link. */
  ghost function PongedAll(paths: map<nat, Path>, ids: seq<nat>, nonce: nat, now: int): map<nat, Path> {
    map i | i in paths :: if i in ids then Ponged(paths[i], nonce, now) else paths[i]
  }

  /** The store once a probe's report of what its sender heard has come in. */
  ghost function Reported(t: Timing, paths: map<nat, Path>, l: Link, msg: Message, now: int): map<nat, Path> {
    map i | i in paths :: if FoundDeaf(t, l, i, msg, now) then paths[i].(deaf := true) else paths[i]
  }

  ghost function Credited(paths: map<nat, Path>, ids: seq<nat>, from: string, msg: Message, now: int): map<nat, Path> {
    var heard := HeardAll(paths, ids, from, now);
    if msg.PongMsg? then PongedAll(heard, ids, msg.nonce, now) else heard
  }

  lemma BeatIsHeard(t: Timing, m: Mesh, e: Event)
    requires e.Datagram? && e.msg.Beat? && e.name in m.links
    ensures var l := m.links[e.name];
            Do(t, m, e) == m.(paths := HeardAll(m.paths, l.paths, e.from, e.now), links := m.links[e.name := l.(heardAt := e.now)])
  {
    var d := Do(t, m, e);
    assert d.paths == HeardAll(m.paths, m.links[e.name].paths, e.from, e.now);
    assert d.links == m.links[e.name := m.links[e.name].(heardAt := e.now)];
  }

  lemma StrayPongIsHeard(t: Timing, m: Mesh, e: Event)
    requires e.Datagram? && e.msg.PongMsg? && e.name in m.links && Stops(m, e.name, e.msg)
    ensures Do(t, m, e) == m.(paths := Credited(m.paths, m.links[e.name].paths, e.from, e.msg, e.now))
  {
    var d := Do(t, m, e);
    assert d.paths == Credited(m.paths, m.links[e.name].paths, e.from, e.msg, e.now);
    assert d.links == m.links;
  }

  lemma ProbeIsHeard(t: Timing, m: Mesh, e: Event)
    requires e.Datagram? && !e.msg.Beat? && e.name in m.links && !Stops(m, e.name, e.msg)
    ensures var l := m.links[e.name];
            var paths := Reported(t, Credited(m.paths, l.paths, e.from, e.msg, e.now), l, e.msg, e.now);
            Do(t, m, e) == m.(paths := paths, links := m.links[e.name := Chosen(t, paths, l, e.now)])
  {
    var d, l := Do(t, m, e), m.links[e.name];
    assert d.paths == Reported(t, Credited(m.paths, l.paths, e.from, e.msg, e.now), l, e.msg, e.now);
    assert d.links == m.links[e.name := Chosen(t, d.paths, l, e.now)];
  }

  /** The store after a round of sends: each path's flag as its send proved it. */
  ghost function Sent(paths: map<nat, Path>, jobs: seq<nat>, results: seq<SendResult>): map<nat, Path> {
    map i | i in paths ::
      if 0 <= IndexOf(jobs, i) < |results| then Flagged(paths[i], results[IndexOf(jobs, i)]) else paths[i]
  }

  /** checkPaths in progress: the paths seen so far are judged and, when due,
      pinged, in the order of the pings. */
  ghost predicate Begun(t: Timing, was: map<nat, Path>, paths: map<nat, Path>, seen: set<nat>, order: seq<nat>, nonce: nat, now: int) {
    && paths.Keys == was.Keys && Distinct(order)
    && (forall i :: i in order <==> i in seen && i in was && Due(t, was[i], now))
    && (forall i :: i in was ==>
          paths[i] == if i in seen then OnBegin(t, was[i], nonce + 1 + NatIndex(order, i), now, i in order) else was[i])
  }

  lemma BegunStep(t: Timing, was: map<nat, Path>, paths: map<nat, Path>, seen: set<nat>, order: seq<nat>, nonce: nat, now: int,
                  i: nat, pinged: bool, later: map<nat, Path>, longer: seq<nat>)
    requires Begun(t, was, paths, seen, order, nonce, now) && i in was && i !in seen
    requires pinged <==> Due(t, was[i], now)
    requires later == paths[i := OnBegin(t, was[i], nonce + 1 + |order|, now, pinged)]
    requires longer == if pinged then order + [i] else order
    ensures Begun(t, was, later, seen + {i}, longer, nonce, now)
  {
    Appended(order, i);
    forall k | k in was
      ensures later[k] == if k in seen + {i} then OnBegin(t, was[k], nonce + 1 + NatIndex(longer, k), now, k in longer) else was[k]
    {
      if k == i { IndexIsFound(longer, i); }
    }
  }

  lemma Appended(order: seq<nat>, i: nat)
    ensures forall k :: k in order + [i] <==> k in order || k == i
    ensures i !in order && Distinct(order) ==> Distinct(order + [i])
    ensures forall k :: k != i ==> IndexOf(order + [i], k) == IndexOf(order, k)
    ensures IndexOf(order + [i], i) == |order|
  {
    assert (order + [i])[..|order + [i]| - 1] == order;
  }

  /** The paths of the links looked at so far. */
  ghost predicate SeenOf(links: map<Name, Link>, todo: set<Name>, seen: set<nat>) {
    && (forall n, i :: n in links && n !in todo && i in links[n].paths ==> i in seen)
    && (forall i :: i in seen ==> exists n :: n in links && n !in todo && i in links[n].paths)
  }

  lemma SeenStep(links: map<Name, Link>, todo: set<Name>, seen: set<nat>, n: Name)
    requires SeenOf(links, todo, seen) && n in todo && n in links
    ensures SeenOf(links, todo - {n}, seen + set i | i in links[n].paths)
  {
    var later := seen + set i | i in links[n].paths;
    forall i | i in later
      ensures exists k :: k in links && k !in todo - {n} && i in links[k].paths
    {
      if i in links[n].paths {
        assert n in links && n !in todo - {n} && i in links[n].paths;
      }
    }
  }

  /** A round's pings name paths of the store. */
  ghost predicate PingsStored(m: Mesh) {
    m.batch.Some? ==> forall k :: 0 <= k < |m.batch.value.pings| ==> m.batch.value.pings[k].path in m.paths
  }

  lemma {:induction false} PingsAreStored(t: Timing, es: seq<Event>)
    requires Possible(t, es)
    ensures PingsStored(Run(t, es))
  {
    if |es| > 0 {
      var front, e := es[..|es| - 1], es[|es| - 1];
      PingsAreStored(t, front);
      NoncesHold(t, front);
      if e.SetRecords? {
        RecordsKeepPaths(t, Run(t, front), e.recs, |e.recs|, e.now);
      }
    }
  }

  /** The rounds and the store, as every section finds them. */
  lemma SectionFacts(t: Timing, es: seq<Event>)
    requires Possible(t, es)
    ensures var m := Run(t, es);
            && Tidy(m) && Nonces(m) && InRange(m)
            && (m.batch.Some? ==> Distinct(PingPaths(m.batch.value.pings)))
            && (m.batch.Some? ==> forall k :: 0 <= k < |m.batch.value.pings| ==> m.batch.value.pings[k].path in m.paths)
            && (m.batch.Some? && m.batch.value.results.Some? ==> |m.batch.value.results.value| == |m.batch.value.pings|)
  {
    StoreHolds(t, es);
    NoncesHold(t, es);
    IndicesHold(t, es);
    RoundsHold(t, es);
    PingsAreStored(t, es);
  }

  lemma TidyIsDistinct(paths: map<nat, Path>, ids: seq<nat>)
    requires TidyLink(paths, ids)
    ensures Distinct(ids) && forall i :: i in ids ==> i in paths
  {
  }

  class Directory {
    const timing: Timing
    var paths: map<nat, Path>
    var links: map<Name, Link>
    var nonce: nat
    var nextPath: nat
    var nextSerial: nat
    var batch: Option<Batch>
    ghost var history: seq<Event>

    ghost function Value(): Mesh
      reads this
    {
      Mesh(paths, links, nonce, nextPath, nextSerial, batch)
    }

    ghost predicate Valid()
      reads this
    {
      Possible(timing, history) && Value() == Run(timing, history)
    }

    constructor (t: Timing)
      ensures Valid() && timing == t && history == []
    {
      timing := t;
      paths, links, nonce, nextPath, nextSerial, batch := map[], map[], 0, 0, 0, None;
      history := [];
    }

    /** The policy's choice on a link, and whether it changes the path. */
    method ChooseLocked(l: Link, now: int) returns (c: Link, switched: bool)
      ensures c == Chosen(timing, paths, l, now)
      ensures switched <==> !timing.noLocal && Decision(timing, paths, l, now).0 != l.cur
    {
      c, switched := l, false;
      if timing.noLocal {
        return;
      }
      var idx, reason := Choose(timing.probeInterval, now, Stats(paths, l.paths), l.cur, l.switchedAt);
      if idx == l.cur {
        return;
      }
      c, switched := l.(cur := idx, switchedAt := now), true;
    }

    /** An authenticated datagram: whatever it is, this path delivers. */
    method MarkHeard(ids: seq<nat>, from: string, now: int)
      requires Distinct(ids) && forall i :: i in ids ==> i in paths
      modifies `paths
      ensures paths == HeardAll(old(paths), ids, from, now)
    {
      for k := 0 to |ids|
        invariant paths == HeardAll(old(paths), ids[..k], from, now)
      {
        var p := paths[ids[k]];
        assert ids[..k + 1] == ids[..k] + [ids[k]];
        if p.addr == from {
          paths := paths[ids[k] := p.(lastSeen := now, fails := 0)];
        }
      }
      assert ids[..|ids|] == ids;
    }

    /** A pong credits the ping it answers, if any is outstanding. */
    method MatchPong(ids: seq<nat>, nonce: nat, now: int) returns (matched: bool)
      requires Distinct(ids) && forall i :: i in ids ==> i in paths
      modifies `paths
      ensures paths == PongedAll(old(paths), ids, nonce, now)
      ensures matched <==> exists i :: i in ids && Matches(old(paths)[i], nonce)
    {
      matched := false;
      for k := 0 to |ids|
        invariant paths == PongedAll(old(paths), ids[..k], nonce, now)
        invariant matched <==> exists i :: i in ids[..k] && Matches(old(paths)[i], nonce)
      {
        var p := paths[ids[k]];
        assert ids[..k + 1] == ids[..k] + [ids[k]];
        assert p == old(paths)[ids[k]];
        if p.nonce != 0 && p.nonce == nonce {
          matched := true;
          var sample := now - p.pingedAt;
          var rtt := if p.rtt == 0 then sample else (0.8 * p.rtt as real + 0.2 * sample as real).Floor;
          paths := paths[ids[k] := p.(rtt := rtt, nonce := 0, pongedAt := now, fails := 0, deaf := false, noRoute := false)];
        }
      }
      assert ids[..|ids|] == ids;
    }

    /** The peer's report of when it last heard a heartbeat. */
    method NoteReport(l: Link, msg: Message, now: int)
      requires !msg.Beat? && forall i :: i in l.paths ==> i in paths
      modifies `paths
      ensures paths == Reported(timing, old(paths), l, msg, now)
    {
      var stale := 3 * timing.keepAlive;
      if 0 <= l.cur < |l.paths| && msg.heardMS >= 0 && msg.heardMS * MILLISECOND > stale && now - l.switchedAt > stale {
        paths := paths[l.paths[l.cur] := paths[l.paths[l.cur]].(deaf := true)];
      }
    }

    /** handleLocked on an authenticated datagram of a known peer: whether its
        link switched. */
    method Receive(n: Name, from: string, msg: Message, now: int) returns (switched: bool)
      requires Valid() && n in links && (msg.Beat? ==> n.PeerLink?)
      modifies this
      ensures Valid() && history == old(history) + [Datagram(n, from, msg, now)]
      ensures switched <==> Switches(timing, old(Value()), Datagram(n, from, msg, now), n)
    {
      ghost var was, e := Value(), Datagram(n, from, msg, now);
      SectionFacts(timing, history);
      TidyIsDistinct(paths, links[n].paths);
      switched := Handle(n, from, msg, now, e);
      RunExtends(timing, history, e);
      history := history + [e];
    }

    method Handle(n: Name, from: string, msg: Message, now: int, ghost e: Event) returns (switched: bool)
      requires n in links && e == Datagram(n, from, msg, now)
      requires Distinct(links[n].paths) && forall i :: i in links[n].paths ==> i in paths
      modifies `paths, `links
      ensures Value() == Do(timing, old(Value()), e)
      ensures switched <==> Switches(timing, old(Value()), e, n)
    {
      ghost var was := Value();
      var l := links[n];
      switched := false;
      MarkHeard(l.paths, from, now);
      if msg.Beat? {
        links := links[n := l.(heardAt := now)];
        BeatIsHeard(timing, was, e);
        return;
      }
      if msg.PongMsg? {
        var matched := MatchPong(l.paths, msg.nonce, now);
        assert matched <==> !Stops(was, n, msg);
        if !matched {
          StrayPongIsHeard(timing, was, e);
          return;
        }
      }
      ProbeIsHeard(timing, was, e);
      NoteReport(l, msg, now);
      l, switched := ChooseLocked(l, now);
      links := links[n := l];
    }

    /** The first section of checkPaths: losses counted, due paths pinged. */
    method CheckBegin(now: int) returns (order: seq<nat>)
      requires Valid() && batch.None?
      modifies this
      ensures Valid() && history == old(history) + [Event.CheckBegin(order, now)]
    {
      ghost var was := Value();
      SectionFacts(timing, history);
      ghost var seen;
      order, seen := CheckLinks(now);
      batch := Some(Batch(Pings(order, nonce - |order|), SerialsOf(links), now, None));
      ghost var e := Event.CheckBegin(order, now);
      RoundIsBegun(timing, was, e, paths, seen);
      RunExtends(timing, history, e);
      history := history + [e];
    }

    method CheckLinks(now: int) returns (order: seq<nat>, ghost seen: set<nat>)
      requires Tidy(Value())
      modifies `paths, `nonce
      ensures SeenOf(links, {}, seen) && Begun(timing, old(paths), paths, seen, order, old(nonce), now)
      ensures nonce == old(nonce) + |order|
    {
      order, seen := [], {};
      var todo := links.Keys;
      while todo != {}
        invariant todo <= links.Keys && SeenOf(links, todo, seen)
        invariant Begun(timing, old(paths), paths, seen, order, old(nonce), now)
        invariant nonce == old(nonce) + |order|
      {
        var n :| n in todo;
        SeenStep(links, todo, seen, n);
        assert forall i :: i in links[n].paths ==> i !in seen;
        TidyIsDistinct(old(paths), links[n].paths);
        order, seen := CheckLink(links[n].paths, order, now, old(paths), seen, old(nonce));
        todo := todo - {n};
      }
    }

    /** One link's paths in checkPaths. */
    method CheckLink(ids: seq<nat>, order0: seq<nat>, now: int, ghost was: map<nat, Path>, ghost seen0: set<nat>, ghost nonce0: nat)
      returns (order: seq<nat>, ghost seen: set<nat>)
      requires Begun(timing, was, paths, seen0, order0, nonce0, now) && nonce == nonce0 + |order0|
      requires Distinct(ids) && forall i :: i in ids ==> i in was && i !in seen0
      modifies `paths, `nonce
      ensures Begun(timing, was, paths, seen, order, nonce0, now) && nonce == nonce0 + |order|
      ensures seen == seen0 + set i | i in ids
    {
      order, seen := order0, seen0;
      for k := 0 to |ids|
        invariant Begun(timing, was, paths, seen, order, nonce0, now) && nonce == nonce0 + |order|
        invariant seen == seen0 + set i | i in ids[..k]
      {
        var i := ids[k];
        assert ids[..k + 1] == ids[..k] + [i];
        assert i !in ids[..k];
        order, seen := CheckNext(i, order, now, was, seen, nonce0);
      }
      assert ids[..|ids|] == ids;
    }

    method CheckNext(i: nat, order0: seq<nat>, now: int, ghost was: map<nat, Path>, ghost seen0: set<nat>, ghost nonce0: nat)
      returns (order: seq<nat>, ghost seen: set<nat>)
      requires Begun(timing, was, paths, seen0, order0, nonce0, now) && nonce == nonce0 + |order0|
      requires i in was && i !in seen0
      modifies `paths, `nonce
      ensures Begun(timing, was, paths, seen, order, nonce0, now) && nonce == nonce0 + |order|
      ensures seen == seen0 + {i}
    {
      var pinged := CheckPath(i, now);
      order, seen := if pinged then order0 + [i] else order0, seen0 + {i};
      BegunStep(timing, was, old(paths), seen0, order0, nonce0, now, i, pinged, paths, order);
    }

    /** One path in checkPaths: its outstanding ping judged, a new one issued
        when it is due. */
    method CheckPath(i: nat, now: int) returns (pinged: bool)
      requires i in paths
      modifies `paths, `nonce
      ensures pinged <==> Due(timing, old(paths)[i], now)
      ensures nonce == old(nonce) + if pinged then 1 else 0
      ensures paths == old(paths)[i := OnBegin(timing, old(paths)[i], old(nonce) + 1, now, pinged)]
    {
      pinged := false;
      var p := paths[i];
      if p.nonce != 0 && now - p.pingedAt >= timing.timeout {
        p := p.(nonce := 0, fails := p.fails + 1);
      }
      if p.nonce == 0 {
        var answered := p.pongedAt >= p.pingedAt;
        var interval := 2 * timing.timeout;
        if answered || p.fails >= PATH_FAILURES || p.noRoute {
          interval := timing.probeInterval;
        }
        if p.pingedAt == 0 || now - p.pingedAt >= interval {
          nonce := nonce + 1;
          p := p.(nonce := nonce, pingedAt := now);
          pinged := true;
        }
      }
      paths := paths[i := p];
    }

    /** What a round of sends proved, recorded after it. */
    method RecordSends(jobs: seq<nat>, results: seq<SendResult>)
      requires Distinct(jobs) && |results| == |jobs| && forall i :: i in jobs ==> i in paths
      modifies `paths
      ensures paths == Sent(old(paths), jobs, results)
    {
      for k := 0 to |jobs|
        invariant paths == Sent(old(paths), jobs[..k], results)
      {
        assert jobs[..k + 1][..k] == jobs[..k];
        IndexIsFound(jobs[..k], jobs[k]);
        assert paths[jobs[k]] == old(paths)[jobs[k]];
        if !results[k].OtherError? {
          paths := paths[jobs[k] := paths[jobs[k]].(noRoute := results[k].NoRoute?)];
        }
        SentStep(old(paths), jobs, results, k);
      }
      assert jobs[..|jobs|] == jobs;
    }

    /** The second section of checkPaths: what the pings' sends proved. */
    method CheckSent(results: seq<SendResult>)
      requires Valid() && batch.Some? && batch.value.results.None? && |results| == |batch.value.pings|
      modifies this
      ensures Valid() && history == old(history) + [Event.CheckSent(results)]
    {
      ghost var was, e := Value(), Event.CheckSent(results);
      SectionFacts(timing, history);
      RecordSends(PingPaths(batch.value.pings), results);
      batch := Some(batch.value.(results := Some(results)));
      SendsAreNoted(timing, was, e);
      RunExtends(timing, history, e);
      history := history + [e];
    }

    /** The last section of checkPaths: pings that never left are forgotten, and
        the links of the round choose their paths. */
    method CheckEnd() returns (switched: bool)
      requires Valid() && batch.Some? && batch.value.results.Some?
      modifies this
      ensures Valid() && history == old(history) + [Event.CheckEnd]
      ensures switched <==> exists n :: Switches(timing, old(Value()), Event.CheckEnd, n)
    {
      SectionFacts(timing, history);
      switched := EndRound();
      RunExtends(timing, history, Event.CheckEnd);
      history := history + [Event.CheckEnd];
    }

    method EndRound() returns (switched: bool)
      requires batch.Some? && batch.value.results.Some? && |batch.value.results.value| == |batch.value.pings|
      requires Distinct(PingPaths(batch.value.pings))
      requires forall k :: 0 <= k < |batch.value.pings| ==> batch.value.pings[k].path in paths
      modifies `paths, `links, `batch
      ensures Value() == Do(timing, old(Value()), Event.CheckEnd)
      ensures switched <==> exists n :: Switches(timing, old(Value()), Event.CheckEnd, n)
    {
      ForgetUnsent(batch.value);
      RoundIsEnded(timing, old(Value()), Event.CheckEnd, paths);
      switched := ChooseAll(batch.value.serials, batch.value.now);
      batch := None;
    }

    method ForgetUnsent(b: Batch)
      requires Distinct(PingPaths(b.pings)) && b.results.Some? && |b.results.value| == |b.pings|
      requires forall k :: 0 <= k < |b.pings| ==> b.pings[k].path in paths
      modifies `paths
      ensures paths == Forgotten(old(paths), b, |b.pings|)
    {
      for k := 0 to |b.pings|
        invariant paths == Forgotten(old(paths), b, k)
      {
        var pg := b.pings[k];
        assert forall j :: 0 <= j < k ==> PingPaths(b.pings)[j] != PingPaths(b.pings)[k];
        if b.results.value[k].NoRoute? && paths[pg.path].nonce == pg.nonce {
          paths := paths[pg.path := paths[pg.path].(nonce := 0)];
        }
      }
    }

    method ChooseAll(serials: set<nat>, now: int) returns (switched: bool)
      modifies `links
      ensures links == ChosenAll(timing, paths, old(links), serials, now)
      ensures switched <==> exists n :: n in old(links) && old(links)[n].serial in serials && Moves(timing, paths, old(links)[n], now)
    {
      switched := false;
      var todo := links.Keys;
      while todo != {}
        invariant todo <= links.Keys && PartlyChosen(timing, paths, old(links), links, todo, serials, now)
        invariant switched <==> SomeMoved(timing, paths, old(links), todo, serials, now)
      {
        var n :| n in todo;
        assert links[n] == old(links)[n];
        var c, moved := links[n], false;
        if links[n].serial in serials {
          c, moved := ChooseLocked(links[n], now);
        }
        ChosenFurther(timing, paths, old(links), links, todo, serials, now, n, c, moved);
        links := links[n := c];
        switched := switched || moved;
        todo := todo - {n};
      }
    }

    /** The paths heartbeats go out on: exactly one datagram a link. A balancer
        sends none. */
    method HeartbeatJobs() returns (jobs: seq<nat>)
      requires Valid()
      ensures timing.noLocal ==> jobs == []
      ensures !timing.noLocal ==> forall i :: i in jobs <==> exists n :: n in links && HasCur(links[n]) && links[n].paths[links[n].cur] == i
      ensures Distinct(jobs) && forall i :: i in jobs ==> i in paths
    {
      SectionFacts(timing, history);
      jobs := [];
      if timing.noLocal {
        return;
      }
      var todo := links.Keys;
      while todo != {}
        invariant todo <= links.Keys
        invariant forall i :: i in jobs <==> exists n :: n in links && n !in todo && HasCur(links[n]) && links[n].paths[links[n].cur] == i
        invariant Distinct(jobs)
      {
        var n :| n in todo;
        todo := todo - {n};
        if HasCur(links[n]) {
          var i := links[n].paths[links[n].cur];
          forall k | k in links && k != n && HasCur(links[k])
            ensures links[k].paths[links[k].cur] != i
          {
            CarriersDiffer(links, k, n);
          }
          Appended(jobs, i);
          jobs := jobs + [i];
        }
      }
    }

    /** The section after a heartbeat's sends. */
    method BeatsSent(jobs: seq<nat>, results: seq<SendResult>)
      requires Valid() && Distinct(jobs) && |results| == |jobs| && forall i :: i in jobs ==> i in paths
      modifies this
      ensures Valid() && history == old(history) + [Event.BeatsSent(Outcomes(jobs, results))]
    {
      ghost var was, e := Value(), Event.BeatsSent(Outcomes(jobs, results));
      RecordSends(jobs, results);
      BeatsAreNoted(timing, was, e, jobs, results);
      RunExtends(timing, history, e);
      history := history + [e];
    }

    /** Entering silence: every path of the peer's link is pinged on this tick. */
    method Silence(n: Name)
      requires Valid() && n in links
      modifies this
      ensures Valid() && history == old(history) + [Silent(n)]
    {
      SectionFacts(timing, history);
      PingSoon(links[n].paths);
      SilenceIsNoted(timing, old(Value()), n, paths);
      RunExtends(timing, history, Silent(n));
      history := history + [Silent(n)];
    }

    method PingSoon(ids: seq<nat>)
      requires forall k :: 0 <= k < |ids| ==> ids[k] in paths
      modifies `paths
      ensures paths == Hurried(old(paths), ids)
    {
      for k := 0 to |ids|
        invariant paths == Hurried(old(paths), ids[..k])
      {
        assert ids[..k + 1] == ids[..k] + [ids[k]];
        if paths[ids[k]].nonce == 0 {
          paths := paths[ids[k] := paths[ids[k]].(pingedAt := 0)];
        }
      }
      assert ids[..|ids|] == ids;
    }

    /** syncLink: surviving addresses keep their measurements. */
    method SyncLink(r: Record) returns (l: Link)
      requires Tidy(Value())
      modifies `paths, `nextPath, `nextSerial
      ensures l == SyncedLink(old(Value()), r) && paths == SyncedPaths(old(Value()), r)
      ensures nextPath == old(nextPath) + |r.addrs| && nextSerial == old(nextSerial) + 1
    {
      var known := paths;
      l := if r.name in links then links[r.name] else Link(nextSerial, [], -1, 0, 0);
      var ids, cur := [], -1;
      for n := 0 to |r.addrs|
        invariant ids == PlacesOf(known, l.paths, r.addrs, n, nextPath)
        invariant paths == Filled(known, l.paths, r.addrs, n, nextPath)
        invariant unchanged(`nextPath) && unchanged(`nextSerial)
        invariant cur == if HasCur(l) then IndexOf(ids, l.paths[l.cur]) else -1
      {
        var a := r.addrs[n];
        if a !in r.addrs[..n] {
          PlacesAreTidy(known, l.paths, r.addrs, n, nextPath);
          PlaceIsOurs(known, l.paths, a);
          var p := PlaceOf(known, l.paths, a);
          var i := if p.Some? then p.value else nextPath + n;
          if p.None? {
            paths := paths[i := NewPath(a)];
          }
          Appended(ids, i);
          if HasCur(l) && a == known[l.paths[l.cur]].addr {
            OneAnAddress(known, l.paths, l.cur, a);
            cur := |ids|;
          }
          ids := ids + [i];
        }
      }
      l := l.(paths := ids, cur := cur);
      nextPath, nextSerial := nextPath + |r.addrs|, nextSerial + 1;
    }

    /** SetRecords on the records of this network's other nodes, whose ids are
        distinct. */
    method SetRecords(recs: seq<Record>, now: int) returns (switched: bool)
      requires Valid() && forall i, j :: 0 <= i < j < |recs| ==> recs[i].name != recs[j].name
      modifies this
      ensures Valid() && history == old(history) + [Event.SetRecords(recs, now)]
      ensures switched <==> exists n :: Switches(timing, old(Value()), Event.SetRecords(recs, now), n)
    {
      SectionFacts(timing, history);
      switched := ReplaceLinks(recs, now);
      RecordsSwitch(timing, old(Value()), Event.SetRecords(recs, now));
      RunExtends(timing, history, Event.SetRecords(recs, now));
      history := history + [Event.SetRecords(recs, now)];
    }

    method ReplaceLinks(recs: seq<Record>, now: int) returns (switched: bool)
      requires Tidy(Value())
      modifies `paths, `links, `nextPath, `nextSerial
      ensures Value() == RecordsUpTo(timing, old(Value()), recs, |recs|, now)
      ensures switched <==> Any(MovesAt(timing, old(Value()), recs, now), |recs|)
    {
      ghost var was := Value();
      var done: map<Name, Link> := map[];
      switched := false;
      for k := 0 to |recs|
        invariant Value().(links := done) == RecordsUpTo(timing, was, recs, k, now)
        invariant links == was.links
        invariant switched <==> Any(MovesAt(timing, was, recs, now), k)
      {
        var moved;
        done, moved := SetRecord(recs, k, now, done, was);
        switched := switched || moved;
      }
      links := done;
    }

    method SetRecord(recs: seq<Record>, k: nat, now: int, done0: map<Name, Link>, ghost was: Mesh)
      returns (done: map<Name, Link>, switched: bool)
      requires Tidy(was) && k < |recs| && links == was.links
      requires Value().(links := done0) == RecordsUpTo(timing, was, recs, k, now)
      modifies `paths, `nextPath, `nextSerial
      ensures Value().(links := done) == RecordsUpTo(timing, was, recs, k + 1, now)
      ensures switched <==> RecordMoves(timing, was, recs, k, now)
    {
      RecordsAreTidy(timing, was, recs, k, now);
      SomeLinksTidy(was, RecordsUpTo(timing, was, recs, k, now));
      var l := SyncLink(recs[k]);
      var c;
      c, switched := ChooseLocked(l, now);
      done := done0[recs[k].name := c];
    }
  }

  ghost predicate Moves(t: Timing, paths: map<nat, Path>, l: Link, now: int) {
    !t.noLocal && Decision(t, paths, l, now).0 != l.cur
  }

  /** The links partway through a round's choices. */
  ghost predicate PartlyChosen(t: Timing, paths: map<nat, Path>, was: map<Name, Link>, links: map<Name, Link>, todo: set<Name>,
                               serials: set<nat>, now: int)
  {
    && links.Keys == was.Keys
    && (forall n :: n in was ==> links[n] == if n !in todo && was[n].serial in serials then Chosen(t, paths, was[n], now) else was[n])
  }

  ghost predicate SomeMoved(t: Timing, paths: map<nat, Path>, was: map<Name, Link>, todo: set<Name>, serials: set<nat>, now: int) {
    exists n :: n in was && n !in todo && was[n].serial in serials && Moves(t, paths, was[n], now)
  }

  lemma ChosenFurther(t: Timing, paths: map<nat, Path>, was: map<Name, Link>, links: map<Name, Link>, todo: set<Name>,
                      serials: set<nat>, now: int, n: Name, c: Link, moved: bool)
    requires PartlyChosen(t, paths, was, links, todo, serials, now) && n in todo && n in was
    requires c == if was[n].serial in serials then Chosen(t, paths, was[n], now) else was[n]
    requires moved <==> was[n].serial in serials && Moves(t, paths, was[n], now)
    ensures PartlyChosen(t, paths, was, links[n := c], todo - {n}, serials, now)
    ensures SomeMoved(t, paths, was, todo - {n}, serials, now) <==> SomeMoved(t, paths, was, todo, serials, now) || moved
  {
    if moved {
      assert n in was && n !in todo - {n};
    }
  }

  ghost function ChosenAll(t: Timing, paths: map<nat, Path>, links: map<Name, Link>, serials: set<nat>, now: int): map<Name, Link> {
    map n | n in links :: if links[n].serial in serials then Chosen(t, paths, links[n], now) else links[n]
  }

  /** The store with the unroutable ones of a round's first k pings forgotten. */
  ghost function Forgotten(paths: map<nat, Path>, b: Batch, k: nat): map<nat, Path>
    requires b.results.Some? && k <= |b.pings| == |b.results.value|
  {
    map i | i in paths ::
      if exists j :: 0 <= j < k && b.pings[j] == Ping(i, paths[i].nonce) && b.results.value[j].NoRoute?
      then paths[i].(nonce := 0) else paths[i]
  }

  lemma CarriersDiffer(links: map<Name, Link>, a: Name, b: Name)
    requires Unshared(links) && a in links && b in links && a != b && HasCur(links[a]) && HasCur(links[b])
    ensures links[a].paths[links[a].cur] != links[b].paths[links[b].cur]
  {
    assert links[a].paths[links[a].cur] in links[a].paths;
  }

  /** What a heartbeat's sends found, by path. */
  function Outcomes(jobs: seq<nat>, results: seq<SendResult>): map<nat, SendResult>
    requires |results| == |jobs|
  {
    map i | i in jobs && 0 <= IndexOf(jobs, i) < |results| :: results[IndexOf(jobs, i)]
  }

  lemma BeatsAreNoted(t: Timing, m: Mesh, e: Event, jobs: seq<nat>, results: seq<SendResult>)
    requires |results| == |jobs| && e == Event.BeatsSent(Outcomes(jobs, results))
    ensures Do(t, m, e) == m.(paths := Sent(m.paths, jobs, results))
  {
    var d := Do(t, m, e);
    forall i | i in m.paths
      ensures d.paths[i] == Sent(m.paths, jobs, results)[i]
    {
      IndexIsFound(jobs, i);
    }
    assert d.paths == Sent(m.paths, jobs, results);
    assert d.links == m.links;
  }

  ghost function Hurried(paths: map<nat, Path>, ids: seq<nat>): map<nat, Path> {
    map i | i in paths :: if i in ids && paths[i].nonce == 0 then paths[i].(pingedAt := 0) else paths[i]
  }

  lemma SilenceIsNoted(t: Timing, m: Mesh, n: Name, paths: map<nat, Path>)
    requires n in m.links && paths == Hurried(m.paths, m.links[n].paths)
    ensures Do(t, m, Silent(n)) == m.(paths := paths)
  {
    assert PathsNext(t, m, Silent(n)) == paths;
    assert Do(t, m, Silent(n)).links == m.links;
  }

  /** Whether a record's link switches. */
  ghost predicate RecordMoves(t: Timing, m: Mesh, recs: seq<Record>, k: nat, now: int)
    requires k < |recs|
  {
    var q := RecordQuestion(t, m, recs, k, now);
    Moves(t, q.paths, q.link, now)
  }

  /** Which of the records' links switch. */
  ghost function MovesAt(t: Timing, m: Mesh, recs: seq<Record>, now: int): int -> bool {
    k => 0 <= k < |recs| && RecordMoves(t, m, recs, k, now)
  }

  ghost predicate Any(p: int -> bool, k: nat) {
    k > 0 && (p(k - 1) || Any(p, k - 1))
  }

  lemma {:induction false} AnyIsSome(p: int -> bool, k: nat)
    ensures Any(p, k) <==> exists j :: 0 <= j < k && p(j)
  {
    if k > 0 {
      AnyIsSome(p, k - 1);
    }
  }

  lemma RecordSwitches(t: Timing, m: Mesh, e: Event, k: nat)
    requires e.SetRecords? && k < |e.recs| && k == RecordOf(e.recs, e.recs[k].name)
    ensures Switches(t, m, e, e.recs[k].name) <==> RecordMoves(t, m, e.recs, k, e.now)
  {
  }

  lemma RecordsSwitch(t: Timing, m: Mesh, e: Event)
    requires e.SetRecords? && forall i, j :: 0 <= i < j < |e.recs| ==> e.recs[i].name != e.recs[j].name
    ensures (exists n :: Switches(t, m, e, n)) <==> Any(MovesAt(t, m, e.recs, e.now), |e.recs|)
  {
    var p := MovesAt(t, m, e.recs, e.now);
    AnyIsSome(p, |e.recs|);
    forall n | Switches(t, m, e, n)
      ensures 0 <= RecordOf(e.recs, n) < |e.recs| && p(RecordOf(e.recs, n))
    {
      RecordIsFound(e.recs, n);
      RecordSwitches(t, m, e, RecordOf(e.recs, n));
    }
    forall k | 0 <= k < |e.recs| && p(k)
      ensures Switches(t, m, e, e.recs[k].name)
    {
      RecordIsFound(e.recs, e.recs[k].name);
      RecordSwitches(t, m, e, k);
    }
  }

  lemma OneAnAddress(paths: map<nat, Path>, ids: seq<nat>, k: nat, addr: string)
    requires TidyLink(paths, ids) && k < |ids| && paths[ids[k]].addr == addr
    ensures PlaceOf(paths, ids, addr) == Some(ids[k])
  {
    PlaceIsOurs(paths, ids, addr);
  }

  /** The links the records are matched against stay tidy as the store grows. */
  lemma SomeLinksTidy(m: Mesh, done: Mesh)
    requires Tidy(m) && Tidy(done) && Grows(m.paths, done.paths)
    ensures Tidy(done.(links := m.links))
  {
    forall n | n in m.links
      ensures TidyLink(done.paths, m.links[n].paths)
    {
      TidyLinkGrows(m.paths, done.paths, m.links[n].paths);
    }
  }

  lemma SendsAreNoted(t: Timing, m: Mesh, e: Event)
    requires e.CheckSent? && m.batch.Some? && |e.results| == |m.batch.value.pings|
    ensures Do(t, m, e) == m.(paths := Sent(m.paths, PingPaths(m.batch.value.pings), e.results),
                              batch := Some(m.batch.value.(results := Some(e.results))))
  {
    var d := Do(t, m, e);
    forall i | i in m.paths
      ensures d.paths[i] == Sent(m.paths, PingPaths(m.batch.value.pings), e.results)[i]
    {
      PingOfIsIndex(m.batch.value.pings, i);
    }
    assert d.paths == Sent(m.paths, PingPaths(m.batch.value.pings), e.results);
    assert d.links == m.links;
  }

  lemma RoundIsEnded(t: Timing, m: Mesh, e: Event, paths: map<nat, Path>)
    requires e.CheckEnd? && m.batch.Some? && m.batch.value.results.Some?
    requires Distinct(PingPaths(m.batch.value.pings)) && |m.batch.value.results.value| == |m.batch.value.pings|
    requires paths == Forgotten(m.paths, m.batch.value, |m.batch.value.pings|)
    ensures Do(t, m, e) == m.(paths := paths, batch := None,
                              links := ChosenAll(t, paths, m.links, m.batch.value.serials, m.batch.value.now))
    ensures forall n :: Switches(t, m, e, n) <==>
              n in m.links && m.links[n].serial in m.batch.value.serials && Moves(t, paths, m.links[n], m.batch.value.now)
  {
    var d, b := Do(t, m, e), m.batch.value;
    forall i | i in m.paths
      ensures PathNext(t, m, e, i) == paths[i]
    {
      EndedPath(b, m.paths, i);
    }
    assert PathsNext(t, m, e) == paths;
    assert d.links == ChosenAll(t, paths, m.links, b.serials, b.now);
  }

  lemma EndedPath(b: Batch, paths: map<nat, Path>, i: nat)
    requires b.results.Some? && Distinct(PingPaths(b.pings)) && |b.results.value| == |b.pings| && i in paths
    ensures OnEnd(b, paths[i], i) == Forgotten(paths, b, |b.pings|)[i]
  {
    PingOfIsIndex(b.pings, i);
    IndexIsFound(PingPaths(b.pings), i);
    forall j | 0 <= j < |b.pings| && b.pings[j].path == i
      ensures j == PingOf(b.pings, i)
    {
      PingIsFound(b.pings, j);
    }
  }

  function SerialsOf(links: map<Name, Link>): set<nat> {
    set n | n in links :: links[n].serial
  }

  lemma RoundIsBegun(t: Timing, m: Mesh, e: Event, paths: map<nat, Path>, seen: set<nat>)
    requires Tidy(m) && m.batch.None? && e.CheckBegin?
    requires SeenOf(m.links, {}, seen) && Begun(t, m.paths, paths, seen, e.order, m.nonce, e.now)
    ensures Can(t, m, e)
    ensures Do(t, m, e) == m.(paths := paths, nonce := m.nonce + |e.order|,
                              batch := Some(Batch(Pings(e.order, m.nonce), SerialsOf(m.links), e.now, None)))
  {
    forall i
      ensures i in seen <==> Linked(m, i)
    {
    }
    assert PathsNext(t, m, e) == paths;
    assert Do(t, m, e).links == m.links;
  }

  lemma SentStep(paths: map<nat, Path>, jobs: seq<nat>, results: seq<SendResult>, k: nat)
    requires Distinct(jobs) && k < |jobs| == |results| && jobs[k] in paths
    ensures Sent(paths, jobs[..k + 1], results) == Sent(paths, jobs[..k], results)[jobs[k] := Flagged(paths[jobs[k]], results[k])]
  {
    assert jobs[..k + 1][..k] == jobs[..k];
  }
}
