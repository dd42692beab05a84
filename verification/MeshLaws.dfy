/** What holds of the mesh links in every interleaving. */
module MeshLaws {
  import opened Requests
  import opened Paths
  import opened Mesh

  // ------------------------------------------------------------- the store

  lemma {:induction false} IndexIsFound(ids: seq<nat>, i: nat)
    ensures i in ids <==> IndexOf(ids, i) >= 0
    ensures IndexOf(ids, i) < |ids|
    ensures IndexOf(ids, i) >= 0 ==> ids[IndexOf(ids, i)] == i
    ensures IndexOf(ids, i) >= -1
  {
    if ids != [] {
      IndexIsFound(ids[..|ids| - 1], i);
      assert ids == ids[..|ids| - 1] + [ids[|ids| - 1]];
    }
  }

  lemma {:induction false} FilledKeeps(paths: map<nat, Path>, ids: seq<nat>, addrs: seq<string>, n: nat, next: nat)
    requires n <= |addrs| && forall i :: i in paths ==> i < next
    ensures var f := Filled(paths, ids, addrs, n, next);
            && (forall i :: i in paths ==> i in f && f[i] == paths[i])
            && (forall i :: i in f && i !in paths ==>
                  next <= i < next + n && f[i].nonce == 0 && f[i].fails == 0 && !f[i].noRoute && !f[i].deaf)
  {
    if n > 0 {
      FilledKeeps(paths, ids, addrs, n - 1, next);
    }
  }

  /** A step of SetRecords adds paths and changes none. */
  lemma {:induction false} RecordsKeepPaths(t: Timing, m: Mesh, recs: seq<Record>, n: nat, now: int)
    requires n <= |recs| && forall i :: i in m.paths ==> i < m.nextPath
    ensures var r := RecordsUpTo(t, m, recs, n, now);
            && (forall i :: i in m.paths ==> i in r.paths && r.paths[i] == m.paths[i])
            && (forall i :: i in r.paths && i !in m.paths ==>
                  r.paths[i].nonce == 0 && r.paths[i].fails == 0 && !r.paths[i].noRoute && !r.paths[i].deaf)
            && (forall i :: i in r.paths ==> i < r.nextPath)
            && r.nonce == m.nonce && r.batch == m.batch && m.nextPath <= r.nextPath
            && (forall i :: i in r.paths && i !in m.paths ==> m.nextPath <= i)
  {
    if n > 0 {
      RecordsKeepPaths(t, m, recs, n - 1, now);
      var done := RecordsUpTo(t, m, recs, n - 1, now);
      var from := done.(links := m.links);
      FilledKeeps(from.paths, if recs[n - 1].name in from.links then from.links[recs[n - 1].name].paths else [],
                  recs[n - 1].addrs, |recs[n - 1].addrs|, from.nextPath);
    }
  }

  // ---------------------------------------------------------------- nonces

  /** Outstanding nonces are issued ones, and no two paths share one. */
  ghost predicate Nonces(m: Mesh) {
    && (forall i :: i in m.paths ==> i < m.nextPath)
    && (forall i :: i in m.paths ==> m.paths[i].nonce <= m.nonce)
    && (forall i, j :: i in m.paths && j in m.paths && m.paths[i].nonce == m.paths[j].nonce && m.paths[i].nonce != 0 ==> i == j)
  }

  /** Outside a round of pings an event leaves a path's nonce or clears it. */
  lemma NonceNext(t: Timing, m: Mesh, e: Event, i: nat)
    requires i in m.paths
    ensures var p' := PathNext(t, m, e, i);
            || p'.nonce == m.paths[i].nonce
            || p'.nonce == 0
            || (e.CheckBegin? && i in e.order && p'.nonce == m.nonce + 1 + NatIndex(e.order, i))
    ensures e.CheckBegin? && i in e.order && Linked(m, i) ==> PathNext(t, m, e, i).nonce == m.nonce + 1 + NatIndex(e.order, i)
  {
  }

  lemma NoncesStep(t: Timing, m: Mesh, e: Event)
    requires Nonces(m) && Can(t, m, e)
    ensures Nonces(Do(t, m, e))
  {
    var m' := Do(t, m, e);
    if e.SetRecords? {
      RecordsKeepPaths(t, m, e.recs, |e.recs|, e.now);
    } else {
      forall i | i in m'.paths
        ensures m'.paths[i].nonce <= m'.nonce
      {
        NonceNext(t, m, e, i);
        if e.CheckBegin? { IndexIsFound(e.order, i); }
      }
      forall i, j | i in m'.paths && j in m'.paths && m'.paths[i].nonce == m'.paths[j].nonce && m'.paths[i].nonce != 0
        ensures i == j
      {
        NoncesApart(t, m, e, i, j);
      }
    }
  }

  lemma NoncesApart(t: Timing, m: Mesh, e: Event, i: nat, j: nat)
    requires Nonces(m) && Can(t, m, e) && i in m.paths && j in m.paths
    requires PathNext(t, m, e, i).nonce == PathNext(t, m, e, j).nonce != 0
    ensures i == j
  {
    NonceNext(t, m, e, i);
    NonceNext(t, m, e, j);
    if e.CheckBegin? {
      IndexIsFound(e.order, i);
      IndexIsFound(e.order, j);
    }
  }

  /** In every run outstanding nonces across all links are distinct and at most
      the counter. */
  lemma {:induction false} NoncesHold(t: Timing, es: seq<Event>)
    requires Possible(t, es)
    ensures Nonces(Run(t, es))
  {
    if |es| > 0 {
      NoncesHold(t, es[..|es| - 1]);
      NoncesStep(t, Run(t, es[..|es| - 1]), es[|es| - 1]);
    }
  }

  /** A pong credits at most one path of all links, whichever link it came from. */
  lemma PongCreditsOnePath(t: Timing, es: seq<Event>, nonce: nat, i: nat, j: nat)
    requires Possible(t, es)
    requires var m := Run(t, es); i in m.paths && j in m.paths && Matches(m.paths[i], nonce) && Matches(m.paths[j], nonce)
    ensures i == j
  {
    NoncesHold(t, es);
  }

  // ---------------------------------------------------------------- losses

  /** The event shows the path delivers: an authenticated datagram from its
      address, or a pong to its ping. */
  ghost predicate Contacts(m: Mesh, e: Event, i: nat) {
    e.Datagram? && Has(m, e.name, i) && i in m.paths
    && (m.paths[i].addr == e.from || (e.msg.PongMsg? && Matches(m.paths[i], e.msg.nonce)))
  }

  /** The event finds the path's ping unanswered for PathTimeout. */
  ghost predicate Loses(t: Timing, m: Mesh, e: Event, i: nat) {
    e.CheckBegin? && Linked(m, i) && i in m.paths && Expires(t, m.paths[i], e.now)
  }

  lemma FailsNext(t: Timing, m: Mesh, e: Event, i: nat)
    requires i in m.paths
    ensures PathNext(t, m, e, i).fails ==
            if Contacts(m, e, i) then 0 else m.paths[i].fails + if Loses(t, m, e, i) then 1 else 0
  {
  }

  // ----------------------------------------------------------------- flags

  /** What one send proves of a route: an unknown error proves nothing. */
  function Proves(r: SendResult): Option<bool> {
    match r
    case Delivered => Some(false)
    case NoRoute => Some(true)
    case OtherError => None
  }

  /** What an event proves of path i's route, true for no route: its own send's
      outcome, or a pong to its ping. */
  ghost function RouteProof(m: Mesh, e: Event, i: nat): Option<bool>
    requires i in m.paths
  {
    match e
    case Datagram(n, _, msg, _) => if Has(m, n, i) && msg.PongMsg? && Matches(m.paths[i], msg.nonce) then Some(false) else None
    case CheckSent(results) =>
      var k := if m.batch.Some? then PingOf(m.batch.value.pings, i) else -1;
      if 0 <= k < |results| then Proves(results[k]) else None
    case BeatsSent(outcomes) => if i in outcomes then Proves(outcomes[i]) else None
    case _ => None
  }

  /** What an event proves of path i being deaf: a peer's report while it carries
      the heartbeats, which outweighs a pong in the same datagram. */
  ghost function DeafProof(t: Timing, m: Mesh, e: Event, i: nat): Option<bool>
    requires i in m.paths
  {
    if !e.Datagram? || !Has(m, e.name, i) then None
    else if !Stops(m, e.name, e.msg) && FoundDeaf(t, m.links[e.name], i, e.msg, e.now) then Some(true)
    else if e.msg.PongMsg? && Matches(m.paths[i], e.msg.nonce) then Some(false)
    else None
  }

  lemma FlagsNext(t: Timing, m: Mesh, e: Event, i: nat)
    requires i in m.paths
    ensures PathNext(t, m, e, i).noRoute ==
            if RouteProof(m, e, i).Some? then RouteProof(m, e, i).value else m.paths[i].noRoute
    ensures PathNext(t, m, e, i).deaf ==
            if DeafProof(t, m, e, i).Some? then DeafProof(t, m, e, i).value else m.paths[i].deaf
  {
  }

  // ------------------------------------------------------- unroutable pings

  /** The nonces of pings whose send found no route, over the whole history. */
  ghost function Unroutable(t: Timing, es: seq<Event>): set<nat> {
    if |es| == 0 then {}
    else
      var m, e := Run(t, es[..|es| - 1]), es[|es| - 1];
      Unroutable(t, es[..|es| - 1]) + NewlyUnroutable(m, e)
  }

  function PingPaths(pings: seq<Ping>): (r: seq<nat>)
    ensures |r| == |pings| && forall k :: 0 <= k < |pings| ==> r[k] == pings[k].path
  {
    seq(|pings|, k requires 0 <= k < |pings| => pings[k].path)
  }

  /** A round's pings: one a path, and each nonce only its own path's. */
  ghost predicate Round(m: Mesh, b: Batch) {
    && Distinct(PingPaths(b.pings))
    && (b.results.Some? ==> |b.results.value| == |b.pings|)
    && (forall k :: 0 <= k < |b.pings| ==> 0 < b.pings[k].nonce <= m.nonce)
    && (forall i, k :: i in m.paths && 0 <= k < |b.pings| ==>
          (m.paths[i].nonce == b.pings[k].nonce ==> i == b.pings[k].path))
  }

  /** The round in progress found path i's outstanding ping unroutable. */
  ghost predicate Refused(m: Mesh, i: nat)
    requires i in m.paths
  {
    m.batch.Some? && m.batch.value.results.Some? &&
    exists k :: 0 <= k < |m.batch.value.pings| && k < |m.batch.value.results.value|
      && m.batch.value.pings[k] == Ping(i, m.paths[i].nonce) && m.batch.value.results.value[k].NoRoute?
  }

  ghost predicate RoundHolds(m: Mesh, unroutable: set<nat>) {
    && (forall n :: n in unroutable ==> n <= m.nonce)
    && (m.batch.Some? ==> Round(m, m.batch.value))
    && (forall i :: i in m.paths && m.paths[i].nonce != 0 && m.paths[i].nonce in unroutable ==> Refused(m, i))
  }

  ghost function NewlyUnroutable(m: Mesh, e: Event): set<nat> {
    if e.CheckSent? && m.batch.Some?
    then set k | 0 <= k < |e.results| && k < |m.batch.value.pings| && e.results[k].NoRoute? :: m.batch.value.pings[k].nonce
    else {}
  }

  lemma {:induction false} PingIsFound(pings: seq<Ping>, k: nat)
    requires k < |pings| && Distinct(PingPaths(pings))
    ensures PingOf(pings, pings[k].path) == k
  {
    var last := |pings| - 1;
    if k < last {
      assert PingPaths(pings)[k] != PingPaths(pings)[last];
      var front := pings[..last];
      forall i, j | 0 <= i < j < |front|
        ensures PingPaths(front)[i] != PingPaths(front)[j]
      {
        assert PingPaths(pings)[i] != PingPaths(pings)[j];
      }
      PingIsFound(front, k);
    }
  }

  lemma {:induction false} PingOfIsIndex(pings: seq<Ping>, i: nat)
    ensures PingOf(pings, i) == IndexOf(PingPaths(pings), i)
  {
    if pings != [] {
      PingOfIsIndex(pings[..|pings| - 1], i);
      assert PingPaths(pings)[..|pings| - 1] == PingPaths(pings[..|pings| - 1]);
    }
  }

  lemma BeginRound(t: Timing, m: Mesh, e: Event, unroutable: set<nat>)
    requires Nonces(m) && Can(t, m, e) && e.CheckBegin? && RoundHolds(m, unroutable)
    ensures RoundHolds(Do(t, m, e), unroutable)
  {
    var m' := Do(t, m, e);
    var b := m'.batch.value;
    assert PingPaths(b.pings) == e.order;
    forall i | i in m'.paths
      ensures m'.paths[i].nonce != 0 ==> m'.paths[i].nonce !in unroutable
      ensures forall k :: 0 <= k < |b.pings| ==> (m'.paths[i].nonce == b.pings[k].nonce ==> i == b.pings[k].path)
    {
      NonceNext(t, m, e, i);
      IndexIsFound(e.order, i);
    }
  }

  /** Outside the first section a nonce stays or is cleared. */
  lemma NonceStaysOrClears(t: Timing, m: Mesh, e: Event, i: nat)
    requires Nonces(m) && Can(t, m, e) && !e.CheckBegin? && i in Do(t, m, e).paths
    ensures Do(t, m, e).paths[i].nonce == 0 || (i in m.paths && Do(t, m, e).paths[i].nonce == m.paths[i].nonce)
    ensures Do(t, m, e).nonce == m.nonce
  {
    if e.SetRecords? {
      RecordsKeepPaths(t, m, e.recs, |e.recs|, e.now);
    } else {
      NonceNext(t, m, e, i);
    }
  }

  lemma QuietRound(t: Timing, m: Mesh, e: Event, unroutable: set<nat>)
    requires Nonces(m) && Can(t, m, e) && RoundHolds(m, unroutable)
    requires !e.CheckBegin? && !e.CheckSent? && !e.CheckEnd?
    ensures RoundHolds(Do(t, m, e), unroutable)
  {
    var m' := Do(t, m, e);
    if e.SetRecords? {
      RecordsKeepPaths(t, m, e.recs, |e.recs|, e.now);
    }
    assert m'.batch == m.batch;
    forall i | i in m'.paths
      ensures m'.paths[i].nonce == 0 || (i in m.paths && m'.paths[i].nonce == m.paths[i].nonce)
    {
      NonceStaysOrClears(t, m, e, i);
    }
    RoundCarries(m, m', unroutable);
  }

  lemma RoundCarries(m: Mesh, m': Mesh, unroutable: set<nat>)
    requires RoundHolds(m, unroutable) && m'.batch == m.batch && m'.nonce == m.nonce
    requires forall i :: i in m'.paths ==> m'.paths[i].nonce == 0 || (i in m.paths && m'.paths[i].nonce == m.paths[i].nonce)
    ensures RoundHolds(m', unroutable)
  {
    forall i | i in m'.paths && m'.paths[i].nonce != 0 && m'.paths[i].nonce in unroutable
      ensures Refused(m', i)
    {
      assert Refused(m, i);
    }
  }

  lemma SentRound(t: Timing, m: Mesh, e: Event, unroutable: set<nat>)
    requires Nonces(m) && Can(t, m, e) && RoundHolds(m, unroutable) && e.CheckSent?
    ensures RoundHolds(Do(t, m, e), unroutable + NewlyUnroutable(m, e))
  {
    var m', b := Do(t, m, e), m.batch.value;
    assert forall i :: i in m.paths && m.paths[i].nonce != 0 ==> m.paths[i].nonce !in unroutable;
    forall i | i in m'.paths
      ensures i in m.paths && (m'.paths[i].nonce == 0 || m'.paths[i].nonce == m.paths[i].nonce)
      ensures m'.paths[i].nonce != 0 && m'.paths[i].nonce in unroutable + NewlyUnroutable(m, e) ==> Refused(m', i)
    {
      NonceStaysOrClears(t, m, e, i);
      if m'.paths[i].nonce != 0 && m'.paths[i].nonce in NewlyUnroutable(m, e) {
        var k :| 0 <= k < |e.results| && e.results[k].NoRoute? && b.pings[k].nonce == m'.paths[i].nonce;
        assert m'.batch.value.pings[k] == Ping(i, m'.paths[i].nonce);
      }
    }
  }

  lemma EndRound(t: Timing, m: Mesh, e: Event, unroutable: set<nat>)
    requires Nonces(m) && Can(t, m, e) && RoundHolds(m, unroutable) && e.CheckEnd?
    ensures RoundHolds(Do(t, m, e), unroutable)
  {
    var m', b := Do(t, m, e), m.batch.value;
    forall i | i in m'.paths
      ensures m'.paths[i].nonce != 0 ==> m'.paths[i].nonce !in unroutable
    {
      NonceStaysOrClears(t, m, e, i);
      if m.paths[i].nonce != 0 && m.paths[i].nonce in unroutable {
        assert Refused(m, i);
        var k :| 0 <= k < |b.pings| && b.pings[k] == Ping(i, m.paths[i].nonce) && b.results.value[k].NoRoute?;
        PingIsFound(b.pings, k);
        assert m'.paths[i].nonce == 0;
      }
    }
  }

  lemma {:induction false} RoundsHold(t: Timing, es: seq<Event>)
    requires Possible(t, es)
    ensures RoundHolds(Run(t, es), Unroutable(t, es))
  {
    if |es| > 0 {
      var front, e := es[..|es| - 1], es[|es| - 1];
      var m := Run(t, front);
      RoundsHold(t, front);
      NoncesHold(t, front);
      if e.CheckBegin? {
        BeginRound(t, m, e, Unroutable(t, front));
      } else if e.CheckSent? {
        SentRound(t, m, e, Unroutable(t, front));
      } else if e.CheckEnd? {
        EndRound(t, m, e, Unroutable(t, front));
      } else {
        QuietRound(t, m, e, Unroutable(t, front));
      }
      if !e.CheckSent? {
        assert Unroutable(t, es) == Unroutable(t, front);
      }
    }
  }

  /** A ping that never left for want of a route is never counted as a loss,
      whatever runs between its send and its round's last section. */
  lemma LostPingsHadARoute(t: Timing, es: seq<Event>, e: Event, i: nat)
    requires Possible(t, es) && Can(t, Run(t, es), e) && Loses(t, Run(t, es), e, i)
    ensures Run(t, es).paths[i].nonce !in Unroutable(t, es)
  {
    RoundsHold(t, es);
  }

  // --------------------------------------------------------------- choices

  /** The indices of links are in range. */
  ghost predicate InRange(m: Mesh) {
    forall n :: n in m.links ==> -1 <= m.links[n].cur < |m.links[n].paths|
  }

  lemma SyncedInRange(m: Mesh, r: Record)
    requires InRange(m)
    ensures -1 <= SyncedLink(m, r).cur < |SyncedLink(m, r).paths|
  {
    var l := SyncedLink(m, r);
    if r.name in m.links && HasCur(m.links[r.name]) {
      IndexIsFound(l.paths, m.links[r.name].paths[m.links[r.name].cur]);
    }
  }

  lemma {:induction false} RecordsInRange(t: Timing, m: Mesh, recs: seq<Record>, n: nat, now: int)
    requires n <= |recs| && InRange(m)
    ensures InRange(RecordsUpTo(t, m, recs, n, now))
  {
    if n > 0 {
      RecordsInRange(t, m, recs, n - 1, now);
      SyncedInRange(RecordsUpTo(t, m, recs, n - 1, now).(links := m.links), recs[n - 1]);
    }
  }

  lemma LinkInRange(t: Timing, m: Mesh, paths: map<nat, Path>, e: Event, n: Name)
    requires n in m.links && -1 <= m.links[n].cur < |m.links[n].paths|
    ensures -1 <= LinkNext(t, m, paths, e, n).cur < |LinkNext(t, m, paths, e, n).paths|
  {
  }

  lemma InRangeStep(t: Timing, m: Mesh, e: Event)
    requires InRange(m)
    ensures InRange(Do(t, m, e))
  {
    if e.SetRecords? {
      RecordsInRange(t, m, e.recs, |e.recs|, e.now);
    } else {
      forall n | n in m.links
        ensures -1 <= Do(t, m, e).links[n].cur < |Do(t, m, e).links[n].paths|
      {
        LinkInRange(t, m, PathsNext(t, m, e), e, n);
      }
    }
  }

  lemma {:induction false} IndicesHold(t: Timing, es: seq<Event>)
    requires Possible(t, es)
    ensures InRange(Run(t, es))
  {
    if |es| > 0 {
      IndicesHold(t, es[..|es| - 1]);
      InRangeStep(t, Run(t, es[..|es| - 1]), es[|es| - 1]);
    }
  }

  /** After every choice on a node the link's index is -1 if and only if none of
      its paths is alive, and otherwise names an alive one. */
  lemma ChoiceNamesAnAlivePath(t: Timing, paths: map<nat, Path>, l: Link, now: int)
    requires !t.noLocal && -1 <= l.cur < |l.paths|
    ensures var c := Chosen(t, paths, l, now).cur;
            if c < 0 then c == -1 && forall k :: 0 <= k < |l.paths| ==> !StatAt(paths, l.paths[k]).alive
            else c < |l.paths| && StatAt(paths, l.paths[c]).alive
  {
    ChoiceIsAlive(t.probeInterval, now, Stats(paths, l.paths), l.cur, l.switchedAt);
  }

  /** The place of a link's record, -1 when it has none. */
  function RecordOf(recs: seq<Record>, n: Name): int {
    if recs == [] then -1
    else if recs[|recs| - 1].name == n then |recs| - 1
    else RecordOf(recs[..|recs| - 1], n)
  }

  /** What the policy is asked about: a link, the paths as they are, an instant. */
  datatype Question = Question(link: Link, paths: map<nat, Path>, now: int)

  ghost function RecordQuestion(t: Timing, m: Mesh, recs: seq<Record>, k: nat, now: int): Question
    requires k < |recs|
  {
    var from := RecordsUpTo(t, m, recs, k, now).(links := m.links);
    Question(SyncedLink(from, recs[k]), SyncedPaths(from, recs[k]), now)
  }

  /** Whether an event asks the policy about link n. */
  ghost function Asks(t: Timing, m: Mesh, e: Event, n: Name): Option<Question> {
    match e
    case SetRecords(recs, now) =>
      if 0 <= RecordOf(recs, n) < |recs| then Some(RecordQuestion(t, m, recs, RecordOf(recs, n), now)) else None
    case Datagram(k, _, msg, now) =>
      if k == n && n in m.links && !Stops(m, n, msg) then Some(Question(m.links[n], PathsNext(t, m, e), now)) else None
    case CheckEnd =>
      if n in m.links && m.batch.Some? && m.links[n].serial in m.batch.value.serials
      then Some(Question(m.links[n], PathsNext(t, m, e), m.batch.value.now)) else None
    case _ => None
  }

  ghost function Answer(t: Timing, q: Question): (int, Reason) {
    Decision(t, q.paths, q.link, q.now)
  }

  /** Whether an event switches link n. */
  ghost predicate Switches(t: Timing, m: Mesh, e: Event, n: Name) {
    Asks(t, m, e, n).Some? && !t.noLocal && Answer(t, Asks(t, m, e, n).value).0 != Asks(t, m, e, n).value.link.cur
  }

  /** The instant of the last switch of the link now under name n, from the whole
      history: 0 when it has not switched since its record appeared. */
  ghost function LastSwitch(t: Timing, es: seq<Event>, n: Name): int {
    if |es| == 0 then 0
    else
      var m, e := Run(t, es[..|es| - 1]), es[|es| - 1];
      if Switches(t, m, e, n) then Asks(t, m, e, n).value.now
      else if n !in m.links then 0
      else LastSwitch(t, es[..|es| - 1], n)
  }

  lemma {:induction false} RecordIsFound(recs: seq<Record>, n: Name)
    ensures -1 <= RecordOf(recs, n) < |recs|
    ensures RecordOf(recs, n) >= 0 ==> recs[RecordOf(recs, n)].name == n
    ensures forall k :: RecordOf(recs, n) < k < |recs| ==> recs[k].name != n
  {
    if recs != [] && recs[|recs| - 1].name != n {
      RecordIsFound(recs[..|recs| - 1], n);
    }
  }

  ghost function RecordAnswer(t: Timing, m: Mesh, recs: seq<Record>, k: nat, now: int): Link
    requires k < |recs|
  {
    WithRecord(t, m, RecordsUpTo(t, m, recs, k, now), recs[k], now).links[recs[k].name]
  }

  lemma RecordAnswers(t: Timing, m: Mesh, recs: seq<Record>, k: nat, now: int)
    requires k < |recs|
    ensures var q := RecordQuestion(t, m, recs, k, now); RecordAnswer(t, m, recs, k, now) == Chosen(t, q.paths, q.link, now)
  {
  }

  lemma WithRecordLinks(t: Timing, m: Mesh, done: Mesh, r: Record, now: int, links: map<Name, Link>)
    requires links == WithRecord(t, m, done, r, now).links
    ensures links == done.links[r.name := links[r.name]]
  {
  }

  /** The links after k records are those the k records name. */
  lemma {:induction false} RecordsLinkNames(t: Timing, m: Mesh, recs: seq<Record>, k: nat, now: int, n: Name)
    requires k <= |recs| && n in RecordsUpTo(t, m, recs, k, now).links
    ensures exists j :: 0 <= j < k && recs[j].name == n
  {
    if k > 0 {
      var done := RecordsUpTo(t, m, recs, k - 1, now);
      WithRecordLinks(t, m, done, recs[k - 1], now, RecordsUpTo(t, m, recs, k, now).links);
      if n in done.links {
        RecordsLinkNames(t, m, recs, k - 1, now, n);
      } else {
        assert recs[k - 1].name == n;
      }
    }
  }

  /** A record's link is not touched by the records after it. */
  lemma {:induction false} RecordsLinkStays(t: Timing, m: Mesh, recs: seq<Record>, j: nat, k: nat, now: int)
    requires j < k <= |recs| && forall i :: j < i < k ==> recs[i].name != recs[j].name
    ensures recs[j].name in RecordsUpTo(t, m, recs, k, now).links
    ensures RecordsUpTo(t, m, recs, k, now).links[recs[j].name] == RecordAnswer(t, m, recs, j, now)
  {
    if j < k - 1 {
      var done := RecordsUpTo(t, m, recs, k - 1, now);
      RecordsLinkStays(t, m, recs, j, k - 1, now);
      WithRecordLinks(t, m, done, recs[k - 1], now, RecordsUpTo(t, m, recs, k, now).links);
    }
  }

  /** SetRecords leaves the link of a record as its question was answered. */
  lemma RecordsLink(t: Timing, m: Mesh, recs: seq<Record>, now: int, n: Name)
    requires n in RecordsUpTo(t, m, recs, |recs|, now).links
    ensures 0 <= RecordOf(recs, n) < |recs|
    ensures var q := RecordQuestion(t, m, recs, RecordOf(recs, n), now);
            RecordsUpTo(t, m, recs, |recs|, now).links[n] == Chosen(t, q.paths, q.link, now)
  {
    RecordIsFound(recs, n);
    RecordsLinkNames(t, m, recs, |recs|, now, n);
    RecordsLinkStays(t, m, recs, RecordOf(recs, n), |recs|, now);
    RecordAnswers(t, m, recs, RecordOf(recs, n), now);
  }

  lemma {:induction false} SwitchedNext(t: Timing, m: Mesh, e: Event, n: Name)
    requires Can(t, m, e) && n in Do(t, m, e).links
    ensures Switches(t, m, e, n) ==> Do(t, m, e).links[n].switchedAt == Asks(t, m, e, n).value.now
    ensures !Switches(t, m, e, n) ==> Do(t, m, e).links[n].switchedAt == if n in m.links then m.links[n].switchedAt else 0
  {
    if e.SetRecords? {
      RecordsLink(t, m, e.recs, e.now, n);
      RecordIsFound(e.recs, n);
    }
  }

  /** A link remembers its last switch in every run. */
  lemma {:induction false} SwitchedAtIsLast(t: Timing, es: seq<Event>, n: Name)
    requires Possible(t, es) && n in Run(t, es).links
    ensures Run(t, es).links[n].switchedAt == LastSwitch(t, es, n)
  {
    if |es| > 0 {
      var front, e := es[..|es| - 1], es[|es| - 1];
      SwitchedNext(t, Run(t, front), e, n);
      if n in Run(t, front).links {
        SwitchedAtIsLast(t, front, n);
      }
    }
  }

  lemma QuestionInRange(t: Timing, m: Mesh, e: Event, n: Name)
    requires InRange(m) && Asks(t, m, e, n).Some?
    ensures var q := Asks(t, m, e, n).value;
            -1 <= q.link.cur < |q.link.paths|
            && (HasCur(q.link) ==> n in m.links && q.link.switchedAt == m.links[n].switchedAt)
  {
    if e.SetRecords? {
      var k := RecordOf(e.recs, n);
      RecordIsFound(e.recs, n);
      SyncedInRange(RecordsUpTo(t, m, e.recs, k, e.now).(links := m.links), e.recs[k]);
    }
  }

  /** The policy is to be asked about a link by every new record of it, by every probe
      that is a ping or a pong to an outstanding ping of the link, and at the end of
      every round it was there for. */
  ghost predicate ToBeAsked(m: Mesh, e: Event, n: Name) {
    match e
    case SetRecords(recs, _) => exists k :: 0 <= k < |recs| && recs[k].name == n
    case Datagram(k, _, msg, _) =>
      k == n && n in m.links
      && (msg.PingMsg?
          || (msg.PongMsg? && msg.nonce != 0 && exists i :: i in m.links[n].paths && i in m.paths && m.paths[i].nonce == msg.nonce))
    case CheckEnd => n in m.links && m.batch.Some? && m.links[n].serial in m.batch.value.serials
    case _ => false
  }

  /** Then, and only then, the link takes the policy's answer. */
  lemma AnswersAreTaken(t: Timing, m: Mesh, e: Event, n: Name)
    requires Can(t, m, e) && n in Do(t, m, e).links
    ensures Asks(t, m, e, n).Some? <==> ToBeAsked(m, e, n)
    ensures var l := Do(t, m, e).links[n];
            if ToBeAsked(m, e, n) then var q := Asks(t, m, e, n).value; l.cur == if t.noLocal then q.link.cur else Answer(t, q).0
            else n in m.links && l.cur == m.links[n].cur
  {
    if e.SetRecords? {
      RecordsLink(t, m, e.recs, e.now, n);
      RecordIsFound(e.recs, n);
    }
  }

  /** A round's pings are its order, with the nonces after the counter, and its links
      all there are. */
  lemma RoundTakesAllLinks(t: Timing, m: Mesh, order: seq<nat>, now: int)
    ensures var b := Do(t, m, CheckBegin(order, now)).batch;
            && b.Some? && b.value.now == now && b.value.results.None?
            && PingPaths(b.value.pings) == order
            && (forall k :: 0 <= k < |order| ==> b.value.pings[k].nonce == m.nonce + 1 + k)
            && (forall s :: s in b.value.serials <==> exists n :: n in m.links && m.links[n].serial == s)
  {
  }

  /** Serials are numbered as links appear. */
  ghost predicate SerialsIssued(m: Mesh) {
    && (forall n :: n in m.links ==> m.links[n].serial < m.nextSerial)
    && (m.batch.Some? ==> forall s :: s in m.batch.value.serials ==> s < m.nextSerial)
  }

  lemma {:induction false} RecordsIssueSerials(t: Timing, m: Mesh, recs: seq<Record>, k: nat, now: int)
    requires k <= |recs|
    ensures var r := RecordsUpTo(t, m, recs, k, now);
            && m.nextSerial <= r.nextSerial && r.batch == m.batch
            && forall n :: n in r.links ==>
                 if n in m.links then r.links[n].serial == m.links[n].serial else m.nextSerial <= r.links[n].serial < r.nextSerial
  {
    if k > 0 {
      RecordsIssueSerials(t, m, recs, k - 1, now);
      WithRecordLinks(t, m, RecordsUpTo(t, m, recs, k - 1, now), recs[k - 1], now, RecordsUpTo(t, m, recs, k, now).links);
    }
  }

  lemma {:induction false} SerialsHold(t: Timing, es: seq<Event>)
    requires Possible(t, es)
    ensures SerialsIssued(Run(t, es))
  {
    if |es| > 0 {
      var front, e := es[..|es| - 1], es[|es| - 1];
      SerialsHold(t, front);
      SerialsStep(t, Run(t, front), e);
    }
  }

  lemma SerialsStep(t: Timing, m: Mesh, e: Event)
    requires SerialsIssued(m)
    ensures SerialsIssued(Do(t, m, e))
  {
    if e.SetRecords? {
      RecordsIssueSerials(t, m, e.recs, |e.recs|, e.now);
    } else {
      forall n | n in m.links
        ensures Do(t, m, e).links[n].serial == m.links[n].serial
      {
      }
    }
  }

  /** In every run a link that appears while a round is out is not one of the round's:
      its end does not ask about it. */
  lemma LateLinksAreNotAsked(t: Timing, es: seq<Event>, recs: seq<Record>, now: int, n: Name)
    requires Possible(t, es) && n !in Run(t, es).links && Run(t, es).batch.Some?
    requires n in Do(t, Run(t, es), SetRecords(recs, now)).links
    ensures var m := Do(t, Run(t, es), SetRecords(recs, now)); !ToBeAsked(m, CheckEnd, n)
  {
    SerialsHold(t, es);
    RecordsIssueSerials(t, Run(t, es), recs, |recs|, now);
  }

  /** Outside new records an event switches a link exactly when it changes its path. */
  lemma SwitchIsSeen(t: Timing, m: Mesh, e: Event, n: Name)
    requires Can(t, m, e) && !e.SetRecords? && n in m.links
    ensures Switches(t, m, e, n) <==> Do(t, m, e).links[n].cur != m.links[n].cur
    ensures !t.noLocal || Do(t, m, e).links[n].cur == m.links[n].cur
  {
  }

  /** Over every run on a node: when the policy is asked about a link, one whose path
      does not work goes to the best alive path, and one whose path works goes to
      the best exactly when that is a quarter faster and the link's previous switch,
      whatever made it, two probe intervals ago. */
  lemma SwitchesAreJustified(t: Timing, es: seq<Event>, e: Event, n: Name)
    requires Possible(t, es) && Can(t, Run(t, es), e) && !t.noLocal && Asks(t, Run(t, es), e, n).Some?
    ensures var q := Asks(t, Run(t, es), e, n).value;
            var stats, was, (to, reason) := Stats(q.paths, q.link.paths), q.link.cur, Answer(t, q);
            && (Switches(t, Run(t, es), e, n) <==> to != was)
            && if !Works(stats, was) then IsBest(stats, |stats|, to)
               else if Outrun(t.probeInterval, q.now, stats, was, LastSwitch(t, es, n)) then IsBest(stats, |stats|, to) && to != was
               else to == was
  {
    IndicesHold(t, es);
    QuestionInRange(t, Run(t, es), e, n);
    var q := Asks(t, Run(t, es), e, n).value;
    if HasCur(q.link) {
      SwitchedAtIsLast(t, es, n);
    }
    DecisionAnswers(t.probeInterval, q.now, Stats(q.paths, q.link.paths), q.link.cur, q.link.switchedAt);
  }

  /** A pong moves a measured rtt a fifth of the way to its sample, rounded down. */
  lemma SmoothedMovesAFifth(rtt: int, sample: int)
    requires rtt > 0 && sample >= 0
    ensures 5 * (Smoothed(rtt, sample) - rtt) <= sample - rtt < 5 * (Smoothed(rtt, sample) - rtt) + 5
    ensures if rtt <= sample then rtt <= Smoothed(rtt, sample) <= sample else sample <= Smoothed(rtt, sample) <= rtt
  {
    var s := Smoothed(rtt, sample);
    assert s as real <= 0.8 * rtt as real + 0.2 * sample as real < s as real + 1.0;
    assert (5 * s) as real <= (4 * rtt + sample) as real < (5 * s + 5) as real;
  }
}
