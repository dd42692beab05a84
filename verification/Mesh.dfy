/** The mesh links of internal/app/directory.go as a state machine. One event is
    one section under Directory.mu, so checkPaths is three: the pings are
    collected, their send results recorded, and unroutable pings forgotten, with
    any other event in between. A path keeps its identity in a store, as the
    pointers a ping in flight holds do, even once its link has dropped it. */
module Mesh {
  import opened Requests
  import opened Paths

  const MILLISECOND: int := 1_000_000

  datatype Timing = Timing(keepAlive: int, probeInterval: int, timeout: int, noLocal: bool)

  /** What is measured about one address of a link. */
  datatype Path = Path(
    addr: string,
    rtt: int,
    pingedAt: int,
    pongedAt: int,
    lastSeen: int,
    nonce: nat,
    fails: nat,
    noRoute: bool,
    deaf: bool)
  {
    predicate Alive() {
      !noRoute && !deaf && fails < PATH_FAILURES
    }

    function Stat(): PathStat {
      PathStat(addr, rtt, Alive(), deaf)
    }
  }

  function NewPath(addr: string): Path {
    Path(addr, 0, 0, 0, 0, 0, 0, false, false)
  }

  datatype Name = PeerLink(id: string) | BalancerLink(id: string)

  /** One peer's addresses, by their paths' places in the store. The serial tells
      a link from a later one under the same name. */
  datatype Link = Link(serial: nat, paths: seq<nat>, cur: int, switchedAt: int, heardAt: int)

  datatype Record = Record(name: Name, addrs: seq<string>)

  datatype SendResult = Delivered | NoRoute | OtherError

  datatype Ping = Ping(path: nat, nonce: nat)

  /** A round of checkPaths between its first section and its last. */
  datatype Batch = Batch(pings: seq<Ping>, serials: set<nat>, now: int, results: Option<seq<SendResult>>)

  datatype Mesh = Mesh(
    paths: map<nat, Path>,
    links: map<Name, Link>,
    nonce: nat,
    nextPath: nat,
    nextSerial: nat,
    batch: Option<Batch>)

  function Start(): Mesh {
    Mesh(map[], map[], 0, 0, 0, None)
  }

  /** An authenticated datagram's content: a probe carries how long ago its
      sender last heard a heartbeat, -1 for never. */
  datatype Message = PingMsg(nonce: nat, heardMS: int) | PongMsg(nonce: nat, heardMS: int) | Beat

  datatype Event =
    | SetRecords(recs: seq<Record>, now: int)
    | Datagram(name: Name, from: string, msg: Message, now: int)
    | CheckBegin(order: seq<nat>, now: int)
    | CheckSent(results: seq<SendResult>)
    | CheckEnd
    | BeatsSent(outcomes: map<nat, SendResult>)
    | Silent(name: Name)

  // --------------------------------------------------------------- one path

  function Heard(p: Path, from: string, now: int): Path {
    if p.addr == from then p.(lastSeen := now, fails := 0) else p
  }

  predicate Matches(p: Path, nonce: nat) {
    p.nonce != 0 && p.nonce == nonce
  }

  function Smoothed(rtt: int, sample: int): int {
    if rtt == 0 then sample else (0.8 * rtt as real + 0.2 * sample as real).Floor
  }

  function Ponged(p: Path, nonce: nat, now: int): Path {
    if Matches(p, nonce) then
      p.(rtt := Smoothed(p.rtt, now - p.pingedAt), nonce := 0, pongedAt := now, fails := 0, deaf := false, noRoute := false)
    else p
  }

  predicate Expires(t: Timing, p: Path, now: int) {
    p.nonce != 0 && now - p.pingedAt >= t.timeout
  }

  function Expired(t: Timing, p: Path, now: int): Path {
    if Expires(t, p, now) then p.(nonce := 0, fails := p.fails + 1) else p
  }

  /** Whether a path is pinged on this tick, its outstanding ping judged first. */
  predicate Due(t: Timing, p: Path, now: int) {
    var q := Expired(t, p, now);
    var answered := q.pongedAt >= q.pingedAt;
    var interval := if answered || q.fails >= PATH_FAILURES || q.noRoute then t.probeInterval else 2 * t.timeout;
    q.nonce == 0 && (q.pingedAt == 0 || now - q.pingedAt >= interval)
  }

  /** An unknown error proves nothing and leaves the flag alone. */
  function Flagged(p: Path, r: SendResult): Path {
    match r
    case Delivered => p.(noRoute := false)
    case NoRoute => p.(noRoute := true)
    case OtherError => p
  }

  // --------------------------------------------------------------- one link

  /** Every path a link names is stored; the else is never taken. */
  function StatAt(paths: map<nat, Path>, i: nat): PathStat {
    if i in paths then paths[i].Stat() else PathStat("", 0, false, false)
  }

  function Stats(paths: map<nat, Path>, ids: seq<nat>): (r: seq<PathStat>)
    ensures |r| == |ids| && forall k :: 0 <= k < |ids| ==> r[k] == StatAt(paths, ids[k])
  {
    seq(|ids|, k requires 0 <= k < |ids| => StatAt(paths, ids[k]))
  }

  predicate HasCur(l: Link) {
    0 <= l.cur < |l.paths|
  }

  function Decision(t: Timing, paths: map<nat, Path>, l: Link, now: int): (int, Reason) {
    Decide(t.probeInterval, now, Stats(paths, l.paths), l.cur, l.switchedAt)
  }

  /** chooseLocked: a balancer sends no heartbeats, so its links stay as they are. */
  function Chosen(t: Timing, paths: map<nat, Path>, l: Link, now: int): Link {
    if t.noLocal || Decision(t, paths, l, now).0 == l.cur then l
    else l.(cur := Decision(t, paths, l, now).0, switchedAt := now)
  }

  // ---------------------------------------------------- records and links

  /** The link's path at an address, surviving a new record. */
  function PlaceOf(paths: map<nat, Path>, ids: seq<nat>, addr: string): Option<nat> {
    if ids == [] then None
    else if ids[|ids| - 1] in paths && paths[ids[|ids| - 1]].addr == addr then Some(ids[|ids| - 1])
    else PlaceOf(paths, ids[..|ids| - 1], addr)
  }

  /** The places of the first n addresses, repeats dropped; new ones come after
      next in order. */
  function PlacesOf(paths: map<nat, Path>, ids: seq<nat>, addrs: seq<string>, n: nat, next: nat): seq<nat>
    requires n <= |addrs|
  {
    if n == 0 then []
    else
      var front := PlacesOf(paths, ids, addrs, n - 1, next);
      if addrs[n - 1] in addrs[..n - 1] then front
      else
        match PlaceOf(paths, ids, addrs[n - 1])
        case Some(i) => front + [i]
        case None => front + [next + n - 1]
  }

  /** The store with the new places filled. */
  function Filled(paths: map<nat, Path>, ids: seq<nat>, addrs: seq<string>, n: nat, next: nat): map<nat, Path>
    requires n <= |addrs|
  {
    if n == 0 then paths
    else
      var front := Filled(paths, ids, addrs, n - 1, next);
      if addrs[n - 1] in addrs[..n - 1] || PlaceOf(paths, ids, addrs[n - 1]).Some? then front
      else front[next + n - 1 := NewPath(addrs[n - 1])]
  }

  function IndexOf(ids: seq<nat>, i: nat): int {
    if ids == [] then -1
    else if ids[|ids| - 1] == i then |ids| - 1
    else IndexOf(ids[..|ids| - 1], i)
  }

  /** syncLink's link: surviving addresses keep their places, the rest are
      dropped, new ones appended in registry order; a vanished current path
      leaves -1. */
  function SyncedLink(m: Mesh, r: Record): Link {
    var was := if r.name in m.links then m.links[r.name] else Link(m.nextSerial, [], -1, 0, 0);
    var ids := PlacesOf(m.paths, was.paths, r.addrs, |r.addrs|, m.nextPath);
    was.(paths := ids, cur := if HasCur(was) then IndexOf(ids, was.paths[was.cur]) else -1)
  }

  function SyncedPaths(m: Mesh, r: Record): map<nat, Path> {
    Filled(m.paths, if r.name in m.links then m.links[r.name].paths else [], r.addrs, |r.addrs|, m.nextPath)
  }

  /** SetRecords on one record, done being the ones before: the link it had is
      looked up in m. */
  function WithRecord(t: Timing, m: Mesh, done: Mesh, r: Record, now: int): Mesh {
    var from := done.(links := m.links);
    done.(paths := SyncedPaths(from, r),
          links := done.links[r.name := Chosen(t, SyncedPaths(from, r), SyncedLink(from, r), now)],
          nextPath := done.nextPath + |r.addrs|, nextSerial := done.nextSerial + 1)
  }

  /** SetRecords after its first n records: m, with the links of those only. */
  function RecordsUpTo(t: Timing, m: Mesh, recs: seq<Record>, n: nat, now: int): Mesh
    requires n <= |recs|
  {
    if n == 0 then m.(links := map[]) else WithRecord(t, m, RecordsUpTo(t, m, recs, n - 1, now), recs[n - 1], now)
  }

  // ------------------------------------------------------------- the events

  ghost predicate Linked(m: Mesh, i: nat) {
    exists n :: n in m.links && i in m.links[n].paths
  }

  predicate Has(m: Mesh, n: Name, i: nat) {
    n in m.links && i in m.links[n].paths
  }

  predicate Distinct<T(==)>(s: seq<T>) {
    forall i, j :: 0 <= i < j < |s| ==> s[i] != s[j]
  }

  /** checkPaths runs on one goroutine: a round begins after the last has ended.
      A datagram comes from a peer of the registry; a heartbeat never from a
      balancer. */
  ghost predicate Can(t: Timing, m: Mesh, e: Event) {
    match e
    case SetRecords(recs, now) => forall i, j :: 0 <= i < j < |recs| ==> recs[i].name != recs[j].name
    case Datagram(n, from, msg, now) => n in m.links && (msg.Beat? ==> n.PeerLink?)
    case CheckBegin(order, now) =>
      m.batch.None? && Distinct(order) && forall i :: i in order <==> i in m.paths && Linked(m, i) && Due(t, m.paths[i], now)
    case CheckSent(results) => m.batch.Some? && m.batch.value.results.None? && |results| == |m.batch.value.pings|
    case CheckEnd => m.batch.Some? && m.batch.value.results.Some?
    case BeatsSent(_) => true
    case Silent(n) => n in m.links
  }

  /** A pong that matches no ping of the link stops there: no deafness, no choice. */
  ghost predicate Stops(m: Mesh, n: Name, msg: Message) {
    msg.Beat? || (msg.PongMsg? && forall i :: Has(m, n, i) && i in m.paths ==> !Matches(m.paths[i], msg.nonce))
  }

  /** The peer has not heard us on the current path for three keepalives, while
      we have been sending on it for longer than that. */
  predicate FoundDeaf(t: Timing, l: Link, i: nat, msg: Message, now: int) {
    !msg.Beat? && HasCur(l) && l.paths[l.cur] == i && msg.heardMS >= 0
    && msg.heardMS * MILLISECOND > 3 * t.keepAlive && now - l.switchedAt > 3 * t.keepAlive
  }

  ghost function OnDatagram(t: Timing, m: Mesh, n: Name, from: string, msg: Message, now: int, i: nat): Path
    requires Has(m, n, i) && i in m.paths
  {
    var p := Heard(m.paths[i], from, now);
    var q := if msg.PongMsg? then Ponged(p, msg.nonce, now) else p;
    if !Stops(m, n, msg) && FoundDeaf(t, m.links[n], i, msg, now) then q.(deaf := true) else q
  }

  function OnBegin(t: Timing, p: Path, nonce: nat, now: int, pinged: bool): Path {
    var q := Expired(t, p, now);
    if pinged then q.(nonce := nonce, pingedAt := now) else q
  }

  /** Where a round pings a path, -1 when it does not. */
  function PingOf(pings: seq<Ping>, i: nat): int {
    if pings == [] then -1
    else if pings[|pings| - 1].path == i then |pings| - 1
    else PingOf(pings[..|pings| - 1], i)
  }

  /** A ping that never left is not a loss: its nonce is forgotten. */
  function OnEnd(b: Batch, p: Path, i: nat): Path {
    var k := PingOf(b.pings, i);
    if 0 <= k < |b.pings| && b.results.Some? && k < |b.results.value| && b.results.value[k].NoRoute?
       && p.nonce == b.pings[k].nonce
    then p.(nonce := 0) else p
  }

  function OnSent(b: Batch, results: seq<SendResult>, p: Path, i: nat): Path {
    var k := PingOf(b.pings, i);
    if 0 <= k < |results| then Flagged(p, results[k]) else p
  }

  ghost function PathNext(t: Timing, m: Mesh, e: Event, i: nat): Path
    requires i in m.paths
  {
    var p := m.paths[i];
    match e
    case SetRecords(_, _) => p
    case Datagram(n, from, msg, now) => if Has(m, n, i) then OnDatagram(t, m, n, from, msg, now, i) else p
    case CheckBegin(order, now) =>
      if Linked(m, i) then OnBegin(t, p, m.nonce + 1 + NatIndex(order, i), now, i in order) else p
    case CheckSent(results) => if m.batch.Some? then OnSent(m.batch.value, results, p, i) else p
    case CheckEnd => if m.batch.Some? then OnEnd(m.batch.value, p, i) else p
    case BeatsSent(outcomes) => if i in outcomes then Flagged(p, outcomes[i]) else p
    case Silent(n) => if Has(m, n, i) && p.nonce == 0 then p.(pingedAt := 0) else p
  }

  function NatIndex(ids: seq<nat>, i: nat): nat {
    if IndexOf(ids, i) < 0 then 0 else IndexOf(ids, i)
  }

  ghost function PathsNext(t: Timing, m: Mesh, e: Event): map<nat, Path> {
    map i | i in m.paths :: PathNext(t, m, e, i)
  }

  ghost function LinkNext(t: Timing, m: Mesh, paths: map<nat, Path>, e: Event, n: Name): Link
    requires n in m.links
  {
    var l := m.links[n];
    match e
    case Datagram(k, _, msg, now) =>
      if k != n then l
      else if msg.Beat? then l.(heardAt := now)
      else if Stops(m, n, msg) then l
      else Chosen(t, paths, l, now)
    case CheckEnd => if m.batch.Some? && l.serial in m.batch.value.serials then Chosen(t, paths, l, m.batch.value.now) else l
    case _ => l
  }

  function Pings(order: seq<nat>, nonce: nat): (r: seq<Ping>)
    ensures |r| == |order| && forall k :: 0 <= k < |order| ==> r[k] == Ping(order[k], nonce + 1 + k)
  {
    seq(|order|, k requires 0 <= k < |order| => Ping(order[k], nonce + 1 + k))
  }

  function Serials(m: Mesh): set<nat> {
    set n | n in m.links :: m.links[n].serial
  }

  ghost function Do(t: Timing, m: Mesh, e: Event): Mesh {
    if e.SetRecords? then RecordsUpTo(t, m, e.recs, |e.recs|, e.now)
    else
      var paths := PathsNext(t, m, e);
      var moved := m.(paths := paths, links := map n | n in m.links :: LinkNext(t, m, paths, e, n));
      match e
      case CheckBegin(order, now) =>
        moved.(nonce := m.nonce + |order|, batch := Some(Batch(Pings(order, m.nonce), Serials(m), now, None)))
      case CheckSent(results) =>
        if m.batch.Some? then moved.(batch := Some(m.batch.value.(results := Some(results)))) else moved
      case CheckEnd => moved.(batch := None)
      case _ => moved
  }

  /** A run of the links from the start, any sections interleaved. */
  ghost predicate Possible(t: Timing, es: seq<Event>)
    decreases |es|
  {
    |es| > 0 ==> Possible(t, es[..|es| - 1]) && Can(t, Run(t, es[..|es| - 1]), es[|es| - 1])
  }

  ghost function Run(t: Timing, es: seq<Event>): Mesh {
    if |es| == 0 then Start() else Do(t, Run(t, es[..|es| - 1]), es[|es| - 1])
  }
}
