/** Waiting for a value through a channel that is closed and replaced when the
    value changes, as internal/app/directory.go and internal/app/monitor.go do.
    A channel is told by how many were closed before it. */
module Wakeups {

  datatype Waiter<S> =
    | Started(round: nat)
    | Looked(round: nat, seen: S, channel: nat)
    | Blocked(round: nat, channel: nat)
    | Returned(round: nat, seen: S)
    | Cancelled(round: nat)

  datatype Cell<S> = Cell(value: S, closed: nat, waiters: map<nat, Waiter<S>>)

  /** One step of the publisher or of one waiter: a waiter reads the value and the
      channel under the lock and decides after it. */
  datatype Step<S> =
    | Publish(value: S)
    | Start(id: nat, round: nat)
    | Look(id: nat)
    | Decide(id: nat)
    | Wake(id: nat)
    | Cancel(id: nat)

  predicate Can<S>(c: Cell<S>, s: Step<S>) {
    match s
    case Publish(_) => true
    case Start(id, _) => id !in c.waiters
    case Look(id) => id in c.waiters && c.waiters[id].Started?
    case Decide(id) => id in c.waiters && c.waiters[id].Looked?
    case Wake(id) => id in c.waiters && c.waiters[id].Blocked? && c.waiters[id].channel < c.closed
    case Cancel(id) => id in c.waiters && c.waiters[id].Blocked?
  }

  function Do<S>(ok: (S, nat) -> bool, c: Cell<S>, s: Step<S>): Cell<S>
    requires Can(c, s)
  {
    match s
    case Publish(v) => c.(value := v, closed := c.closed + 1)
    case Start(id, round) => c.(waiters := c.waiters[id := Started(round)])
    case Look(id) => c.(waiters := c.waiters[id := Looked(c.waiters[id].round, c.value, c.closed)])
    case Decide(id) =>
      var w := c.waiters[id];
      c.(waiters := c.waiters[id := if ok(w.seen, w.round) then Returned(w.round, w.seen) else Blocked(w.round, w.channel)])
    case Wake(id) => c.(waiters := c.waiters[id := Started(c.waiters[id].round)])
    case Cancel(id) => c.(waiters := c.waiters[id := Cancelled(c.waiters[id].round)])
  }

  /** What a waiter has read is the value while its channel is open. */
  predicate Informed<S(==)>(ok: (S, nat) -> bool, c: Cell<S>, w: Waiter<S>) {
    match w
    case Looked(_, seen, channel) => channel <= c.closed && (channel == c.closed ==> seen == c.value)
    case Blocked(round, channel) => channel <= c.closed && (channel == c.closed ==> !ok(c.value, round))
    case Returned(round, seen) => ok(seen, round)
    case _ => true
  }

  predicate Inv<S(==)>(ok: (S, nat) -> bool, c: Cell<S>) {
    forall id :: id in c.waiters ==> Informed(ok, c, c.waiters[id])
  }

  lemma InvStep<S>(ok: (S, nat) -> bool, c: Cell<S>, s: Step<S>)
    requires Inv(ok, c) && Can(c, s)
    ensures Inv(ok, Do(ok, c, s))
  {
    var d := Do(ok, c, s);
    forall id | id in d.waiters
      ensures Informed(ok, d, d.waiters[id])
    {
      assert id in c.waiters ==> Informed(ok, c, c.waiters[id]);
    }
  }

  /** A waiter with something to wake for can always be woken, and one that has
      returned saw a value past its round. */
  lemma NoLostWakeup<S>(ok: (S, nat) -> bool, c: Cell<S>, id: nat)
    requires Inv(ok, c) && id in c.waiters
    ensures c.waiters[id].Blocked? && ok(c.value, c.waiters[id].round) ==> Can(c, Wake(id))
    ensures c.waiters[id].Returned? ==> ok(c.waiters[id].seen, c.waiters[id].round)
  {
    assert Informed(ok, c, c.waiters[id]);
  }

  /** A channel nothing is sent on, only closed. Its value is what the publisher's
      is for as long as this is its channel. */
  class Channel<S> {
    ghost const value: S
    var closed: bool

    constructor (ghost value: S)
      ensures this.value == value && !closed
    {
      this.value, closed := value, false;
    }
  }
}

/** The fleet's highest round and its waiters, fed by accepted heartbeats and the
    local node. */
module FleetRounds {
  import opened Requests
  import Wakeups

  datatype Params = Params(downAfter: int, excluded: set<string>)

  /** An accepted heartbeat: its sequence number and when it came. */
  datatype Beat = Beat(seqno: nat, at: int)

  datatype Fleet = Fleet(peers: map<string, Option<Beat>>, localSeq: nat, cell: Wakeups.Cell<nat>)

  datatype Event =
    | Records(ids: set<string>)
    | Heartbeat(id: string, seqno: nat, round: nat, online: bool, now: int)
    | LocalState(seqno: nat, round: nat, online: bool)
    | Waiting(step: Wakeups.Step<nat>)

  function Past(best: nat, round: nat): bool {
    best > round
  }

  function Start(): Fleet {
    Fleet(map[], 0, Wakeups.Cell(0, 0, map[]))
  }

  /** noteRoundLocked: only a new high closes the channel. */
  function Noted(f: Fleet, round: nat): Fleet {
    if round > f.cell.value then f.(cell := Wakeups.Do(Past, f.cell, Wakeups.Publish(round))) else f
  }

  predicate Stale(p: Params, last: Option<Beat>, seqno: nat, now: int) {
    last.Some? && seqno <= last.value.seqno && now - last.value.at < p.downAfter
  }

  predicate Can(f: Fleet, e: Event) {
    e.Waiting? ==> !e.step.Publish? && Wakeups.Can(f.cell, e.step)
  }

  function Do(p: Params, f: Fleet, e: Event): Fleet {
    match e
    case Records(ids) => f.(peers := map id | id in ids :: if id in f.peers then f.peers[id] else None)
    case Heartbeat(id, seqno, round, online, now) =>
      if id !in f.peers || Stale(p, f.peers[id], seqno, now) then f
      else
        var g := f.(peers := f.peers[id := Some(Beat(seqno, now))]);
        if online && id !in p.excluded then Noted(g, round) else g
    case LocalState(seqno, round, online) =>
      if seqno == f.localSeq then f
      else
        var g := f.(localSeq := seqno);
        if online then Noted(g, round) else g
    case Waiting(step) => if !step.Publish? && Wakeups.Can(f.cell, step) then f.(cell := Wakeups.Do(Past, f.cell, step)) else f
  }

  predicate Possible(p: Params, es: seq<Event>) {
    |es| > 0 ==> Possible(p, es[..|es| - 1]) && Can(Run(p, es[..|es| - 1]), es[|es| - 1])
  }

  function Run(p: Params, es: seq<Event>): Fleet {
    if |es| == 0 then Start() else Do(p, Run(p, es[..|es| - 1]), es[|es| - 1])
  }

  // ----------------------------------------------- the history's own answers

  /** The peer is in the last records set. */
  predicate Known(es: seq<Event>, id: string) {
    |es| > 0 && if es[|es| - 1].Records? then id in es[|es| - 1].ids else Known(es[..|es| - 1], id)
  }

  /** A heartbeat is accepted from a known peer unless its number is not above the
      last accepted one's and that came less than DownAfter ago. */
  predicate Accepts(p: Params, es: seq<Event>, e: Event)
    decreases |es|, 1
  {
    e.Heartbeat? && Known(es, e.id)
    && (LastBeat(p, es, e.id).Some? ==>
          e.seqno > LastBeat(p, es, e.id).value.seqno || e.now >= LastBeat(p, es, e.id).value.at + p.downAfter)
  }

  /** The peer's last accepted heartbeat since its record appeared. */
  function LastBeat(p: Params, es: seq<Event>, id: string): Option<Beat>
    decreases |es|, 0
  {
    if |es| == 0 then None
    else
      var front, e := es[..|es| - 1], es[|es| - 1];
      if e.Records? && id !in e.ids then None
      else if e.Heartbeat? && e.id == id && Accepts(p, front, e) then Some(Beat(e.seqno, e.now))
      else LastBeat(p, front, id)
  }

  function LastLocal(es: seq<Event>): nat {
    if |es| == 0 then 0 else if es[|es| - 1].LocalState? then es[|es| - 1].seqno else LastLocal(es[..|es| - 1])
  }

  /** An event reports a round that counts: of an online node, by an accepted
      heartbeat of a peer requests may go to, or a new local state. */
  predicate Reports(p: Params, es: seq<Event>, e: Event) {
    || (Accepts(p, es, e) && e.online && e.id !in p.excluded)
    || (e.LocalState? && e.seqno != LastLocal(es) && e.online)
  }

  /** The highest round reported in a history. */
  function Highest(p: Params, es: seq<Event>): nat {
    if |es| == 0 then 0
    else
      var front, e := es[..|es| - 1], es[|es| - 1];
      if Reports(p, front, e) then MaxNat(Highest(p, front), e.round) else Highest(p, front)
  }

  // -------------------------------------------------- the machine is right

  lemma {:induction false} PeersAgree(p: Params, es: seq<Event>, id: string)
    ensures Known(es, id) <==> id in Run(p, es).peers
    ensures id in Run(p, es).peers ==> Run(p, es).peers[id] == LastBeat(p, es, id)
    ensures id !in Run(p, es).peers ==> LastBeat(p, es, id) == None
  {
    if |es| > 0 {
      PeersAgree(p, es[..|es| - 1], id);
    }
  }

  lemma {:induction false} LocalAgrees(p: Params, es: seq<Event>)
    ensures Run(p, es).localSeq == LastLocal(es)
  {
    if |es| > 0 {
      LocalAgrees(p, es[..|es| - 1]);
    }
  }

  /** In every run the fleet's round is the highest one reported. */
  lemma {:induction false} RoundIsHighest(p: Params, es: seq<Event>)
    ensures Run(p, es).cell.value == Highest(p, es)
  {
    if |es| > 0 {
      var front, e := es[..|es| - 1], es[|es| - 1];
      RoundIsHighest(p, front);
      LocalAgrees(p, front);
      if e.Heartbeat? {
        PeersAgree(p, front, e.id);
      }
    }
  }

  /** The waiters' channel is closed and replaced by exactly the events that raise the
      highest round. */
  lemma ClosesOnNewHighs(p: Params, es: seq<Event>)
    requires |es| > 0
    ensures var front := es[..|es| - 1];
            Run(p, es).cell.closed == Run(p, front).cell.closed + if Highest(p, es) > Highest(p, front) then 1 else 0
  {
    RoundIsHighest(p, es);
    RoundIsHighest(p, es[..|es| - 1]);
  }

  lemma {:induction false} WaitersAreInformed(p: Params, es: seq<Event>)
    requires Possible(p, es)
    ensures Wakeups.Inv(Past, Run(p, es).cell)
  {
    if |es| > 0 {
      var front, e := es[..|es| - 1], es[|es| - 1];
      var f := Run(p, front);
      WaitersAreInformed(p, front);
      if e.Waiting? {
        Wakeups.InvStep(Past, f.cell, e.step);
      } else if e.Heartbeat? || e.LocalState? {
        Wakeups.InvStep(Past, f.cell, Wakeups.Publish(e.round));
      }
    }
  }

  /** In every run a waiter still blocked on an open channel waits for a round no
      online node has reported; when one has, it can be woken; and one released
      returns a later round than it asked for. */
  lemma WaitersMissNothing(p: Params, es: seq<Event>, id: nat)
    requires Possible(p, es) && id in Run(p, es).cell.waiters
    ensures var w := Run(p, es).cell.waiters[id];
            && (w.Blocked? && !Wakeups.Can(Run(p, es).cell, Wakeups.Wake(id)) ==> Highest(p, es) <= w.round)
            && (w.Returned? ==> w.seen > w.round)
  {
    WaitersAreInformed(p, es);
    RoundIsHighest(p, es);
    Wakeups.NoLostWakeup(Past, Run(p, es).cell, id);
  }

  // ------------------------------------------------------------ the classes

  class Rounds {
    const params: Params
    var peers: map<string, Option<Beat>>
    var localSeq: nat
    var hbRound: nat
    var hbChanged: Wakeups.Channel<nat>
    ghost var channels: set<Wakeups.Channel<nat>>
    ghost var history: seq<Event>

    /** The state is the history's, and only the current channel is open. */
    ghost predicate Valid()
      reads this, channels
    {
      && hbChanged in channels && hbChanged.value == hbRound
      && (forall ch :: ch in channels ==> (ch.closed <==> ch != hbChanged))
      && peers == Run(params, history).peers && localSeq == Run(params, history).localSeq
      && hbRound == Run(params, history).cell.value
    }

    constructor (p: Params)
      ensures Valid() && fresh(channels) && params == p && history == []
    {
      var ch := new Wakeups.Channel(0);
      params := p;
      peers, localSeq, hbRound, hbChanged, channels, history := map[], 0, 0, ch, {ch}, [];
    }

    method NoteRound(round: nat)
      requires hbChanged in channels && hbChanged.value == hbRound
      requires forall ch :: ch in channels ==> (ch.closed <==> ch != hbChanged)
      modifies `hbRound, `hbChanged, `channels, hbChanged
      ensures hbRound == if round > old(hbRound) then round else old(hbRound)
      ensures old(hbChanged).closed == (round > old(hbRound))
      ensures old(channels) <= channels && fresh(channels - old(channels))
      ensures hbChanged in channels && hbChanged.value == hbRound
      ensures forall ch :: ch in channels ==> (ch.closed <==> ch != hbChanged)
    {
      if round > hbRound {
        hbRound := round;
        hbChanged.closed := true;
        hbChanged := new Wakeups.Channel(round);
        channels := channels + {hbChanged};
      }
    }

    /** handleLocked on a heartbeat: whether it was accepted. */
    method HandleHeartbeat(id: string, seqno: nat, round: nat, online: bool, now: int) returns (accepted: bool)
      requires Valid()
      modifies this, channels
      ensures Valid() && history == old(history) + [Heartbeat(id, seqno, round, online, now)]
      ensures accepted <==> Accepts(params, old(history), Heartbeat(id, seqno, round, online, now))
      ensures old(channels) <= channels && fresh(channels - old(channels))
    {
      PeersAgree(params, history, id);
      RunExtends(params, history, Heartbeat(id, seqno, round, online, now));
      history := history + [Heartbeat(id, seqno, round, online, now)];
      accepted := false;
      if id !in peers {
        return;
      }
      var last := peers[id];
      if last.Some? && seqno <= last.value.seqno && now - last.value.at < params.downAfter {
        return;
      }
      accepted := true;
      peers := peers[id := Some(Beat(seqno, now))];
      if online && id !in params.excluded {
        NoteRound(round);
      }
    }

    method OnLocalChange(seqno: nat, round: nat, online: bool)
      requires Valid()
      modifies this, channels
      ensures Valid() && history == old(history) + [LocalState(seqno, round, online)]
      ensures old(channels) <= channels && fresh(channels - old(channels))
    {
      RunExtends(params, history, LocalState(seqno, round, online));
      history := history + [LocalState(seqno, round, online)];
      if seqno == localSeq {
        return;
      }
      localSeq := seqno;
      if online {
        NoteRound(round);
      }
    }

    /** The section of WaitForHeartbeatRound: its round has been reported, or the
        channel it must wait on. While that channel is open nothing has been
        missed (OpenMeansNothingYet). */
    method Look(round: nat) returns (best: nat, ch: Wakeups.Channel<nat>)
      requires Valid()
      ensures best == Highest(params, history) && ch in channels && ch.value == best && !ch.closed
    {
      RoundIsHighest(params, history);
      return hbRound, hbChanged;
    }

    /** Whatever has happened since a waiter looked, while its channel is open the
        highest round is still the one it saw. */
    lemma OpenMeansNothingYet(ch: Wakeups.Channel<nat>)
      requires Valid() && ch in channels && !ch.closed
      ensures Highest(params, history) == ch.value
    {
      RoundIsHighest(params, history);
    }
  }

  lemma RunExtends(p: Params, es: seq<Event>, e: Event)
    ensures Run(p, es + [e]) == Do(p, Run(p, es), e)
  {
    assert (es + [e])[..|es + [e]| - 1] == es;
  }
}

/** The local node's state and its waiters: every update closes the channel. */
module MonitorWaits {
  import opened Requests
  import Wakeups

  datatype LocalState = LocalState(lastRound: nat, lastStatus: Option<string>)

  function Resolves(s: LocalState, round: nat): bool {
    s.lastRound > round && s.lastStatus.Some?
  }

  predicate Possible(es: seq<Wakeups.Step<LocalState>>) {
    |es| > 0 ==> Possible(es[..|es| - 1]) && Wakeups.Can(Run(es[..|es| - 1]), es[|es| - 1])
  }

  function Run(es: seq<Wakeups.Step<LocalState>>): Wakeups.Cell<LocalState> {
    if |es| == 0 then Wakeups.Cell(LocalState(0, None), 0, map[])
    else
      var c, s := Run(es[..|es| - 1]), es[|es| - 1];
      if Wakeups.Can(c, s) then Wakeups.Do(Resolves, c, s) else c
  }

  lemma {:induction false} WaitersAreInformed(es: seq<Wakeups.Step<LocalState>>)
    requires Possible(es)
    ensures Wakeups.Inv(Resolves, Run(es))
  {
    if |es| > 0 {
      WaitersAreInformed(es[..|es| - 1]);
      Wakeups.InvStep(Resolves, Run(es[..|es| - 1]), es[|es| - 1]);
    }
  }

  /** In every run a caller of WaitForBlockAfter still blocked on an open channel
      has nothing to wake for, and one that has returned replays the status of a
      round past the one it named. */
  lemma WaitersMissNothing(es: seq<Wakeups.Step<LocalState>>, id: nat)
    requires Possible(es) && id in Run(es).waiters
    ensures var w := Run(es).waiters[id];
            && (w.Blocked? && !Wakeups.Can(Run(es), Wakeups.Wake(id)) ==>
                  Run(es).value.lastRound <= w.round || Run(es).value.lastStatus.None?)
            && (w.Returned? ==> w.seen.lastRound > w.round && w.seen.lastStatus.Some?)
  {
    WaitersAreInformed(es);
    Wakeups.NoLostWakeup(Resolves, Run(es), id);
  }

  class Monitor {
    var state: LocalState
    var seqno: nat
    var changed: Wakeups.Channel<LocalState>
    ghost var channels: set<Wakeups.Channel<LocalState>>

    /** Only the current channel is open, and it stands for the current state. */
    ghost predicate Valid()
      reads this, channels
    {
      changed in channels && changed.value == state && forall ch :: ch in channels ==> (ch.closed <==> ch != changed)
    }

    constructor ()
      ensures Valid() && fresh(channels) && state == LocalState(0, None) && seqno == 0
    {
      var ch := new Wakeups.Channel(LocalState(0, None));
      state, seqno, changed, channels := LocalState(0, None), 0, ch, {ch};
    }

    /** Every update wakes every waiter, whatever it changes. */
    method Update(next: LocalState)
      requires Valid()
      modifies this, channels
      ensures Valid() && state == next && seqno == old(seqno) + 1
      ensures old(channels) <= channels && fresh(channels - old(channels))
      ensures forall ch :: ch in old(channels) ==> ch.closed
    {
      state, seqno := next, seqno + 1;
      changed.closed := true;
      changed := new Wakeups.Channel(next);
      channels := channels + {changed};
    }

    /** The section of WaitForBlockAfter: the status to replay, or the channel to
        wait on, open, with nothing to replay until it is closed
        (OpenMeansNothingYet). */
    method Look(round: nat) returns (status: Option<string>, ch: Wakeups.Channel<LocalState>)
      requires Valid()
      ensures status.Some? <==> state.lastRound > round && state.lastStatus.Some?
      ensures status.Some? ==> status == state.lastStatus
      ensures ch in channels && ch.value == state && !ch.closed
    {
      return if state.lastRound > round then state.lastStatus else None, changed;
    }

    /** Whatever has happened since a waiter looked, while its channel is open the
        state is the one it saw. */
    lemma OpenMeansNothingYet(ch: Wakeups.Channel<LocalState>, round: nat)
      requires Valid() && ch in channels && !ch.closed && !Resolves(ch.value, round)
      ensures !Resolves(state, round)
    {
    }
  }
}
