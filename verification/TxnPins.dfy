/** The two-generation pin cache of internal/app/txnpins.go: which node accepted
    a transaction, so that lookups of it go there first. */
module TxnPins {
  import opened Requests

  datatype Pins = Pins(cur: map<string, string>, prev: map<string, string>, rotated: int)

  datatype Call = Remember(txid: string, upstream: string, now: int) | Recall(txid: string, now: int)

  datatype Pin = Pin(upstream: string, at: int)

  function Rotated(ttl: int, p: Pins, now: int): Pins {
    if now - p.rotated >= 2 * ttl then Pins(map[], map[], now)
    else if now - p.rotated >= ttl then Pins(map[], p.cur, now)
    else p
  }

  function Next(ttl: int, p: Pins, c: Call): Pins {
    match c
    case Remember(txid, upstream, now) =>
      if txid == "" then p
      else
        var r := Rotated(ttl, p, now);
        r.(cur := r.cur[txid := upstream])
    case Recall(_, now) => Rotated(ttl, p, now)
  }

  /** What a recall answers. */
  function Answer(ttl: int, p: Pins, txid: string, now: int): Option<string> {
    var r := Rotated(ttl, p, now);
    if txid in r.cur then Some(r.cur[txid]) else if txid in r.prev then Some(r.prev[txid]) else None
  }

  function Run(ttl: int, start: int, calls: seq<Call>): Pins {
    if |calls| == 0 then Pins(map[], map[], start) else Next(ttl, Run(ttl, start, calls[..|calls| - 1]), calls[|calls| - 1])
  }

  /** The clock at the last call. */
  function Clock(start: int, calls: seq<Call>): int {
    if |calls| == 0 then start else calls[|calls| - 1].now
  }

  /** The clock never steps back. */
  predicate InOrder(start: int, calls: seq<Call>) {
    |calls| > 0 ==> InOrder(start, calls[..|calls| - 1]) && Clock(start, calls[..|calls| - 1]) <= calls[|calls| - 1].now
  }

  /** The latest pin of a transaction, from the whole history: what the cache
      stands for. */
  function LastPin(calls: seq<Call>, txid: string): Option<Pin> {
    if |calls| == 0 then None
    else
      var c := calls[|calls| - 1];
      if c.Remember? && c.txid == txid && txid != "" then Some(Pin(c.upstream, c.now)) else LastPin(calls[..|calls| - 1], txid)
  }

  /** The generation a transaction's latest pin is in, by its age at the last
      rotation. */
  ghost predicate Placed(ttl: int, p: Pins, txid: string, pin: Option<Pin>) {
    && (txid in p.cur ==> pin.Some? && pin.value.upstream == p.cur[txid] && p.rotated <= pin.value.at < p.rotated + ttl)
    && (txid !in p.cur && txid in p.prev ==>
          pin.Some? && pin.value.upstream == p.prev[txid] && p.rotated - 2 * ttl < pin.value.at < p.rotated)
    && (txid !in p.cur && txid !in p.prev && pin.Some? ==> p.rotated - pin.value.at > ttl)
  }

  lemma RotationPlaces(ttl: int, p: Pins, now: int, txid: string, pin: Option<Pin>)
    requires ttl > 0 && p.rotated <= now && Placed(ttl, p, txid, pin)
    ensures Placed(ttl, Rotated(ttl, p, now), txid, pin)
    ensures now - ttl < Rotated(ttl, p, now).rotated <= now
  {
  }

  lemma {:induction false} PinsArePlaced(ttl: int, start: int, calls: seq<Call>, txid: string)
    requires ttl > 0 && InOrder(start, calls)
    ensures Placed(ttl, Run(ttl, start, calls), txid, LastPin(calls, txid))
    ensures Run(ttl, start, calls).rotated <= Clock(start, calls)
  {
    if |calls| > 0 {
      var front := calls[..|calls| - 1];
      PinsArePlaced(ttl, start, front, txid);
      RotationPlaces(ttl, Run(ttl, start, front), calls[|calls| - 1].now, txid, LastPin(front, txid));
    }
  }

  /** A recall finds every transaction pinned at most ttl ago, under its latest
      pin; it never answers with a superseded pin, nor with one of 3*ttl or more. */
  lemma RecallIsLatest(ttl: int, start: int, calls: seq<Call>, txid: string, now: int)
    requires ttl > 0 && InOrder(start, calls) && Clock(start, calls) <= now
    ensures var a, pin := Answer(ttl, Run(ttl, start, calls), txid, now), LastPin(calls, txid);
            && (a.Some? ==> pin.Some? && a.value == pin.value.upstream && now - pin.value.at < 3 * ttl)
            && (pin.Some? && now - pin.value.at <= ttl ==> a.Some?)
  {
    PinsArePlaced(ttl, start, calls, txid);
    RotationPlaces(ttl, Run(ttl, start, calls), now, txid, LastPin(calls, txid));
  }

  /** The comment's bound of 2*ttl is not kept: rotation waits for a call and
      then counts from it. */
  lemma OldPinRecalled()
    ensures var calls := [Remember("tx", "node", 0), Recall("other", 19)];
            InOrder(0, calls) && Answer(10, Run(10, 0, calls), "tx", 28) == Some("node") && LastPin(calls, "tx") == Some(Pin("node", 0))
  {
    var calls := [Remember("tx", "node", 0), Recall("other", 19)];
    var c1 := calls[..1];
    assert c1 == [Remember("tx", "node", 0)] && c1[..0] == [];
    assert Run(10, 0, c1) == Pins(map["tx" := "node"], map[], 0);
    assert Run(10, 0, calls) == Pins(map[], map["tx" := "node"], 19);
    assert InOrder(0, c1);
    assert LastPin(c1, "tx") == Some(Pin("node", 0));
  }

  /** Every answer is of a pin younger than 2*ttl, whenever it is asked for, except
      of one in the older generation whose rotation came more than ttl after it and
      is not due again. */
  lemma TwiceTtlExactly(ttl: int, start: int, calls: seq<Call>, txid: string)
    requires ttl > 0 && InOrder(start, calls)
    ensures var p, pin, c := Run(ttl, start, calls), LastPin(calls, txid), Clock(start, calls);
            (forall now :: now >= c && Answer(ttl, p, txid, now).Some? ==> pin.Some? && now - pin.value.at < 2 * ttl)
            <==> (txid !in p.cur && txid in p.prev && c < p.rotated + ttl ==> pin.Some? && p.rotated - pin.value.at <= ttl)
  {
    var p := Run(ttl, start, calls);
    PinsArePlaced(ttl, start, calls, txid);
    if txid !in p.cur && txid in p.prev && Clock(start, calls) < p.rotated + ttl {
      assert Answer(ttl, p, txid, p.rotated + ttl - 1).Some?;
    }
  }

  class Cache {
    const ttl: int
    const start: int
    var cur: map<string, string>
    var prev: map<string, string>
    var rotated: int
    ghost var calls: seq<Call>

    ghost predicate Valid()
      reads this
    {
      Pins(cur, prev, rotated) == Run(ttl, start, calls) && InOrder(start, calls)
    }

    constructor (ttl: int, now: int)
      ensures Valid() && this.ttl == ttl && start == now && calls == []
    {
      this.ttl, start := ttl, now;
      cur, prev, rotated, calls := map[], map[], now, [];
    }

    method Rotate(now: int)
      modifies `cur, `prev, `rotated
      ensures Pins(cur, prev, rotated) == Rotated(ttl, old(Pins(cur, prev, rotated)), now)
    {
      var age := now - rotated;
      if age >= 2 * ttl {
        prev, cur, rotated := map[], map[], now;
      } else if age >= ttl {
        prev, cur, rotated := cur, map[], now;
      }
    }

    method Remember(txid: string, upstream: string, now: int)
      requires Valid() && Clock(start, calls) <= now
      modifies this
      ensures Valid() && calls == old(calls) + [Call.Remember(txid, upstream, now)]
    {
      CallsExtend(ttl, start, calls, Call.Remember(txid, upstream, now));
      calls := calls + [Call.Remember(txid, upstream, now)];
      if txid == "" {
        return;
      }
      Rotate(now);
      cur := cur[txid := upstream];
    }

    /** The latest pin, for at least ttl and always less than 3*ttl. */
    method Recall(txid: string, now: int) returns (upstream: Option<string>)
      requires Valid() && Clock(start, calls) <= now && ttl > 0
      modifies this
      ensures Valid() && calls == old(calls) + [Call.Recall(txid, now)]
      ensures var pin := LastPin(old(calls), txid);
              && (upstream.Some? ==> pin.Some? && upstream.value == pin.value.upstream && now - pin.value.at < 3 * ttl)
              && (pin.Some? && now - pin.value.at <= ttl ==> upstream.Some?)
    {
      RecallIsLatest(ttl, start, calls, txid, now);
      CallsExtend(ttl, start, calls, Call.Recall(txid, now));
      calls := calls + [Call.Recall(txid, now)];
      Rotate(now);
      if txid in cur {
        return Some(cur[txid]);
      }
      return if txid in prev then Some(prev[txid]) else None;
    }
  }

  lemma CallsExtend(ttl: int, start: int, calls: seq<Call>, c: Call)
    requires InOrder(start, calls) && Clock(start, calls) <= c.now
    ensures InOrder(start, calls + [c]) && Run(ttl, start, calls + [c]) == Next(ttl, Run(ttl, start, calls), c)
  {
    assert (calls + [c])[..|calls + [c]| - 1] == calls;
  }
}
