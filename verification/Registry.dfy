/** A record on its way into the on-chain registry: the Go encoder of
    internal/adapters/registryalgo/contract.go, the TypeScript client's own
    splitter, and the contract's put program, which must leave the record as it
    was. Arguments of type byte[] are encoded as the "Encoding" section of
    ARC-4 says: two big-endian length bytes, then the bytes. */
module Registry {
  import opened Requests

  newtype byte = x: int | 0 <= x < 256

  type Bytes = seq<byte>

  const MAX_APP_ARGS_LEN: nat := 16384
  const FREE_APP_ARGS_LEN: nat := 2048
  const MAX_ARG_LEN: nat := 4096
  const ARG_BYTE_SURCHARGE: nat := 100
  const BOX_REF_BUDGET: nat := 2048
  const BOX_REFS: nat := (MAX_APP_ARGS_LEN + BOX_REF_BUDGET - 1) / BOX_REF_BUDGET
  const SELECTOR_LEN: nat := 4
  const TAG_LEN: nat := 16
  const LENGTH_PREFIX: nat := 2
  const PUT_PARTS: nat := 4
  const MAX_PART_LEN: nat := MAX_ARG_LEN - LENGTH_PREFIX
  const MAX_VALUE_LEN: nat := MAX_APP_ARGS_LEN - SELECTOR_LEN - TAG_LEN - PUT_PARTS * LENGTH_PREFIX
  /** The AVM's largest box. */
  const MAX_BOX_SIZE: nat := 32768

  function MinNat(a: nat, b: nat): nat {
    if a <= b then a else b
  }

  // --------------------------------------------------------------- ARC-4

  function EncodeBytes(v: Bytes): (r: Bytes)
    requires |v| < 65536
    ensures |r| == LENGTH_PREFIX + |v|
  {
    [(|v| / 256) as byte, (|v| % 256) as byte] + v
  }

  function DecodeBytes(a: Bytes): Option<Bytes> {
    if |a| < LENGTH_PREFIX || |a| - LENGTH_PREFIX != a[0] as int * 256 + a[1] as int then None
    else Some(a[LENGTH_PREFIX..])
  }

  lemma DecodeInverts(v: Bytes)
    requires |v| < 65536
    ensures DecodeBytes(EncodeBytes(v)) == Some(v)
  {
    assert EncodeBytes(v)[LENGTH_PREFIX..] == v;
  }

  /** The value's length in two bytes, the high one first, and then the value. */
  lemma LengthComesFirst(v: Bytes)
    requires |v| < 65536
    ensures var a := EncodeBytes(v); a[0] as int * 256 + a[1] as int == |v| && a[2..] == v
  {
  }

  /** And nothing else decodes to v. */
  lemma EncodeInverts(a: Bytes, v: Bytes)
    requires DecodeBytes(a) == Some(v)
    ensures |v| < 65536 && a == EncodeBytes(v)
  {
    var h := a[0] as int * 256 + a[1] as int;
    assert h / 256 == a[0] as int && h % 256 == a[1] as int;
    assert a == [a[0], a[1]] + a[2..];
  }

  // ---------------------------------------------------------- splitting

  /** parts of client.ts: part i is the i-th stretch of the value. */
  function Part(value: Bytes, i: nat): (r: Bytes)
    ensures |r| <= MAX_PART_LEN
  {
    value[MinNat(i * MAX_PART_LEN, |value|)..MinNat((i + 1) * MAX_PART_LEN, |value|)]
  }

  function Parts(value: Bytes): (r: seq<Bytes>)
    ensures |r| == PUT_PARTS
    ensures forall i :: 0 <= i < PUT_PARTS ==> r[i] == Part(value, i) && |r[i]| <= MAX_PART_LEN
  {
    [Part(value, 0), Part(value, 1), Part(value, 2), Part(value, 3)]
  }

  function Join(parts: seq<Bytes>): Bytes {
    if parts == [] then [] else parts[0] + Join(parts[1..])
  }

  function TotalLen(args: seq<Bytes>): nat {
    if args == [] then 0 else TotalLen(args[..|args| - 1]) + |args[|args| - 1]|
  }

  /** putArgsLen of client.ts. */
  function PutArgsLen(valueLen: nat): nat {
    SELECTOR_LEN + TAG_LEN + PUT_PARTS * LENGTH_PREFIX + valueLen
  }

  /** The arguments of put(tag, part0, part1, part2, part3). */
  function PutCall(selector: Bytes, tag: Bytes, parts: seq<Bytes>): seq<Bytes>
    requires |parts| == PUT_PARTS && forall i :: 0 <= i < PUT_PARTS ==> |parts[i]| < 65536
  {
    [selector, tag, EncodeBytes(parts[0]), EncodeBytes(parts[1]), EncodeBytes(parts[2]), EncodeBytes(parts[3])]
  }

  /** No part is lost, doubled or moved: four parts are enough for any value a
      call can carry. */
  lemma PartsJoin(value: Bytes)
    requires |value| <= MAX_VALUE_LEN
    ensures Join(Parts(value)) == value
  {
    var p := Parts(value);
    assert Join(p[3..]) == p[3];
    assert Join(p[2..]) == p[2] + p[3];
    assert Join(p[1..]) == p[1] + (p[2] + p[3]);
    assert value == p[0] + (p[1] + (p[2] + p[3]));
  }

  /** Four parts of the largest size hold more than the largest value: what limits
      a value is the call, which it fills, not its parts. */
  lemma PartsExceedLimit()
    ensures PUT_PARTS * MAX_PART_LEN > MAX_VALUE_LEN
    ensures PutArgsLen(MAX_VALUE_LEN) == MAX_APP_ARGS_LEN
  {
  }

  lemma SixLengths(a: seq<Bytes>)
    requires |a| == 6
    ensures TotalLen(a) == |a[0]| + |a[1]| + |a[2]| + |a[3]| + |a[4]| + |a[5]|
  {
    assert a[..5][..4] == a[..4] && a[..4][..3] == a[..3] && a[..3][..2] == a[..2] && a[..2][..1] == a[..1] && a[..1][..0] == [];
    assert TotalLen(a[..1]) == |a[0]|;
    assert TotalLen(a[..2]) == |a[0]| + |a[1]|;
    assert TotalLen(a[..3]) == |a[0]| + |a[1]| + |a[2]|;
    assert TotalLen(a[..4]) == |a[0]| + |a[1]| + |a[2]| + |a[3]|;
  }

  /** What the protocol limits of a call ask: each argument fits one, all of them
      fit the call, and the box references of one call cover the value. */
  lemma PutFitsTheProtocol(selector: Bytes, tag: Bytes, value: Bytes)
    requires |selector| == SELECTOR_LEN && |tag| == TAG_LEN && |value| <= MAX_VALUE_LEN
    ensures var args := PutCall(selector, tag, Parts(value));
            && (forall i :: 0 <= i < |args| ==> |args[i]| <= 4096)
            && TotalLen(args) == PutArgsLen(|value|) <= 16384
            && |value| <= BOX_REFS * 2048 && BOX_REFS <= 8
  {
    SixLengths(PutCall(selector, tag, Parts(value)));
  }

  /** What is left of a value after i parts. */
  function Rest(value: Bytes, i: nat): Bytes {
    value[MinNat(i * MAX_PART_LEN, |value|)..]
  }

  lemma NextPart(value: Bytes, i: nat)
    ensures var n := MinNat(|Rest(value, i)|, MAX_PART_LEN);
            && Rest(value, i)[..n] == Part(value, i)
            && Rest(value, i)[n..] == Rest(value, i + 1)
    ensures i < PUT_PARTS ==> Parts(value)[..i] + [Part(value, i)] == Parts(value)[..i + 1]
  {
  }

  /** PutArgs of contract.go: fills each part before the next, or refuses. It
      splits exactly as the TypeScript client does. */
  method PutArgs(selector: Bytes, tag: Bytes, value: Bytes) returns (r: Option<seq<Bytes>>)
    requires |selector| == SELECTOR_LEN && |tag| == TAG_LEN
    ensures r.Some? <==> |value| <= MAX_VALUE_LEN
    ensures r.Some? ==> r.value == PutCall(selector, tag, Parts(value))
  {
    if |value| > MAX_VALUE_LEN {
      return None;
    }
    var parts: seq<Bytes> := [];
    var rest := value;
    assert rest == Rest(value, 0);
    for i := 0 to PUT_PARTS
      invariant rest == Rest(value, i) && parts == Parts(value)[..i]
    {
      NextPart(value, i);
      var n := MinNat(|rest|, MAX_PART_LEN);
      parts, rest := parts + [rest[..n]], rest[n..];
    }
    assert parts == Parts(value);
    var args := EncodeCall(selector, tag, parts);
    return Some(args);
  }

  /** encodeCall: the selector, then every argument by its type. */
  method EncodeCall(selector: Bytes, tag: Bytes, parts: seq<Bytes>) returns (args: seq<Bytes>)
    requires |parts| == PUT_PARTS && forall i :: 0 <= i < PUT_PARTS ==> |parts[i]| < 65536
    ensures args == PutCall(selector, tag, parts)
  {
    args := [selector, tag];
    var i := 0;
    while i < |parts|
      invariant 0 <= i <= |parts| && |args| == 2 + i && args[0] == selector && args[1] == tag
      invariant forall j :: 0 <= j < i ==> args[2 + j] == EncodeBytes(parts[j])
    {
      args := args + [EncodeBytes(parts[i])];
      i := i + 1;
    }
  }

  // -------------------------------------------------------------- the fee

  /** callFee of client.ts. */
  function FeeFor(minFee: nat, argsLen: nat): nat {
    (minFee * (1000000 + ARG_BYTE_SURCHARGE * (if argsLen > FREE_APP_ARGS_LEN then argsLen - FREE_APP_ARGS_LEN else 0)) + 999999) / 1000000
  }

  /** CallFee of contract.go: over the summed lengths, the TypeScript fee. */
  method CallFee(minFee: nat, args: seq<Bytes>) returns (fee: nat)
    ensures fee == FeeFor(minFee, TotalLen(args))
  {
    var n := 0;
    var i := 0;
    while i < |args|
      invariant 0 <= i <= |args| && n == TotalLen(args[..i])
    {
      n := n + |args[i]|;
      assert args[..i + 1][..i] == args[..i];
      i := i + 1;
    }
    assert args[..|args|] == args;
    var factor := 1000000;
    if n > FREE_APP_ARGS_LEN {
      factor := factor + ARG_BYTE_SURCHARGE * (n - FREE_APP_ARGS_LEN);
    }
    fee := (minFee * factor + 999999) / 1000000;
  }

  /** The fee is exact: the least whole microalgo amount that covers the minimum
      fee and a ten-thousandth of it for every byte past the free ones. */
  lemma FeeIsLeast(minFee: nat, argsLen: nat, fee: nat)
    ensures var charged := if argsLen > 2048 then argsLen - 2048 else 0;
            fee >= FeeFor(minFee, argsLen) <==>
              fee as real >= minFee as real * (1.0 + 0.0001 * charged as real)
  {
    var charged := if argsLen > FREE_APP_ARGS_LEN then argsLen - FREE_APP_ARGS_LEN else 0;
    MillionthsOwed(minFee, charged, minFee * (1000000 + ARG_BYTE_SURCHARGE * charged));
    RoundsUp(minFee * (1000000 + ARG_BYTE_SURCHARGE * charged), fee);
  }

  lemma MillionthsOwed(minFee: nat, charged: nat, owed: nat)
    requires owed == minFee * (1000000 + ARG_BYTE_SURCHARGE * charged)
    ensures owed as real == 1000000.0 * (minFee as real * (1.0 + 0.0001 * charged as real))
  {
    assert owed as real == minFee as real * (1000000 + ARG_BYTE_SURCHARGE * charged) as real;
    assert (1000000 + ARG_BYTE_SURCHARGE * charged) as real == 1000000.0 * (1.0 + 0.0001 * charged as real);
  }

  lemma RoundsUp(owed: nat, fee: nat)
    ensures fee >= (owed + 999999) / 1000000 <==> 1000000.0 * fee as real >= owed as real
  {
    assert fee >= (owed + 999999) / 1000000 <==> fee * 1000000 >= owed;
    assert fee * 1000000 >= owed <==> (fee * 1000000) as real >= owed as real;
  }

  // --------------------------------------------------------- the contract

  /** box_replace: part over the box at offset. */
  function Splice(box: Bytes, offset: nat, part: Bytes): (r: Bytes)
    requires offset + |part| <= |box|
    ensures |r| == |box|
  {
    box[..offset] + part + box[offset + |part|..]
  }

  function Zeros(n: nat): (r: Bytes)
    ensures |r| == n
  {
    seq(n, _ => 0)
  }

  /** A box written up to its offset takes the next part. */
  lemma SpliceExtends(done: Bytes, n: nat, part: Bytes)
    requires |part| <= n
    ensures Splice(done + Zeros(n), |done|, part) == (done + part) + Zeros(n - |part|)
  {
  }

  lemma FourSplices(p0: Bytes, p1: Bytes, p2: Bytes, p3: Bytes)
    ensures var b0 := Zeros(|p0| + |p1| + |p2| + |p3|);
            var b1 := Splice(b0, 0, p0);
            var b2 := Splice(b1, |p0|, p1);
            var b3 := Splice(b2, |p0| + |p1|, p2);
            Splice(b3, |p0| + |p1| + |p2|, p3) == Join([p0, p1, p2, p3])
  {
    var n := |p0| + |p1| + |p2| + |p3|;
    assert Zeros(n) == [] + Zeros(n) && [] + p0 == p0;
    SpliceExtends([], n, p0);
    SpliceExtends(p0, n - |p0|, p1);
    SpliceExtends(p0 + p1, n - |p0| - |p1|, p2);
    SpliceExtends(p0 + p1 + p2, |p3|, p3);
    assert p0 + p1 + p2 + p3 + Zeros(0) == p0 + (p1 + (p2 + p3));
    JoinFour(p0, p1, p2, p3);
  }

  /** The parts of a put call's arguments, when they are as many and encoded as the
      method's signature says. */
  function DecodedParts(args: seq<Bytes>): Option<seq<Bytes>> {
    if |args| == 2 + PUT_PARTS && (forall i :: 2 <= i < 2 + PUT_PARTS ==> DecodeBytes(args[i]).Some?) then
      Some([DecodeBytes(args[2]).value, DecodeBytes(args[3]).value, DecodeBytes(args[4]).value, DecodeBytes(args[5]).value])
    else None
  }

  lemma JoinedLength(a: Bytes, b: Bytes, c: Bytes, d: Bytes)
    ensures |Join([a, b, c, d])| == |a| + |b| + |c| + |d|
  {
    JoinFour(a, b, c, d);
  }

  /** The contract's boxes. A program that fails leaves no trace: the
      transaction is undone. */
  class Contract {
    const creator: Bytes
    var boxes: map<Bytes, Bytes>

    constructor (creator: Bytes)
      ensures this.creator == creator && boxes == map[]
    {
      this.creator, boxes := creator, map[];
    }

    method Delete(key: Bytes)
      modifies this
      ensures boxes == old(boxes) - {key}
    {
      boxes := boxes - {key};
    }

    /** A new box is all zeros, and no box is over the AVM's limit. */
    method Create(key: Bytes, size: nat) returns (ok: bool)
      requires key !in boxes
      modifies this
      ensures ok <==> size <= 32768
      ensures boxes == if ok then old(boxes)[key := Zeros(size)] else old(boxes)
    {
      ok := size <= MAX_BOX_SIZE;
      if ok {
        boxes := boxes[key := Zeros(size)];
      }
    }

    method Replace(key: Bytes, offset: nat, part: Bytes)
      requires key in boxes && offset + |part| <= |boxes[key]|
      modifies this
      ensures boxes == old(boxes)[key := Splice(old(boxes)[key], offset, part)]
    {
      boxes := boxes[key := Splice(boxes[key], offset, part)];
    }

    /** put: deletes the old box, creates one of the parts' total size and writes
        them at a running offset. The box then holds their concatenation,
        whatever was there before, and no other box has changed. */
    method Put(sender: Bytes, tag: Bytes, part0: Bytes, part1: Bytes, part2: Bytes, part3: Bytes) returns (ok: bool)
      modifies this
      ensures ok <==> sender == creator && |part0| + |part1| + |part2| + |part3| <= 32768
      ensures boxes == if ok then old(boxes)[tag := Join([part0, part1, part2, part3])] else old(boxes)
    {
      if sender != creator {
        return false;
      }
      var before := boxes;
      Delete(tag);
      ok := Create(tag, |part0| + |part1| + |part2| + |part3|);
      if !ok {
        boxes := before;
        return;
      }
      WriteParts(tag, part0, part1, part2, part3);
    }

    /** A put call as it arrives: six arguments, the last four length-prefixed. */
    method CallPut(sender: Bytes, args: seq<Bytes>) returns (ok: bool)
      modifies this
      ensures var parts := DecodedParts(args);
              && (ok <==> parts.Some? && sender == creator && |Join(parts.value)| <= 32768)
              && boxes == if ok then old(boxes)[args[1] := Join(parts.value)] else old(boxes)
    {
      if |args| != 2 + PUT_PARTS {
        return false;
      }
      var p0, p1, p2, p3 := DecodeBytes(args[2]), DecodeBytes(args[3]), DecodeBytes(args[4]), DecodeBytes(args[5]);
      if p0.None? || p1.None? || p2.None? || p3.None? {
        return false;
      }
      JoinedLength(p0.value, p1.value, p2.value, p3.value);
      ok := Put(sender, args[1], p0.value, p1.value, p2.value, p3.value);
    }

    /** The whole way: a value of any length the registry takes is split, encoded,
        sent and decoded, and the box then holds exactly it. */
    method Publish(sender: Bytes, selector: Bytes, tag: Bytes, value: Bytes) returns (ok: bool)
      requires |selector| == SELECTOR_LEN && |tag| == TAG_LEN
      modifies this
      ensures ok <==> sender == creator && |value| <= MAX_VALUE_LEN
      ensures boxes == if ok then old(boxes)[tag := value] else old(boxes)
    {
      var args := PutArgs(selector, tag, value);
      if args.None? {
        return false;
      }
      PutRoundTrips(selector, tag, value, args.value);
      ok := CallPut(sender, args.value);
    }

    /** put's four writes at a running offset. */
    method WriteParts(tag: Bytes, part0: Bytes, part1: Bytes, part2: Bytes, part3: Bytes)
      requires tag in boxes && boxes[tag] == Zeros(|part0| + |part1| + |part2| + |part3|)
      modifies this
      ensures boxes == old(boxes)[tag := Join([part0, part1, part2, part3])]
    {
      var offset := 0;
      Replace(tag, offset, part0);
      offset := offset + |part0|;
      Replace(tag, offset, part1);
      offset := offset + |part1|;
      Replace(tag, offset, part2);
      offset := offset + |part2|;
      Replace(tag, offset, part3);
      FourSplices(part0, part1, part2, part3);
    }

    /** remove: removing a missing record is not an error. */
    method Remove(sender: Bytes, tag: Bytes) returns (ok: bool)
      modifies this
      ensures ok <==> sender == creator
      ensures boxes == if ok then old(boxes) - {tag} else old(boxes)
    {
      ok := sender == creator;
      if ok {
        Delete(tag);
      }
    }
  }

  lemma JoinFour(a: Bytes, b: Bytes, c: Bytes, d: Bytes)
    ensures Join([a, b, c, d]) == a + (b + (c + d))
  {
    assert [a, b, c, d][1..] == [b, c, d] && [b, c, d][1..] == [c, d] && [c, d][1..] == [d] && [d][1..] == [];
    assert Join([d]) == d;
    assert Join([c, d]) == c + d;
    assert Join([b, c, d]) == b + (c + d);
  }

  /** The whole way: for every value the encoder accepts, the arguments decode to
      parts whose put leaves exactly that value in the box. */
  lemma PutRoundTrips(selector: Bytes, tag: Bytes, value: Bytes, args: seq<Bytes>)
    requires |value| <= MAX_VALUE_LEN && args == PutCall(selector, tag, Parts(value))
    ensures |args| == 6 && args[0] == selector && args[1] == tag && DecodedParts(args) == Some(Parts(value)) && Join(Parts(value)) == value
    ensures |value| <= MAX_BOX_SIZE
  {
    forall i | 0 <= i < PUT_PARTS
      ensures DecodeBytes(args[2 + i]) == Some(Part(value, i))
    {
      DecodeInverts(Part(value, i));
    }
    PartsJoin(value);
  }
}
