/** Validation, accounting and symbol bookkeeping of FEC objects
    (kyproto/src/protocol/driver/av/fec.rs). */
module Fec {
  import opened Wrappers
  import opened AvPacket
  import BigEndian

  const MAX_VIDEO_PAYLOAD: nat := 64 * 1024 * 1024 + 16
  const MAX_AUDIO_PAYLOAD: nat := 64 * 1024
  const MAX_PENDING_OBJECTS: nat := 128
  const MAX_PENDING_GROUPS: nat := 32
  const MAX_SOURCE_SYMBOLS: nat := 131_072
  const MAX_BLOCK_SYMBOLS: nat := 56_403
  const MAX_CONFIG_PAYLOAD: nat := 1024 * 1024
  const VIDEO_BUDGET: nat := 256 * 1024 * 1024
  const AUDIO_BUDGET: nat := 8 * 1024 * 1024

  datatype Error =
    | ObjectLength | ZeroParameter | Alignment | PartitionBounds
    | BlockOutside | SymbolLength | ShortDatagram | ReservedField
    | BudgetExceeded(objects: nat, bytes: nat, additional: nat)
    | OtiChanged | TooManySymbols | NotMedia | MediaMismatch | Incomplete
    | UnexpectedHole | BadConfig | StreamEnded
    | ExpectedConfig | DuplicateConfig | TooManyGroups | GroupChanged
    | ZeroFrameSize | AudioBeforeCodec

  /** Object transmission information, with the field widths of its wire format. */
  datatype Oti = Oti(length: u40, symbolSize: u16, blocks: u8, subBlocks: u16, alignment: u8)
  type u40 = x: int | 0 <= x < 0x100_0000_0000
  type u24 = x: int | 0 <= x < 0x100_0000

  datatype SymbolId = SymbolId(block: u8, esi: u24)

  /** Only reached with `b` positive, once parameters are validated; total for convenience. */
  function DivCeil(a: nat, b: nat): nat {
    if b == 0 then 0 else if a % b == 0 then a / b else a / b + 1
  }

  lemma DivCeilBounds(a: nat, b: nat)
    requires 0 < b
    ensures a <= DivCeil(a, b) * b < a + b
  {
    assert a == b * (a / b) + a % b;
    assert (a / b + 1) * b == b * (a / b) + b;
  }

  function ValidateOti(oti: Oti, maxPayload: nat): Result<(), Error> {
    if !(HEADER_SIZE <= oti.length <= maxPayload + HEADER_SIZE) then Err(ObjectLength)
    else if oti.symbolSize == 0 || oti.blocks == 0 || oti.alignment == 0 || oti.subBlocks == 0 then
      Err(ZeroParameter)
    else if oti.symbolSize % oti.alignment != 0 || oti.subBlocks > oti.symbolSize / oti.alignment then
      Err(Alignment)
    else
      var symbols := DivCeil(oti.length, oti.symbolSize);
      if symbols > MAX_SOURCE_SYMBOLS || oti.blocks > symbols || DivCeil(symbols, oti.blocks) > MAX_BLOCK_SYMBOLS then
        Err(PartitionBounds)
      else
        Ok(())
  }

  predicate ValidOti(oti: Oti, maxPayload: nat) {
    ValidateOti(oti, maxPayload).Ok?
  }

  function SourceSymbols(oti: Oti): nat {
    DivCeil(oti.length, oti.symbolSize)
  }

  // ----- Partition[I, J] of section 4.4.1.2 of RFC 6330

  datatype Partition = Partition(large: nat, small: nat, largeCount: nat, smallCount: nat)

  function PartitionOf(i: nat, j: nat): Partition {
    if j == 0 then Partition(0, 0, 0, 0) else Partition(DivCeil(i, j), i / j, i % j, j - i % j)
  }

  /** The parts differ by at most one, there are `j` of them, and together they make `i`. */
  lemma PartitionCovers(i: nat, j: nat)
    requires 0 < j
    ensures var p := PartitionOf(i, j);
            && p.largeCount + p.smallCount == j
            && p.largeCount * p.large + p.smallCount * p.small == i
            && p.small <= p.large <= p.small + 1
            && (j <= i ==> 1 <= p.small)
  {
    var small, largeCount := i / j, i % j;
    assert i == j * small + largeCount;
    assert largeCount * (small + 1) == largeCount * small + largeCount;
    assert (j - largeCount) * small == j * small - largeCount * small;
    assert small == 0 ==> j * small == 0;
  }

  function Part(p: Partition, n: nat): nat {
    if n < p.largeCount then p.large else p.small
  }

  /** The first `n` parts together. */
  function PartSum(p: Partition, n: nat): nat {
    if n == 0 then 0 else PartSum(p, n - 1) + Part(p, n - 1)
  }

  lemma {:induction false} PartSumIs(p: Partition, n: nat)
    ensures PartSum(p, n) ==
            if n <= p.largeCount then n * p.large else p.largeCount * p.large + (n - p.largeCount) * p.small
  {
    if n > 0 {
      PartSumIs(p, n - 1);
      if n <= p.largeCount {
        assert n * p.large == (n - 1) * p.large + p.large;
      } else {
        var m := n - p.largeCount;
        assert m * p.small == (m - 1) * p.small + p.small;
      }
    }
  }

  lemma {:induction false} PartSumMonotone(p: Partition, m: nat, n: nat)
    requires m <= n
    ensures PartSum(p, m) <= PartSum(p, n)
    decreases n
  {
    if m < n { PartSumMonotone(p, m, n - 1); }
  }

  lemma PartitionTotal(i: nat, j: nat)
    requires 0 < j
    ensures PartSum(PartitionOf(i, j), j) == i
  {
    PartSumIs(PartitionOf(i, j), j);
    PartitionCovers(i, j);
  }

  function SourceSymbolsForBlock(oti: Oti, block: nat): nat {
    Part(PartitionOf(SourceSymbols(oti), oti.blocks), block)
  }

  /** Source symbols of the first `n` blocks together. */
  function SymbolsBefore(oti: Oti, n: nat): nat {
    PartSum(PartitionOf(SourceSymbols(oti), oti.blocks), n)
  }

  /** The blocks' source symbols add up to those of the object. */
  lemma BlocksCoverObject(oti: Oti)
    requires 0 < oti.blocks
    ensures SymbolsBefore(oti, oti.blocks) == SourceSymbols(oti)
  {
    PartitionTotal(SourceSymbols(oti), oti.blocks);
  }

  // ----- Datagrams

  function ValidateSymbol(oti: Oti, id: SymbolId, size: nat): Result<(), Error> {
    if id.block >= oti.blocks then Err(BlockOutside)
    else if size != oti.symbolSize then Err(SymbolLength)
    else Ok(())
  }

  function SerializeOti(oti: Oti): (b: Bytes)
    ensures |b| == 12
  {
    BigEndian.Write(oti.length, 5) + [0] + BigEndian.Write(oti.symbolSize, 2)
    + [oti.blocks] + BigEndian.Write(oti.subBlocks, 2) + [oti.alignment]
  }

  function DeserializeOti(b: Bytes): Oti
    requires |b| == 12
  {
    BigEndian.Widths();
    Oti(BigEndian.Read(b[..5]), ReadU16(b[6..8]), b[8], ReadU16(b[9..11]), b[11])
  }

  function SerializeId(id: SymbolId): (b: Bytes)
    ensures |b| == 4
  {
    [id.block] + BigEndian.Write(id.esi, 3)
  }

  function DeserializeId(b: Bytes): SymbolId
    requires |b| == 4
  {
    BigEndian.Widths();
    SymbolId(b[0], BigEndian.Read(b[1..]))
  }

  datatype Symbol = Symbol(data: Bytes, oti: Oti, id: SymbolId)

  function ParseDatagram(datagram: Bytes, headerSize: nat, maxPayload: nat): Result<Symbol, Error>
    requires 16 <= headerSize
  {
    if |datagram| < headerSize then Err(ShortDatagram)
    else
      var raw := datagram[headerSize - 16..headerSize - 4];
      if raw[5] != 0 then Err(ReservedField)
      else
        var oti := DeserializeOti(raw);
        match ValidateOti(oti, maxPayload)
        case Err(e) => Err(e)
        case Ok(_) =>
          var id := DeserializeId(datagram[headerSize - 4..headerSize]);
          match ValidateSymbol(oti, id, |datagram| - headerSize)
          case Err(e) => Err(e)
          case Ok(_) => Ok(Symbol(datagram[headerSize..], oti, id))
  }

  lemma OtiRoundTrip(oti: Oti)
    ensures DeserializeOti(SerializeOti(oti)) == oti
    ensures SerializeOti(oti)[5] == 0
  {
    var b := SerializeOti(oti);
    BigEndian.Widths();
    assert b[..5] == BigEndian.Write(oti.length, 5);
    assert b[6..8] == BigEndian.Write(oti.symbolSize, 2);
    assert b[9..11] == BigEndian.Write(oti.subBlocks, 2);
    BigEndian.ReadWrite(oti.length, 5);
    BigEndian.ReadWrite(oti.symbolSize, 2);
    BigEndian.ReadWrite(oti.subBlocks, 2);
  }

  lemma IdRoundTrip(id: SymbolId)
    ensures DeserializeId(SerializeId(id)) == id
  {
    var b := SerializeId(id);
    BigEndian.Widths();
    assert b[1..] == BigEndian.Write(id.esi, 3);
    BigEndian.ReadWrite(id.esi, 3);
  }

  /** A datagram as the sender lays it out behind its lane's own prefix parses back to its
      parts, exactly when its parameters, block number and symbol size are acceptable. */
  lemma DatagramRoundTrip(prefix: Bytes, s: Symbol, maxPayload: nat)
    ensures var wire := prefix + SerializeOti(s.oti) + SerializeId(s.id) + s.data;
            ParseDatagram(wire, |prefix| + 16, maxPayload) == Ok(s) <==>
            ValidOti(s.oti, maxPayload) && s.id.block < s.oti.blocks && |s.data| == s.oti.symbolSize
  {
    var wire := prefix + SerializeOti(s.oti) + SerializeId(s.id) + s.data;
    var h := |prefix| + 16;
    assert wire[h - 16..h - 4] == SerializeOti(s.oti);
    assert wire[h - 4..h] == SerializeId(s.id);
    assert wire[h..] == s.data;
    OtiRoundTrip(s.oti);
    IdRoundTrip(s.id);
  }

  // ----- Budget

  function Reservation(oti: Oti): nat {
    var symbols := SourceSymbols(oti);
    3 * symbols * oti.symbolSize + 128 * symbols + 4096 * oti.blocks
  }

  function BudgetOf(maxPayload: nat): nat {
    if maxPayload == MAX_VIDEO_PAYLOAD then VIDEO_BUDGET else AUDIO_BUDGET
  }

  /** Written with the source's subtraction, so that no sum is formed before the bound is known. */
  function CheckPending(objects: nat, bytes: nat, additional: nat, maxPayload: nat): Result<(), Error> {
    var limit := BudgetOf(maxPayload);
    if objects >= MAX_PENDING_OBJECTS || additional > limit || bytes > limit - additional then
      Err(BudgetExceeded(objects, bytes, additional))
    else
      Ok(())
  }

  /** The largest reservation a valid video object can ask for leaves room for a full
      set of the largest configs. */
  lemma ReservationLeavesRoomForConfigs(oti: Oti)
    requires ValidOti(oti, MAX_VIDEO_PAYLOAD)
    ensures Reservation(oti) + MAX_PENDING_GROUPS * MAX_CONFIG_PAYLOAD <= VIDEO_BUDGET
  {
    var symbols := SourceSymbols(oti);
    DivCeilBounds(oti.length, oti.symbolSize);
    assert 3 * symbols * oti.symbolSize == 3 * (symbols * oti.symbolSize);
  }

  // ----- One object's decoder

  /** The erasure-code solver: an object, or nothing yet, from the symbols fed so far. */
  type Solver = (Oti, map<SymbolId, Bytes>) -> Option<Bytes>

  /** `received` plays both the set of ids held and the symbols fed to the solver. */
  datatype DecoderState =
    DecoderState(oti: Oti, received: map<SymbolId, Bytes>, perBlock: seq<nat>, receivedSources: nat)

  type Decoder = d: DecoderState | |d.perBlock| == d.oti.blocks
    witness DecoderState(Oti(0, 0, 0, 0, 0), map[], [], 0)

  function NewDecoder(oti: Oti): Decoder {
    DecoderState(oti, map[], seq(oti.blocks, _ => 0), 0)
  }

  function Decode(solver: Solver, d: Decoder, oti: Oti, id: SymbolId, data: Bytes)
    : (r: (Decoder, Result<Option<Bytes>, Error>))
    ensures r.0.oti == d.oti
  {
    if oti != d.oti then (d, Err(OtiChanged))
    else
      match ValidateSymbol(oti, id, |data|)
      case Err(e) => (d, Err(e))
      case Ok(_) =>
        if id in d.received then (d, Ok(None))
        else
          var sources := SourceSymbolsForBlock(oti, id.block);
          if d.perBlock[id.block] >= 2 * sources + 32 then (d, Err(TooManySymbols))
          else
            var received := d.received[id := data];
            (DecoderState(oti, received, d.perBlock[id.block := d.perBlock[id.block] + 1],
                          d.receivedSources + if id.esi < sources then 1 else 0),
             Ok(solver(oti, received)))
  }

  /** The decoder as the source keeps it: the counts per block in a fixed-size buffer. */
  class ObjectDecoder {
    const oti: Oti
    const perBlock: array<nat>
    var received: map<SymbolId, Bytes>
    var receivedSources: nat

    ghost predicate Valid()
      reads this, perBlock
    {
      perBlock.Length == oti.blocks
    }

    ghost function View(): Decoder
      requires Valid()
      reads this, perBlock
    {
      DecoderState(oti, received, perBlock[..], receivedSources)
    }

    constructor (oti: Oti)
      ensures Valid() && View() == NewDecoder(oti) && fresh(perBlock)
    {
      this.oti := oti;
      perBlock := new nat[oti.blocks](_ => 0);
      received, receivedSources := map[], 0;
    }

    /** A decoder for valid parameters only. */
    static method New(oti: Oti, maxPayload: nat) returns (r: Result<ObjectDecoder, Error>)
      ensures r.Ok? <==> ValidOti(oti, maxPayload)
      ensures r.Ok? ==> fresh(r.value) && fresh(r.value.perBlock)
      ensures r.Ok? ==> r.value.Valid() && r.value.View() == NewDecoder(oti)
      ensures r.Err? ==> ValidateOti(oti, maxPayload) == Err(r.error)
    {
      var valid := ValidateOti(oti, maxPayload);
      if valid.Err? {
        return Err(valid.error);
      }
      var d := new ObjectDecoder(oti);
      return Ok(d);
    }

    method DecodeSymbol(solver: Solver, oti: Oti, id: SymbolId, data: Bytes) returns (r: Result<Option<Bytes>, Error>)
      requires Valid()
      modifies this, perBlock
      ensures Valid() && (View(), r) == Decode(solver, old(View()), oti, id, data)
    {
      if oti != this.oti {
        return Err(OtiChanged);
      }
      var valid := ValidateSymbol(oti, id, |data|);
      if valid.Err? {
        return Err(valid.error);
      }
      if id in received {
        return Ok(None);
      }
      var sources := SourceSymbolsForBlock(oti, id.block);
      if perBlock[id.block] >= 2 * sources + 32 {
        return Err(TooManySymbols);
      }
      received := received[id := data];
      perBlock[id.block] := perBlock[id.block] + 1;
      if id.esi < sources {
        receivedSources := receivedSources + 1;
      }
      return Ok(solver(oti, received));
    }
  }

  ghost function InBlock(ids: set<SymbolId>, block: nat): set<SymbolId> {
    set id | id in ids && id.block == block
  }

  predicate IsSource(oti: Oti, id: SymbolId) {
    id.block < oti.blocks && id.esi < SourceSymbolsForBlock(oti, id.block)
  }

  ghost function SourcesIn(oti: Oti, ids: set<SymbolId>): set<SymbolId> {
    set id | id in ids && IsSource(oti, id)
  }

  /** The counters are exactly the distinct symbols held. */
  ghost predicate DecoderInv(d: Decoder) {
    && (forall id | id in d.received :: id.block < d.oti.blocks)
    && (forall b | 0 <= b < |d.perBlock| ::
          && d.perBlock[b] == |InBlock(d.received.Keys, b)|
          && d.perBlock[b] <= 2 * SourceSymbolsForBlock(d.oti, b) + 32)
    && d.receivedSources == |SourcesIn(d.oti, d.received.Keys)|
  }

  lemma NewDecoderInv(oti: Oti)
    ensures DecoderInv(NewDecoder(oti))
  {
    var d := NewDecoder(oti);
    assert forall b :: InBlock(d.received.Keys, b) == {};
    assert SourcesIn(oti, d.received.Keys) == {};
  }

  lemma AddSymbolInv(d: Decoder, id: SymbolId, data: Bytes)
    requires DecoderInv(d) && id !in d.received && id.block < d.oti.blocks
    requires d.perBlock[id.block] < 2 * SourceSymbolsForBlock(d.oti, id.block) + 32
    ensures DecoderInv(DecoderState(d.oti, d.received[id := data], d.perBlock[id.block := d.perBlock[id.block] + 1],
                               d.receivedSources + if id.esi < SourceSymbolsForBlock(d.oti, id.block) then 1 else 0))
  {
    var keys := d.received.Keys;
    assert d.received[id := data].Keys == keys + {id};
    forall b: nat ensures |InBlock(keys + {id}, b)| == |InBlock(keys, b)| + if b == id.block then 1 else 0 {
      InBlockAdd(keys, id, b);
    }
    SourcesAdd(d.oti, keys, id);
  }

  lemma InBlockAdd(keys: set<SymbolId>, id: SymbolId, b: nat)
    requires id !in keys
    ensures |InBlock(keys + {id}, b)| == |InBlock(keys, b)| + if b == id.block then 1 else 0
  {
    assert InBlock(keys + {id}, b) == if b == id.block then InBlock(keys, b) + {id} else InBlock(keys, b);
  }

  lemma SourcesAdd(oti: Oti, keys: set<SymbolId>, id: SymbolId)
    requires id !in keys
    ensures |SourcesIn(oti, keys + {id})| == |SourcesIn(oti, keys)| + if IsSource(oti, id) then 1 else 0
  {
    assert SourcesIn(oti, keys + {id}) ==
           if IsSource(oti, id) then SourcesIn(oti, keys) + {id} else SourcesIn(oti, keys);
  }

  /** Every decode call, accepted or rejected, keeps the counters exact. */
  lemma DecodeKeepsInv(solver: Solver, d: Decoder, oti: Oti, id: SymbolId, data: Bytes)
    requires DecoderInv(d)
    ensures var r := Decode(solver, d, oti, id, data);
            && DecoderInv(r.0)
            && d.received.Keys <= r.0.received.Keys <= d.received.Keys + {id}
            && (r.1.Ok? ==> id in r.0.received)
            && (r.1.Err? ==> r.0 == d)
  {
    if oti == d.oti && ValidateSymbol(oti, id, |data|).Ok? && id !in d.received
       && d.perBlock[id.block] < 2 * SourceSymbolsForBlock(oti, id.block) + 32
    {
      AddSymbolInv(d, id, data);
    }
  }

  datatype Call = Call(oti: Oti, id: SymbolId, data: Bytes)

  function DecodeAll(solver: Solver, d: Decoder, calls: seq<Call>): Decoder
    decreases |calls|
  {
    if calls == [] then d
    else DecodeAll(solver, Decode(solver, d, calls[0].oti, calls[0].id, calls[0].data).0, calls[1..])
  }

  lemma {:induction false} DecodeAllKeepsInv(solver: Solver, d: Decoder, calls: seq<Call>)
    requires DecoderInv(d)
    ensures DecoderInv(DecodeAll(solver, d, calls))
    ensures DecodeAll(solver, d, calls).oti == d.oti
    decreases |calls|
  {
    if calls != [] {
      DecodeKeepsInv(solver, d, calls[0].oti, calls[0].id, calls[0].data);
      DecodeAllKeepsInv(solver, Decode(solver, d, calls[0].oti, calls[0].id, calls[0].data).0, calls[1..]);
    }
  }

  // ----- Counting the source symbols

  ghost function IdsBelow(block: nat, k: nat): (ids: set<SymbolId>)
    requires block < 0x100
  {
    set esi: u24 | 0 <= esi < k :: SymbolId(block, esi)
  }

  lemma {:induction false} IdsBelowCount(block: nat, k: nat)
    requires block < 0x100 && k <= 0x100_0000
    ensures |IdsBelow(block, k)| == k
  {
    if k > 0 {
      IdsBelowCount(block, k - 1);
      assert IdsBelow(block, k) == IdsBelow(block, k - 1) + {SymbolId(block, k - 1)};
    }
  }

  /** All source ids of the first `n` blocks. */
  ghost function SourceIds(oti: Oti, n: nat): set<SymbolId>
    requires n <= 0x100
  {
    if n == 0 then {} else SourceIds(oti, n - 1) + IdsBelow(n - 1, SourceSymbolsForBlock(oti, n - 1))
  }

  lemma {:induction false} SourceIdsMembers(oti: Oti, n: nat)
    requires n <= oti.blocks
    ensures forall id :: id in SourceIds(oti, n) <==> id.block < n && IsSource(oti, id)
  {
    if n > 0 {
      SourceIdsMembers(oti, n - 1);
    }
  }

  lemma {:induction false} SourceIdsCount(oti: Oti, n: nat)
    requires n <= oti.blocks
    requires SourceSymbols(oti) <= 0x100_0000
    ensures |SourceIds(oti, n)| == SymbolsBefore(oti, n)
  {
    if n > 0 {
      SourceIdsCount(oti, n - 1);
      SourceIdsBlocks(oti, n - 1);
      BlockWithinObject(oti, n - 1);
      AddBlockIds(SourceIds(oti, n - 1), n - 1, SourceSymbolsForBlock(oti, n - 1));
    }
  }

  lemma {:induction false} SourceIdsBlocks(oti: Oti, n: nat)
    requires n <= 0x100
    ensures forall id | id in SourceIds(oti, n) :: id.block < n
  {
    if n > 0 {
      SourceIdsBlocks(oti, n - 1);
    }
  }

  lemma AddBlockIds(ids: set<SymbolId>, block: nat, k: nat)
    requires block < 0x100 && k <= 0x100_0000
    requires forall id | id in ids :: id.block < block
    ensures |ids + IdsBelow(block, k)| == |ids| + k
  {
    IdsBelowCount(block, k);
    assert ids !! IdsBelow(block, k);
  }

  lemma BlockWithinObject(oti: Oti, b: nat)
    requires b < oti.blocks
    ensures SourceSymbolsForBlock(oti, b) <= SourceSymbols(oti)
  {
    BlocksCoverObject(oti);
    PartSumMonotone(PartitionOf(SourceSymbols(oti), oti.blocks), b + 1, oti.blocks);
  }

  /** The source ids of the whole object: as many as the object has source symbols. */
  lemma AllSourceIds(oti: Oti)
    requires 0 < oti.blocks && SourceSymbols(oti) <= 0x100_0000
    ensures |SourceIds(oti, oti.blocks)| == SourceSymbols(oti)
  {
    SourceIdsCount(oti, oti.blocks);
    BlocksCoverObject(oti);
  }

  /** The received source symbols never outnumber the object's, so what is left is exactly
      the number of source ids that were not received. */
  lemma MissingIsExact(d: Decoder)
    requires DecoderInv(d) && 0 < d.oti.blocks && SourceSymbols(d.oti) <= 0x100_0000
    ensures d.receivedSources <= SourceSymbols(d.oti)
    ensures SourceSymbols(d.oti) - d.receivedSources == |SourceIds(d.oti, d.oti.blocks) - d.received.Keys|
  {
    var all := SourceIds(d.oti, d.oti.blocks);
    var held := SourcesIn(d.oti, d.received.Keys);
    AllSourceIds(d.oti);
    SourceIdsMembers(d.oti, d.oti.blocks);
    assert held <= all;
    assert all - d.received.Keys == all - held;
    assert |all - held| == |all| - |held|;
  }

  /** What any sequence of decode calls, from a new decoder of a valid object, has counted. */
  lemma DecoderCounts(solver: Solver, oti: Oti, maxPayload: nat, calls: seq<Call>)
    requires ValidOti(oti, maxPayload)
    ensures var d := DecodeAll(solver, NewDecoder(oti), calls);
            && d.oti == oti && |d.perBlock| == oti.blocks
            && (forall b | 0 <= b < oti.blocks ::
                  d.perBlock[b] == |InBlock(d.received.Keys, b)| <= 2 * SourceSymbolsForBlock(oti, b) + 32)
            && d.receivedSources == |SourcesIn(oti, d.received.Keys)| <= SourceSymbols(oti)
            && SourceSymbols(oti) - d.receivedSources == |SourceIds(oti, oti.blocks) - d.received.Keys|
  {
    NewDecoderInv(oti);
    DecodeAllKeepsInv(solver, NewDecoder(oti), calls);
    MissingIsExact(DecodeAll(solver, NewDecoder(oti), calls));
  }

  // ----- Reconstructed objects and stream records

  /** The reconstructed bytes as a media packet, checked before its header is trusted. */
  function MediaPacket(data: Bytes): Result<Packet, Error> {
    if |data| < HEADER_SIZE || data[0] < 0x80 then Err(NotMedia)
    else
      var h := DeserializeMedia(data[..HEADER_SIZE]);
      if h.isConfig || h.size != |data| - HEADER_SIZE then Err(MediaMismatch)
      else Ok(Media(h, data[HEADER_SIZE..]))
  }

  /** The object a sender makes of a media packet is accepted and gives the packet back,
      exactly for non-config packets whose header states their size. */
  lemma MediaPacketRoundTrip(h: MediaHeader, payload: Bytes)
    requires h.pts < PTS_LIMIT
    ensures MediaPacket(SerializeMedia(h) + payload) == Ok(Media(h, payload)) <==>
            !h.isConfig && h.size == |payload|
  {
    var data := SerializeMedia(h) + payload;
    assert data[..HEADER_SIZE] == SerializeMedia(h);
    assert data[HEADER_SIZE..] == payload;
    MediaHeaderRoundTrip(h);
  }

  function Min(a: nat, b: nat): nat {
    if a <= b then a else b
  }

  /** One record of the companion reliable stream, and the bytes behind it. */
  function ReadStreamPacket(b: Bytes, maxPayload: nat): (r: Result<(Packet, Bytes), Error>)
    ensures r.Ok? ==> !r.value.0.Hole?
    ensures r.Ok? && r.value.0.Media? ==>
              r.value.0.media.isConfig && |r.value.0.payload| <= MAX_CONFIG_PAYLOAD
  {
    if |b| < HEADER_SIZE then Err(StreamEnded)
    else
      var raw := b[..HEADER_SIZE];
      var rest := b[HEADER_SIZE..];
      if raw[0] < 0x80 then
        if raw[..4] == [0, 0, 0, 0] then Err(UnexpectedHole)
        else Ok((Codec(DeserializeCodec(raw)), rest))
      else
        var h := DeserializeMedia(raw);
        if !h.isConfig || h.size > Min(maxPayload, MAX_CONFIG_PAYLOAD) then Err(BadConfig)
        else if |rest| < h.size then Err(StreamEnded)
        else Ok((Media(h, rest[..h.size]), rest[h.size..]))
  }

  /** The records a sender may put on the reliable stream. */
  predicate Acceptable(p: Packet, maxPayload: nat) {
    match p
    case Codec(h) => 0 < h.codec < 0x8000_0000
    case Media(h, payload) => h.isConfig && h.size == |payload| <= Min(maxPayload, MAX_CONFIG_PAYLOAD)
    case Hole(_) => false
  }

  /** A record written to the reliable stream is read back, with the rest of the stream left over,
      exactly if it is an acceptable codec or config. */
  lemma StreamPacketRoundTrip(p: Packet, rest: Bytes, maxPayload: nat)
    requires p.Media? ==> p.media.pts < PTS_LIMIT
    ensures ReadStreamPacket(Write(p) + rest, maxPayload) == Ok((p, rest)) <==> Acceptable(p, maxPayload)
  {
    match p
    case Codec(h) => CodecReadBack(h, rest, maxPayload);
    case Media(h, payload) => ConfigReadBack(h, payload, rest, maxPayload);
    case Hole(samples) =>
      var b := SerializeHole(samples) + rest;
      assert b[..HEADER_SIZE][0] == 0 && b[..HEADER_SIZE][..4] == [0, 0, 0, 0];
  }

  lemma CodecReadBack(h: CodecHeader, rest: Bytes, maxPayload: nat)
    ensures ReadStreamPacket(SerializeCodec(h) + rest, maxPayload) == Ok((Codec(h), rest)) <==>
            0 < h.codec < 0x8000_0000
  {
    var raw := SerializeCodec(h);
    var b := raw + rest;
    assert b[..HEADER_SIZE] == raw && b[HEADER_SIZE..] == rest;
    CodecHeaderRoundTrip(h);
    FourZeros(raw[..4]);
    assert raw[..4] == [raw[0], raw[1], raw[2], raw[3]];
  }

  lemma ConfigReadBack(h: MediaHeader, payload: Bytes, rest: Bytes, maxPayload: nat)
    requires h.pts < PTS_LIMIT
    ensures ReadStreamPacket(SerializeMedia(h) + payload + rest, maxPayload) == Ok((Media(h, payload), rest)) <==>
            h.isConfig && h.size == |payload| <= Min(maxPayload, MAX_CONFIG_PAYLOAD)
  {
    var raw := SerializeMedia(h);
    var b := raw + payload + rest;
    assert b[..HEADER_SIZE] == raw && b[HEADER_SIZE..] == payload + rest;
    MediaHeaderRoundTrip(h);
    if h.size == |payload| {
      assert (payload + rest)[..h.size] == payload && (payload + rest)[h.size..] == rest;
    }
  }
}
