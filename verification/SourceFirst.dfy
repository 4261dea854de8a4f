/** Systematic source symbols without the repair matrix: block padding and sub-block
    interleaving (kyproto/src/protocol/driver/av/source_first.rs, section 4.4.1.2 of RFC 6330). */
module SourceFirst {
  import opened Wrappers
  import opened AvPacket
  import opened Fec

  datatype Encoded = Encoded(id: SymbolId, data: Bytes)

  /** Parameters the partition is defined for; every valid object satisfies them. */
  predicate Partitionable(oti: Oti) {
    && 0 < oti.symbolSize && 0 < oti.alignment && 0 < oti.subBlocks && 0 < oti.length
    && oti.symbolSize % oti.alignment == 0 && oti.subBlocks <= oti.symbolSize / oti.alignment
    && 1 <= oti.blocks <= SourceSymbols(oti) <= 0x100_0000
  }

  lemma ValidIsPartitionable(oti: Oti, maxPayload: nat)
    requires ValidOti(oti, maxPayload)
    ensures Partitionable(oti)
  {}

  // ----- Sub-blocks

  /** Where sub-block `n` starts within a symbol, for sub-blocks of the given widths. */
  function Offset(widths: seq<nat>, n: nat): nat
    requires n <= |widths|
  {
    if n == 0 then 0 else Offset(widths, n - 1) + widths[n - 1]
  }

  lemma {:induction false} OffsetMonotone(widths: seq<nat>, m: nat, n: nat)
    requires m <= n <= |widths|
    ensures Offset(widths, m) <= Offset(widths, n)
    decreases n
  {
    if m < n { OffsetMonotone(widths, m, n - 1); }
  }

  // ----- De-interleaving, as a decoder that holds all source symbols of a block does it

  /** The same slice of the first `m` symbols, one after the other. */
  function Column(symbols: seq<Bytes>, start: nat, width: nat, m: nat): Bytes
    requires m <= |symbols| && forall s | 0 <= s < m :: start + width <= |symbols[s]|
  {
    if m == 0 then [] else Column(symbols, start, width, m - 1) + symbols[m - 1][start..start + width]
  }

  /** All sub-blocks up to `n`, each gathered from all symbols. */
  function Deinterleave(widths: seq<nat>, symbols: seq<Bytes>, n: nat): Bytes
    requires n <= |widths| && forall s | 0 <= s < |symbols| :: Offset(widths, n) <= |symbols[s]|
  {
    if n == 0 then []
    else
      var start, width := Offset(widths, n - 1), widths[n - 1];
      assert Offset(widths, n) == start + width;
      Deinterleave(widths, symbols, n - 1) + Column(symbols, start, width, |symbols|)
  }

  /** Appending to symbols does not change what was gathered from them before. */
  ghost predicate Extends(symbols: seq<Bytes>, more: seq<Bytes>) {
    |symbols| == |more| && forall s | 0 <= s < |symbols| :: symbols[s] <= more[s]
  }

  lemma {:induction false} ColumnStable(symbols: seq<Bytes>, more: seq<Bytes>, start: nat, width: nat, m: nat)
    requires Extends(symbols, more) && m <= |symbols| && forall s | 0 <= s < m :: start + width <= |symbols[s]|
    ensures Column(more, start, width, m) == Column(symbols, start, width, m)
  {
    if m > 0 {
      ColumnStable(symbols, more, start, width, m - 1);
      assert symbols[m - 1] <= more[m - 1];
    }
  }

  lemma {:induction false} DeinterleaveStable(widths: seq<nat>, symbols: seq<Bytes>, more: seq<Bytes>, n: nat)
    requires Extends(symbols, more) && n <= |widths|
    requires forall s | 0 <= s < |symbols| :: Offset(widths, n) <= |symbols[s]|
    ensures Deinterleave(widths, more, n) == Deinterleave(widths, symbols, n)
  {
    if n > 0 {
      DeinterleaveStable(widths, symbols, more, n - 1);
      ColumnStable(symbols, more, Offset(widths, n - 1), widths[n - 1], |symbols|);
    }
  }

  /** `m` pieces of the given width. */
  function Pieces(m: nat, width: nat): nat {
    if m == 0 then 0 else Pieces(m - 1, width) + width
  }

  lemma {:induction false} PiecesIs(m: nat, width: nat)
    ensures Pieces(m, width) == m * width
  {
    if m > 0 {
      PiecesIs(m - 1, width);
      assert m * width == (m - 1) * width + width;
    }
  }

  lemma {:induction false} PiecesMonotone(m: nat, k: nat, width: nat)
    requires m <= k
    ensures Pieces(m, width) <= Pieces(k, width)
    decreases k
  {
    if m < k { PiecesMonotone(m, k - 1, width); }
  }

  /** The slice loop of one sub-block: one more piece for every symbol. */
  lemma ColumnGrows(symbols: seq<Bytes>, start: nat, width: nat, m: nat, piece: Bytes)
    requires m < |symbols| && |symbols[m]| == start && |piece| == width
    requires forall s | 0 <= s < m :: |symbols[s]| == start + width
    ensures Column(symbols[m := symbols[m] + piece], start, width, m + 1) == Column(symbols, start, width, m) + piece
  {
    var more := symbols[m := symbols[m] + piece];
    ColumnSame(symbols, more, start, width, m);
    assert more[m][start..start + width] == piece;
  }

  method AppendSubBlock(block: Bytes, symbols: seq<Bytes>, offset: nat, start: nat, width: nat)
    returns (more: seq<Bytes>, end: nat)
    requires forall s | 0 <= s < |symbols| :: |symbols[s]| == start
    requires offset + Pieces(|symbols|, width) <= |block|
    ensures Extends(symbols, more) && forall s | 0 <= s < |more| :: |more[s]| == start + width
    ensures end == offset + Pieces(|symbols|, width)
    ensures Column(more, start, width, |more|) == block[offset..end]
  {
    more, end := symbols, offset;
    for m := 0 to |symbols|
      invariant end == offset + Pieces(m, width) <= |block|
      invariant Extends(symbols, more)
      invariant forall s | 0 <= s < |symbols| :: |more[s]| == if s < m then start + width else start
      invariant Column(more, start, width, m) == block[offset..end]
    {
      PiecesMonotone(m + 1, |symbols|, width);
      assert Pieces(m + 1, width) == Pieces(m, width) + width;
      ColumnGrows(more, start, width, m, block[end..end + width]);
      assert block[offset..end] + block[end..end + width] == block[offset..end + width];
      more := more[m := more[m] + block[end..end + width]];
      end := end + width;
    }
  }

  lemma {:induction false} ColumnSame(symbols: seq<Bytes>, more: seq<Bytes>, start: nat, width: nat, m: nat)
    requires m <= |symbols| && m <= |more| && symbols[..m] == more[..m]
    requires forall s | 0 <= s < m :: start + width <= |symbols[s]|
    ensures forall s | 0 <= s < m :: start + width <= |more[s]|
    ensures Column(more, start, width, m) == Column(symbols, start, width, m)
  {
    assert forall s | 0 <= s < m :: symbols[..m][s] == symbols[s] && more[..m][s] == more[s];
    if m > 0 {
      assert symbols[..m - 1] == symbols[..m][..m - 1] && more[..m - 1] == more[..m][..m - 1];
      ColumnSame(symbols, more, start, width, m - 1);
    }
  }

  lemma PiecesFit(widths: seq<nat>, k: nat, j: nat)
    requires j < |widths|
    ensures k * Offset(widths, j) + Pieces(k, widths[j]) == k * Offset(widths, j + 1) <= k * Offset(widths, |widths|)
  {
    OffsetMonotone(widths, j + 1, |widths|);
    PiecesIs(k, widths[j]);
    assert k * (Offset(widths, j) + widths[j]) == k * Offset(widths, j) + k * widths[j];
  }

  /** The interleaving loops over one padded block. Gathering the sub-blocks back out of the
      symbols gives the block, which determines the symbols. */
  method Interleave(block: Bytes, k: nat, widths: seq<nat>) returns (symbols: seq<Bytes>)
    requires |block| == k * Offset(widths, |widths|)
    ensures |symbols| == k
    ensures forall s | 0 <= s < k :: |symbols[s]| == Offset(widths, |widths|)
    ensures Deinterleave(widths, symbols, |widths|) == block
  {
    symbols := seq(k, _ => []);
    var offset := 0;
    for j := 0 to |widths|
      invariant |symbols| == k && forall s | 0 <= s < k :: |symbols[s]| == Offset(widths, j)
      invariant offset == k * Offset(widths, j) && 0 <= offset <= |block|
      invariant Deinterleave(widths, symbols, j) == block[..offset]
    {
      PiecesFit(widths, k, j);
      var more, end := AppendSubBlock(block, symbols, offset, Offset(widths, j), widths[j]);
      DeinterleaveStable(widths, symbols, more, j);
      assert block[..end] == block[..offset] + block[offset..end];
      symbols, offset := more, end;
    }
  }

  // ----- The sub-block widths of an object

  function Widths(oti: Oti): seq<nat>
    requires 0 < oti.alignment
  {
    var p := PartitionOf(oti.symbolSize / oti.alignment, oti.subBlocks);
    seq(oti.subBlocks, j requires 0 <= j => Part(p, j) * oti.alignment)
  }

  lemma {:induction false} OffsetOfParts(p: Partition, alignment: nat, widths: seq<nat>, n: nat)
    requires n <= |widths| && forall j | 0 <= j < |widths| :: widths[j] == Part(p, j) * alignment
    ensures Offset(widths, n) == PartSum(p, n) * alignment
  {
    if n > 0 {
      OffsetOfParts(p, alignment, widths, n - 1);
      assert (PartSum(p, n - 1) + Part(p, n - 1)) * alignment
             == PartSum(p, n - 1) * alignment + Part(p, n - 1) * alignment;
    }
  }

  /** The sub-blocks of a symbol together are the symbol. */
  lemma SubBlocksFillSymbol(oti: Oti)
    requires Partitionable(oti)
    ensures Offset(Widths(oti), oti.subBlocks) == oti.symbolSize
  {
    var parts := oti.symbolSize / oti.alignment;
    OffsetOfParts(PartitionOf(parts, oti.subBlocks), oti.alignment, Widths(oti), oti.subBlocks);
    PartitionTotal(parts, oti.subBlocks);
    Exact(oti.symbolSize, oti.alignment);
  }

  lemma Exact(n: nat, d: nat)
    requires 0 < d && n % d == 0
    ensures (n / d) * d == n
  {}

  // ----- The whole object

  /** How an object is laid out: symbols per block, and sub-block widths. */
  datatype Layout = Layout(ks: seq<nat>, widths: seq<nat>) {
    function SymbolSize(): nat { Offset(widths, |widths|) }

    /** Symbols of the first `n` blocks together. */
    function Before(n: nat): nat
      requires n <= |ks|
    {
      Offset(ks, n)
    }
  }

  function LayoutOf(oti: Oti): Layout
    requires Partitionable(oti)
  {
    Layout(seq(oti.blocks, b requires 0 <= b => SourceSymbolsForBlock(oti, b)), Widths(oti))
  }

  lemma {:induction false} BeforeIs(oti: Oti, n: nat)
    requires Partitionable(oti) && n <= oti.blocks
    ensures LayoutOf(oti).Before(n) == SymbolsBefore(oti, n)
  {
    if n > 0 {
      BeforeIs(oti, n - 1);
    }
  }

  lemma LayoutFits(oti: Oti)
    requires Partitionable(oti)
    ensures var l := LayoutOf(oti);
            && |l.ks| == oti.blocks && l.SymbolSize() == oti.symbolSize
            && l.Before(oti.blocks) == SourceSymbols(oti)
            && (forall b | 0 <= b < oti.blocks :: 1 <= l.ks[b])
  {
    SubBlocksFillSymbol(oti);
    BeforeIs(oti, oti.blocks);
    BlocksCoverObject(oti);
    PartitionCovers(SourceSymbols(oti), oti.blocks);
  }

  /** Few enough blocks and symbols for the widths of an id. */
  ghost predicate Addressable(l: Layout) {
    |l.ks| <= 0xff && forall b | 0 <= b < |l.ks| :: 1 <= l.ks[b] <= 0x100_0000
  }

  predicate InLayout(l: Layout, id: SymbolId, n: nat)
    requires n <= |l.ks|
  {
    id.block < n && id.esi < l.ks[id.block]
  }

  /** All source symbols of the first `n` blocks are there, each of the symbol size. */
  ghost predicate HasBlocks(l: Layout, received: map<SymbolId, Bytes>, n: nat)
    requires n <= |l.ks|
  {
    forall id | InLayout(l, id, n) :: id in received && |received[id]| == l.SymbolSize()
  }

  function BlockSymbols(received: map<SymbolId, Bytes>, b: u8, k: nat): (symbols: seq<Bytes>)
    requires k <= 0x100_0000 && forall id: SymbolId | id.block == b && id.esi < k :: id in received
    ensures |symbols| == k && forall s | 0 <= s < k :: symbols[s] == received[SymbolId(b, s)]
  {
    seq(k, s requires 0 <= s < k => received[SymbolId(b, s)])
  }

  /** What a decoder that received these source symbols puts together: the first `n` blocks. */
  ghost function Recover(l: Layout, received: map<SymbolId, Bytes>, n: nat): Bytes
    requires Addressable(l) && n <= |l.ks| && HasBlocks(l, received, n)
  {
    if n == 0 then []
    else
      assert forall id: SymbolId | id.block == n - 1 && id.esi < l.ks[n - 1] :: InLayout(l, id, n);
      Recover(l, received, n - 1) + Deinterleave(l.widths, BlockSymbols(received, n - 1, l.ks[n - 1]), |l.widths|)
  }

  /** The symbols received from a sequence of packets. */
  function Received(packets: seq<Encoded>): map<SymbolId, Bytes> {
    if packets == [] then map[]
    else Received(packets[..|packets| - 1])[packets[|packets| - 1].id := packets[|packets| - 1].data]
  }

  lemma {:induction false} RecoverStable(l: Layout, m: map<SymbolId, Bytes>, more: map<SymbolId, Bytes>, n: nat)
    requires Addressable(l) && n <= |l.ks| && HasBlocks(l, m, n)
    requires forall id | InLayout(l, id, n) :: id in more && more[id] == m[id]
    ensures HasBlocks(l, more, n) && Recover(l, more, n) == Recover(l, m, n)
  {
    if n > 0 {
      assert forall id | InLayout(l, id, n - 1) :: InLayout(l, id, n);
      assert forall id: SymbolId | id.block == n - 1 && id.esi < l.ks[n - 1] :: InLayout(l, id, n);
      RecoverStable(l, m, more, n - 1);
      SameSymbols(m, more, n - 1, l.ks[n - 1]);
    }
  }

  lemma SameSymbols(m: map<SymbolId, Bytes>, more: map<SymbolId, Bytes>, b: u8, k: nat)
    requires k <= 0x100_0000
    requires forall id: SymbolId | id.block == b && id.esi < k :: id in m && id in more && more[id] == m[id]
    ensures BlockSymbols(more, b, k) == BlockSymbols(m, b, k)
  {
  }

  /** The object with the padding of its last symbol. */
  function PaddedData(data: Bytes, size: nat): Bytes
    requires |data| <= size
  {
    data + Zeros(size - |data|)
  }

  /** The padded block cut out of the data, as the source does it. */
  function PaddedBlock(data: Bytes, start: nat, end: nat): (block: Bytes)
    requires start <= |data| && start <= end
    ensures |block| == end - start
  {
    var stop := Min(end, |data|);
    data[start..stop] + Zeros(end - stop)
  }

  lemma PaddedBlockIs(data: Bytes, start: nat, end: nat, size: nat)
    requires start <= |data| <= size && start <= end <= size
    ensures PaddedBlock(data, start, end) == PaddedData(data, size)[start..end]
  {}

  /** One packet for each of the symbols of block `b` was added. */
  ghost predicate Appended(packets: seq<Encoded>, more: seq<Encoded>, b: nat, symbols: seq<Bytes>)
    requires b < 0x100 && |symbols| <= 0x100_0000
  {
    && |more| == |packets| + |symbols|
    && Received(more).Keys == Received(packets).Keys + IdsBelow(b, |symbols|)
    && (forall id | id in Received(packets) && id.block != b :: Received(more)[id] == Received(packets)[id])
    && (forall s | 0 <= s < |symbols| ::
          SymbolId(b, s) in Received(more) && Received(more)[SymbolId(b, s)] == symbols[s])
  }

  /** Numbers the symbols of one block and appends them. */
  method AppendBlock(packets: seq<Encoded>, b: u8, symbols: seq<Bytes>) returns (more: seq<Encoded>)
    requires |symbols| <= 0x100_0000
    ensures Appended(packets, more, b, symbols)
  {
    more := packets;
    for s := 0 to |symbols|
      invariant |more| == |packets| + s
      invariant Received(more).Keys == Received(packets).Keys + IdsBelow(b, s)
      invariant forall id | id in Received(packets) && id.block != b :: Received(more)[id] == Received(packets)[id]
      invariant forall i | 0 <= i < s ::
                  SymbolId(b, i) in Received(more) && Received(more)[SymbolId(b, i)] == symbols[i]
    {
      var next := more + [Encoded(SymbolId(b, s), symbols[s])];
      assert next[..|more|] == more;
      more := next;
    }
  }

  /** Every block starts inside the data, so cutting it out never fails. */
  lemma BlockInside(l: Layout, length: nat, b: nat)
    requires b < |l.ks| && 1 <= l.ks[b]
    requires l.Before(|l.ks|) * l.SymbolSize() < length + l.SymbolSize()
    ensures l.Before(b) * l.SymbolSize() <= length
    ensures l.Before(b + 1) * l.SymbolSize() == l.Before(b) * l.SymbolSize() + l.ks[b] * l.SymbolSize()
    ensures l.Before(b + 1) * l.SymbolSize() <= l.Before(|l.ks|) * l.SymbolSize()
  {
    OffsetMonotone(l.ks, b + 1, |l.ks|);
    Scaled(l.Before(b), l.ks[b], l.Before(|l.ks|), l.SymbolSize(), length);
  }

  lemma Scaled(before: nat, k: nat, total: nat, t: nat, length: nat)
    requires 1 <= k && before + k <= total && total * t < length + t
    ensures before * t <= length && (before + k) * t == before * t + k * t && (before + k) * t <= total * t
  {
    assert (before + 1) * t <= total * t;
    assert (before + 1) * t == before * t + t;
  }

  lemma RecoverNext(l: Layout, m: map<SymbolId, Bytes>, more: map<SymbolId, Bytes>, n: nat, symbols: seq<Bytes>)
    requires Addressable(l) && n < |l.ks| && HasBlocks(l, m, n) && |symbols| == l.ks[n]
    requires forall s | 0 <= s < |symbols| :: |symbols[s]| == l.SymbolSize()
    requires forall id | id in m && id.block != n :: id in more && more[id] == m[id]
    requires forall s | 0 <= s < |symbols| :: SymbolId(n, s) in more && more[SymbolId(n, s)] == symbols[s]
    ensures HasBlocks(l, more, n + 1)
    ensures Recover(l, more, n + 1) == Recover(l, m, n) + Deinterleave(l.widths, symbols, |l.widths|)
  {
    forall id | InLayout(l, id, n + 1) ensures id in more && |more[id]| == l.SymbolSize() {
      if id.block == n {
        assert id == SymbolId(n, id.esi);
        assert |symbols[id.esi]| == l.SymbolSize();
      } else {
        assert InLayout(l, id, n);
      }
    }
    RecoverStable(l, m, more, n);
    assert BlockSymbols(more, n, l.ks[n]) == symbols;
  }

  /** The first `b` blocks are encoded: one packet for each of their ids, which recover them. */
  ghost predicate EncodedBlocks(l: Layout, packets: seq<Encoded>, b: nat, padded: Bytes) {
    && Addressable(l) && b <= |l.ks| && |packets| == l.Before(b)
    && (forall id :: id in Received(packets) <==> InLayout(l, id, b))
    && HasBlocks(l, Received(packets), b)
    && l.Before(b) * l.SymbolSize() <= |padded|
    && Recover(l, Received(packets), b) == padded[..l.Before(b) * l.SymbolSize()]
  }

  /** The symbols put together make block `b` of the padded data. */
  ghost predicate IsBlock(l: Layout, b: nat, symbols: seq<Bytes>, padded: Bytes, start: nat, end: nat)
    requires b < |l.ks|
  {
    && start == l.Before(b) * l.SymbolSize() && end == l.Before(b + 1) * l.SymbolSize()
    && |symbols| == l.ks[b] && (forall s | 0 <= s < |symbols| :: |symbols[s]| == l.SymbolSize())
    && start <= end <= |padded|
    && Deinterleave(l.widths, symbols, |l.widths|) == padded[start..end]
  }

  lemma EncodedNext(l: Layout, packets: seq<Encoded>, more: seq<Encoded>, b: nat, symbols: seq<Bytes>, padded: Bytes,
                    start: nat, end: nat)
    requires EncodedBlocks(l, packets, b, padded) && b < |l.ks| && IsBlock(l, b, symbols, padded, start, end)
    requires Appended(packets, more, b, symbols)
    ensures EncodedBlocks(l, more, b + 1, padded)
  {
    RecoverNext(l, Received(packets), Received(more), b, symbols);
    assert padded[..end] == padded[..start] + padded[start..end];
    forall id ensures id in Received(more) <==> InLayout(l, id, b + 1) {
      assert id in Received(more) <==> id in Received(packets).Keys || id in IdsBelow(b, |symbols|);
    }
  }

  /** Cuts out one block, pads and interleaves it. */
  method CutBlock(data: Bytes, l: Layout, b: nat, ghost padded: Bytes)
      returns (symbols: seq<Bytes>, start: nat, end: nat)
    requires Addressable(l) && b < |l.ks|
    requires |data| <= |padded| == l.Before(|l.ks|) * l.SymbolSize() < |data| + l.SymbolSize()
    requires padded == PaddedData(data, |padded|)
    ensures IsBlock(l, b, symbols, padded, start, end)
  {
    BlockInside(l, |data|, b);
    start, end := l.Before(b) * l.SymbolSize(), l.Before(b + 1) * l.SymbolSize();
    PaddedBlockIs(data, start, end, |padded|);
    symbols := Interleave(PaddedBlock(data, start, end), l.ks[b], l.widths);
  }

  /** One block: cut out, padded, interleaved and numbered. */
  method EncodeBlock(data: Bytes, l: Layout, packets: seq<Encoded>, b: nat, ghost padded: Bytes)
    returns (more: seq<Encoded>)
    requires |data| <= |padded| == l.Before(|l.ks|) * l.SymbolSize() < |data| + l.SymbolSize()
    requires padded == PaddedData(data, |padded|)
    requires EncodedBlocks(l, packets, b, padded) && b < |l.ks|
    ensures EncodedBlocks(l, more, b + 1, padded)
  {
    var symbols, start, end := CutBlock(data, l, b, padded);
    more := AppendBlock(packets, b, symbols);
    EncodedNext(l, packets, more, b, symbols, padded, start, end);
  }

  method EncodeBlocks(data: Bytes, l: Layout) returns (packets: seq<Encoded>)
    requires Addressable(l)
    requires |data| <= l.Before(|l.ks|) * l.SymbolSize() < |data| + l.SymbolSize()
    ensures EncodedBlocks(l, packets, |l.ks|, PaddedData(data, l.Before(|l.ks|) * l.SymbolSize()))
  {
    ghost var padded := PaddedData(data, l.Before(|l.ks|) * l.SymbolSize());
    packets := [];
    for b := 0 to |l.ks|
      invariant EncodedBlocks(l, packets, b, padded)
    {
      packets := EncodeBlock(data, l, packets, b, padded);
    }
  }

  /** The source packets of an object: as many as it has source symbols, one for each source id,
      each of the symbol size; and a decoder that holds them all puts the data together again. */
  method SourcePackets(data: Bytes, oti: Oti) returns (packets: seq<Encoded>)
    requires Partitionable(oti) && |data| == oti.length
    ensures |packets| == SourceSymbols(oti)
    ensures Received(packets).Keys == SourceIds(oti, oti.blocks)
    ensures Addressable(LayoutOf(oti)) && |LayoutOf(oti).ks| == oti.blocks
    ensures LayoutOf(oti).SymbolSize() == oti.symbolSize
    ensures HasBlocks(LayoutOf(oti), Received(packets), oti.blocks)
    ensures oti.length <= |Recover(LayoutOf(oti), Received(packets), oti.blocks)|
    ensures Recover(LayoutOf(oti), Received(packets), oti.blocks)[..oti.length] == data
  {
    LayoutFits(oti);
    DivCeilBounds(oti.length, oti.symbolSize);
    BlockBound(oti);
    packets := EncodeBlocks(data, LayoutOf(oti));
    SourceIdsMembers(oti, oti.blocks);
    LayoutIds(oti);
  }

  lemma LayoutIds(oti: Oti)
    requires Partitionable(oti)
    ensures forall id :: IsSource(oti, id) <==> InLayout(LayoutOf(oti), id, |LayoutOf(oti).ks|)
  {}

  lemma BlockBound(oti: Oti)
    requires Partitionable(oti)
    ensures forall b | 0 <= b < oti.blocks :: LayoutOf(oti).ks[b] <= 0x100_0000
  {
    forall b | 0 <= b < oti.blocks ensures LayoutOf(oti).ks[b] <= 0x100_0000 {
      BlockWithinObject(oti, b);
    }
  }
}
