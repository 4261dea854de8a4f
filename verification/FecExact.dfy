/** What the FEC checks accept, in both directions: parameters, datagrams, reservations and symbols
    (kyproto/src/protocol/driver/av/fec.rs). */
module FecExact {
  import opened Wrappers
  import opened AvPacket
  import opened Fec
  import BigEndian

  // ----- Parameters

  lemma CeilAtMost(a: nat, b: nat, n: nat)
    requires 0 < b
    ensures DivCeil(a, b) <= n <==> a <= n * b
  {
    DivCeilBounds(a, b);
    var c := DivCeil(a, b);
    if c <= n {
      assert c * b <= n * b;
    } else {
      assert (n + 1) * b <= c * b;
      assert (n + 1) * b == n * b + b;
    }
  }

  lemma QuotientAtLeast(t: nat, al: nat, n: nat)
    requires 0 < al && t % al == 0
    ensures n <= t / al <==> n * al <= t
  {
    var q := t / al;
    assert t == q * al;
    if n <= q {
      assert n * al <= q * al;
    } else {
      assert (q + 1) * al <= n * al;
      assert (q + 1) * al == q * al + al;
    }
  }

  /** Parameters are accepted if and only if the object is within the limit and is cut into whole
      symbols, at least one for each block, at most 131072 in all and at most 56403 for a block. */
  lemma OtiAcceptedIff(oti: Oti, maxPayload: nat)
    ensures ValidOti(oti, maxPayload) <==>
            && HEADER_SIZE <= oti.length <= maxPayload + HEADER_SIZE
            && 0 < oti.symbolSize && 0 < oti.blocks && 0 < oti.alignment && 0 < oti.subBlocks
            && oti.symbolSize % oti.alignment == 0 && oti.subBlocks * oti.alignment <= oti.symbolSize
            && (oti.blocks - 1) * oti.symbolSize < oti.length
            && oti.length <= 131_072 * oti.symbolSize
            && oti.length <= (56_403 * oti.blocks) * oti.symbolSize
  {
    if 0 < oti.symbolSize && 0 < oti.blocks && 0 < oti.alignment {
      CeilAtMost(oti.length, oti.symbolSize, 131_072);
      CeilAtMost(oti.length, oti.symbolSize, oti.blocks - 1);
      CeilAtMost(oti.length, oti.symbolSize, 56_403 * oti.blocks);
      CeilAtMost(SourceSymbols(oti), oti.blocks, 56_403);
      if oti.symbolSize % oti.alignment == 0 {
        QuotientAtLeast(oti.symbolSize, oti.alignment, oti.subBlocks);
      }
    }
  }

  // ----- Reservations

  /** What one block of `k` source symbols of `size` bytes reserves. */
  function BlockReservation(k: nat, size: nat): nat { 3 * (k * size) + 128 * k + 4096 }

  function BlockReservations(oti: Oti, n: nat): nat {
    if n == 0 then 0
    else BlockReservations(oti, n - 1) + BlockReservation(SourceSymbolsForBlock(oti, n - 1), oti.symbolSize)
  }

  /** What `n` blocks with `k` source symbols together reserve. */
  function BlocksReservation(k: nat, size: nat, n: nat): nat { 3 * (k * size) + 128 * k + 4096 * n }

  lemma OneBlockMore(k: nat, more: nat, size: nat, n: nat)
    ensures BlocksReservation(k, size, n) + BlockReservation(more, size) == BlocksReservation(k + more, size, n + 1)
  {
    assert (k + more) * size == k * size + more * size;
  }

  lemma {:induction false} ReservedSoFar(oti: Oti, n: nat)
    ensures BlockReservations(oti, n) == BlocksReservation(SymbolsBefore(oti, n), oti.symbolSize, n)
  {
    if n > 0 {
      ReservedSoFar(oti, n - 1);
      OneBlockMore(SymbolsBefore(oti, n - 1), SourceSymbolsForBlock(oti, n - 1), oti.symbolSize, n - 1);
    }
  }

  /** An object reserves what its blocks reserve: for each source symbol three times its size and 128
      bytes more, and 4096 bytes for each block. */
  lemma ReservedByBlock(oti: Oti)
    requires 0 < oti.blocks
    ensures Reservation(oti) == BlockReservations(oti, oti.blocks)
  {
    ReservedSoFar(oti, oti.blocks);
    BlocksCoverObject(oti);
    Associated(SourceSymbols(oti), oti.symbolSize);
  }

  lemma Associated(n: nat, size: nat)
    ensures 3 * n * size == 3 * (n * size) && (2 * n) * size == 2 * (n * size)
  {
  }

  /** So it covers the object itself and as many symbols again as two for each source symbol. */
  lemma ReservationCovers(oti: Oti, held: nat)
    requires 0 < oti.symbolSize && held <= 2 * SourceSymbols(oti)
    ensures oti.length + held * oti.symbolSize <= Reservation(oti)
  {
    var n := SourceSymbols(oti);
    DivCeilBounds(oti.length, oti.symbolSize);
    assert held * oti.symbolSize <= (2 * n) * oti.symbolSize;
    Associated(n, oti.symbolSize);
  }

  /** Room is refused if and only if there are 128 objects or the bytes would exceed the lane's
      budget, and the refusal says the counts. */
  lemma RoomIff(objects: nat, bytes: nat, additional: nat, maxPayload: nat)
    ensures var r := CheckPending(objects, bytes, additional, maxPayload);
            var budget := if maxPayload == MAX_VIDEO_PAYLOAD then 256 * 1024 * 1024 else 8 * 1024 * 1024;
            && (r.Ok? <==> objects < 128 && bytes + additional <= budget)
            && (r.Err? ==> r.error == BudgetExceeded(objects, bytes, additional))
  {
  }

  // ----- Datagrams

  lemma OtiReadBack(b: Bytes)
    requires |b| == 12 && b[5] == 0
    ensures SerializeOti(DeserializeOti(b)) == b
  {
    BigEndian.WriteRead(b[..5]);
    BigEndian.WriteRead(b[6..8]);
    BigEndian.WriteRead(b[9..11]);
    assert b == b[..5] + [b[5]] + b[6..8] + [b[8]] + b[9..11] + [b[11]];
  }

  lemma IdReadBack(b: Bytes)
    requires |b| == 4
    ensures SerializeId(DeserializeId(b)) == b
  {
    BigEndian.WriteRead(b[1..]);
    assert b == [b[0]] + b[1..];
  }

  /** Only what the sender lays out is accepted: an accepted datagram is its lane's prefix, the
      parameters, the symbol id and the symbol, all acceptable. */
  lemma ParsedIsLaidOut(datagram: Bytes, headerSize: nat, maxPayload: nat)
    requires 16 <= headerSize && ParseDatagram(datagram, headerSize, maxPayload).Ok?
    ensures var s := ParseDatagram(datagram, headerSize, maxPayload).value;
            && headerSize <= |datagram|
            && datagram == datagram[..headerSize - 16] + SerializeOti(s.oti) + SerializeId(s.id) + s.data
            && ValidOti(s.oti, maxPayload) && s.id.block < s.oti.blocks && |s.data| == s.oti.symbolSize
  {
    OtiReadBack(datagram[headerSize - 16..headerSize - 4]);
    IdReadBack(datagram[headerSize - 4..headerSize]);
    assert datagram == datagram[..headerSize - 16] + datagram[headerSize - 16..headerSize - 4]
                       + datagram[headerSize - 4..headerSize] + datagram[headerSize..];
  }

  // ----- Symbols

  /** How many distinct symbols of a block may be held. */
  function SymbolLimit(oti: Oti, block: nat): nat { 2 * SourceSymbolsForBlock(oti, block) + 32 }

  /** Every call of `decode`: a symbol with other parameters, of another block or of another size is
      refused; one held already changes nothing; any other one is refused if and only if as many of
      its block are held as may be, and otherwise is held as well and the answer is the solver's. */
  lemma DecodeExact(solver: Solver, d: Decoder, oti: Oti, id: SymbolId, data: Bytes)
    requires DecoderInv(d)
    ensures var (d', r) := Decode(solver, d, oti, id, data);
            var held := InBlock(d.received.Keys, id.block);
            && d'.oti == d.oti
            && (r.Err? ==> d' == d)
            && (oti != d.oti ==> r == Err(OtiChanged))
            && (oti == d.oti && id.block >= oti.blocks ==> r == Err(BlockOutside))
            && (oti == d.oti && id.block < oti.blocks && |data| != oti.symbolSize ==> r == Err(SymbolLength))
            && (oti == d.oti && id.block < oti.blocks && |data| == oti.symbolSize ==>
                  if id in d.received then d' == d && r == Ok(None)
                  else if |held| >= SymbolLimit(oti, id.block) then r == Err(TooManySymbols)
                  else d'.received == d.received[id := data] && r == Ok(solver(oti, d.received[id := data])))
  {
  }

  /** In particular all source symbols, and as many repair symbols again, are always taken. */
  lemma EnoughAreTaken(solver: Solver, d: Decoder, id: SymbolId, data: Bytes)
    requires DecoderInv(d) && id.block < d.oti.blocks && |data| == d.oti.symbolSize && id !in d.received
    requires |InBlock(d.received.Keys, id.block)| < 2 * SourceSymbolsForBlock(d.oti, id.block)
    ensures Decode(solver, d, d.oti, id, data).1 == Ok(solver(d.oti, d.received[id := data]))
  {
    DecodeExact(solver, d, d.oti, id, data);
  }
}
