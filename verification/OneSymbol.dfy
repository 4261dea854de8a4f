/** The simplest erasure code: an object that is its own one source symbol. It shows that what the
    theorems ask of encoder and solver can be had, and carries their example runs. */
module OneSymbol {
  import opened Wrappers
  import opened AvPacket
  import opened Fec

  const WHOLE: SymbolId := SymbolId(0, 0)

  function Encode(oti: Oti, bytes: Bytes, id: SymbolId): Bytes {
    if id == WHOLE then bytes else Zeros(oti.symbolSize)
  }

  function Solve(oti: Oti, received: map<SymbolId, Bytes>): Option<Bytes> {
    if WHOLE in received then Some(received[WHOLE]) else None
  }

  function Solving(): Solver { (oti, received) => Solve(oti, received) }

  function Parameters(size: nat): Oti
    requires size < 0x1_0000
  {
    Oti(size, size, 1, 1, 1)
  }

  lemma SingleSymbol(size: nat)
    requires 0 < size
    ensures DivCeil(size, size) == 1 && DivCeil(1, 1) == 1
  {
    assert size % size == 0 && size / size == 1;
  }

  /** Every object up to the symbol size limit is valid with these parameters, in both lanes. */
  lemma ParametersValid(size: nat)
    requires HEADER_SIZE <= size < 0x1_0000
    ensures ValidOti(Parameters(size), MAX_VIDEO_PAYLOAD) && ValidOti(Parameters(size), MAX_AUDIO_PAYLOAD)
    ensures Reservation(Parameters(size)) <= 0x10_0000
  {
    SingleSymbol(size);
    assert size % 1 == 0 && size / 1 == size;
    assert SourceSymbols(Parameters(size)) == 1;
  }

  /** The one symbol is accepted, and gives the media packet it is made of. */
  lemma SymbolSuffices(h: MediaHeader, payload: Bytes)
    requires h.pts < PTS_LIMIT && !h.isConfig && h.size == |payload| && HEADER_SIZE + |payload| < 0x1_0000
    ensures var bytes := SerializeMedia(h) + payload;
            var oti := Parameters(|bytes|);
            && ValidateSymbol(oti, WHOLE, |Encode(oti, bytes, WHOLE)|).Ok?
            && Solve(oti, map[WHOLE := Encode(oti, bytes, WHOLE)]) == Some(bytes)
            && MediaPacket(bytes) == Ok(Media(h, payload))
  {
    MediaPacketRoundTrip(h, payload);
  }
}
