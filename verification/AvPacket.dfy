/** Packet headers and the packet byte stream (kymux-types/src/av.rs). */
module AvPacket {
  import opened Wrappers
  import BigEndian

  const HEADER_SIZE: nat := 12
  const PTS_LIMIT: nat := 0x2000_0000_0000_0000  // 2^61

  type u8 = x: int | 0 <= x < 0x100
  type u16 = x: int | 0 <= x < 0x1_0000
  type u32 = x: int | 0 <= x < 0x1_0000_0000

  datatype CodecHeader = CodecHeader(codec: u32, rotation: u8, frameSize: u16)
  datatype MediaHeader = MediaHeader(isConfig: bool, isKey: bool, pts: nat, size: u32)

  datatype Packet =
    | Codec(header: CodecHeader)
    | Media(media: MediaHeader, payload: Bytes)
    | Hole(missingSamples: u32)

  datatype Header =
    | CodecHead(codec: CodecHeader)
    | MediaHead(media: MediaHeader)
    | HoleHead(missingSamples: u32)

  // ----- Serialization

  function Zeros(n: nat): (b: Bytes)
    ensures |b| == n
    ensures forall i | 0 <= i < n :: b[i] == 0
  {
    seq(n, _ => 0)
  }

  function SerializeCodec(h: CodecHeader): (b: Bytes)
    ensures |b| == HEADER_SIZE
  {
    BigEndian.Write(h.codec, 4) + [h.rotation] + BigEndian.Write(h.frameSize, 2) + Zeros(5)
  }

  /** The presentation time with the media, config and key flags above its 61 bits. */
  function PtsAndFlags(h: MediaHeader): nat {
    h.pts
    + 4 * PTS_LIMIT
    + (if h.isConfig then 2 * PTS_LIMIT else 0)
    + (if h.isKey then PTS_LIMIT else 0)
  }

  function SerializeMedia(h: MediaHeader): (b: Bytes)
    requires h.pts < PTS_LIMIT
    ensures |b| == HEADER_SIZE
  {
    BigEndian.Write(PtsAndFlags(h), 8) + BigEndian.Write(h.size, 4)
  }

  function SerializeHole(samples: u32): (b: Bytes)
    ensures |b| == HEADER_SIZE
  {
    Zeros(4) + BigEndian.Write(samples, 4) + Zeros(4)
  }

  // ----- Deserialization. `None` stands for a failed assertion.

  function ReadU16(b: Bytes): (v: u16)
    requires |b| == 2
  {
    BigEndian.Widths();
    BigEndian.Read(b)
  }

  function ReadU32(b: Bytes): (v: u32)
    requires |b| == 4
  {
    BigEndian.Widths();
    BigEndian.Read(b)
  }

  function DeserializeCodec(b: Bytes): CodecHeader
    requires |b| == HEADER_SIZE
  {
    CodecHeader(ReadU32(b[..4]), b[4], ReadU16(b[5..7]))
  }

  function DeserializeMedia(b: Bytes): MediaHeader
    requires |b| == HEADER_SIZE
  {
    var v := BigEndian.Read(b[..8]);
    MediaHeader((v / (2 * PTS_LIMIT)) % 2 == 1, (v / PTS_LIMIT) % 2 == 1, v % PTS_LIMIT, ReadU32(b[8..]))
  }

  function DeserializeHeader(b: Bytes): Option<Header>
    requires |b| == HEADER_SIZE
  {
    if 0x80 <= b[0] then Some(MediaHead(DeserializeMedia(b)))
    else if b[0] == 0 && b[1] == 0 && b[2] == 0 && b[3] == 0 then
      var samples := ReadU32(b[4..8]);
      if samples == 0 then None else Some(HoleHead(samples))
    else Some(CodecHead(DeserializeCodec(b)))
  }

  // ----- The stream

  function Write(p: Packet): Bytes
    requires p.Media? ==> p.media.pts < PTS_LIMIT
  {
    match p
    case Codec(h) => SerializeCodec(h)
    case Media(h, payload) => SerializeMedia(h) + payload
    case Hole(samples) => SerializeHole(samples)
  }

  datatype ReadResult =
    | Got(packet: Packet, rest: Bytes)
    | EndOfStream            // fewer than twelve bytes left
    | Truncated              // the payload ends early: an I/O error
    | Panicked               // a hole without missing samples

  function Read(b: Bytes): ReadResult {
    if |b| < HEADER_SIZE then EndOfStream
    else
      match DeserializeHeader(b[..HEADER_SIZE])
      case None => Panicked
      case Some(CodecHead(h)) => Got(Codec(h), b[HEADER_SIZE..])
      case Some(HoleHead(samples)) => Got(Hole(samples), b[HEADER_SIZE..])
      case Some(MediaHead(h)) =>
        if |b| < HEADER_SIZE + h.size then Truncated
        else Got(Media(h, b[HEADER_SIZE..][..h.size]), b[HEADER_SIZE..][h.size..])
  }

  /** What the twelve-byte header can tell apart: a codec number that looks neither like
      a media header nor like a hole, a size that is the payload's, a hole that is one. */
  predicate Representable(p: Packet) {
    match p
    case Codec(h) => 0 < h.codec < 0x8000_0000
    case Media(h, payload) => h.size == |payload|
    case Hole(samples) => 0 < samples
  }

  lemma FlagsRoundTrip(h: MediaHeader)
    requires h.pts < PTS_LIMIT
    ensures var v := PtsAndFlags(h);
            && v < 0x1_0000_0000_0000_0000
            && ((v / (2 * PTS_LIMIT)) % 2 == 1) == h.isConfig
            && ((v / PTS_LIMIT) % 2 == 1) == h.isKey
            && v % PTS_LIMIT == h.pts
            && 0x80 <= v / 0x100_0000_0000_0000
  {
    var v := PtsAndFlags(h);
    assert v / (2 * PTS_LIMIT) == 2 + if h.isConfig then 1 else 0;
    assert v / PTS_LIMIT == 4 + (if h.isConfig then 2 else 0) + if h.isKey then 1 else 0;
  }

  /** Media headers survive serialization, and carry the media bit. */
  lemma MediaHeaderRoundTrip(h: MediaHeader)
    requires h.pts < PTS_LIMIT
    ensures SerializeMedia(h)[0] >= 0x80
    ensures DeserializeMedia(SerializeMedia(h)) == h
  {
    var b := SerializeMedia(h);
    var v := PtsAndFlags(h);
    FlagsRoundTrip(h);
    BigEndian.Widths();
    assert b[..8] == BigEndian.Write(v, 8);
    assert b[8..] == BigEndian.Write(h.size, 4);
    BigEndian.ReadWrite(v, 8);
    BigEndian.ReadWrite(h.size, 4);
    assert BigEndian.Pow256(7) == 0x100_0000_0000_0000 by {
      assert BigEndian.Pow256(8) == 256 * BigEndian.Pow256(7);
    }
    BigEndian.LeadingByte(v, 8);
    assert b[0] == BigEndian.Write(v, 8)[0];
  }

  lemma CodecHeaderRoundTrip(h: CodecHeader)
    ensures var b := SerializeCodec(h);
            && DeserializeCodec(b) == h
            && BigEndian.Read(b[..4]) == h.codec
            && b[0] == h.codec / 0x100_0000
  {
    var b := SerializeCodec(h);
    BigEndian.Widths();
    assert b[..4] == BigEndian.Write(h.codec, 4);
    assert b[5..7] == BigEndian.Write(h.frameSize, 2);
    BigEndian.ReadWrite(h.codec, 4);
    BigEndian.ReadWrite(h.frameSize, 2);
    BigEndian.LeadingByte(h.codec, 4);
    assert b[0] == BigEndian.Write(h.codec, 4)[0];
  }

  lemma FourZeros(b: Bytes)
    requires |b| == 4
    ensures BigEndian.Read(b) == 0 <==> b[0] == 0 && b[1] == 0 && b[2] == 0 && b[3] == 0
  {
    var b3, b2, b1 := b[..3], b[..2], b[..1];
    assert b3[..2] == b2 && b2[..1] == b1 && b1[..0] == [];
    assert BigEndian.Read(b1) == b[0];
    assert BigEndian.Read(b2) == 256 * BigEndian.Read(b1) + b[1];
    assert BigEndian.Read(b3) == 256 * BigEndian.Read(b2) + b[2];
  }

  lemma WriteCodecReads(h: CodecHeader, rest: Bytes)
    ensures Read(Write(Codec(h)) + rest) == Got(Codec(h), rest) <==> 0 < h.codec < 0x8000_0000
  {
    var b := SerializeCodec(h);
    assert (b + rest)[..HEADER_SIZE] == b && (b + rest)[HEADER_SIZE..] == rest;
    CodecHeaderRoundTrip(h);
    FourZeros(b[..4]);
  }

  lemma WriteHoleReads(samples: u32, rest: Bytes)
    ensures Read(Write(Hole(samples)) + rest) == Got(Hole(samples), rest) <==> 0 < samples
  {
    var b := SerializeHole(samples);
    assert (b + rest)[..HEADER_SIZE] == b && (b + rest)[HEADER_SIZE..] == rest;
    assert b[4..8] == BigEndian.Write(samples, 4);
    BigEndian.Widths();
    BigEndian.ReadWrite(samples, 4);
  }

  lemma WriteMediaReads(h: MediaHeader, payload: Bytes, rest: Bytes)
    requires h.pts < PTS_LIMIT
    ensures Read(Write(Media(h, payload)) + rest) == Got(Media(h, payload), rest) <==> h.size == |payload|
  {
    var b := SerializeMedia(h);
    var all := Write(Media(h, payload)) + rest;
    assert all[..HEADER_SIZE] == b;
    assert all[HEADER_SIZE..] == payload + rest;
    MediaHeaderRoundTrip(h);
  }

  /** Reading back what was written gives the packet and leaves the rest of the stream,
      exactly for the representable packets. */
  lemma ReadWritten(p: Packet, rest: Bytes)
    requires p.Media? ==> p.media.pts < PTS_LIMIT
    ensures Read(Write(p) + rest) == Got(p, rest) <==> Representable(p)
  {
    match p
    case Codec(h) => WriteCodecReads(h, rest);
    case Media(h, payload) => WriteMediaReads(h, payload, rest);
    case Hole(samples) => WriteHoleReads(samples, rest);
  }

  function WriteAll(ps: seq<Packet>): Bytes
    requires forall p | p in ps && p.Media? :: p.media.pts < PTS_LIMIT
  {
    if ps == [] then [] else Write(ps[0]) + WriteAll(ps[1..])
  }

  function ReadAll(b: Bytes): (ps: seq<Packet>)
    decreases |b|
  {
    match Read(b)
    case Got(p, rest) => [p] + ReadAll(rest)
    case _ => []
  }

  /** A whole stream of representable packets reads back as it was written. */
  lemma {:induction false} StreamRoundTrip(ps: seq<Packet>)
    requires forall p | p in ps :: Representable(p) && (p.Media? ==> p.media.pts < PTS_LIMIT)
    ensures ReadAll(WriteAll(ps)) == ps
  {
    if ps == [] {
      assert Read([]) == EndOfStream;
    } else {
      StreamRoundTrip(ps[1..]);
      ReadWritten(ps[0], WriteAll(ps[1..]));
      assert ps == [ps[0]] + ps[1..];
    }
  }
}
