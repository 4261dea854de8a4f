/** The video send driver: numbers, groups and the messages of each packet
    (kyproto/src/protocol/driver/av/video_unreliable_fec.rs). */
module VideoSender {
  import opened Wrappers
  import opened AvPacket
  import opened Fec

  const RANGE: nat := 0x1_0000_0000

  /** The packets given numbers, in order: configs on the stream, media as objects. */
  datatype SentPacket =
    | SentConfig(packet: Packet)
    | SentMedia(media: MediaHeader, payload: Bytes, oti: Oti)

  function PacketOf(s: SentPacket): Packet {
    match s
    case SentConfig(packet) => packet
    case SentMedia(media, payload, _) => Media(media, payload)
  }

  /** How many configs there are: the group counter after these packets. */
  function Groups(sent: seq<SentPacket>): nat {
    if sent == [] then 0
    else Groups(sent[..|sent| - 1]) + if sent[|sent| - 1].SentConfig? then 1 else 0
  }

  /** The group number sent with packet `k`. */
  function GroupOf(sent: seq<SentPacket>, k: nat): nat
    requires k < |sent|
  {
    Groups(sent[..k + 1])
  }

  lemma {:induction false} GroupsMonotone(sent: seq<SentPacket>, j: nat, k: nat)
    requires j <= k <= |sent|
    ensures Groups(sent[..j]) <= Groups(sent[..k])
    decreases k
  {
    if j < k {
      GroupsMonotone(sent, j, k - 1);
      assert sent[..k][..k - 1] == sent[..k - 1];
    }
  }

  /** Group numbers never decrease with packet numbers, and grow at every config. */
  lemma GroupOfMonotone(sent: seq<SentPacket>, j: nat, k: nat)
    requires j <= k < |sent|
    ensures GroupOf(sent, j) <= GroupOf(sent, k)
    ensures j < k && sent[k].SentConfig? ==> GroupOf(sent, j) < GroupOf(sent, k)
  {
    GroupsMonotone(sent, j + 1, k + 1);
    if j < k {
      GroupsMonotone(sent, j + 1, k);
      assert sent[..k + 1][..k] == sent[..k];
    }
  }

  /** So a later group holds only later packets. */
  lemma LaterGroup(sent: seq<SentPacket>, j: nat, k: nat)
    requires j < |sent| && k < |sent| && GroupOf(sent, j) < GroupOf(sent, k)
    ensures j < k
  {
    if k <= j { GroupOfMonotone(sent, k, j); }
  }

  /** A config comes before everything else of its group. */
  lemma ConfigFirst(sent: seq<SentPacket>, c: nat, k: nat)
    requires c < |sent| && k < |sent| && sent[c].SentConfig? && GroupOf(sent, c) == GroupOf(sent, k)
    ensures c <= k
  {
    if k < c { GroupOfMonotone(sent, k, c); }
  }

  // ----- The send driver

  datatype Message =
    | StreamMsg(rawSn: u32, rawGroup: u32, packet: Packet)
    | SymbolMsg(rawSn: u32, rawGroup: u32, oti: Oti, id: SymbolId, data: Bytes)

  /** The erasure-code encoder: the symbol with a given id of an object. */
  type Encoder = (Oti, Bytes, SymbolId) -> Bytes

  function ObjectOf(p: SentPacket): Bytes
    requires p.SentMedia? && p.media.pts < PTS_LIMIT
  {
    SerializeMedia(p.media) + p.payload
  }

  /** The symbol with a given id of a media packet. */
  function SymbolOf(encode: Encoder, p: SentPacket, id: SymbolId): Bytes {
    if p.SentMedia? && p.media.pts < PTS_LIMIT then encode(p.oti, ObjectOf(p), id) else []
  }

  /** The message is the config record or a symbol of packet `k`, and carries that packet's numbers
      modulo the counter range. */
  predicate StampedAs(encode: Encoder, sent: seq<SentPacket>, m: Message, k: nat) {
    && k < |sent| && m.rawSn == k % RANGE && m.rawGroup == GroupOf(sent, k) % RANGE
    && match m
       case StreamMsg(_, _, packet) => sent[k] == SentConfig(packet)
       case SymbolMsg(_, _, oti, id, data) =>
         sent[k].SentMedia? && sent[k].oti == oti && data == SymbolOf(encode, sent[k], id)
  }

  predicate IsCodec(m: Message) {
    m.StreamMsg? && m.packet.Codec? && m.rawSn == 0 && m.rawGroup == 0
  }

  /** The message belongs to a packet already sent, or is a codec record. */
  ghost predicate Stamped(encode: Encoder, sent: seq<SentPacket>, m: Message) {
    IsCodec(m) || exists k :: StampedAs(encode, sent, m, k)
  }

  lemma StampedStays(encode: Encoder, sent: seq<SentPacket>, more: SentPacket, m: Message)
    requires Stamped(encode, sent, m)
    ensures Stamped(encode, sent + [more], m)
  {
    if !IsCodec(m) {
      var k :| StampedAs(encode, sent, m, k);
      assert (sent + [more])[..k + 1] == sent[..k + 1];
      assert StampedAs(encode, sent + [more], m, k);
    }
  }

  function SymbolMsgs(encode: Encoder, rawSn: u32, rawGroup: u32, p: SentPacket, ids: seq<SymbolId>): seq<Message>
    requires p.SentMedia?
  {
    seq(|ids|, i requires 0 <= i < |ids| => SymbolMsg(rawSn, rawGroup, p.oti, ids[i], SymbolOf(encode, p, ids[i])))
  }

  lemma MediaStamped(encode: Encoder, before: seq<SentPacket>, p: SentPacket, wire: seq<Message>, ids: seq<SymbolId>)
    requires p.SentMedia? && forall m | m in wire :: Stamped(encode, before, m)
    ensures Groups(before + [p]) == Groups(before)
    ensures forall m | m in wire + SymbolMsgs(encode, |before| % RANGE, Groups(before) % RANGE, p, ids) ::
              Stamped(encode, before + [p], m)
  {
    var sent := before + [p];
    assert sent[..|before|] == before && sent[..|before| + 1] == sent && sent[|before|] == p;
    var symbolMsgs := SymbolMsgs(encode, |before| % RANGE, Groups(before) % RANGE, p, ids);
    forall m | m in wire + symbolMsgs ensures Stamped(encode, sent, m) {
      if m in wire {
        StampedStays(encode, before, p, m);
      } else {
        assert StampedAs(encode, sent, m, |before|);
      }
    }
  }

  function WrappingIncrement(v: u32): u32 { (v + 1) % RANGE }

  lemma WrapNext(n: nat)
    ensures WrappingIncrement(n % RANGE) == (n + 1) % RANGE
  {
  }

  class SendDriver {
    const encode: Encoder
    var kypacketSeq: u32
    var groupSeq: u32
    var wire: seq<Message>
    ghost var sent: seq<SentPacket>

    ghost predicate Valid()
      reads this
    {
      && kypacketSeq == |sent| % RANGE
      && groupSeq == Groups(sent) % RANGE
      && forall m | m in wire :: Stamped(encode, sent, m)
    }

    constructor (encode: Encoder)
      ensures Valid() && sent == [] && wire == [] && this.encode == encode
    {
      this.encode := encode;
      kypacketSeq, groupSeq, wire, sent := 0, 0, [], [];
    }

    method SendCodec(packet: Packet)
      requires Valid() && packet.Codec?
      modifies this
      ensures Valid() && sent == old(sent)
      ensures wire == old(wire) + [StreamMsg(0, 0, packet)]
    {
      wire := wire + [StreamMsg(0, 0, packet)];
    }

    method SendConfig(packet: Packet)
      requires Valid() && packet.Media? && packet.media.isConfig
      modifies this
      ensures Valid() && sent == old(sent) + [SentConfig(packet)]
      ensures wire == old(wire) + [StreamMsg(|old(sent)| % RANGE, Groups(sent) % RANGE, packet)]
    {
      ghost var before := sent;
      sent := sent + [SentConfig(packet)];
      assert sent[..|before|] == before && sent[..|before| + 1] == sent;
      WrapNext(|before|);
      WrapNext(Groups(before));
      groupSeq := WrappingIncrement(groupSeq);
      forall m | m in wire ensures Stamped(encode, sent, m) { StampedStays(encode, before, SentConfig(packet), m); }
      assert StampedAs(encode, sent, StreamMsg(kypacketSeq, groupSeq, packet), |before|);
      wire := wire + [StreamMsg(kypacketSeq, groupSeq, packet)];
      kypacketSeq := WrappingIncrement(kypacketSeq);
    }

    /** The encoder's parameters and the ids to send are given; all symbols carry the packet's numbers. */
    method SendMedia(media: MediaHeader, payload: Bytes, oti: Oti, ids: seq<SymbolId>)
      requires Valid() && !media.isConfig && media.pts < PTS_LIMIT
      modifies this
      ensures Valid() && sent == old(sent) + [SentMedia(media, payload, oti)]
      ensures wire == old(wire) + SymbolMsgs(encode, |old(sent)| % RANGE, Groups(sent) % RANGE,
                                             SentMedia(media, payload, oti), ids)
    {
      var data := SerializeMedia(media) + payload;
      ghost var packet := SentMedia(media, payload, oti);
      var n := 0;
      while n < |ids|
        invariant 0 <= n <= |ids|
        invariant sent == old(sent) && kypacketSeq == old(kypacketSeq) && groupSeq == old(groupSeq)
        invariant wire == old(wire) + SymbolMsgs(encode, kypacketSeq, groupSeq, packet, ids[..n])
      {
        wire := wire + [SymbolMsg(kypacketSeq, groupSeq, oti, ids[n], encode(oti, data, ids[n]))];
        n := n + 1;
      }
      assert ids[..n] == ids;
      WrapNext(|sent|);
      MediaStamped(encode, sent, packet, old(wire), ids);
      sent := sent + [packet];
      kypacketSeq := WrappingIncrement(kypacketSeq);
    }
  }
}
