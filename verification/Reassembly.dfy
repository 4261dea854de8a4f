/** Media packets cut into plain datagrams and put together again
    (kyproto/src/protocol/driver/av/video_unreliable.rs). */
module Reassembly {
  import opened Wrappers
  import opened AvPacket
  import BigEndian

  const DATAGRAM_HEADER_SIZE: nat := 14
  const END_FLAG: nat := 0x8000_0000

  // ----- The sender

  /** The payloads of the datagrams: all of size `c`, except that the last may be shorter. */
  function Split(data: Bytes, c: nat): (pieces: seq<Bytes>)
    requires c > 0 && data != []
    ensures |pieces| > 0
    decreases |data|
  {
    if |data| <= c then [data] else [data[..c]] + Split(data[c..], c)
  }

  function Join(pieces: seq<Bytes>): Bytes {
    if pieces == [] then [] else Join(pieces[..|pieces| - 1]) + pieces[|pieces| - 1]
  }

  /** The number field: the end flag is or-ed over the top bit of a wrapping 32-bit counter. */
  function NumberAndEnd(number: nat, end: bool): (v: u32) {
    var n := number % 0x1_0000_0000;
    if end && n < END_FLAG then n + END_FLAG else n
  }

  datatype Datagram = Datagram(packetSeq: u32, groupSeq: u32, numberAndEnd: u32, data: Bytes) {
    function Number(): nat { numberAndEnd % END_FLAG }

    predicate End() { numberAndEnd >= END_FLAG }
  }

  function Serialize(endpoint: u16, d: Datagram): Bytes {
    BigEndian.Write(endpoint, 2) + BigEndian.Write(d.packetSeq, 4) + BigEndian.Write(d.groupSeq, 4)
    + BigEndian.Write(d.numberAndEnd, 4) + d.data
  }

  /** A shorter datagram is a failed assertion. */
  function Parse(b: Bytes): Datagram
    requires |b| >= DATAGRAM_HEADER_SIZE
  {
    Datagram(ReadU32(b[2..6]), ReadU32(b[6..10]), ReadU32(b[10..14]), b[14..])
  }

  lemma ParseSerialized(endpoint: u16, d: Datagram)
    ensures |Serialize(endpoint, d)| >= DATAGRAM_HEADER_SIZE && Parse(Serialize(endpoint, d)) == d
  {
    BigEndian.Widths();
    BigEndian.ReadWrite(d.packetSeq, 4);
    BigEndian.ReadWrite(d.groupSeq, 4);
    BigEndian.ReadWrite(d.numberAndEnd, 4);
    Fields(BigEndian.Write(endpoint, 2), BigEndian.Write(d.packetSeq, 4), BigEndian.Write(d.groupSeq, 4),
           BigEndian.Write(d.numberAndEnd, 4), d.data);
  }

  lemma Fields(a: Bytes, b: Bytes, c: Bytes, d: Bytes, e: Bytes)
    requires |a| == 2 && |b| == |c| == |d| == 4
    ensures var all := a + b + c + d + e;
            all[2..6] == b && all[6..10] == c && all[10..14] == d && all[14..] == e
  {
  }

  /** Datagram `i` of a packet. */
  function Nth(packetSeq: u32, groupSeq: u32, pieces: seq<Bytes>, i: nat): Datagram
    requires i < |pieces|
  {
    Datagram(packetSeq, groupSeq, NumberAndEnd(i, i == |pieces| - 1), pieces[i])
  }

  lemma {:induction false} SplitNext(data: Bytes, c: nat, i: nat, offset: nat)
    requires c > 0 && data != [] && offset < |data| && i < |Split(data, c)|
    requires Split(data, c)[i..] == Split(data[offset..], c)
    ensures var size := if c <= |data| - offset then c else |data| - offset;
            && Split(data, c)[i] == data[offset..offset + size]
            && (offset + size == |data| <==> i == |Split(data, c)| - 1)
            && (offset + size < |data| ==> Split(data, c)[i + 1..] == Split(data[offset + size..], c))
  {
    var rest := data[offset..];
    var pieces := Split(data, c);
    assert pieces[i] == pieces[i..][0];
    assert pieces[i + 1..] == pieces[i..][1..];
    if |rest| > c {
      assert rest[..c] == data[offset..offset + c];
      assert rest[c..] == data[offset + c..];
      assert Split(rest, c)[1..] == Split(rest[c..], c);
    } else {
      assert rest == data[offset..offset + |rest|];
      assert |pieces[i..]| == 1;
    }
  }

  /** The sending loop. A datagram payload of 65536 bytes or more is a failed assertion. */
  method SendDatagrams(packetSeq: u32, groupSeq: u32, packet: Packet, maxDatagramSize: nat)
      returns (out: seq<Datagram>)
    requires packet.Media? && packet.media.pts < PTS_LIMIT
    requires maxDatagramSize > DATAGRAM_HEADER_SIZE
    requires maxDatagramSize - DATAGRAM_HEADER_SIZE < 0x1_0000 || HEADER_SIZE + |packet.payload| < 0x1_0000
    ensures var pieces := Split(Write(packet), maxDatagramSize - DATAGRAM_HEADER_SIZE);
            |out| == |pieces| && forall i | 0 <= i < |out| :: out[i] == Nth(packetSeq, groupSeq, pieces, i)
  {
    var data := SerializeMedia(packet.media) + packet.payload;
    var c := maxDatagramSize - DATAGRAM_HEADER_SIZE;
    var offset, number := 0, 0;
    out := [];
    ghost var pieces := Split(data, c);
    assert data[0..] == data && pieces[0..] == pieces;
    while offset < |data|
      invariant 0 <= offset <= |data| && |out| == number <= |pieces|
      invariant offset < |data| ==> number < |pieces| && pieces[number..] == Split(data[offset..], c)
      invariant offset == |data| ==> number == |pieces|
      invariant forall i | 0 <= i < |out| :: out[i] == Nth(packetSeq, groupSeq, pieces, i)
    {
      SplitNext(data, c, number, offset);
      var size := if c <= |data| - offset then c else |data| - offset;
      assert size < 0x1_0000;
      var end := offset + size == |data|;
      out := out + [Datagram(packetSeq, groupSeq, NumberAndEnd(number, end), data[offset..offset + size])];
      offset, number := offset + size, number + 1;
    }
  }

  /** Cutting loses nothing. */
  lemma {:induction false} SplitJoins(data: Bytes, c: nat)
    requires c > 0 && data != []
    ensures Join(Split(data, c)) == data
    decreases |data|
  {
    if |data| > c {
      SplitJoins(data[c..], c);
      JoinFirst(data[..c], Split(data[c..], c));
      assert data == data[..c] + data[c..];
    } else {
      assert Join([data][..0]) == [];
    }
  }

  /** The number of datagrams is the size divided by `c`, rounded up. */
  lemma {:induction false} SplitCount(data: Bytes, c: nat)
    requires c > 0 && data != []
    ensures (|Split(data, c)| - 1) * c < |data| <= |Split(data, c)| * c
    decreases |data|
  {
    if |data| > c {
      SplitCount(data[c..], c);
      var n := |Split(data[c..], c)|;
      assert |Split(data, c)| == n + 1;
      assert n * c == (n - 1) * c + c && (n + 1) * c == n * c + c;
    }
  }

  lemma {:induction false} JoinFirst(first: Bytes, pieces: seq<Bytes>)
    ensures Join([first] + pieces) == first + Join(pieces)
    decreases |pieces|
  {
    var all := [first] + pieces;
    if pieces == [] {
      assert all == [first] && all[..0] == [];
    } else {
      JoinFirst(first, pieces[..|pieces| - 1]);
      assert all[..|all| - 1] == [first] + pieces[..|pieces| - 1];
      assert first + (Join(pieces[..|pieces| - 1]) + pieces[|pieces| - 1])
          == (first + Join(pieces[..|pieces| - 1])) + pieces[|pieces| - 1];
    }
  }

  /** The receiver reads back number and end flag exactly below the flag's own bit. */
  lemma NumberSurvives(n: nat, end: bool)
    ensures var d := Datagram(0, 0, NumberAndEnd(n, end), []);
            d.Number() == n && d.End() == end <==> n < END_FLAG
  {
  }

  // ----- The receiver, for one packet

  /** `segments[i]` is the payload of datagram `i`; `count` and `bytes` are those of the known ones. */
  datatype Segments = Segments(total: Option<nat>, segments: seq<Option<Bytes>>, count: nat, bytes: nat) {
    predicate IsComplete() { total == Some(count) }
  }

  const EMPTY: Segments := Segments(None, [], 0, 0)

  function Resized(segments: seq<Option<Bytes>>, index: nat): (r: seq<Option<Bytes>>)
    ensures |r| > index && |r| >= |segments|
    ensures forall i | 0 <= i < |r| :: r[i] == if i < |segments| then segments[i] else None
  {
    if index < |segments| then segments else segments + seq(index + 1 - |segments|, _ => None)
  }

  /** `None` is the failed assertion that the end is set once. */
  function SetSegment(d: Segments, index: nat, data: Bytes, end: bool): Option<Segments> {
    var segments := Resized(d.segments, index);
    if segments[index].Some? then Some(d.(segments := segments))
    else if end && d.total.Some? then None
    else Some(Segments(if end then Some(index + 1) else d.total,
                       segments[index := Some(data)], d.count + 1, d.bytes + |data|))
  }

  /** `None` is the failed expectation of a missing segment. */
  function Merge(segments: seq<Option<Bytes>>): Option<Bytes> {
    if segments == [] then Some([])
    else
      var before, last := Merge(segments[..|segments| - 1]), segments[|segments| - 1];
      if before.Some? && last.Some? then Some(before.value + last.value) else None
  }

  /** `None` also stands for data too short to hold a header. */
  function Assemble(d: Segments): Option<Packet> {
    var data := Merge(d.segments);
    if data.Some? && |data.value| >= HEADER_SIZE then
      Some(Media(DeserializeMedia(data.value[..HEADER_SIZE]), data.value[HEADER_SIZE..]))
    else None
  }

  datatype Slot = Collecting(segments: Segments) | Assembled(packet: Packet) | Failed

  /** What `insert_datagram` does to the packet the datagram belongs to. */
  function Receive(slot: Slot, m: Datagram): Slot {
    if !slot.Collecting? then slot
    else
      match SetSegment(slot.segments, m.Number(), m.data, m.End())
      case None => Failed
      case Some(d) =>
        if !d.IsComplete() then Collecting(d)
        else
          match Assemble(d)
          case None => Failed
          case Some(packet) => Assembled(packet)
  }

  class DatagramSegments {
    var total: Option<nat>
    var segments: seq<Option<Bytes>>
    var count: nat
    var bytes: nat

    ghost function View(): Segments
      reads this
    {
      Segments(total, segments, count, bytes)
    }

    constructor ()
      ensures View() == EMPTY
    {
      total, segments, count, bytes := None, [], 0, 0;
    }

    /** False if the assertion fails. */
    method Set(index: nat, data: Bytes, end: bool) returns (ok: bool)
      modifies this
      ensures ok == SetSegment(old(View()), index, data, end).Some?
      ensures ok ==> View() == SetSegment(old(View()), index, data, end).value
    {
      if index >= |segments| {
        segments := segments + seq(index + 1 - |segments|, _ => None);
      }
      if segments[index].None? {
        bytes := bytes + |data|;
        segments := segments[index := Some(data)];
        count := count + 1;
        if end {
          if total.Some? {
            return false;
          }
          total := Some(index + 1);
        }
      }
      return true;
    }

    method MergeSegments() returns (data: Option<Bytes>)
      ensures data == Merge(segments)
    {
      var merged := [];
      var i := 0;
      while i < |segments|
        invariant 0 <= i <= |segments|
        invariant Merge(segments[..i]) == Some(merged)
      {
        assert segments[..i + 1][..i] == segments[..i];
        if segments[i].None? {
          MergeNone(segments, i);
          return None;
        }
        merged := merged + segments[i].value;
        i := i + 1;
      }
      assert segments[..i] == segments;
      return Some(merged);
    }

    method AssemblePacket() returns (packet: Option<Packet>)
      ensures packet == Assemble(View())
    {
      var data := MergeSegments();
      if data.None? || |data.value| < HEADER_SIZE {
        return None;
      }
      return Some(Media(DeserializeMedia(data.value[..HEADER_SIZE]), data.value[HEADER_SIZE..]));
    }
  }

  lemma {:induction false} MergeNone(segments: seq<Option<Bytes>>, i: nat)
    requires i < |segments| && segments[i].None?
    ensures Merge(segments).None?
  {
    if i < |segments| - 1 {
      MergeNone(segments[..|segments| - 1], i);
    }
  }

  // ----- Any order, with duplicates

  predicate Within(arrivals: seq<nat>, n: nat) {
    forall k | 0 <= k < |arrivals| :: arrivals[k] < n
  }

  /** The packet's slot after the datagrams with these indices arrived. */
  function Arrive(packetSeq: u32, groupSeq: u32, pieces: seq<Bytes>, arrivals: seq<nat>): Slot
    requires Within(arrivals, |pieces|)
  {
    if arrivals == [] then Collecting(EMPTY)
    else
      var last := arrivals[|arrivals| - 1];
      Receive(Arrive(packetSeq, groupSeq, pieces, arrivals[..|arrivals| - 1]), Nth(packetSeq, groupSeq, pieces, last))
  }

  predicate All(n: nat, arrivals: seq<nat>) {
    forall i | 0 <= i < n :: i in arrivals
  }

  function Filled(segments: seq<Option<Bytes>>): nat {
    if segments == [] then 0
    else Filled(segments[..|segments| - 1]) + if segments[|segments| - 1].Some? then 1 else 0
  }

  function Size(segments: seq<Option<Bytes>>): nat {
    if segments == [] then 0
    else Size(segments[..|segments| - 1])
         + if segments[|segments| - 1].Some? then |segments[|segments| - 1].value| else 0
  }

  /** Exactly the arrived pieces are stored. */
  ghost predicate Holds(d: Segments, pieces: seq<Bytes>, arrivals: seq<nat>) {
    && |d.segments| <= |pieces|
    && (forall i | 0 <= i < |pieces| && i in arrivals :: i < |d.segments|)
    && (forall i | 0 <= i < |d.segments| :: d.segments[i] == if i in arrivals then Some(pieces[i]) else None)
    && d.count == Filled(d.segments) && d.bytes == Size(d.segments)
    && d.total == if |pieces| - 1 in arrivals then Some(|pieces|) else None
  }

  lemma {:induction false} FilledAll(segments: seq<Option<Bytes>>)
    ensures Filled(segments) <= |segments|
    ensures Filled(segments) == |segments| <==> forall i | 0 <= i < |segments| :: segments[i].Some?
  {
    if segments != [] {
      FilledAll(segments[..|segments| - 1]);
    }
  }

  lemma {:induction false} FilledUpdate(segments: seq<Option<Bytes>>, i: nat, data: Bytes)
    requires i < |segments| && segments[i].None?
    ensures Filled(segments[i := Some(data)]) == Filled(segments) + 1
    ensures Size(segments[i := Some(data)]) == Size(segments) + |data|
  {
    var last := |segments| - 1;
    if i < last {
      assert segments[i := Some(data)][..last] == segments[..last][i := Some(data)];
      FilledUpdate(segments[..last], i, data);
    } else {
      assert segments[i := Some(data)][..last] == segments[..last];
    }
  }

  lemma {:induction false} FilledResized(segments: seq<Option<Bytes>>, r: seq<Option<Bytes>>)
    requires |segments| <= |r|
    requires forall i | 0 <= i < |r| :: r[i] == if i < |segments| then segments[i] else None
    ensures Filled(r) == Filled(segments) && Size(r) == Size(segments)
    decreases |r|
  {
    if |r| > |segments| {
      FilledResized(segments, r[..|r| - 1]);
    } else {
      assert r == segments;
    }
  }

  lemma ResizedHolds(d: Segments, pieces: seq<Bytes>, arrivals: seq<nat>, i: nat)
    requires Holds(d, pieces, arrivals) && i < |pieces|
    ensures Holds(d.(segments := Resized(d.segments, i)), pieces, arrivals)
  {
    FilledResized(d.segments, Resized(d.segments, i));
  }

  lemma InNext(arrivals: seq<nat>, i: nat)
    ensures forall k :: k in arrivals + [i] <==> k in arrivals || k == i
  {
  }

  lemma RepeatedHolds(d: Segments, pieces: seq<Bytes>, arrivals: seq<nat>, i: nat)
    requires Holds(d, pieces, arrivals) && i in arrivals
    ensures Holds(d, pieces, arrivals + [i])
  {
    InNext(arrivals, i);
  }

  lemma FilledHolds(d: Segments, pieces: seq<Bytes>, arrivals: seq<nat>, i: nat)
    requires Holds(d, pieces, arrivals) && i < |d.segments| && i !in arrivals
    ensures Holds(Segments(if i == |pieces| - 1 then Some(i + 1) else d.total, d.segments[i := Some(pieces[i])],
                           d.count + 1, d.bytes + |pieces[i]|), pieces, arrivals + [i])
  {
    FilledUpdate(d.segments, i, pieces[i]);
    InNext(arrivals, i);
  }

  lemma SetHolds(d: Segments, pieces: seq<Bytes>, arrivals: seq<nat>, i: nat)
    requires Holds(d, pieces, arrivals) && i < |pieces|
    ensures var r := SetSegment(d, i, pieces[i], i == |pieces| - 1);
            r.Some? && Holds(r.value, pieces, arrivals + [i])
  {
    var e := d.(segments := Resized(d.segments, i));
    ResizedHolds(d, pieces, arrivals, i);
    if e.segments[i].Some? {
      RepeatedHolds(e, pieces, arrivals, i);
    } else {
      FilledHolds(e, pieces, arrivals, i);
    }
  }

  lemma {:induction false} MergeAll(segments: seq<Option<Bytes>>, pieces: seq<Bytes>)
    requires |segments| == |pieces|
    requires forall i | 0 <= i < |pieces| :: segments[i] == Some(pieces[i])
    ensures Merge(segments) == Some(Join(pieces)) && |Join(pieces)| == Size(segments)
  {
    if pieces != [] {
      MergeAll(segments[..|segments| - 1], pieces[..|pieces| - 1]);
    }
  }

  lemma CompleteWhenAll(d: Segments, pieces: seq<Bytes>, arrivals: seq<nat>)
    requires Holds(d, pieces, arrivals) && pieces != []
    ensures d.IsComplete() <==> All(|pieces|, arrivals)
    ensures d.IsComplete() ==> Merge(d.segments) == Some(Join(pieces)) && |Join(pieces)| == d.bytes
  {
    FilledAll(d.segments);
    if All(|pieces|, arrivals) {
      assert |pieces| - 1 in arrivals;
    }
    if d.IsComplete() {
      assert |d.segments| == |pieces|;
      forall i | 0 <= i < |pieces| ensures i in arrivals && d.segments[i] == Some(pieces[i]) {
        assert d.segments[i].Some?;
      }
      MergeAll(d.segments, pieces);
    }
  }

  /** What is known of the slot after any arrivals. */
  ghost predicate SlotOk(slot: Slot, packet: Packet, pieces: seq<Bytes>, arrivals: seq<nat>) {
    match slot
    case Collecting(d) => Holds(d, pieces, arrivals) && !All(|pieces|, arrivals)
    case Assembled(p) => p == packet && All(|pieces|, arrivals)
    case Failed => false
  }

  lemma ReceiveOk(slot: Slot, packet: Packet, pieces: seq<Bytes>, arrivals: seq<nat>, m: Datagram, i: nat)
    requires SlotOk(slot, packet, pieces, arrivals)
    requires packet.Media? && packet.media.pts < PTS_LIMIT && Join(pieces) == Write(packet) && pieces != []
    requires i < |pieces| && m.Number() == i && m.End() == (i == |pieces| - 1) && m.data == pieces[i]
    ensures SlotOk(Receive(slot, m), packet, pieces, arrivals + [i])
  {
    if slot.Collecting? {
      SetHolds(slot.segments, pieces, arrivals, i);
      var d := SetSegment(slot.segments, i, pieces[i], i == |pieces| - 1).value;
      CompleteWhenAll(d, pieces, arrivals + [i]);
      if d.IsComplete() {
        var b := Write(packet);
        assert b[..HEADER_SIZE] == SerializeMedia(packet.media) && b[HEADER_SIZE..] == packet.payload;
        MediaHeaderRoundTrip(packet.media);
      }
    } else {
      forall k | 0 <= k < |pieces| ensures k in arrivals + [i] {
        assert k in arrivals;
      }
    }
  }

  lemma {:induction false} ArriveOk(
      packetSeq: u32, groupSeq: u32, packet: Packet, c: nat, arrivals: seq<nat>)
    requires packet.Media? && packet.media.pts < PTS_LIMIT && c > 0
    requires |Split(Write(packet), c)| <= END_FLAG && Within(arrivals, |Split(Write(packet), c)|)
    ensures var pieces := Split(Write(packet), c);
            SlotOk(Arrive(packetSeq, groupSeq, pieces, arrivals), packet, pieces, arrivals)
    decreases |arrivals|
  {
    var pieces := Split(Write(packet), c);
    if arrivals == [] {
      assert 0 !in arrivals;
    } else {
      var before, i := arrivals[..|arrivals| - 1], arrivals[|arrivals| - 1];
      ArriveOk(packetSeq, groupSeq, packet, c, before);
      SplitJoins(Write(packet), c);
      var m := Nth(packetSeq, groupSeq, pieces, i);
      NumberSurvives(i, i == |pieces| - 1);
      ReceiveOk(Arrive(packetSeq, groupSeq, pieces, before), packet, pieces, before, m, i);
      assert before + [i] == arrivals;
    }
  }

  /** No assertion failed, and the packet that was sent is there exactly if all its datagrams
      arrived. */
  ghost predicate Faithful(packetSeq: u32, groupSeq: u32, packet: Packet, c: nat, arrivals: seq<nat>)
    requires packet.Media? && packet.media.pts < PTS_LIMIT && c > 0
    requires Within(arrivals, |Split(Write(packet), c)|)
  {
    var pieces := Split(Write(packet), c);
    var slot := Arrive(packetSeq, groupSeq, pieces, arrivals);
    if All(|pieces|, arrivals) then slot == Assembled(packet) else slot.Collecting?
  }

  /** For every packet and datagram size: reassembly is right for every arrival order with
      duplicates if and only if the packet takes at most 2^31 datagrams. */
  lemma ReassembledIff(packetSeq: u32, groupSeq: u32, packet: Packet, c: nat)
    requires packet.Media? && packet.media.pts < PTS_LIMIT && c > 0
    ensures (forall arrivals | Within(arrivals, |Split(Write(packet), c)|) ::
               Faithful(packetSeq, groupSeq, packet, c, arrivals))
            <==> |Split(Write(packet), c)| <= END_FLAG
  {
    var pieces := Split(Write(packet), c);
    if |pieces| <= END_FLAG {
      forall arrivals | Within(arrivals, |pieces|) ensures Faithful(packetSeq, groupSeq, packet, c, arrivals) {
        ArriveOk(packetSeq, groupSeq, packet, c, arrivals);
      }
    } else {
      TooManyDatagrams(packetSeq, groupSeq, packet, c);
    }
  }

  /** With more than 2^31 datagrams the number of one of them runs into the end flag: arriving
      first, it is taken for a whole packet. */
  lemma TooManyDatagrams(packetSeq: u32, groupSeq: u32, packet: Packet, c: nat)
    requires packet.Media? && packet.media.pts < PTS_LIMIT && c > 0
    requires |Split(Write(packet), c)| > END_FLAG
    ensures Within([END_FLAG], |Split(Write(packet), c)|)
    ensures !Faithful(packetSeq, groupSeq, packet, c, [END_FLAG])
  {
    var pieces := Split(Write(packet), c);
    var m := Nth(packetSeq, groupSeq, pieces, END_FLAG);
    assert [END_FLAG][..0] == [];
    assert Arrive(packetSeq, groupSeq, pieces, []) == Collecting(EMPTY);
    assert m.Number() == 0 && m.End();
    assert SetSegment(EMPTY, 0, m.data, true).value.IsComplete();
    assert 0 !in [END_FLAG];
  }
}
