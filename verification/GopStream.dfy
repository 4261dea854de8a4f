/** One stream per group of pictures: the sender's generations, the receiver's state machine, and
    the system they form (kyproto/src/protocol/driver/av/video_gopstream.rs). */
module GopStream {
  import opened Wrappers
  import opened AvPacket

  predicate IsConfig(p: Packet) { p.Media? && p.media.isConfig }

  predicate IsMedia(p: Packet) { p.Media? && !p.media.isConfig }

  datatype Gop = Gop(id: nat, codecGen: nat, configGen: nat)

  /** A stream as written: its ids, then packets, the codec and the config first. */
  datatype Stream = Stream(gop: Gop, packets: seq<Packet>)

  // ----- The sender

  /** A key frame starts a stream with the current codec and config. */
  class Sender {
    var streams: seq<Stream>
    var gopId: nat
    var codecGen: nat
    var codec: Option<Packet>
    var configGen: nat
    var config: Option<Packet>
    ghost var codecs: seq<Packet>   // all codec and config packets sent so far
    ghost var configs: seq<Packet>

    ghost predicate Valid()
      reads this
    {
      && gopId == |streams|
      && codecGen == |codecs| && configGen == |configs|
      && (codec.Some? <==> codecGen > 0) && (codec.Some? ==> codec.value == codecs[codecGen - 1])
      && (config.Some? <==> configGen > 0) && (config.Some? ==> config.value == configs[configGen - 1])
      && Opened(streams, codecs, configs)
    }

    constructor ()
      ensures Valid() && streams == [] && codecs == [] && configs == []
    {
      streams, gopId, codecGen, codec, configGen, config := [], 0, 0, None, 0, None;
      codecs, configs := [], [];
    }

    method SendCodec(packet: Packet)
      requires Valid() && packet.Codec?
      modifies this
      ensures Valid() && streams == old(streams)
      ensures codecs == old(codecs) + [packet] && configs == old(configs)
    {
      MoreGenerations(streams, codecs, configs, packet);
      codecGen := codecGen + 1;
      codec := Some(packet);
      codecs := codecs + [packet];
    }

    method SendConfig(packet: Packet)
      requires Valid() && IsConfig(packet)
      modifies this
      ensures Valid() && streams == old(streams)
      ensures codecs == old(codecs) && configs == old(configs) + [packet]
    {
      MoreGenerations(streams, codecs, configs, packet);
      configGen := configGen + 1;
      config := Some(packet);
      configs := configs + [packet];
    }

    /** A key frame needs a codec and a config to have been sent. */
    method SendMedia(packet: Packet)
      requires Valid() && IsMedia(packet)
      requires packet.media.isKey ==> codecs != [] && configs != []
      modifies this
      ensures Valid() && codecs == old(codecs) && configs == old(configs)
      ensures packet.media.isKey ==>
                streams == old(streams) +
                  [Stream(Gop(|old(streams)|, |codecs|, |configs|),
                          [codecs[|codecs| - 1], configs[|configs| - 1], packet])]
      ensures !packet.media.isKey ==>
                streams == if old(streams) == [] then [] else
                  old(streams)[..|old(streams)| - 1] +
                  [old(streams)[|old(streams)| - 1].(packets := old(streams)[|old(streams)| - 1].packets + [packet])]
    {
      if packet.media.isKey {
        var stream := Stream(Gop(gopId, codecGen, configGen), [codec.value, config.value]);
        OpenStream(streams, codecs, configs, stream);
        streams := streams + [stream];
        gopId := gopId + 1;
      }
      if streams != [] {
        var last := |streams| - 1;
        AppendMedia(streams, codecs, configs, last, packet);
        streams := streams[last := streams[last].(packets := streams[last].packets + [packet])];
      }
      assert packet.media.isKey ==> [codec.value, config.value] + [packet] == [codec.value, config.value, packet];
    }
  }

  /** The stream opens with the codec and config of the generations it names; media follows. */
  ghost predicate StreamOk(s: Stream, i: nat, codecs: seq<Packet>, configs: seq<Packet>) {
    && s.gop.id == i
    && 0 < s.gop.codecGen <= |codecs| && 0 < s.gop.configGen <= |configs|
    && |s.packets| >= 2
    && s.packets[0] == codecs[s.gop.codecGen - 1] && s.packets[1] == configs[s.gop.configGen - 1]
    && s.packets[0].Codec? && IsConfig(s.packets[1])
    && (forall k | 2 <= k < |s.packets| :: IsMedia(s.packets[k]))
  }

  /** Streams are numbered in order, and their generations never decrease. */
  ghost predicate Opened(streams: seq<Stream>, codecs: seq<Packet>, configs: seq<Packet>) {
    && (forall i | 0 <= i < |streams| :: StreamOk(streams[i], i, codecs, configs))
    && (forall i, j | 0 <= i <= j < |streams| ::
          streams[i].gop.codecGen <= streams[j].gop.codecGen && streams[i].gop.configGen <= streams[j].gop.configGen)
    && (forall c | c in codecs :: c.Codec?) && (forall c | c in configs :: IsConfig(c))
  }

  lemma OpenStream(streams: seq<Stream>, codecs: seq<Packet>, configs: seq<Packet>, s: Stream)
    requires Opened(streams, codecs, configs) && StreamOk(s, |streams|, codecs, configs)
    requires s.gop.codecGen == |codecs| && s.gop.configGen == |configs|
    ensures Opened(streams + [s], codecs, configs)
  {
    var more := streams + [s];
    forall i, j | 0 <= i <= j < |more|
      ensures more[i].gop.codecGen <= more[j].gop.codecGen && more[i].gop.configGen <= more[j].gop.configGen
    {
      assert i < |streams| ==> StreamOk(streams[i], i, codecs, configs);
    }
  }

  lemma AppendMedia(streams: seq<Stream>, codecs: seq<Packet>, configs: seq<Packet>, i: nat, packet: Packet)
    requires Opened(streams, codecs, configs) && i < |streams| && IsMedia(packet)
    ensures Opened(streams[i := streams[i].(packets := streams[i].packets + [packet])], codecs, configs)
  {
    assert StreamOk(streams[i], i, codecs, configs);
    var more := streams[i := streams[i].(packets := streams[i].packets + [packet])];
    assert StreamOk(more[i], i, codecs, configs);
    assert forall j | 0 <= j < |streams| :: more[j].gop == streams[j].gop;
  }

  lemma MoreGenerations(streams: seq<Stream>, codecs: seq<Packet>, configs: seq<Packet>, c: Packet)
    requires Opened(streams, codecs, configs)
    ensures c.Codec? ==> Opened(streams, codecs + [c], configs)
    ensures IsConfig(c) ==> Opened(streams, codecs, configs + [c])
  {
    forall i | 0 <= i < |streams|
      ensures StreamOk(streams[i], i, codecs + [c], configs) && StreamOk(streams[i], i, codecs, configs + [c])
    {
      assert StreamOk(streams[i], i, codecs, configs);
    }
  }

  // ----- The receiver

  datatype Msg = IdsMsg(gop: Gop) | PacketMsg(packet: Packet, gopId: nat)

  datatype Receiver = Receiver(gop: Option<Gop>, lastCodecGen: nat, lastConfigGen: nat)

  const START: Receiver := Receiver(None, 0, 0)

  predicate IsNewer(r: Receiver, gop: Gop) { r.gop.None? || gop.id > r.gop.value.id }

  /** Whether a packet of the current stream is passed on: a codec or config only if its
      generation is not the one passed on last. */
  predicate Fresh(r: Receiver, packet: Packet)
    requires r.gop.Some?
  {
    match packet
    case Codec(_) => r.gop.value.codecGen != r.lastCodecGen
    case Media(_, _) => IsConfig(packet) ==> r.gop.value.configGen != r.lastConfigGen
    case Hole(_) => false
  }

  /** The new state, and the packet passed to the client, if any. */
  function Handle(r: Receiver, m: Msg): (Receiver, Option<Packet>) {
    match m
    case IdsMsg(gop) => (if IsNewer(r, gop) then r.(gop := Some(gop)) else r, None)
    case PacketMsg(packet, gopId) =>
      if r.gop.None? || gopId != r.gop.value.id || !Fresh(r, packet) then (r, None)
      else if packet.Codec? then (r.(lastCodecGen := r.gop.value.codecGen), Some(packet))
      else if IsConfig(packet) then (r.(lastConfigGen := r.gop.value.configGen), Some(packet))
      else (r, Some(packet))
  }

  function HandleAll(r: Receiver, msgs: seq<Msg>): Receiver
    decreases |msgs|
  {
    if msgs == [] then r else HandleAll(Handle(r, msgs[0]).0, msgs[1..])
  }

  /** The index of the first message that passes a packet on, or the number of messages. */
  function FirstForwarded(r: Receiver, msgs: seq<Msg>): (n: nat)
    ensures n <= |msgs|
    decreases |msgs|
  {
    if msgs == [] || Handle(r, msgs[0]).1.Some? then 0
    else 1 + FirstForwarded(Handle(r, msgs[0]).0, msgs[1..])
  }

  class RecvDriver {
    var gop: Option<Gop>
    var lastCodecGen: nat
    var lastConfigGen: nat

    ghost function View(): Receiver
      reads this
    {
      Receiver(gop, lastCodecGen, lastConfigGen)
    }

    constructor ()
      ensures View() == START
    {
      gop, lastCodecGen, lastConfigGen := None, 0, 0;
    }

    /** Consumes messages up to and including the first that yields a packet for the client. A hole
        would be a panic, and so would a packet before any stream's ids; see `NeverPanics`. */
    method Recv(msgs: seq<Msg>) returns (packet: Option<Packet>, consumed: nat)
      requires forall m | m in msgs && m.PacketMsg? :: !m.packet.Hole?
      modifies this
      ensures consumed <= |msgs|
      ensures FirstForwarded(old(View()), msgs) == if packet.Some? then consumed - 1 else consumed
      ensures packet.None? ==> consumed == |msgs|
      ensures View() == HandleAll(old(View()), msgs[..consumed])
      ensures packet.Some? ==>
                packet == Handle(HandleAll(old(View()), msgs[..consumed - 1]), msgs[consumed - 1]).1
    {
      consumed := 0;
      while consumed < |msgs|
        invariant 0 <= consumed <= |msgs|
        invariant View() == HandleAll(old(View()), msgs[..consumed])
        invariant FirstForwarded(old(View()), msgs) == consumed + FirstForwarded(View(), msgs[consumed..])
      {
        var m := msgs[consumed];
        ghost var before := View();
        HandleNext(old(View()), msgs, consumed);
        consumed := consumed + 1;
        match m
        case IdsMsg(g) =>
          if gop.None? || g.id > gop.value.id {
            gop := Some(g);
          }
        case PacketMsg(p, gopId) =>
          if gop.Some? && gopId == gop.value.id {
            if p.Codec? {
              if gop.value.codecGen == lastCodecGen {
                continue;
              }
              lastCodecGen := gop.value.codecGen;
            } else if p.media.isConfig {
              if gop.value.configGen == lastConfigGen {
                continue;
              }
              lastConfigGen := gop.value.configGen;
            }
            return Some(p), consumed;
          }
      }
      return None, consumed;
    }
  }

  lemma {:induction false} HandleNext(r: Receiver, msgs: seq<Msg>, n: nat)
    requires n < |msgs|
    ensures HandleAll(r, msgs[..n + 1]) == Handle(HandleAll(r, msgs[..n]), msgs[n]).0
    ensures var q := HandleAll(r, msgs[..n]);
            FirstForwarded(q, msgs[n..]) ==
            if Handle(q, msgs[n]).1.Some? then 0 else 1 + FirstForwarded(Handle(q, msgs[n]).0, msgs[n + 1..])
    decreases n
  {
    assert msgs[n..][1..] == msgs[n + 1..];
    if n > 0 {
      assert msgs[..n + 1][1..] == msgs[1..][..n] && msgs[..n][1..] == msgs[1..][..n - 1];
      HandleNext(Handle(r, msgs[0]).0, msgs[1..], n - 1);
    }
  }

  // ----- The system: any interleaving of stream arrivals, reader tasks and the receive loop

  datatype Output = Output(gopId: nat, packet: Packet)

  /** `readers` are the packet readers started so far and how far each has read; a cancelled
      reader may still have messages in the queue, and here may even go on reading. `handled`
      counts the packets of the current stream that were taken from the queue. */
  datatype System = System(queue: seq<Msg>, readers: map<nat, nat>, recv: Receiver, handled: nat, out: seq<Output>)

  const INITIAL: System := System([], map[], START, 0, [])

  datatype Event = IdsRead(stream: nat) | PacketRead(stream: nat) | Handled

  predicate Possible(streams: seq<Stream>, y: System, e: Event) {
    match e
    case IdsRead(j) => j < |streams|
    case PacketRead(j) => j < |streams| && j in y.readers && y.readers[j] < |streams[j].packets|
    case Handled => y.queue != []
  }

  function Step(streams: seq<Stream>, y: System, e: Event): System
    requires Possible(streams, y, e)
  {
    match e
    case IdsRead(j) => y.(queue := y.queue + [IdsMsg(streams[j].gop)])
    case PacketRead(j) =>
      y.(queue := y.queue + [PacketMsg(streams[j].packets[y.readers[j]], j)],
         readers := y.readers[j := y.readers[j] + 1])
    case Handled =>
      var m := y.queue[0];
      var (recv, packet) := Handle(y.recv, m);
      var rest := y.(queue := y.queue[1..], recv := recv);
      match m
      case IdsMsg(gop) =>
        if IsNewer(y.recv, gop) then rest.(readers := y.readers[gop.id := 0], handled := 0) else rest
      case PacketMsg(_, gopId) =>
        rest.(handled := if y.recv.gop.Some? && y.recv.gop.value.id == gopId then y.handled + 1 else y.handled,
              out := if packet.Some? then y.out + [Output(gopId, packet.value)] else y.out)
  }

  /** The system after a sequence of events; an event that is not possible does nothing. */
  function Run(streams: seq<Stream>, events: seq<Event>): System {
    if events == [] then INITIAL
    else
      var y := Run(streams, events[..|events| - 1]);
      var e := events[|events| - 1];
      if Possible(streams, y, e) then Step(streams, y, e) else y
  }

  // ----- What the client is given

  /** The generation of the last codec passed on; zero if none. */
  function LastCodec(streams: seq<Stream>, out: seq<Output>): nat {
    if out == [] then 0
    else
      var o := out[|out| - 1];
      if o.packet.Codec? && o.gopId < |streams| then streams[o.gopId].gop.codecGen
      else LastCodec(streams, out[..|out| - 1])
  }

  function LastConfig(streams: seq<Stream>, out: seq<Output>): nat {
    if out == [] then 0
    else
      var o := out[|out| - 1];
      if IsConfig(o.packet) && o.gopId < |streams| then streams[o.gopId].gop.configGen
      else LastConfig(streams, out[..|out| - 1])
  }

  /** Stream numbers never decrease; a codec or config is only passed on with a generation above
      the last one; media is only passed on after the generations of its own stream. */
  ghost predicate WellOrdered(streams: seq<Stream>, out: seq<Output>) {
    out == [] ||
    (WellOrdered(streams, out[..|out| - 1]) && InOrder(streams, out[..|out| - 1], out[|out| - 1]))
  }

  /** The same, packet by packet. */
  lemma {:induction false} OrderedAt(streams: seq<Stream>, out: seq<Output>, i: nat)
    requires WellOrdered(streams, out) && i < |out|
    ensures WellOrdered(streams, out[..i]) && InOrder(streams, out[..i], out[i])
    decreases |out|
  {
    var last := |out| - 1;
    if i < last {
      OrderedAt(streams, out[..last], i);
      assert out[..last][..i] == out[..i];
    }
  }

  ghost predicate InOrder(streams: seq<Stream>, before: seq<Output>, o: Output) {
    && o.gopId < |streams| && |streams[o.gopId].packets| >= 2
    && (before != [] ==> before[|before| - 1].gopId <= o.gopId)
    && !o.packet.Hole?
    && (o.packet.Codec? ==>
          LastCodec(streams, before) < streams[o.gopId].gop.codecGen && o.packet == streams[o.gopId].packets[0])
    && (IsConfig(o.packet) ==>
          LastConfig(streams, before) < streams[o.gopId].gop.configGen && o.packet == streams[o.gopId].packets[1])
    && (IsMedia(o.packet) ==>
          LastCodec(streams, before) == streams[o.gopId].gop.codecGen
          && LastConfig(streams, before) == streams[o.gopId].gop.configGen)
  }

  // ----- The invariant

  /** The packets of stream `j` waiting in the queue. */
  function Waiting(queue: seq<Msg>, j: nat): seq<Packet> {
    if queue == [] then []
    else (if queue[0].PacketMsg? && queue[0].gopId == j then [queue[0].packet] else []) + Waiting(queue[1..], j)
  }

  lemma {:induction false} WaitingNext(queue: seq<Msg>, m: Msg, j: nat)
    ensures Waiting(queue + [m], j) ==
            Waiting(queue, j) + if m.PacketMsg? && m.gopId == j then [m.packet] else []
  {
    if queue == [] {
      assert queue + [m] == [m] && [m][1..] == [];
    } else {
      assert (queue + [m])[1..] == queue[1..] + [m];
      WaitingNext(queue[1..], m, j);
    }
  }

  ghost predicate QueueOk(streams: seq<Stream>, y: System) {
    && (forall m | m in y.queue && m.IdsMsg? :: m.gop.id < |streams| && streams[m.gop.id].gop == m.gop)
    && (forall m | m in y.queue && m.PacketMsg? :: m.gopId in y.readers && !m.packet.Hole?)
    && (forall j | j in y.readers :: j < |streams| && y.readers[j] <= |streams[j].packets|
                                     && y.recv.gop.Some? && j <= y.recv.gop.value.id)
  }

  /** The current stream: its reader has read as far as was handled plus what waits. */
  ghost predicate CurrentOk(streams: seq<Stream>, y: System) {
    y.recv.gop.Some? ==>
      var g := y.recv.gop.value;
      && g.id < |streams| && streams[g.id].gop == g && g.id in y.readers
      && y.handled <= y.readers[g.id] <= |streams[g.id].packets|
      && Waiting(y.queue, g.id) == streams[g.id].packets[y.handled..y.readers[g.id]]
      && (y.handled >= 1 ==> y.recv.lastCodecGen == g.codecGen)
      && (y.handled >= 2 ==> y.recv.lastConfigGen == g.configGen)
      && y.recv.lastCodecGen <= g.codecGen && y.recv.lastConfigGen <= g.configGen
  }

  ghost predicate OutputOk(streams: seq<Stream>, y: System) {
    && WellOrdered(streams, y.out)
    && y.recv.lastCodecGen == LastCodec(streams, y.out)
    && y.recv.lastConfigGen == LastConfig(streams, y.out)
    && (y.out != [] ==> y.recv.gop.Some? && y.out[|y.out| - 1].gopId <= y.recv.gop.value.id)
    && (y.recv.gop.None? ==> y.recv == START)
  }

  ghost predicate SystemOk(streams: seq<Stream>, y: System) {
    QueueOk(streams, y) && CurrentOk(streams, y) && OutputOk(streams, y)
  }

  lemma AppendOutput(streams: seq<Stream>, out: seq<Output>, o: Output)
    requires WellOrdered(streams, out) && InOrder(streams, out, o)
    ensures WellOrdered(streams, out + [o])
    ensures LastCodec(streams, out + [o]) ==
            if o.packet.Codec? then streams[o.gopId].gop.codecGen else LastCodec(streams, out)
    ensures LastConfig(streams, out + [o]) ==
            if IsConfig(o.packet) then streams[o.gopId].gop.configGen else LastConfig(streams, out)
  {
    assert (out + [o])[..|out|] == out;
  }

  lemma IdsReadOk(streams: seq<Stream>, codecs: seq<Packet>, configs: seq<Packet>, y: System, j: nat)
    requires Opened(streams, codecs, configs) && SystemOk(streams, y) && Possible(streams, y, IdsRead(j))
    ensures SystemOk(streams, Step(streams, y, IdsRead(j)))
  {
    assert StreamOk(streams[j], j, codecs, configs);
    if y.recv.gop.Some? { WaitingNext(y.queue, IdsMsg(streams[j].gop), y.recv.gop.value.id); }
  }

  lemma PacketReadOk(streams: seq<Stream>, codecs: seq<Packet>, configs: seq<Packet>, y: System, j: nat)
    requires Opened(streams, codecs, configs) && SystemOk(streams, y) && Possible(streams, y, PacketRead(j))
    ensures SystemOk(streams, Step(streams, y, PacketRead(j)))
  {
    var n := y.readers[j];
    assert StreamOk(streams[j], j, codecs, configs);
    var m := PacketMsg(streams[j].packets[n], j);
    assert n >= 2 ==> IsMedia(streams[j].packets[n]);
    PacketReadQueue(streams, y, j);
    PacketReadCurrent(streams, y, j);
  }

  lemma PacketReadQueue(streams: seq<Stream>, y: System, j: nat)
    requires QueueOk(streams, y) && Possible(streams, y, PacketRead(j)) && !streams[j].packets[y.readers[j]].Hole?
    ensures QueueOk(streams, Step(streams, y, PacketRead(j)))
  {}

  lemma PacketReadCurrent(streams: seq<Stream>, y: System, j: nat)
    requires QueueOk(streams, y) && CurrentOk(streams, y) && Possible(streams, y, PacketRead(j))
    ensures CurrentOk(streams, Step(streams, y, PacketRead(j)))
  {
    var n := y.readers[j];
    var id := y.recv.gop.value.id;
    WaitingNext(y.queue, PacketMsg(streams[j].packets[n], j), id);
    if j == id {
      assert streams[j].packets[y.handled..n + 1] == streams[j].packets[y.handled..n] + [streams[j].packets[n]];
    }
  }

  lemma {:induction false} WaitingNone(queue: seq<Msg>, j: nat)
    requires forall m | m in queue && m.PacketMsg? :: m.gopId != j
    ensures Waiting(queue, j) == []
  {
    if queue != [] {
      WaitingNone(queue[1..], j);
    }
  }

  lemma IdsHandledOk(streams: seq<Stream>, codecs: seq<Packet>, configs: seq<Packet>, y: System)
    requires Opened(streams, codecs, configs) && SystemOk(streams, y) && y.queue != [] && y.queue[0].IdsMsg?
    ensures SystemOk(streams, Step(streams, y, Handled))
  {
    var gop := y.queue[0].gop;
    assert y.queue[0] in y.queue;
    assert StreamOk(streams[gop.id], gop.id, codecs, configs);
    if IsNewer(y.recv, gop) {
      assert gop.id !in y.readers;
      WaitingNone(y.queue[1..], gop.id);
    }
  }

  lemma PacketHandledOk(streams: seq<Stream>, codecs: seq<Packet>, configs: seq<Packet>, y: System)
    requires Opened(streams, codecs, configs) && SystemOk(streams, y) && y.queue != [] && y.queue[0].PacketMsg?
    ensures SystemOk(streams, Step(streams, y, Handled))
  {
    PacketHandledQueue(streams, y);
    var id := y.recv.gop.value.id;
    if y.queue[0].gopId == id {
      assert StreamOk(streams[id], id, codecs, configs);
      PacketHandledCurrent(streams, codecs, configs, y);
      PacketHandledOutput(streams, codecs, configs, y);
    } else {
      PacketIgnored(streams, y);
    }
  }

  lemma PacketHandledQueue(streams: seq<Stream>, y: System)
    requires QueueOk(streams, y) && y.queue != [] && y.queue[0].PacketMsg?
    ensures QueueOk(streams, Step(streams, y, Handled)) && y.recv.gop.Some?
  {
    assert y.queue[0] in y.queue;
  }

  lemma PacketIgnored(streams: seq<Stream>, y: System)
    requires CurrentOk(streams, y) && OutputOk(streams, y) && y.queue != []
    requires y.queue[0].PacketMsg? && y.recv.gop.Some? && y.queue[0].gopId != y.recv.gop.value.id
    ensures CurrentOk(streams, Step(streams, y, Handled)) && OutputOk(streams, Step(streams, y, Handled))
  {}

  /** The first waiting packet of the current stream is the one after those handled. */
  lemma NextHandled(streams: seq<Stream>, y: System)
    requires CurrentOk(streams, y) && y.recv.gop.Some? && y.queue != []
    requires y.queue[0].PacketMsg? && y.queue[0].gopId == y.recv.gop.value.id
    ensures var g := y.recv.gop.value;
            && y.handled < y.readers[g.id]
            && streams[g.id].packets[y.handled] == y.queue[0].packet
            && Waiting(y.queue[1..], g.id) == streams[g.id].packets[y.handled + 1..y.readers[g.id]]
  {
    var g := y.recv.gop.value;
    var slice := streams[g.id].packets[y.handled..y.readers[g.id]];
    assert slice == [y.queue[0].packet] + Waiting(y.queue[1..], g.id);
    assert slice[0] == streams[g.id].packets[y.handled];
    assert slice[1..] == streams[g.id].packets[y.handled + 1..y.readers[g.id]];
  }

  lemma PacketHandledCurrent(streams: seq<Stream>, codecs: seq<Packet>, configs: seq<Packet>, y: System)
    requires CurrentOk(streams, y) && y.recv.gop.Some? && y.queue != []
    requires y.queue[0].PacketMsg? && y.queue[0].gopId == y.recv.gop.value.id
    requires StreamOk(streams[y.recv.gop.value.id], y.recv.gop.value.id, codecs, configs)
    ensures CurrentOk(streams, Step(streams, y, Handled))
  {
    NextHandled(streams, y);
    var packets := streams[y.recv.gop.value.id].packets;
    assert y.handled >= 2 ==> IsMedia(packets[y.handled]);
  }

  /** What is passed on fits behind what was passed on before. */
  lemma PassedInOrder(streams: seq<Stream>, codecs: seq<Packet>, configs: seq<Packet>, y: System)
    requires CurrentOk(streams, y) && OutputOk(streams, y) && y.recv.gop.Some? && y.queue != []
    requires y.queue[0].PacketMsg? && y.queue[0].gopId == y.recv.gop.value.id
    requires StreamOk(streams[y.recv.gop.value.id], y.recv.gop.value.id, codecs, configs)
    requires Fresh(y.recv, y.queue[0].packet)
    ensures InOrder(streams, y.out, Output(y.recv.gop.value.id, y.queue[0].packet))
  {
    NextHandled(streams, y);
    var packets := streams[y.recv.gop.value.id].packets;
    assert y.handled >= 2 ==> IsMedia(packets[y.handled]);
  }

  lemma PacketHandledOutput(streams: seq<Stream>, codecs: seq<Packet>, configs: seq<Packet>, y: System)
    requires CurrentOk(streams, y) && OutputOk(streams, y) && y.recv.gop.Some? && y.queue != []
    requires y.queue[0].PacketMsg? && y.queue[0].gopId == y.recv.gop.value.id
    requires StreamOk(streams[y.recv.gop.value.id], y.recv.gop.value.id, codecs, configs)
    ensures OutputOk(streams, Step(streams, y, Handled))
  {
    if Fresh(y.recv, y.queue[0].packet) {
      PassedInOrder(streams, codecs, configs, y);
      AppendOutput(streams, y.out, Output(y.recv.gop.value.id, y.queue[0].packet));
    }
  }

  lemma {:induction false} RunOk(streams: seq<Stream>, codecs: seq<Packet>, configs: seq<Packet>, events: seq<Event>)
    requires Opened(streams, codecs, configs)
    ensures SystemOk(streams, Run(streams, events))
  {
    if events != [] {
      var before, e := events[..|events| - 1], events[|events| - 1];
      RunOk(streams, codecs, configs, before);
      var y := Run(streams, before);
      if Possible(streams, y, e) {
        match e
        case IdsRead(j) => IdsReadOk(streams, codecs, configs, y, j);
        case PacketRead(j) => PacketReadOk(streams, codecs, configs, y, j);
        case Handled =>
          if y.queue[0].IdsMsg? {
            IdsHandledOk(streams, codecs, configs, y);
          } else {
            PacketHandledOk(streams, codecs, configs, y);
          }
      }
    }
  }

  // ----- No media packet of a stream is skipped or repeated

  /** The media packets of stream `j` that were passed on. */
  function MediaOf(out: seq<Output>, j: nat): seq<Packet> {
    if out == [] then []
    else
      var o := out[|out| - 1];
      MediaOf(out[..|out| - 1], j) + if o.gopId == j && IsMedia(o.packet) then [o.packet] else []
  }

  function Max(a: nat, b: nat): nat { if a <= b then b else a }

  /** Of the current stream all media handled was passed on, of later ones nothing, and of
      earlier ones a first part. */
  ghost predicate MediaOk(streams: seq<Stream>, y: System) {
    forall j | 0 <= j < |streams| :: MediaAt(streams, y, j)
  }

  ghost predicate MediaAt(streams: seq<Stream>, y: System, j: nat)
    requires j < |streams|
  {
    && |streams[j].packets| >= 2
    && MediaOf(y.out, j) <= streams[j].packets[2..]
    && (y.recv.gop.None? || y.recv.gop.value.id < j ==> MediaOf(y.out, j) == [])
    && (y.recv.gop.Some? && y.recv.gop.value.id == j ==> |MediaOf(y.out, j)| == Max(2, y.handled) - 2)
  }

  lemma MediaOfNext(out: seq<Output>, o: Output, j: nat)
    ensures MediaOf(out + [o], j) == MediaOf(out, j) + if o.gopId == j && IsMedia(o.packet) then [o.packet] else []
  {
    assert (out + [o])[..|out|] == out;
  }

  lemma IdsHandledMedia(streams: seq<Stream>, y: System)
    requires QueueOk(streams, y) && MediaOk(streams, y) && y.queue != [] && y.queue[0].IdsMsg?
    ensures MediaOk(streams, Step(streams, y, Handled))
  {
    assert y.queue[0] in y.queue;
    forall j | 0 <= j < |streams| ensures MediaAt(streams, Step(streams, y, Handled), j) {
      assert MediaAt(streams, y, j);
    }
  }

  /** Nothing was passed on or handled. */
  lemma MediaSame(streams: seq<Stream>, y: System, y': System)
    requires MediaOk(streams, y) && y'.out == y.out && y'.recv.gop == y.recv.gop && y'.handled == y.handled
    ensures MediaOk(streams, y')
  {
    forall j | 0 <= j < |streams| ensures MediaAt(streams, y', j) {
      assert MediaAt(streams, y, j);
    }
  }

  lemma PacketHandledMedia(streams: seq<Stream>, codecs: seq<Packet>, configs: seq<Packet>, y: System)
    requires QueueOk(streams, y) && CurrentOk(streams, y) && MediaOk(streams, y)
    requires y.queue != [] && y.queue[0].PacketMsg? && Opened(streams, codecs, configs)
    ensures MediaOk(streams, Step(streams, y, Handled))
  {
    assert y.queue[0] in y.queue;
    var id := y.recv.gop.value.id;
    if y.queue[0].gopId == id {
      assert StreamOk(streams[id], id, codecs, configs);
      CurrentMedia(streams, codecs, configs, y);
    } else {
      MediaSame(streams, y, Step(streams, y, Handled));
    }
  }

  lemma CurrentMedia(streams: seq<Stream>, codecs: seq<Packet>, configs: seq<Packet>, y: System)
    requires CurrentOk(streams, y) && MediaOk(streams, y) && y.recv.gop.Some? && y.queue != []
    requires y.queue[0].PacketMsg? && y.queue[0].gopId == y.recv.gop.value.id
    requires StreamOk(streams[y.recv.gop.value.id], y.recv.gop.value.id, codecs, configs)
    ensures MediaOk(streams, Step(streams, y, Handled))
  {
    NextHandled(streams, y);
    assert IsMedia(y.queue[0].packet) <==> y.handled >= 2;
    PassedMedia(streams, y);
    MediaNext(streams, y, Step(streams, y, Handled), y.recv.gop.value.id, y.queue[0].packet);
  }

  /** One more packet of stream `id` was handled. */
  lemma MediaNext(streams: seq<Stream>, y: System, y': System, id: nat, packet: Packet)
    requires MediaOk(streams, y) && y.recv.gop.Some? && id == y.recv.gop.value.id < |streams|
    requires y'.recv.gop == y.recv.gop && y'.handled == y.handled + 1
    requires y'.out == y.out + [Output(id, packet)] || (y'.out == y.out && !IsMedia(packet))
    requires |streams[id].packets| >= 2
    requires var more := MediaOf(y.out, id) + if IsMedia(packet) then [packet] else [];
             more <= streams[id].packets[2..] && |more| == Max(2, y.handled + 1) - 2
    ensures MediaOk(streams, y')
  {
    forall j | 0 <= j < |streams| ensures MediaAt(streams, y', j) {
      assert MediaAt(streams, y, j);
      MediaOfNext(y.out, Output(id, packet), j);
    }
  }

  lemma PassedMedia(streams: seq<Stream>, y: System)
    requires MediaOk(streams, y) && CurrentOk(streams, y) && y.recv.gop.Some? && y.queue != []
    requires y.queue[0].PacketMsg? && y.queue[0].gopId == y.recv.gop.value.id
    requires IsMedia(y.queue[0].packet) <==> y.handled >= 2
    requires |streams[y.recv.gop.value.id].packets| >= 2
    ensures var id := y.recv.gop.value.id;
            var more := MediaOf(y.out, id) + if y.handled >= 2 then [y.queue[0].packet] else [];
            more <= streams[id].packets[2..] && |more| == Max(2, y.handled + 1) - 2
  {
    NextHandled(streams, y);
    var id := y.recv.gop.value.id;
    assert MediaAt(streams, y, id);
    var media := streams[id].packets[2..];
    if y.handled >= 2 {
      assert media[y.handled - 2] == y.queue[0].packet;
    }
  }

  lemma {:induction false} RunMedia(streams: seq<Stream>, codecs: seq<Packet>, configs: seq<Packet>, events: seq<Event>)
    requires Opened(streams, codecs, configs)
    ensures MediaOk(streams, Run(streams, events))
  {
    if events == [] {
      forall j | 0 <= j < |streams| ensures |streams[j].packets| >= 2 {
        assert StreamOk(streams[j], j, codecs, configs);
      }
    } else {
      var before, e := events[..|events| - 1], events[|events| - 1];
      RunMedia(streams, codecs, configs, before);
      RunOk(streams, codecs, configs, before);
      var y := Run(streams, before);
      if e.Handled? && y.queue != [] {
        if y.queue[0].IdsMsg? {
          IdsHandledMedia(streams, y);
        } else {
          PacketHandledMedia(streams, codecs, configs, y);
        }
      } else {
        MediaSame(streams, y, Run(streams, events));
      }
    }
  }

  // ----- The theorems

  /** Of every stream the client is given a first part of its media, in order and without gaps. */
  lemma MediaIsPrefix(streams: seq<Stream>, codecs: seq<Packet>, configs: seq<Packet>, events: seq<Event>, j: nat)
    requires Opened(streams, codecs, configs) && j < |streams|
    ensures |streams[j].packets| >= 2 && MediaOf(Run(streams, events).out, j) <= streams[j].packets[2..]
  {
    RunMedia(streams, codecs, configs, events);
    assert MediaAt(streams, Run(streams, events), j);
  }

  /** In every interleaving, what the client is given is in order: stream numbers never decrease,
      every codec and config generation comes at most once and in increasing order, and every
      media packet comes after the codec and the config its stream was opened with, which are
      then the last ones given, even if earlier streams were abandoned in the middle. */
  lemma DeliveredInOrder(streams: seq<Stream>, codecs: seq<Packet>, configs: seq<Packet>, events: seq<Event>)
    requires Opened(streams, codecs, configs)
    ensures WellOrdered(streams, Run(streams, events).out)
  {
    RunOk(streams, codecs, configs, events);
  }

  /** A packet is never taken from the queue before some stream's ids, and never is a hole. */
  lemma NeverPanics(streams: seq<Stream>, codecs: seq<Packet>, configs: seq<Packet>, events: seq<Event>)
    requires Opened(streams, codecs, configs)
    ensures var y := Run(streams, events);
            y.queue != [] && y.queue[0].PacketMsg? ==> y.recv.gop.Some? && !y.queue[0].packet.Hole?
  {
    RunOk(streams, codecs, configs, events);
    var y := Run(streams, events);
    if y.queue != [] { assert y.queue[0] in y.queue; }
  }

  lemma {:induction false} CodecsIncrease(streams: seq<Stream>, out: seq<Output>, i: nat)
    requires WellOrdered(streams, out) && i < |out| && out[i].packet.Codec?
    ensures out[i].gopId < |streams| && streams[out[i].gopId].gop.codecGen <= LastCodec(streams, out)
    decreases |out|
  {
    var last := |out| - 1;
    if i < last {
      CodecsIncrease(streams, out[..last], i);
    }
  }

  /** So no codec generation is given to the client twice. */
  lemma CodecOnce(streams: seq<Stream>, out: seq<Output>, i: nat, j: nat)
    requires WellOrdered(streams, out) && i < j < |out| && out[i].packet.Codec? && out[j].packet.Codec?
    ensures out[i].gopId < |streams| && out[j].gopId < |streams|
    ensures streams[out[i].gopId].gop.codecGen < streams[out[j].gopId].gop.codecGen
  {
    OrderedAt(streams, out, j);
    CodecsIncrease(streams, out[..j], i);
  }

  lemma {:induction false} ConfigsIncrease(streams: seq<Stream>, out: seq<Output>, i: nat)
    requires WellOrdered(streams, out) && i < |out| && IsConfig(out[i].packet)
    ensures out[i].gopId < |streams| && streams[out[i].gopId].gop.configGen <= LastConfig(streams, out)
    decreases |out|
  {
    var last := |out| - 1;
    if i < last {
      ConfigsIncrease(streams, out[..last], i);
    }
  }

  lemma ConfigOnce(streams: seq<Stream>, out: seq<Output>, i: nat, j: nat)
    requires WellOrdered(streams, out) && i < j < |out| && IsConfig(out[i].packet) && IsConfig(out[j].packet)
    ensures out[i].gopId < |streams| && out[j].gopId < |streams|
    ensures streams[out[i].gopId].gop.configGen < streams[out[j].gopId].gop.configGen
  {
    OrderedAt(streams, out, j);
    ConfigsIncrease(streams, out[..j], i);
  }

  // ----- The receiver keeps up with the newest stream

  /** The ids of the streams that arrived, in order, read off the events alone. */
  function Arrived(streams: seq<Stream>, events: seq<Event>): seq<Gop> {
    if events == [] then []
    else
      var e := events[|events| - 1];
      Arrived(streams, events[..|events| - 1])
      + if e.IdsRead? && e.stream < |streams| then [streams[e.stream].gop] else []
  }

  /** The ids among the messages waiting. */
  function WaitingIds(queue: seq<Msg>): seq<Gop> {
    if queue == [] then []
    else IdsOf(queue[0]) + WaitingIds(queue[1..])
  }

  function IdsOf(m: Msg): seq<Gop> { if m.IdsMsg? then [m.gop] else [] }

  lemma {:induction false} WaitingIdsNext(queue: seq<Msg>, m: Msg)
    ensures WaitingIds(queue + [m]) == WaitingIds(queue) + IdsOf(m)
  {
    var more := queue + [m];
    if queue == [] {
      assert more == [m] && more[1..] == [];
      assert WaitingIds(more) == IdsOf(m) + [];
    } else {
      assert more[1..] == queue[1..] + [m] && more[0] == queue[0];
      WaitingIdsNext(queue[1..], m);
      assert WaitingIds(more) == IdsOf(queue[0]) + (WaitingIds(queue[1..]) + IdsOf(m));
    }
  }

  /** The stream with the greatest id of these; nothing if there are none. */
  ghost predicate IsLatest(r: Option<Gop>, gops: seq<Gop>) {
    && (r.None? <==> gops == [])
    && (r.Some? ==> r.value in gops && forall g | g in gops :: g.id <= r.value.id)
  }

  lemma LatestNext(r: Option<Gop>, gops: seq<Gop>, g: Gop)
    requires IsLatest(r, gops)
    ensures IsLatest(if r.None? || g.id > r.value.id then Some(g) else r, gops + [g])
  {
    assert g in gops + [g];
  }

  /** The ids that arrived are those handled and those waiting, in this order; the current stream is
      the latest of those handled. */
  ghost predicate LatestOk(gops: seq<Gop>, y: System) {
    var n := |WaitingIds(y.queue)|;
    n <= |gops| && WaitingIds(y.queue) == gops[|gops| - n..] && IsLatest(y.recv.gop, gops[..|gops| - n])
  }

  lemma PostedLatest(gops: seq<Gop>, y: System, y': System, m: Msg)
    requires LatestOk(gops, y) && y'.queue == y.queue + [m] && y'.recv == y.recv
    ensures LatestOk(gops + IdsOf(m), y')
  {
    WaitingIdsNext(y.queue, m);
    var n := |WaitingIds(y.queue)|;
    var more := gops + IdsOf(m);
    assert more[..|gops| - n] == gops[..|gops| - n];
    assert more[|gops| - n..] == gops[|gops| - n..] + IdsOf(m);
  }

  lemma HandledLatest(streams: seq<Stream>, gops: seq<Gop>, y: System)
    requires LatestOk(gops, y) && y.queue != []
    ensures LatestOk(gops, Step(streams, y, Handled))
  {
    var n := |WaitingIds(y.queue)|;
    if y.queue[0].IdsMsg? {
      var k := |gops| - n;
      assert gops[k] == gops[k..][0] == y.queue[0].gop;
      assert gops[..k + 1] == gops[..k] + [gops[k]] && gops[k + 1..] == gops[k..][1..];
      LatestNext(y.recv.gop, gops[..k], y.queue[0].gop);
    }
  }

  lemma {:induction false} RunLatest(streams: seq<Stream>, events: seq<Event>)
    ensures LatestOk(Arrived(streams, events), Run(streams, events))
  {
    if events != [] {
      var before, e := events[..|events| - 1], events[|events| - 1];
      RunLatest(streams, before);
      var y, gops := Run(streams, before), Arrived(streams, before);
      assert gops + [] == gops;
      match e
      case IdsRead(j) =>
        if j < |streams| { PostedLatest(gops, y, Step(streams, y, e), IdsMsg(streams[j].gop)); }
      case PacketRead(j) =>
        if Possible(streams, y, e) {
          PostedLatest(gops, y, Step(streams, y, e), PacketMsg(streams[j].packets[y.readers[j]], j));
        }
      case Handled =>
        if y.queue != [] { HandledLatest(streams, gops, y); }
    }
  }

  /** Once every message was handled, the current stream is the latest of all that arrived, read off
      the events; and in between, of those whose ids are not waiting any more. */
  lemma LatestIsCurrent(streams: seq<Stream>, events: seq<Event>)
    ensures var y, gops := Run(streams, events), Arrived(streams, events);
            var n := |WaitingIds(y.queue)|;
            && n <= |gops| && IsLatest(y.recv.gop, gops[..|gops| - n])
            && (y.queue == [] ==> IsLatest(y.recv.gop, gops))
  {
    RunLatest(streams, events);
    var gops := Arrived(streams, events);
    assert gops[..|gops|] == gops;
  }

  /** Everything read from the current stream is with the client or waiting: behind the codec and the
      config, the client has all its media but what waits, and the last codec and config given are
      those of its generations. */
  lemma CurrentIsGiven(streams: seq<Stream>, codecs: seq<Packet>, configs: seq<Packet>, events: seq<Event>)
    requires Opened(streams, codecs, configs) && Run(streams, events).recv.gop.Some?
    ensures var y := Run(streams, events);
            var j := y.recv.gop.value.id;
            && j < |streams| && j in y.readers && |Waiting(y.queue, j)| <= y.readers[j] <= |streams[j].packets|
            && var n := y.readers[j] - |Waiting(y.queue, j)|;
               n >= 2 ==>
                 && MediaOf(y.out, j) == streams[j].packets[2..n]
                 && LastCodec(streams, y.out) == streams[j].gop.codecGen
                 && LastConfig(streams, y.out) == streams[j].gop.configGen
  {
    var y := Run(streams, events);
    RunOk(streams, codecs, configs, events);
    RunMedia(streams, codecs, configs, events);
    assert MediaAt(streams, y, y.recv.gop.value.id);
  }
}
