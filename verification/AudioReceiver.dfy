/** The processing loop of the audio receiver as a state machine, and the timeline its client is
    given (kyproto/src/protocol/driver/av/audio_unreliable_fec.rs). */
module AudioReceiver {
  import opened Wrappers
  import opened SortedVec
  import opened AvPacket
  import opened Fec
  import opened Sequencer
  import opened AudioGroup

  const HALF: nat := 0x8000_0000
  const MAX_SAMPLES: nat := 0xffff_ffff

  /** What the client is given; the number of a packet is not part of it. */
  datatype Output = CodecOut(packet: Packet) | HoleOut(samples: u32) | PacketOut(sn: nat, packet: Packet)

  datatype Status = Waiting | Draining | Failed(error: Error)

  /** The loop's variables; `dropped` is the reported statistic and `out` a history. */
  datatype Receiver = Receiver(
    newest: nat, group: Group, next: nat, deadline: Option<nat>, frameSize: Option<u16>, dropped: nat,
    status: Status, out: seq<Output>)

  const START: Receiver := Receiver(0, EMPTY, 0, None, None, 0, Waiting, [])

  datatype Step =
    | Stream(packet: Packet, rawSn: u32)
    | Symbol(rawSn: u32, oti: Oti, id: SymbolId, data: Bytes, now: nat)
    | Timer
    | Take(now: nat)

  predicate Enabled(r: Receiver, s: Step) {
    match s
    case Stream(_, _) => r.status.Waiting?
    case Symbol(_, _, _, _, _) => r.status.Waiting?
    case Timer => r.status.Waiting? && r.deadline.Some?
    case Take(_) => r.status.Draining?
  }

  function After(result: Result<(), Error>): Status {
    if result.Ok? then Draining else Failed(result.error)
  }

  function OnStream(r: Receiver, packet: Packet, rawSn: u32): Receiver {
    if packet.Codec? then
      var r := r.(frameSize := Some(packet.header.frameSize));
      if packet.header.frameSize == 0 then r.(status := Failed(ZeroFrameSize))
      else r.(out := r.out + [CodecOut(packet)])
    else
      var sn := Unroll(HALF, r.newest, rawSn);
      var r := r.(newest := Newest(r.newest, sn));
      if sn < r.next then r.(status := Draining)
      else
        var (g, result) := InsertStream(r.group, sn, packet);
        r.(group := g, status := After(result))
  }

  function OnSymbol(solver: Solver, r: Receiver, rawSn: u32, oti: Oti, id: SymbolId, data: Bytes, now: nat): Receiver {
    var sn := Unroll(HALF, r.newest, rawSn);
    var r := r.(newest := Newest(r.newest, sn));
    if sn < r.next then r
    else
      var (g, result) := InsertDatagram(solver, r.group, sn, oti, id, data, now);
      r.(group := g, status := After(result))
  }

  /** The samples of a hole; a product that saturates 64 bits is clamped all the same. */
  function Samples(missing: nat, frameSize: u16): u32 {
    if missing * frameSize <= MAX_SAMPLES then missing * frameSize else MAX_SAMPLES
  }

  function Gap(next: nat, sn: nat): nat { if sn > next then sn - next else 0 }

  /** The hole, if packets are missing, and then the packet. */
  function WithHole(frameSize: u16, next: nat, sn: nat, packet: Packet): seq<Output> {
    (if sn > next then [HoleOut(Samples(sn - next, frameSize))] else []) + [PacketOut(sn, packet)]
  }

  function Deliver(r: Receiver, g: Group, sn: nat, packet: Packet): Receiver {
    match r.frameSize
    case None => r.(group := g, status := Failed(AudioBeforeCodec))
    case Some(f) =>
      r.(group := g, next := sn + 1, dropped := r.dropped + Gap(r.next, sn),
         out := r.out + WithHole(f, r.next, sn, packet))
  }

  function OnTake(r: Receiver, now: nat): Receiver {
    var (g, action) := TakeNext(r.group, r.next, now);
    match action
    case NoAction => r.(deadline := None, status := Waiting)
    case WaitUntil(instant) => r.(deadline := Some(instant), status := Waiting)
    case Forward(sn, packet) => Deliver(r, g, sn, packet)
  }

  function Apply(solver: Solver, r: Receiver, s: Step): Receiver {
    match s
    case Stream(packet, rawSn) => OnStream(r, packet, rawSn)
    case Symbol(rawSn, oti, id, data, now) => OnSymbol(solver, r, rawSn, oti, id, data, now)
    case Timer => r.(status := Draining)
    case Take(now) => OnTake(r, now)
  }

  /** The loop after a sequence of steps; a step that is not enabled does nothing. */
  function Exec(solver: Solver, run: seq<Step>): Receiver {
    if run == [] then START
    else
      var r, s := Exec(solver, run[..|run| - 1]), run[|run| - 1];
      if Enabled(r, s) then Apply(solver, r, s) else r
  }

  /** Every step was enabled when it was made. */
  predicate IsRun(solver: Solver, run: seq<Step>) {
    run == [] ||
    (IsRun(solver, run[..|run| - 1]) && Enabled(Exec(solver, run[..|run| - 1]), run[|run| - 1]))
  }

  // ----- The timeline the client should see

  /** What was forwarded, without the holes. */
  datatype Item = CodecItem(packet: Packet) | PacketItem(sn: nat, packet: Packet)

  function ItemOf(o: Output): seq<Item> {
    match o
    case CodecOut(packet) => [CodecItem(packet)]
    case PacketOut(sn, packet) => [PacketItem(sn, packet)]
    case HoleOut(_) => []
  }

  function Items(out: seq<Output>): seq<Item> {
    if out == [] then [] else Items(out[..|out| - 1]) + ItemOf(out[|out| - 1])
  }

  /** The number expected after these items. */
  function NextOf(items: seq<Item>): nat {
    if items == [] then 0
    else
      match items[|items| - 1]
      case PacketItem(sn, _) => sn + 1
      case CodecItem(_) => NextOf(items[..|items| - 1])
  }

  /** The timeline of the items: a hole directly before every packet that follows a gap, covering
      exactly the missing packets, and no other hole. */
  function Timeline(f: u16, items: seq<Item>): seq<Output> {
    if items == [] then []
    else
      var before := items[..|items| - 1];
      Timeline(f, before) + Shown(f, NextOf(before), items[|items| - 1])
  }

  function Shown(f: u16, next: nat, x: Item): seq<Output> {
    match x
    case CodecItem(packet) => [CodecOut(packet)]
    case PacketItem(sn, packet) => WithHole(f, next, sn, packet)
  }

  function MissingBefore(next: nat, x: Item): nat {
    match x
    case CodecItem(_) => 0
    case PacketItem(sn, _) => Gap(next, sn)
  }

  /** The packets missing in all gaps. */
  function Missing(items: seq<Item>): nat {
    if items == [] then 0
    else
      var before := items[..|items| - 1];
      Missing(before) + MissingBefore(NextOf(before), items[|items| - 1])
  }

  /** A hole can say all samples of the gap. */
  predicate Fits(f: u16, gap: nat) {
    gap * f <= MAX_SAMPLES
  }

  predicate NoClamp(f: u16, items: seq<Item>) {
    items == [] ||
    var before := items[..|items| - 1];
    NoClamp(f, before) && Fits(f, MissingBefore(NextOf(before), items[|items| - 1]))
  }

  function HoleSamples(out: seq<Output>): nat {
    if out == [] then 0
    else HoleSamples(out[..|out| - 1]) + if out[|out| - 1].HoleOut? then out[|out| - 1].samples else 0
  }

  predicate NoEmptyHole(out: seq<Output>) {
    forall i | 0 <= i < |out| && out[i].HoleOut? :: out[i].samples > 0
  }

  lemma {:induction false} HoleSamplesConcat(a: seq<Output>, b: seq<Output>)
    ensures HoleSamples(a + b) == HoleSamples(a) + HoleSamples(b)
    ensures Items(a + b) == Items(a) + Items(b)
    decreases |b|
  {
    if b == [] {
      assert a + b == a;
    } else {
      assert (a + b)[..|a + b| - 1] == a + b[..|b| - 1];
      HoleSamplesConcat(a, b[..|b| - 1]);
    }
  }

  lemma WithHoleItems(f: u16, next: nat, sn: nat, packet: Packet)
    ensures Items(WithHole(f, next, sn, packet)) == [PacketItem(sn, packet)]
    ensures HoleSamples(WithHole(f, next, sn, packet)) == Samples(Gap(next, sn), f)
  {
    var p := PacketOut(sn, packet);
    assert [p][..0] == [];
    assert Items([p]) == [PacketItem(sn, packet)] && HoleSamples([p]) == 0;
    if sn > next {
      var h := HoleOut(Samples(sn - next, f));
      assert [h][..0] == [];
      assert Items([h]) == [] && HoleSamples([h]) == h.samples;
      HoleSamplesConcat([h], [p]);
      assert WithHole(f, next, sn, packet) == [h] + [p];
    } else {
      assert WithHole(f, next, sn, packet) == [p];
    }
  }

  lemma SamplesExact(f: u16, gap: nat)
    ensures Samples(gap, f) <= f * gap
    ensures Samples(gap, f) == f * gap <==> Fits(f, gap)
  {
  }

  lemma Distribute(f: nat, a: nat, b: nat)
    ensures f * (a + b) == f * a + f * b
  {
  }

  lemma ShownSamples(f: u16, next: nat, x: Item)
    ensures HoleSamples(Shown(f, next, x)) == Samples(MissingBefore(next, x), f)
  {
    match x
    case CodecItem(packet) => assert [CodecOut(packet)][..0] == [];
    case PacketItem(sn, packet) => WithHoleItems(f, next, sn, packet);
  }

  /** The holes of a timeline never cover more than what is missing, and cover it exactly if and
      only if no gap is clamped. */
  lemma {:induction false} HolesCoverMissing(f: u16, items: seq<Item>)
    ensures HoleSamples(Timeline(f, items)) <= f * Missing(items)
    ensures HoleSamples(Timeline(f, items)) == f * Missing(items) <==> NoClamp(f, items)
  {
    if items != [] {
      var before, last := items[..|items| - 1], items[|items| - 1];
      var next := NextOf(before);
      var gap := MissingBefore(next, last);
      HolesCoverMissing(f, before);
      HoleSamplesConcat(Timeline(f, before), Shown(f, next, last));
      ShownSamples(f, next, last);
      SamplesExact(f, gap);
      Distribute(f, Missing(before), gap);
    }
  }

  // ----- Every run with one frame size

  predicate OneFrameSize(f: u16, run: seq<Step>) {
    forall i | 0 <= i < |run| && run[i].Stream? && run[i].packet.Codec? :: run[i].packet.header.frameSize == f
  }

  ghost predicate TimelineOk(f: u16, r: Receiver) {
    (r.frameSize.None? || r.frameSize == Some(f)) && LogOk(f, r.out, r.next, r.dropped)
  }

  ghost predicate LogOk(f: u16, out: seq<Output>, next: nat, dropped: nat) {
    var items := Items(out);
    out == Timeline(f, items) && next == NextOf(items) && dropped == Missing(items) && NoEmptyHole(out)
  }

  lemma TimelineNext(f: u16, items: seq<Item>, x: Item)
    ensures Timeline(f, items + [x]) == Timeline(f, items) + Shown(f, NextOf(items), x)
    ensures NextOf(items + [x]) == if x.PacketItem? then x.sn + 1 else NextOf(items)
    ensures Missing(items + [x]) == Missing(items) + MissingBefore(NextOf(items), x)
  {
    assert (items + [x])[..|items|] == items;
  }

  lemma LogNext(f: u16, out: seq<Output>, next: nat, dropped: nat, x: Item)
    requires LogOk(f, out, next, dropped)
    requires Items(Shown(f, next, x)) == [x] && NoEmptyHole(Shown(f, next, x))
    ensures LogOk(f, out + Shown(f, next, x), if x.PacketItem? then x.sn + 1 else next,
                  dropped + MissingBefore(next, x))
  {
    var more := Shown(f, next, x);
    TimelineNext(f, Items(out), x);
    HoleSamplesConcat(out, more);
    assert Items(out + more) == Items(out) + [x];
  }

  lemma CodecTimeline(f: u16, r: Receiver, packet: Packet, rawSn: u32)
    requires TimelineOk(f, r) && packet.Codec? && packet.header.frameSize == f
    ensures TimelineOk(f, OnStream(r, packet, rawSn))
  {
    assert [CodecOut(packet)][..0] == [];
    assert Items([CodecOut(packet)]) == [CodecItem(packet)];
    LogNext(f, r.out, r.next, r.dropped, CodecItem(packet));
  }

  lemma ShownHole(f: u16, next: nat, sn: nat, packet: Packet)
    requires f > 0
    ensures NoEmptyHole(WithHole(f, next, sn, packet))
  {
    if sn > next {
      assert (sn - next) * f > 0;
    }
  }

  lemma DeliverTimeline(f: u16, r: Receiver, g: Group, sn: nat, packet: Packet)
    requires TimelineOk(f, r) && f > 0
    ensures TimelineOk(f, Deliver(r, g, sn, packet))
  {
    WithHoleItems(f, r.next, sn, packet);
    ShownHole(f, r.next, sn, packet);
    LogNext(f, r.out, r.next, r.dropped, PacketItem(sn, packet));
  }

  lemma {:induction false} RunTimeline(solver: Solver, f: u16, run: seq<Step>)
    requires f > 0 && OneFrameSize(f, run)
    ensures TimelineOk(f, Exec(solver, run))
  {
    if run != [] {
      var before, s := run[..|run| - 1], run[|run| - 1];
      RunTimeline(solver, f, before);
      var r := Exec(solver, before);
      if Enabled(r, s) {
        match s
        case Stream(packet, rawSn) =>
          if packet.Codec? {
            CodecTimeline(f, r, packet, rawSn);
          }
        case Symbol(_, _, _, _, _) =>
        case Timer =>
        case Take(now) =>
          var (g, a) := TakeNext(r.group, r.next, now);
          if a.Forward? {
            DeliverTimeline(f, r, g, a.sn, a.packet);
          }
      }
    }
  }

  /** For every run with one frame size: the client is given the timeline of what was forwarded,
      its holes add up to the dropped packets exactly if no gap is clamped, and every hole is
      accepted by its own deserializer. */
  lemma HolesAddUp(solver: Solver, f: u16, run: seq<Step>)
    requires f > 0 && OneFrameSize(f, run)
    ensures var r := Exec(solver, run);
            && r.out == Timeline(f, Items(r.out))
            && HoleSamples(r.out) <= f * r.dropped
            && (HoleSamples(r.out) == f * r.dropped <==> NoClamp(f, Items(r.out)))
    ensures forall i | 0 <= i < |Exec(solver, run).out| && Exec(solver, run).out[i].HoleOut? ::
              Representable(Hole(Exec(solver, run).out[i].samples))
  {
    var r := Exec(solver, run);
    RunTimeline(solver, f, run);
    HolesCoverMissing(f, Items(r.out));
  }

  // ----- Runs in which the config is the first sequenced packet

  /** The first packet is the config and all others are media, as the sender numbers them. */
  predicate ConfigFirst(solver: Solver, run: seq<Step>) {
    run == [] ||
    var r, s := Exec(solver, run[..|run| - 1]), run[|run| - 1];
    && ConfigFirst(solver, run[..|run| - 1])
    && (s.Stream? && !s.packet.Codec? ==> Unroll(HALF, r.newest, s.rawSn) == 0)
    && (s.Symbol? ==> Unroll(HALF, r.newest, s.rawSn) > 0)
  }

  /** Both vectors are sorted, hold different numbers, and none below `lo`. */
  ghost predicate Above(g: Group, lo: nat) {
    && Sorted(g.datagrams) && Sorted(g.segments) && Keys(g.datagrams) !! Keys(g.segments)
    && (forall k | k in Keys(g.datagrams) :: k >= lo)
    && (forall k | k in Keys(g.segments) :: k >= lo)
  }

  /** Everything pending is still to come, and nothing comes before the config. */
  ghost predicate Ahead(g: Group, next: nat) {
    && Above(g, if next == 0 then 1 else next)
    && (next == 0 <==> !g.config.Sent?)
    && (g.config.Ready? ==> g.config.sn == 0)
  }

  lemma StreamAhead(g: Group, next: nat, packet: Packet)
    requires Ahead(g, next) && next == 0
    ensures Ahead(InsertStream(g, 0, packet).0, next)
  {
  }

  lemma UpdatedAbove(g: Group, lo: nat, i: nat, s: Segments)
    requires Above(g, lo) && i < |g.segments|
    ensures Above(g.(segments := g.segments[i := Entry(g.segments[i].key, s)]), lo)
  {
    UpdateSorted(g.segments, i, s);
  }

  lemma RemovedAbove(g: Group, lo: nat, i: nat)
    requires Above(g, lo) && i < |g.segments|
    ensures Above(g.(segments := RemoveAt(g.segments, i)), lo)
    ensures g.segments[i].key >= lo
    ensures g.segments[i].key !in Keys(g.datagrams) && g.segments[i].key !in Keys(RemoveAt(g.segments, i))
  {
    RemoveSorted(g.segments, i);
    assert g.segments[i].key in Keys(g.segments);
  }

  lemma InsertedAbove(g: Group, lo: nat, sn: nat, d: Datagram)
    requires Above(g, lo) && sn >= lo && sn !in Keys(g.segments)
    ensures Above(InsertPacket(g, sn, d), lo)
  {
    if !Has(g.datagrams, sn) {
      InsertSorted(g.datagrams, Entry(sn, d));
    }
  }

  lemma FeedAbove(solver: Solver, g: Group, lo: nat, sn: nat, oti: Oti, id: SymbolId, data: Bytes, now: nat)
    requires Above(g, lo) && Has(g.segments, sn)
    ensures Above(FeedSegments(solver, g, sn, oti, id, data, now).0, lo)
  {
    var i := Search(g.segments, sn);
    var (decoder, r) := Decode(solver, g.segments[i].value.decoder, oti, id, data);
    if r.Ok? {
      if r.value.None? {
        UpdatedAbove(g, lo, i, Segments(decoder, None));
      } else {
        RemovedAbove(g, lo, i);
        var packet := MediaPacket(r.value.value);
        if packet.Ok? {
          InsertedAbove(g.(segments := RemoveAt(g.segments, i)), lo, sn, Datagram(decoder.oti, packet.value, now));
        }
      }
    }
  }

  lemma PreparedAbove(g: Group, lo: nat, sn: nat, oti: Oti)
    requires Above(g, lo) && sn >= lo && !Has(g.datagrams, sn) && PrepareSegments(g, sn, oti).Ok?
    ensures Above(PrepareSegments(g, sn, oti).value, lo)
  {
    HasIffKey(g.datagrams, sn);
    if !Has(g.segments, sn) {
      InsertSorted(g.segments, Entry(sn, Segments(NewDecoder(oti), None)));
    }
  }

  lemma SymbolAbove(solver: Solver, g: Group, lo: nat, sn: nat, oti: Oti, id: SymbolId, data: Bytes, now: nat)
    requires Above(g, lo) && sn >= lo
    ensures Above(InsertDatagram(solver, g, sn, oti, id, data, now).0, lo)
  {
    if !Has(g.datagrams, sn) && PrepareSegments(g, sn, oti).Ok? {
      PreparedAbove(g, lo, sn, oti);
      FeedAbove(solver, PrepareSegments(g, sn, oti).value, lo, sn, oti, id, data, now);
    }
  }

  lemma ConfigKept(solver: Solver, g: Group, sn: nat, oti: Oti, id: SymbolId, data: Bytes, now: nat)
    ensures InsertDatagram(solver, g, sn, oti, id, data, now).0.config == g.config
  {
  }

  lemma PopAbove(g: Group, lo: nat, h: Group)
    requires Above(g, lo) && g.datagrams != []
    requires h == g.(datagrams := g.datagrams[1..], segments := g.segments[Search(g.segments, g.datagrams[0].key)..])
    ensures g.datagrams[0].key >= lo && Above(h, g.datagrams[0].key + 1)
  {
    var d := g.datagrams[0];
    assert d.key in Keys(g.datagrams);
    PoppedKeys(g.datagrams);
    DrainedKeys(g.segments, d.key);
    forall k | k in Keys(h.datagrams) ensures k >= d.key + 1 && k !in Keys(h.segments) {
      assert k in Keys(g.datagrams);
    }
    forall k | k in Keys(h.segments) ensures k >= d.key + 1 {
      assert k in Keys(g.segments);
    }
  }

  /** What is taken is the next packet or a later one, and what stays comes after it. */
  lemma TakeAhead(g: Group, next: nat, now: nat)
    requires Ahead(g, next)
    ensures var (h, a) := TakeNext(g, next, now);
            a.Forward? ==> a.sn >= next && Ahead(h, a.sn + 1)
  {
    var (h, a) := TakeNext(g, next, now);
    if a.Forward? && !g.config.Ready? {
      PopAbove(g, next, h);
    }
  }

  /** The numbers of the packets forwarded, in order. */
  function Numbers(out: seq<Output>): seq<nat> {
    if out == [] then []
    else
      var last := out[|out| - 1];
      Numbers(out[..|out| - 1]) + if last.PacketOut? then [last.sn] else []
  }

  ghost predicate Increasing(ns: seq<nat>) {
    forall i, j | 0 <= i < j < |ns| :: ns[i] < ns[j]
  }

  lemma NumbersNext(out: seq<Output>, o: Output)
    ensures Numbers(out + [o]) == Numbers(out) + if o.PacketOut? then [o.sn] else []
  {
    assert (out + [o])[..|out|] == out;
  }

  lemma WithHoleNumbers(out: seq<Output>, f: u16, next: nat, sn: nat, packet: Packet)
    ensures Numbers(out + WithHole(f, next, sn, packet)) == Numbers(out) + [sn]
  {
    var p := PacketOut(sn, packet);
    if sn > next {
      var h := HoleOut(Samples(sn - next, f));
      assert out + WithHole(f, next, sn, packet) == out + [h] + [p];
      NumbersNext(out, h);
      NumbersNext(out + [h], p);
    } else {
      assert WithHole(f, next, sn, packet) == [p];
      NumbersNext(out, p);
    }
  }

  lemma IncreasingNext(ns: seq<nat>, n: nat)
    requires Increasing(ns) && (ns != [] ==> ns[|ns| - 1] < n)
    ensures Increasing(ns + [n])
  {
    var more := ns + [n];
    forall i, j | 0 <= i < j < |more| ensures more[i] < more[j] {
      if j == |ns| {
        assert i == |ns| - 1 || ns[i] < ns[|ns| - 1];
      }
    }
  }

  ghost predicate OrderOk(r: Receiver) {
    var ns := Numbers(r.out);
    && (!r.status.Failed? ==> Ahead(r.group, r.next))
    && Increasing(ns)
    && r.next == (if ns == [] then 0 else ns[|ns| - 1] + 1)
    && |ns| + r.dropped == r.next
  }

  lemma OutItems(out: seq<Output>, x: Output)
    ensures Items(out + [x]) == Items(out) + ItemOf(x)
  {
    assert (out + [x])[..|out|] == out;
  }

  lemma StreamOrder(r: Receiver, packet: Packet, rawSn: u32)
    requires OrderOk(r) && r.status.Waiting?
    requires !packet.Codec? ==> Unroll(HALF, r.newest, rawSn) == 0
    ensures OrderOk(OnStream(r, packet, rawSn))
  {
    if packet.Codec? {
      NumbersNext(r.out, CodecOut(packet));
      assert Numbers(r.out) + [] == Numbers(r.out);
    } else if r.next == 0 {
      StreamAhead(r.group, r.next, packet);
    }
    SameOrder(r, OnStream(r, packet, rawSn));
  }

  lemma SameOrder(r: Receiver, r': Receiver)
    requires OrderOk(r) && Numbers(r'.out) == Numbers(r.out) && r'.next == r.next && r'.dropped == r.dropped
    requires !r'.status.Failed? ==> Ahead(r'.group, r'.next)
    ensures OrderOk(r')
  {
  }

  lemma SymbolOrder(solver: Solver, r: Receiver, rawSn: u32, oti: Oti, id: SymbolId, data: Bytes, now: nat)
    requires OrderOk(r) && r.status.Waiting? && Unroll(HALF, r.newest, rawSn) > 0
    ensures OrderOk(OnSymbol(solver, r, rawSn, oti, id, data, now))
  {
    var sn := Unroll(HALF, r.newest, rawSn);
    if sn >= r.next {
      SymbolAbove(solver, r.group, if r.next == 0 then 1 else r.next, sn, oti, id, data, now);
      ConfigKept(solver, r.group, sn, oti, id, data, now);
    }
  }

  lemma TakeOrder(r: Receiver, now: nat)
    requires OrderOk(r) && r.status.Draining?
    ensures OrderOk(OnTake(r, now))
  {
    TakeAhead(r.group, r.next, now);
    var (g, a) := TakeNext(r.group, r.next, now);
    if a.Forward? {
      DeliverOrder(r, g, a.sn, a.packet);
    }
  }

  lemma DeliverOrder(r: Receiver, g: Group, sn: nat, packet: Packet)
    requires OrderOk(r) && sn >= r.next && Ahead(g, sn + 1)
    ensures OrderOk(Deliver(r, g, sn, packet))
  {
    if r.frameSize.Some? {
      WithHoleNumbers(r.out, r.frameSize.value, r.next, sn, packet);
      IncreasingNext(Numbers(r.out), sn);
    }
  }

  lemma {:induction false} RunOrder(solver: Solver, run: seq<Step>)
    requires ConfigFirst(solver, run)
    ensures OrderOk(Exec(solver, run))
  {
    if run != [] {
      var before, s := run[..|run| - 1], run[|run| - 1];
      RunOrder(solver, before);
      var r := Exec(solver, before);
      if Enabled(r, s) {
        match s
        case Stream(packet, rawSn) => StreamOrder(r, packet, rawSn);
        case Symbol(rawSn, oti, id, data, now) => SymbolOrder(solver, r, rawSn, oti, id, data, now);
        case Timer =>
        case Take(now) => TakeOrder(r, now);
      }
    }
  }

  /** If the config is the first sequenced packet: packets are forwarded in strictly increasing
      order, forwarded and dropped ones are together all numbers below the next, and if no gap is
      clamped the media packets and the holes cover the time since the config without overlap. */
  lemma AudioTimeline(solver: Solver, f: u16, run: seq<Step>)
    requires f > 0 && OneFrameSize(f, run) && ConfigFirst(solver, run)
    ensures var r := Exec(solver, run);
            var ns := Numbers(r.out);
            && Increasing(ns)
            && |ns| + r.dropped == r.next
            && (NoClamp(f, Items(r.out)) <==> Covered(f, |ns|, HoleSamples(r.out), r.next))
  {
    RunOrder(solver, run);
    RunTimeline(solver, f, run);
    TimelineCovers(f, Exec(solver, run));
  }

  lemma TimelineCovers(f: u16, r: Receiver)
    requires TimelineOk(f, r) && |Numbers(r.out)| + r.dropped == r.next
    ensures NoClamp(f, Items(r.out)) <==> Covered(f, |Numbers(r.out)|, HoleSamples(r.out), r.next)
  {
    HolesCoverMissing(f, Items(r.out));
    CoveredIff(f, |Numbers(r.out)|, r.dropped, HoleSamples(r.out), r.next);
  }

  /** Packets and holes take up all the time up to the next packet. */
  predicate Covered(f: u16, packets: nat, holes: nat, next: nat) {
    f * packets + holes == f * next
  }

  lemma CoveredIff(f: u16, packets: nat, missing: nat, holes: nat, next: nat)
    requires packets + missing == next
    ensures holes == f * missing <==> Covered(f, packets, holes, next)
  {
    Distribute(f, packets, missing);
  }
}
