/** In every run of the audio receiver, whatever the peer sends: media is forwarded in increasing
    order, so that only the config can be out of place, and exactly when it is. */
module AudioOrder {
  import opened Wrappers
  import opened SortedVec
  import opened AvPacket
  import opened Fec
  import opened Sequencer
  import opened AudioGroup
  import opened AudioReceiver

  // ----- The invariant

  /** The config is forwarded first and the media behind it in increasing order; how far the counts
      are off is fixed by the first two numbers. */
  ghost predicate LogOk(ns: seq<nat>, next: nat, dropped: nat) {
    && (ns == [] ==> next == 0 && dropped == 0)
    && (ns != [] ==> next == ns[|ns| - 1] + 1)
    && Increasing(if ns == [] then [] else ns[1..])
    && |ns| + dropped == next + Excess(ns)
  }

  /** How much a config numbered above the first media packet is counted too often. */
  function Excess(ns: seq<nat>): nat {
    if |ns| >= 2 && ns[1] <= ns[0] then ns[0] + 1 - ns[1] else 0
  }

  /** Once media was forwarded, everything pending is still to come. */
  ghost predicate PendingOk(g: Group, next: nat, forwarded: nat) {
    Above(g, if forwarded >= 2 then next else 0) && (forwarded == 0 <==> !g.config.Sent?)
  }

  ghost predicate OrderOk(r: Receiver) {
    var ns := Numbers(r.out);
    LogOk(ns, r.next, r.dropped) && (r.status.Failed? || PendingOk(r.group, r.next, |ns|))
  }

  lemma LogNext(ns: seq<nat>, next: nat, dropped: nat, sn: nat)
    requires LogOk(ns, next, dropped) && (|ns| >= 2 ==> sn >= next)
    ensures LogOk(ns + [sn], sn + 1, dropped + Gap(next, sn))
  {
    RestIncreasing(ns, sn);
    ExcessNext(ns, sn);
  }

  lemma RestIncreasing(ns: seq<nat>, sn: nat)
    requires Increasing(if ns == [] then [] else ns[1..]) && (|ns| >= 2 ==> ns[|ns| - 1] < sn)
    ensures Increasing((ns + [sn])[1..])
  {
    if ns != [] {
      IncreasingNext(ns[1..], sn);
      assert (ns + [sn])[1..] == ns[1..] + [sn];
    } else {
      assert (ns + [sn])[1..] == [];
    }
  }

  lemma ExcessNext(ns: seq<nat>, sn: nat)
    ensures Excess(ns + [sn]) == if |ns| == 1 then (if sn <= ns[0] then ns[0] + 1 - sn else 0) else Excess(ns)
  {
  }

  // ----- Steps

  lemma TakePending(g: Group, next: nat, n: nat, now: nat)
    requires PendingOk(g, next, n)
    ensures var (h, a) := TakeNext(g, next, now);
            a.Forward? ==> (n >= 2 ==> a.sn >= next) && PendingOk(h, a.sn + 1, n + 1)
  {
    var (h, a) := TakeNext(g, next, now);
    if a.Forward? && !g.config.Ready? {
      PopAbove(g, if n >= 2 then next else 0, h);
    }
  }

  /** Nothing was forwarded. */
  lemma SameLog(r: Receiver, r': Receiver)
    requires OrderOk(r) && Numbers(r'.out) == Numbers(r.out) && r'.next == r.next && r'.dropped == r.dropped
    requires r'.status.Failed? || PendingOk(r'.group, r.next, |Numbers(r.out)|)
    ensures OrderOk(r')
  {
  }

  lemma StreamOrder(r: Receiver, packet: Packet, rawSn: u32)
    requires OrderOk(r) && r.status.Waiting?
    ensures OrderOk(OnStream(r, packet, rawSn))
  {
    if packet.Codec? {
      CodecNumbers(r.out, packet);
    } else {
      StreamPending(r.group, r.next, |Numbers(r.out)|, Unroll(HALF, r.newest, rawSn), packet);
    }
    SameLog(r, OnStream(r, packet, rawSn));
  }

  lemma StreamPending(g: Group, next: nat, n: nat, sn: nat, packet: Packet)
    requires PendingOk(g, next, n)
    ensures PendingOk(InsertStream(g, sn, packet).0, next, n)
  {
  }

  lemma CodecNumbers(out: seq<Output>, packet: Packet)
    ensures Numbers(out + [CodecOut(packet)]) == Numbers(out)
  {
    NumbersNext(out, CodecOut(packet));
  }

  lemma SymbolOrder(solver: Solver, r: Receiver, rawSn: u32, oti: Oti, id: SymbolId, data: Bytes, now: nat)
    requires OrderOk(r) && r.status.Waiting?
    ensures OrderOk(OnSymbol(solver, r, rawSn, oti, id, data, now))
  {
    var sn := Unroll(HALF, r.newest, rawSn);
    if sn >= r.next {
      SymbolAbove(solver, r.group, if |Numbers(r.out)| >= 2 then r.next else 0, sn, oti, id, data, now);
      ConfigKept(solver, r.group, sn, oti, id, data, now);
    }
  }

  lemma DeliverOrder(r: Receiver, g: Group, sn: nat, packet: Packet)
    requires OrderOk(r) && (|Numbers(r.out)| >= 2 ==> sn >= r.next)
    requires PendingOk(g, sn + 1, |Numbers(r.out)| + 1)
    ensures OrderOk(Deliver(r, g, sn, packet))
  {
    if r.frameSize.Some? {
      WithHoleNumbers(r.out, r.frameSize.value, r.next, sn, packet);
      LongerLog(r, Deliver(r, g, sn, packet), sn);
    }
  }

  lemma LongerLog(r: Receiver, r': Receiver, sn: nat)
    requires OrderOk(r) && (|Numbers(r.out)| >= 2 ==> sn >= r.next)
    requires Numbers(r'.out) == Numbers(r.out) + [sn] && r'.next == sn + 1 && r'.dropped == r.dropped + Gap(r.next, sn)
    requires PendingOk(r'.group, sn + 1, |Numbers(r.out)| + 1)
    ensures OrderOk(r')
  {
    LogNext(Numbers(r.out), r.next, r.dropped, sn);
  }

  lemma TakeOrder(r: Receiver, now: nat)
    requires OrderOk(r) && r.status.Draining?
    ensures OrderOk(OnTake(r, now))
  {
    TakePending(r.group, r.next, |Numbers(r.out)|, now);
    var (g, a) := TakeNext(r.group, r.next, now);
    if a.Forward? {
      DeliverOrder(r, g, a.sn, a.packet);
    }
  }

  lemma {:induction false} RunOrder(solver: Solver, run: seq<Step>)
    ensures OrderOk(Exec(solver, run))
  {
    if run != [] {
      var before, s := run[..|run| - 1], run[|run| - 1];
      RunOrder(solver, before);
      var r := Exec(solver, before);
      if Enabled(r, s) {
        match s
        case Stream(packet, rawSn) => StreamOrder(r, packet, rawSn);
        case Symbol(rawSn, oti, id, data, now) => SymbolOrder(solver, r, rawSn, oti, id, data, now);
        case Timer =>
        case Take(now) => TakeOrder(r, now);
      }
    }
  }

  /** Run by run, for any peer: media numbers strictly increase behind the config, and the whole order
      holds, and the counts add up, if and only if the config is numbered below the first media packet
      forwarded. */
  lemma OrderIff(solver: Solver, run: seq<Step>)
    ensures var r := Exec(solver, run);
            var ns := Numbers(r.out);
            var configFirst := |ns| >= 2 ==> ns[0] < ns[1];
            && (ns != [] ==> Increasing(ns[1..]))
            && (Increasing(ns) <==> configFirst)
            && (|ns| + r.dropped == r.next <==> configFirst)
  {
    RunOrder(solver, run);
    var ns := Numbers(Exec(solver, run).out);
    if |ns| >= 2 && ns[0] < ns[1] {
      forall i, j | 0 <= i < j < |ns| ensures ns[i] < ns[j] {
        assert ns[j] == ns[1..][j - 1];
        assert ns[1] == ns[1..][0];
        if i > 0 {
          assert ns[i] == ns[1..][i - 1];
        }
      }
    }
  }

  // ----- When the config is forwarded, the order of everything later is decided

  /** Step `i` takes the config. */
  predicate TakesConfig(solver: Solver, run: seq<Step>, i: nat)
    requires i < |run|
  {
    var r, s := Exec(solver, run[..i]), run[i];
    s.Take? && r.status.Draining? && ForwardsConfig(r, s.now)
  }

  /** The guard of the take: the config goes out, because it is next or its turn has come. */
  predicate ForwardsConfig(r: Receiver, now: nat) {
    r.frameSize.Some? && r.group.config.Ready? && NextPacket(r.group, r.next, now).ReadyNow?
  }

  /** No completed media packet is numbered at or below the config. */
  predicate InTime(g: Group, config: nat) {
    g.datagrams == [] || config < g.datagrams[0].key
  }

  /** The config is out; until the first media packet is, that packet is the front one, or one that
      is yet to be completed and numbered above the config. */
  ghost predicate Decided(r: Receiver, config: nat, inTime: bool) {
    var ns := Numbers(r.out);
    && ns != [] && ns[0] == config
    && (|ns| == 1 && !r.status.Failed? ==> FrontDecided(r.group, config, inTime))
    && (|ns| >= 2 ==> (config < ns[1] <==> inTime))
  }

  ghost predicate FrontDecided(g: Group, config: nat, inTime: bool) {
    InTime(g, config) == inTime
  }

  lemma SearchedBehind(ds: seq<Entry<Datagram>>, sn: nat)
    requires Sorted(ds) && ds != [] && ds[0].key < sn
    ensures Search(ds, sn) > 0
  {
  }

  lemma InsertedFront(g: Group, sn: nat, d: Datagram, config: nat, inTime: bool)
    requires Sorted(g.datagrams) && FrontDecided(g, config, inTime) && sn > config
    ensures FrontDecided(InsertPacket(g, sn, d), config, inTime)
  {
    if g.datagrams != [] && g.datagrams[0].key <= config {
      SearchedBehind(g.datagrams, sn);
    }
  }

  lemma FedFront(solver: Solver, g: Group, sn: nat, oti: Oti, id: SymbolId, data: Bytes, now: nat, config: nat,
                 inTime: bool)
    requires Sorted(g.datagrams) && Has(g.segments, sn) && FrontDecided(g, config, inTime) && sn > config
    ensures FrontDecided(FeedSegments(solver, g, sn, oti, id, data, now).0, config, inTime)
  {
    var i := Search(g.segments, sn);
    var (decoder, r) := Decode(solver, g.segments[i].value.decoder, oti, id, data);
    if r.Ok? && r.value.Some? && MediaPacket(r.value.value).Ok? {
      var rest := g.(segments := RemoveAt(g.segments, i));
      InsertedFront(rest, sn, Datagram(decoder.oti, MediaPacket(r.value.value).value, now), config, inTime);
    }
  }

  lemma SymbolFront(solver: Solver, g: Group, sn: nat, oti: Oti, id: SymbolId, data: Bytes, now: nat, config: nat,
                    inTime: bool)
    requires Sorted(g.datagrams) && FrontDecided(g, config, inTime) && sn > config
    ensures FrontDecided(InsertDatagram(solver, g, sn, oti, id, data, now).0, config, inTime)
  {
    if !Has(g.datagrams, sn) && PrepareSegments(g, sn, oti).Ok? {
      FedFront(solver, PrepareSegments(g, sn, oti).value, sn, oti, id, data, now, config, inTime);
    }
  }

  /** Nothing was forwarded. */
  lemma SameDecided(r: Receiver, r': Receiver, config: nat, inTime: bool)
    requires Decided(r, config, inTime) && Numbers(r'.out) == Numbers(r.out)
    requires |Numbers(r.out)| == 1 && !r'.status.Failed? ==> FrontDecided(r'.group, config, inTime)
    ensures Decided(r', config, inTime)
  {
  }

  lemma StreamDecided(r: Receiver, packet: Packet, rawSn: u32, config: nat, inTime: bool)
    requires Decided(r, config, inTime) && r.status.Waiting?
    ensures Decided(OnStream(r, packet, rawSn), config, inTime)
  {
    if packet.Codec? {
      CodecNumbers(r.out, packet);
    }
    SameDecided(r, OnStream(r, packet, rawSn), config, inTime);
  }

  lemma SymbolDecided(solver: Solver, r: Receiver, rawSn: u32, oti: Oti, id: SymbolId, data: Bytes, now: nat,
                      config: nat, inTime: bool)
    requires OrderOk(r) && Decided(r, config, inTime) && r.status.Waiting?
    ensures Decided(OnSymbol(solver, r, rawSn, oti, id, data, now), config, inTime)
  {
    var sn := Unroll(HALF, r.newest, rawSn);
    if |Numbers(r.out)| == 1 && sn >= r.next {
      SymbolFront(solver, r.group, sn, oti, id, data, now, config, inTime);
    }
    SameDecided(r, OnSymbol(solver, r, rawSn, oti, id, data, now), config, inTime);
  }

  lemma TakeDecided(r: Receiver, now: nat, config: nat, inTime: bool)
    requires OrderOk(r) && Decided(r, config, inTime) && r.status.Draining?
    ensures Decided(OnTake(r, now), config, inTime)
  {
    var (g, a) := TakeNext(r.group, r.next, now);
    if a.Forward? {
      if |Numbers(r.out)| == 1 {
        FrontTaken(r.group, r.next, now);
      }
      DeliverDecided(r, g, a.sn, a.packet, config, inTime);
    } else {
      SameDecided(r, OnTake(r, now), config, inTime);
    }
  }

  lemma FrontTaken(g: Group, next: nat, now: nat)
    requires g.config.Sent? && TakeNext(g, next, now).1.Forward?
    ensures g.datagrams != [] && TakeNext(g, next, now).1.sn == g.datagrams[0].key
  {
  }

  lemma DeliverDecided(r: Receiver, g: Group, sn: nat, packet: Packet, config: nat, inTime: bool)
    requires Decided(r, config, inTime) && (|Numbers(r.out)| == 1 ==> (config < sn <==> inTime))
    ensures Decided(Deliver(r, g, sn, packet), config, inTime)
  {
    if r.frameSize.Some? {
      WithHoleNumbers(r.out, r.frameSize.value, r.next, sn, packet);
    }
  }

  lemma ConfigDecides(r: Receiver, now: nat)
    requires OrderOk(r) && r.status.Draining? && ForwardsConfig(r, now)
    ensures Decided(OnTake(r, now), r.group.config.sn, InTime(r.group, r.group.config.sn))
  {
    WithHoleNumbers(r.out, r.frameSize.value, r.next, r.group.config.sn, r.group.config.packet);
    assert Numbers(r.out) == [];
  }

  lemma {:induction false} StaysDecided(solver: Solver, run: seq<Step>, i: nat)
    requires i < |run| && TakesConfig(solver, run, i)
    ensures var g := Exec(solver, run[..i]).group;
            Decided(Exec(solver, run), g.config.sn, InTime(g, g.config.sn))
  {
    var before, s := run[..|run| - 1], run[|run| - 1];
    var r, g := Exec(solver, before), Exec(solver, run[..i]).group;
    RunOrder(solver, before);
    if i == |run| - 1 {
      ConfigDecides(r, s.now);
    } else {
      assert before[..i] == run[..i] && before[i] == run[i];
      StaysDecided(solver, before, i);
      if Enabled(r, s) {
        StepDecided(solver, r, s, g.config.sn, InTime(g, g.config.sn));
      }
    }
  }

  lemma StepDecided(solver: Solver, r: Receiver, s: Step, config: nat, inTime: bool)
    requires OrderOk(r) && Decided(r, config, inTime) && Enabled(r, s)
    ensures Decided(Apply(solver, r, s), config, inTime)
  {
    match s
    case Stream(packet, rawSn) => StreamDecided(r, packet, rawSn, config, inTime);
    case Symbol(rawSn, oti, id, data, now) => SymbolDecided(solver, r, rawSn, oti, id, data, now, config, inTime);
    case Timer =>
    case Take(now) => TakeDecided(r, now, config, inTime);
  }

  /** The same condition, where it is decided: once media has followed the config, order and counts
      hold if and only if, when the config was taken, no completed packet was numbered at or below it.
      What arrives later changes nothing. */
  lemma OrderDecided(solver: Solver, run: seq<Step>, i: nat)
    requires i < |run| && TakesConfig(solver, run, i)
    ensures var g := Exec(solver, run[..i]).group;
            var r := Exec(solver, run);
            var ns := Numbers(r.out);
            |ns| >= 2 ==>
              && (Increasing(ns) <==> InTime(g, g.config.sn))
              && (|ns| + r.dropped == r.next <==> InTime(g, g.config.sn))
  {
    StaysDecided(solver, run, i);
    OrderIff(solver, run);
  }

  // ----- The first packet forwarded is the config

  predicate IsConfig(packet: Packet) { packet.Media? && packet.media.isConfig }

  /** A packet before any other is a config. */
  ghost predicate ConfigLeads(out: seq<Output>) {
    forall i | 0 <= i < |out| && out[i].PacketOut? && Numbers(out[..i]) == [] :: IsConfig(out[i].packet)
  }

  ghost predicate ConfigOk(r: Receiver) {
    (r.group.config.Ready? ==> IsConfig(r.group.config.packet)) && ConfigLeads(r.out)
  }

  lemma LeadsNext(out: seq<Output>, o: Output)
    requires ConfigLeads(out) && (o.PacketOut? && Numbers(out) == [] ==> IsConfig(o.packet))
    ensures ConfigLeads(out + [o])
  {
    var more := out + [o];
    forall i | 0 <= i < |more| && more[i].PacketOut? && Numbers(more[..i]) == [] ensures IsConfig(more[i].packet) {
      assert more[..i] == out[..i];
      if i == |out| {
        assert out[..i] == out;
      }
    }
  }

  lemma LeadsWithHole(out: seq<Output>, f: u16, next: nat, sn: nat, packet: Packet)
    requires ConfigLeads(out) && (Numbers(out) == [] ==> IsConfig(packet))
    ensures ConfigLeads(out + WithHole(f, next, sn, packet))
  {
    var p := PacketOut(sn, packet);
    if sn > next {
      var h := HoleOut(Samples(sn - next, f));
      assert out + WithHole(f, next, sn, packet) == out + [h] + [p];
      NumbersNext(out, h);
      assert Numbers(out) + [] == Numbers(out);
      LeadsNext(out, h);
      LeadsNext(out + [h], p);
    } else {
      assert WithHole(f, next, sn, packet) == [p];
      LeadsNext(out, p);
    }
  }

  lemma ConfigStep(solver: Solver, r: Receiver, s: Step)
    requires ConfigOk(r) && OrderOk(r) && Enabled(r, s)
    ensures ConfigOk(Apply(solver, r, s))
  {
    match s
    case Stream(packet, rawSn) =>
      if packet.Codec? {
        LeadsNext(r.out, CodecOut(packet));
      }
    case Symbol(_, _, _, _, _) => ConfigStays(solver, r, s);
    case Timer =>
    case Take(now) => TakeConfigFirst(r, now);
  }

  /** In every run the first packet forwarded, before any media, is the config. */
  lemma {:induction false} ConfigIsFirst(solver: Solver, run: seq<Step>)
    ensures ConfigOk(Exec(solver, run))
  {
    if run != [] {
      var before, s := run[..|run| - 1], run[|run| - 1];
      ConfigIsFirst(solver, before);
      RunOrder(solver, before);
      var r := Exec(solver, before);
      if Enabled(r, s) {
        ConfigStep(solver, r, s);
      }
    }
  }

  lemma ConfigStays(solver: Solver, r: Receiver, s: Step)
    requires s.Symbol?
    ensures Apply(solver, r, s).group.config == r.group.config && Apply(solver, r, s).out == r.out
  {
    ConfigKept(solver, r.group, Unroll(HALF, r.newest, s.rawSn), s.oti, s.id, s.data, s.now);
  }

  lemma TakeConfigFirst(r: Receiver, now: nat)
    requires ConfigOk(r) && OrderOk(r) && r.status.Draining?
    ensures ConfigOk(OnTake(r, now))
  {
    var (g, a) := TakeNext(r.group, r.next, now);
    if a.Forward? && r.frameSize.Some? {
      LeadsWithHole(r.out, r.frameSize.value, r.next, a.sn, a.packet);
    }
  }
}
