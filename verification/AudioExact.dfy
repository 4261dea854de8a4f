/** The audio buffer holds exactly what the symbols that arrived have made of each packet still due, so
    that whenever the loop waits the next packet has not been completed
    (kyproto/src/protocol/driver/av/audio_unreliable_fec.rs). For any peer. */
module AudioExact {
  import opened Wrappers
  import opened SortedVec
  import opened AvPacket
  import opened Fec
  import opened Sequencer
  import opened AudioGroup
  import opened AudioReceiver
  import opened AudioProgress
  import AudioOrder

  datatype Object = Open(oti: Oti, symbols: map<SymbolId, Bytes>) | Done(oti: Oti, packet: Packet, instant: nat)

  function ObjectIn(g: Group, k: nat): Option<Object> {
    match At(g.datagrams, k)
    case Some(d) => Some(Done(d.oti, d.packet, d.instant))
    case None =>
      match At(g.segments, k)
      case Some(s) => Some(Open(s.decoder.oti, s.decoder.received))
      case None => None
  }

  /** What a symbol makes of its packet: nothing new of a completed one or of one that has the symbol;
      otherwise one symbol more, and once the solver gives an object, the packet, dated now. */
  function Fed(solver: Solver, o: Option<Object>, oti: Oti, id: SymbolId, data: Bytes, now: nat): Option<Object> {
    if o.Some? && o.value.Done? then o
    else
      var symbols := if o.Some? then o.value.symbols else map[];
      if id in symbols then Some(Open(oti, symbols))
      else
        var more := symbols[id := data];
        match solver(oti, more)
        case None => Some(Open(oti, more))
        case Some(bytes) => if MediaPacket(bytes).Ok? then Some(Done(oti, MediaPacket(bytes).value, now)) else None
  }

  // ----- One symbol

  lemma StillOpen(g: Group, sn: nat, seg: Segments, k: nat)
    requires Above(g, 0) && Has(g.segments, sn) && !Has(g.datagrams, sn)
    ensures var h := g.(segments := g.segments[Search(g.segments, sn) := Entry(sn, seg)]);
            ObjectIn(h, k) == if k == sn then Some(Open(seg.decoder.oti, seg.decoder.received)) else ObjectIn(g, k)
  {
    AtUpdate(g.segments, Search(g.segments, sn), seg, k);
  }

  lemma NowDone(g: Group, sn: nat, d: Datagram, k: nat)
    requires Above(g, 0) && Has(g.segments, sn) && !Has(g.datagrams, sn)
    ensures var h := InsertPacket(g.(segments := RemoveAt(g.segments, Search(g.segments, sn))), sn, d);
            ObjectIn(h, k) == if k == sn then Some(Done(d.oti, d.packet, d.instant)) else ObjectIn(g, k)
  {
    AtRemove(g.segments, Search(g.segments, sn), k);
    AtInsert(g.datagrams, Entry(sn, d), k);
  }

  lemma FeedObject(solver: Solver, g: Group, sn: nat, oti: Oti, id: SymbolId, data: Bytes, now: nat, k: nat)
    requires Above(g, 0) && Has(g.segments, sn) && !Has(g.datagrams, sn)
    ensures var (h, r) := FeedSegments(solver, g, sn, oti, id, data, now);
            var s := g.segments[Search(g.segments, sn)].value;
            r.Ok? ==> ObjectIn(h, k) ==
                      if k == sn then Fed(solver, Some(Open(s.decoder.oti, s.decoder.received)), oti, id, data, now)
                      else ObjectIn(g, k)
  {
    var s := g.segments[Search(g.segments, sn)].value;
    var (decoder, r) := Decode(solver, s.decoder, oti, id, data);
    if r.Ok? {
      match r.value
      case None => StillOpen(g, sn, Segments(decoder, None), k);
      case Some(bytes) =>
        if MediaPacket(bytes).Ok? {
          NowDone(g, sn, Datagram(decoder.oti, MediaPacket(bytes).value, now), k);
        }
    }
  }

  lemma OpenedObject(g: Group, sn: nat, oti: Oti, k: nat)
    requires Above(g, 0) && !Has(g.datagrams, sn) && !Has(g.segments, sn)
    ensures var e := Entry(sn, Segments(NewDecoder(oti), None));
            var h := g.(segments := InsertAt(g.segments, Search(g.segments, sn), e));
            && Has(h.segments, sn) && h.segments[Search(h.segments, sn)] == e
            && (k != sn ==> ObjectIn(h, k) == ObjectIn(g, k)) && ObjectIn(g, sn).None?
  {
    var e := Entry(sn, Segments(NewDecoder(oti), None));
    AtInsert(g.segments, e, k);
    AtInsert(g.segments, e, sn);
    SearchInserted(g.segments, e);
  }

  /** The whole effect of an accepted symbol: its own packet becomes what the symbol makes of it. */
  lemma SymbolObject(solver: Solver, g: Group, sn: nat, oti: Oti, id: SymbolId, data: Bytes, now: nat, k: nat)
    requires Above(g, 0) && InsertDatagram(solver, g, sn, oti, id, data, now).1.Ok?
    ensures var h := InsertDatagram(solver, g, sn, oti, id, data, now).0;
            && ObjectIn(h, k) ==
               (if k == sn then Fed(solver, ObjectIn(g, sn), oti, id, data, now) else ObjectIn(g, k))
            && h.config == g.config
  {
    ConfigKept(solver, g, sn, oti, id, data, now);
    if Has(g.datagrams, sn) {
    } else if Has(g.segments, sn) {
      FeedObject(solver, g, sn, oti, id, data, now, k);
    } else {
      FirstObject(solver, g, sn, oti, id, data, now, k);
    }
  }

  lemma FirstObject(solver: Solver, g: Group, sn: nat, oti: Oti, id: SymbolId, data: Bytes, now: nat, k: nat)
    requires Above(g, 0) && !Has(g.datagrams, sn) && !Has(g.segments, sn)
    requires InsertDatagram(solver, g, sn, oti, id, data, now).1.Ok?
    ensures ObjectIn(InsertDatagram(solver, g, sn, oti, id, data, now).0, k) ==
            if k == sn then Fed(solver, None, oti, id, data, now) else ObjectIn(g, k)
  {
    OpenedObject(g, sn, oti, k);
    PreparedAbove(g, 0, sn, oti);
    FeedObject(solver, PrepareSegments(g, sn, oti).value, sn, oti, id, data, now, k);
  }

  /** A take removes the packet taken and what is below it, or only marks the config as sent. */
  lemma TakeObject(g: Group, next: nat, now: nat, k: nat)
    requires Above(g, 0)
    ensures var (h, a) := TakeNext(g, next, now);
            a.Forward? && a.sn < k ==> ObjectIn(h, k) == ObjectIn(g, k)
  {
    var n := NextPacket(g, next, now);
    if n.ReadyNow? && !n.isConfig {
      var d := g.datagrams[0].key;
      if d < k {
        AtSuffix(g.segments, Search(g.segments, d), k);
        AtSuffix(g.datagrams, 1, k);
      }
    }
  }

  // ----- Runs

  /** The step brings a symbol of packet `k`, which is not below the next number. */
  predicate Brings(r: Receiver, x: Step, k: nat) {
    x.Symbol? && Enabled(r, x) && Unroll(HALF, r.newest, x.rawSn) == k && r.next <= k
  }

  /** What the symbols of the run have made of packet `k`, one after the other. */
  function Story(solver: Solver, run: seq<Step>, k: nat): Option<Object> {
    if run == [] then None
    else
      var before, x := run[..|run| - 1], run[|run| - 1];
      var o := Story(solver, before, k);
      if Brings(Exec(solver, before), x, k) then Fed(solver, o, x.oti, x.id, x.data, x.now) else o
  }

  /** The greatest next number so far. */
  function Due(solver: Solver, run: seq<Step>): nat {
    var next := Exec(solver, run).next;
    if run == [] then next
    else
      var before := Due(solver, run[..|run| - 1]);
      if before <= next then next else before
  }

  lemma StepStory(solver: Solver, r: Receiver, x: Step, k: nat)
    requires Enabled(r, x) && !Apply(solver, r, x).status.Failed? && Above(r.group, 0)
    requires r.next <= k && Apply(solver, r, x).next <= k
    ensures ObjectIn(Apply(solver, r, x).group, k) ==
            if Brings(r, x, k) then Fed(solver, ObjectIn(r.group, k), x.oti, x.id, x.data, x.now)
            else ObjectIn(r.group, k)
  {
    match x
    case Stream(packet, rawSn) =>
    case Symbol(rawSn, oti, id, data, now) =>
      var sn := Unroll(HALF, r.newest, rawSn);
      if r.next <= sn {
        SymbolObject(solver, r.group, sn, oti, id, data, now, k);
      }
    case Timer =>
    case Take(now) => TakeObject(r.group, r.next, now, k);
  }

  /** In every run of any peer, of every packet not below any next number so far, the buffer holds
      exactly what the symbols that arrived have made of it. */
  lemma {:induction false} BufferIsExact(solver: Solver, run: seq<Step>, k: nat)
    requires IsRun(solver, run) && !Exec(solver, run).status.Failed? && Due(solver, run) <= k
    ensures ObjectIn(Exec(solver, run).group, k) == Story(solver, run, k)
  {
    if run != [] {
      var before, x := run[..|run| - 1], run[|run| - 1];
      DueIsAbove(solver, before);
      BufferIsExact(solver, before, k);
      AudioOrder.RunOrder(solver, before);
      AboveAll(Exec(solver, before));
      StepStory(solver, Exec(solver, before), x, k);
    }
  }

  lemma AboveAll(r: Receiver)
    requires AudioOrder.OrderOk(r) && !r.status.Failed?
    ensures Above(r.group, 0)
  {
  }

  lemma DueIsAbove(solver: Solver, run: seq<Step>)
    ensures Exec(solver, run).next <= Due(solver, run)
  {
  }

  // ----- With the config first

  lemma {:induction false} NextIsDue(solver: Solver, run: seq<Step>)
    requires ConfigFirst(solver, run)
    ensures Due(solver, run) == Exec(solver, run).next
  {
    if run != [] {
      var before, x := run[..|run| - 1], run[|run| - 1];
      NextIsDue(solver, before);
      RunOrder(solver, before);
      if Enabled(Exec(solver, before), x) {
        NextGrows(solver, Exec(solver, before), x);
      }
    }
  }

  lemma NextGrows(solver: Solver, r: Receiver, x: Step)
    requires OrderOk(r) && Enabled(r, x)
    ensures r.next <= Apply(solver, r, x).next
  {
    if x.Take? {
      TakeAhead(r.group, r.next, x.now);
    }
  }

  predicate IsConfigStep(x: Step) { x.Stream? && !x.packet.Codec? }

  predicate ConfigCame(run: seq<Step>) {
    run != [] && (ConfigCame(run[..|run| - 1]) || IsConfigStep(run[|run| - 1]))
  }

  lemma {:induction false} ConfigIsHeld(solver: Solver, run: seq<Step>)
    requires IsRun(solver, run) && !Exec(solver, run).status.Failed? && ConfigCame(run)
    ensures !Exec(solver, run).group.config.NoConfig? || Exec(solver, run).next > 0
  {
    var before, x := run[..|run| - 1], run[|run| - 1];
    if ConfigCame(before) {
      ConfigIsHeld(solver, before);
      ConfigStays(solver, Exec(solver, before), x);
    }
  }

  lemma ConfigStays(solver: Solver, r: Receiver, x: Step)
    requires Enabled(r, x) && (!r.group.config.NoConfig? || r.next > 0)
    ensures var r' := Apply(solver, r, x); !r'.group.config.NoConfig? || r'.next > 0
  {
    if x.Symbol? {
      ConfigKept(solver, r.group, Unroll(HALF, r.newest, x.rawSn), x.oti, x.id, x.data, x.now);
    }
  }

  /** Exactness: if the config is the first sequenced packet, whenever the loop waits the client has
      every packet up to the first that was not completed by what arrived: before any packet was given
      no config came, and afterwards the next packet is not complete. */
  lemma GivenUpToTheFirstIncomplete(solver: Solver, run: seq<Step>)
    requires IsRun(solver, run) && ConfigFirst(solver, run) && Exec(solver, run).status.Waiting?
    ensures var r := Exec(solver, run);
            && (r.next == 0 ==> !ConfigCame(run))
            && (r.next > 0 ==> var o := Story(solver, run, r.next); !(o.Some? && o.value.Done?))
  {
    var r := Exec(solver, run);
    DrainLeavesNothing(solver, run);
    RunOrder(solver, run);
    NextIsDue(solver, run);
    BufferIsExact(solver, run, r.next);
    if r.next == 0 && ConfigCame(run) {
      ConfigIsHeld(solver, run);
    }
  }
}
