/** Where the holes stand, that the drain loop of the audio receiver leaves nothing ready behind,
    and that its buffer stays within its budget. */
module AudioProgress {
  import opened Wrappers
  import opened SortedVec
  import opened AvPacket
  import opened Fec
  import opened Sequencer
  import opened AudioGroup
  import opened AudioReceiver

  // ----- Holes, by position

  /** A packet after a gap has the hole for that gap directly before it, any other output has no
      hole before it, and a hole is followed by a packet. */
  ghost predicate Placed(f: u16, out: seq<Output>, i: nat)
    requires i < |out|
  {
    match out[i]
    case PacketOut(sn, _) => Preceded(f, out, i, NextOf(Items(out[..i])))
    case HoleOut(_) => i + 1 < |out| && out[i + 1].PacketOut? && !HoleBefore(out, i)
    case CodecOut(_) => !HoleBefore(out, i)
  }

  predicate HoleBefore(out: seq<Output>, i: nat)
    requires i < |out|
  {
    i > 0 && out[i - 1].HoleOut?
  }

  predicate Preceded(f: u16, out: seq<Output>, i: nat, next: nat)
    requires i < |out| && out[i].PacketOut?
  {
    if out[i].sn > next then i > 0 && out[i - 1] == HoleOut(Samples(out[i].sn - next, f)) else !HoleBefore(out, i)
  }

  lemma ShownItems(f: u16, next: nat, x: Item)
    ensures Items(Shown(f, next, x)) == [x]
  {
    match x
    case CodecItem(packet) =>
      OutItems([], CodecOut(packet));
      assert [] + [CodecOut(packet)] == [CodecOut(packet)];
    case PacketItem(sn, packet) => WithHoleItems(f, next, sn, packet);
  }

  lemma {:induction false} ItemsOfTimeline(f: u16, items: seq<Item>)
    ensures Items(Timeline(f, items)) == items
  {
    if items != [] {
      var before, x := items[..|items| - 1], items[|items| - 1];
      assert items == before + [x];
      ItemsOfTimeline(f, before);
      ItemsNext(f, before, x);
    }
  }

  lemma ItemsNext(f: u16, before: seq<Item>, x: Item)
    requires Items(Timeline(f, before)) == before
    ensures Items(Timeline(f, before + [x])) == before + [x]
  {
    TimelineNext(f, before, x);
    HoleSamplesConcat(Timeline(f, before), Shown(f, NextOf(before), x));
    ShownItems(f, NextOf(before), x);
  }

  /** What stands before a position does not depend on what follows. */
  lemma PlacedStays(f: u16, out: seq<Output>, more: seq<Output>, i: nat)
    requires i < |out| && Placed(f, out, i)
    ensures Placed(f, out + more, i)
  {
    assert (out + more)[..i] == out[..i];
  }

  lemma {:induction false} TimelinePlaced(f: u16, items: seq<Item>, i: nat)
    requires i < |Timeline(f, items)|
    ensures Placed(f, Timeline(f, items), i)
  {
    var before, x := items[..|items| - 1], items[|items| - 1];
    var done, more := Timeline(f, before), Shown(f, NextOf(before), x);
    if i < |done| {
      TimelinePlaced(f, before, i);
      PlacedStays(f, done, more, i);
    } else {
      ItemsOfTimeline(f, before);
      if done != [] {
        TimelinePlaced(f, before, |done| - 1);
      }
      ShownPlaced(f, done, x, i);
    }
  }

  lemma ShownPlaced(f: u16, done: seq<Output>, x: Item, i: nat)
    requires done != [] ==> !done[|done| - 1].HoleOut?
    requires |done| <= i < |done + Shown(f, NextOf(Items(done)), x)|
    ensures Placed(f, done + Shown(f, NextOf(Items(done)), x), i)
  {
    var next := NextOf(Items(done));
    if x.PacketItem? && x.sn > next {
      var h, p := HoleOut(Samples(x.sn - next, f)), PacketOut(x.sn, x.packet);
      assert done + Shown(f, next, x) == done + [h, p];
      GapPlaced(f, done, h, p, i, next);
    } else {
      assert (done + Shown(f, next, x))[..i] == done;
    }
  }

  lemma GapPlaced(f: u16, done: seq<Output>, h: Output, p: Output, i: nat, next: nat)
    requires done != [] ==> !done[|done| - 1].HoleOut?
    requires h.HoleOut? && p.PacketOut? && p.sn > next == NextOf(Items(done)) && h == HoleOut(Samples(p.sn - next, f))
    requires |done| <= i < |done| + 2
    ensures Placed(f, done + [h, p], i)
  {
    if i == |done| + 1 {
      GapPreceded(f, done, h, p, next);
      NextAfterHole(done, h, p);
      PlacedPacket(f, done + [h, p], i, next);
    }
  }

  lemma NextAfterHole(done: seq<Output>, h: Output, p: Output)
    requires h.HoleOut?
    ensures NextOf(Items((done + [h, p])[..|done| + 1])) == NextOf(Items(done))
  {
    assert (done + [h, p])[..|done| + 1] == done + [h];
    HoleIsNoItem(done, h);
  }

  lemma PlacedPacket(f: u16, out: seq<Output>, i: nat, next: nat)
    requires i < |out| && out[i].PacketOut? && next == NextOf(Items(out[..i])) && Preceded(f, out, i, next)
    ensures Placed(f, out, i)
  {
  }

  lemma GapPreceded(f: u16, done: seq<Output>, h: Output, p: Output, next: nat)
    requires p.PacketOut? && p.sn > next && h == HoleOut(Samples(p.sn - next, f))
    ensures Preceded(f, done + [h, p], |done| + 1, next)
  {
  }

  lemma HoleIsNoItem(done: seq<Output>, h: Output)
    requires h.HoleOut?
    ensures NextOf(Items(done + [h])) == NextOf(Items(done))
  {
    OutItems(done, h);
    assert Items(done) + [] == Items(done);
  }

  /** In every run with one frame size every output is placed. */
  lemma HolePlacement(solver: Solver, f: u16, run: seq<Step>, i: nat)
    requires f > 0 && OneFrameSize(f, run) && i < |Exec(solver, run).out|
    ensures Placed(f, Exec(solver, run).out, i)
  {
    RunTimeline(solver, f, run);
    TimelinePlaced(f, Items(Exec(solver, run).out), i);
  }

  // ----- The drain loop and its deadline

  /** The next expected packet is ready. */
  predicate Offers(g: Group, next: nat) {
    !g.config.NoConfig? && ((g.config.Ready? && g.config.sn == next) || Has(g.datagrams, next))
  }

  lemma OfferedIsTaken(g: Group, next: nat, now: nat)
    requires Ahead(g, next) && Offers(g, next)
    ensures TakeNext(g, next, now).1.Forward? && TakeNext(g, next, now).1.sn == next
  {
    if !g.config.Ready? {
      var i := Search(g.datagrams, next);
      assert g.datagrams[0] in g.datagrams && g.datagrams[0].key in Keys(g.datagrams);
      assert i == 0;
    }
  }

  /** If the config is the first sequenced packet: whenever the loop waits, the next packet is not
      ready. */
  lemma {:induction false} DrainLeavesNothing(solver: Solver, run: seq<Step>)
    requires ConfigFirst(solver, run)
    ensures var r := Exec(solver, run); r.status.Waiting? ==> !Offers(r.group, r.next)
  {
    if run != [] {
      var before, s := run[..|run| - 1], run[|run| - 1];
      DrainLeavesNothing(solver, before);
      RunOrder(solver, before);
      var r := Exec(solver, before);
      if s.Take? && r.status.Draining? && Offers(r.group, r.next) {
        OfferedIsTaken(r.group, r.next, s.now);
      }
    }
  }

  lemma {:induction false} MinInstantIsLeast(ds: seq<Entry<Datagram>>)
    requires ds != []
    ensures forall d | d in ds :: MinInstant(ds) <= d.value.instant
    ensures exists d :: d in ds && d.value.instant == MinInstant(ds)
  {
    var before, last := ds[..|ds| - 1], ds[|ds| - 1];
    assert ds == before + [last];
    if before != [] {
      MinInstantIsLeast(before);
      var d :| d in before && d.value.instant == MinInstant(before);
      assert d in ds;
    }
    assert last in ds;
  }

  /** The loop waits for the earliest completed packet's window to end, not longer. */
  lemma DeadlineIsEarliest(g: Group, next: nat, now: nat, later: nat)
    requires TakeNext(g, next, now).1.WaitUntil?
    ensures var until := TakeNext(g, next, now).1.instant;
            && now < until
            && (forall d | d in g.datagrams :: until <= d.value.instant + MAX_BUFFERING)
            && (exists d :: d in g.datagrams && until == d.value.instant + MAX_BUFFERING)
            && (until <= later ==> TakeNext(g, next, later).1.Forward?)
  {
    MinInstantIsLeast(g.datagrams);
  }

  /** Whenever the loop waits, it waits for a deadline exactly if the config came and a completed packet
      is held, and then until the window of the packet completed first is over. */
  ghost predicate DeadlineInv(r: Receiver) {
    r.status.Waiting? ==>
      && (r.deadline.Some? <==> !r.group.config.NoConfig? && r.group.datagrams != [])
      && (r.deadline.Some? ==>
            && (forall d | d in r.group.datagrams :: r.deadline.value <= d.value.instant + MAX_BUFFERING)
            && (exists d :: d in r.group.datagrams && r.deadline.value == d.value.instant + MAX_BUFFERING))
  }

  lemma TakeSetsDeadline(r: Receiver, now: nat)
    ensures !TakeNext(r.group, r.next, now).1.Forward? ==> DeadlineInv(OnTake(r, now))
  {
    if TakeNext(r.group, r.next, now).1.WaitUntil? {
      DeadlineIsEarliest(r.group, r.next, now, now);
    }
  }

  /** The bounded wait, in every run of any peer. */
  lemma {:induction false} WaitIsBounded(solver: Solver, run: seq<Step>)
    ensures DeadlineInv(Exec(solver, run))
  {
    if run != [] {
      var before, s := run[..|run| - 1], run[|run| - 1];
      WaitIsBounded(solver, before);
      if s.Take? {
        TakeSetsDeadline(Exec(solver, before), s.now);
      }
    }
  }

  // ----- The budget

  function Objects(g: Group): nat {
    |g.segments| + |g.datagrams| + if g.config.Ready? then 1 else 0
  }

  function Charge(g: Group): nat {
    Sum(g.segments, SegmentsCharge) + Sum(g.datagrams, DatagramCharge)
    + if g.config.Ready? && g.config.packet.Media? then |g.config.packet.payload| else 0
  }

  ghost predicate WithinBudget(g: Group) {
    && (g.config.Ready? ==> g.config.packet.Media?)
    && Objects(g) <= MAX_PENDING_OBJECTS && Charge(g) <= AUDIO_BUDGET
  }

  lemma PreparedWithin(g: Group, sn: nat, oti: Oti)
    requires WithinBudget(g) && PrepareSegments(g, sn, oti).Ok?
    ensures WithinBudget(PrepareSegments(g, sn, oti).value)
  {
    SumInsert(g.segments, Search(g.segments, sn), Entry(sn, Segments(NewDecoder(oti), None)), SegmentsCharge);
  }

  lemma FedWithin(solver: Solver, g: Group, sn: nat, oti: Oti, id: SymbolId, data: Bytes, now: nat)
    requires WithinBudget(g) && Has(g.segments, sn)
    ensures WithinBudget(FeedSegments(solver, g, sn, oti, id, data, now).0)
  {
    var i := Search(g.segments, sn);
    var (decoder, r) := Decode(solver, g.segments[i].value.decoder, oti, id, data);
    SumUpdate(g.segments, i, Entry(sn, Segments(decoder, None)), SegmentsCharge);
    SumRemove(g.segments, i, SegmentsCharge);
    if r.Ok? && r.value.Some? && MediaPacket(r.value.value).Ok? && !Has(g.datagrams, sn) {
      var d := Entry(sn, Datagram(decoder.oti, MediaPacket(r.value.value).value, now));
      SumInsert(g.datagrams, Search(g.datagrams, sn), d, DatagramCharge);
    }
  }

  lemma SymbolWithin(solver: Solver, g: Group, sn: nat, oti: Oti, id: SymbolId, data: Bytes, now: nat)
    requires WithinBudget(g)
    ensures WithinBudget(InsertDatagram(solver, g, sn, oti, id, data, now).0)
  {
    if !Has(g.datagrams, sn) && PrepareSegments(g, sn, oti).Ok? {
      PreparedWithin(g, sn, oti);
      FedWithin(solver, PrepareSegments(g, sn, oti).value, sn, oti, id, data, now);
    }
  }

  lemma TakeWithin(g: Group, next: nat, now: nat)
    requires WithinBudget(g)
    ensures WithinBudget(TakeNext(g, next, now).0)
  {
    var n := NextPacket(g, next, now);
    if n.ReadyNow? && !n.isConfig {
      var i := Search(g.segments, g.datagrams[0].key);
      SumSplit(g.segments, i, SegmentsCharge);
    }
  }

  /** Whatever the peer sends, and also in the state left by a rejected message: at most 128
      objects and 8 MiB are held. */
  lemma {:induction false} EveryStateWithinBudget(solver: Solver, run: seq<Step>)
    ensures WithinBudget(Exec(solver, run).group)
  {
    if run != [] {
      var before, s := run[..|run| - 1], run[|run| - 1];
      EveryStateWithinBudget(solver, before);
      var r := Exec(solver, before);
      match s
      case Stream(_, _) =>
      case Symbol(rawSn, oti, id, data, now) =>
        SymbolWithin(solver, r.group, Unroll(HALF, r.newest, rawSn), oti, id, data, now);
      case Timer =>
      case Take(now) => TakeWithin(r.group, r.next, now);
    }
  }
}
