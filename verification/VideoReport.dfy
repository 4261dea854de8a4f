/** The three FEC counts over whole runs, for any peer: what is reported and what is held add up to
    what the symbols have made of their objects. */
module VideoReport {
  import opened Wrappers
  import opened SortedVec
  import opened AvPacket
  import opened Fec
  import opened Sequencer
  import opened VideoGroup
  import opened VideoPending
  import opened VideoInvariant
  import opened VideoReceiver
  import opened VideoOrder
  import opened VideoCounts
  import opened VideoExact
  import opened VideoObjects
  import opened VideoHistory

  // ----- Takes

  function OrZero(n: Option<nat>): nat { if n.Some? then n.value else 0 }

  /** The counts the protocol statistics show. */
  function Shown(s: ProtocolStats): FecStats {
    FecStats(OrZero(s.source), OrZero(s.missing), OrZero(s.unrecovered))
  }

  /** Shown or still to be shown. */
  function Accounted(r: Receiver): FecStats { Shown(r.stats).Add(Held(r.pending)) }

  lemma ReportAdds(s: ProtocolStats, fec: FecStats)
    requires fec.Consistent()
    ensures Shown(Report(s, fec)) == Shown(s).Add(fec)
  {
    var shown := Shown(Report(s, fec));
    assert shown.source == Shown(s).source + fec.source;
    assert shown.missing == Shown(s).missing + fec.missing;
    assert shown.unrecovered == Shown(s).unrecovered + fec.unrecovered;
  }

  lemma DeliverShows(r: Receiver, q: Pending, a: Action)
    requires a.Forward? && a.stats.Consistent()
    ensures Shown(Deliver(r, q, a).stats) == Shown(r.stats).Add(a.stats) && Deliver(r, q, a).pending == q
  {
    ReportAdds(r.stats, a.stats);
  }

  /** Every take moves counts from what is held to what is shown, and changes none of the three. */
  lemma TakeAccounts(r: Receiver, now: nat)
    requires ReceiverInv(r)
    ensures Accounted(OnTake(r, now)) == Accounted(r)
  {
    var (q, a) := TakeNext(r.pending, r.next, now);
    TakeConserves(r.pending, r.next, now);
    if a.Forward? {
      TakeNextInv(r.pending, r.next, now);
      TakeDelivers(r, now, q, a);
      DeliverShows(r, q, a);
      Assoc(Shown(r.stats), a.stats, Held(q));
    } else {
      TakeOnlyWaits(r, now, q, a);
      Zero(Held(q));
    }
  }

  // ----- Totals and one element

  lemma TotalInserted<T>(xs: seq<T>, i: nat, x: T, f: T -> FecStats)
    requires i <= |xs|
    ensures Total(InsertAt(xs, i, x), f) == Total(xs, f).Add(f(x))
  {
    var ys := InsertAt(xs, i, x);
    TotalAt(ys, i, f);
    assert ys[..i] == xs[..i] && ys[i + 1..] == xs[i..] && xs == xs[..i] + xs[i..];
    TotalConcat(xs[..i], xs[i..], f);
    ToTheEnd(Total(xs[..i], f), f(x), Total(xs[i..], f));
  }

  lemma ToTheEnd(a: FecStats, x: FecStats, b: FecStats)
    ensures a.Add(x.Add(b)) == a.Add(b).Add(x)
  {
  }

  lemma TotalRemoved<T>(xs: seq<T>, i: nat, f: T -> FecStats)
    requires i < |xs|
    ensures Total(xs, f) == Total(RemoveAt(xs, i), f).Add(f(xs[i]))
  {
    TotalAt(xs, i, f);
    TotalRemove(xs, i, f);
    ToTheEnd(Total(xs[..i], f), f(xs[i]), Total(xs[i + 1..], f));
  }

  lemma TotalChanged<T>(xs: seq<T>, i: nat, x: T, f: T -> FecStats)
    requires i < |xs|
    ensures Total(xs[i := x], f).Add(f(xs[i])) == Total(xs, f).Add(f(x))
  {
    TotalAt(xs, i, f);
    TotalUpdate(xs, i, x, f);
    Exchange(Total(xs[..i], f), f(xs[i]), f(x), Total(xs[i + 1..], f));
  }

  lemma Exchange(a: FecStats, x: FecStats, y: FecStats, b: FecStats)
    ensures a.Add(y.Add(b)).Add(x) == a.Add(x.Add(b)).Add(y)
  {
  }

  // ----- Symbols

  /** What an object counts: open, all its source symbols not received are missing and unrecovered. */
  ghost function CountsOf(o: Option<Object>): FecStats {
    match o
    case None => NO_STATS
    case Some(Open(oti, symbols, _)) =>
      var ids := SourceIds(oti, oti.blocks);
      FecStats(|ids|, |ids - symbols.Keys|, |ids - symbols.Keys|)
    case Some(Done(_, _, _, stats)) => stats
  }

  lemma OpenCounts(g: Group, k: nat)
    requires GroupOk(g) && Has(g.segments, k)
    ensures CountsOf(ObjectIn(g, k)) == SegmentsStats(g.segments[Search(g.segments, k)].value)
  {
    OpenIn(g, k);
    CountsAreExact(g.segments[Search(g.segments, k)].value);
  }

  lemma FeedCounts(solver: Solver, g: Group, sn: nat, oti: Oti, id: SymbolId, data: Bytes, at: Instants)
    requires GroupOk(g) && Has(g.segments, sn) && !Has(g.datagrams, sn)
    ensures var (h, r) := FeedSegments(solver, g, sn, oti, id, data, at.assembled);
            var s := g.segments[Search(g.segments, sn)].value;
            r.Ok? ==> DiscardedStats(h).Add(SegmentsStats(s)) == DiscardedStats(g).Add(CountsOf(ObjectIn(h, sn)))
  {
    var i := Search(g.segments, sn);
    var s := g.segments[i].value;
    var (decoder, fed) := Decode(solver, s.decoder, oti, id, data);
    var (h, r) := FeedSegments(solver, g, sn, oti, id, data, at.assembled);
    if r.Ok? {
      FeedSegmentsOk(solver, g, sn, oti, id, data, at.assembled);
      var seg := s.(decoder := decoder, assembled := fed.value);
      if fed.value.None? {
        StillOpen(g, sn, seg, sn);
        UpdatedCounts(g, i, Entry(sn, seg));
        DecodeKeepsInv(solver, s.decoder, oti, id, data);
        CountsAreExact(seg);
      } else {
        NowDone(g, sn, Assemble(seg, at.assembled).value, sn);
        MovedCounts(g, i, sn, Assemble(seg, at.assembled).value);
      }
    }
  }

  lemma UpdatedCounts(g: Group, i: nat, e: Entry<Segments>)
    requires i < |g.segments|
    ensures DiscardedStats(g.(segments := g.segments[i := e])).Add(EntryStats(g.segments[i])) ==
            DiscardedStats(g).Add(EntryStats(e))
  {
    TotalChanged(g.segments, i, e, EntryStats);
    Beside(Total(g.datagrams, DatagramStats), Total(g.segments[i := e], EntryStats), EntryStats(g.segments[i]),
           Total(g.segments, EntryStats), EntryStats(e));
  }

  lemma Beside(d: FecStats, a: FecStats, x: FecStats, b: FecStats, y: FecStats)
    requires a.Add(x) == b.Add(y)
    ensures d.Add(a).Add(x) == d.Add(b).Add(y)
  {
  }

  lemma MovedCounts(g: Group, i: nat, sn: nat, d: Datagram)
    requires i < |g.segments| && !Has(g.datagrams, sn)
    ensures DiscardedStats(InsertPacket(g.(segments := RemoveAt(g.segments, i)), sn, d)).Add(EntryStats(g.segments[i]))
            == DiscardedStats(g).Add(d.stats)
  {
    TotalRemoved(g.segments, i, EntryStats);
    TotalInserted(g.datagrams, Search(g.datagrams, sn), Entry(sn, d), DatagramStats);
    Across(Total(g.datagrams, DatagramStats), d.stats, Total(RemoveAt(g.segments, i), EntryStats),
           EntryStats(g.segments[i]));
  }

  lemma Across(d: FecStats, y: FecStats, a: FecStats, x: FecStats)
    ensures d.Add(y).Add(a).Add(x) == d.Add(a.Add(x)).Add(y)
  {
  }

  /** A symbol changes the counts of its group by what it changes of its own object. */
  lemma GroupCounts(solver: Solver, g: Group, sn: nat, oti: Oti, id: SymbolId, data: Bytes, at: Instants)
    requires GroupOk(g) && ValidOti(oti, MAX_VIDEO_PAYLOAD)
    ensures var (h, r) := InsertSymbol(solver, g, sn, oti, id, data, at);
            r.Ok? ==> DiscardedStats(h).Add(CountsOf(ObjectIn(g, sn))) ==
                      DiscardedStats(g).Add(CountsOf(ObjectIn(h, sn)))
  {
    if Has(g.datagrams, sn) {
    } else if Has(g.segments, sn) {
      OpenCounts(g, sn);
      FeedCounts(solver, g, sn, oti, id, data, at);
    } else {
      FirstCounts(solver, g, sn, oti, id, data, at);
    }
  }

  lemma FirstCounts(solver: Solver, g: Group, sn: nat, oti: Oti, id: SymbolId, data: Bytes, at: Instants)
    requires GroupOk(g) && ValidOti(oti, MAX_VIDEO_PAYLOAD) && !Has(g.datagrams, sn) && !Has(g.segments, sn)
    ensures var (h, r) := InsertSymbol(solver, g, sn, oti, id, data, at);
            r.Ok? ==> DiscardedStats(h).Add(NO_STATS) == DiscardedStats(g).Add(CountsOf(ObjectIn(h, sn)))
  {
    var e := Entry(sn, Segments(NewDecoder(oti), None, at.created));
    PrepareSegmentsOk(g, sn, oti, at.created);
    var prepared := PrepareSegments(g, sn, oti, at.created).value;
    OpenedObject(g, sn, oti, at.created, sn);
    FeedCounts(solver, prepared, sn, oti, id, data, at);
    TotalInserted(g.segments, Search(g.segments, sn), e, EntryStats);
    var (h, r) := InsertSymbol(solver, g, sn, oti, id, data, at);
    if r.Ok? {
      Cancel(DiscardedStats(h), EntryStats(e), Total(g.datagrams, DatagramStats), Total(g.segments, EntryStats),
             CountsOf(ObjectIn(h, sn)));
    }
  }

  lemma Cancel(h: FecStats, e: FecStats, d: FecStats, s: FecStats, c: FecStats)
    requires h.Add(e) == d.Add(s.Add(e)).Add(c)
    ensures h.Add(NO_STATS) == d.Add(s).Add(c)
  {
  }

  lemma TotalNone<T>(xs: seq<T>, f: T -> FecStats)
    requires xs == []
    ensures Total(xs, f) == NO_STATS
  {
  }

  lemma EmptyCounts(g: Group)
    requires g.datagrams == [] && g.segments == []
    ensures DiscardedStats(g) == NO_STATS
  {
    TotalNone(g.datagrams, DatagramStats);
    TotalNone(g.segments, EntryStats);
    Zero(NO_STATS);
  }

  lemma AddedCounts(groups: seq<Entry<Group>>, i: nat, e: Entry<Group>)
    requires i <= |groups| && e.value.datagrams == [] && e.value.segments == []
    ensures Total(InsertAt(groups, i, e), GroupDiscarded) == Total(groups, GroupDiscarded)
  {
    TotalInserted(groups, i, e, GroupDiscarded);
    EmptyCounts(e.value);
    Zero(Total(groups, GroupDiscarded));
  }

  lemma PreparedCounts(p: Pending, group: nat)
    ensures Held(PrepareGroup(p, group).0) == Held(p)
  {
    var q := PrepareGroup(p, group).0;
    if q != p {
      HeldAlike(p, q, Search(p.groups, group), Entry(group, EMPTY_GROUP));
    }
  }

  lemma HeldAlike(p: Pending, q: Pending, i: nat, e: Entry<Group>)
    requires i <= |p.groups| && e.value.datagrams == [] && e.value.segments == []
    requires q.groups == InsertAt(p.groups, i, e) && q.retired == p.retired
    ensures Held(q) == Held(p)
  {
    AddedCounts(p.groups, i, e);
  }

  lemma InsertedCounts(solver: Solver, p: Pending, group: nat, sn: nat, oti: Oti, id: SymbolId, data: Bytes,
                       at: Instants)
    requires PendingInv(p) && ValidOti(oti, MAX_VIDEO_PAYLOAD)
    ensures var (q, r) := InsertAdmitted(solver, p, group, sn, oti, id, data, at);
            r.Ok? ==> Held(q).Add(CountsOf(ObjectAt(p, group, sn))) == Held(p).Add(CountsOf(ObjectAt(q, group, sn)))
  {
    var (q, r) := InsertAdmitted(solver, p, group, sn, oti, id, data, at);
    if r.Ok? {
      var (p1, index) := PrepareGroup(p, group);
      var i := index.value;
      PreparedCounts(p, group);
      LookupPrepare(p, group, group);
      LookupOk(p.groups, group);
      var g := p1.groups[i].value;
      var h := InsertSymbol(solver, g, sn, oti, id, data, at).0;
      LookupUpdate(p1.groups, i, h, group);
      GroupCounts(solver, g, sn, oti, id, data, at);
      TotalChanged(p1.groups, i, Entry(group, h), GroupDiscarded);
      Through(p.retired, Total(q.groups, GroupDiscarded), DiscardedStats(g), Total(p1.groups, GroupDiscarded),
              DiscardedStats(h), CountsOf(ObjectIn(g, sn)), CountsOf(ObjectIn(h, sn)));
    }
  }

  lemma Through(t: FecStats, a: FecStats, g: FecStats, b: FecStats, h: FecStats, x: FecStats, y: FecStats)
    requires a.Add(g) == b.Add(h) && h.Add(x) == g.Add(y)
    ensures t.Add(a).Add(x) == t.Add(b).Add(y)
  {
  }

  lemma DatagramCounts(solver: Solver, p: Pending, group: nat, sn: nat, oti: Oti, id: SymbolId, data: Bytes,
                       at: Instants)
    requires PendingInv(p) && InsertDatagram(solver, p, group, sn, oti, id, data, at).1.Ok?
    ensures var q := InsertDatagram(solver, p, group, sn, oti, id, data, at).0;
            Held(q).Add(CountsOf(ObjectAt(p, group, sn))) == Held(p).Add(CountsOf(ObjectAt(q, group, sn)))
  {
    if Retired(p, sn) {
      RetiredIsGone(p, group, sn);
    } else if InOwnGroup(p.groups, group, sn) {
      InsertedCounts(solver, p, group, sn, oti, id, data, at);
    } else {
      AdmitConserves(p, Reservation(oti), at.admitted);
      AdmitInv(p, Reservation(oti), at.admitted);
      AdmitObjects(p, Reservation(oti), at.admitted, group, sn);
      PendingIff(p, group, sn);
      var q := Admit(p, Reservation(oti), at.admitted).0;
      if !Retired(q, sn) {
        InsertedCounts(solver, q, group, sn, oti, id, data, at);
      }
    }
  }

  lemma ConfigCounts(groups: seq<Entry<Group>>, i: nat, c: Config)
    requires i < |groups|
    ensures Total(groups[i := Entry(groups[i].key, groups[i].value.(config := c))], GroupDiscarded) ==
            Total(groups, GroupDiscarded)
  {
    var e := Entry(groups[i].key, groups[i].value.(config := c));
    assert GroupDiscarded(e) == GroupDiscarded(groups[i]);
    TotalAt(groups, i, GroupDiscarded);
    TotalUpdate(groups, i, e, GroupDiscarded);
  }

  lemma StreamCounts(p: Pending, group: nat, sn: nat, packet: Packet, now: nat)
    requires PendingInv(p)
    ensures Held(InsertStream(p, group, sn, packet, now).0) == Held(p)
  {
    if packet.Media? && packet.media.isConfig {
      AdmitConserves(p, |packet.payload|, now);
      var (q, admitted) := Admit(p, |packet.payload|, now);
      PreparedCounts(q, group);
      var (q1, index) := PrepareGroup(q, group);
      if index.Ok? {
        ConfigCounts(q1.groups, index.value, Ready(sn, packet));
      }
    }
  }

  // ----- Runs

  function NumberOf(r: Receiver, x: Step): nat
    requires x.Symbol?
  {
    Unroll(HALF, r.newestPacket, x.rawSn)
  }

  function GroupNumberOf(r: Receiver, x: Step): nat
    requires x.Symbol?
  {
    Unroll(HALF, r.newestGroup, x.rawGroup)
  }

  /** The packet a step brings a symbol of counts this much in the buffer `p`. */
  ghost function CountsFor(r: Receiver, x: Step, p: Pending): FecStats {
    if x.Symbol? && r.next <= NumberOf(r, x) then CountsOf(ObjectAt(p, GroupNumberOf(r, x), NumberOf(r, x)))
    else NO_STATS
  }

  /** What the packet of each symbol counted before it came, and after, over the run. */
  ghost function Before(solver: Solver, run: seq<Step>): FecStats {
    if run == [] then NO_STATS
    else
      var before, x := run[..|run| - 1], run[|run| - 1];
      var r := Exec(solver, START, before);
      Before(solver, before).Add(CountsFor(r, x, r.pending))
  }

  ghost function Afterwards(solver: Solver, run: seq<Step>): FecStats {
    if run == [] then NO_STATS
    else
      var before, x := run[..|run| - 1], run[|run| - 1];
      var r := Exec(solver, START, before);
      Afterwards(solver, before).Add(CountsFor(r, x, Apply(solver, r, x).pending))
  }

  lemma StepAccounts(solver: Solver, r: Receiver, x: Step)
    requires ReceiverInv(r) && !Apply(solver, r, x).status.Failed?
    ensures var r' := Apply(solver, r, x);
            Accounted(r').Add(CountsFor(r, x, r.pending)) == Accounted(r).Add(CountsFor(r, x, r'.pending))
  {
    match x
    case Stream(packet, rawSn, rawGroup, now) =>
      StreamCounts(r.pending, Unroll(HALF, r.newestGroup, rawGroup), Unroll(HALF, r.newestPacket, rawSn), packet, now);
    case Symbol(rawSn, rawGroup, oti, id, data, at) => SymbolAccounts(solver, r, x);
    case Timer =>
    case Take(now) => TakeAccounts(r, now);
  }

  lemma SymbolAccounts(solver: Solver, r: Receiver, x: Step)
    requires ReceiverInv(r) && x.Symbol? && !Apply(solver, r, x).status.Failed?
    ensures var r' := Apply(solver, r, x);
            Accounted(r').Add(CountsFor(r, x, r.pending)) == Accounted(r).Add(CountsFor(r, x, r'.pending))
  {
    var sn, group := NumberOf(r, x), GroupNumberOf(r, x);
    if r.next <= sn {
      DatagramCounts(solver, r.pending, group, sn, x.oti, x.id, x.data, x.at);
      var q := InsertDatagram(solver, r.pending, group, sn, x.oti, x.id, x.data, x.at).0;
      Beside(Shown(r.stats), Held(q), CountsOf(ObjectAt(r.pending, group, sn)),
             Held(r.pending), CountsOf(ObjectAt(q, group, sn)));
    }
  }

  lemma Chain(a: FecStats, b: FecStats, o: FecStats, c: FecStats, a': FecStats, x: FecStats, y: FecStats)
    requires a.Add(b) == o.Add(c) && a'.Add(x) == a.Add(y)
    ensures a'.Add(b.Add(x)) == o.Add(c.Add(y))
  {
  }

  /** In every run of any peer, each of the three counts adds up: what is shown and what is held has
      changed from the start by what the symbols have made of their packets. Nothing is shown twice,
      and nothing is forgotten. */
  lemma {:induction false} EverythingIsAccounted(solver: Solver, run: seq<Step>)
    requires IsRun(solver, START, run) && !Exec(solver, START, run).status.Failed?
    ensures Accounted(Exec(solver, START, run)).Add(Before(solver, run)) ==
            Accounted(START).Add(Afterwards(solver, run))
  {
    if run != [] {
      var before, x := run[..|run| - 1], run[|run| - 1];
      Earlier(solver, run, before, x);
      EverythingIsAccounted(solver, before);
      EveryStateKeepsInv(solver, before);
      var r := Exec(solver, START, before);
      StepAccounts(solver, r, x);
      Chain(Accounted(r), Before(solver, before), Accounted(START), Afterwards(solver, before),
            Accounted(Apply(solver, r, x)), CountsFor(r, x, r.pending), CountsFor(r, x, Apply(solver, r, x).pending));
    }
  }
}
