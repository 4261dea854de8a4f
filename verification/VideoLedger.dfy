/** Conservation of the FEC accounting: every source symbol of every object ever opened is
    reported, held for the next report, or still pending, exactly once. */
module VideoLedger {
  import opened Wrappers
  import opened SortedVec
  import opened AvPacket
  import opened Fec
  import opened Sequencer
  import opened VideoGroup
  import opened VideoPending
  import opened VideoInvariant
  import opened VideoAdmission
  import opened VideoReceiver
  import opened VideoSender
  import opened VideoDelivery
  import opened VideoOrder

  function DatagramSource(e: Entry<Datagram>): nat { e.value.stats.source }

  function SegmentsSource(e: Entry<Segments>): nat { SourceSymbols(e.value.decoder.oti) }

  function GroupSource(e: Entry<Group>): nat {
    Sum(e.value.datagrams, DatagramSource) + Sum(e.value.segments, SegmentsSource)
  }

  function OpeningSource(o: Opening): nat { o.source }

  /** Source symbols not yet reported: those of pending objects and of retired ones. */
  function Unreported(p: Pending): nat {
    p.retired.source + Sum(p.groups, GroupSource)
  }

  function Reported(r: Receiver): nat {
    if r.stats.source.Some? then r.stats.source.value else 0
  }

  ghost predicate LedgerInv(r: Receiver) {
    Reported(r) + Unreported(r.pending) == Sum(r.created, OpeningSource)
  }

  // ----- Totals are sums

  lemma {:induction false} TotalSource<T>(xs: seq<T>, f: T -> FecStats, g: T -> nat)
    requires forall x | x in xs :: f(x).source == g(x)
    ensures Total(xs, f).source == Sum(xs, g)
  {
    if xs != [] {
      TotalSource(xs[1..], f, g);
    }
  }

  lemma DiscardedSource(e: Entry<Group>)
    ensures GroupDiscarded(e).source == GroupSource(e)
  {
    TotalSource(e.value.datagrams, DatagramStats, DatagramSource);
    TotalSource(e.value.segments, EntryStats, SegmentsSource);
  }

  // ----- Admission

  lemma RetireAtLedger(p: Pending, place: Place)
    requires IsFront(p.groups, place)
    ensures Unreported(RetireAt(p, place)) == Unreported(p)
  {
    var e := p.groups[place.index];
    var (g, stats) := PopFront(e.value, place.isDatagram);
    assert GroupSource(e) == GroupSource(e.(value := g)) + stats.source;
    SumUpdate(p.groups, place.index, e.(value := g), GroupSource);
    SumRemove(p.groups, place.index, GroupSource);
  }

  lemma {:induction false} AdmitLedger(p: Pending, additional: nat, now: nat)
    ensures Unreported(Admit(p, additional, now).0) == Unreported(p)
    decreases Sum(p.groups, MediaCount)
  {
    if CheckCapacity(p, additional).Err? && RetireOldest(p, now).Some? {
      OldestIsFront(p.groups);
      RetireAtLedger(p, Oldest(p.groups).value);
      RetireShrinks(p, now);
      AdmitLedger(RetireOldest(p, now).value, additional, now);
    }
  }

  lemma PrepareLedger(p: Pending, group: nat)
    ensures Unreported(PrepareGroup(p, group).0) == Unreported(p)
  {
    var i := Search(p.groups, group);
    SumInsert(p.groups, i, Entry(group, EMPTY_GROUP), GroupSource);
  }

  // ----- One symbol

  lemma FeedLedger(solver: Solver, group: nat, g: Group, sn: nat, oti: Oti, id: SymbolId, data: Bytes, now: nat)
    requires GroupOk(g) && Has(g.segments, sn) && !Has(g.datagrams, sn)
    ensures var (h, r) := FeedSegments(solver, g, sn, oti, id, data, now);
            r.Ok? ==> GroupSource(Entry(group, h)) == GroupSource(Entry(group, g))
  {
    var i := Search(g.segments, sn);
    var s := g.segments[i].value;
    var (decoder, r) := Decode(solver, s.decoder, oti, id, data);
    if r.Ok? {
      var fed := s.(decoder := decoder, assembled := r.value);
      if r.value.None? {
        SumUpdate(g.segments, i, Entry(sn, fed), SegmentsSource);
      } else {
        SumRemove(g.segments, i, SegmentsSource);
        var d := Assemble(fed, now);
        if d.Ok? {
          SumInsert(g.datagrams, Search(g.datagrams, sn), Entry(sn, d.value), DatagramSource);
        }
      }
    }
  }

  lemma InsertSymbolLedger(solver: Solver, group: nat, g: Group, sn: nat, oti: Oti, id: SymbolId, data: Bytes,
                           at: Instants)
    requires GroupOk(g) && ValidOti(oti, MAX_VIDEO_PAYLOAD)
    ensures var (h, r) := InsertSymbol(solver, g, sn, oti, id, data, at);
            r.Ok? ==>
              GroupSource(Entry(group, h)) ==
              GroupSource(Entry(group, g)) + if Contains(g, sn) then 0 else SourceSymbols(oti)
  {
    if !Has(g.datagrams, sn) {
      PrepareSegmentsOk(g, sn, oti, at.created);
      var prepared := PrepareSegments(g, sn, oti, at.created).value;
      if !Has(g.segments, sn) {
        SumInsert(g.segments, Search(g.segments, sn), Entry(sn, Segments(NewDecoder(oti), None, at.created)),
                  SegmentsSource);
      }
      FeedLedger(solver, group, prepared, sn, oti, id, data, at.assembled);
    }
  }

  lemma PendsSomewhere(p: Pending, group: nat, sn: nat)
    ensures IsPending(p, sn) <==> InOtherGroup(p.groups, group, sn) || InOwnGroup(p.groups, group, sn)
  {}

  lemma InsertAdmittedLedger(solver: Solver, p: Pending, group: nat, sn: nat, oti: Oti, id: SymbolId, data: Bytes,
                             at: Instants)
    requires PendingInv(p) && ValidOti(oti, MAX_VIDEO_PAYLOAD) && !InOtherGroup(p.groups, group, sn)
    ensures var (q, r) := InsertAdmitted(solver, p, group, sn, oti, id, data, at);
            r.Ok? ==>
              && IsPending(q, sn)
              && Unreported(q) == Unreported(p) + if InOwnGroup(p.groups, group, sn) then 0 else SourceSymbols(oti)
  {
    PrepareLedger(p, group);
    PrepareGroupInv(p, group);
    OnlyOwnGroup(p, group, sn);
    var (q, index) := PrepareGroup(p, group);
    if index.Ok? {
      var g := q.groups[index.value].value;
      InsertSymbolLedger(solver, group, g, sn, oti, id, data, at);
      InsertSymbolOk(solver, g, sn, oti, id, data, at);
      var (h, r) := InsertSymbol(solver, g, sn, oti, id, data, at);
      SumUpdate(q.groups, index.value, Entry(group, h), GroupSource);
      if r.Ok? {
        ContainsIsMedia(h, sn);
        var q' := q.groups[index.value := Entry(group, h)];
        assert Contains(q'[index.value].value, sn);
      }
    }
  }

  lemma InsertDatagramLedger(solver: Solver, p: Pending, group: nat, sn: nat, oti: Oti, id: SymbolId, data: Bytes,
                             at: Instants)
    requires PendingInv(p)
    ensures var (q, r) := InsertDatagram(solver, p, group, sn, oti, id, data, at);
            r.Ok? ==>
              Unreported(q) == Unreported(p) + if !IsPending(p, sn) && IsPending(q, sn) then SourceSymbols(oti) else 0
  {
    if ValidOti(oti, MAX_VIDEO_PAYLOAD) && !Retired(p, sn) && !InOtherGroup(p.groups, group, sn) {
      PendsSomewhere(p, group, sn);
      if InOwnGroup(p.groups, group, sn) {
        InsertAdmittedLedger(solver, p, group, sn, oti, id, data, at);
      } else {
        AdmitInv(p, Reservation(oti), at.admitted);
        AdmitLedger(p, Reservation(oti), at.admitted);
        AdmitOnlyRemoves(p, Reservation(oti), at.admitted, group, sn);
        var (q, admitted) := Admit(p, Reservation(oti), at.admitted);
        PendsSomewhere(q, group, sn);
        if admitted.Ok? && !Retired(q, sn) {
          InsertAdmittedLedger(solver, q, group, sn, oti, id, data, at);
        }
      }
    }
  }

  lemma InsertStreamLedger(p: Pending, group: nat, sn: nat, packet: Packet, now: nat)
    ensures Unreported(InsertStream(p, group, sn, packet, now).0) == Unreported(p)
  {
    if packet.Media? && packet.media.isConfig {
      AdmitLedger(p, |packet.payload|, now);
      var (q, admitted) := Admit(p, |packet.payload|, now);
      if admitted.Ok? {
        PrepareLedger(q, group);
        var (q1, index) := PrepareGroup(q, group);
        if index.Ok? {
          var g := q1.groups[index.value].value;
          SumUpdate(q1.groups, index.value, Entry(group, g.(config := Ready(sn, packet))), GroupSource);
        }
      }
    }
  }

  // ----- Taking a packet

  lemma KeptSource(groups: seq<Entry<Group>>, i: nat, h: Group)
    requires i < |groups|
    ensures Total(groups[..i], GroupDiscarded).source + GroupSource(groups[i]) + Sum(Kept(groups, i, h), GroupSource)
            == Sum(groups, GroupSource) + GroupSource(Entry(groups[i].key, h))
  {
    DiscardedSources(groups[..i]);
    SumSuffix(groups, i, Entry(groups[i].key, h), GroupSource);
  }

  lemma DiscardedSources(groups: seq<Entry<Group>>)
    ensures Total(groups, GroupDiscarded).source == Sum(groups, GroupSource)
  {
    forall e | e in groups ensures GroupDiscarded(e).source == GroupSource(e) { DiscardedSource(e); }
    TotalSource(groups, GroupDiscarded, GroupSource);
  }

  lemma TakeDatagramLedger(p: Pending, i: nat)
    requires i < |p.groups| && p.groups[i].value.datagrams != []
    ensures var (q, a) := TakeDatagram(p, i); Unreported(q) + a.stats.source == Unreported(p)
  {
    var e := p.groups[i];
    var d := e.value.datagrams[0];
    var popped := e.value.(datagrams := e.value.datagrams[1..]);
    var (h, expired) := DropExpired(popped, d.key);
    var n := Search(e.value.segments, d.key);
    SumSplit(e.value.segments, n, SegmentsSource);
    TotalSource(e.value.segments[..n], EntryStats, SegmentsSource);
    assert GroupSource(e) == GroupSource(Entry(e.key, h)) + expired.source + d.value.stats.source;
    KeptSource(p.groups, i, h);
  }

  lemma TakeConfigLedger(p: Pending, i: nat)
    requires i < |p.groups| && p.groups[i].value.config.Ready?
    ensures var (q, a) := TakeConfig(p, i); Unreported(q) + a.stats.source == Unreported(p)
  {
    KeptSource(p.groups, i, p.groups[i].value.(config := Sent));
  }

  lemma TakeLedger(p: Pending, next: nat, now: nat)
    ensures var (q, a) := TakeNext(p, next, now);
            Unreported(q) + (if a.Forward? then a.stats.source else 0) == Unreported(p)
  {
    var n := NextPacket(p, next, now);
    if !n.ReadyAt? {
      assert TakeNext(p, next, now).0 == p;
    } else if n.isConfig {
      TakeConfigLedger(p, n.index);
      assert TakeNext(p, next, now) == TakeConfig(p, n.index);
    } else {
      TakeDatagramLedger(p, n.index);
      assert TakeNext(p, next, now) == TakeDatagram(p, n.index);
    }
  }

  // ----- Whole runs

  lemma SymbolLedger(solver: Solver, r: Receiver, rawSn: u32, rawGroup: u32, oti: Oti, id: SymbolId, data: Bytes,
                     at: Instants)
    requires ReceiverInv(r) && LedgerInv(r)
    ensures var r' := OnSymbol(solver, r, rawSn, rawGroup, oti, id, data, at);
            r'.status.Failed? || LedgerInv(r')
  {
    var sn := Unroll(HALF, r.newestPacket, rawSn);
    var group := Unroll(HALF, r.newestGroup, rawGroup);
    InsertDatagramLedger(solver, r.pending, group, sn, oti, id, data, at);
    var r' := OnSymbol(solver, r, rawSn, rawGroup, oti, id, data, at);
    SumConcat(r.created, r'.created[|r.created|..], OpeningSource);
    SumOne(Opening(sn, SourceSymbols(oti)), OpeningSource);
    assert r'.created == r.created + r'.created[|r.created|..];
  }

  lemma TakeStepLedger(r: Receiver, now: nat)
    requires LedgerInv(r)
    ensures LedgerInv(OnTake(r, now))
  {
    TakeLedger(r.pending, r.next, now);
  }

  lemma StreamLedger(r: Receiver, packet: Packet, rawSn: u32, rawGroup: u32, now: nat)
    requires LedgerInv(r)
    ensures LedgerInv(OnStream(r, packet, rawSn, rawGroup, now))
  {
    var sn := Unroll(HALF, r.newestPacket, rawSn);
    var group := Unroll(HALF, r.newestGroup, rawGroup);
    InsertStreamLedger(r.pending, group, sn, packet, now);
  }

  /** Over every run without an error, whatever the peer sends: the source symbols reported, held
      for retired objects and held by pending ones add up to those of all objects opened. */
  lemma {:induction false} LedgerConservation(solver: Solver, run: seq<Step>)
    requires IsRun(solver, START, run)
    ensures var r := Exec(solver, START, run); r.status.Failed? || LedgerInv(r)
  {
    if run != [] {
      var before, last := run[..|run| - 1], run[|run| - 1];
      LedgerConservation(solver, before);
      EveryStateKeepsInv(solver, before);
      var r := Exec(solver, START, before);
      match last
      case Stream(packet, rawSn, rawGroup, now) => StreamLedger(r, packet, rawSn, rawGroup, now);
      case Symbol(rawSn, rawGroup, oti, id, data, at) => SymbolLedger(solver, r, rawSn, rawGroup, oti, id, data, at);
      case Timer =>
      case Take(now) => TakeStepLedger(r, now);
    }
  }

  /** Skipping a report without source symbols loses nothing: its other counts are zero too. */
  lemma NothingLost(s: ProtocolStats, fec: FecStats)
    requires fec.Consistent()
    ensures var s' := Report(s, fec);
            && (if s'.source.Some? then s'.source.value else 0)
               == (if s.source.Some? then s.source.value else 0) + fec.source
            && (if s'.missing.Some? then s'.missing.value else 0)
               == (if s.missing.Some? then s.missing.value else 0) + fec.missing
            && (if s'.unrecovered.Some? then s'.unrecovered.value else 0)
               == (if s.unrecovered.Some? then s.unrecovered.value else 0) + fec.unrecovered
  {}

  // ----- A legal sender's packets open at most one object each

  ghost predicate Pends(groups: seq<Entry<Group>>, sn: nat) {
    exists i :: 0 <= i < |groups| && sn in MediaKeys(groups[i].value)
  }

  /** Objects opened so far: for distinct packets, each of them past, retired or pending. */
  ghost predicate OpenedInv(s: Sender, r: Receiver) {
    && (forall i, j | 0 <= i < j < |r.created| :: r.created[i].sn != r.created[j].sn)
    && (forall o | o in r.created ::
          && o.sn < |s.sent| && s.sent[o.sn].SentMedia? && o.source == SourceSymbols(s.sent[o.sn].oti)
          && (o.sn < r.next || Retired(r.pending, o.sn) || Pends(r.pending.groups, o.sn)))
  }

  lemma {:induction false} RetireThroughPends(groups: seq<Entry<Group>>, t: nat, sn: nat)
    requires Pends(groups, sn) && t < sn
    ensures Pends(RetireThrough(groups, t), sn)
  {
    var i :| 0 <= i < |groups| && sn in MediaKeys(groups[i].value);
    var all := RetireThrough(groups, t);
    if i == 0 {
      AboveHolds(groups[0].value, t, sn);
      assert sn in MediaKeys(all[0].value);
    } else {
      assert groups[1..][i - 1] == groups[i];
      RetireThroughPends(groups[1..], t, sn);
      var tail := RetireThrough(groups[1..], t);
      var j :| 0 <= j < |tail| && sn in MediaKeys(tail[j].value);
      assert all == tail || all[j + 1] == tail[j];
    }
  }

  lemma AboveHolds(g: Group, t: nat, sn: nat)
    requires sn in MediaKeys(g) && t < sn
    ensures sn in MediaKeys(GroupAbove(g, t)) && Holds(GroupAbove(g, t))
  {
    KeepAboveKeys(g.datagrams, t);
    KeepAboveKeys(g.segments, t);
  }

  lemma AdmitPends(p: Pending, additional: nat, now: nat, sn: nat)
    requires PendingInv(p) && Pends(p.groups, sn)
    ensures var q := Admit(p, additional, now).0; Retired(q, sn) || Pends(q.groups, sn)
  {
    AdmitRetires(p, additional, now);
    var q := Admit(p, additional, now).0;
    if q != p && !Retired(q, sn) {
      RetireThroughPends(p.groups, q.retiredThrough.value, sn);
    }
  }

  lemma PreparePends(p: Pending, group: nat, sn: nat)
    requires Pends(p.groups, sn)
    ensures Pends(PrepareGroup(p, group).0.groups, sn)
  {
    var j :| 0 <= j < |p.groups| && sn in MediaKeys(p.groups[j].value);
    var i := Search(p.groups, group);
    var m := if j < i then j else j + 1;
    InsertedAt(p.groups, i, Entry(group, EMPTY_GROUP), m);
    var q := PrepareGroup(p, group).0;
    assert q == p || q.groups[m] == p.groups[j];
  }

  lemma UpdatePends(groups: seq<Entry<Group>>, i: nat, g: Group, sn: nat)
    requires Pends(groups, sn) && i < |groups| && MediaKeys(groups[i].value) <= MediaKeys(g)
    ensures Pends(groups[i := Entry(groups[i].key, g)], sn)
  {
    var j :| 0 <= j < |groups| && sn in MediaKeys(groups[j].value);
    assert sn in MediaKeys(groups[i := Entry(groups[i].key, g)][j].value);
  }

  lemma InsertAdmittedPends(solver: Solver, p: Pending, group: nat, sn: nat, oti: Oti, id: SymbolId, data: Bytes,
                            at: Instants, k: nat)
    requires PendingInv(p) && ValidOti(oti, MAX_VIDEO_PAYLOAD) && Pends(p.groups, k)
    ensures var (q, r) := InsertAdmitted(solver, p, group, sn, oti, id, data, at); r.Ok? ==> Pends(q.groups, k)
  {
    PreparePends(p, group, k);
    PrepareGroupInv(p, group);
    var (q, index) := PrepareGroup(p, group);
    if index.Ok? {
      var g := q.groups[index.value].value;
      InsertSymbolOk(solver, g, sn, oti, id, data, at);
      var (h, r) := InsertSymbol(solver, g, sn, oti, id, data, at);
      if r.Ok? { UpdatePends(q.groups, index.value, h, k); }
    }
  }

  lemma InsertDatagramPends(solver: Solver, p: Pending, group: nat, sn: nat, oti: Oti, id: SymbolId, data: Bytes,
                            at: Instants, k: nat)
    requires PendingInv(p) && Pends(p.groups, k)
    ensures var (q, r) := InsertDatagram(solver, p, group, sn, oti, id, data, at);
            r.Ok? ==> Retired(q, k) || Pends(q.groups, k)
  {
    if ValidOti(oti, MAX_VIDEO_PAYLOAD) && !Retired(p, sn) && !InOtherGroup(p.groups, group, sn) {
      if InOwnGroup(p.groups, group, sn) {
        InsertAdmittedPends(solver, p, group, sn, oti, id, data, at, k);
      } else {
        AdmitInv(p, Reservation(oti), at.admitted);
        AdmitPends(p, Reservation(oti), at.admitted, k);
        var (q, admitted) := Admit(p, Reservation(oti), at.admitted);
        if admitted.Ok? && !Retired(q, sn) {
          InsertAdmittedFrontier(solver, q, group, sn, oti, id, data, at);
          if Pends(q.groups, k) { InsertAdmittedPends(solver, q, group, sn, oti, id, data, at, k); }
        }
      }
    }
  }

  lemma InsertStreamPends(p: Pending, group: nat, sn: nat, packet: Packet, now: nat, k: nat)
    requires PendingInv(p) && Pends(p.groups, k)
    ensures var (q, r) := InsertStream(p, group, sn, packet, now); r.Ok? ==> Retired(q, k) || Pends(q.groups, k)
  {
    if packet.Media? && packet.media.isConfig {
      AdmitPends(p, |packet.payload|, now, k);
      var (q, admitted) := Admit(p, |packet.payload|, now);
      if admitted.Ok? && !Retired(q, k) {
        ConfigPends(q, group, Ready(sn, packet), k);
      }
    }
  }

  lemma ConfigPends(p: Pending, group: nat, c: Config, k: nat)
    requires Pends(p.groups, k)
    ensures var (q, index) := PrepareGroup(p, group);
            index.Ok? ==>
              var e := q.groups[index.value];
              Pends(q.groups[index.value := Entry(e.key, e.value.(config := c))], k)
  {
    PreparePends(p, group, k);
    var (q, index) := PrepareGroup(p, group);
    if index.Ok? {
      UpdatePends(q.groups, index.value, q.groups[index.value].value.(config := c), k);
    }
  }

  /** Media given up or forwarded with a packet is numbered no higher than it. */
  lemma TakePends(s: Sender, next: nat, p: Pending, now: nat, k: nat)
    requires PendingInv(p) && LegalGroups(s, next, p.groups) && HeadSent(s, next, p.groups) && Pends(p.groups, k)
    ensures var (q, a) := TakeNext(p, next, now); a.Forward? ==> k <= a.sn || Pends(q.groups, k)
  {
    var n := NextPacket(p, next, now);
    if n.ReadyAt? {
      TakeLegal(s, next, p, now);
      var (q, a) := TakeNext(p, next, now);
      var j :| 0 <= j < |p.groups| && k in MediaKeys(p.groups[j].value);
      assert LegalGroup(s, next, p.groups[j]);
      MediaLegal(s, next, p.groups[j], k);
      if j < n.index {
        LaterGroup(s.sent, k, a.sn);
      } else if j > n.index {
        assert q.groups[j - n.index] == p.groups[j];
      } else if n.isConfig {
        assert k in MediaKeys(q.groups[0].value);
      } else {
        PoppedPends(p.groups[j].value, k);
        assert k <= a.sn || k in MediaKeys(q.groups[0].value);
      }
    }
  }

  lemma MediaLegal(s: Sender, next: nat, e: Entry<Group>, k: nat)
    requires LegalGroup(s, next, e) && k in MediaKeys(e.value)
    ensures k < |s.sent| && GroupOf(s.sent, k) == e.key
  {
    if k in Keys(e.value.datagrams) {
      var d :| d in e.value.datagrams && d.key == k;
    } else {
      var d :| d in e.value.segments && d.key == k;
    }
  }

  lemma PoppedPends(g: Group, k: nat)
    requires GroupOk(g) && g.datagrams != [] && k in MediaKeys(g)
    ensures var sn := g.datagrams[0].key;
            var h := DropExpired(g.(datagrams := g.datagrams[1..]), sn).0;
            k <= sn || k in MediaKeys(h)
  {
    var popped := g.(datagrams := g.datagrams[1..]);
    FrontKey(g.datagrams);
    PopFrontOk(g, true);
    assert popped == PopFront(g, true).0;
    DropExpiredOk(popped, g.datagrams[0].key);
  }

  lemma StillOpened(s: Sender, r: Receiver, r': Receiver)
    requires OpenedInv(s, r) && r'.created == r.created
    requires r.next <= r'.next && FrontierLeq(r.pending.retiredThrough, r'.pending.retiredThrough)
    requires forall k: nat | Pends(r.pending.groups, k) ::
               k < r'.next || Retired(r'.pending, k) || Pends(r'.pending.groups, k)
    ensures OpenedInv(s, r')
  {}

  lemma SymbolOpened(solver: Solver, s: Sender, r: Receiver, k: nat, id: SymbolId, at: Instants)
    requires ReceiverInv(r) && OpenedInv(s, r) && k < |s.sent| && s.sent[k].SentMedia? && Recent(s, r, k)
    ensures var r' :=
              OnSymbol(solver, r, k % RANGE, GroupOf(s.sent, k) % RANGE, s.sent[k].oti, id, s.symbol(k, id), at);
            r'.status.Failed? || OpenedInv(s, r')
  {
    UnrolledTruly(s, r, k);
    if r.next <= k {
      var group, oti, data := GroupOf(s.sent, k), s.sent[k].oti, s.symbol(k, id);
      var (q, result) := InsertDatagram(solver, r.pending, group, k, oti, id, data, at);
      if result.Ok? {
        InsertedOpened(solver, s, r, k, id, at);
      }
    }
  }

  /** Every object opened before is still accounted for, and a newly opened one is new. */
  lemma InsertedOpened(solver: Solver, s: Sender, r: Receiver, k: nat, id: SymbolId, at: Instants)
    requires ReceiverInv(r) && OpenedInv(s, r) && r.next <= k < |s.sent| && s.sent[k].SentMedia?
    requires InsertDatagram(solver, r.pending, GroupOf(s.sent, k), k, s.sent[k].oti, id, s.symbol(k, id), at).1.Ok?
    ensures var q := InsertDatagram(solver, r.pending, GroupOf(s.sent, k), k, s.sent[k].oti, id, s.symbol(k, id), at).0;
            && OpenedInv(s, r.(pending := q))
            && (!IsPending(r.pending, k) && IsPending(q, k) ==>
                  OpenedInv(s, r.(pending := q, created := r.created + [Opening(k, SourceSymbols(s.sent[k].oti))])))
  {
    var group, oti, data := GroupOf(s.sent, k), s.sent[k].oti, s.symbol(k, id);
    var q := InsertDatagram(solver, r.pending, group, k, oti, id, data, at).0;
    InsertDatagramFrontier(solver, r.pending, group, k, oti, id, data, at);
    InsertDatagramInv(solver, r.pending, group, k, oti, id, data, at);
    forall m: nat | Pends(r.pending.groups, m) ensures Retired(q, m) || Pends(q.groups, m) {
      InsertDatagramPends(solver, r.pending, group, k, oti, id, data, at, m);
    }
    OpenedAfter(s, r, q, k);
  }

  lemma OpenedAfter(s: Sender, r: Receiver, q: Pending, k: nat)
    requires OpenedInv(s, r) && PendingInv(r.pending) && PendingInv(q)
    requires r.next <= k < |s.sent| && s.sent[k].SentMedia?
    requires FrontierLeq(r.pending.retiredThrough, q.retiredThrough)
    requires forall m: nat | Pends(r.pending.groups, m) :: Retired(q, m) || Pends(q.groups, m)
    ensures OpenedInv(s, r.(pending := q))
    ensures !IsPending(r.pending, k) && IsPending(q, k) ==>
              OpenedInv(s, r.(pending := q, created := r.created + [Opening(k, SourceSymbols(s.sent[k].oti))]))
  {
    StillOpened(s, r, r.(pending := q));
    PendsIffPending(r.pending, k);
    PendsIffPending(q, k);
    if !IsPending(r.pending, k) && IsPending(q, k) {
      NotRetiredIfPending(q, k);
      OpenedMore(s, r, q, k);
    }
  }

  lemma OpenedMore(s: Sender, r: Receiver, q: Pending, k: nat)
    requires OpenedInv(s, r) && OpenedInv(s, r.(pending := q)) && r.next <= k < |s.sent| && s.sent[k].SentMedia?
    requires !Retired(r.pending, k) && !Pends(r.pending.groups, k) && Pends(q.groups, k)
    ensures OpenedInv(s, r.(pending := q, created := r.created + [Opening(k, SourceSymbols(s.sent[k].oti))]))
  {
    forall o | o in r.created ensures o.sn != k {
      assert o.sn < r.next || Retired(r.pending, o.sn) || Pends(r.pending.groups, o.sn);
    }
  }

  lemma PendsIffPending(p: Pending, sn: nat)
    requires Shape(p.groups)
    ensures Pends(p.groups, sn) <==> IsPending(p, sn)
  {
    forall i | 0 <= i < |p.groups| ensures Contains(p.groups[i].value, sn) <==> sn in MediaKeys(p.groups[i].value) {
      ContainsIsMedia(p.groups[i].value, sn);
    }
  }

  lemma NotRetiredIfPending(p: Pending, sn: nat)
    requires PendingInv(p) && Pends(p.groups, sn)
    ensures !Retired(p, sn)
  {}

  lemma ConfigOpened(s: Sender, r: Receiver, k: nat, now: nat)
    requires ReceiverInv(r) && OpenedInv(s, r) && k < |s.sent| && s.sent[k].SentConfig? && Recent(s, r, k)
    ensures var r' := OnStream(r, s.sent[k].packet, k % RANGE, GroupOf(s.sent, k) % RANGE, now);
            r'.status.Failed? || OpenedInv(s, r')
  {
    UnrolledTruly(s, r, k);
    if r.next <= k {
      var group, packet := GroupOf(s.sent, k), s.sent[k].packet;
      var (q, result) := InsertStream(r.pending, group, k, packet, now);
      if result.Ok? {
        InsertStreamFrontier(r.pending, group, k, packet, now);
        forall m | Pends(r.pending.groups, m) ensures Retired(q, m) || Pends(q.groups, m) {
          InsertStreamPends(r.pending, group, k, packet, now, m);
        }
        StillOpened(s, r, r.(pending := q));
      }
    }
  }

  lemma DeliverOpened(s: Sender, r: Receiver, q: Pending, a: Action)
    requires OpenedInv(s, r) && a.Forward? && r.next <= a.sn && q.retiredThrough == r.pending.retiredThrough
    requires forall m: nat | Pends(r.pending.groups, m) :: m <= a.sn || Pends(q.groups, m)
    ensures OpenedInv(s, Deliver(r, q, a))
  {
    StillOpened(s, r, Deliver(r, q, a));
  }

  lemma TakeOpened(s: Sender, r: Receiver, now: nat)
    requires LegalInv(s, r) && OpenedInv(s, r)
    ensures OpenedInv(s, OnTake(r, now))
  {
    var (q, a) := TakeNext(r.pending, r.next, now);
    if a.Forward? {
      TakeLegal(s, r.next, r.pending, now);
      forall m: nat | Pends(r.pending.groups, m) ensures m <= a.sn || Pends(q.groups, m) {
        TakePends(s, r.next, r.pending, now, m);
      }
      DeliverOpened(s, r, q, a);
      assert OnTake(r, now) == Deliver(r, q, a);
    } else {
      StillOpened(s, r, OnTake(r, now));
    }
  }

  /** With a legal sender, every packet number opens at most one object, and that object has the
      source symbols of the packet. */
  lemma {:induction false} OpenedOnce(solver: Solver, s: Sender, run: seq<Delivery>)
    requires WellFormed(s) && Sound(solver, s) && LegalRun(solver, s, run)
    ensures var r := Reach(solver, s, run); r.status.Failed? || OpenedInv(s, r)
  {
    if run != [] {
      var before, last := run[..|run| - 1], run[|run| - 1];
      OpenedOnce(solver, s, before);
      LegalRunInv(solver, s, before);
      var r := Reach(solver, s, before);
      match last
      case CodecRecord(h, _) => StillOpened(s, r, Apply(solver, r, Wire(s, last)));
      case ConfigRecord(k, now) => ConfigOpened(s, r, k, now);
      case MediaSymbol(k, id, at) => SymbolOpened(solver, s, r, k, id, at);
      case Alarm => StillOpened(s, r, Apply(solver, r, Wire(s, last)));
      case Drain(now) => TakeOpened(s, r, now);
    }
  }

  lemma LegalLedgerInv(solver: Solver, s: Sender, run: seq<Delivery>)
    requires WellFormed(s) && LegalRun(solver, s, run)
    ensures var r := Reach(solver, s, run); r.status.Failed? || LedgerInv(r)
  {
    LegalIsRun(solver, s, run);
    var steps := Wires(s, run);
    LedgerConservation(solver, steps);
  }

  /** So for a legal sender what was reported, is held for retired objects and is pending adds up
      to the source symbols of the distinct packets whose objects were opened. */
  lemma LegalLedger(solver: Solver, s: Sender, run: seq<Delivery>)
    requires WellFormed(s) && Sound(solver, s) && LegalRun(solver, s, run)
    requires !Reach(solver, s, run).status.Failed?
    ensures LedgerInv(Reach(solver, s, run)) && OpenedInv(s, Reach(solver, s, run))
  {
    LegalLedgerInv(solver, s, run);
    OpenedOnce(solver, s, run);
  }
}
