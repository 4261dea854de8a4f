/** Reorder-buffer exactness: as long as no deadline expires and nothing is retired or rejected,
    delivered packets reach the client complete and in order, whatever the order of arrival. */
module VideoExact {
  import opened Wrappers
  import opened SortedVec
  import opened AvPacket
  import opened Fec
  import opened VideoGroup
  import opened VideoPending
  import opened VideoInvariant
  import opened VideoAdmission
  import opened VideoReceiver
  import opened VideoSender
  import opened VideoDelivery
  import opened VideoOrder

  // ----- What has been delivered, read off the run alone

  /** The symbol ids delivered for packet `k`. */
  function Ids(run: seq<Delivery>, k: nat): set<SymbolId> {
    if run == [] then {}
    else
      var last := run[|run| - 1];
      Ids(run[..|run| - 1], k) + if last.MediaSymbol? && last.k == k then {last.id} else {}
  }

  function Symbols(s: Sender, ids: set<SymbolId>, k: nat): map<SymbolId, Bytes> {
    map id | id in ids :: s.symbol(k, id)
  }

  /** At some delivery of one of its symbols, the symbols of `k` delivered so far sufficed. */
  predicate Completed(solver: Solver, s: Sender, run: seq<Delivery>, k: nat)
    requires k < |s.sent| && s.sent[k].SentMedia?
  {
    && run != []
    && (|| Completed(solver, s, run[..|run| - 1], k)
        || (run[|run| - 1].MediaSymbol? && run[|run| - 1].k == k
            && solver(s.sent[k].oti, Symbols(s, Ids(run, k), k)).Some?))
  }

  predicate ConfigArrived(run: seq<Delivery>, k: nat) {
    exists i :: 0 <= i < |run| && run[i].ConfigRecord? && run[i].k == k
  }

  predicate Delivered(solver: Solver, s: Sender, run: seq<Delivery>, k: nat)
    requires k < |s.sent|
  {
    if s.sent[k].SentConfig? then ConfigArrived(run, k) else Completed(solver, s, run, k)
  }

  /** No completed packet has waited out the reorder window. */
  predicate Unexpired(p: Pending, now: nat) {
    MinInstant(p).Some? ==> now < MinInstant(p).value + MAX_BUFFERING
  }

  /** No deadline expires: the window matters only while the next packet is not ready, and only once
      a group that has its config waits. */
  ghost predicate OnTime(p: Pending, next: nat, now: nat) {
    (Quiet(p, next) && HasWindow(p)) ==> Unexpired(p, now)
  }

  ghost predicate Patient(solver: Solver, s: Sender, run: seq<Delivery>)
    requires forall d | d in run :: OfSender(s, d)
  {
    run == [] ||
    var before, last := run[..|run| - 1], run[|run| - 1];
    var r := Reach(solver, s, before);
    Patient(solver, s, before) && (last.Drain? ==> OnTime(r.pending, r.next, last.now))
  }

  // ----- While no deadline expires, only the next packet is taken, and only then

  lemma OnTimeTakesNext(s: Sender, next: nat, p: Pending, now: nat)
    requires PendingInv(p) && LegalGroups(s, next, p.groups) && HeadSent(s, next, p.groups) && OnTime(p, next, now)
    ensures var a := TakeNext(p, next, now).1; a.Forward? ==> a.sn == next
  {
    var n := NextPacket(p, next, now);
    if !Quiet(p, next) {
      var i :| 0 <= i < |p.groups| && OffersNext(p.groups[i], next);
      NextIsTaken(s, next, p, i, now);
      OfferedNumber(s, next, p.groups[i]);
    } else if n.ReadyAt? {
      QuietOffersLate(p, n.index, next, now);
      assert false;
    }
  }

  lemma QuietOffersLate(p: Pending, i: nat, next: nat, now: nat)
    requires Quiet(p, next) && i < |p.groups| && GroupOffer(p, i, next, now).ReadyAt?
    ensures HasWindow(p) && !Unexpired(p, now)
  {
    assert !OffersNext(p.groups[i], next) && GroupWaits(p.groups[i].value);
  }

  /** A config that goes out because media behind it is the next packet is itself the next packet. */
  lemma OfferedNumber(s: Sender, next: nat, e: Entry<Group>)
    requires LegalGroup(s, next, e) && OffersNext(e, next)
    ensures e.value.config.Ready? ==> e.value.config.sn == next
  {
    var g := e.value;
    if g.config.Ready? && g.config.sn != next {
      assert g.datagrams[0] in g.datagrams && LegalDatagram(s, e.key, next, g.datagrams[0]);
      ConfigFirst(s.sent, g.config.sn, next);
    }
  }

  lemma ExpiredTakesOther(p: Pending, next: nat, now: nat)
    requires !OnTime(p, next, now)
    ensures var a := TakeNext(p, next, now).1; a.Forward? && a.sn != next
  {
    var n := NextPacket(p, next, now);
    var i :| 0 <= i < |p.groups| && GroupWaits(p.groups[i].value);
    assert !GroupOffer(p, i, next, now).Nothing?;
    if n.Deadline? {
      OfferAtDeadline(p, 0, next, now, now);
      DeadlineIsMin(p, 0, next, now);
    } else {
      assert !OffersNext(p.groups[n.index], next);
    }
  }

  // ----- The groups as a lookup by number

  function Lookup(groups: seq<Entry<Group>>, group: nat): Group {
    match At(groups, group)
    case Some(g) => g
    case None => EMPTY_GROUP
  }

  lemma LookupPrepare(p: Pending, group: nat, x: nat)
    requires Sorted(p.groups)
    ensures var (q, r) := PrepareGroup(p, group);
            && Sorted(q.groups)
            && Lookup(q.groups, x) == Lookup(p.groups, x)
            && (r.Ok? ==> q.groups[r.value].value == Lookup(p.groups, group))
  {
    if !Has(p.groups, group) {
      InsertSorted(p.groups, Entry(group, EMPTY_GROUP));
      AtInsert(p.groups, Entry(group, EMPTY_GROUP), x);
    }
  }

  lemma LookupUpdate(groups: seq<Entry<Group>>, i: nat, g: Group, x: nat)
    requires Sorted(groups) && i < |groups|
    ensures Lookup(groups[i := Entry(groups[i].key, g)], x) == if x == groups[i].key then g else Lookup(groups, x)
  {
    AtUpdate(groups, i, g, x);
  }

  lemma LookupKept(groups: seq<Entry<Group>>, i: nat, h: Group, x: nat)
    requires Sorted(groups) && i < |groups| && groups[i].key <= x
    ensures Lookup(Kept(groups, i, h), x) == if x == groups[i].key then h else Lookup(groups, x)
  {
    var suffix := groups[i..];
    AtSuffix(groups, i, x);
    assert Sorted(suffix) by {
      assert forall j | 0 <= j < |suffix| :: suffix[j] == groups[i + j];
    }
    assert suffix[0 := Entry(suffix[0].key, h)] == Kept(groups, i, h);
    AtUpdate(suffix, 0, h, x);
  }

  lemma LookupIndex(groups: seq<Entry<Group>>, i: nat)
    requires Sorted(groups) && i < |groups|
    ensures Lookup(groups, groups[i].key) == groups[i].value
  {
    AtMember(groups, groups[i].key, groups[i].value);
    assert groups[i] in groups;
  }

  lemma LookupFound(groups: seq<Entry<Group>>, x: nat)
    requires Lookup(groups, x) != EMPTY_GROUP
    ensures exists i :: 0 <= i < |groups| && groups[i].key == x && groups[i].value == Lookup(groups, x)
  {
    var i := Search(groups, x);
    assert groups[i].key == x;
  }

  // ----- One symbol, seen key by key

  lemma FeedAt(solver: Solver, g: Group, sn: nat, oti: Oti, id: SymbolId, data: Bytes, now: nat, k: nat)
    requires GroupOk(g) && Has(g.segments, sn) && !Has(g.datagrams, sn)
    ensures var (h, r) := FeedSegments(solver, g, sn, oti, id, data, now);
            var (decoder, fed) := Decode(solver, At(g.segments, sn).value.decoder, oti, id, data);
            r.Ok? ==>
              && fed.Ok?
              && (k != sn ==> At(h.segments, k) == At(g.segments, k) && At(h.datagrams, k) == At(g.datagrams, k))
              && (fed.value.None? ==> At(h.segments, sn).Some? && At(h.segments, sn).value.decoder == decoder)
              && (fed.value.Some? ==> At(h.datagrams, sn).Some?)
  {
    var i := Search(g.segments, sn);
    var s := g.segments[i].value;
    var (decoder, fed) := Decode(solver, s.decoder, oti, id, data);
    if fed.Ok? {
      var seg := s.(decoder := decoder, assembled := fed.value);
      if fed.value.None? {
        AtUpdate(g.segments, i, seg, k);
        AtUpdate(g.segments, i, seg, sn);
      } else {
        AtRemove(g.segments, i, k);
        var d := Assemble(seg, now);
        if d.Ok? {
          AtInsert(g.datagrams, Entry(sn, d.value), k);
          AtInsert(g.datagrams, Entry(sn, d.value), sn);
        }
      }
    }
  }

  /** The decoder a symbol of `sn` is fed to: the open one, or a new one. */
  function DecoderFor(g: Group, sn: nat, oti: Oti): Decoder {
    match At(g.segments, sn)
    case Some(s) => s.decoder
    case None => NewDecoder(oti)
  }

  lemma InsertSymbolAt(solver: Solver, g: Group, sn: nat, oti: Oti, id: SymbolId, data: Bytes, at: Instants, k: nat)
    requires GroupOk(g) && ValidOti(oti, MAX_VIDEO_PAYLOAD)
    ensures var (h, r) := InsertSymbol(solver, g, sn, oti, id, data, at);
            var (decoder, fed) := Decode(solver, DecoderFor(g, sn, oti), oti, id, data);
            r.Ok? ==>
              && (k != sn ==> At(h.segments, k) == At(g.segments, k) && At(h.datagrams, k) == At(g.datagrams, k))
              && (Has(g.datagrams, sn) ==> h == g)
              && (!Has(g.datagrams, sn) ==>
                    && fed.Ok?
                    && (fed.value.None? ==> At(h.segments, sn).Some? && At(h.segments, sn).value.decoder == decoder)
                    && (fed.value.Some? ==> At(h.datagrams, sn).Some?))
  {
    if !Has(g.datagrams, sn) {
      PrepareSegmentsOk(g, sn, oti, at.created);
      var prepared := PrepareSegments(g, sn, oti, at.created).value;
      if !Has(g.segments, sn) {
        var e := Entry(sn, Segments(NewDecoder(oti), None, at.created));
        AtInsert(g.segments, e, k);
        AtInsert(g.segments, e, sn);
      }
      FeedAt(solver, prepared, sn, oti, id, data, at.assembled, k);
    }
  }

  // ----- The buffer holds exactly what was delivered and is still due

  /** Packet `k`, at or above the next number, is held by its group just as it was delivered. */
  ghost predicate TracksMedia(solver: Solver, s: Sender, run: seq<Delivery>, g: Group, k: nat)
    requires k < |s.sent| && s.sent[k].SentMedia?
  {
    var ids := Ids(run, k);
    var symbols := Symbols(s, ids, k);
    if ids == {} then !Has(g.datagrams, k) && !Has(g.segments, k) && !Completed(solver, s, run, k)
    else
      || Has(g.datagrams, k)
      || (&& At(g.segments, k).Some? && At(g.segments, k).value.decoder.received == symbols
          && At(g.segments, k).value.decoder.oti == s.sent[k].oti
          && solver(s.sent[k].oti, symbols).None? && !Completed(solver, s, run, k))
  }

  ghost predicate Tracks(solver: Solver, s: Sender, run: seq<Delivery>, g: Group, k: nat)
    requires k < |s.sent|
  {
    if s.sent[k].SentConfig? then ConfigArrived(run, k) ==> g.config == Ready(k, s.sent[k].packet)
    else TracksMedia(solver, s, run, g, k)
  }

  ghost predicate TrackInv(solver: Solver, s: Sender, run: seq<Delivery>, r: Receiver) {
    forall k | r.next <= k < |s.sent| :: Tracks(solver, s, run, Lookup(r.pending.groups, GroupOf(s.sent, k)), k)
  }

  /** A delivery of something else changes nothing about `k`. */
  lemma UnrelatedDelivery(solver: Solver, s: Sender, run: seq<Delivery>, d: Delivery, g: Group, k: nat)
    requires k < |s.sent| && Tracks(solver, s, run, g, k)
    requires !(d.MediaSymbol? && d.k == k) && !(d.ConfigRecord? && d.k == k)
    ensures Tracks(solver, s, run + [d], g, k)
  {
    assert (run + [d])[..|run|] == run;
    if s.sent[k].SentConfig? {
      if ConfigArrived(run + [d], k) {
        var i :| 0 <= i < |run + [d]| && (run + [d])[i].ConfigRecord? && (run + [d])[i].k == k;
        assert run[i].ConfigRecord? && run[i].k == k;
      }
    } else {
      assert Ids(run + [d], k) == Ids(run, k);
      assert Completed(solver, s, run + [d], k) == Completed(solver, s, run, k);
    }
  }

  /** The same holds for a group that treats `k` the same. */
  lemma SameEntries(solver: Solver, s: Sender, run: seq<Delivery>, g: Group, h: Group, k: nat)
    requires k < |s.sent| && Tracks(solver, s, run, g, k)
    requires At(h.segments, k) == At(g.segments, k) && At(h.datagrams, k) == At(g.datagrams, k)
    requires s.sent[k].SentConfig? ==> h.config == g.config
    ensures Tracks(solver, s, run, h, k)
  {}

  // ----- A symbol of `k` itself

  lemma IdsGrow(s: Sender, run: seq<Delivery>, k: nat, id: SymbolId, at: Instants)
    ensures Ids(run + [MediaSymbol(k, id, at)], k) == Ids(run, k) + {id}
    ensures Symbols(s, Ids(run, k) + {id}, k) == Symbols(s, Ids(run, k), k)[id := s.symbol(k, id)]
  {
    assert (run + [MediaSymbol(k, id, at)])[..|run|] == run;
  }

  lemma SymbolTracked(solver: Solver, s: Sender, run: seq<Delivery>, g: Group, k: nat, id: SymbolId, at: Instants)
    requires k < |s.sent| && s.sent[k].SentMedia? && TracksMedia(solver, s, run, g, k)
    requires GroupOk(g) && ValidOti(s.sent[k].oti, MAX_VIDEO_PAYLOAD)
    ensures var (h, r) := InsertSymbol(solver, g, k, s.sent[k].oti, id, s.symbol(k, id), at);
            r.Ok? ==> TracksMedia(solver, s, run + [MediaSymbol(k, id, at)], h, k)
  {
    var oti := s.sent[k].oti;
    var ids := Ids(run, k);
    var run' := run + [MediaSymbol(k, id, at)];
    assert run'[..|run|] == run;
    IdsGrow(s, run, k, id, at);
    InsertSymbolAt(solver, g, k, oti, id, s.symbol(k, id), at, k);
    var (h, r) := InsertSymbol(solver, g, k, oti, id, s.symbol(k, id), at);
    if r.Ok? && !Has(g.datagrams, k) {
      var d := DecoderFor(g, k, oti);
      assert d.received == Symbols(s, ids, k);
      var (decoder, fed) := Decode(solver, d, oti, id, s.symbol(k, id));
      if fed.value.None? {
        if id in ids {
          assert ids + {id} == ids;
        }
        assert decoder.received == Symbols(s, ids + {id}, k);
        assert solver(oti, Symbols(s, ids + {id}, k)).None?;
      }
    }
  }

  // ----- Insertions without retirement, as lookups

  lemma AdmitKeepsAll(p: Pending, additional: nat, now: nat)
    requires PendingInv(p) && Admit(p, additional, now).0.retiredThrough.None?
    ensures Admit(p, additional, now).0 == p
  {
    AdmitRetires(p, additional, now);
  }

  lemma InsertAdmittedLookup(solver: Solver, p: Pending, group: nat, sn: nat, oti: Oti, id: SymbolId, data: Bytes,
                             at: Instants, x: nat)
    requires Sorted(p.groups)
    ensures var (q, r) := InsertAdmitted(solver, p, group, sn, oti, id, data, at);
            var (h, fed) := InsertSymbol(solver, Lookup(p.groups, group), sn, oti, id, data, at);
            r.Ok? ==> fed.Ok? && Lookup(q.groups, x) == if x == group then h else Lookup(p.groups, x)
  {
    LookupPrepare(p, group, x);
    var (q, index) := PrepareGroup(p, group);
    if index.Ok? {
      var h := InsertSymbol(solver, q.groups[index.value].value, sn, oti, id, data, at).0;
      LookupUpdate(q.groups, index.value, h, x);
    }
  }

  lemma InsertDatagramLookup(solver: Solver, p: Pending, group: nat, sn: nat, oti: Oti, id: SymbolId, data: Bytes,
                             at: Instants, x: nat)
    requires PendingInv(p)
    ensures var (q, r) := InsertDatagram(solver, p, group, sn, oti, id, data, at);
            var (h, fed) := InsertSymbol(solver, Lookup(p.groups, group), sn, oti, id, data, at);
            r.Ok? && q.retiredThrough.None? ==>
              ValidOti(oti, MAX_VIDEO_PAYLOAD) && fed.Ok?
              && Lookup(q.groups, x) == if x == group then h else Lookup(p.groups, x)
  {
    if ValidOti(oti, MAX_VIDEO_PAYLOAD) && !Retired(p, sn) && !InOtherGroup(p.groups, group, sn) {
      if InOwnGroup(p.groups, group, sn) {
        InsertAdmittedLookup(solver, p, group, sn, oti, id, data, at, x);
      } else {
        var (q, admitted) := Admit(p, Reservation(oti), at.admitted);
        if q.retiredThrough.None? {
          AdmitKeepsAll(p, Reservation(oti), at.admitted);
          InsertAdmittedLookup(solver, p, group, sn, oti, id, data, at, x);
        } else if admitted.Ok? && !Retired(q, sn) {
          InsertAdmittedFrontier(solver, q, group, sn, oti, id, data, at);
        }
      }
    }
  }

  lemma InsertStreamLookup(p: Pending, group: nat, sn: nat, packet: Packet, now: nat, x: nat)
    requires PendingInv(p)
    ensures var (q, r) := InsertStream(p, group, sn, packet, now);
            r.Ok? && q.retiredThrough.None? ==>
              Lookup(q.groups, x) == if x == group then Lookup(p.groups, x).(config := Ready(sn, packet))
                                     else Lookup(p.groups, x)
  {
    if packet.Media? && packet.media.isConfig {
      var (q, admitted) := Admit(p, |packet.payload|, now);
      if admitted.Ok? && q.retiredThrough.None? {
        AdmitKeepsAll(p, |packet.payload|, now);
        LookupPrepare(p, group, x);
        var (q1, index) := PrepareGroup(p, group);
        if index.Ok? {
          LookupUpdate(q1.groups, index.value, q1.groups[index.value].value.(config := Ready(sn, packet)), x);
        }
      }
    }
  }

  // ----- Each kind of step

  lemma UnrelatedStep(solver: Solver, s: Sender, run: seq<Delivery>, r: Receiver, r': Receiver, d: Delivery)
    requires TrackInv(solver, s, run, r) && r'.pending == r.pending && r'.next == r.next
    requires d.MediaSymbol? || d.ConfigRecord? ==> d.k < r.next
    ensures TrackInv(solver, s, run + [d], r')
  {
    forall k | r'.next <= k < |s.sent|
      ensures Tracks(solver, s, run + [d], Lookup(r'.pending.groups, GroupOf(s.sent, k)), k)
    {
      UnrelatedDelivery(solver, s, run, d, Lookup(r.pending.groups, GroupOf(s.sent, k)), k);
    }
  }

  lemma LookupOk(groups: seq<Entry<Group>>, x: nat)
    requires Shape(groups)
    ensures GroupOk(Lookup(groups, x))
  {
    EmptyGroupOk();
  }

  lemma TrackSymbol(solver: Solver, s: Sender, run: seq<Delivery>, r: Receiver, q: Pending, k: nat, id: SymbolId,
                    at: Instants)
    requires PendingInv(r.pending) && TrackInv(solver, s, run, r)
    requires r.next <= k < |s.sent| && s.sent[k].SentMedia?
    requires var (q', result) :=
               InsertDatagram(solver, r.pending, GroupOf(s.sent, k), k, s.sent[k].oti, id, s.symbol(k, id), at);
             q == q' && result.Ok? && q.retiredThrough.None?
    ensures forall m | r.next <= m < |s.sent| ::
              Tracks(solver, s, run + [MediaSymbol(k, id, at)], Lookup(q.groups, GroupOf(s.sent, m)), m)
  {
    var group, oti := GroupOf(s.sent, k), s.sent[k].oti;
    var g := Lookup(r.pending.groups, group);
    LookupOk(r.pending.groups, group);
    var run' := run + [MediaSymbol(k, id, at)];
    forall m | r.next <= m < |s.sent| ensures Tracks(solver, s, run', Lookup(q.groups, GroupOf(s.sent, m)), m) {
      InsertDatagramLookup(solver, r.pending, group, k, oti, id, s.symbol(k, id), at, GroupOf(s.sent, m));
      var h := InsertSymbol(solver, g, k, oti, id, s.symbol(k, id), at).0;
      if m == k {
        SymbolTracked(solver, s, run, g, k, id, at);
      } else {
        var was := Lookup(r.pending.groups, GroupOf(s.sent, m));
        UnrelatedDelivery(solver, s, run, MediaSymbol(k, id, at), was, m);
        if GroupOf(s.sent, m) == group {
          InsertSymbolAt(solver, g, k, oti, id, s.symbol(k, id), at, m);
          InsertSymbolOk(solver, g, k, oti, id, s.symbol(k, id), at);
          SameEntries(solver, s, run', g, h, m);
        }
      }
    }
  }

  lemma TrackConfig(solver: Solver, s: Sender, run: seq<Delivery>, r: Receiver, q: Pending, k: nat, now: nat)
    requires PendingInv(r.pending) && TrackInv(solver, s, run, r)
    requires r.next <= k < |s.sent| && s.sent[k].SentConfig?
    requires InsertStream(r.pending, GroupOf(s.sent, k), k, s.sent[k].packet, now) == (q, Ok(()))
    requires q.retiredThrough.None?
    ensures forall m | r.next <= m < |s.sent| ::
              Tracks(solver, s, run + [ConfigRecord(k, now)], Lookup(q.groups, GroupOf(s.sent, m)), m)
  {
    var run' := run + [ConfigRecord(k, now)];
    forall m | r.next <= m < |s.sent| ensures Tracks(solver, s, run', Lookup(q.groups, GroupOf(s.sent, m)), m) {
      var was := Lookup(r.pending.groups, GroupOf(s.sent, m));
      InsertStreamLookup(r.pending, GroupOf(s.sent, k), k, s.sent[k].packet, now, GroupOf(s.sent, m));
      if m != k {
        UnrelatedDelivery(solver, s, run, ConfigRecord(k, now), was, m);
        if GroupOf(s.sent, m) == GroupOf(s.sent, k) {
          if s.sent[m].SentConfig? {
            ConfigFirst(s.sent, m, k);
            ConfigFirst(s.sent, k, m);
          }
          SameEntries(solver, s, run', was, Lookup(q.groups, GroupOf(s.sent, m)), m);
        }
      }
    }
  }

  // ----- Taking the next packet

  lemma DropExpiredAt(g: Group, k: nat)
    requires GroupOk(g) && g.datagrams != [] && g.datagrams[0].key < k
    ensures var h := DropExpired(g.(datagrams := g.datagrams[1..]), g.datagrams[0].key).0;
            At(h.segments, k) == At(g.segments, k) && At(h.datagrams, k) == At(g.datagrams, k)
  {
    var i := Search(g.segments, g.datagrams[0].key);
    AtSuffix(g.segments, i, k);
    AtSuffix(g.datagrams, 1, k);
  }

  lemma TrackTake(solver: Solver, s: Sender, run: seq<Delivery>, r: Receiver, now: nat)
    requires LegalInv(s, r) && TrackInv(solver, s, run, r)
    requires TakeNext(r.pending, r.next, now).1.Forward? && TakeNext(r.pending, r.next, now).1.sn == r.next
    ensures var q := TakeNext(r.pending, r.next, now).0;
            forall k | r.next < k < |s.sent| :: Tracks(solver, s, run, Lookup(q.groups, GroupOf(s.sent, k)), k)
  {
    var n := NextPacket(r.pending, r.next, now);
    var (q, a) := TakeNext(r.pending, r.next, now);
    var groups := r.pending.groups;
    var e := groups[n.index];
    TakeLegal(s, r.next, r.pending, now);
    LookupIndex(groups, n.index);
    forall k | r.next < k < |s.sent| ensures Tracks(solver, s, run, Lookup(q.groups, GroupOf(s.sent, k)), k) {
      var x := GroupOf(s.sent, k);
      GroupOfMonotone(s.sent, r.next, k);
      var h := q.groups[0].value;
      assert q.groups == Kept(groups, n.index, h);
      LookupKept(groups, n.index, h, x);
      if x == e.key {
        if !n.isConfig {
          DropExpiredAt(e.value, k);
        }
        SameEntries(solver, s, run, e.value, h, k);
      }
    }
  }

  // ----- Whole runs

  /** Nothing was dropped, and the buffer holds what was delivered and is still due. */
  ghost predicate ExactInv(solver: Solver, s: Sender, run: seq<Delivery>, r: Receiver) {
    Dropped(r) == 0 && TrackInv(solver, s, run, r)
  }

  lemma DrainExact(solver: Solver, s: Sender, run: seq<Delivery>, r: Receiver, now: nat)
    requires LegalInv(s, r) && ExactInv(solver, s, run, r) && OnTime(r.pending, r.next, now)
    ensures ExactInv(solver, s, run + [Drain(now)], OnTake(r, now))
  {
    OnTimeTakesNext(s, r.next, r.pending, now);
    var (q, a) := TakeNext(r.pending, r.next, now);
    if a.Forward? {
      TrackTake(solver, s, run, r, now);
      TakeMoves(r, now);
      TakeDropsNone(r, now);
      TrackNext(solver, s, run, OnTake(r, now), Drain(now));
    } else {
      UnrelatedStep(solver, s, run, r, OnTake(r, now), Drain(now));
    }
  }

  lemma TakeDropsNone(r: Receiver, now: nat)
    requires var a := TakeNext(r.pending, r.next, now).1; a.Forward? ==> a.sn == r.next
    ensures Dropped(OnTake(r, now)) == Dropped(r)
  {
  }

  /** A delivery that brings nothing leaves the record as it is. */
  lemma TrackNext(solver: Solver, s: Sender, run: seq<Delivery>, r: Receiver, d: Delivery)
    requires !d.MediaSymbol? && !d.ConfigRecord?
    requires TrackInv(solver, s, run, r)
    ensures TrackInv(solver, s, run + [d], r)
  {
    forall k | r.next <= k < |s.sent|
      ensures Tracks(solver, s, run + [d], Lookup(r.pending.groups, GroupOf(s.sent, k)), k)
    {
      UnrelatedDelivery(solver, s, run, d, Lookup(r.pending.groups, GroupOf(s.sent, k)), k);
    }
  }

  lemma SymbolEffect(solver: Solver, s: Sender, r: Receiver, k: nat, id: SymbolId, at: Instants)
    requires Possible(s, r, MediaSymbol(k, id, at))
    ensures var r' := Apply(solver, r, Wire(s, MediaSymbol(k, id, at)));
            var (q, result) :=
              InsertDatagram(solver, r.pending, GroupOf(s.sent, k), k, s.sent[k].oti, id, s.symbol(k, id), at);
            && r'.next == r.next && r'.stats == r.stats
            && (k < r.next ==> r'.pending == r.pending)
            && (r.next <= k ==> r'.pending == q && r'.status == After(result))
  {
    UnrolledTruly(s, r, k);
  }

  lemma SymbolExact(solver: Solver, s: Sender, run: seq<Delivery>, r: Receiver, k: nat, id: SymbolId, at: Instants)
    requires LegalInv(s, r) && ExactInv(solver, s, run, r) && Possible(s, r, MediaSymbol(k, id, at))
    ensures var r' := Apply(solver, r, Wire(s, MediaSymbol(k, id, at)));
            !r'.status.Failed? && r'.pending.retiredThrough.None? ==>
              ExactInv(solver, s, run + [MediaSymbol(k, id, at)], r')
  {
    SymbolEffect(solver, s, r, k, id, at);
    var r' := Apply(solver, r, Wire(s, MediaSymbol(k, id, at)));
    if k < r.next {
      UnrelatedStep(solver, s, run, r, r', MediaSymbol(k, id, at));
    } else if !r'.status.Failed? && r'.pending.retiredThrough.None? {
      TrackSymbol(solver, s, run, r, r'.pending, k, id, at);
    }
  }

  lemma ConfigEffect(solver: Solver, s: Sender, r: Receiver, k: nat, now: nat)
    requires WellFormed(s) && Possible(s, r, ConfigRecord(k, now))
    ensures var r' := Apply(solver, r, Wire(s, ConfigRecord(k, now)));
            var (q, result) := InsertStream(r.pending, GroupOf(s.sent, k), k, s.sent[k].packet, now);
            && r'.next == r.next && r'.stats == r.stats
            && (k < r.next ==> r'.pending == r.pending)
            && (r.next <= k ==> r'.pending == q && r'.status == After(result))
  {
    UnrolledTruly(s, r, k);
  }

  lemma ConfigExact(solver: Solver, s: Sender, run: seq<Delivery>, r: Receiver, k: nat, now: nat)
    requires WellFormed(s) && LegalInv(s, r) && ExactInv(solver, s, run, r) && Possible(s, r, ConfigRecord(k, now))
    ensures var r' := Apply(solver, r, Wire(s, ConfigRecord(k, now)));
            !r'.status.Failed? && r'.pending.retiredThrough.None? ==>
              ExactInv(solver, s, run + [ConfigRecord(k, now)], r')
  {
    ConfigEffect(solver, s, r, k, now);
    var r' := Apply(solver, r, Wire(s, ConfigRecord(k, now)));
    if k < r.next {
      UnrelatedStep(solver, s, run, r, r', ConfigRecord(k, now));
    } else if !r'.status.Failed? && r'.pending.retiredThrough.None? {
      TrackConfig(solver, s, run, r, r'.pending, k, now);
    }
  }

  lemma {:induction false} RunExact(solver: Solver, s: Sender, run: seq<Delivery>)
    requires WellFormed(s) && Sound(solver, s) && LegalRun(solver, s, run) && Patient(solver, s, run)
    requires var r := Reach(solver, s, run); !r.status.Failed? && r.pending.retiredThrough.None?
    ensures ExactInv(solver, s, run, Reach(solver, s, run))
  {
    if run == [] {
      forall k | 0 <= k < |s.sent| ensures Tracks(solver, s, run, Lookup([], GroupOf(s.sent, k)), k) {}
    } else {
      var before, last := run[..|run| - 1], run[|run| - 1];
      var r := Reach(solver, s, before);
      assert run == before + [last];
      ApplyFrontier(solver, r, Wire(s, last));
      RunExact(solver, s, before);
      LegalRunInv(solver, s, before);
      match last
      case CodecRecord(h, _) => UnrelatedStep(solver, s, before, r, Apply(solver, r, Wire(s, last)), last);
      case ConfigRecord(k, now) => ConfigExact(solver, s, before, r, k, now);
      case MediaSymbol(k, id, at) => SymbolExact(solver, s, before, r, k, id, at);
      case Alarm => UnrelatedStep(solver, s, before, r, Apply(solver, r, Wire(s, last)), last);
      case Drain(now) => DrainExact(solver, s, before, r, now);
    }
  }

  lemma IncreasingBound(ns: seq<nat>, bound: nat, i: nat)
    requires Increasing(ns) && i < |ns| && forall n | n in ns :: n < bound
    ensures i <= ns[i] && ns[i] + (|ns| - i) <= bound
  {
    var low := i;
    while low > 0
      invariant 0 <= low <= i && ns[low] + (i - low) <= ns[i]
    {
      low := low - 1;
    }
    var high := i;
    while high + 1 < |ns|
      invariant i <= high < |ns| && ns[i] + (high - i) <= ns[high]
    {
      high := high + 1;
    }
    assert ns[high] in ns;
  }

  /** With nothing dropped, the numbers forwarded are exactly 0, 1, 2, ... in order. */
  lemma NoGaps(s: Sender, r: Receiver)
    requires LogInv(s, r) && Dropped(r) == 0
    ensures |Numbers(r.out)| == r.next
    ensures forall i | 0 <= i < r.next :: Numbers(r.out)[i] == i
  {
    forall i | 0 <= i < r.next ensures Numbers(r.out)[i] == i {
      IncreasingBound(Numbers(r.out), r.next, i);
    }
  }

  lemma ConfigOffered(s: Sender, next: nat, p: Pending)
    requires next < |s.sent| && s.sent[next].SentConfig?
    requires Lookup(p.groups, GroupOf(s.sent, next)).config == Ready(next, s.sent[next].packet)
    ensures !Quiet(p, next)
  {
    LookupFound(p.groups, GroupOf(s.sent, next));
    var i :| 0 <= i < |p.groups| && p.groups[i].value == Lookup(p.groups, GroupOf(s.sent, next));
    assert OffersNext(p.groups[i], next);
  }

  lemma MediaOffered(s: Sender, next: nat, p: Pending)
    requires Shape(p.groups) && LegalGroups(s, next, p.groups) && HeadSent(s, next, p.groups)
    requires 0 < next < |s.sent| && s.sent[next].SentMedia?
    requires Has(Lookup(p.groups, GroupOf(s.sent, next)).datagrams, next)
    ensures !Quiet(p, next)
  {
    assert s.sent[..next + 1][..next] == s.sent[..next];
    LookupIndex(p.groups, 0);
    FrontIsNext(s, next, p.groups[0]);
    assert OffersNext(p.groups[0], next);
  }

  lemma FrontIsNext(s: Sender, next: nat, e: Entry<Group>)
    requires GroupOk(e.value) && LegalGroup(s, next, e) && Has(e.value.datagrams, next)
    ensures e.value.datagrams != [] && e.value.datagrams[0].key == next
  {
    var ds := e.value.datagrams;
    assert ds[0] in ds;
    assert LegalDatagram(s, e.key, next, ds[0]);
    FrontKey(ds);
    HasIffKey(ds, next);
  }

  /** A delivered next packet is on offer, once the sender's first packet is a config. */
  lemma DeliveredIsOffered(solver: Solver, s: Sender, run: seq<Delivery>, r: Receiver)
    requires LegalInv(s, r) && TrackInv(solver, s, run, r)
    requires r.next < |s.sent| && s.sent[0].SentConfig? && Delivered(solver, s, run, r.next)
    ensures !Quiet(r.pending, r.next)
  {
    assert Tracks(solver, s, run, Lookup(r.pending.groups, GroupOf(s.sent, r.next)), r.next);
    if s.sent[r.next].SentConfig? {
      ConfigOffered(s, r.next, r.pending);
    } else {
      MediaOffered(s, r.next, r.pending);
    }
  }

  /** If the sender starts with a config, no deadline expires, and nothing is retired or
      rejected, then once packets 0 to n-1 have all been delivered, in any order and with any
      repetition, and the drain loop has stopped, the client has been given exactly packets
      0, 1, 2, ... in order, at least up to n-1. */
  lemma ReorderExact(solver: Solver, s: Sender, run: seq<Delivery>, n: nat)
    requires WellFormed(s) && Sound(solver, s) && LegalRun(solver, s, run) && Patient(solver, s, run)
    requires var r := Reach(solver, s, run); r.status.Waiting? && r.pending.retiredThrough.None?
    requires n <= |s.sent| && (forall k | 0 <= k < n :: Delivered(solver, s, run, k))
    requires n > 0 ==> s.sent[0].SentConfig?
    ensures var r := Reach(solver, s, run);
            && n <= |Numbers(r.out)|
            && (forall i | 0 <= i < |Numbers(r.out)| :: Numbers(r.out)[i] == i)
            && Faithful(s, r.out)
  {
    var r := Reach(solver, s, run);
    LegalRunInv(solver, s, run);
    RunExact(solver, s, run);
    DrainLeavesNothing(solver, s, run);
    NoGaps(s, r);
    if r.next < n {
      DeliveredIsOffered(solver, s, run, r);
      assert false;
    }
  }

  // ----- Exactly then nothing is skipped

  /** The next expected number is the one after the last forwarded. */
  ghost predicate NextFollows(r: Receiver) {
    var ns := Numbers(r.out);
    r.next == if ns == [] then 0 else ns[|ns| - 1] + 1
  }

  lemma SameFollows(r: Receiver, r': Receiver)
    requires NextFollows(r) && Numbers(r'.out) == Numbers(r.out) && r'.next == r.next
    ensures NextFollows(r')
  {
  }

  lemma TakeFollows(r: Receiver, now: nat)
    requires NextFollows(r)
    ensures NextFollows(OnTake(r, now))
  {
    var (q, a) := TakeNext(r.pending, r.next, now);
    if a.Forward? {
      TakeDelivers(r, now, q, a);
      AppendOutput(r.out, PacketOut(a.sn, a.group, a.packet));
    } else {
      TakeOnlyWaits(r, now, q, a);
      SameFollows(r, OnTake(r, now));
    }
  }

  lemma StepFollows(solver: Solver, r: Receiver, x: Step)
    requires NextFollows(r)
    ensures NextFollows(Apply(solver, r, x))
  {
    match x
    case Stream(packet, _, _, _) =>
      AppendOutput(r.out, CodecOut(packet));
      assert Numbers(r.out) + [] == Numbers(r.out);
      SameFollows(r, Apply(solver, r, x));
    case Symbol(_, _, _, _, _, _) => SameFollows(r, Apply(solver, r, x));
    case Timer => SameFollows(r, Apply(solver, r, x));
    case Take(now) => TakeFollows(r, now);
  }

  /** A take adds to the dropped packets if and only if a deadline has expired. */
  lemma DropsIffExpired(s: Sender, r: Receiver, now: nat)
    requires LegalInv(s, r)
    ensures Dropped(OnTake(r, now)) >= Dropped(r)
    ensures Dropped(OnTake(r, now)) == Dropped(r) <==> OnTime(r.pending, r.next, now)
  {
    var (q, a) := TakeNext(r.pending, r.next, now);
    TakeLegal(s, r.next, r.pending, now);
    if a.Forward? {
      TakeDelivers(r, now, q, a);
      DeliverMoves(r, q, a);
    } else {
      TakeOnlyWaits(r, now, q, a);
    }
    if OnTime(r.pending, r.next, now) {
      OnTimeTakesNext(s, r.next, r.pending, now);
    } else {
      ExpiredTakesOther(r.pending, r.next, now);
    }
  }

  lemma {:induction false} DroppedIff(solver: Solver, s: Sender, run: seq<Delivery>)
    requires WellFormed(s) && Sound(solver, s) && LegalRun(solver, s, run) && !Reach(solver, s, run).status.Failed?
    ensures NextFollows(Reach(solver, s, run))
    ensures Patient(solver, s, run) <==> Dropped(Reach(solver, s, run)) == 0
  {
    if run != [] {
      var before, last := run[..|run| - 1], run[|run| - 1];
      var r := Reach(solver, s, before);
      DroppedIff(solver, s, before);
      LegalRunInv(solver, s, before);
      StepFollows(solver, r, Wire(s, last));
      if last.Drain? {
        DropsIffExpired(s, r, last.now);
      } else {
        DropsAtTakes(solver, r, Wire(s, last));
      }
    }
  }

  lemma DropsAtTakes(solver: Solver, r: Receiver, x: Step)
    requires !x.Take?
    ensures Dropped(Apply(solver, r, x)) == Dropped(r)
  {
  }

  /** Whatever is lost or retired on the way: the client is given packets 0, 1, 2, ... without a gap
      if and only if no deadline has expired. */
  lemma GaplessIff(solver: Solver, s: Sender, run: seq<Delivery>)
    requires WellFormed(s) && Sound(solver, s) && LegalRun(solver, s, run) && !Reach(solver, s, run).status.Failed?
    ensures var ns := Numbers(Reach(solver, s, run).out);
            Patient(solver, s, run) <==> forall i | 0 <= i < |ns| :: ns[i] == i
  {
    var r := Reach(solver, s, run);
    LegalRunInv(solver, s, run);
    DroppedIff(solver, s, run);
    if Dropped(r) == 0 {
      NoGaps(s, r);
    }
  }

  /** The sender's first packet must be a config: otherwise, while no deadline expires, nothing is
      ever forwarded, however much is delivered. */
  lemma {:induction false} NoConfigNoStart(solver: Solver, s: Sender, run: seq<Delivery>)
    requires WellFormed(s) && Sound(solver, s) && LegalRun(solver, s, run) && Patient(solver, s, run)
    requires s.sent != [] && s.sent[0].SentMedia?
    requires !Reach(solver, s, run).status.Failed?
    ensures Reach(solver, s, run).next == 0 && Numbers(Reach(solver, s, run).out) == []
  {
    LegalRunInv(solver, s, run);
    if run != [] {
      var before, last := run[..|run| - 1], run[|run| - 1];
      NoConfigNoStart(solver, s, before);
      LegalRunInv(solver, s, before);
      NotStarted(solver, s, Reach(solver, s, before), last);
    }
  }

  lemma NotStarted(solver: Solver, s: Sender, r: Receiver, d: Delivery)
    requires LegalInv(s, r) && Possible(s, r, d) && r.next == 0 && s.sent != [] && s.sent[0].SentMedia?
    requires d.Drain? ==> OnTime(r.pending, r.next, d.now)
    ensures Apply(solver, r, Wire(s, d)).next == 0
  {
    if d.Drain? {
      NoStartStep(s, r, d.now);
    }
  }

  lemma NoStartStep(s: Sender, r: Receiver, now: nat)
    requires LegalInv(s, r) && r.next == 0 && s.sent != [] && s.sent[0].SentMedia? && OnTime(r.pending, r.next, now)
    ensures OnTake(r, now).next == 0
  {
    OnTimeTakesNext(s, r.next, r.pending, now);
    TakeLegal(s, r.next, r.pending, now);
    TakeMoves(r, now);
  }
}
