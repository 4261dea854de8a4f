/** How a run fed by a legal sender can fail: at a limit of the receiver that is really reached, or at
    a config that is delivered again while it is pending, and not otherwise. */
module VideoErrors {
  import opened Wrappers
  import opened SortedVec
  import opened AvPacket
  import opened Fec
  import opened Sequencer
  import opened VideoGroup
  import opened VideoPending
  import opened VideoInvariant
  import opened VideoAdmission
  import opened VideoReceiver
  import opened VideoSender
  import opened VideoDelivery
  import opened VideoOrder
  import opened VideoExact
  import opened FecExact
  import opened VideoObjects
  import opened VideoHistory

  /** Parameters, block number and symbol size are acceptable. */
  predicate Valid(s: Sender, d: Delivery)
    requires OfSender(s, d)
  {
    d.MediaSymbol? ==>
      var oti := s.sent[d.k].oti;
      ValidOti(oti, MAX_VIDEO_PAYLOAD) && ValidateSymbol(oti, d.id, |s.symbol(d.k, d.id)|).Ok?
  }

  // ----- Why something is refused

  /** Neither as it is nor after retiring any stale media is there room. */
  ghost predicate NoRoom(p: Pending, additional: nat, now: nat) {
    && !HasRoom(p.groups, additional)
    && forall t | StaleThrough(p.groups, t, now) :: !HasRoom(RetireThrough(p.groups, t), additional)
  }

  /** After admission, 32 groups are pending and this one is not. */
  predicate NoGroupLeft(p: Pending, additional: nat, now: nat, group: nat) {
    var q := Admit(p, additional, now).0;
    |q.groups| == MAX_PENDING_GROUPS && !Has(q.groups, group)
  }

  /** The object is open with all the symbols its block may have, and this one is new. */
  ghost predicate BlockFull(o: Option<Object>, oti: Oti, id: SymbolId) {
    && o.Some? && o.value.Open? && id !in o.value.symbols
    && |InBlock(o.value.symbols.Keys, id.block)| >= SymbolLimit(oti, id.block)
  }

  lemma AdmitFails(p: Pending, additional: nat, now: nat)
    requires PendingInv(p)
    ensures var r := Admit(p, additional, now).1;
            r.Err? ==> NoRoom(p, additional, now) && r.error.BudgetExceeded? && r.error.additional == additional
  {
    AdmitSucceedsIff(p, additional, now);
    AdmitError(p, additional, now);
  }

  lemma {:induction false} AdmitError(p: Pending, additional: nat, now: nat)
    ensures var r := Admit(p, additional, now).1;
            r.Err? ==> r.error.BudgetExceeded? && r.error.additional == additional
    decreases Sum(p.groups, MediaCount)
  {
    if CheckCapacity(p, additional).Err? && RetireOldest(p, now).Some? {
      RetireShrinks(p, now);
      AdmitError(RetireOldest(p, now).value, additional, now);
    }
  }

  // ----- Symbols

  lemma FeedFails(solver: Solver, s: Sender, next: nat, group: nat, g: Group, k: nat, id: SymbolId, now: nat)
    requires WellFormed(s) && Sound(solver, s)
    requires LegalGroup(s, next, Entry(group, g)) && GroupOk(g) && Has(g.segments, k)
    requires k < |s.sent| && s.sent[k].SentMedia? && ValidateSymbol(s.sent[k].oti, id, |s.symbol(k, id)|).Ok?
    ensures var r := FeedSegments(solver, g, k, s.sent[k].oti, id, s.symbol(k, id), now).1;
            r.Err? ==> r.error == TooManySymbols && BlockFull(ObjectIn(g, k), s.sent[k].oti, id)
  {
    var e := g.segments[Search(g.segments, k)];
    assert LegalSegments(s, group, next, e);
    OpenIn(g, k);
    DecodeExact(solver, e.value.decoder, s.sent[k].oti, id, s.symbol(k, id));
    var (decoder, r) := Decode(solver, e.value.decoder, s.sent[k].oti, id, s.symbol(k, id));
    if r.Ok? && r.value.Some? {
      assert Genuine(s, k, decoder.received);
      AssembledIsSent(solver, s, k, decoder.received);
    }
  }

  lemma FirstIsTaken(g: Group, k: nat, oti: Oti, id: SymbolId, created: nat)
    requires GroupOk(g) && !Has(g.datagrams, k) && !Has(g.segments, k)
    ensures var e := Entry(k, Segments(NewDecoder(oti), None, created));
            var h := g.(segments := InsertAt(g.segments, Search(g.segments, k), e));
            !BlockFull(ObjectIn(h, k), oti, id)
  {
    var e := Entry(k, Segments(NewDecoder(oti), None, created));
    AtInsert(g.segments, e, k);
    assert InBlock(NewDecoder(oti).received.Keys, id.block) == {};
  }

  lemma InsertSymbolFails(solver: Solver, s: Sender, next: nat, group: nat, g: Group, k: nat, id: SymbolId,
                          at: Instants)
    requires WellFormed(s) && Sound(solver, s)
    requires LegalGroup(s, next, Entry(group, g)) && GroupOk(g)
    requires next <= k < |s.sent| && s.sent[k].SentMedia? && GroupOf(s.sent, k) == group
    requires Valid(s, MediaSymbol(k, id, at))
    ensures var r := InsertSymbol(solver, g, k, s.sent[k].oti, id, s.symbol(k, id), at).1;
            r.Err? ==> r.error == TooManySymbols && BlockFull(ObjectIn(g, k), s.sent[k].oti, id)
  {
    if Has(g.datagrams, k) {
      assert LegalDatagram(s, group, next, g.datagrams[Search(g.datagrams, k)]);
    } else {
      PrepareSegmentsOk(g, k, s.sent[k].oti, at.created);
      OpenedLegal(s, next, group, g, k, at.created);
      var prepared := PrepareSegments(g, k, s.sent[k].oti, at.created).value;
      FeedFails(solver, s, next, group, prepared, k, id, at.assembled);
      if !Has(g.segments, k) {
        FirstIsTaken(g, k, s.sent[k].oti, id, at.created);
      }
    }
  }

  lemma InsertAdmittedFails(solver: Solver, s: Sender, next: nat, p: Pending, k: nat, id: SymbolId, at: Instants)
    requires WellFormed(s) && Sound(solver, s)
    requires PendingInv(p) && LegalGroups(s, next, p.groups) && HeadSent(s, next, p.groups)
    requires next <= k < |s.sent| && s.sent[k].SentMedia? && Valid(s, MediaSymbol(k, id, at))
    ensures var group, oti := GroupOf(s.sent, k), s.sent[k].oti;
            var r := InsertAdmitted(solver, p, group, k, oti, id, s.symbol(k, id), at).1;
            r.Err? ==>
              || (r.error == TooManyGroups && |p.groups| == MAX_PENDING_GROUPS && !Has(p.groups, group))
              || (r.error == TooManySymbols && BlockFull(ObjectAt(p, group, k), oti, id))
  {
    var group := GroupOf(s.sent, k);
    PrepareLegal(s, next, p, k);
    PrepareGroupInv(p, group);
    LookupPrepare(p, group, group);
    var (q, index) := PrepareGroup(p, group);
    if index.Ok? {
      InsertSymbolFails(solver, s, next, group, q.groups[index.value].value, k, id, at);
    }
  }

  lemma InOwnGroupOnly(s: Sender, next: nat, p: Pending, k: nat)
    requires LegalGroups(s, next, p.groups) && k < |s.sent|
    ensures !InOtherGroup(p.groups, GroupOf(s.sent, k), k)
  {
    forall i | 0 <= i < |p.groups| && Contains(p.groups[i].value, k) ensures p.groups[i].key == GroupOf(s.sent, k) {
      var g := p.groups[i].value;
      assert LegalGroup(s, next, p.groups[i]);
      if Has(g.segments, k) {
        assert LegalSegments(s, p.groups[i].key, next, g.segments[Search(g.segments, k)]);
      } else {
        assert LegalDatagram(s, p.groups[i].key, next, g.datagrams[Search(g.datagrams, k)]);
      }
    }
  }

  /** Why a symbol of packet `k` may be refused. */
  ghost predicate SymbolRefused(s: Sender, p: Pending, k: nat, id: SymbolId, at: Instants, e: Error)
    requires k < |s.sent| && s.sent[k].SentMedia?
  {
    var group, oti := GroupOf(s.sent, k), s.sent[k].oti;
    || (e.BudgetExceeded? && e.additional == Reservation(oti) && NoRoom(p, Reservation(oti), at.admitted))
    || (e == TooManyGroups && NoGroupLeft(p, Reservation(oti), at.admitted, group))
    || (e == TooManySymbols && BlockFull(ObjectAt(p, group, k), oti, id))
  }

  lemma AdmittedFails(solver: Solver, s: Sender, next: nat, p: Pending, k: nat, id: SymbolId, at: Instants)
    requires WellFormed(s) && Sound(solver, s)
    requires PendingInv(p) && LegalGroups(s, next, p.groups) && HeadSent(s, next, p.groups)
    requires next <= k < |s.sent| && s.sent[k].SentMedia? && Valid(s, MediaSymbol(k, id, at))
    ensures var group, oti := GroupOf(s.sent, k), s.sent[k].oti;
            var q := Admit(p, Reservation(oti), at.admitted).0;
            var r := InsertAdmitted(solver, q, group, k, oti, id, s.symbol(k, id), at).1;
            r.Err? && !Retired(q, k) ==> SymbolRefused(s, p, k, id, at, r.error)
  {
    var group, oti := GroupOf(s.sent, k), s.sent[k].oti;
    AdmitInv(p, Reservation(oti), at.admitted);
    AdmitLegal(s, next, p, Reservation(oti), at.admitted);
    AdmitObjects(p, Reservation(oti), at.admitted, group, k);
    InsertAdmittedFails(solver, s, next, Admit(p, Reservation(oti), at.admitted).0, k, id, at);
  }

  lemma OwnGroupPending(p: Pending, group: nat, k: nat)
    requires Sorted(p.groups) && InOwnGroup(p.groups, group, k)
    ensures Has(p.groups, group)
  {
    var i :| 0 <= i < |p.groups| && p.groups[i].key == group && Contains(p.groups[i].value, k);
    KeysAt(p.groups, group);
    HasIffKey(p.groups, group);
  }

  lemma InsertDatagramFails(solver: Solver, s: Sender, next: nat, p: Pending, k: nat, id: SymbolId, at: Instants)
    requires WellFormed(s) && Sound(solver, s)
    requires PendingInv(p) && LegalGroups(s, next, p.groups) && HeadSent(s, next, p.groups)
    requires next <= k < |s.sent| && s.sent[k].SentMedia? && Valid(s, MediaSymbol(k, id, at))
    ensures var r := InsertDatagram(solver, p, GroupOf(s.sent, k), k, s.sent[k].oti, id, s.symbol(k, id), at).1;
            r.Err? ==> SymbolRefused(s, p, k, id, at, r.error)
  {
    var group, oti := GroupOf(s.sent, k), s.sent[k].oti;
    InOwnGroupOnly(s, next, p, k);
    if !Retired(p, k) {
      if InOwnGroup(p.groups, group, k) {
        OwnGroupPending(p, group, k);
        InsertAdmittedFails(solver, s, next, p, k, id, at);
      } else {
        AdmitFails(p, Reservation(oti), at.admitted);
        AdmittedFails(solver, s, next, p, k, id, at);
      }
    }
  }

  // ----- Configs too, or because they are pending already

  /** The configs that are ready are among these packets. */
  ghost predicate ReadyAmong(groups: seq<Entry<Group>>, arrived: set<nat>) {
    forall i | 0 <= i < |groups| && groups[i].value.config.Ready? :: groups[i].value.config.sn in arrived
  }

  lemma {:induction false} RetireThroughAmong(groups: seq<Entry<Group>>, t: nat, arrived: set<nat>)
    requires ReadyAmong(groups, arrived)
    ensures ReadyAmong(RetireThrough(groups, t), arrived)
  {
    if groups != [] {
      assert ReadyAmong(groups[1..], arrived);
      RetireThroughAmong(groups[1..], t, arrived);
    }
  }

  lemma AdmitAmong(p: Pending, additional: nat, now: nat, arrived: set<nat>)
    requires PendingInv(p) && ReadyAmong(p.groups, arrived)
    ensures ReadyAmong(Admit(p, additional, now).0.groups, arrived)
  {
    AdmitRetires(p, additional, now);
    var q := Admit(p, additional, now).0;
    if q != p {
      RetireThroughAmong(p.groups, q.retiredThrough.value, arrived);
    }
  }

  lemma PrepareAmong(p: Pending, group: nat, arrived: set<nat>)
    requires ReadyAmong(p.groups, arrived)
    ensures ReadyAmong(PrepareGroup(p, group).0.groups, arrived)
  {
    if !Has(p.groups, group) {
      var i, e := Search(p.groups, group), Entry(group, EMPTY_GROUP);
      forall j | 0 <= j <= |p.groups| && InsertAt(p.groups, i, e)[j].value.config.Ready?
        ensures InsertAt(p.groups, i, e)[j].value.config.sn in arrived
      {
        InsertedAt(p.groups, i, e, j);
      }
    }
  }

  lemma SymbolKeepsConfig(solver: Solver, g: Group, sn: nat, oti: Oti, id: SymbolId, data: Bytes, at: Instants)
    ensures InsertSymbol(solver, g, sn, oti, id, data, at).0.config == g.config
  {
  }

  lemma InsertAdmittedAmong(solver: Solver, p: Pending, group: nat, sn: nat, oti: Oti, id: SymbolId, data: Bytes,
                            at: Instants, arrived: set<nat>)
    requires ReadyAmong(p.groups, arrived)
    ensures ReadyAmong(InsertAdmitted(solver, p, group, sn, oti, id, data, at).0.groups, arrived)
  {
    PrepareAmong(p, group, arrived);
    var (q, index) := PrepareGroup(p, group);
    if index.Ok? {
      SymbolKeepsConfig(solver, q.groups[index.value].value, sn, oti, id, data, at);
    }
  }

  lemma InsertDatagramAmong(solver: Solver, p: Pending, group: nat, sn: nat, oti: Oti, id: SymbolId, data: Bytes,
                            at: Instants, arrived: set<nat>)
    requires PendingInv(p) && ReadyAmong(p.groups, arrived)
    ensures ReadyAmong(InsertDatagram(solver, p, group, sn, oti, id, data, at).0.groups, arrived)
  {
    if InOwnGroup(p.groups, group, sn) {
      InsertAdmittedAmong(solver, p, group, sn, oti, id, data, at, arrived);
    } else {
      AdmitAmong(p, Reservation(oti), at.admitted, arrived);
      InsertAdmittedAmong(solver, Admit(p, Reservation(oti), at.admitted).0, group, sn, oti, id, data, at, arrived);
    }
  }

  lemma InsertStreamAmong(p: Pending, group: nat, sn: nat, packet: Packet, now: nat, arrived: set<nat>)
    requires PendingInv(p) && ReadyAmong(p.groups, arrived)
    ensures ReadyAmong(InsertStream(p, group, sn, packet, now).0.groups, arrived + {sn})
  {
    if packet.Media? {
      AdmitAmong(p, |packet.payload|, now, arrived);
      PrepareAmong(Admit(p, |packet.payload|, now).0, group, arrived);
    }
  }

  lemma TakeAmong(p: Pending, next: nat, now: nat, arrived: set<nat>)
    requires ReadyAmong(p.groups, arrived)
    ensures ReadyAmong(TakeNext(p, next, now).0.groups, arrived)
  {
  }

  lemma SentIsFront(s: Sender, next: nat, groups: seq<Entry<Group>>, i: nat)
    requires i < |groups| && HeadSent(s, next, groups) && groups[i].value.config.Sent?
    ensures 0 < next <= |s.sent| && groups[i].key == GroupOf(s.sent, next - 1)
  {
  }

  /** Of the group of a config still to come, only that very config can be pending. */
  lemma OnlyItself(s: Sender, next: nat, e: Entry<Group>, groups: seq<Entry<Group>>, i: nat, k: nat)
    requires i < |groups| && groups[i] == e && LegalGroups(s, next, groups) && HeadSent(s, next, groups)
    requires next <= k < |s.sent| && s.sent[k].SentConfig? && e.key == GroupOf(s.sent, k)
    ensures e.value.config.NoConfig? || (e.value.config.Ready? && e.value.config.sn == k)
  {
    assert LegalGroup(s, next, e);
    match e.value.config
    case NoConfig =>
    case Ready(sn, _) =>
      ConfigFirst(s.sent, sn, k);
      ConfigFirst(s.sent, k, sn);
    case Sent =>
      SentIsFront(s, next, groups, i);
      GroupOfMonotone(s.sent, next - 1, k);
      assert false;
  }

  /** Why config `k` may be refused. */
  ghost predicate ConfigRefused(s: Sender, p: Pending, k: nat, now: nat, arrived: set<nat>, e: Error)
    requires k < |s.sent| && s.sent[k].SentConfig?
  {
    var size := |PayloadOf(s.sent[k].packet)|;
    || (e.BudgetExceeded? && e.additional == size && NoRoom(p, size, now))
    || (e == TooManyGroups && NoGroupLeft(p, size, now, GroupOf(s.sent, k)))
    || (e == DuplicateConfig && k in arrived)
  }

  function PayloadOf(packet: Packet): Bytes { if packet.Media? then packet.payload else [] }

  lemma InsertStreamFails(s: Sender, next: nat, p: Pending, k: nat, now: nat, arrived: set<nat>)
    requires WellFormed(s) && PendingInv(p) && LegalGroups(s, next, p.groups) && HeadSent(s, next, p.groups)
    requires next <= k < |s.sent| && s.sent[k].SentConfig? && ReadyAmong(p.groups, arrived)
    ensures var r := InsertStream(p, GroupOf(s.sent, k), k, s.sent[k].packet, now).1;
            r.Err? ==> ConfigRefused(s, p, k, now, arrived, r.error)
  {
    var group, size := GroupOf(s.sent, k), |s.sent[k].packet.payload|;
    AdmitFails(p, size, now);
    AdmitInv(p, size, now);
    AdmitLegal(s, next, p, size, now);
    AdmitAmong(p, size, now, arrived);
    var (q, admitted) := Admit(p, size, now);
    if admitted.Ok? {
      PrepareLegal(s, next, q, k);
      PrepareAmong(q, group, arrived);
      var (q1, index) := PrepareGroup(q, group);
      if index.Ok? {
        OnlyItself(s, next, q1.groups[index.value], q1.groups, index.value, k);
      }
    }
  }

  // ----- Runs

  /** The configs delivered. */
  function Arrived(run: seq<Delivery>): set<nat> {
    set d | d in run && d.ConfigRecord? :: d.k
  }

  lemma ArrivedNext(run: seq<Delivery>, d: Delivery)
    ensures Arrived(run + [d]) == Arrived(run) + if d.ConfigRecord? then {d.k} else {}
  {
    forall k ensures k in Arrived(run + [d]) <==> k in Arrived(run) || (d.ConfigRecord? && d.k == k) {
      if d.ConfigRecord? && d.k == k {
        assert d in run + [d];
      }
      if k in Arrived(run) {
        var c :| c in run && c.ConfigRecord? && c.k == k;
        assert c in run + [d];
      }
    }
  }

  lemma StepAmong(solver: Solver, s: Sender, r: Receiver, d: Delivery, arrived: set<nat>)
    requires LegalInv(s, r) && Possible(s, r, d) && ReadyAmong(r.pending.groups, arrived)
    ensures var more := arrived + if d.ConfigRecord? then {d.k} else {};
            ReadyAmong(Apply(solver, r, Wire(s, d)).pending.groups, more)
  {
    match d
    case CodecRecord(_, _) =>
    case ConfigRecord(k, now) =>
      UnrolledTruly(s, r, k);
      StreamAmong(r, s.sent[k].packet, k % RANGE, GroupOf(s.sent, k) % RANGE, now, arrived);
    case MediaSymbol(k, id, at) =>
      SymbolAmong(solver, r, k % RANGE, GroupOf(s.sent, k) % RANGE, s.sent[k].oti, id, s.symbol(k, id), at, arrived);
    case Alarm =>
    case Drain(now) =>
      TakeAmong(r.pending, r.next, now, arrived);
      TakeMoves(r, now);
  }

  lemma StreamAmong(r: Receiver, packet: Packet, rawSn: u32, rawGroup: u32, now: nat, arrived: set<nat>)
    requires ReceiverInv(r) && ReadyAmong(r.pending.groups, arrived)
    ensures ReadyAmong(OnStream(r, packet, rawSn, rawGroup, now).pending.groups,
                       arrived + {Unroll(HALF, r.newestPacket, rawSn)})
  {
    var sn, group := Unroll(HALF, r.newestPacket, rawSn), Unroll(HALF, r.newestGroup, rawGroup);
    InsertStreamAmong(r.pending, group, sn, packet, now, arrived);
  }

  lemma SymbolAmong(solver: Solver, r: Receiver, rawSn: u32, rawGroup: u32, oti: Oti, id: SymbolId, data: Bytes,
                    at: Instants, arrived: set<nat>)
    requires ReceiverInv(r) && ReadyAmong(r.pending.groups, arrived)
    ensures ReadyAmong(OnSymbol(solver, r, rawSn, rawGroup, oti, id, data, at).pending.groups, arrived)
  {
    var sn, group := Unroll(HALF, r.newestPacket, rawSn), Unroll(HALF, r.newestGroup, rawGroup);
    InsertDatagramAmong(solver, r.pending, group, sn, oti, id, data, at, arrived);
  }

  lemma {:induction false} RunAmong(solver: Solver, s: Sender, run: seq<Delivery>)
    requires WellFormed(s) && Sound(solver, s) && LegalRun(solver, s, run)
    ensures ReadyAmong(Reach(solver, s, run).pending.groups, Arrived(run))
  {
    if run != [] {
      var before, last := run[..|run| - 1], run[|run| - 1];
      RunAmong(solver, s, before);
      LegalRunInv(solver, s, before);
      assert run == before + [last];
      NextAmong(solver, s, Reach(solver, s, before), before, last);
    }
  }

  lemma NextAmong(solver: Solver, s: Sender, r: Receiver, run: seq<Delivery>, d: Delivery)
    requires LegalInv(s, r) && Possible(s, r, d) && ReadyAmong(r.pending.groups, Arrived(run))
    ensures ReadyAmong(Apply(solver, r, Wire(s, d)).pending.groups, Arrived(run + [d]))
  {
    StepAmong(solver, s, r, d, Arrived(run));
    ArrivedNext(run, d);
  }

  // ----- The symbols held are among those delivered

  ghost predicate HeldAmong(s: Sender, r: Receiver, run: seq<Delivery>) {
    forall k | 0 <= k < |s.sent| :: SymbolsAmong(ObjectAt(r.pending, GroupOf(s.sent, k), k), Ids(run, k))
  }

  predicate SymbolsAmong(o: Option<Object>, ids: set<SymbolId>) {
    o.Some? && o.value.Open? ==> o.value.symbols.Keys <= ids
  }

  lemma IdsNext(run: seq<Delivery>, d: Delivery, k: nat)
    ensures Ids(run + [d], k) == Ids(run, k) + if d.MediaSymbol? && d.k == k then {d.id} else {}
  {
    assert (run + [d])[..|run|] == run;
  }

  lemma StepHeld(solver: Solver, s: Sender, r: Receiver, run: seq<Delivery>, d: Delivery, k: nat)
    requires LegalInv(s, r) && Possible(s, r, d) && !Apply(solver, r, Wire(s, d)).status.Failed?
    requires k < |s.sent| && SymbolsAmong(ObjectAt(r.pending, GroupOf(s.sent, k), k), Ids(run, k))
    ensures SymbolsAmong(ObjectAt(Apply(solver, r, Wire(s, d)).pending, GroupOf(s.sent, k), k), Ids(run + [d], k))
  {
    var group := GroupOf(s.sent, k);
    IdsNext(run, d, k);
    StepObject(solver, r, Wire(s, d), group, k);
    var was, now := ObjectAt(r.pending, group, k), ObjectAt(Apply(solver, r, Wire(s, d)).pending, group, k);
    if now.Some? && Brings(r, Wire(s, d), group, k) {
      BroughtIsDelivered(s, r, d, k);
      OneMoreAmong(solver, was, Wire(s, d), now.value, Ids(run, k));
    }
  }

  lemma OneMoreAmong(solver: Solver, was: Option<Object>, x: Step, now: Object, ids: set<SymbolId>)
    requires x.Symbol? && Becomes(solver, was, x.oti, x.id, x.data, x.at, now) && SymbolsAmong(was, ids)
    ensures SymbolsAmong(Some(now), ids + {x.id})
  {
  }

  lemma BroughtIsDelivered(s: Sender, r: Receiver, d: Delivery, k: nat)
    requires Possible(s, r, d) && k < |s.sent| && Brings(r, Wire(s, d), GroupOf(s.sent, k), k)
    ensures d.MediaSymbol? && d.k == k && Wire(s, d).id == d.id
  {
    UnrolledTruly(s, r, d.k);
  }

  lemma {:induction false} RunHeld(solver: Solver, s: Sender, run: seq<Delivery>)
    requires WellFormed(s) && Sound(solver, s) && LegalRun(solver, s, run) && !Reach(solver, s, run).status.Failed?
    ensures HeldAmong(s, Reach(solver, s, run), run)
  {
    if run == [] {
      NothingHeldYet(s);
    } else {
      var before, last := run[..|run| - 1], run[|run| - 1];
      EarlierLegal(solver, s, run, before, last);
      RunHeld(solver, s, before);
      LegalRunInv(solver, s, before);
      NextHeld(solver, s, Reach(solver, s, before), before, last, run);
    }
  }

  lemma EarlierLegal(solver: Solver, s: Sender, run: seq<Delivery>, before: seq<Delivery>, last: Delivery)
    requires LegalRun(solver, s, run) && run != [] && before == run[..|run| - 1] && last == run[|run| - 1]
    ensures run == before + [last] && LegalRun(solver, s, before) && !Reach(solver, s, before).status.Failed?
    ensures Possible(s, Reach(solver, s, before), last)
    ensures Reach(solver, s, run) == Apply(solver, Reach(solver, s, before), Wire(s, last))
  {
  }

  lemma NothingHeldYet(s: Sender)
    ensures HeldAmong(s, START, [])
  {
    forall k | 0 <= k < |s.sent| ensures ObjectAt(EMPTY, GroupOf(s.sent, k), k).None? {}
  }

  lemma NextHeld(solver: Solver, s: Sender, r: Receiver, run: seq<Delivery>, d: Delivery, more: seq<Delivery>)
    requires LegalInv(s, r) && Possible(s, r, d) && !Apply(solver, r, Wire(s, d)).status.Failed?
    requires HeldAmong(s, r, run) && more == run + [d]
    ensures HeldAmong(s, Apply(solver, r, Wire(s, d)), more)
  {
    forall k | 0 <= k < |s.sent|
      ensures SymbolsAmong(ObjectAt(Apply(solver, r, Wire(s, d)).pending, GroupOf(s.sent, k), k), Ids(run + [d], k))
    {
      StepHeld(solver, s, r, run, d, k);
    }
  }

  /** A full block was filled by deliveries: with this one they exceed the limit. */
  lemma FullByDeliveries(o: Option<Object>, oti: Oti, id: SymbolId, ids: set<SymbolId>)
    requires BlockFull(o, oti, id) && SymbolsAmong(o, ids)
    ensures |InBlock(ids + {id}, id.block)| > SymbolLimit(oti, id.block)
  {
    var held := InBlock(o.value.symbols.Keys, id.block);
    assert held + {id} <= InBlock(ids + {id}, id.block);
    SubsetSize(held + {id}, InBlock(ids + {id}, id.block));
  }

  lemma {:induction false} SubsetSize(a: set<SymbolId>, b: set<SymbolId>)
    requires a <= b
    ensures |a| <= |b|
  {
    if a != {} {
      var x :| x in a;
      SubsetSize(a - {x}, b - {x});
    }
  }

  // ----- Runs fail for a reason

  /** Why a delivery behind `before` is refused by the buffer `p`. */
  ghost predicate Refused(s: Sender, p: Pending, before: seq<Delivery>, d: Delivery, e: Error)
    requires OfSender(s, d)
  {
    match d
    case ConfigRecord(k, now) => ConfigRefused(s, p, k, now, Arrived(before), e)
    case MediaSymbol(k, id, at) =>
      && SymbolRefused(s, p, k, id, at, e)
      && (e == TooManySymbols ==>
            |InBlock(Ids(before + [d], k), id.block)| > 2 * SourceSymbolsForBlock(s.sent[k].oti, id.block) + 32)
    case _ => false
  }

  lemma StepFails(solver: Solver, s: Sender, before: seq<Delivery>, r: Receiver, d: Delivery)
    requires WellFormed(s) && Sound(solver, s) && LegalInv(s, r) && Possible(s, r, d) && Valid(s, d)
    requires ReadyAmong(r.pending.groups, Arrived(before)) && HeldAmong(s, r, before)
    ensures var status := Apply(solver, r, Wire(s, d)).status;
            status.Failed? ==> Refused(s, r.pending, before, d, status.error)
  {
    match d
    case ConfigRecord(k, now) => ConfigFails(solver, s, before, r, k, now);
    case MediaSymbol(k, id, at) => SymbolFails(solver, s, before, r, k, id, at);
    case _ => OthersSucceed(solver, r, Wire(s, d));
  }

  lemma OthersSucceed(solver: Solver, r: Receiver, x: Step)
    requires Enabled(r, x) && (x.Timer? || x.Take? || (x.Stream? && x.packet.Codec?))
    ensures !Apply(solver, r, x).status.Failed?
  {
  }

  lemma ConfigFails(solver: Solver, s: Sender, before: seq<Delivery>, r: Receiver, k: nat, now: nat)
    requires WellFormed(s) && LegalInv(s, r) && Possible(s, r, ConfigRecord(k, now))
    requires ReadyAmong(r.pending.groups, Arrived(before))
    ensures var status := Apply(solver, r, Wire(s, ConfigRecord(k, now))).status;
            status.Failed? ==> Refused(s, r.pending, before, ConfigRecord(k, now), status.error)
  {
    ConfigEffect(solver, s, r, k, now);
    if r.next <= k {
      InsertStreamFails(s, r.next, r.pending, k, now, Arrived(before));
    } else {
      LateIsIgnored(solver, s, r, ConfigRecord(k, now));
    }
  }

  lemma LateIsIgnored(solver: Solver, s: Sender, r: Receiver, d: Delivery)
    requires WellFormed(s) && Possible(s, r, d) && (d.ConfigRecord? || d.MediaSymbol?) && d.k < r.next
    ensures !Apply(solver, r, Wire(s, d)).status.Failed?
  {
    UnrolledTruly(s, r, d.k);
  }

  lemma SymbolFails(solver: Solver, s: Sender, before: seq<Delivery>, r: Receiver, k: nat, id: SymbolId, at: Instants)
    requires WellFormed(s) && Sound(solver, s) && LegalInv(s, r)
    requires Possible(s, r, MediaSymbol(k, id, at)) && Valid(s, MediaSymbol(k, id, at)) && HeldAmong(s, r, before)
    ensures var status := Apply(solver, r, Wire(s, MediaSymbol(k, id, at))).status;
            status.Failed? ==> Refused(s, r.pending, before, MediaSymbol(k, id, at), status.error)
  {
    SymbolEffect(solver, s, r, k, id, at);
    if r.next <= k {
      InsertDatagramFails(solver, s, r.next, r.pending, k, id, at);
      SymbolReason(s, r, before, k, id, at);
    } else {
      LateIsIgnored(solver, s, r, MediaSymbol(k, id, at));
    }
  }

  lemma SymbolReason(s: Sender, r: Receiver, before: seq<Delivery>, k: nat, id: SymbolId, at: Instants)
    requires k < |s.sent| && s.sent[k].SentMedia? && HeldAmong(s, r, before)
    ensures forall e | SymbolRefused(s, r.pending, k, id, at, e) ::
              Refused(s, r.pending, before, MediaSymbol(k, id, at), e)
  {
    var o := ObjectAt(r.pending, GroupOf(s.sent, k), k);
    if BlockFull(o, s.sent[k].oti, id) {
      assert SymbolsAmong(o, Ids(before, k));
      FullByDeliveries(o, s.sent[k].oti, id, Ids(before, k));
      IdsNext(before, MediaSymbol(k, id, at), k);
    }
  }

  /** A run fed by a legal sender fails only for a reason: there is no room even without the stale
      media; or 32 groups are pending and this is another one; or more symbols of one block were
      delivered than the limit; or a config was delivered before. */
  lemma LegalRunFails(solver: Solver, s: Sender, run: seq<Delivery>)
    requires WellFormed(s) && Sound(solver, s) && LegalRun(solver, s, run) && forall d | d in run :: Valid(s, d)
    ensures var status := Reach(solver, s, run).status;
            status.Failed? ==>
              && run != []
              && var before := run[..|run| - 1];
                 Refused(s, Reach(solver, s, before).pending, before, run[|run| - 1], status.error)
  {
    if run != [] {
      var before, last := run[..|run| - 1], run[|run| - 1];
      LegalRunInv(solver, s, before);
      RunAmong(solver, s, before);
      RunHeld(solver, s, before);
      StepFails(solver, s, before, Reach(solver, s, before), last);
    }
  }

  predicate ConfigsOnce(run: seq<Delivery>) {
    forall i, j | 0 <= i < j < |run| && run[i].ConfigRecord? && run[j].ConfigRecord? :: run[i].k != run[j].k
  }

  /** If each config is delivered at most once, as a reliable stream does, only limits are left. */
  lemma OnlyLimitsFail(solver: Solver, s: Sender, run: seq<Delivery>)
    requires WellFormed(s) && Sound(solver, s) && LegalRun(solver, s, run) && forall d | d in run :: Valid(s, d)
    requires ConfigsOnce(run)
    ensures var status := Reach(solver, s, run).status;
            status.Failed? ==>
              status.error.BudgetExceeded? || status.error == TooManyGroups || status.error == TooManySymbols
  {
    LegalRunFails(solver, s, run);
    if run != [] {
      LastIsNew(run);
    }
  }

  lemma LastIsNew(run: seq<Delivery>)
    requires run != [] && ConfigsOnce(run)
    ensures var last := run[|run| - 1]; last.ConfigRecord? ==> last.k !in Arrived(run[..|run| - 1])
  {
    var before, last := run[..|run| - 1], run[|run| - 1];
    forall d | d in before && d.ConfigRecord? ensures last.ConfigRecord? ==> d.k != last.k {
      var i :| 0 <= i < |before| && before[i] == d;
      assert run[i] == d;
    }
  }
}
