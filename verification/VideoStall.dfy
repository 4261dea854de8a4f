/** After a stall: when a new symbol or config gets into a buffer whose media is all stale, and a run
    of a legal sender in which a config does not. */
module VideoStall {
  import opened Wrappers
  import opened SortedVec
  import opened AvPacket
  import opened Fec
  import opened Sequencer
  import opened VideoGroup
  import opened VideoPending
  import opened VideoInvariant
  import opened VideoAdmission
  import opened VideoReceiver
  import opened VideoSender
  import opened VideoDelivery

  // ----- A first symbol

  /** Valid by itself; and if it completes its object, that is a media packet. */
  predicate Acceptable(solver: Solver, oti: Oti, id: SymbolId, data: Bytes) {
    && ValidOti(oti, MAX_VIDEO_PAYLOAD) && ValidateSymbol(oti, id, |data|).Ok?
    && (solver(oti, map[id := data]).Some? ==> MediaPacket(solver(oti, map[id := data]).value).Ok?)
  }

  lemma FirstDecode(solver: Solver, oti: Oti, id: SymbolId, data: Bytes)
    requires Acceptable(solver, oti, id, data)
    ensures var (d, r) := Decode(solver, NewDecoder(oti), oti, id, data);
            r == Ok(solver(oti, map[id := data])) && d.oti == oti
  {
    assert map[][id := data] == map[id := data];
  }

  lemma HasInserted<T>(xs: seq<Entry<T>>, e: Entry<T>)
    ensures Has(InsertAt(xs, Search(xs, e.key), e), e.key)
  {
    SearchInserted(xs, e);
  }

  lemma HasUpdated<T>(xs: seq<Entry<T>>, k: nat, v: T)
    requires Has(xs, k)
    ensures Has(xs[Search(xs, k) := Entry(k, v)], k)
  {
    var i := Search(xs, k);
    var ys := xs[i := Entry(k, v)];
    var j := Search(ys, k);
    assert ys[i].key == k && forall n | 0 <= n < i :: ys[n] == xs[n];
    assert j == i;
  }

  lemma FirstFeed(solver: Solver, g: Group, sn: nat, oti: Oti, id: SymbolId, data: Bytes, now: nat)
    requires Acceptable(solver, oti, id, data) && Has(g.segments, sn)
    requires g.segments[Search(g.segments, sn)].value.decoder == NewDecoder(oti)
    ensures var (h, r) := FeedSegments(solver, g, sn, oti, id, data, now);
            r.Ok? && Contains(h, sn)
  {
    FirstDecode(solver, oti, id, data);
    var i := Search(g.segments, sn);
    var s := g.segments[i].value;
    var (decoder, r) := Decode(solver, s.decoder, oti, id, data);
    var fed := s.(decoder := decoder, assembled := r.value);
    if r.value.None? {
      HasUpdated(g.segments, sn, fed);
    } else {
      var d := Assemble(fed, now).value;
      var rest := g.(segments := RemoveAt(g.segments, i));
      if !Has(rest.datagrams, sn) {
        HasInserted(rest.datagrams, Entry(sn, d));
      }
    }
  }

  /** The first symbol of an object is taken into its group. */
  lemma FirstSymbol(solver: Solver, g: Group, sn: nat, oti: Oti, id: SymbolId, data: Bytes, at: Instants)
    requires Acceptable(solver, oti, id, data) && !Contains(g, sn)
    ensures var (h, r) := InsertSymbol(solver, g, sn, oti, id, data, at);
            r.Ok? && Contains(h, sn)
  {
    var e := Entry(sn, Segments(NewDecoder(oti), None, at.created));
    SearchInserted(g.segments, e);
    var prepared := PrepareSegments(g, sn, oti, at.created).value;
    assert prepared.segments[Search(g.segments, sn)] == e;
    FirstFeed(solver, prepared, sn, oti, id, data, at.assembled);
  }

  lemma FirstAdmitted(solver: Solver, q: Pending, group: nat, sn: nat, oti: Oti, id: SymbolId, data: Bytes,
                      at: Instants)
    requires PendingInv(q) && Acceptable(solver, oti, id, data)
    requires !InOtherGroup(q.groups, group, sn) && !InOwnGroup(q.groups, group, sn)
    ensures var (p, r) := InsertAdmitted(solver, q, group, sn, oti, id, data, at);
            && (r.Err? <==> !Has(q.groups, group) && |q.groups| >= MAX_PENDING_GROUPS)
            && (r.Err? ==> r.error == TooManyGroups)
            && (r.Ok? ==> IsPending(p, sn))
  {
    OnlyOwnGroup(q, group, sn);
    var (p, index) := PrepareGroup(q, group);
    if index.Ok? {
      var i := index.value;
      FirstSymbol(solver, p.groups[i].value, sn, oti, id, data, at);
      var h := InsertSymbol(solver, p.groups[i].value, sn, oti, id, data, at).0;
      assert p.groups[i := Entry(group, h)][i].value == h;
    }
  }

  /** Once all pending media is stale, the first symbol of a packet that is not pending is refused if
      and only if, after admission has made room, its group is not there and 32 groups are; unless
      its number was retired, it is then pending. */
  lemma StallInsertSymbol(solver: Solver, p: Pending, group: nat, sn: nat, oti: Oti, id: SymbolId, data: Bytes,
                          at: Instants)
    requires PendingInv(p) && AllStale(p.groups, at.admitted) && Acceptable(solver, oti, id, data)
    requires !InOtherGroup(p.groups, group, sn) && !InOwnGroup(p.groups, group, sn)
    ensures var q := Admit(p, Reservation(oti), at.admitted).0;
            var (p', r) := InsertDatagram(solver, p, group, sn, oti, id, data, at);
            && (r.Err? <==> !Retired(q, sn) && !Has(q.groups, group) && |q.groups| >= MAX_PENDING_GROUPS)
            && (r.Err? ==> r.error == TooManyGroups)
            && (r.Ok? ==> Retired(q, sn) || IsPending(p', sn))
  {
    StallRecovery(p, oti, at.admitted);
    AdmitInv(p, Reservation(oti), at.admitted);
    AdmitFrontier(p, Reservation(oti), at.admitted);
    AdmitOnlyRemoves(p, Reservation(oti), at.admitted, group, sn);
    FirstAdmitted(solver, Admit(p, Reservation(oti), at.admitted).0, group, sn, oti, id, data, at);
  }

  // ----- A config

  /** Likewise a config is refused if and only if its group has one already, or is not there and 32
      groups are. */
  lemma StallInsertConfig(p: Pending, group: nat, sn: nat, packet: Packet, now: nat)
    requires PendingInv(p) && AllStale(p.groups, now)
    requires packet.Media? && packet.media.isConfig && |packet.payload| <= MAX_CONFIG_PAYLOAD
    ensures var q := Admit(p, |packet.payload|, now).0;
            var (p', r) := InsertStream(p, group, sn, packet, now);
            var i := Search(q.groups, group);
            && (r.Err? <==> if Has(q.groups, group) then !q.groups[i].value.config.NoConfig?
                            else |q.groups| >= MAX_PENDING_GROUPS)
            && (r.Err? ==> r.error == if Has(q.groups, group) then DuplicateConfig else TooManyGroups)
            && (r.Ok? ==> i < |p'.groups| && p'.groups[i].key == group
                          && p'.groups[i].value.config == Ready(sn, packet))
  {
    StallRecoveryConfig(p, |packet.payload|, now);
  }

  // ----- A legal sender whose media is all lost

  /** Config, media, config, media, ...: 33 configs. */
  ghost predicate Alternates(s: Sender) {
    && |s.sent| > 64
    && (forall i | 0 <= i <= 32 :: s.sent[2 * i].SentConfig?)
    && (forall i | 0 <= i < 32 :: s.sent[2 * i + 1].SentMedia?)
  }

  lemma {:induction false} ConfigGroup(s: Sender, i: nat)
    requires Alternates(s) && i <= 32
    ensures Groups(s.sent[..2 * i + 1]) == i + 1 && GroupOf(s.sent, 2 * i) == i + 1
  {
    var upTo := s.sent[..2 * i + 1];
    if i == 0 {
      assert upTo[..0] == [];
    } else {
      ConfigGroup(s, i - 1);
      var media := s.sent[..2 * i];
      assert upTo[..2 * i] == media && upTo[2 * i] == s.sent[2 * i];
      assert media[..2 * i - 1] == s.sent[..2 * (i - 1) + 1] && media[2 * i - 1] == s.sent[2 * (i - 1) + 1];
    }
  }

  /** The first config was forwarded; the others wait behind the media that was lost. */
  function Waiters(s: Sender, j: nat): seq<Entry<Group>>
    requires |s.sent| > 64 && j <= 33 && forall i | 0 <= i <= 32 :: s.sent[2 * i].SentConfig?
  {
    seq(j, i requires 0 <= i < j => Waiter(i, s.sent[2 * i].packet))
  }

  function Waiter(i: nat, packet: Packet): Entry<Group> {
    Entry(i + 1, Group(if i == 0 then Sent else Ready(2 * i, packet), [], []))
  }

  /** The configs one after the other, as the reliable stream delivers them, and no media. */
  function OnlyConfigs(j: nat, now: nat): seq<Delivery> {
    if j == 0 then []
    else if j == 1 then [ConfigRecord(0, now), Drain(now), Drain(now)]
    else OnlyConfigs(j - 1, now) + [ConfigRecord(2 * (j - 1), now)] + [Drain(now)]
  }

  /** The receiver after `j` configs. */
  ghost predicate After(solver: Solver, s: Sender, run: seq<Delivery>, j: nat, status: Status)
    requires Alternates(s) && 1 <= j <= 33
  {
    LegalRun(solver, s, run) && Is(s, Reach(solver, s, run), j, status)
  }

  ghost predicate Is(s: Sender, r: Receiver, j: nat, status: Status)
    requires Alternates(s) && 1 <= j <= 33
  {
    && r.pending == Pending(Waiters(s, j), None, NO_STATS) && r.next == 1 && r.status == status
    && r.newestPacket == 2 * (j - 1) && r.newestGroup == j
  }

  lemma RunNext(solver: Solver, s: Sender, run: seq<Delivery>, d: Delivery)
    requires LegalRun(solver, s, run) && Possible(s, Reach(solver, s, run), d)
    ensures LegalRun(solver, s, run + [d])
    ensures Reach(solver, s, run + [d]) == Apply(solver, Reach(solver, s, run), Wire(s, d))
  {
    var more := run + [d];
    assert more[..|run|] == run;
  }

  // Inserting the next config

  lemma WaitersFit(s: Sender, j: nat, size: nat)
    requires Alternates(s) && WellFormed(s) && 1 <= j <= 32 && size <= MAX_CONFIG_PAYLOAD
    ensures CheckCapacity(Pending(Waiters(s, j), None, NO_STATS), size).Ok?
  {
    var groups := Waiters(s, j);
    forall i | 0 <= i < |groups| ensures ConfigOk(groups[i].value.config) && !Holds(groups[i].value) {
      assert s.sent[2 * i].SentConfig?;
    }
    ConfigsLeaveRoom(groups, size);
  }

  lemma PlaceAtEnd(s: Sender, j: nat)
    requires Alternates(s) && 1 <= j <= 32
    ensures Search(Waiters(s, j), j + 1) == j && !Has(Waiters(s, j), j + 1)
  {
    var groups := Waiters(s, j);
    assert forall i | 0 <= i < |groups| :: groups[i].key == i + 1;
  }

  lemma Appended(s: Sender, j: nat, e: Entry<Group>)
    requires Alternates(s) && 1 <= j <= 32 && e == Waiter(j, s.sent[2 * j].packet)
    ensures Waiters(s, j) + [e] == Waiters(s, j + 1)
  {
  }

  lemma NextConfig(s: Sender, j: nat, now: nat)
    requires Alternates(s) && WellFormed(s) && 1 <= j <= 32
    ensures var packet := s.sent[2 * j].packet;
            InsertStream(Pending(Waiters(s, j), None, NO_STATS), j + 1, 2 * j, packet, now) ==
            if j < 32 then (Pending(Waiters(s, j + 1), None, NO_STATS), Ok(()))
            else (Pending(Waiters(s, j), None, NO_STATS), Err(TooManyGroups))
  {
    var p, packet := Pending(Waiters(s, j), None, NO_STATS), s.sent[2 * j].packet;
    WaitersFit(s, j, |packet.payload|);
    assert Admit(p, |packet.payload|, now) == (p, Ok(()));
    PlaceAtEnd(s, j);
    if j < 32 {
      var empty, e := Entry(j + 1, EMPTY_GROUP), Waiter(j, packet);
      assert InsertAt(p.groups, j, empty) == p.groups + [empty];
      assert (p.groups + [empty])[j := e] == p.groups + [e];
      Appended(s, j, e);
    }
  }

  lemma NumbersUnrolled(s: Sender, j: nat)
    requires Alternates(s) && 1 <= j <= 32
    ensures Unroll(HALF, 2 * (j - 1), (2 * j) % RANGE) == 2 * j
    ensures Unroll(HALF, j, GroupOf(s.sent, 2 * j) % RANGE) == j + 1 == GroupOf(s.sent, 2 * j)
  {
    ConfigGroup(s, j);
  }

  lemma ConfigEffect(s: Sender, r: Receiver, j: nat, now: nat)
    requires Alternates(s) && WellFormed(s) && 1 <= j <= 32 && Is(s, r, j, Waiting)
    ensures var r' := OnStream(r, s.sent[2 * j].packet, (2 * j) % RANGE, GroupOf(s.sent, 2 * j) % RANGE, now);
            if j < 32 then Is(s, r', j + 1, Draining) else r'.status == Failed(TooManyGroups)
  {
    NumbersUnrolled(s, j);
    NextConfig(s, j, now);
  }

  lemma ConfigDelivered(solver: Solver, s: Sender, run: seq<Delivery>, j: nat, now: nat)
    requires Alternates(s) && WellFormed(s) && 1 <= j <= 32 && After(solver, s, run, j, Waiting)
    ensures LegalRun(solver, s, run + [ConfigRecord(2 * j, now)])
    ensures var r := Reach(solver, s, run + [ConfigRecord(2 * j, now)]);
            if j < 32 then Is(s, r, j + 1, Draining) else r.status == Failed(TooManyGroups)
  {
    ConfigGroup(s, j);
    ConfigEffect(s, Reach(solver, s, run), j, now);
    assert s.sent[2 * j].SentConfig?;
    RunNext(solver, s, run, ConfigRecord(2 * j, now));
  }

  // Nothing is forwarded

  lemma {:induction false} NoneOffered(p: Pending, from: nat, next: nat, now: nat)
    requires from <= |p.groups| && forall i | from <= i < |p.groups| :: GroupOffer(p, i, next, now) == Nothing
    ensures NextFrom(p, from, next, now) == Nothing
    decreases |p.groups| - from
  {
    if from < |p.groups| {
      NoneOffered(p, from + 1, next, now);
    }
  }

  lemma WaitersWait(s: Sender, j: nat, now: nat)
    requires Alternates(s) && 1 <= j <= 33
    ensures var p := Pending(Waiters(s, j), None, NO_STATS); TakeNext(p, 1, now) == (p, NoAction)
  {
    var p := Pending(Waiters(s, j), None, NO_STATS);
    forall i | 0 <= i < |p.groups| ensures GroupOffer(p, i, 1, now) == Nothing {
      assert p.groups[i] == Waiter(i, s.sent[2 * i].packet);
    }
    NoneOffered(p, 0, 1, now);
  }

  lemma DrainWaits(solver: Solver, s: Sender, run: seq<Delivery>, j: nat, now: nat)
    requires Alternates(s) && 1 <= j <= 33 && After(solver, s, run, j, Draining)
    ensures After(solver, s, run + [Drain(now)], j, Waiting)
  {
    WaitersWait(s, j, now);
    RunNext(solver, s, run, Drain(now));
  }

  // The first config is forwarded

  lemma FirstArrives(s: Sender, now: nat)
    requires Alternates(s) && WellFormed(s) && s.sent[0].SentConfig?
    ensures InsertStream(EMPTY, 1, 0, s.sent[0].packet, now) ==
            (Pending([Entry(1, Group(Ready(0, s.sent[0].packet), [], []))], None, NO_STATS), Ok(()))
  {
    assert s.sent[2 * 0].SentConfig?;
    var packet, e := s.sent[0].packet, Entry(1, EMPTY_GROUP);
    assert Admit(EMPTY, |packet.payload|, now) == (EMPTY, Ok(()));
    assert InsertAt([], 0, e) == [e];
    assert PrepareGroup(EMPTY, 1) == (EMPTY.(groups := [e]), Ok(0));
    var g := Entry(1, Group(Ready(0, packet), [], []));
    assert [e][0 := g] == [g];
  }

  lemma FirstForwarded(s: Sender, now: nat)
    requires Alternates(s) && s.sent[0].SentConfig?
    ensures var p := Pending([Entry(1, Group(Ready(0, s.sent[0].packet), [], []))], None, NO_STATS);
            var (q, a) := TakeNext(p, 0, now);
            q == Pending(Waiters(s, 1), None, NO_STATS) && a.Forward? && a.sn == 0
  {
    assert s.sent[2 * 0].SentConfig?;
    var p := Pending([Entry(1, Group(Ready(0, s.sent[0].packet), [], []))], None, NO_STATS);
    assert GroupOffer(p, 0, 0, now) == ReadyAt(0, true);
    assert p.groups[1..] == [];
    assert Waiters(s, 1) == [Waiter(0, s.sent[2 * 0].packet)];
    assert TakeConfig(p, 0).0.groups == Waiters(s, 1);
  }

  lemma FirstEffect(s: Sender, now: nat)
    requires Alternates(s) && WellFormed(s) && s.sent[0].SentConfig?
    ensures GroupOf(s.sent, 0) == 1
    ensures var r := OnStream(START, s.sent[0].packet, 0, 1, now);
            r == START.(newestGroup := 1, status := Draining,
                        pending := Pending([Entry(1, Group(Ready(0, s.sent[0].packet), [], []))], None, NO_STATS))
  {
    ConfigGroup(s, 0);
    FirstArrives(s, now);
    assert Unroll(HALF, 0, 0) == 0 && Unroll(HALF, 0, 1) == 1;
  }

  lemma FirstTaken(s: Sender, now: nat)
    requires Alternates(s) && WellFormed(s) && s.sent[0].SentConfig?
    ensures Is(s, OnTake(OnStream(START, s.sent[0].packet, 0, 1, now), now), 1, Draining)
  {
    FirstEffect(s, now);
    FirstForwarded(s, now);
  }

  lemma FirstDelivered(solver: Solver, s: Sender, run: seq<Delivery>, now: nat)
    requires Alternates(s) && WellFormed(s) && s.sent[0].SentConfig? && run == []
    ensures LegalRun(solver, s, run + [ConfigRecord(0, now)])
    ensures Reach(solver, s, run + [ConfigRecord(0, now)]) == OnStream(START, s.sent[0].packet, 0, 1, now)
  {
    FirstEffect(s, now);
    RunNext(solver, s, run, ConfigRecord(0, now));
  }

  lemma FirstDrained(solver: Solver, s: Sender, run: seq<Delivery>, now: nat)
    requires Alternates(s) && WellFormed(s) && s.sent[0].SentConfig?
    requires LegalRun(solver, s, run) && Reach(solver, s, run) == OnStream(START, s.sent[0].packet, 0, 1, now)
    ensures After(solver, s, run + [Drain(now)], 1, Draining)
  {
    FirstEffect(s, now);
    FirstTaken(s, now);
    RunNext(solver, s, run, Drain(now));
  }

  lemma FirstConfig(solver: Solver, s: Sender, now: nat)
    requires Alternates(s) && WellFormed(s)
    ensures After(solver, s, OnlyConfigs(1, now), 1, Waiting)
  {
    assert s.sent[2 * 0].SentConfig?;
    var c, d := ConfigRecord(0, now), Drain(now);
    FirstThree(solver, s, [], now);
    assert [] + [c] + [d] + [d] == OnlyConfigs(1, now);
  }

  lemma FirstThree(solver: Solver, s: Sender, run: seq<Delivery>, now: nat)
    requires Alternates(s) && WellFormed(s) && s.sent[0].SentConfig? && run == []
    ensures After(solver, s, run + [ConfigRecord(0, now)] + [Drain(now)] + [Drain(now)], 1, Waiting)
  {
    FirstDelivered(solver, s, run, now);
    FirstDrained(solver, s, run + [ConfigRecord(0, now)], now);
    DrainWaits(solver, s, run + [ConfigRecord(0, now)] + [Drain(now)], 1, now);
  }

  lemma {:induction false} ConfigsWait(solver: Solver, s: Sender, j: nat, now: nat)
    requires Alternates(s) && WellFormed(s) && 1 <= j <= 32
    ensures After(solver, s, OnlyConfigs(j, now), j, Waiting)
  {
    if j == 1 {
      FirstConfig(solver, s, now);
    } else {
      ConfigsWait(solver, s, j - 1, now);
      OneMore(solver, s, OnlyConfigs(j - 1, now), j - 1, now);
    }
  }

  lemma OneMore(solver: Solver, s: Sender, run: seq<Delivery>, j: nat, now: nat)
    requires Alternates(s) && WellFormed(s) && 1 <= j < 32 && After(solver, s, run, j, Waiting)
    ensures After(solver, s, run + [ConfigRecord(2 * j, now)] + [Drain(now)], j + 1, Waiting)
  {
    ConfigDelivered(solver, s, run, j, now);
    DrainWaits(solver, s, run + [ConfigRecord(2 * j, now)], j + 1, now);
  }

  /** A sender that alternates configs and media, all of whose media is lost: 32 configs are taken in,
      31 of them waiting for media, and the next one ends the receiver with an error, although no
      media is pending, the budget is far from used up and every message is legal. */
  lemma RefusedForGroups(solver: Solver, s: Sender, now: nat)
    requires Alternates(s) && WellFormed(s)
    ensures var run := OnlyConfigs(32, now) + [ConfigRecord(64, now)];
            LegalRun(solver, s, run) && Reach(solver, s, run).status == Failed(TooManyGroups)
  {
    ConfigsWait(solver, s, 32, now);
    ConfigDelivered(solver, s, OnlyConfigs(32, now), 32, now);
  }
}
