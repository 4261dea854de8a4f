/** The video receiver with one media packet, completed by its first symbol, and one config of the
    same group: every step from the empty buffer until both are forwarded. */
module VideoPair {
  import opened Wrappers
  import opened SortedVec
  import opened AvPacket
  import opened Fec
  import opened VideoGroup
  import opened VideoPending

  function Alone(group: nat, config: Config, ds: seq<Entry<Datagram>>): Pending {
    Pending([Entry(group, Group(config, ds, []))], None, NO_STATS)
  }

  /** The symbol is valid and completes the packet by itself. */
  predicate Completes(solver: Solver, oti: Oti, id: SymbolId, data: Bytes, media: Packet) {
    && ValidOti(oti, MAX_VIDEO_PAYLOAD) && ValidateSymbol(oti, id, |data|).Ok?
    && solver(oti, map[id := data]).Some?
    && MediaPacket(solver(oti, map[id := data]).value) == Ok(media)
  }

  lemma ObjectOpens(sn: nat, oti: Oti, now: nat)
    requires ValidOti(oti, MAX_VIDEO_PAYLOAD)
    ensures PrepareSegments(EMPTY_GROUP, sn, oti, now) ==
            Ok(Group(NoConfig, [], [Entry(sn, Segments(NewDecoder(oti), None, now))]))
  {
    var e := Entry(sn, Segments(NewDecoder(oti), None, now));
    assert InsertAt([], 0, e) == [e];
  }

  lemma ObjectCompletes(solver: Solver, sn: nat, oti: Oti, id: SymbolId, data: Bytes, media: Packet, at: Instants)
      returns (d: Datagram)
    requires Completes(solver, oti, id, data, media)
    ensures InsertSymbol(solver, EMPTY_GROUP, sn, oti, id, data, at) ==
            (Group(NoConfig, [Entry(sn, d)], []), Ok(()))
    ensures d.oti == oti && d.packet == media && d.instant == at.assembled
  {
    ObjectOpens(sn, oti, at.created);
    var segments := Segments(NewDecoder(oti), None, at.created);
    var e := Entry(sn, segments);
    assert Search([e], sn) == 0;
    var (decoder, r) := Decode(solver, segments.decoder, oti, id, data);
    assert map[][id := data] == map[id := data];
    assert r == Ok(solver(oti, map[id := data]));
    d := Assemble(segments.(decoder := decoder, assembled := r.value), at.assembled).value;
    assert RemoveAt([e], 0) == [];
    assert InsertAt([], 0, Entry(sn, d)) == [Entry(sn, d)];
  }

  lemma EmptyAdmits(oti: Oti, now: nat)
    requires ValidOti(oti, MAX_VIDEO_PAYLOAD)
    ensures Admit(EMPTY, Reservation(oti), now) == (EMPTY, Ok(()))
  {
    ReservationLeavesRoomForConfigs(oti);
  }

  lemma GroupOpens(group: nat)
    ensures PrepareGroup(EMPTY, group) == (Alone(group, NoConfig, []), Ok(0))
  {
    var e := Entry(group, EMPTY_GROUP);
    assert InsertAt([], 0, e) == [e];
  }

  lemma MediaArrives(solver: Solver, group: nat, sn: nat, oti: Oti, id: SymbolId, data: Bytes, media: Packet,
                     at: Instants) returns (d: Datagram)
    requires Completes(solver, oti, id, data, media)
    ensures InsertDatagram(solver, EMPTY, group, sn, oti, id, data, at) ==
            (Alone(group, NoConfig, [Entry(sn, d)]), Ok(()))
    ensures d.oti == oti && d.packet == media && d.instant == at.assembled
  {
    EmptyAdmits(oti, at.admitted);
    EmptyInserts(solver, group, sn, oti, id, data, at);
    d := MediaOpens(solver, group, sn, oti, id, data, media, at);
  }

  lemma EmptyInserts(solver: Solver, group: nat, sn: nat, oti: Oti, id: SymbolId, data: Bytes, at: Instants)
    requires ValidOti(oti, MAX_VIDEO_PAYLOAD) && Admit(EMPTY, Reservation(oti), at.admitted) == (EMPTY, Ok(()))
    ensures InsertDatagram(solver, EMPTY, group, sn, oti, id, data, at) ==
            InsertAdmitted(solver, EMPTY, group, sn, oti, id, data, at)
  {
  }

  lemma MediaOpens(solver: Solver, group: nat, sn: nat, oti: Oti, id: SymbolId, data: Bytes, media: Packet,
                   at: Instants) returns (d: Datagram)
    requires Completes(solver, oti, id, data, media)
    ensures InsertAdmitted(solver, EMPTY, group, sn, oti, id, data, at) ==
            (Alone(group, NoConfig, [Entry(sn, d)]), Ok(()))
    ensures d.oti == oti && d.packet == media && d.instant == at.assembled
  {
    GroupOpens(group);
    d := ObjectCompletes(solver, sn, oti, id, data, media, at);
    var g := Group(NoConfig, [Entry(sn, d)], []);
    assert Alone(group, NoConfig, []).groups[0 := Entry(group, g)] == [Entry(group, g)];
  }

  lemma OneFits(group: nat, e: Entry<Datagram>, size: nat)
    requires ValidOti(e.value.oti, MAX_VIDEO_PAYLOAD) && size <= MAX_CONFIG_PAYLOAD
    ensures CheckCapacity(Alone(group, NoConfig, [e]), size).Ok?
  {
    var p := Alone(group, NoConfig, [e]);
    ReservationLeavesRoomForConfigs(e.value.oti);
    SumOne(e, DatagramCharge);
    SumOne(p.groups[0], Objects);
    SumOne(p.groups[0], Charge);
  }

  lemma ConfigArrives(group: nat, sn: nat, packet: Packet, e: Entry<Datagram>, now: nat)
    requires packet.Media? && packet.media.isConfig && |packet.payload| <= MAX_CONFIG_PAYLOAD
    requires ValidOti(e.value.oti, MAX_VIDEO_PAYLOAD)
    ensures InsertStream(Alone(group, NoConfig, [e]), group, sn, packet, now) ==
            (Alone(group, Ready(sn, packet), [e]), Ok(()))
  {
    var p := Alone(group, NoConfig, [e]);
    OneFits(group, e, |packet.payload|);
    assert Admit(p, |packet.payload|, now) == (p, Ok(()));
    assert Search(p.groups, group) == 0;
    assert PrepareGroup(p, group) == (p, Ok(0));
    var g := Group(Ready(sn, packet), [e], []);
    assert p.groups[0 := Entry(group, g)] == [Entry(group, g)];
  }

  // ----- Takes

  lemma MinAlone(group: nat, config: Config, e: Entry<Datagram>)
    ensures MinInstant(Alone(group, config, [e])) == Some(e.value.instant)
  {
    var p := Alone(group, config, [e]);
    assert p.groups[1..] == [] && [e][1..] == [];
    assert MinDatagram([e], None) == Some(e.value.instant);
    assert MinInstantFrom(p.groups[1..], Some(e.value.instant)) == Some(e.value.instant);
  }

  lemma MinNone(group: nat, config: Config)
    ensures MinInstant(Alone(group, config, [])) == None
  {
    var p := Alone(group, config, []);
    assert p.groups[1..] == [];
    assert MinInstantFrom(p.groups[1..], None) == None;
  }

  lemma NothingOffered(group: nat, config: Config, ds: seq<Entry<Datagram>>, next: nat, now: nat)
    requires config.NoConfig? || (config.Sent? && ds == [])
    ensures TakeNext(Alone(group, config, ds), next, now) == (Alone(group, config, ds), NoAction)
  {
    var p := Alone(group, config, ds);
    assert GroupOffer(p, 0, next, now) == Nothing;
    assert NextFrom(p, 1, next, now) == Nothing;
  }

  /** The packet is the next one, or has waited out the window. */
  predicate Due(e: Entry<Datagram>, next: nat, now: nat) {
    e.key == next || e.value.instant + MAX_BUFFERING <= now
  }

  lemma ConfigTaken(group: nat, sn: nat, packet: Packet, e: Entry<Datagram>, next: nat, now: nat)
    requires sn == next || Due(e, next, now)
    ensures var (q, a) := TakeNext(Alone(group, Ready(sn, packet), [e]), next, now);
            q == Alone(group, Sent, [e]) && a.Forward? && a.sn == sn && a.packet == packet && a.group == group
  {
    var p := Alone(group, Ready(sn, packet), [e]);
    MinAlone(group, Ready(sn, packet), e);
    assert GroupOffer(p, 0, next, now) == ReadyAt(0, true);
    assert p.groups[1..] == [];
    assert TakeConfig(p, 0).0.groups == Alone(group, Sent, [e]).groups;
  }

  lemma MediaTaken(group: nat, e: Entry<Datagram>, next: nat, now: nat)
    requires Due(e, next, now)
    ensures var (q, a) := TakeNext(Alone(group, Sent, [e]), next, now);
            q == Alone(group, Sent, []) && a.Forward? && a.sn == e.key && a.packet == e.value.packet && a.group == group
  {
    var p := Alone(group, Sent, [e]);
    MinAlone(group, Sent, e);
    assert GroupOffer(p, 0, next, now) == ReadyAt(0, false);
    assert p.groups[1..] == [] && [e][1..] == [];
    assert TakeDatagram(p, 0).0.groups == Alone(group, Sent, []).groups;
  }
}
