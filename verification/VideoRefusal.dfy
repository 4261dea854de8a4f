/** When the video receiver refuses a message, exactly, in every state it can reach and for any peer
    (kyproto/src/protocol/driver/av/video_unreliable_fec.rs). */
module VideoRefusal {
  import opened Wrappers
  import opened SortedVec
  import opened AvPacket
  import opened Fec
  import opened FecExact
  import opened Sequencer
  import opened VideoGroup
  import opened VideoPending
  import opened VideoInvariant
  import opened VideoAdmission
  import opened VideoReceiver
  import opened VideoExact
  import opened VideoObjects
  import opened VideoErrors

  /** The symbol completes something that is not a media packet. */
  predicate Unacceptable(solver: Solver, symbols: map<SymbolId, Bytes>, oti: Oti, id: SymbolId, data: Bytes) {
    id !in symbols && solver(oti, symbols[id := data]).Some?
    && MediaPacket(solver(oti, symbols[id := data]).value).Err?
  }

  predicate BadSymbol(oti: Oti, id: SymbolId, data: Bytes) { id.block >= oti.blocks || |data| != oti.symbolSize }

  /** Why a symbol is refused by the object it is for, or by a new one. */
  ghost predicate ObjectRefuses(solver: Solver, o: Option<Object>, oti: Oti, id: SymbolId, data: Bytes) {
    match o
    case Some(Done(was, _, _, _)) => was != oti
    case Some(Open(was, symbols, _)) =>
      || was != oti || BadSymbol(oti, id, data) || BlockFull(o, oti, id) || Unacceptable(solver, symbols, oti, id, data)
    case None => BadSymbol(oti, id, data) || Unacceptable(solver, map[], oti, id, data)
  }

  lemma FeedRefuses(solver: Solver, g: Group, sn: nat, oti: Oti, id: SymbolId, data: Bytes, now: nat)
    requires GroupOk(g) && Has(g.segments, sn)
    ensures FeedSegments(solver, g, sn, oti, id, data, now).1.Err? <==>
            ObjectRefuses(solver, ObjectIn(g, sn), oti, id, data)
  {
    OpenIn(g, sn);
    DecodeExact(solver, g.segments[Search(g.segments, sn)].value.decoder, oti, id, data);
  }

  lemma FirstRefuses(solver: Solver, g: Group, sn: nat, oti: Oti, id: SymbolId, data: Bytes, at: Instants)
    requires GroupOk(g) && ValidOti(oti, MAX_VIDEO_PAYLOAD) && !Has(g.datagrams, sn) && !Has(g.segments, sn)
    ensures InsertSymbol(solver, g, sn, oti, id, data, at).1.Err? <==> ObjectRefuses(solver, None, oti, id, data)
  {
    PrepareSegmentsOk(g, sn, oti, at.created);
    var prepared := PrepareSegments(g, sn, oti, at.created).value;
    OpenedObject(g, sn, oti, at.created, sn);
    FirstIsTaken(g, sn, oti, id, at.created);
    FeedRefuses(solver, prepared, sn, oti, id, data, at.assembled);
    OpenIn(prepared, sn);
    NewHasNone(oti);
  }

  lemma NewHasNone(oti: Oti)
    ensures NewDecoder(oti).received == map[]
  {
  }

  lemma GroupRefuses(solver: Solver, g: Group, sn: nat, oti: Oti, id: SymbolId, data: Bytes, at: Instants)
    requires GroupOk(g) && ValidOti(oti, MAX_VIDEO_PAYLOAD)
    ensures InsertSymbol(solver, g, sn, oti, id, data, at).1.Err? <==>
            ObjectRefuses(solver, ObjectIn(g, sn), oti, id, data)
  {
    if Has(g.datagrams, sn) {
    } else if Has(g.segments, sn) {
      FeedRefuses(solver, g, sn, oti, id, data, at.assembled);
    } else {
      FirstRefuses(solver, g, sn, oti, id, data, at);
    }
  }

  lemma AdmittedRefuses(solver: Solver, p: Pending, group: nat, sn: nat, oti: Oti, id: SymbolId, data: Bytes,
                        at: Instants)
    requires PendingInv(p) && ValidOti(oti, MAX_VIDEO_PAYLOAD)
    ensures InsertAdmitted(solver, p, group, sn, oti, id, data, at).1.Err? <==>
            || (|p.groups| == MAX_PENDING_GROUPS && !Has(p.groups, group))
            || ObjectRefuses(solver, ObjectAt(p, group, sn), oti, id, data)
  {
    LookupPrepare(p, group, group);
    LookupOk(p.groups, group);
    GroupRefuses(solver, Lookup(p.groups, group), sn, oti, id, data, at);
  }

  /** Why a symbol is refused: parameters that are not acceptable; or, unless its number was retired,
      the packet is pending in another group, the object it is for refuses it, or, for a new object,
      there is no room, or no group left. */
  ghost predicate SymbolIsRefused(solver: Solver, p: Pending, group: nat, sn: nat, oti: Oti, id: SymbolId, data: Bytes,
                                  now: nat)
  {
    || !ValidOti(oti, MAX_VIDEO_PAYLOAD)
    || (&& !Retired(p, sn)
        && (|| InOtherGroup(p.groups, group, sn)
            || (ObjectAt(p, group, sn).Some? && ObjectRefuses(solver, ObjectAt(p, group, sn), oti, id, data))
            || (ObjectAt(p, group, sn).None? && NewIsRefused(solver, p, group, sn, oti, id, data, now))))
  }

  ghost predicate NewIsRefused(solver: Solver, p: Pending, group: nat, sn: nat, oti: Oti, id: SymbolId, data: Bytes,
                               now: nat)
  {
    || NoRoom(p, Reservation(oti), now)
    || (&& !Retired(Admit(p, Reservation(oti), now).0, sn)
        && (NoGroupLeft(p, Reservation(oti), now, group) || ObjectRefuses(solver, None, oti, id, data)))
  }

  lemma RoomIff(p: Pending, additional: nat, now: nat)
    requires PendingInv(p)
    ensures Admit(p, additional, now).1.Err? <==> NoRoom(p, additional, now)
  {
    AdmitSucceedsIff(p, additional, now);
  }

  lemma NewRefuses(solver: Solver, p: Pending, group: nat, sn: nat, oti: Oti, id: SymbolId, data: Bytes, at: Instants)
    requires PendingInv(p) && ValidOti(oti, MAX_VIDEO_PAYLOAD) && ObjectAt(p, group, sn).None?
    ensures var (q, admitted) := Admit(p, Reservation(oti), at.admitted);
            var refused := InsertAdmitted(solver, q, group, sn, oti, id, data, at).1.Err?;
            admitted.Err? || (!Retired(q, sn) && refused) <==>
            NewIsRefused(solver, p, group, sn, oti, id, data, at.admitted)
  {
    RoomIff(p, Reservation(oti), at.admitted);
    AdmitInv(p, Reservation(oti), at.admitted);
    AdmitObjects(p, Reservation(oti), at.admitted, group, sn);
    AdmittedRefuses(solver, Admit(p, Reservation(oti), at.admitted).0, group, sn, oti, id, data, at);
  }

  lemma InsertRefuses(solver: Solver, p: Pending, group: nat, sn: nat, oti: Oti, id: SymbolId, data: Bytes,
                      at: Instants)
    requires PendingInv(p)
    ensures InsertDatagram(solver, p, group, sn, oti, id, data, at).1.Err? <==>
            SymbolIsRefused(solver, p, group, sn, oti, id, data, at.admitted)
  {
    if ValidOti(oti, MAX_VIDEO_PAYLOAD) && !Retired(p, sn) && !InOtherGroup(p.groups, group, sn) {
      PendingIff(p, group, sn);
      if InOwnGroup(p.groups, group, sn) {
        OwnGroupPending(p, group, sn);
        AdmittedRefuses(solver, p, group, sn, oti, id, data, at);
      } else {
        NewRefuses(solver, p, group, sn, oti, id, data, at);
      }
    }
  }

  /** In every run of any peer, the next symbol ends the run if and only if there is a reason. */
  lemma SymbolRefusedIff(solver: Solver, run: seq<Step>, x: Step)
    requires IsRun(solver, START, run) && x.Symbol? && Exec(solver, START, run).status.Waiting?
    ensures var r := Exec(solver, START, run);
            var sn, group := Unroll(HALF, r.newestPacket, x.rawSn), Unroll(HALF, r.newestGroup, x.rawGroup);
            Apply(solver, r, x).status.Failed? <==>
            sn >= r.next && SymbolIsRefused(solver, r.pending, group, sn, x.oti, x.id, x.data, x.at.admitted)
  {
    var r := Exec(solver, START, run);
    EveryStateKeepsInv(solver, run);
    InsertRefuses(solver, r.pending, Unroll(HALF, r.newestGroup, x.rawGroup), Unroll(HALF, r.newestPacket, x.rawSn),
                  x.oti, x.id, x.data, x.at);
  }

  /** Why a record that is no codec is refused: it is no config; there is no room; no group is left for
      it; or its group has a config. */
  ghost predicate RecordIsRefused(p: Pending, group: nat, packet: Packet, now: nat) {
    || !packet.Media? || !packet.media.isConfig
    || NoRoom(p, |packet.payload|, now) || NoGroupLeft(p, |packet.payload|, now, group)
    || !ConfigAt(p, group).NoConfig?
  }

  lemma StreamRefuses(p: Pending, group: nat, sn: nat, packet: Packet, now: nat)
    requires PendingInv(p)
    ensures InsertStream(p, group, sn, packet, now).1.Err? <==> RecordIsRefused(p, group, packet, now)
  {
    if packet.Media? && packet.media.isConfig {
      RoomIff(p, |packet.payload|, now);
      AdmitInv(p, |packet.payload|, now);
      AdmitObjects(p, |packet.payload|, now, group, 0);
      LookupPrepare(Admit(p, |packet.payload|, now).0, group, group);
    }
  }

  lemma StreamRefusedIff(solver: Solver, run: seq<Step>, x: Step)
    requires IsRun(solver, START, run) && x.Stream? && Exec(solver, START, run).status.Waiting?
    ensures var r := Exec(solver, START, run);
            var sn, group := Unroll(HALF, r.newestPacket, x.rawSn), Unroll(HALF, r.newestGroup, x.rawGroup);
            Apply(solver, r, x).status.Failed? <==>
            !x.packet.Codec? && sn >= r.next && RecordIsRefused(r.pending, group, x.packet, x.now)
  {
    var r := Exec(solver, START, run);
    EveryStateKeepsInv(solver, run);
    StreamRefuses(r.pending, Unroll(HALF, r.newestGroup, x.rawGroup), Unroll(HALF, r.newestPacket, x.rawSn), x.packet,
                  x.now);
  }
}
