/** When the audio receiver refuses a message, exactly, in every state it can reach
    (kyproto/src/protocol/driver/av/audio_unreliable_fec.rs). */
module AudioRefusal {
  import opened Wrappers
  import opened SortedVec
  import opened Fec
  import opened FecExact
  import opened Sequencer
  import opened AudioGroup
  import opened AudioReceiver
  import opened AudioProgress
  import opened AudioExact

  // ----- Every open object counts its symbols

  ghost predicate DecodersOk(g: Group) { forall e | e in g.segments :: DecoderInv(e.value.decoder) }

  lemma InsertedDecoders(g: Group, i: nat, e: Entry<Segments>)
    requires DecodersOk(g) && i <= |g.segments| && DecoderInv(e.value.decoder)
    ensures DecodersOk(g.(segments := InsertAt(g.segments, i, e)))
  {
    InsertMembers(g.segments, i, e);
  }

  lemma FedDecoders(solver: Solver, g: Group, sn: nat, oti: Oti, id: SymbolId, data: Bytes, now: nat)
    requires DecodersOk(g) && Has(g.segments, sn)
    ensures DecodersOk(FeedSegments(solver, g, sn, oti, id, data, now).0)
  {
    var i := Search(g.segments, sn);
    var decoder := Decode(solver, g.segments[i].value.decoder, oti, id, data).0;
    DecodeKeepsInv(solver, g.segments[i].value.decoder, oti, id, data);
    ChangedDecoders(g.segments, i, Entry(sn, Segments(decoder, None)));
  }

  lemma ChangedDecoders(xs: seq<Entry<Segments>>, i: nat, e: Entry<Segments>)
    requires i < |xs| && DecoderInv(e.value.decoder) && forall x | x in xs :: DecoderInv(x.value.decoder)
    ensures forall x | x in xs[i := e] :: DecoderInv(x.value.decoder)
    ensures forall x | x in RemoveAt(xs, i) :: DecoderInv(x.value.decoder)
  {
  }

  lemma SymbolDecoders(solver: Solver, g: Group, sn: nat, oti: Oti, id: SymbolId, data: Bytes, now: nat)
    requires DecodersOk(g)
    ensures DecodersOk(InsertDatagram(solver, g, sn, oti, id, data, now).0)
  {
    if !Has(g.datagrams, sn) && PrepareSegments(g, sn, oti).Ok? {
      NewDecoderInv(oti);
      InsertedDecoders(g, Search(g.segments, sn), Entry(sn, Segments(NewDecoder(oti), None)));
      FedDecoders(solver, PrepareSegments(g, sn, oti).value, sn, oti, id, data, now);
    }
  }

  lemma {:induction false} RunDecoders(solver: Solver, run: seq<Step>)
    ensures DecodersOk(Exec(solver, run).group)
  {
    if run != [] {
      var before, s := run[..|run| - 1], run[|run| - 1];
      RunDecoders(solver, before);
      var r := Exec(solver, before);
      if s.Symbol? {
        SymbolDecoders(solver, r.group, Unroll(HALF, r.newest, s.rawSn), s.oti, s.id, s.data, s.now);
      }
    }
  }

  // ----- Symbols

  predicate HasRoom(g: Group, additional: nat) {
    Objects(g) < MAX_PENDING_OBJECTS && Charge(g) + additional <= AUDIO_BUDGET
  }

  lemma RoomIsChecked(g: Group, additional: nat)
    requires g.config.Ready? ==> g.config.packet.Media?
    ensures CheckCapacity(g, additional).Ok? <==> HasRoom(g, additional)
  {
    RoomIff(Objects(g), Charge(g), additional, MAX_AUDIO_PAYLOAD);
  }

  /** The block has all the symbols it may have, and this one is new. */
  ghost predicate BlockFull(symbols: map<SymbolId, Bytes>, oti: Oti, id: SymbolId) {
    id !in symbols && |InBlock(symbols.Keys, id.block)| >= SymbolLimit(oti, id.block)
  }

  /** The symbol completes something that is not a media packet. */
  predicate Unacceptable(solver: Solver, symbols: map<SymbolId, Bytes>, oti: Oti, id: SymbolId, data: Bytes) {
    id !in symbols && solver(oti, symbols[id := data]).Some?
    && MediaPacket(solver(oti, symbols[id := data]).value).Err?
  }

  predicate BadSymbol(oti: Oti, id: SymbolId, data: Bytes) { id.block >= oti.blocks || |data| != oti.symbolSize }

  /** Why a symbol of a packet is refused. */
  ghost predicate Refused(solver: Solver, g: Group, o: Option<Object>, oti: Oti, id: SymbolId, data: Bytes) {
    match o
    case Some(Done(was, _, _)) => was != oti
    case Some(Open(was, symbols)) =>
      || was != oti || BadSymbol(oti, id, data)
      || BlockFull(symbols, oti, id) || Unacceptable(solver, symbols, oti, id, data)
    case None =>
      || !ValidOti(oti, MAX_AUDIO_PAYLOAD) || !HasRoom(g, Reservation(oti)) || BadSymbol(oti, id, data)
      || Unacceptable(solver, map[], oti, id, data)
  }

  lemma FeedRefused(solver: Solver, g: Group, sn: nat, oti: Oti, id: SymbolId, data: Bytes, now: nat)
    requires DecodersOk(g) && Has(g.segments, sn)
    ensures var s := g.segments[Search(g.segments, sn)].value;
            FeedSegments(solver, g, sn, oti, id, data, now).1.Err? <==>
            || s.decoder.oti != oti || BadSymbol(oti, id, data)
            || BlockFull(s.decoder.received, oti, id) || Unacceptable(solver, s.decoder.received, oti, id, data)
  {
    var s := g.segments[Search(g.segments, sn)];
    assert s in g.segments;
    DecodeExact(solver, s.value.decoder, oti, id, data);
  }

  lemma NewIsEmpty(oti: Oti, id: SymbolId)
    ensures NewDecoder(oti).received == map[] && !BlockFull(map[], oti, id)
  {
    var none: map<SymbolId, Bytes> := map[];
    assert InBlock(none.Keys, id.block) == {};
  }

  lemma FirstRefused(solver: Solver, g: Group, sn: nat, oti: Oti, id: SymbolId, data: Bytes, now: nat)
    requires Above(g, 0) && DecodersOk(g) && WithinBudget(g) && !Has(g.datagrams, sn) && !Has(g.segments, sn)
    ensures InsertDatagram(solver, g, sn, oti, id, data, now).1.Err? <==> Refused(solver, g, None, oti, id, data)
  {
    RoomIsChecked(g, Reservation(oti));
    if PrepareSegments(g, sn, oti).Ok? {
      OpenedObject(g, sn, oti, sn);
      NewDecoderInv(oti);
      NewIsEmpty(oti, id);
      InsertedDecoders(g, Search(g.segments, sn), Entry(sn, Segments(NewDecoder(oti), None)));
      FeedRefused(solver, PrepareSegments(g, sn, oti).value, sn, oti, id, data, now);
    }
  }

  lemma SymbolRefused(solver: Solver, g: Group, sn: nat, oti: Oti, id: SymbolId, data: Bytes, now: nat)
    requires Above(g, 0) && DecodersOk(g) && WithinBudget(g)
    ensures InsertDatagram(solver, g, sn, oti, id, data, now).1.Err? <==>
            Refused(solver, g, ObjectIn(g, sn), oti, id, data)
  {
    if Has(g.datagrams, sn) {
    } else if Has(g.segments, sn) {
      FeedRefused(solver, g, sn, oti, id, data, now);
    } else {
      FirstRefused(solver, g, sn, oti, id, data, now);
    }
  }

  /** In every run of any peer, the next symbol ends the run if and only if it is not late and there is
      a reason: other parameters than the packet's, parameters or a symbol that are not acceptable, no
      room for another object, a full block, or an object that is no media packet. */
  lemma SymbolRefusedIff(solver: Solver, run: seq<Step>, x: Step)
    requires x.Symbol? && Exec(solver, run).status.Waiting?
    ensures var r := Exec(solver, run);
            var sn := Unroll(HALF, r.newest, x.rawSn);
            Apply(solver, r, x).status.Failed? <==>
            sn >= r.next && Refused(solver, r.group, ObjectIn(r.group, sn), x.oti, x.id, x.data)
  {
    var r := Exec(solver, run);
    AudioOrder.RunOrder(solver, run);
    AboveAll(r);
    RunDecoders(solver, run);
    EveryStateWithinBudget(solver, run);
    SymbolRefused(solver, r.group, Unroll(HALF, r.newest, x.rawSn), x.oti, x.id, x.data, x.now);
  }

  /** And a record of the stream if and only if it is a codec without a frame size, or not late and no
      config, a second config, or a config for which there is no room. */
  lemma StreamRefusedIff(solver: Solver, run: seq<Step>, x: Step)
    requires x.Stream? && Exec(solver, run).status.Waiting?
    ensures var r := Exec(solver, run);
            Apply(solver, r, x).status.Failed? <==>
            if x.packet.Codec? then x.packet.header.frameSize == 0
            else
              && Unroll(HALF, r.newest, x.rawSn) >= r.next
              && (|| !x.packet.Media? || !x.packet.media.isConfig || !r.group.config.NoConfig?
                  || !HasRoom(r.group, |x.packet.payload|))
  {
    var r := Exec(solver, run);
    EveryStateWithinBudget(solver, run);
    if x.packet.Media? {
      RoomIsChecked(r.group, |x.packet.payload|);
    }
  }
}
