/** A run that meets the premises of `VideoExact.ReorderExact`: a media packet that overtakes the
    config of its group. */
module VideoExample {
  import opened Wrappers
  import opened SortedVec
  import opened AvPacket
  import opened Fec
  import opened Sequencer
  import opened VideoGroup
  import opened VideoPending
  import opened VideoReceiver
  import opened VideoSender
  import opened VideoDelivery
  import opened VideoOrder
  import opened VideoExact
  import opened VideoPair
  import OneSymbol

  /** The sender's first two packets are a config and a media packet that one symbol completes. */
  predicate StartsWithPair(solver: Solver, s: Sender, id: SymbolId) {
    && |s.sent| >= 2 && s.sent[0].SentConfig? && s.sent[1].SentMedia?
    && Completes(solver, s.sent[1].oti, id, s.symbol(1, id), PacketOf(s.sent[1]))
  }

  /** The media packet arrives first, and then, at any time and even after the reorder window of the
      media packet, the config. */
  function Overtaking(id: SymbolId, now: nat, later: nat): seq<Delivery> {
    [MediaSymbol(1, id, Instants(now, now, now)), Drain(now), ConfigRecord(0, later), Drain(later), Drain(later),
     Drain(later)]
  }

  lemma GroupIsOne(s: Sender)
    requires |s.sent| >= 2 && s.sent[0].SentConfig? && s.sent[1].SentMedia?
    ensures GroupOf(s.sent, 0) == 1 && GroupOf(s.sent, 1) == 1
  {
    assert s.sent[..1][..0] == [] && s.sent[..2][..1] == s.sent[..1];
    assert Groups([]) == 0;
  }

  /** What matters of a state of this run. */
  predicate Is(r: Receiver, pending: Pending, next: nat, status: Status) {
    r.pending == pending && r.next == next && r.status == status && r.newestPacket == 1 && r.newestGroup == 1
  }

  ghost predicate Reaches(solver: Solver, s: Sender, run: seq<Delivery>, pending: Pending, next: nat, status: Status) {
    LegalRun(solver, s, run) && Patient(solver, s, run) && Is(Reach(solver, s, run), pending, next, status)
  }

  lemma RunNext(solver: Solver, s: Sender, run: seq<Delivery>, d: Delivery)
    requires LegalRun(solver, s, run) && Patient(solver, s, run) && Possible(s, Reach(solver, s, run), d)
    requires var r := Reach(solver, s, run); d.Drain? ==> OnTime(r.pending, r.next, d.now)
    ensures LegalRun(solver, s, run + [d]) && Patient(solver, s, run + [d])
    ensures Reach(solver, s, run + [d]) == Apply(solver, Reach(solver, s, run), Wire(s, d))
  {
    var more := run + [d];
    assert more[..|run|] == run;
  }

  lemma MediaFirst(solver: Solver, s: Sender, id: SymbolId, now: nat) returns (e: Entry<Datagram>)
    requires WellFormed(s) && StartsWithPair(solver, s, id)
    ensures e.key == 1 && e.value.oti == s.sent[1].oti && e.value.instant == now
    ensures Reaches(solver, s, [MediaSymbol(1, id, Instants(now, now, now))], Alone(1, NoConfig, [e]), 0, Draining)
  {
    var p, at := s.sent[1], Instants(now, now, now);
    var d := MediaArrives(solver, 1, 1, p.oti, id, s.symbol(1, id), PacketOf(p), at);
    e := Entry(1, d);
    GroupIsOne(s);
    assert Unroll(HALF, 0, 1) == 1;
    RunNext(solver, s, [], MediaSymbol(1, id, at));
    assert [] + [MediaSymbol(1, id, at)] == [MediaSymbol(1, id, at)];
  }

  lemma Drained(solver: Solver, s: Sender, run: seq<Delivery>, now: nat, pending: Pending, next: nat)
    requires Reaches(solver, s, run, pending, next, Draining) && OnTime(pending, next, now)
    ensures LegalRun(solver, s, run + [Drain(now)]) && Patient(solver, s, run + [Drain(now)])
    ensures Reach(solver, s, run + [Drain(now)]) == OnTake(Reach(solver, s, run), now)
  {
    RunNext(solver, s, run, Drain(now));
  }

  lemma DrainWaits(solver: Solver, s: Sender, run: seq<Delivery>, now: nat, config: Config,
                   ds: seq<Entry<Datagram>>, next: nat)
    requires Reaches(solver, s, run, Alone(1, config, ds), next, Draining)
    requires config.NoConfig? || (config.Sent? && ds == [])
    ensures Reaches(solver, s, run + [Drain(now)], Alone(1, config, ds), next, Waiting)
  {
    assert !GroupWaits(Alone(1, config, ds).groups[0].value);
    Drained(solver, s, run, now, Alone(1, config, ds), next);
    NothingOffered(1, config, ds, next, now);
  }

  lemma ConfigSecond(solver: Solver, s: Sender, run: seq<Delivery>, now: nat, e: Entry<Datagram>)
    requires WellFormed(s) && |s.sent| >= 2 && s.sent[0].SentConfig? && s.sent[1].SentMedia?
    requires ValidOti(e.value.oti, MAX_VIDEO_PAYLOAD)
    requires Reaches(solver, s, run, Alone(1, NoConfig, [e]), 0, Waiting)
    ensures Reaches(solver, s, run + [ConfigRecord(0, now)], Alone(1, Ready(0, s.sent[0].packet), [e]), 0, Draining)
  {
    GroupIsOne(s);
    assert Unroll(HALF, 1, 0) == 0 && Unroll(HALF, 1, 1) == 1;
    ConfigArrives(1, 0, s.sent[0].packet, e, now);
    RunNext(solver, s, run, ConfigRecord(0, now));
  }

  lemma ConfigForwarded(solver: Solver, s: Sender, run: seq<Delivery>, now: nat, packet: Packet, e: Entry<Datagram>)
    requires Reaches(solver, s, run, Alone(1, Ready(0, packet), [e]), 0, Draining)
    ensures Reaches(solver, s, run + [Drain(now)], Alone(1, Sent, [e]), 1, Draining)
  {
    assert OffersNext(Alone(1, Ready(0, packet), [e]).groups[0], 0);
    Drained(solver, s, run, now, Alone(1, Ready(0, packet), [e]), 0);
    ConfigTaken(1, 0, packet, e, 0, now);
  }

  lemma MediaForwarded(solver: Solver, s: Sender, run: seq<Delivery>, now: nat, e: Entry<Datagram>)
    requires Reaches(solver, s, run, Alone(1, Sent, [e]), 1, Draining) && e.key == 1
    ensures Reaches(solver, s, run + [Drain(now)], Alone(1, Sent, []), 2, Draining)
  {
    assert OffersNext(Alone(1, Sent, [e]).groups[0], 1);
    Drained(solver, s, run, now, Alone(1, Sent, [e]), 1);
    MediaTaken(1, e, 1, now);
  }

  /** For every sender that starts like this, the run is legal and meets all premises. */
  lemma OvertakingRun(solver: Solver, s: Sender, id: SymbolId, now: nat, later: nat)
    requires WellFormed(s) && StartsWithPair(solver, s, id)
    ensures Reaches(solver, s, Overtaking(id, now, later), Alone(1, Sent, []), 2, Waiting)
  {
    var m, c := MediaSymbol(1, id, Instants(now, now, now)), ConfigRecord(0, later);
    var d, l := Drain(now), Drain(later);
    var e := UpToConfig(solver, s, id, now, later);
    BothForwarded(solver, s, [m, d, c], later, s.sent[0].packet, e);
    assert [m, d, c] + [l] + [l] + [l] == Overtaking(id, now, later);
  }

  lemma BothForwarded(solver: Solver, s: Sender, run: seq<Delivery>, now: nat, packet: Packet, e: Entry<Datagram>)
    requires Reaches(solver, s, run, Alone(1, Ready(0, packet), [e]), 0, Draining) && e.key == 1
    ensures Reaches(solver, s, run + [Drain(now)] + [Drain(now)] + [Drain(now)], Alone(1, Sent, []), 2, Waiting)
  {
    ConfigForwarded(solver, s, run, now, packet, e);
    MediaForwarded(solver, s, run + [Drain(now)], now, e);
    DrainWaits(solver, s, run + [Drain(now)] + [Drain(now)], now, Sent, [], 2);
  }

  lemma UpToConfig(solver: Solver, s: Sender, id: SymbolId, now: nat, later: nat) returns (e: Entry<Datagram>)
    requires WellFormed(s) && StartsWithPair(solver, s, id)
    ensures e.key == 1
    ensures Reaches(solver, s, [MediaSymbol(1, id, Instants(now, now, now)), Drain(now), ConfigRecord(0, later)],
                    Alone(1, Ready(0, s.sent[0].packet), [e]), 0, Draining)
  {
    var m, c, d := MediaSymbol(1, id, Instants(now, now, now)), ConfigRecord(0, later), Drain(now);
    e := MediaFirst(solver, s, id, now);
    DrainWaits(solver, s, [m], now, NoConfig, [e], 0);
    assert [m] + [d] == [m, d];
    ConfigSecond(solver, s, [m, d], later, e);
    assert [m, d] + [c] == [m, d, c];
  }

  lemma BothDelivered(solver: Solver, s: Sender, id: SymbolId, now: nat, later: nat)
    requires StartsWithPair(solver, s, id)
    ensures var run := Overtaking(id, now, later); Delivered(solver, s, run, 0) && Delivered(solver, s, run, 1)
  {
    var run := Overtaking(id, now, later);
    assert run[2].ConfigRecord? && run[2].k == 0;
    var first := [MediaSymbol(1, id, Instants(now, now, now))];
    assert first[..0] == [];
    assert Ids(first, 1) == {id};
    assert Symbols(s, {id}, 1) == map[id := s.symbol(1, id)];
    assert Completed(solver, s, first, 1);
    CompletedStays(solver, s, first, run, 1);
  }

  lemma {:induction false} CompletedStays(solver: Solver, s: Sender, run: seq<Delivery>, more: seq<Delivery>, k: nat)
    requires k < |s.sent| && s.sent[k].SentMedia? && run <= more && Completed(solver, s, run, k)
    ensures Completed(solver, s, more, k)
    decreases |more|
  {
    if run != more {
      CompletedStays(solver, s, run, more[..|more| - 1], k);
    } else {
      assert run == more;
    }
  }

  /** The packet that overtook its config is given to the client behind it, however late the config. */
  lemma OvertakingIsUndone(solver: Solver, s: Sender, id: SymbolId, now: nat, later: nat)
    requires WellFormed(s) && Sound(solver, s) && StartsWithPair(solver, s, id)
    ensures var r := Reach(solver, s, Overtaking(id, now, later)); Numbers(r.out) == [0, 1] && Faithful(s, r.out)
  {
    OvertakingRun(solver, s, id, now, later);
    BothDelivered(solver, s, id, now, later);
    UndoneBy(solver, s, Overtaking(id, now, later));
  }

  lemma UndoneBy(solver: Solver, s: Sender, run: seq<Delivery>)
    requires WellFormed(s) && Sound(solver, s) && |s.sent| >= 2 && s.sent[0].SentConfig?
    requires Reaches(solver, s, run, Alone(1, Sent, []), 2, Waiting)
    requires Delivered(solver, s, run, 0) && Delivered(solver, s, run, 1)
    ensures Numbers(Reach(solver, s, run).out) == [0, 1] && Faithful(s, Reach(solver, s, run).out)
  {
    ReorderExact(solver, s, run, 2);
    OrderAndAccounting(solver, s, run);
  }

  /** There are such senders, with a solver that is sound for them: any config and any small media
      packet, sent as their own one symbol. */
  lemma PairExists(config: Packet, h: MediaHeader, payload: Bytes) returns (s: Sender)
    requires config.Media? && config.media.isConfig && |config.payload| <= MAX_CONFIG_PAYLOAD
    requires h.pts < PTS_LIMIT && !h.isConfig && h.size == |payload| && HEADER_SIZE + |payload| < 0x1_0000
    ensures WellFormed(s) && Sound(OneSymbol.Solving(), s) && StartsWithPair(OneSymbol.Solving(), s, OneSymbol.WHOLE)
    ensures PacketOf(s.sent[0]) == config && PacketOf(s.sent[1]) == Media(h, payload)
  {
    var bytes := SerializeMedia(h) + payload;
    OneSymbol.ParametersValid(|bytes|);
    OneSymbol.SymbolSuffices(h, payload);
    var encode: Encoder := (oti, b, id) => OneSymbol.Encode(oti, b, id);
    var sent := [SentConfig(config), SentMedia(h, payload, OneSymbol.Parameters(|bytes|))];
    assert Inverts(OneSymbol.Solving(), encode) by {
      forall oti, b, received | MadeOf(encode, oti, b, received) && OneSymbol.Solve(oti, received).Some?
        ensures OneSymbol.Solve(oti, received).value == b
      {
      }
    }
    InvertingIsSound(OneSymbol.Solving(), encode, sent);
    s := SenderOf(encode, sent);
    assert s.symbol(1, OneSymbol.WHOLE) == bytes;
  }
}
