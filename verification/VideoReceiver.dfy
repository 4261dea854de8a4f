/** The processing loop of the video receiver as a state machine: one step per event and one
    per turn of the drain loop (kyproto/src/protocol/driver/av/video_unreliable_fec.rs). */
module VideoReceiver {
  import opened Wrappers
  import opened SortedVec
  import opened AvPacket
  import opened Fec
  import opened Sequencer
  import opened VideoGroup
  import opened VideoPending
  import opened VideoInvariant

  const HALF: nat := 0x8000_0000  // half the range of the 32-bit wire counters

  datatype ProtocolStats = ProtocolStats(
    dropped: Option<nat>, source: Option<nat>, missing: Option<nat>, unrecovered: Option<nat>)

  /** What the client is given. The number and group of a packet are not part of it. */
  datatype Output = CodecOut(packet: Packet) | PacketOut(sn: nat, group: nat, packet: Packet)

  /** `Draining` is the inner loop, `Waiting` the select; an error ends the run. */
  datatype Status = Waiting | Draining | Failed(error: Error)

  /** An object opened for a packet number, with its source symbols. */
  datatype Opening = Opening(sn: nat, source: nat)

  /** The loop's variables. `out` and `created` are histories. */
  datatype Receiver = Receiver(
    newestPacket: nat, newestGroup: nat, pending: Pending, next: nat, deadline: Option<nat>, stats: ProtocolStats,
    status: Status, out: seq<Output>, created: seq<Opening>)

  const START: Receiver :=
    Receiver(0, 0, EMPTY, 0, None, ProtocolStats(None, None, None, None), Waiting, [], [])

  datatype Step =
    | Stream(packet: Packet, rawSn: u32, rawGroup: u32, now: nat)
    | Symbol(rawSn: u32, rawGroup: u32, oti: Oti, id: SymbolId, data: Bytes, at: Instants)
    | Timer
    | Take(now: nat)

  predicate Enabled(r: Receiver, s: Step) {
    match s
    case Stream(_, _, _, _) => r.status.Waiting?
    case Symbol(_, _, _, _, _, _) => r.status.Waiting?
    case Timer => r.status.Waiting? && r.deadline.Some?
    case Take(_) => r.status.Draining?
  }

  predicate IsPending(p: Pending, sn: nat) {
    exists i :: 0 <= i < |p.groups| && Contains(p.groups[i].value, sn)
  }

  function Plus(a: Option<nat>, n: nat): Option<nat> {
    Some((if a.Some? then a.value else 0) + n)
  }

  function Report(s: ProtocolStats, fec: FecStats): ProtocolStats {
    if fec.source == 0 then s
    else s.(source := Plus(s.source, fec.source),
            missing := Plus(s.missing, fec.missing),
            unrecovered := Plus(s.unrecovered, fec.unrecovered))
  }

  function After(result: Result<(), Error>): Status {
    if result.Ok? then Draining else Failed(result.error)
  }

  function OnStream(r: Receiver, packet: Packet, rawSn: u32, rawGroup: u32, now: nat): Receiver {
    if packet.Codec? then r.(out := r.out + [CodecOut(packet)])
    else
      var sn := Unroll(HALF, r.newestPacket, rawSn);
      var group := Unroll(HALF, r.newestGroup, rawGroup);
      var r := r.(newestPacket := Newest(r.newestPacket, sn), newestGroup := Newest(r.newestGroup, group));
      if sn < r.next then r.(status := Draining)
      else
        var (q, result) := InsertStream(r.pending, group, sn, packet, now);
        r.(pending := q, status := After(result))
  }

  function OnSymbol(solver: Solver, r: Receiver, rawSn: u32, rawGroup: u32, oti: Oti, id: SymbolId, data: Bytes,
                    at: Instants): Receiver
  {
    var sn := Unroll(HALF, r.newestPacket, rawSn);
    var group := Unroll(HALF, r.newestGroup, rawGroup);
    var r := r.(newestPacket := Newest(r.newestPacket, sn), newestGroup := Newest(r.newestGroup, group));
    if sn < r.next then r
    else
      var (q, result) := InsertDatagram(solver, r.pending, group, sn, oti, id, data, at);
      var created := if !IsPending(r.pending, sn) && IsPending(q, sn) then [Opening(sn, SourceSymbols(oti))] else [];
      r.(pending := q, status := After(result), created := r.created + created)
  }

  /** Forwards the packet of `a`, reporting its accounting and the gap before it. */
  function Deliver(r: Receiver, q: Pending, a: Action): Receiver
    requires a.Forward?
  {
    var reported := Report(r.stats, a.stats);
    var stats := if a.sn > r.next then reported.(dropped := Plus(reported.dropped, a.sn - r.next)) else reported;
    r.(pending := q, next := a.sn + 1, stats := stats, out := r.out + [PacketOut(a.sn, a.group, a.packet)])
  }

  function OnTake(r: Receiver, now: nat): Receiver {
    var (q, action) := TakeNext(r.pending, r.next, now);
    match action
    case NoAction => r.(deadline := None, status := Waiting)
    case WaitUntil(instant) => r.(deadline := Some(instant), status := Waiting)
    case Forward(_, _, _, _) => Deliver(r, q, action)
  }

  function Apply(solver: Solver, r: Receiver, s: Step): Receiver {
    match s
    case Stream(packet, rawSn, rawGroup, now) => OnStream(r, packet, rawSn, rawGroup, now)
    case Symbol(rawSn, rawGroup, oti, id, data, at) => OnSymbol(solver, r, rawSn, rawGroup, oti, id, data, at)
    case Timer => r.(status := Draining)
    case Take(now) => OnTake(r, now)
  }

  // ----- Runs

  function Exec(solver: Solver, r: Receiver, run: seq<Step>): Receiver {
    if run == [] then r
    else Apply(solver, Exec(solver, r, run[..|run| - 1]), run[|run| - 1])
  }

  /** Records of the reliable stream are what its reader lets through. */
  predicate Parsed(s: Step) {
    s.Stream? ==> !s.packet.Hole? && (s.packet.Media? ==> |s.packet.payload| <= MAX_CONFIG_PAYLOAD)
  }

  predicate IsRun(solver: Solver, r: Receiver, run: seq<Step>) {
    run == [] ||
    var before := run[..|run| - 1];
    var last := run[|run| - 1];
    IsRun(solver, r, before) && Parsed(last) && Enabled(Exec(solver, r, before), last)
  }

  ghost predicate StatsConsistent(s: ProtocolStats) {
    && (s.source.None? ==> s.missing.None? && s.unrecovered.None?)
    && (s.source.Some? ==> s.missing.Some? && s.unrecovered.Some?
                           && s.unrecovered.value <= s.missing.value <= s.source.value)
  }

  ghost predicate ReceiverInv(r: Receiver) {
    PendingInv(r.pending) && StatsConsistent(r.stats)
  }

  lemma OnStreamInv(r: Receiver, packet: Packet, rawSn: u32, rawGroup: u32, now: nat)
    requires ReceiverInv(r) && (packet.Media? ==> |packet.payload| <= MAX_CONFIG_PAYLOAD)
    ensures ReceiverInv(OnStream(r, packet, rawSn, rawGroup, now))
  {
    var sn := Unroll(HALF, r.newestPacket, rawSn);
    var group := Unroll(HALF, r.newestGroup, rawGroup);
    InsertStreamInv(r.pending, group, sn, packet, now);
  }

  lemma OnSymbolInv(solver: Solver, r: Receiver, rawSn: u32, rawGroup: u32, oti: Oti, id: SymbolId, data: Bytes,
                    at: Instants)
    requires ReceiverInv(r)
    ensures ReceiverInv(OnSymbol(solver, r, rawSn, rawGroup, oti, id, data, at))
  {
    var sn := Unroll(HALF, r.newestPacket, rawSn);
    var group := Unroll(HALF, r.newestGroup, rawGroup);
    InsertDatagramInv(solver, r.pending, group, sn, oti, id, data, at);
  }

  lemma OnTakeInv(r: Receiver, now: nat)
    requires ReceiverInv(r)
    ensures ReceiverInv(OnTake(r, now))
  {
    TakeNextInv(r.pending, r.next, now);
    var (q, action) := TakeNext(r.pending, r.next, now);
    if action.Forward? {
      ReportConsistent(r.stats, action.stats);
    }
  }

  lemma ReportConsistent(s: ProtocolStats, fec: FecStats)
    requires StatsConsistent(s) && fec.Consistent()
    ensures StatsConsistent(Report(s, fec))
  {}

  lemma ApplyInv(solver: Solver, r: Receiver, s: Step)
    requires ReceiverInv(r) && Parsed(s)
    ensures ReceiverInv(Apply(solver, r, s))
  {
    match s
    case Stream(packet, rawSn, rawGroup, now) => OnStreamInv(r, packet, rawSn, rawGroup, now);
    case Symbol(rawSn, rawGroup, oti, id, data, at) => OnSymbolInv(solver, r, rawSn, rawGroup, oti, id, data, at);
    case Timer =>
    case Take(now) => OnTakeInv(r, now);
  }

  /** Whatever a peer sends, and even in the state left by a rejected message: the pending
      media is sorted, unique and beyond the retirement frontier, the budget holds, and the
      reported symbol counts are consistent. */
  lemma {:induction false} EveryStateKeepsInv(solver: Solver, run: seq<Step>)
    requires IsRun(solver, START, run)
    ensures ReceiverInv(Exec(solver, START, run))
  {
    if run == [] {
      EmptyInv();
    } else {
      EveryStateKeepsInv(solver, run[..|run| - 1]);
      ApplyInv(solver, Exec(solver, START, run[..|run| - 1]), run[|run| - 1]);
    }
  }

  // ----- The retirement frontier over time

  predicate FrontierLeq(a: Option<nat>, b: Option<nat>) {
    a.Some? ==> b.Some? && a.value <= b.value
  }

  lemma {:induction false} AdmitFrontier(p: Pending, additional: nat, now: nat)
    ensures FrontierLeq(p.retiredThrough, Admit(p, additional, now).0.retiredThrough)
    decreases Sum(p.groups, MediaCount)
  {
    if CheckCapacity(p, additional).Err? && RetireOldest(p, now).Some? {
      RetireShrinks(p, now);
      AdmitFrontier(RetireOldest(p, now).value, additional, now);
    }
  }

  lemma InsertStreamFrontier(p: Pending, group: nat, sn: nat, packet: Packet, now: nat)
    ensures FrontierLeq(p.retiredThrough, InsertStream(p, group, sn, packet, now).0.retiredThrough)
  {
    if packet.Media? { AdmitFrontier(p, |packet.payload|, now); }
  }

  lemma InsertAdmittedFrontier(solver: Solver, p: Pending, group: nat, sn: nat, oti: Oti, id: SymbolId, data: Bytes,
                               at: Instants)
    ensures InsertAdmitted(solver, p, group, sn, oti, id, data, at).0.retiredThrough == p.retiredThrough
  {}

  lemma InsertDatagramFrontier(solver: Solver, p: Pending, group: nat, sn: nat, oti: Oti, id: SymbolId, data: Bytes,
                               at: Instants)
    ensures FrontierLeq(p.retiredThrough, InsertDatagram(solver, p, group, sn, oti, id, data, at).0.retiredThrough)
  {
    if ValidOti(oti, MAX_VIDEO_PAYLOAD) && !Retired(p, sn) && !InOtherGroup(p.groups, group, sn) {
      if InOwnGroup(p.groups, group, sn) {
        InsertAdmittedFrontier(solver, p, group, sn, oti, id, data, at);
      } else {
        AdmitFrontier(p, Reservation(oti), at.admitted);
        var (q, admitted) := Admit(p, Reservation(oti), at.admitted);
        if admitted.Ok? && !Retired(q, sn) {
          InsertAdmittedFrontier(solver, q, group, sn, oti, id, data, at);
        }
      }
    }
  }

  lemma ApplyFrontier(solver: Solver, r: Receiver, s: Step)
    ensures FrontierLeq(r.pending.retiredThrough, Apply(solver, r, s).pending.retiredThrough)
  {
    match s
    case Stream(packet, rawSn, rawGroup, now) =>
      var sn := Unroll(HALF, r.newestPacket, rawSn);
      InsertStreamFrontier(r.pending, Unroll(HALF, r.newestGroup, rawGroup), sn, packet, now);
    case Symbol(rawSn, rawGroup, oti, id, data, at) =>
      var sn := Unroll(HALF, r.newestPacket, rawSn);
      InsertDatagramFrontier(solver, r.pending, Unroll(HALF, r.newestGroup, rawGroup), sn, oti, id, data, at);
    case Timer =>
    case Take(now) =>
  }

  lemma {:induction false} FrontierAdvances(solver: Solver, run: seq<Step>, i: nat)
    requires IsRun(solver, START, run) && i <= |run|
    ensures FrontierLeq(Exec(solver, START, run[..i]).pending.retiredThrough,
                        Exec(solver, START, run).pending.retiredThrough)
    decreases |run|
  {
    if i == |run| {
      assert run[..i] == run;
    } else {
      var before := run[..|run| - 1];
      assert before[..i] == run[..i];
      FrontierAdvances(solver, before, i);
      ApplyFrontier(solver, Exec(solver, START, before), run[|run| - 1]);
    }
  }

  /** Media retired at any moment is neither pending nor forwarded at any later one. */
  lemma RetiredForGood(solver: Solver, run: seq<Step>, i: nat, sn: nat)
    requires IsRun(solver, START, run) && i <= |run|
    requires Retired(Exec(solver, START, run[..i]).pending, sn)
    ensures !IsPending(Exec(solver, START, run).pending, sn)
    ensures var r := Exec(solver, START, run);
            forall now :: var action := TakeNext(r.pending, r.next, now).1;
              action.Forward? && action.sn == sn ==> NextPacket(r.pending, r.next, now).isConfig
  {
    var r := Exec(solver, START, run);
    FrontierAdvances(solver, run, i);
    EveryStateKeepsInv(solver, run);
    forall j | 0 <= j < |r.pending.groups| ensures !Contains(r.pending.groups[j].value, sn) {
      ContainsIsMedia(r.pending.groups[j].value, sn);
    }
    forall now
      ensures var action := TakeNext(r.pending, r.next, now).1;
              action.Forward? && action.sn == sn ==> NextPacket(r.pending, r.next, now).isConfig
    {
      var n := NextPacket(r.pending, r.next, now);
      if n.ReadyAt? && !n.isConfig {
        FrontKey(r.pending.groups[n.index].value.datagrams);
      }
    }
  }
}
