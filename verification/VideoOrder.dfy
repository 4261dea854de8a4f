/** Whole legal runs of the video receiver: what the client is given, in which order, with
    what accounting, and under which config. */
module VideoOrder {
  import opened Wrappers
  import opened SortedVec
  import opened AvPacket
  import opened Fec
  import opened Sequencer
  import opened VideoGroup
  import opened VideoPending
  import opened VideoInvariant
  import opened VideoReceiver
  import opened VideoSender
  import opened VideoDelivery

  // ----- The log of forwarded packets

  /** The packet numbers forwarded, in order. */
  function Numbers(out: seq<Output>): seq<nat> {
    if out == [] then []
    else
      var last := out[|out| - 1];
      Numbers(out[..|out| - 1]) + if last.PacketOut? then [last.sn] else []
  }

  ghost predicate Increasing(ns: seq<nat>) {
    forall i, j | 0 <= i < j < |ns| :: ns[i] < ns[j]
  }

  predicate IsConfig(o: Output) {
    o.PacketOut? && o.packet.Media? && o.packet.media.isConfig
  }

  /** The number of the last config given to the client. */
  function LastConfig(out: seq<Output>): Option<nat> {
    if out == [] then None
    else if IsConfig(out[|out| - 1]) then Some(out[|out| - 1].sn)
    else LastConfig(out[..|out| - 1])
  }

  /** Every forwarded packet is the one the sender gave that number. */
  ghost predicate Faithful(s: Sender, out: seq<Output>) {
    forall i | 0 <= i < |out| && out[i].PacketOut? ::
      out[i].sn < |s.sent| && out[i].packet == PacketOf(s.sent[out[i].sn])
  }

  /** The config in force for `sn` is the config of its own group. */
  ghost predicate InForce(s: Sender, config: Option<nat>, sn: nat) {
    && config.Some? && config.value < |s.sent| && sn < |s.sent|
    && s.sent[config.value].SentConfig?
    && GroupOf(s.sent, config.value) == GroupOf(s.sent, sn)
  }

  /** Each media packet was preceded, last among configs, by its own group's config. */
  ghost predicate OwnConfigs(s: Sender, out: seq<Output>) {
    forall i | 0 <= i < |out| && out[i].PacketOut? && !IsConfig(out[i]) :: InForce(s, LastConfig(out[..i]), out[i].sn)
  }

  function Dropped(r: Receiver): nat {
    if r.stats.dropped.Some? then r.stats.dropped.value else 0
  }

  ghost predicate LogInv(s: Sender, r: Receiver) {
    && Increasing(Numbers(r.out))
    && (forall n | n in Numbers(r.out) :: n < r.next)
    && |Numbers(r.out)| + Dropped(r) == r.next
    && Faithful(s, r.out)
    && OwnConfigs(s, r.out)
    && (r.next > 0 ==> InForce(s, LastConfig(r.out), r.next - 1))
  }

  ghost predicate LegalInv(s: Sender, r: Receiver) {
    && ReceiverInv(r)
    && LegalGroups(s, r.next, r.pending.groups)
    && HeadSent(s, r.next, r.pending.groups)
    && LogInv(s, r)
  }

  // ----- The log grows by one packet

  lemma AppendOutput(out: seq<Output>, o: Output)
    ensures Numbers(out + [o]) == Numbers(out) + if o.PacketOut? then [o.sn] else []
    ensures LastConfig(out + [o]) == if IsConfig(o) then Some(o.sn) else LastConfig(out)
  {
    assert (out + [o])[..|out|] == out;
  }

  lemma AppendFaithful(s: Sender, out: seq<Output>, o: Output)
    requires Faithful(s, out)
    requires o.PacketOut? ==> o.sn < |s.sent| && o.packet == PacketOf(s.sent[o.sn])
    ensures Faithful(s, out + [o])
  {}

  lemma AppendOwnConfigs(s: Sender, out: seq<Output>, o: Output)
    requires OwnConfigs(s, out)
    requires o.PacketOut? && !IsConfig(o) ==> InForce(s, LastConfig(out), o.sn)
    ensures OwnConfigs(s, out + [o])
  {
    var more := out + [o];
    forall i | 0 <= i < |more| && more[i].PacketOut? && !IsConfig(more[i])
      ensures InForce(s, LastConfig(more[..i]), more[i].sn)
    {
      assert more[..i] == out[..i];
      if i == |out| { assert out[..i] == out; }
    }
  }

  lemma CodecStep(s: Sender, r: Receiver, packet: Packet)
    requires LegalInv(s, r)
    ensures LegalInv(s, r.(out := r.out + [CodecOut(packet)]))
  {
    AppendOutput(r.out, CodecOut(packet));
    AppendFaithful(s, r.out, CodecOut(packet));
    AppendOwnConfigs(s, r.out, CodecOut(packet));
  }

  /** What the log is after one more packet. */
  ghost predicate Logged(s: Sender, r: Receiver, o: Output)
    requires o.PacketOut? && o.sn < |s.sent|
  {
    var out := r.out + [o];
    && Increasing(Numbers(out))
    && (forall n | n in Numbers(out) :: n < o.sn + 1)
    && |Numbers(out)| == |Numbers(r.out)| + 1
    && Faithful(s, out) && OwnConfigs(s, out)
    && InForce(s, LastConfig(out), o.sn)
  }

  lemma ForwardLog(s: Sender, r: Receiver, o: Output)
    requires WellFormed(s) && LogInv(s, r)
    requires o.PacketOut? && r.next <= o.sn < |s.sent| && o.packet == PacketOf(s.sent[o.sn])
    requires s.sent[o.sn].SentMedia? ==> r.next > 0 && GroupOf(s.sent, r.next - 1) == GroupOf(s.sent, o.sn)
    ensures Logged(s, r, o)
  {
    AppendOutput(r.out, o);
    AppendFaithful(s, r.out, o);
    ForwardForce(s, LastConfig(r.out), r.next, o);
    AppendOwnConfigs(s, r.out, o);
    ForwardNumbers(Numbers(r.out), r.next, o.sn);
  }

  lemma ForwardForce(s: Sender, last: Option<nat>, next: nat, o: Output)
    requires WellFormed(s) && o.PacketOut? && next <= o.sn < |s.sent| && o.packet == PacketOf(s.sent[o.sn])
    requires next > 0 ==> InForce(s, last, next - 1)
    requires s.sent[o.sn].SentMedia? ==> next > 0 && GroupOf(s.sent, next - 1) == GroupOf(s.sent, o.sn)
    ensures InForce(s, if IsConfig(o) then Some(o.sn) else last, o.sn)
  {
    assert IsConfig(o) <==> s.sent[o.sn].SentConfig?;
  }

  lemma ForwardNumbers(ns: seq<nat>, next: nat, sn: nat)
    requires Increasing(ns) && next <= sn && forall n | n in ns :: n < next
    ensures Increasing(ns + [sn]) && forall n | n in ns + [sn] :: n < sn + 1
  {
    forall i | 0 <= i < |ns| ensures ns[i] < sn { assert ns[i] in ns; }
  }

  lemma DeliverLog(s: Sender, r: Receiver, q: Pending, a: Action)
    requires WellFormed(s) && LogInv(s, r) && a.Forward?
    requires r.next <= a.sn < |s.sent| && a.packet == PacketOf(s.sent[a.sn])
    requires s.sent[a.sn].SentMedia? ==> r.next > 0 && GroupOf(s.sent, r.next - 1) == GroupOf(s.sent, a.sn)
    ensures LogInv(s, Deliver(r, q, a))
  {
    var o := PacketOut(a.sn, a.group, a.packet);
    ForwardLog(s, r, o);
    DeliverMoves(r, q, a);
    LongerLog(s, r, Deliver(r, q, a), o);
  }

  lemma DeliverMoves(r: Receiver, q: Pending, a: Action)
    requires a.Forward? && r.next <= a.sn
    ensures var r' := Deliver(r, q, a);
            && r'.next == a.sn + 1 && Dropped(r') == Dropped(r) + (a.sn - r.next)
            && r'.out == r.out + [PacketOut(a.sn, a.group, a.packet)]
  {
  }

  lemma LongerLog(s: Sender, r: Receiver, r': Receiver, o: Output)
    requires LogInv(s, r) && o.PacketOut? && r.next <= o.sn && o.sn < |s.sent|
    requires r'.out == r.out + [o] && r'.next == o.sn + 1 && Dropped(r') == Dropped(r) + (o.sn - r.next)
    requires Logged(s, r, o)
    ensures LogInv(s, r')
  {
  }

  lemma LogUnchanged(s: Sender, r: Receiver, r': Receiver)
    requires LogInv(s, r) && r'.out == r.out && r'.next == r.next && r'.stats == r.stats
    ensures LogInv(s, r')
  {}

  lemma TakeLog(s: Sender, r: Receiver, now: nat)
    requires WellFormed(s) && LegalInv(s, r)
    ensures LogInv(s, OnTake(r, now))
  {
    var (q, a) := TakeNext(r.pending, r.next, now);
    if a.Forward? {
      TakeLegal(s, r.next, r.pending, now);
      DeliverLog(s, r, q, a);
      TakeDelivers(r, now, q, a);
    } else {
      TakeOnlyWaits(r, now, q, a);
      LogUnchanged(s, r, OnTake(r, now));
    }
  }

  lemma TakeDelivers(r: Receiver, now: nat, q: Pending, a: Action)
    requires TakeNext(r.pending, r.next, now) == (q, a) && a.Forward?
    ensures OnTake(r, now) == Deliver(r, q, a)
  {
  }

  lemma TakeOnlyWaits(r: Receiver, now: nat, q: Pending, a: Action)
    requires TakeNext(r.pending, r.next, now) == (q, a) && !a.Forward?
    ensures var r' := OnTake(r, now); r'.out == r.out && r'.next == r.next && r'.stats == r.stats
  {
  }

  lemma TakePending(s: Sender, r: Receiver, now: nat)
    requires WellFormed(s) && LegalInv(s, r)
    ensures var r' := OnTake(r, now);
            LegalGroups(s, r'.next, r'.pending.groups) && HeadSent(s, r'.next, r'.pending.groups)
  {
    TakeLegal(s, r.next, r.pending, now);
    var (q, a) := TakeNext(r.pending, r.next, now);
    TakeMoves(r, now);
    PendingAfter(s, r, OnTake(r, now), q, a);
  }

  lemma TakeMoves(r: Receiver, now: nat)
    ensures var (q, a) := TakeNext(r.pending, r.next, now);
            Moves(r, OnTake(r, now), q, a)
  {
  }

  ghost predicate Moves(r: Receiver, r': Receiver, q: Pending, a: Action) {
    if a.Forward? then r'.next == a.sn + 1 && r'.pending == q else r'.next == r.next && r'.pending == r.pending
  }

  lemma PendingAfter(s: Sender, r: Receiver, r': Receiver, q: Pending, a: Action)
    requires LegalGroups(s, r.next, r.pending.groups) && HeadSent(s, r.next, r.pending.groups)
    requires TakenLegal(s, r.next, q, a) && Moves(r, r', q, a)
    ensures LegalGroups(s, r'.next, r'.pending.groups) && HeadSent(s, r'.next, r'.pending.groups)
  {
  }

  lemma TakeStep(s: Sender, r: Receiver, now: nat)
    requires WellFormed(s) && LegalInv(s, r)
    ensures LegalInv(s, OnTake(r, now))
  {
    OnTakeInv(r, now);
    TakeLog(s, r, now);
    TakePending(s, r, now);
  }

  // ----- Every step of a legal run

  lemma UnrolledTruly(s: Sender, r: Receiver, k: nat)
    requires k < |s.sent| && Recent(s, r, k)
    ensures Unroll(HALF, r.newestPacket, k % RANGE) == k
    ensures Unroll(HALF, r.newestGroup, GroupOf(s.sent, k) % RANGE) == GroupOf(s.sent, k)
  {
    UnrollExactIff(HALF, r.newestPacket, k);
    UnrollExactIff(HALF, r.newestGroup, GroupOf(s.sent, k));
  }

  lemma ConfigStep(s: Sender, r: Receiver, k: nat, now: nat)
    requires WellFormed(s) && LegalInv(s, r) && k < |s.sent| && s.sent[k].SentConfig? && Recent(s, r, k)
    ensures var r' := OnStream(r, s.sent[k].packet, k % RANGE, GroupOf(s.sent, k) % RANGE, now);
            r'.status.Failed? || LegalInv(s, r')
  {
    UnrolledTruly(s, r, k);
    OnStreamInv(r, s.sent[k].packet, k % RANGE, GroupOf(s.sent, k) % RANGE, now);
    if r.next <= k {
      InsertStreamLegal(s, r.next, r.pending, k, now);
    }
  }

  lemma SymbolStep(solver: Solver, s: Sender, r: Receiver, k: nat, id: SymbolId, at: Instants)
    requires WellFormed(s) && Sound(solver, s) && LegalInv(s, r)
    requires k < |s.sent| && s.sent[k].SentMedia? && Recent(s, r, k)
    ensures var r' :=
              OnSymbol(solver, r, k % RANGE, GroupOf(s.sent, k) % RANGE, s.sent[k].oti, id, s.symbol(k, id), at);
            r'.status.Failed? || LegalInv(s, r')
  {
    UnrolledTruly(s, r, k);
    OnSymbolInv(solver, r, k % RANGE, GroupOf(s.sent, k) % RANGE, s.sent[k].oti, id, s.symbol(k, id), at);
    if r.next <= k {
      InsertDatagramLegal(solver, s, r.next, r.pending, k, id, at);
    }
  }

  lemma LegalStep(solver: Solver, s: Sender, r: Receiver, d: Delivery)
    requires WellFormed(s) && Sound(solver, s) && LegalInv(s, r) && Possible(s, r, d)
    ensures var r' := Apply(solver, r, Wire(s, d)); r'.status.Failed? || LegalInv(s, r')
  {
    match d
    case CodecRecord(h, _) => CodecStep(s, r, Codec(h));
    case ConfigRecord(k, now) => ConfigStep(s, r, k, now);
    case MediaSymbol(k, id, at) => SymbolStep(solver, s, r, k, id, at);
    case Alarm =>
    case Drain(now) => TakeStep(s, r, now);
  }

  lemma StartLegal(s: Sender)
    ensures LegalInv(s, START)
  {
    EmptyInv();
  }

  lemma {:induction false} LegalRunInv(solver: Solver, s: Sender, run: seq<Delivery>)
    requires WellFormed(s) && Sound(solver, s) && LegalRun(solver, s, run)
    ensures var r := Reach(solver, s, run); r.status.Failed? || LegalInv(s, r)
  {
    if run == [] {
      StartLegal(s);
    } else {
      LegalRunInv(solver, s, run[..|run| - 1]);
      LegalStep(solver, s, Reach(solver, s, run[..|run| - 1]), run[|run| - 1]);
    }
  }

  // ----- The theorems

  /** In every state of every legal run that has not ended in an error, the packets given to the
      client are the sender's, in strictly increasing order, and every number below the next
      one expected is accounted for exactly once, as forwarded or as dropped. */
  lemma OrderAndAccounting(solver: Solver, s: Sender, run: seq<Delivery>)
    requires WellFormed(s) && Sound(solver, s) && LegalRun(solver, s, run)
    requires !Reach(solver, s, run).status.Failed?
    ensures var r := Reach(solver, s, run);
            && Faithful(s, r.out)
            && Increasing(Numbers(r.out))
            && (forall n | n in Numbers(r.out) :: n < r.next)
            && |Numbers(r.out)| + Dropped(r) == r.next
  {
    LegalRunInv(solver, s, run);
  }

  lemma {:induction false} LastConfigAt(out: seq<Output>)
    ensures LastConfig(out).Some? ==>
            exists j :: 0 <= j < |out| && IsConfig(out[j]) && LastConfig(out) == Some(out[j].sn)
                        && forall m | j < m < |out| :: !IsConfig(out[m])
  {
    if out != [] {
      var last := |out| - 1;
      if IsConfig(out[last]) {
        assert out[last].sn == LastConfig(out).value;
      } else {
        LastConfigAt(out[..last]);
        if LastConfig(out).Some? {
          var j :| 0 <= j < last && IsConfig(out[..last][j]) && LastConfig(out[..last]) == Some(out[..last][j].sn)
                   && forall m | j < m < last :: !IsConfig(out[..last][m]);
          assert forall m | j < m < |out| :: !IsConfig(out[m]) by {
            assert forall m | 0 <= m < last :: out[..last][m] == out[m];
          }
        }
      }
    }
  }

  /** The last config sent no later than packet `k`. */
  ghost predicate ConfigBefore(s: Sender, c: nat, k: nat) {
    && c < k < |s.sent| && s.sent[c].SentConfig?
    && forall m | c < m <= k :: !s.sent[m].SentConfig?
  }

  lemma InForceIsBefore(s: Sender, c: nat, k: nat)
    requires InForce(s, Some(c), k) && !s.sent[k].SentConfig?
    ensures ConfigBefore(s, c, k)
  {
    ConfigFirst(s.sent, c, k);
    forall m | c < m <= k ensures !s.sent[m].SentConfig? {
      GroupOfMonotone(s.sent, c, m);
      GroupOfMonotone(s.sent, m, k);
    }
  }

  /** Whenever a media packet is given to the client, the last config given before it is the
      last one the sender sent before that packet. */
  lemma OwnConfigSafety(solver: Solver, s: Sender, run: seq<Delivery>, i: nat)
    requires WellFormed(s) && Sound(solver, s) && LegalRun(solver, s, run)
    requires !Reach(solver, s, run).status.Failed?
    requires var out := Reach(solver, s, run).out; i < |out| && out[i].PacketOut? && !IsConfig(out[i])
    ensures var out := Reach(solver, s, run).out;
            exists j :: 0 <= j < i && IsConfig(out[j]) && (forall m | j < m < i :: !IsConfig(out[m]))
                        && ConfigBefore(s, out[j].sn, out[i].sn)
  {
    LegalRunInv(solver, s, run);
    var out := Reach(solver, s, run).out;
    assert InForce(s, LastConfig(out[..i]), out[i].sn);
    assert !s.sent[out[i].sn].SentConfig?;
    OwnConfigAt(s, out, i);
  }

  lemma OwnConfigAt(s: Sender, out: seq<Output>, i: nat)
    requires WellFormed(s) && i < |out| && out[i].PacketOut? && out[i].sn < |s.sent|
    requires InForce(s, LastConfig(out[..i]), out[i].sn) && !s.sent[out[i].sn].SentConfig?
    ensures exists j :: 0 <= j < i && IsConfig(out[j]) && (forall m | j < m < i :: !IsConfig(out[m]))
                        && ConfigBefore(s, out[j].sn, out[i].sn)
  {
    LastConfigAt(out[..i]);
    var j :| 0 <= j < i && IsConfig(out[..i][j]) && LastConfig(out[..i]) == Some(out[..i][j].sn)
             && forall m | j < m < i :: !IsConfig(out[..i][m]);
    assert forall m | 0 <= m < i :: out[..i][m] == out[m];
    InForceIsBefore(s, out[j].sn, out[i].sn);
  }

  // ----- The drain loop

  function Deliverables(e: Entry<Group>): nat {
    |e.value.datagrams| + if e.value.config.Ready? then 1 else 0
  }

  /** Every packet taken leaves fewer packets to take, so the drain loop ends. */
  lemma TakeShrinks(p: Pending, next: nat, now: nat)
    requires TakeNext(p, next, now).1.Forward?
    ensures Sum(TakeNext(p, next, now).0.groups, Deliverables) < Sum(p.groups, Deliverables)
  {
    var n := NextPacket(p, next, now);
    var e := p.groups[n.index];
    var q := TakeNext(p, next, now).0;
    SumSplit(p.groups, n.index, Deliverables);
    assert p.groups[n.index..] == [e] + p.groups[n.index + 1..];
    SumConcat([e], p.groups[n.index + 1..], Deliverables);
    SumOne(e, Deliverables);
    assert q.groups == [q.groups[0]] + p.groups[n.index + 1..];
    SumConcat([q.groups[0]], p.groups[n.index + 1..], Deliverables);
    SumOne(q.groups[0], Deliverables);
  }

  /** Each take that forwards leaves fewer packets to forward. */
  lemma TakenShrinks(r: Receiver, now: nat)
    ensures var r' := OnTake(r, now);
            && (r'.status != r.status ==> r'.status.Waiting?)
            && (r'.status == r.status && !r'.status.Waiting? ==>
                  Sum(r'.pending.groups, Deliverables) < Sum(r.pending.groups, Deliverables))
  {
    if TakeNext(r.pending, r.next, now).1.Forward? {
      TakeShrinks(r.pending, r.next, now);
    }
  }

  /** Group `i` has the next expected packet ready to go. */
  predicate OffersNext(e: Entry<Group>, next: nat) {
    var g := e.value;
    || (g.config.Ready? && g.config.sn == next)
    || (!g.config.NoConfig? && g.datagrams != [] && g.datagrams[0].key == next)
  }

  lemma EarlierGroupEmpty(s: Sender, next: nat, p: Pending, i: nat, j: nat, now: nat)
    requires Sorted(p.groups) && LegalGroups(s, next, p.groups) && j < i < |p.groups| && OffersNext(p.groups[i], next)
    ensures GroupOffer(p, j, next, now).Nothing?
  {
    assert LegalGroup(s, next, p.groups[i]);
    assert GroupOf(s.sent, next) == p.groups[i].key by {
      var g := p.groups[i].value;
      if !(g.config.Ready? && g.config.sn == next) { assert g.datagrams[0] in g.datagrams; }
    }
    var g := p.groups[j].value;
    assert LegalGroup(s, next, p.groups[j]);
    if g.datagrams != [] {
      assert LegalDatagram(s, p.groups[j].key, next, g.datagrams[0]);
      LaterGroup(s.sent, g.datagrams[0].key, next);
      assert false;
    }
  }

  /** If the next expected packet is ready anywhere, it is the one taken, whatever the time. */
  lemma NextIsTaken(s: Sender, next: nat, p: Pending, i: nat, now: nat)
    requires Sorted(p.groups) && LegalGroups(s, next, p.groups) && i < |p.groups| && OffersNext(p.groups[i], next)
    ensures NextPacket(p, next, now).ReadyAt? && NextPacket(p, next, now).index == i
  {
    forall j | 0 <= j < i ensures GroupOffer(p, j, next, now).Nothing? {
      EarlierGroupEmpty(s, next, p, i, j, now);
    }
    FirstOffer(p, 0, i, next, now);
  }

  lemma {:induction false} FirstOffer(p: Pending, from: nat, i: nat, next: nat, now: nat)
    requires from <= i < |p.groups| && !GroupOffer(p, i, next, now).Nothing?
    requires forall j | from <= j < i :: GroupOffer(p, j, next, now).Nothing?
    ensures NextFrom(p, from, next, now) == GroupOffer(p, i, next, now)
    decreases i - from
  {
    if from < i {
      FirstOffer(p, from + 1, i, next, now);
    }
  }

  ghost predicate Quiet(p: Pending, next: nat) {
    forall i | 0 <= i < |p.groups| :: !OffersNext(p.groups[i], next)
  }

  ghost predicate QuietInv(r: Receiver) {
    r.status.Waiting? ==> Quiet(r.pending, r.next)
  }

  lemma QuietStep(solver: Solver, s: Sender, r: Receiver, d: Delivery)
    requires LegalInv(s, r) && QuietInv(r) && Possible(s, r, d)
    ensures QuietInv(Apply(solver, r, Wire(s, d)))
  {
    match d
    case Drain(now) => QuietTake(s, r, now);
    case _ =>
  }

  lemma QuietTake(s: Sender, r: Receiver, now: nat)
    requires LegalInv(s, r) && r.status.Draining?
    ensures QuietInv(OnTake(r, now))
  {
    TakeMoves(r, now);
    if !TakeNext(r.pending, r.next, now).1.Forward? {
      NotTakenIsQuiet(s, r.next, r.pending, now);
    }
  }

  lemma NotTakenIsQuiet(s: Sender, next: nat, p: Pending, now: nat)
    requires PendingInv(p) && LegalGroups(s, next, p.groups) && HeadSent(s, next, p.groups)
    requires !TakeNext(p, next, now).1.Forward?
    ensures Quiet(p, next)
  {
    forall i | 0 <= i < |p.groups| ensures !OffersNext(p.groups[i], next) {
      if OffersNext(p.groups[i], next) {
        NextIsTaken(s, next, p, i, now);
        assert false;
      }
    }
  }

  /** When the drain loop stops, the next expected packet is not ready anywhere. */
  lemma {:induction false} DrainLeavesNothing(solver: Solver, s: Sender, run: seq<Delivery>)
    requires WellFormed(s) && Sound(solver, s) && LegalRun(solver, s, run)
    ensures QuietInv(Reach(solver, s, run))
  {
    if run != [] {
      var before := run[..|run| - 1];
      DrainLeavesNothing(solver, s, before);
      LegalRunInv(solver, s, before);
      QuietStep(solver, s, Reach(solver, s, before), run[|run| - 1]);
    }
  }

  // ----- The deadline

  /** Some group that has its config holds a completed packet: only then is there a deadline. */
  ghost predicate HasWindow(p: Pending) {
    exists i :: 0 <= i < |p.groups| && GroupWaits(p.groups[i].value)
  }

  predicate GroupWaits(g: Group) { !g.config.NoConfig? && g.datagrams != [] }

  lemma {:induction false} OfferAtDeadline(p: Pending, from: nat, next: nat, now: nat, later: nat)
    requires from <= |p.groups| && NextFrom(p, from, next, now).Deadline?
    ensures now < NextFrom(p, from, next, now).instant
    ensures NextFrom(p, from, next, now).instant <= later ==> NextFrom(p, from, next, later).ReadyAt?
    decreases |p.groups| - from
  {
    if GroupOffer(p, from, next, now).Nothing? {
      OfferAtDeadline(p, from + 1, next, now, later);
    }
  }

  /** A deadline is in the future, and waking up at or after it does forward a packet. */
  lemma DeadlineForwards(p: Pending, next: nat, now: nat, later: nat)
    requires TakeNext(p, next, now).1.WaitUntil?
    ensures now < TakeNext(p, next, now).1.instant
    ensures TakeNext(p, next, now).1.instant <= later ==> TakeNext(p, next, later).1.Forward?
  {
    OfferAtDeadline(p, 0, next, now, later);
  }

  /** `r` is the least of `acc` and the completion times in `ds`, if there is any. */
  ghost predicate LeastOf(r: Option<nat>, ds: set<nat>, acc: Option<nat>) {
    && (r.None? <==> ds == {} && acc.None?)
    && (r.Some? ==> (forall t | t in ds :: r.value <= t) && (acc.Some? ==> r.value <= acc.value))
    && (r.Some? ==> r == acc || r.value in ds)
  }

  ghost function Times(ds: seq<Entry<Datagram>>): set<nat> {
    set d | d in ds :: d.value.instant
  }

  /** The completion times of all packets pending in any group. */
  ghost function AllTimes(groups: seq<Entry<Group>>): set<nat> {
    if groups == [] then {} else Times(groups[0].value.datagrams) + AllTimes(groups[1..])
  }

  lemma {:induction false} MinDatagramLeast(ds: seq<Entry<Datagram>>, acc: Option<nat>)
    ensures LeastOf(MinDatagram(ds, acc), Times(ds), acc)
    decreases |ds|
  {
    if ds != [] {
      var first := MinOf(acc, ds[0].value.instant);
      MinDatagramLeast(ds[1..], first);
      assert ds == [ds[0]] + ds[1..];
      assert Times(ds) == {ds[0].value.instant} + Times(ds[1..]);
    }
  }

  lemma {:induction false} MinInstantLeast(groups: seq<Entry<Group>>, acc: Option<nat>)
    ensures LeastOf(MinInstantFrom(groups, acc), AllTimes(groups), acc)
    decreases |groups|
  {
    if groups != [] {
      MinDatagramLeast(groups[0].value.datagrams, acc);
      MinInstantLeast(groups[1..], MinDatagram(groups[0].value.datagrams, acc));
    }
  }

  lemma {:induction false} DeadlineIsMin(p: Pending, from: nat, next: nat, now: nat)
    requires from <= |p.groups| && NextFrom(p, from, next, now).Deadline?
    ensures MinInstant(p).Some? && NextFrom(p, from, next, now).instant == MinInstant(p).value + MAX_BUFFERING
    decreases |p.groups| - from
  {
    if GroupOffer(p, from, next, now).Nothing? {
      DeadlineIsMin(p, from + 1, next, now);
    }
  }

  /** The loop waits for the window of the packet completed first of all pending ones, not longer. */
  lemma DeadlineIsEarliest(p: Pending, next: nat, now: nat)
    requires TakeNext(p, next, now).1.WaitUntil?
    ensures var until := TakeNext(p, next, now).1.instant;
            && (forall t | t in AllTimes(p.groups) :: until <= t + MAX_BUFFERING)
            && (exists t :: t in AllTimes(p.groups) && until == t + MAX_BUFFERING)
  {
    DeadlineIsMin(p, 0, next, now);
    MinInstantLeast(p.groups, None);
    assert MinInstant(p).value in AllTimes(p.groups);
  }

  /** Whenever the loop waits, it waits for a deadline exactly if a group that has its config holds a
      completed packet, and then until the window of the packet completed first is over. */
  ghost predicate DeadlineInv(r: Receiver) {
    r.status.Waiting? ==>
      && (r.deadline.Some? <==> HasWindow(r.pending))
      && (r.deadline.Some? ==> EarliestEnd(r.pending, r.deadline.value))
  }

  ghost predicate EarliestEnd(p: Pending, until: nat) {
    && (forall t | t in AllTimes(p.groups) :: until <= t + MAX_BUFFERING)
    && (exists t :: t in AllTimes(p.groups) && until == t + MAX_BUFFERING)
  }

  lemma {:induction false} WindowHasTime(groups: seq<Entry<Group>>, i: nat)
    requires i < |groups| && groups[i].value.datagrams != []
    ensures AllTimes(groups) != {}
  {
    if i == 0 {
      var ds := groups[0].value.datagrams;
      assert ds[0] in ds && ds[0].value.instant in Times(ds);
    } else {
      WindowHasTime(groups[1..], i - 1);
    }
  }

  lemma {:induction false} DeadlineHasGroup(p: Pending, from: nat, next: nat, now: nat)
    requires from <= |p.groups| && NextFrom(p, from, next, now).Deadline?
    ensures HasWindow(p)
    decreases |p.groups| - from
  {
    if GroupOffer(p, from, next, now).Nothing? {
      DeadlineHasGroup(p, from + 1, next, now);
    } else {
      assert GroupWaits(p.groups[from].value);
    }
  }

  lemma WindowOffers(p: Pending, i: nat, next: nat, now: nat)
    requires i < |p.groups| && GroupWaits(p.groups[i].value)
    ensures !GroupOffer(p, i, next, now).Nothing?
  {
    WindowHasTime(p.groups, i);
    MinInstantLeast(p.groups, None);
  }

  lemma TakeSetsDeadline(r: Receiver, now: nat)
    ensures !TakeNext(r.pending, r.next, now).1.Forward? ==> DeadlineInv(OnTake(r, now))
  {
    var p := r.pending;
    match NextPacket(p, r.next, now)
    case Nothing =>
      if HasWindow(p) {
        var i :| 0 <= i < |p.groups| && GroupWaits(p.groups[i].value);
        WindowOffers(p, i, r.next, now);
        assert false;
      }
    case Deadline(_) =>
      DeadlineHasGroup(p, 0, r.next, now);
      DeadlineIsEarliest(p, r.next, now);
    case ReadyAt(_, _) =>
  }

  lemma StepKeepsDeadline(solver: Solver, r: Receiver, x: Step)
    requires DeadlineInv(r) && Enabled(r, x)
    ensures DeadlineInv(Apply(solver, r, x))
  {
    match x
    case Take(now) => TakeSetsDeadline(r, now);
    case _ =>
  }

  /** The bounded wait, in every run of any peer. */
  lemma {:induction false} WaitIsBounded(solver: Solver, run: seq<Step>)
    requires IsRun(solver, START, run)
    ensures DeadlineInv(Exec(solver, START, run))
  {
    if run != [] {
      var before := run[..|run| - 1];
      WaitIsBounded(solver, before);
      StepKeepsDeadline(solver, Exec(solver, START, before), run[|run| - 1]);
    }
  }

  // ----- What is taken when something is given up

  /** What a group that waits would give next. */
  function FirstOf(g: Group): nat
    requires GroupWaits(g)
  {
    if g.config.Ready? then g.config.sn else g.datagrams[0].key
  }

  lemma FirstIsLegal(s: Sender, next: nat, e: Entry<Group>)
    requires LegalGroup(s, next, e) && GroupWaits(e.value)
    ensures next <= FirstOf(e.value) < |s.sent| && GroupOf(s.sent, FirstOf(e.value)) == e.key
  {
    assert e.value.datagrams[0] in e.value.datagrams;
    assert LegalDatagram(s, e.key, next, e.value.datagrams[0]);
  }

  /** Not more is given up than has to be: what is taken is the lowest number that any group waiting
      for its turn would give. */
  lemma LowestIsTaken(s: Sender, next: nat, p: Pending, now: nat, i: nat)
    requires PendingInv(p) && LegalGroups(s, next, p.groups) && HeadSent(s, next, p.groups)
    requires i < |p.groups| && GroupWaits(p.groups[i].value) && TakeNext(p, next, now).1.Forward?
    ensures TakeNext(p, next, now).1.sn <= FirstOf(p.groups[i].value)
  {
    var n, a := NextPacket(p, next, now), TakeNext(p, next, now).1;
    FirstIsLegal(s, next, p.groups[i]);
    TakeLegal(s, next, p, now);
    if a.sn > next {
      WindowOffers(p, i, next, now);
      assert n.index <= i;
      if n.index == i {
        TakenIsFirst(p, i, next, now);
      } else {
        TakenFromGroup(p, next, now);
        LaterGroup(s.sent, a.sn, FirstOf(p.groups[i].value));
      }
    }
  }

  lemma TakenFromGroup(p: Pending, next: nat, now: nat)
    requires NextPacket(p, next, now).ReadyAt?
    ensures TakeNext(p, next, now).1.group == p.groups[NextPacket(p, next, now).index].key
  {
  }

  lemma TakenIsFirst(p: Pending, i: nat, next: nat, now: nat)
    requires NextPacket(p, next, now).ReadyAt? && NextPacket(p, next, now).index == i
    requires i < |p.groups| && GroupWaits(p.groups[i].value) && TakeNext(p, next, now).1.sn != next
    ensures TakeNext(p, next, now).1.sn == FirstOf(p.groups[i].value)
  {
  }

  // ----- The newest numbers are the greatest delivered

  /** The greatest packet number delivered, and the greatest group; zero before anything came. */
  function GreatestPacket(run: seq<Delivery>): nat {
    if run == [] then 0
    else
      var before, d := GreatestPacket(run[..|run| - 1]), run[|run| - 1];
      if d.ConfigRecord? || d.MediaSymbol? then Max(before, d.k) else before
  }

  function GreatestGroup(s: Sender, run: seq<Delivery>): nat
    requires forall d | d in run :: OfSender(s, d)
  {
    if run == [] then 0
    else
      var before, d := GreatestGroup(s, run[..|run| - 1]), run[|run| - 1];
      assert d in run && OfSender(s, d);
      if d.ConfigRecord? || d.MediaSymbol? then Max(before, GroupOf(s.sent, d.k)) else before
  }

  lemma StepIsNewest(solver: Solver, s: Sender, r: Receiver, d: Delivery)
    requires WellFormed(s) && Possible(s, r, d)
    ensures var r' := Apply(solver, r, Wire(s, d));
            if d.ConfigRecord? || d.MediaSymbol? then
              r'.newestPacket == Max(r.newestPacket, d.k) && r'.newestGroup == Max(r.newestGroup, GroupOf(s.sent, d.k))
            else r'.newestPacket == r.newestPacket && r'.newestGroup == r.newestGroup
  {
    if d.ConfigRecord? || d.MediaSymbol? {
      UnrolledTruly(s, r, d.k);
    }
  }

  /** So what is recent is recent against everything delivered so far, read off the run. */
  lemma {:induction false} NewestIsGreatest(solver: Solver, s: Sender, run: seq<Delivery>)
    requires WellFormed(s) && LegalRun(solver, s, run)
    ensures Reach(solver, s, run).newestPacket == GreatestPacket(run)
    ensures Reach(solver, s, run).newestGroup == GreatestGroup(s, run)
  {
    if run != [] {
      var before := run[..|run| - 1];
      NewestIsGreatest(solver, s, before);
      StepIsNewest(solver, s, Reach(solver, s, before), run[|run| - 1]);
    }
  }

  // ----- Why the sender's numbering matters

  lemma ConfigTakenFromFront(p: Pending, next: nat, now: nat)
    requires p.groups != []
    requires var g := p.groups[0].value;
             g.config.Ready? && g.datagrams != [] && g.datagrams[0].key == next < g.config.sn
    ensures TakeNext(p, next, now) == TakeConfig(p, 0)
    ensures MinInstant(TakeConfig(p, 0).0) == MinInstant(p)
  {
    var q := TakeConfig(p, 0).0;
    assert p.groups[..0] == [];
    assert q.groups[1..] == p.groups[1..];
  }

  lemma {:induction false} MinExists(ds: seq<Entry<Datagram>>, acc: Option<nat>)
    requires ds != [] || acc.Some?
    ensures MinDatagram(ds, acc).Some?
    decreases |ds|
  {
    if ds != [] {
      MinExists(ds[1..], MinOf(acc, ds[0].value.instant));
    }
  }

  lemma {:induction false} MinStays(groups: seq<Entry<Group>>, acc: Option<nat>)
    requires acc.Some?
    ensures MinInstantFrom(groups, acc).Some?
    decreases |groups|
  {
    if groups != [] {
      MinExists(groups[0].value.datagrams, acc);
      MinStays(groups[1..], MinDatagram(groups[0].value.datagrams, acc));
    }
  }

  /** From every state in which the front group's first packet is the next one, but its ready config
      has a higher number: the config overtakes the packet, which follows once the window has passed
      and moves the next expected number back. `VideoLateConfig` has the runs that lead there. */
  lemma LateConfigMovesBack(r: Receiver, now: nat, later: nat)
    requires r.pending.groups != []
    requires var g := r.pending.groups[0].value;
             g.config.Ready? && g.datagrams != [] && g.datagrams[0].key == r.next < g.config.sn
    requires MinInstant(r.pending).Some? ==> MinInstant(r.pending).value + MAX_BUFFERING <= later
    ensures var r1 := OnTake(r, now);
            var r2 := OnTake(r1, later);
            r1.next == r.pending.groups[0].value.config.sn + 1 && r2.next == r.next + 1 && r2.next < r1.next
  {
    var g := r.pending.groups[0].value;
    ConfigTakenFromFront(r.pending, r.next, now);
    var q := TakeConfig(r.pending, 0).0;
    var r1 := OnTake(r, now);
    assert r1.pending == q && r1.next == g.config.sn + 1;
    MinExists(g.datagrams, None);
    MinStays(r.pending.groups[1..], MinDatagram(g.datagrams, None));
    assert GroupOffer(q, 0, r1.next, later) == ReadyAt(0, false);
    assert TakeNext(q, r1.next, later) == TakeDatagram(q, 0);
  }

  // ----- The send driver

  /** What `OrderAndAccounting` says of the sender of a driver's packets, whatever of the driver's
      messages arrives, when and how often (see `VideoDelivery.WireIsDelivered`). */
  lemma SendDriverOrder(driver: SendDriver, solver: Solver, run: seq<Delivery>)
    requires driver.Valid() && Inverts(solver, driver.encode)
    requires var s := SenderOf(driver.encode, driver.sent);
             WellFormed(s) && LegalRun(solver, s, run) && !Reach(solver, s, run).status.Failed?
    ensures var s := SenderOf(driver.encode, driver.sent);
            var r := Reach(solver, s, run);
            Faithful(s, r.out) && Increasing(Numbers(r.out)) && |Numbers(r.out)| + Dropped(r) == r.next
  {
    InvertingIsSound(solver, driver.encode, driver.sent);
    OrderAndAccounting(solver, SenderOf(driver.encode, driver.sent), run);
  }

  /** Sender and receiver together: in every run of the receiver whose messages are all on the wire of
      a send driver, the client is given packets the driver was given, in order and counted. */
  lemma EndToEndOrder(driver: SendDriver, solver: Solver, run: seq<Step>)
    requires driver.Valid() && Inverts(solver, driver.encode)
    requires WellFormed(SenderOf(driver.encode, driver.sent)) && WireRun(driver, solver, run)
    requires !Exec(solver, START, run).status.Failed?
    ensures var r := Exec(solver, START, run);
            && Faithful(SenderOf(driver.encode, driver.sent), r.out)
            && Increasing(Numbers(r.out)) && |Numbers(r.out)| + Dropped(r) == r.next
  {
    var ds := WireRunIsLegal(driver, solver, run);
    SendDriverOrder(driver, solver, ds);
  }
}
