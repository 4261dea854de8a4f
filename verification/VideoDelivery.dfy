/** A legal sender behind a network that may lose, duplicate, delay and reorder its messages, and
    that everything pending in the video receiver is then the sender's. */
module VideoDelivery {
  import opened Wrappers
  import opened SortedVec
  import opened AvPacket
  import opened Fec
  import opened Sequencer
  import opened VideoGroup
  import opened VideoPending
  import opened VideoInvariant
  import opened VideoAdmission
  import opened VideoReceiver
  import opened VideoSender

  /** What is sent: the numbered packets, and the symbol each id of an object stands for. */
  datatype Sender = Sender(sent: seq<SentPacket>, symbol: (nat, SymbolId) -> Bytes)

  ghost predicate WellFormed(s: Sender) {
    forall k | 0 <= k < |s.sent| ::
      match s.sent[k]
      case SentConfig(packet) => packet.Media? && packet.media.isConfig && |packet.payload| <= MAX_CONFIG_PAYLOAD
      case SentMedia(media, payload, _) => media.pts < PTS_LIMIT && !media.isConfig && media.size == |payload|
  }

  /** The symbols are those the sender made for packet `k`. */
  ghost predicate Genuine(s: Sender, k: nat, received: map<SymbolId, Bytes>) {
    forall id | id in received :: received[id] == s.symbol(k, id)
  }

  /** From genuine symbols the solver gives nothing yet, or the object that was sent. */
  ghost predicate Sound(solver: Solver, s: Sender) {
    forall k, received | 0 <= k < |s.sent| && s.sent[k].SentMedia? && s.sent[k].media.pts < PTS_LIMIT
                         && Genuine(s, k, received) ::
      var r := solver(s.sent[k].oti, received);
      r.Some? ==> r.value == ObjectOf(s.sent[k])
  }

  // ----- Deliveries

  datatype Delivery =
    | CodecRecord(header: CodecHeader, now: nat)
    | ConfigRecord(k: nat, now: nat)
    | MediaSymbol(k: nat, id: SymbolId, at: Instants)
    | Alarm
    | Drain(now: nat)

  predicate OfSender(s: Sender, d: Delivery) {
    match d
    case ConfigRecord(k, _) => k < |s.sent| && s.sent[k].SentConfig?
    case MediaSymbol(k, _, _) => k < |s.sent| && s.sent[k].SentMedia?
    case _ => true
  }

  function Wire(s: Sender, d: Delivery): Step
    requires OfSender(s, d)
  {
    match d
    case CodecRecord(h, now) => Stream(Codec(h), 0, 0, now)
    case ConfigRecord(k, now) => Stream(s.sent[k].packet, k % RANGE, GroupOf(s.sent, k) % RANGE, now)
    case MediaSymbol(k, id, at) =>
      Step.Symbol(k % RANGE, GroupOf(s.sent, k) % RANGE, s.sent[k].oti, id, s.symbol(k, id), at)
    case Alarm => Timer
    case Drain(now) => Take(now)
  }

  // ----- The messages of the send driver are such deliveries

  /** The sender whose packets these are, with its encoder. */
  function SenderOf(encode: Encoder, sent: seq<SentPacket>): Sender {
    Sender(sent, (k: nat, id) => if k < |sent| then SymbolOf(encode, sent[k], id) else [])
  }

  /** A message arriving at the receiver, with the clock readings taken then. */
  function Arrival(m: Message, now: nat, at: Instants): Step {
    match m
    case StreamMsg(rawSn, rawGroup, packet) => Stream(packet, rawSn, rawGroup, now)
    case SymbolMsg(rawSn, rawGroup, oti, id, data) => Step.Symbol(rawSn, rawGroup, oti, id, data, at)
  }

  /** Every message a send driver has put on the wire is, whenever it arrives, a delivery of the
      sender of the packets given to the driver. So what holds of runs fed by a legal sender holds
      of runs fed by the driver's messages. */
  lemma WireIsDelivered(driver: SendDriver, m: Message, now: nat, at: Instants) returns (d: Delivery)
    requires driver.Valid() && m in driver.wire
    ensures var s := SenderOf(driver.encode, driver.sent);
            OfSender(s, d) && Wire(s, d) == Arrival(m, now, at)
  {
    assert Stamped(driver.encode, driver.sent, m);
    d := StampedDelivery(driver.encode, driver.sent, m, now, at);
  }

  lemma StampedDelivery(encode: Encoder, sent: seq<SentPacket>, m: Message, now: nat, at: Instants)
      returns (d: Delivery)
    requires Stamped(encode, sent, m)
    ensures OfSender(SenderOf(encode, sent), d) && Wire(SenderOf(encode, sent), d) == Arrival(m, now, at)
  {
    if IsCodec(m) {
      d := CodecRecord(m.packet.header, now);
    } else {
      var k :| StampedAs(encode, sent, m, k);
      d := DeliveryOf(m, k, now, at);
    }
  }

  /** The delivery of a message of packet `k`. */
  function DeliveryOf(m: Message, k: nat, now: nat, at: Instants): Delivery {
    match m
    case StreamMsg(_, _, _) => ConfigRecord(k, now)
    case SymbolMsg(_, _, _, id, _) => MediaSymbol(k, id, at)
  }

  /** The solver never gives another object than the one its symbols were made of. */
  ghost predicate Inverts(solver: Solver, encode: Encoder) {
    forall oti, bytes, received | MadeOf(encode, oti, bytes, received) ::
      solver(oti, received).Some? ==> solver(oti, received).value == bytes
  }

  ghost predicate MadeOf(encode: Encoder, oti: Oti, bytes: Bytes, received: map<SymbolId, Bytes>) {
    forall id | id in received :: received[id] == encode(oti, bytes, id)
  }

  lemma InvertingIsSound(solver: Solver, encode: Encoder, sent: seq<SentPacket>)
    requires Inverts(solver, encode)
    ensures Sound(solver, SenderOf(encode, sent))
  {
    var s := SenderOf(encode, sent);
    forall k, received | 0 <= k < |s.sent| && s.sent[k].SentMedia? && s.sent[k].media.pts < PTS_LIMIT
                         && Genuine(s, k, received)
      ensures var r := solver(s.sent[k].oti, received); r.Some? ==> r.value == ObjectOf(s.sent[k])
    {
      var p := s.sent[k];
      assert MadeOf(encode, p.oti, ObjectOf(p), received);
    }
  }

  // ----- Legal runs

  /** Packet and group number are within half the counter range of the newest seen. */
  predicate Recent(s: Sender, r: Receiver, k: nat)
    requires k < |s.sent|
  {
    InWindow(HALF, r.newestPacket, k) && InWindow(HALF, r.newestGroup, GroupOf(s.sent, k))
  }

  predicate Possible(s: Sender, r: Receiver, d: Delivery) {
    && OfSender(s, d)
    && Enabled(r, Wire(s, d))
    && (d.ConfigRecord? ==> Recent(s, r, d.k))
    && (d.MediaSymbol? ==> Recent(s, r, d.k))
  }

  function Reach(solver: Solver, s: Sender, run: seq<Delivery>): Receiver
    requires forall d | d in run :: OfSender(s, d)
  {
    if run == [] then START
    else Apply(solver, Reach(solver, s, run[..|run| - 1]), Wire(s, run[|run| - 1]))
  }

  predicate LegalRun(solver: Solver, s: Sender, run: seq<Delivery>) {
    && (forall d | d in run :: OfSender(s, d))
    && (run == [] ||
        var before := run[..|run| - 1];
        LegalRun(solver, s, before) && Possible(s, Reach(solver, s, before), run[|run| - 1]))
  }

  function Wires(s: Sender, run: seq<Delivery>): seq<Step>
    requires forall d | d in run :: OfSender(s, d)
  {
    if run == [] then [] else Wires(s, run[..|run| - 1]) + [Wire(s, run[|run| - 1])]
  }

  /** A legal run is a run like any other, so what holds of every run holds of it. */
  lemma {:induction false} LegalIsRun(solver: Solver, s: Sender, run: seq<Delivery>)
    requires WellFormed(s) && LegalRun(solver, s, run)
    ensures IsRun(solver, START, Wires(s, run))
    ensures Exec(solver, START, Wires(s, run)) == Reach(solver, s, run)
  {
    if run != [] {
      var before := run[..|run| - 1];
      LegalIsRun(solver, s, before);
      var all := Wires(s, run);
      assert all[..|all| - 1] == Wires(s, before) && all[|all| - 1] == Wire(s, run[|run| - 1]);
    }
  }

  // ----- Runs fed by the messages of a send driver

  /** A step of the receiver's own, or a message of the driver arriving before its packet is half the
      counter range behind the newest one seen. */
  ghost predicate FromWire(encode: Encoder, sent: seq<SentPacket>, wire: seq<Message>, r: Receiver, x: Step) {
    || x.Timer? || x.Take?
    || exists m, now, at :: m in wire && x == Arrival(m, now, at) && InTime(encode, sent, r, m)
  }

  ghost predicate InTime(encode: Encoder, sent: seq<SentPacket>, r: Receiver, m: Message) {
    IsCodec(m) || exists k :: StampedAs(encode, sent, m, k) && Recent(SenderOf(encode, sent), r, k)
  }

  /** A run whose messages are all on the driver's wire: each may arrive late, repeatedly, in any
      order, or not at all. */
  ghost predicate WireRun(driver: SendDriver, solver: Solver, run: seq<Step>)
    reads driver
  {
    run == [] ||
    var before, last := run[..|run| - 1], run[|run| - 1];
    var r := Exec(solver, START, before);
    WireRun(driver, solver, before) && Enabled(r, last) && FromWire(driver.encode, driver.sent, driver.wire, r, last)
  }

  lemma StepIsDelivered(encode: Encoder, sent: seq<SentPacket>, wire: seq<Message>, r: Receiver, x: Step)
      returns (d: Delivery)
    requires Enabled(r, x) && FromWire(encode, sent, wire, r, x)
    ensures Possible(SenderOf(encode, sent), r, d) && Wire(SenderOf(encode, sent), d) == x
  {
    if x.Timer? {
      d := Alarm;
    } else if x.Take? {
      d := Drain(x.now);
    } else {
      var m, now, at :| m in wire && x == Arrival(m, now, at) && InTime(encode, sent, r, m);
      if IsCodec(m) {
        d := CodecRecord(m.packet.header, now);
      } else {
        var k :| StampedAs(encode, sent, m, k) && Recent(SenderOf(encode, sent), r, k);
        d := DeliveryOf(m, k, now, at);
      }
    }
  }

  lemma RunExtends(solver: Solver, s: Sender, run: seq<Delivery>, d: Delivery)
    requires LegalRun(solver, s, run) && Possible(s, Reach(solver, s, run), d)
    ensures LegalRun(solver, s, run + [d])
    ensures Wires(s, run + [d]) == Wires(s, run) + [Wire(s, d)]
    ensures Reach(solver, s, run + [d]) == Apply(solver, Reach(solver, s, run), Wire(s, d))
  {
    assert (run + [d])[..|run|] == run;
  }

  lemma NextIsLegal(solver: Solver, s: Sender, earlier: seq<Delivery>, before: seq<Step>, d: Delivery, x: Step)
    requires LegalRun(solver, s, earlier) && Wires(s, earlier) == before
    requires Reach(solver, s, earlier) == Exec(solver, START, before)
    requires Possible(s, Exec(solver, START, before), d) && Wire(s, d) == x
    ensures var ds, run := earlier + [d], before + [x];
            LegalRun(solver, s, ds) && Wires(s, ds) == run && Reach(solver, s, ds) == Exec(solver, START, run)
  {
    RunExtends(solver, s, earlier, d);
    assert (before + [x])[..|before|] == before;
  }

  /** Every such run is a run fed by the legal sender of the driver's packets. */
  lemma {:induction false} WireRunIsLegal(driver: SendDriver, solver: Solver, run: seq<Step>)
      returns (ds: seq<Delivery>)
    requires WireRun(driver, solver, run)
    ensures var s := SenderOf(driver.encode, driver.sent);
            LegalRun(solver, s, ds) && Wires(s, ds) == run && Reach(solver, s, ds) == Exec(solver, START, run)
  {
    if run == [] {
      ds := [];
    } else {
      var before, last := run[..|run| - 1], run[|run| - 1];
      var earlier := WireRunIsLegal(driver, solver, before);
      var d := StepIsDelivered(driver.encode, driver.sent, driver.wire, Exec(solver, START, before), last);
      NextIsLegal(solver, SenderOf(driver.encode, driver.sent), earlier, before, d, last);
      assert run == before + [last];
      ds := earlier + [d];
    }
  }

  /** Any message of the driver, without a word about how far behind it is. */
  ghost predicate AnyWireRun(driver: SendDriver, solver: Solver, run: seq<Step>)
    reads driver
  {
    run == [] ||
    var before, last := run[..|run| - 1], run[|run| - 1];
    && AnyWireRun(driver, solver, before) && Enabled(Exec(solver, START, before), last)
    && (last.Timer? || last.Take? || exists m, now, at :: m in driver.wire && last == Arrival(m, now, at))
  }

  ghost predicate NewestWithin(r: Receiver, n: nat) { r.newestPacket <= n && r.newestGroup <= n }

  lemma {:induction false} GroupsWithin(sent: seq<SentPacket>)
    ensures Groups(sent) <= |sent|
  {
    if sent != [] {
      GroupsWithin(sent[..|sent| - 1]);
    }
  }

  lemma AllRecent(s: Sender, r: Receiver, k: nat)
    requires k < |s.sent| < HALF && NewestWithin(r, |s.sent|)
    ensures Recent(s, r, k)
  {
    GroupsWithin(s.sent[..k + 1]);
  }

  lemma StepNewest(solver: Solver, s: Sender, r: Receiver, d: Delivery)
    requires Possible(s, r, d) && NewestWithin(r, |s.sent|)
    ensures NewestWithin(Apply(solver, r, Wire(s, d)), |s.sent|)
  {
    if d.ConfigRecord? || d.MediaSymbol? {
      UnrollExactIff(HALF, r.newestPacket, d.k);
      UnrollExactIff(HALF, r.newestGroup, GroupOf(s.sent, d.k));
      GroupsWithin(s.sent[..d.k + 1]);
    }
  }

  /** For the first 2^31 packets every message is in time, however late it arrives. */
  lemma {:induction false} EarlyRunIsWireRun(driver: SendDriver, solver: Solver, run: seq<Step>)
    requires driver.Valid() && |driver.sent| < HALF && AnyWireRun(driver, solver, run)
    ensures WireRun(driver, solver, run) && NewestWithin(Exec(solver, START, run), |driver.sent|)
  {
    if run != [] {
      var before, last := run[..|run| - 1], run[|run| - 1];
      EarlyRunIsWireRun(driver, solver, before);
      var r := Exec(solver, START, before);
      if !last.Timer? && !last.Take? {
        var m, now, at :| m in driver.wire && last == Arrival(m, now, at);
        StampedInTime(driver.encode, driver.sent, r, m);
      }
      var d := StepIsDelivered(driver.encode, driver.sent, driver.wire, r, last);
      StepNewest(solver, SenderOf(driver.encode, driver.sent), r, d);
    }
  }

  lemma StampedInTime(encode: Encoder, sent: seq<SentPacket>, r: Receiver, m: Message)
    requires Stamped(encode, sent, m) && |sent| < HALF && NewestWithin(r, |sent|)
    ensures InTime(encode, sent, r, m)
  {
    if !IsCodec(m) {
      var k :| StampedAs(encode, sent, m, k);
      AllRecent(SenderOf(encode, sent), r, k);
    }
  }

  // ----- What is pending belongs to the sender

  ghost predicate LegalDatagram(s: Sender, group: nat, next: nat, e: Entry<Datagram>) {
    && next <= e.key < |s.sent| && s.sent[e.key].SentMedia? && GroupOf(s.sent, e.key) == group
    && e.value.packet == PacketOf(s.sent[e.key]) && e.value.oti == s.sent[e.key].oti
  }

  ghost predicate LegalSegments(s: Sender, group: nat, next: nat, e: Entry<Segments>) {
    && next <= e.key < |s.sent| && s.sent[e.key].SentMedia? && GroupOf(s.sent, e.key) == group
    && e.value.decoder.oti == s.sent[e.key].oti && Genuine(s, e.key, e.value.decoder.received)
  }

  ghost predicate LegalConfig(s: Sender, group: nat, next: nat, c: Config) {
    c.Ready? ==>
      && next <= c.sn < |s.sent| && s.sent[c.sn].SentConfig? && GroupOf(s.sent, c.sn) == group
      && c.packet == s.sent[c.sn].packet
  }

  ghost predicate LegalGroup(s: Sender, next: nat, e: Entry<Group>) {
    && LegalConfig(s, e.key, next, e.value.config)
    && (forall d | d in e.value.datagrams :: LegalDatagram(s, e.key, next, d))
    && (forall d | d in e.value.segments :: LegalSegments(s, e.key, next, d))
  }

  ghost predicate LegalGroups(s: Sender, next: nat, groups: seq<Entry<Group>>) {
    forall i | 0 <= i < |groups| :: LegalGroup(s, next, groups[i])
  }

  ghost predicate NoneSent(groups: seq<Entry<Group>>) {
    forall i | 0 <= i < |groups| :: !groups[i].value.config.Sent?
  }

  /** Once a packet was forwarded, its group stays in front, as the only one with its config
      already sent. */
  ghost predicate HeadSent(s: Sender, next: nat, groups: seq<Entry<Group>>) {
    if next == 0 then NoneSent(groups)
    else
      && next <= |s.sent| && groups != []
      && groups[0].key == GroupOf(s.sent, next - 1) && groups[0].value.config.Sent?
      && NoneSent(groups[1..])
  }

  // ----- Admission keeps it

  lemma AboveLegal(s: Sender, next: nat, e: Entry<Group>, t: nat)
    requires LegalGroup(s, next, e)
    ensures LegalGroup(s, next, Entry(e.key, GroupAbove(e.value, t)))
  {
    KeepAboveKeys(e.value.datagrams, t);
    KeepAboveKeys(e.value.segments, t);
  }

  lemma {:induction false} RetireThroughLegal(s: Sender, next: nat, groups: seq<Entry<Group>>, t: nat)
    requires LegalGroups(s, next, groups)
    ensures LegalGroups(s, next, RetireThrough(groups, t))
  {
    if groups != [] {
      RetireThroughLegal(s, next, groups[1..], t);
      AboveLegal(s, next, groups[0], t);
    }
  }

  lemma {:induction false} RetireThroughNoneSent(groups: seq<Entry<Group>>, t: nat)
    requires NoneSent(groups)
    ensures NoneSent(RetireThrough(groups, t))
  {
    if groups != [] {
      RetireThroughNoneSent(groups[1..], t);
    }
  }

  lemma RetireThroughHead(s: Sender, next: nat, groups: seq<Entry<Group>>, t: nat)
    requires HeadSent(s, next, groups)
    ensures HeadSent(s, next, RetireThrough(groups, t))
  {
    if next == 0 {
      RetireThroughNoneSent(groups, t);
    } else {
      RetireThroughNoneSent(groups[1..], t);
      assert RetireThrough(groups, t)[1..] == RetireThrough(groups[1..], t);
    }
  }

  lemma AdmitLegal(s: Sender, next: nat, p: Pending, additional: nat, now: nat)
    requires PendingInv(p) && LegalGroups(s, next, p.groups) && HeadSent(s, next, p.groups)
    ensures var q := Admit(p, additional, now).0;
            LegalGroups(s, next, q.groups) && HeadSent(s, next, q.groups)
  {
    AdmitRetires(p, additional, now);
    var q := Admit(p, additional, now).0;
    if q != p {
      RetireThroughLegal(s, next, p.groups, q.retiredThrough.value);
      RetireThroughHead(s, next, p.groups, q.retiredThrough.value);
    }
  }

  // ----- Looking up the group keeps it

  lemma PrepareLegal(s: Sender, next: nat, p: Pending, k: nat)
    requires LegalGroups(s, next, p.groups) && HeadSent(s, next, p.groups)
    requires next <= k < |s.sent|
    ensures var q := PrepareGroup(p, GroupOf(s.sent, k)).0;
            LegalGroups(s, next, q.groups) && HeadSent(s, next, q.groups)
  {
    var group := GroupOf(s.sent, k);
    var i := Search(p.groups, group);
    if !Has(p.groups, group) {
      forall j | 0 <= j <= |p.groups|
        ensures LegalGroup(s, next, InsertAt(p.groups, i, Entry(group, EMPTY_GROUP))[j])
      {
        InsertedAt(p.groups, i, Entry(group, EMPTY_GROUP), j);
      }
      InsertHead(s, next, p.groups, k);
    }
  }

  /** A new group never gets in front of the one last forwarded from. */
  lemma InsertHead(s: Sender, next: nat, groups: seq<Entry<Group>>, k: nat)
    requires HeadSent(s, next, groups) && next <= k < |s.sent| && !Has(groups, GroupOf(s.sent, k))
    ensures var group := GroupOf(s.sent, k);
            HeadSent(s, next, InsertAt(groups, Search(groups, group), Entry(group, EMPTY_GROUP)))
  {
    var e := Entry(GroupOf(s.sent, k), EMPTY_GROUP);
    var i := Search(groups, e.key);
    var more := InsertAt(groups, i, e);
    if next == 0 {
      InsertNoneSent(groups, i, e);
    } else {
      GroupOfMonotone(s.sent, next - 1, k);
      InsertNoneSent(groups[1..], i - 1, e);
      assert more[1..] == InsertAt(groups[1..], i - 1, e);
    }
  }

  lemma InsertNoneSent(groups: seq<Entry<Group>>, i: nat, e: Entry<Group>)
    requires NoneSent(groups) && i <= |groups| && !e.value.config.Sent?
    ensures NoneSent(InsertAt(groups, i, e))
  {
    forall j | 0 <= j <= |groups| ensures !InsertAt(groups, i, e)[j].value.config.Sent? {
      InsertedAt(groups, i, e, j);
    }
  }

  /** Replacing a group by a legal one with the same config, or a ready one for none. */
  lemma ReplaceLegal(s: Sender, next: nat, groups: seq<Entry<Group>>, i: nat, g: Group)
    requires LegalGroups(s, next, groups) && HeadSent(s, next, groups) && i < |groups|
    requires LegalGroup(s, next, Entry(groups[i].key, g))
    requires g.config == groups[i].value.config || (groups[i].value.config.NoConfig? && g.config.Ready?)
    ensures var more := groups[i := Entry(groups[i].key, g)];
            LegalGroups(s, next, more) && HeadSent(s, next, more)
  {
    var more := groups[i := Entry(groups[i].key, g)];
    if next > 0 && i > 0 {
      assert more[1..] == groups[1..][i - 1 := Entry(groups[i].key, g)];
    } else if next > 0 {
      assert more[1..] == groups[1..];
    }
  }

  // ----- One symbol keeps it

  lemma AssembledIsSent(solver: Solver, s: Sender, k: nat, received: map<SymbolId, Bytes>)
    requires WellFormed(s) && Sound(solver, s) && k < |s.sent| && s.sent[k].SentMedia? && Genuine(s, k, received)
    ensures var r := solver(s.sent[k].oti, received);
            r.Some? ==> MediaPacket(r.value) == Ok(PacketOf(s.sent[k]))
  {
    MediaPacketRoundTrip(s.sent[k].media, s.sent[k].payload);
  }

  lemma FeedLegal(solver: Solver, s: Sender, next: nat, group: nat, g: Group, k: nat, id: SymbolId, now: nat)
    requires WellFormed(s) && Sound(solver, s)
    requires LegalGroup(s, next, Entry(group, g)) && GroupOk(g) && Has(g.segments, k)
    requires next <= k < |s.sent| && s.sent[k].SentMedia? && GroupOf(s.sent, k) == group
    ensures var (h, r) := FeedSegments(solver, g, k, s.sent[k].oti, id, s.symbol(k, id), now);
            r.Ok? ==> LegalGroup(s, next, Entry(group, h)) && h.config == g.config
  {
    var i := Search(g.segments, k);
    var e := g.segments[i];
    assert LegalSegments(s, group, next, e);
    var (decoder, r) := Decode(solver, e.value.decoder, s.sent[k].oti, id, s.symbol(k, id));
    if r.Ok? {
      assert Genuine(s, k, decoder.received);
      if r.value.Some? {
        AssembledIsSent(solver, s, k, decoder.received);
        var rest := g.(segments := RemoveAt(g.segments, i));
        RemovedLegal(s, next, group, g, i);
        InsertPacketLegal(s, next, group, rest, k, e.value.(decoder := decoder, assembled := r.value), now);
      } else {
        FedLegal(s, next, group, g, i, Entry(k, e.value.(decoder := decoder, assembled := r.value)));
      }
    }
  }

  lemma RemovedLegal(s: Sender, next: nat, group: nat, g: Group, i: nat)
    requires LegalGroup(s, next, Entry(group, g)) && i < |g.segments|
    ensures LegalGroup(s, next, Entry(group, g.(segments := RemoveAt(g.segments, i))))
  {
    assert forall d | d in RemoveAt(g.segments, i) :: d in g.segments;
  }

  lemma FedLegal(s: Sender, next: nat, group: nat, g: Group, i: nat, fed: Entry<Segments>)
    requires LegalGroup(s, next, Entry(group, g)) && i < |g.segments| && LegalSegments(s, group, next, fed)
    ensures LegalGroup(s, next, Entry(group, g.(segments := g.segments[i := fed])))
  {
    assert forall d | d in g.segments[i := fed] :: d in g.segments || d == fed;
  }

  lemma InsertPacketLegal(s: Sender, next: nat, group: nat, g: Group, k: nat, fed: Segments, now: nat)
    requires LegalGroup(s, next, Entry(group, g))
    requires next <= k < |s.sent| && s.sent[k].SentMedia? && GroupOf(s.sent, k) == group
    requires fed.decoder.oti == s.sent[k].oti
    requires fed.assembled.Some? && MediaPacket(fed.assembled.value) == Ok(PacketOf(s.sent[k]))
    ensures Assemble(fed, now).Ok?
    ensures LegalGroup(s, next, Entry(group, InsertPacket(g, k, Assemble(fed, now).value)))
  {
    var d := Entry(k, Assemble(fed, now).value);
    InsertMembers(g.datagrams, Search(g.datagrams, k), d);
  }

  lemma InsertSymbolLegal(solver: Solver, s: Sender, next: nat, group: nat, g: Group, k: nat, id: SymbolId,
                          at: Instants)
    requires WellFormed(s) && Sound(solver, s)
    requires LegalGroup(s, next, Entry(group, g)) && GroupOk(g)
    requires next <= k < |s.sent| && s.sent[k].SentMedia? && GroupOf(s.sent, k) == group
    requires ValidOti(s.sent[k].oti, MAX_VIDEO_PAYLOAD)
    ensures var (h, r) := InsertSymbol(solver, g, k, s.sent[k].oti, id, s.symbol(k, id), at);
            r.Ok? ==> LegalGroup(s, next, Entry(group, h)) && h.config == g.config
  {
    if !Has(g.datagrams, k) {
      PrepareSegmentsOk(g, k, s.sent[k].oti, at.created);
      OpenedLegal(s, next, group, g, k, at.created);
      var prepared := PrepareSegments(g, k, s.sent[k].oti, at.created).value;
      FeedLegal(solver, s, next, group, prepared, k, id, at.assembled);
    }
  }

  lemma OpenedLegal(s: Sender, next: nat, group: nat, g: Group, k: nat, now: nat)
    requires LegalGroup(s, next, Entry(group, g))
    requires next <= k < |s.sent| && s.sent[k].SentMedia? && GroupOf(s.sent, k) == group
    ensures var r := PrepareSegments(g, k, s.sent[k].oti, now); r.Ok? ==> LegalGroup(s, next, Entry(group, r.value))
  {
    if !Has(g.segments, k) {
      var e := Entry(k, Segments(NewDecoder(s.sent[k].oti), None, now));
      InsertMembers(g.segments, Search(g.segments, k), e);
      assert LegalSegments(s, group, next, e);
    }
  }

  lemma InsertAdmittedLegal(solver: Solver, s: Sender, next: nat, p: Pending, k: nat, id: SymbolId, at: Instants)
    requires WellFormed(s) && Sound(solver, s)
    requires PendingInv(p) && LegalGroups(s, next, p.groups) && HeadSent(s, next, p.groups)
    requires next <= k < |s.sent| && s.sent[k].SentMedia? && ValidOti(s.sent[k].oti, MAX_VIDEO_PAYLOAD)
    ensures var (q, r) := InsertAdmitted(solver, p, GroupOf(s.sent, k), k, s.sent[k].oti, id, s.symbol(k, id), at);
            r.Ok? ==> LegalGroups(s, next, q.groups) && HeadSent(s, next, q.groups)
  {
    var group := GroupOf(s.sent, k);
    PrepareLegal(s, next, p, k);
    PrepareGroupInv(p, group);
    var (q, index) := PrepareGroup(p, group);
    if index.Ok? {
      var g := q.groups[index.value].value;
      InsertSymbolLegal(solver, s, next, group, g, k, id, at);
      var (h, r) := InsertSymbol(solver, g, k, s.sent[k].oti, id, s.symbol(k, id), at);
      if r.Ok? {
        ReplaceLegal(s, next, q.groups, index.value, h);
      }
    }
  }

  lemma InsertDatagramLegal(solver: Solver, s: Sender, next: nat, p: Pending, k: nat, id: SymbolId, at: Instants)
    requires WellFormed(s) && Sound(solver, s)
    requires PendingInv(p) && LegalGroups(s, next, p.groups) && HeadSent(s, next, p.groups)
    requires next <= k < |s.sent| && s.sent[k].SentMedia?
    ensures var (q, r) := InsertDatagram(solver, p, GroupOf(s.sent, k), k, s.sent[k].oti, id, s.symbol(k, id), at);
            r.Ok? ==> LegalGroups(s, next, q.groups) && HeadSent(s, next, q.groups)
  {
    var group, oti := GroupOf(s.sent, k), s.sent[k].oti;
    if ValidOti(oti, MAX_VIDEO_PAYLOAD) && !Retired(p, k) && !InOtherGroup(p.groups, group, k) {
      if InOwnGroup(p.groups, group, k) {
        InsertAdmittedLegal(solver, s, next, p, k, id, at);
      } else {
        AdmitInv(p, Reservation(oti), at.admitted);
        AdmitLegal(s, next, p, Reservation(oti), at.admitted);
        var (q, admitted) := Admit(p, Reservation(oti), at.admitted);
        if admitted.Ok? && !Retired(q, k) {
          InsertAdmittedLegal(solver, s, next, q, k, id, at);
        }
      }
    }
  }

  lemma InsertStreamLegal(s: Sender, next: nat, p: Pending, k: nat, now: nat)
    requires PendingInv(p) && LegalGroups(s, next, p.groups) && HeadSent(s, next, p.groups)
    requires next <= k < |s.sent| && s.sent[k].SentConfig?
    ensures var (q, r) := InsertStream(p, GroupOf(s.sent, k), k, s.sent[k].packet, now);
            r.Ok? ==> LegalGroups(s, next, q.groups) && HeadSent(s, next, q.groups)
  {
    var group, packet := GroupOf(s.sent, k), s.sent[k].packet;
    if packet.Media? && packet.media.isConfig {
      AdmitInv(p, |packet.payload|, now);
      AdmitLegal(s, next, p, |packet.payload|, now);
      var (q, admitted) := Admit(p, |packet.payload|, now);
      if admitted.Ok? {
        PrepareLegal(s, next, q, k);
        var (q1, index) := PrepareGroup(q, group);
        if index.Ok? && q1.groups[index.value].value.config.NoConfig? {
          var g := q1.groups[index.value].value;
          ReplaceLegal(s, next, q1.groups, index.value, g.(config := Ready(k, packet)));
        }
      }
    }
  }

  // ----- Taking a packet keeps it, and moves the next number past the packet taken

  lemma LaterLegal(s: Sender, next: nat, sn: nat, e: Entry<Group>)
    requires LegalGroup(s, next, e) && next <= sn < |s.sent| && GroupOf(s.sent, sn) < e.key
    ensures LegalGroup(s, sn + 1, e)
  {
    forall d | d in e.value.datagrams ensures LegalDatagram(s, e.key, sn + 1, d) { LaterGroup(s.sent, sn, d.key); }
    forall d | d in e.value.segments ensures LegalSegments(s, e.key, sn + 1, d) { LaterGroup(s.sent, sn, d.key); }
    if e.value.config.Ready? { LaterGroup(s.sent, sn, e.value.config.sn); }
  }

  /** The groups kept when group `i` forwards packet `sn`, with `h` left of group `i`. */
  lemma KeptLegal(s: Sender, next: nat, groups: seq<Entry<Group>>, i: nat, h: Group, sn: nat)
    requires Sorted(groups) && LegalGroups(s, next, groups) && HeadSent(s, next, groups) && i < |groups|
    requires next <= sn < |s.sent| && GroupOf(s.sent, sn) == groups[i].key
    requires LegalGroup(s, sn + 1, Entry(groups[i].key, h)) && h.config.Sent?
    ensures LegalGroups(s, sn + 1, Kept(groups, i, h)) && HeadSent(s, sn + 1, Kept(groups, i, h))
  {
    var left := Kept(groups, i, h);
    forall j | 0 <= j < |left| ensures LegalGroup(s, sn + 1, left[j]) {
      if j > 0 {
        assert left[j] == groups[i + j];
        LaterLegal(s, next, sn, groups[i + j]);
      }
    }
    assert left[1..] == groups[i + 1..];
    forall j | 0 <= j < |left[1..]| ensures !left[1..][j].value.config.Sent? {
      assert left[1..][j] == groups[i + 1 + j];
      if next > 0 { assert groups[i + 1 + j] == groups[1..][i + j]; }
    }
  }

  lemma TakeConfigLegal(s: Sender, next: nat, p: Pending, i: nat)
    requires PendingInv(p) && LegalGroups(s, next, p.groups) && HeadSent(s, next, p.groups)
    requires i < |p.groups| && p.groups[i].value.config.Ready?
    ensures TakenLegal(s, next, TakeConfig(p, i).0, TakeConfig(p, i).1)
  {
    var e := p.groups[i];
    var sn := e.value.config.sn;
    assert LegalGroup(s, next, e);
    ConfigSentLegal(s, next, e);
    KeptLegal(s, next, p.groups, i, e.value.(config := Sent), sn);
  }

  /** Media of a group comes after its config. */
  lemma ConfigSentLegal(s: Sender, next: nat, e: Entry<Group>)
    requires LegalGroup(s, next, e) && e.value.config.Ready?
    ensures LegalGroup(s, e.value.config.sn + 1, Entry(e.key, e.value.(config := Sent)))
  {
    var sn, h := e.value.config.sn, e.value.(config := Sent);
    forall d | d in h.datagrams ensures LegalDatagram(s, e.key, sn + 1, d) { ConfigFirst(s.sent, sn, d.key); }
    forall d | d in h.segments ensures LegalSegments(s, e.key, sn + 1, d) { ConfigFirst(s.sent, sn, d.key); }
  }

  lemma PoppedLegal(s: Sender, next: nat, e: Entry<Group>)
    requires LegalGroup(s, next, e) && GroupOk(e.value) && e.value.datagrams != [] && e.value.config.Sent?
    ensures var sn := e.value.datagrams[0].key;
            var (h, _) := DropExpired(e.value.(datagrams := e.value.datagrams[1..]), sn);
            LegalGroup(s, sn + 1, Entry(e.key, h))
  {
    var g := e.value;
    var sn := g.datagrams[0].key;
    var h := DropExpired(g.(datagrams := g.datagrams[1..]), sn).0;
    PoppedKeys(g.datagrams);
    DrainedKeys(g.segments, sn);
    forall d | d in h.datagrams ensures LegalDatagram(s, e.key, sn + 1, d) {
      assert d in g.datagrams && sn < d.key;
    }
    forall d | d in h.segments ensures LegalSegments(s, e.key, sn + 1, d) {
      assert d in g.segments && sn <= d.key;
      FrontNotOpen(g, d);
    }
  }

  lemma FrontNotOpen(g: Group, d: Entry<Segments>)
    requires GroupOk(g) && g.datagrams != [] && d in g.segments
    ensures d.key != g.datagrams[0].key
  {
    assert d.key in Keys(g.segments) && g.datagrams[0].key in Keys(g.datagrams);
  }

  lemma TakeDatagramLegal(s: Sender, next: nat, p: Pending, i: nat)
    requires PendingInv(p) && LegalGroups(s, next, p.groups) && HeadSent(s, next, p.groups)
    requires i < |p.groups| && p.groups[i].value.config.Sent? && p.groups[i].value.datagrams != []
    ensures TakenLegal(s, next, TakeDatagram(p, i).0, TakeDatagram(p, i).1)
  {
    var e := p.groups[i];
    var d := e.value.datagrams[0];
    assert LegalGroup(s, next, e);
    assert d in e.value.datagrams;
    assert LegalDatagram(s, e.key, next, d);
    PoppedLegal(s, next, e);
    var h := DropExpired(e.value.(datagrams := e.value.datagrams[1..]), d.key).0;
    KeptLegal(s, next, p.groups, i, h, d.key);
    assert next > 0;
    assert forall j | 1 <= j < |p.groups| :: p.groups[j] == p.groups[1..][j - 1];
  }

  /** The packet taken is one the sender numbered, at or above the next number expected; media
      is only taken from the group that was forwarded from last. */
  ghost predicate TakenLegal(s: Sender, next: nat, q: Pending, a: Action) {
    a.Forward? ==>
      && next <= a.sn < |s.sent|
      && a.packet == PacketOf(s.sent[a.sn]) && a.group == GroupOf(s.sent, a.sn)
      && LegalGroups(s, a.sn + 1, q.groups) && HeadSent(s, a.sn + 1, q.groups)
      && (s.sent[a.sn].SentMedia? ==> next > 0 && GroupOf(s.sent, next - 1) == GroupOf(s.sent, a.sn))
  }

  lemma TakeLegal(s: Sender, next: nat, p: Pending, now: nat)
    requires PendingInv(p) && LegalGroups(s, next, p.groups) && HeadSent(s, next, p.groups)
    ensures TakenLegal(s, next, TakeNext(p, next, now).0, TakeNext(p, next, now).1)
  {
    match NextPacket(p, next, now)
    case Nothing =>
    case Deadline(_) =>
    case ReadyAt(index, isConfig) =>
      if isConfig {
        TakeConfigLegal(s, next, p, index);
      } else {
        TakeDatagramLegal(s, next, p, index);
      }
  }
}
