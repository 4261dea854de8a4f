/** What a peer does that numbers a config against the packet order: a media packet and a config of
    the same group, with any two numbers, from the empty receiver until both are forwarded. */
module VideoLateConfig {
  import opened Wrappers
  import opened SortedVec
  import opened AvPacket
  import opened Fec
  import opened Sequencer
  import opened VideoGroup
  import opened VideoPending
  import opened VideoReceiver
  import opened VideoOrder
  import opened VideoPair
  import OneSymbol

  datatype Scenario = Scenario(
    group: u32, mediaSn: u32, oti: Oti, id: SymbolId, data: Bytes, media: Packet, configSn: u32, config: Packet)

  predicate Possible(solver: Solver, x: Scenario) {
    && Completes(solver, x.oti, x.id, x.data, x.media)
    && x.config.Media? && x.config.media.isConfig && |x.config.payload| <= MAX_CONFIG_PAYLOAD
  }

  /** The media packet first, then the config, and takes once the window has passed. */
  function Steps(x: Scenario): seq<Step> {
    [Step.Symbol(x.mediaSn, x.group, x.oti, x.id, x.data, Instants(0, 0, 0)), Take(0),
     Stream(x.config, x.configSn, x.group, MAX_BUFFERING), Take(MAX_BUFFERING), Take(MAX_BUFFERING),
     Take(MAX_BUFFERING)]
  }

  /** The number the config is given after the media packet was seen. */
  function ConfigNumber(x: Scenario): nat { Unroll(HALF, x.mediaSn, x.configSn) }

  lemma FirstNumber(v: u32)
    ensures Unroll(HALF, 0, v) == v && Newest(0, v) == v
  {
  }

  lemma SecondNumber(m: u32, c: u32)
    ensures Unroll(HALF, m, c) == if m >= c + HALF then c + 2 * HALF else c
    ensures Unroll(HALF, m, m) == m
  {
  }

  /** What matters of a state of this run. */
  predicate Is(r: Receiver, x: Scenario, pending: Pending, next: nat, dropped: nat, status: Status, numbers: seq<nat>) {
    && r.pending == pending && r.next == next && Dropped(r) == dropped && r.status == status
    && r.newestPacket >= x.mediaSn && r.newestGroup == x.group && Numbers(r.out) == numbers
  }

  lemma Start(solver: Solver, x: Scenario) returns (e: Entry<Datagram>)
    requires Possible(solver, x)
    ensures e.key == x.mediaSn && e.value.oti == x.oti && e.value.instant == 0
    ensures var r := Apply(solver, START, Steps(x)[0]);
            Is(r, x, Alone(x.group, NoConfig, [e]), 0, 0, Draining, []) && r.newestPacket == x.mediaSn
  {
    FirstNumber(x.mediaSn);
    FirstNumber(x.group);
    var d := MediaArrives(solver, x.group, x.mediaSn, x.oti, x.id, x.data, x.media, Instants(0, 0, 0));
    e := Entry(x.mediaSn, d);
  }

  lemma Waits(x: Scenario, r: Receiver, e: Entry<Datagram>)
    requires Is(r, x, Alone(x.group, NoConfig, [e]), 0, 0, Draining, [])
    ensures Is(OnTake(r, 0), x, r.pending, 0, 0, Waiting, []) && OnTake(r, 0).newestPacket == r.newestPacket
  {
    NothingOffered(x.group, NoConfig, [e], 0, 0);
  }

  lemma Joined(solver: Solver, x: Scenario, r: Receiver, e: Entry<Datagram>)
    requires Possible(solver, x) && e.value.oti == x.oti
    requires Is(r, x, Alone(x.group, NoConfig, [e]), 0, 0, Waiting, []) && r.newestPacket == x.mediaSn
    ensures Is(OnStream(r, x.config, x.configSn, x.group, MAX_BUFFERING), x,
               Alone(x.group, Ready(ConfigNumber(x), x.config), [e]), 0, 0, Draining, [])
  {
    SecondNumber(x.group, x.group);
    ConfigArrives(x.group, ConfigNumber(x), x.config, e, MAX_BUFFERING);
  }

  lemma JoiningStep(solver: Solver, x: Scenario, r: Receiver, e: Entry<Datagram>)
    requires Possible(solver, x) && e.value.oti == x.oti
    requires Is(r, x, Alone(x.group, NoConfig, [e]), 0, 0, Waiting, []) && r.newestPacket == x.mediaSn
    ensures var step := Stream(x.config, x.configSn, x.group, MAX_BUFFERING);
            && Parsed(step) && Enabled(r, step)
            && Is(Apply(solver, r, step), x, Alone(x.group, Ready(ConfigNumber(x), x.config), [e]), 0, 0, Draining, [])
  {
    Joined(solver, x, r, e);
  }

  lemma NumbersNext(out: seq<Output>, sn: nat, group: nat, packet: Packet)
    ensures Numbers(out + [PacketOut(sn, group, packet)]) == Numbers(out) + [sn]
  {
    assert (out + [PacketOut(sn, group, packet)])[..|out|] == out;
  }

  lemma ConfigOut(x: Scenario, r: Receiver, e: Entry<Datagram>)
    requires e.value.instant == 0
    requires Is(r, x, Alone(x.group, Ready(ConfigNumber(x), x.config), [e]), 0, 0, Draining, [])
    ensures Is(OnTake(r, MAX_BUFFERING), x, Alone(x.group, Sent, [e]), ConfigNumber(x) + 1, ConfigNumber(x), Draining,
               [ConfigNumber(x)])
  {
    ConfigTaken(x.group, ConfigNumber(x), x.config, e, 0, MAX_BUFFERING);
    var (q, a) := TakeNext(r.pending, r.next, MAX_BUFFERING);
    Forwarded(x, r, MAX_BUFFERING, q, a);
  }

  /** What forwarding one packet does to such a state. */
  lemma Forwarded(x: Scenario, r: Receiver, now: nat, q: Pending, a: Action)
    requires TakeNext(r.pending, r.next, now) == (q, a) && a.Forward?
    requires r.newestPacket >= x.mediaSn && r.newestGroup == x.group
    ensures Is(OnTake(r, now), x, q, a.sn + 1, Dropped(r) + (if a.sn > r.next then a.sn - r.next else 0), r.status,
               Numbers(r.out) + [a.sn])
  {
    NumbersNext(r.out, a.sn, a.group, a.packet);
    TakeDelivers(r, now, q, a);
    ForwardedBy(x, r, q, a);
  }

  lemma ForwardedBy(x: Scenario, r: Receiver, q: Pending, a: Action)
    requires a.Forward? && r.newestPacket >= x.mediaSn && r.newestGroup == x.group
    requires Numbers(r.out + [PacketOut(a.sn, a.group, a.packet)]) == Numbers(r.out) + [a.sn]
    ensures Is(Deliver(r, q, a), x, q, a.sn + 1, Dropped(r) + (if a.sn > r.next then a.sn - r.next else 0), r.status,
               Numbers(r.out) + [a.sn])
  {
  }

  lemma MediaOut(x: Scenario, r: Receiver, e: Entry<Datagram>)
    requires e.value.instant == 0 && e.key == x.mediaSn
    requires Is(r, x, Alone(x.group, Sent, [e]), ConfigNumber(x) + 1, ConfigNumber(x), Draining, [ConfigNumber(x)])
    ensures Is(OnTake(r, MAX_BUFFERING), x, Alone(x.group, Sent, []), x.mediaSn + 1,
               if ConfigNumber(x) < x.mediaSn then x.mediaSn - 1 else ConfigNumber(x), Draining,
               [ConfigNumber(x), x.mediaSn])
  {
    MediaTaken(x.group, e, ConfigNumber(x) + 1, MAX_BUFFERING);
    var (q, a) := TakeNext(r.pending, r.next, MAX_BUFFERING);
    Forwarded(x, r, MAX_BUFFERING, q, a);
  }

  lemma Ends(x: Scenario, r: Receiver)
    requires r.pending == Alone(x.group, Sent, [])
    ensures OnTake(r, MAX_BUFFERING) == r.(deadline := None, status := Waiting)
  {
    NothingOffered(x.group, Sent, [], r.next, MAX_BUFFERING);
  }

  lemma RunNext(solver: Solver, run: seq<Step>, k: nat)
    requires k < |run| && IsRun(solver, START, run[..k])
    requires Parsed(run[k]) && Enabled(Exec(solver, START, run[..k]), run[k])
    ensures IsRun(solver, START, run[..k + 1])
    ensures Exec(solver, START, run[..k + 1]) == Apply(solver, Exec(solver, START, run[..k]), run[k])
  {
    assert run[..k + 1][..k] == run[..k];
  }

  /** The first steps make a run that leads to such a state. */
  predicate Reaches(solver: Solver, x: Scenario, k: nat, pending: Pending, next: nat, dropped: nat, status: Status,
                    numbers: seq<nat>)
    requires k <= |Steps(x)|
  {
    && IsRun(solver, START, Steps(x)[..k])
    && Is(Exec(solver, START, Steps(x)[..k]), x, pending, next, dropped, status, numbers)
  }

  lemma Advance(solver: Solver, x: Scenario, k: nat, step: Step, r: Receiver, pending: Pending, next: nat, dropped: nat,
                status: Status, numbers: seq<nat>)
    requires k < |Steps(x)| && step == Steps(x)[k] && r == Exec(solver, START, Steps(x)[..k])
    requires IsRun(solver, START, Steps(x)[..k]) && Parsed(step) && Enabled(r, step)
    requires Is(Apply(solver, r, step), x, pending, next, dropped, status, numbers)
    ensures Reaches(solver, x, k + 1, pending, next, dropped, status, numbers)
  {
    RunNext(solver, Steps(x), k);
  }

  lemma UpToMedia(solver: Solver, x: Scenario) returns (e: Entry<Datagram>)
    requires Possible(solver, x)
    ensures e.key == x.mediaSn && e.value.oti == x.oti && e.value.instant == 0
    ensures Reaches(solver, x, 2, Alone(x.group, NoConfig, [e]), 0, 0, Waiting, [])
    ensures Exec(solver, START, Steps(x)[..2]).newestPacket == x.mediaSn
  {
    assert Steps(x)[..0] == [];
    e := Start(solver, x);
    RunNext(solver, Steps(x), 0);
    Waits(x, Exec(solver, START, Steps(x)[..1]), e);
    RunNext(solver, Steps(x), 1);
  }

  lemma UpToConfig(solver: Solver, x: Scenario) returns (e: Entry<Datagram>)
    requires Possible(solver, x)
    ensures e.key == x.mediaSn && e.value.instant == 0
    ensures Reaches(solver, x, 3, Alone(x.group, Ready(ConfigNumber(x), x.config), [e]), 0, 0, Draining, [])
  {
    e := UpToMedia(solver, x);
    JoiningRun(solver, x, Steps(x), e);
  }

  /** The config arrives, in any run that starts this way. */
  lemma JoiningRun(solver: Solver, x: Scenario, steps: seq<Step>, e: Entry<Datagram>)
    requires Possible(solver, x) && e.value.oti == x.oti
    requires |steps| > 2 && steps[2] == Stream(x.config, x.configSn, x.group, MAX_BUFFERING)
    requires IsRun(solver, START, steps[..2])
    requires var r := Exec(solver, START, steps[..2]);
             Is(r, x, Alone(x.group, NoConfig, [e]), 0, 0, Waiting, []) && r.newestPacket == x.mediaSn
    ensures IsRun(solver, START, steps[..3])
    ensures Is(Exec(solver, START, steps[..3]), x, Alone(x.group, Ready(ConfigNumber(x), x.config), [e]), 0, 0,
               Draining, [])
  {
    JoiningStep(solver, x, Exec(solver, START, steps[..2]), e);
    RunNext(solver, steps, 2);
  }

  lemma UpToConfigOut(solver: Solver, x: Scenario) returns (e: Entry<Datagram>)
    requires Possible(solver, x)
    ensures e.key == x.mediaSn && e.value.instant == 0
    ensures Reaches(solver, x, 4, Alone(x.group, Sent, [e]), ConfigNumber(x) + 1, ConfigNumber(x), Draining,
                    [ConfigNumber(x)])
  {
    e := UpToConfig(solver, x);
    var r := Exec(solver, START, Steps(x)[..3]);
    ConfigOut(x, r, e);
    Advance(solver, x, 3, Take(MAX_BUFFERING), r, Alone(x.group, Sent, [e]), ConfigNumber(x) + 1, ConfigNumber(x),
            Draining,
            [ConfigNumber(x)]);
  }

  lemma UpToMediaOut(solver: Solver, x: Scenario)
    requires Possible(solver, x)
    ensures Reaches(solver, x, 5, Alone(x.group, Sent, []), x.mediaSn + 1,
                    if ConfigNumber(x) < x.mediaSn then x.mediaSn - 1 else ConfigNumber(x), Draining,
                    [ConfigNumber(x), x.mediaSn])
  {
    var e := UpToConfigOut(solver, x);
    var r := Exec(solver, START, Steps(x)[..4]);
    MediaOut(x, r, e);
    Advance(solver, x, 4, Take(MAX_BUFFERING), r, Alone(x.group, Sent, []), x.mediaSn + 1,
            if ConfigNumber(x) < x.mediaSn then x.mediaSn - 1 else ConfigNumber(x), Draining,
            [ConfigNumber(x), x.mediaSn]);
  }

  /** The whole run: the config is forwarded first, then the media packet. */
  lemma BothForwarded(solver: Solver, x: Scenario)
    requires Possible(solver, x)
    ensures Reaches(solver, x, 6, Alone(x.group, Sent, []), x.mediaSn + 1,
                    if ConfigNumber(x) < x.mediaSn then x.mediaSn - 1 else ConfigNumber(x), Waiting,
                    [ConfigNumber(x), x.mediaSn])
  {
    UpToMediaOut(solver, x);
    Ends(x, Exec(solver, START, Steps(x)[..5]));
    RunNext(solver, Steps(x), 5);
  }

  /** For every two numbers a peer may give them: the forwarded numbers increase, and forwarded and
      dropped packets are all numbers below the next, if and only if the config is numbered below
      the media packet, within half the counter's range. */
  lemma InOrderIff(solver: Solver, x: Scenario)
    requires Possible(solver, x)
    ensures IsRun(solver, START, Steps(x))
    ensures var r := Exec(solver, START, Steps(x));
            var ordered := x.configSn < x.mediaSn < x.configSn + HALF;
            && r.status.Waiting?
            && (Increasing(Numbers(r.out)) <==> ordered)
            && (|Numbers(r.out)| + Dropped(r) == r.next <==> ordered)
  {
    BothForwarded(solver, x);
    assert Steps(x)[..6] == Steps(x);
    SecondNumber(x.mediaSn, x.configSn);
    var ns := Numbers(Exec(solver, START, Steps(x)).out);
    assert ns[0] == ConfigNumber(x) && ns[1] == x.mediaSn;
  }

  /** There is such a scenario for every two numbers, every group and every small media packet. */
  lemma ScenarioExists(group: u32, mediaSn: u32, configSn: u32, h: MediaHeader, payload: Bytes, config: Packet)
      returns (x: Scenario)
    requires h.pts < PTS_LIMIT && !h.isConfig && h.size == |payload| && HEADER_SIZE + |payload| < 0x1_0000
    requires config.Media? && config.media.isConfig && |config.payload| <= MAX_CONFIG_PAYLOAD
    ensures Possible(OneSymbol.Solving(), x)
    ensures x.group == group && x.mediaSn == mediaSn && x.configSn == configSn
    ensures x.media == Media(h, payload) && x.config == config
  {
    var bytes := SerializeMedia(h) + payload;
    var oti := OneSymbol.Parameters(|bytes|);
    OneSymbol.ParametersValid(|bytes|);
    OneSymbol.SymbolSuffices(h, payload);
    x := Scenario(group, mediaSn, oti, OneSymbol.WHOLE, OneSymbol.Encode(oti, bytes, OneSymbol.WHOLE),
                  Media(h, payload), configSn, config);
  }
}
