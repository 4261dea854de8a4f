/** A media packet and the config of an audio stream, with any two numbers and the media packet first
    to arrive: when the client is given them in order. */
module AudioLateConfig {
  import opened Wrappers
  import opened SortedVec
  import opened AvPacket
  import opened Fec
  import opened Sequencer
  import opened AudioGroup
  import opened AudioReceiver
  import OneSymbol

  /** A codec, a media packet that its first symbol completes, and a config. */
  datatype Scenario = Scenario(
    codec: Packet, mediaSn: u32, oti: Oti, id: SymbolId, data: Bytes, media: Packet, configSn: u32, config: Packet)

  predicate Possible(solver: Solver, x: Scenario) {
    && x.codec.Codec? && x.codec.header.frameSize > 0
    && ValidOti(x.oti, MAX_AUDIO_PAYLOAD) && ValidateSymbol(x.oti, x.id, |x.data|).Ok?
    && solver(x.oti, map[x.id := x.data]).Some?
    && MediaPacket(solver(x.oti, map[x.id := x.data]).value) == Ok(x.media)
    && x.config.Media? && x.config.media.isConfig && Reservation(x.oti) + |x.config.payload| <= AUDIO_BUDGET
  }

  function Steps(x: Scenario): seq<Step> {
    [Stream(x.codec, 0), Step.Symbol(x.mediaSn, x.oti, x.id, x.data, 0), Take(0), Stream(x.config, x.configSn),
     Take(MAX_BUFFERING), Take(MAX_BUFFERING), Take(MAX_BUFFERING)]
  }

  function Complete(x: Scenario): Entry<Datagram> { Entry(x.mediaSn, Datagram(x.oti, x.media, 0)) }

  /** The number the config is given after the media packet was seen. */
  function ConfigNumber(x: Scenario): nat { Unroll(HALF, x.mediaSn, x.configSn) }

  lemma Numbered(m: u32, c: u32)
    ensures Unroll(HALF, 0, m) == m && Newest(0, m) == m
    ensures Unroll(HALF, m, c) == if m >= c + HALF then c + 2 * HALF else c
  {
  }

  lemma ExecNext(solver: Solver, run: seq<Step>, k: nat)
    requires k < |run| && IsRun(solver, run[..k]) && Enabled(Exec(solver, run[..k]), run[k])
    ensures IsRun(solver, run[..k + 1])
    ensures Exec(solver, run[..k + 1]) == Apply(solver, Exec(solver, run[..k]), run[k])
  {
    assert run[..k + 1][..k] == run[..k];
  }

  lemma ObjectOpens(solver: Solver, x: Scenario)
    requires Possible(solver, x)
    ensures PrepareSegments(EMPTY, x.mediaSn, x.oti) ==
            Ok(Group(NoConfig, [], [Entry(x.mediaSn, Segments(NewDecoder(x.oti), None))]))
  {
    var e := Entry(x.mediaSn, Segments(NewDecoder(x.oti), None));
    assert InsertAt([], 0, e) == [e];
  }

  lemma SymbolCompletes(solver: Solver, x: Scenario)
    requires Possible(solver, x)
    ensures InsertDatagram(solver, EMPTY, x.mediaSn, x.oti, x.id, x.data, 0) ==
            (Group(NoConfig, [Complete(x)], []), Ok(()))
  {
    ObjectOpens(solver, x);
    var e := Entry(x.mediaSn, Segments(NewDecoder(x.oti), None));
    assert Search([e], x.mediaSn) == 0;
    var (decoder, r) := Decode(solver, NewDecoder(x.oti), x.oti, x.id, x.data);
    assert map[][x.id := x.data] == map[x.id := x.data];
    assert r == Ok(solver(x.oti, map[x.id := x.data]));
    assert RemoveAt([e], 0) == [];
    assert InsertAt([], 0, Complete(x)) == [Complete(x)];
  }

  // ----- The states of the run

  function AfterCodec(x: Scenario): Receiver
    requires x.codec.Codec?
  {
    Receiver(0, EMPTY, 0, None, Some(x.codec.header.frameSize), 0, Waiting, [CodecOut(x.codec)])
  }

  function AfterMedia(x: Scenario): Receiver
    requires x.codec.Codec?
  {
    AfterCodec(x).(newest := x.mediaSn, group := Group(NoConfig, [Complete(x)], []))
  }

  function AfterConfig(x: Scenario): Receiver
    requires x.codec.Codec?
  {
    var y := ConfigNumber(x);
    AfterMedia(x).(newest := Newest(x.mediaSn, y), group := Group(Ready(y, x.config), [Complete(x)], []),
                   status := Draining)
  }

  function ConfigOut(x: Scenario): Receiver
    requires x.codec.Codec?
  {
    var r, y := AfterConfig(x), ConfigNumber(x);
    r.(group := Group(Sent, [Complete(x)], []), next := y + 1, dropped := y,
       out := r.out + WithHole(x.codec.header.frameSize, 0, y, x.config))
  }

  function MediaOut(x: Scenario): Receiver
    requires x.codec.Codec?
  {
    var r, y := ConfigOut(x), ConfigNumber(x);
    r.(group := Group(Sent, [], []), next := x.mediaSn + 1, dropped := y + Gap(y + 1, x.mediaSn),
       out := r.out + WithHole(x.codec.header.frameSize, y + 1, x.mediaSn, x.media))
  }

  // ----- The steps

  lemma CodecStep(x: Scenario)
    requires x.codec.Codec? && x.codec.header.frameSize > 0
    ensures OnStream(START, x.codec, 0) == AfterCodec(x)
  {
    assert [] + [CodecOut(x.codec)] == [CodecOut(x.codec)];
  }

  lemma MediaSteps(solver: Solver, x: Scenario)
    requires Possible(solver, x)
    ensures var r := OnSymbol(solver, AfterCodec(x), x.mediaSn, x.oti, x.id, x.data, 0);
            r.status.Draining? && OnTake(r, 0) == AfterMedia(x)
  {
    Numbered(x.mediaSn, x.configSn);
    SymbolCompletes(solver, x);
  }

  lemma ConfigStep(solver: Solver, x: Scenario)
    requires Possible(solver, x)
    ensures OnStream(AfterMedia(x), x.config, x.configSn) == AfterConfig(x)
  {
    SumOne(Complete(x), DatagramCharge);
    assert CheckCapacity(AfterMedia(x).group, |x.config.payload|).Ok?;
  }

  lemma ConfigOutStep(solver: Solver, x: Scenario)
    requires Possible(solver, x)
    ensures OnTake(AfterConfig(x), MAX_BUFFERING) == ConfigOut(x)
  {
    var g := AfterConfig(x).group;
    assert MinInstant(g.datagrams) == 0;
    assert NextPacket(g, 0, MAX_BUFFERING) == ReadyNow(true);
  }

  lemma MediaOutStep(solver: Solver, x: Scenario)
    requires Possible(solver, x)
    ensures OnTake(ConfigOut(x), MAX_BUFFERING) == MediaOut(x)
  {
    var g := ConfigOut(x).group;
    assert MinInstant(g.datagrams) == 0;
    assert NextPacket(g, ConfigNumber(x) + 1, MAX_BUFFERING) == ReadyNow(false);
    assert [Complete(x)][1..] == [];
  }

  // ----- The run

  /** The first `k` steps make a run that leads to `r`. */
  predicate Reaches(solver: Solver, x: Scenario, k: nat, r: Receiver)
    requires k <= |Steps(x)|
  {
    IsRun(solver, Steps(x)[..k]) && Exec(solver, Steps(x)[..k]) == r
  }

  lemma Advance(solver: Solver, x: Scenario, k: nat, step: Step, r: Receiver, r': Receiver)
    requires k < |Steps(x)| && step == Steps(x)[k] && Reaches(solver, x, k, r)
    requires Enabled(r, step) && Apply(solver, r, step) == r'
    ensures Reaches(solver, x, k + 1, r')
  {
    ExecNext(solver, Steps(x), k);
  }

  lemma UpToMedia(solver: Solver, x: Scenario)
    requires Possible(solver, x)
    ensures Reaches(solver, x, 3, AfterMedia(x))
  {
    assert Steps(x)[..0] == [];
    CodecStep(x);
    Advance(solver, x, 0, Stream(x.codec, 0), START, AfterCodec(x));
    MediaSteps(solver, x);
    var r := OnSymbol(solver, AfterCodec(x), x.mediaSn, x.oti, x.id, x.data, 0);
    Advance(solver, x, 1, Step.Symbol(x.mediaSn, x.oti, x.id, x.data, 0), AfterCodec(x), r);
    Advance(solver, x, 2, Take(0), r, AfterMedia(x));
  }

  lemma UpToConfigOut(solver: Solver, x: Scenario)
    requires Possible(solver, x)
    ensures Reaches(solver, x, 5, ConfigOut(x))
  {
    UpToMedia(solver, x);
    ConfigStep(solver, x);
    Advance(solver, x, 3, Stream(x.config, x.configSn), AfterMedia(x), AfterConfig(x));
    ConfigOutStep(solver, x);
    Advance(solver, x, 4, Take(MAX_BUFFERING), AfterConfig(x), ConfigOut(x));
  }

  lemma UpToEnd(solver: Solver, x: Scenario)
    requires Possible(solver, x)
    ensures Reaches(solver, x, 7, MediaOut(x).(status := Waiting))
  {
    UpToConfigOut(solver, x);
    MediaOutStep(solver, x);
    Advance(solver, x, 5, Take(MAX_BUFFERING), ConfigOut(x), MediaOut(x));
    Advance(solver, x, 6, Take(MAX_BUFFERING), MediaOut(x), MediaOut(x).(status := Waiting));
  }

  lemma OutputNumbers(x: Scenario)
    requires x.codec.Codec?
    ensures Numbers(MediaOut(x).out) == [ConfigNumber(x), x.mediaSn]
  {
    PairNumbers(x.codec, x.codec.header.frameSize, ConfigNumber(x), x.config, x.mediaSn, x.media);
  }

  lemma PairNumbers(codec: Packet, f: u16, y: nat, config: Packet, m: nat, media: Packet)
    ensures Numbers([CodecOut(codec)] + WithHole(f, 0, y, config) + WithHole(f, y + 1, m, media)) == [y, m]
  {
    var first := [CodecOut(codec)];
    CodecHasNone(codec);
    WithHoleNumbers(first, f, 0, y, config);
    WithHoleNumbers(first + WithHole(f, 0, y, config), f, y + 1, m, media);
  }

  lemma CodecHasNone(codec: Packet)
    ensures Numbers([CodecOut(codec)]) == []
  {
    NumbersNext([], CodecOut(codec));
    assert [] + [CodecOut(codec)] == [CodecOut(codec)];
  }

  /** For every two numbers: the client is given the packets in order, and forwarded and dropped ones
      are all numbers below the next, if and only if the config is numbered below the media packet,
      within half the counter's range. */
  lemma InOrderIff(solver: Solver, x: Scenario)
    requires Possible(solver, x)
    ensures IsRun(solver, Steps(x))
    ensures var r := Exec(solver, Steps(x));
            var ordered := x.configSn < x.mediaSn < x.configSn + HALF;
            && r.status.Waiting?
            && (Increasing(Numbers(r.out)) <==> ordered)
            && (|Numbers(r.out)| + r.dropped == r.next <==> ordered)
  {
    UpToEnd(solver, x);
    assert Steps(x)[..7] == Steps(x);
    EndsInOrderIff(x);
  }

  lemma EndsInOrderIff(x: Scenario)
    requires x.codec.Codec?
    ensures var r := MediaOut(x);
            var ordered := x.configSn < x.mediaSn < x.configSn + HALF;
            && (Increasing(Numbers(r.out)) <==> ordered)
            && (|Numbers(r.out)| + r.dropped == r.next <==> ordered)
  {
    OutputNumbers(x);
    Numbered(x.mediaSn, x.configSn);
    PairInOrder(ConfigNumber(x), x.mediaSn);
  }

  lemma PairInOrder(y: nat, m: nat)
    ensures Increasing([y, m]) <==> y < m
  {
    assert [y, m][0] == y && [y, m][1] == m;
  }

  /** There is such a scenario for every two numbers and every small media packet. */
  lemma ScenarioExists(mediaSn: u32, configSn: u32, h: MediaHeader, payload: Bytes, config: Packet)
      returns (x: Scenario)
    requires h.pts < PTS_LIMIT && !h.isConfig && h.size == |payload| && HEADER_SIZE + |payload| < 0x1_0000
    requires config.Media? && config.media.isConfig && |config.payload| <= MAX_CONFIG_PAYLOAD
    ensures Possible(OneSymbol.Solving(), x)
    ensures x.mediaSn == mediaSn && x.configSn == configSn && x.media == Media(h, payload) && x.config == config
  {
    var bytes := SerializeMedia(h) + payload;
    var oti := OneSymbol.Parameters(|bytes|);
    OneSymbol.ParametersValid(|bytes|);
    OneSymbol.SymbolSuffices(h, payload);
    x := Scenario(Codec(CodecHeader(1, 0, 1)), mediaSn, oti, OneSymbol.WHOLE,
                  OneSymbol.Encode(oti, bytes, OneSymbol.WHOLE), Media(h, payload), configSn, config);
  }
}
