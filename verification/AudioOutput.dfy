/** What the client of the audio receiver is given in every run, with any codecs: each codec record in
    its place, and before each packet a hole for exactly what is missing, at the frame size in force
    (kyproto/src/protocol/driver/av/audio_unreliable_fec.rs). */
module AudioOutput {
  import opened Wrappers
  import opened AvPacket
  import opened Fec
  import opened AudioGroup
  import opened AudioReceiver

  // ----- Codec records

  function CodecsIn(items: seq<Item>): seq<Packet> {
    if items == [] then []
    else CodecsIn(items[..|items| - 1]) + if items[|items| - 1].CodecItem? then [items[|items| - 1].packet] else []
  }

  predicate IsCodec(x: Step) { x.Stream? && x.packet.Codec? }

  /** The codec records of the run; one with frame size zero is refused and ends the run. */
  function CodecsOf(run: seq<Step>): seq<Packet> {
    if run == [] then []
    else
      var x := run[|run| - 1];
      CodecsOf(run[..|run| - 1]) + if IsCodec(x) && x.packet.header.frameSize > 0 then [x.packet] else []
  }

  /** The frame size of the last codec record, accepted or not. */
  function FrameOf(run: seq<Step>): Option<u16> {
    if run == [] then None
    else
      var x := run[|run| - 1];
      if IsCodec(x) then Some(x.packet.header.frameSize) else FrameOf(run[..|run| - 1])
  }

  lemma CodecsNext(items: seq<Item>, x: Item)
    ensures CodecsIn(items + [x]) == CodecsIn(items) + if x.CodecItem? then [x.packet] else []
  {
    assert (items + [x])[..|items|] == items;
  }

  // ----- The timeline with the frame size in force

  /** The frame size of the last codec among the items. */
  function FrameIn(items: seq<Item>): Option<u16> {
    if items == [] then None
    else
      match items[|items| - 1]
      case CodecItem(packet) => if packet.Codec? then Some(packet.header.frameSize) else None
      case PacketItem(_, _) => FrameIn(items[..|items| - 1])
  }

  /** The items with a hole before each packet that follows a gap, at the frame size then in force. */
  function InFrames(items: seq<Item>): seq<Output> {
    if items == [] then []
    else
      var before, last := items[..|items| - 1], items[|items| - 1];
      var f := if FrameIn(before).Some? then FrameIn(before).value else 0;
      InFrames(before) + Shown(f, NextOf(before), last)
  }

  lemma InFramesNext(items: seq<Item>, x: Item, f: u16)
    requires x.PacketItem? ==> FrameIn(items) == Some(f)
    ensures InFrames(items + [x]) == InFrames(items) + Shown(f, NextOf(items), x)
    ensures FrameIn(items + [x]) ==
            if x.PacketItem? then FrameIn(items)
            else if x.packet.Codec? then Some(x.packet.header.frameSize) else None
  {
    assert (items + [x])[..|items|] == items;
  }

  ghost predicate OutputOk(run: seq<Step>, r: Receiver) {
    var items := Items(r.out);
    && r.out == InFrames(items) && r.next == NextOf(items) && r.dropped == Missing(items)
    && CodecsIn(items) == CodecsOf(run)
    && r.frameSize == FrameOf(run)
    && (!r.status.Failed? ==> FrameIn(items) == FrameOf(run))
  }

  lemma OneItem(out: seq<Output>, more: seq<Output>, x: Item)
    requires Items(more) == [x]
    ensures Items(out + more) == Items(out) + [x]
  {
    HoleSamplesConcat(out, more);
  }

  lemma CodecOutput(run: seq<Step>, r: Receiver, x: Step)
    requires OutputOk(run, r) && IsCodec(x) && r.status.Waiting?
    ensures OutputOk(run + [x], OnStream(r, x.packet, x.rawSn))
  {
    assert (run + [x])[..|run|] == run;
    if x.packet.header.frameSize == 0 {
      assert CodecsOf(run) + [] == CodecsOf(run);
    } else {
      var item := CodecItem(x.packet);
      AloneIsItem(x.packet);
      OneItem(r.out, [CodecOut(x.packet)], item);
      InFramesNext(Items(r.out), item, 0);
      TimelineNext(0, Items(r.out), item);
      CodecsNext(Items(r.out), item);
    }
  }

  lemma AloneIsItem(packet: Packet)
    ensures Items([CodecOut(packet)]) == [CodecItem(packet)]
  {
    OutItems([], CodecOut(packet));
    assert [] + [CodecOut(packet)] == [CodecOut(packet)];
  }

  /** A step that gives nothing to the client. */
  lemma SilentOutput(run: seq<Step>, r: Receiver, x: Step, r': Receiver)
    requires OutputOk(run, r) && !IsCodec(x) && !r.status.Failed?
    requires r'.out == r.out && r'.next == r.next && r'.dropped == r.dropped && r'.frameSize == r.frameSize
    ensures OutputOk(run + [x], r')
  {
    assert (run + [x])[..|run|] == run;
    assert CodecsOf(run) + [] == CodecsOf(run);
  }

  lemma TakeOutput(run: seq<Step>, r: Receiver, now: nat)
    requires OutputOk(run, r) && r.status.Draining?
    ensures OutputOk(run + [Take(now)], OnTake(r, now))
  {
    var (g, a) := TakeNext(r.group, r.next, now);
    if a.Forward? && r.frameSize.Some? {
      DeliverOutput(run, r, g, a.sn, a.packet, Take(now));
    } else {
      SilentOutput(run, r, Take(now), OnTake(r, now));
    }
  }

  lemma DeliverOutput(run: seq<Step>, r: Receiver, g: Group, sn: nat, packet: Packet, x: Step)
    requires OutputOk(run, r) && !r.status.Failed? && r.frameSize.Some? && !IsCodec(x)
    ensures OutputOk(run + [x], Deliver(r, g, sn, packet))
  {
    var f := r.frameSize.value;
    WithHoleItems(f, r.next, sn, packet);
    OneItem(r.out, WithHole(f, r.next, sn, packet), PacketItem(sn, packet));
    LongerOutput(run, r, x, Deliver(r, g, sn, packet), f, PacketItem(sn, packet));
  }

  /** One packet more, with the hole before it. */
  lemma LongerOutput(run: seq<Step>, r: Receiver, x: Step, r': Receiver, f: u16, item: Item)
    requires OutputOk(run, r) && !r.status.Failed? && r.frameSize == Some(f) && !IsCodec(x) && item.PacketItem?
    requires Items(r'.out) == Items(r.out) + [item] && r'.out == r.out + Shown(f, r.next, item)
    requires r'.next == item.sn + 1 && r'.dropped == r.dropped + Gap(r.next, item.sn) && r'.frameSize == r.frameSize
    ensures OutputOk(run + [x], r')
  {
    assert (run + [x])[..|run|] == run;
    InFramesNext(Items(r.out), item, f);
    TimelineNext(f, Items(r.out), item);
    CodecsNext(Items(r.out), item);
    assert CodecsOf(run) + [] == CodecsOf(run);
  }

  lemma StepOutput(solver: Solver, run: seq<Step>, r: Receiver, x: Step)
    requires OutputOk(run, r) && Enabled(r, x)
    ensures OutputOk(run + [x], Apply(solver, r, x))
  {
    if IsCodec(x) {
      CodecOutput(run, r, x);
    } else if x.Take? {
      TakeOutput(run, r, x.now);
    } else {
      SilentOutput(run, r, x, Apply(solver, r, x));
    }
  }

  /** In every run of any peer: the codec records given are those received, in order; the frame size is
      the last one received; and before each packet stands a hole for exactly the packets missing
      before it, at the frame size of the last codec before it, and there is no other hole. */
  lemma {:induction false} OutputIsTimeline(solver: Solver, run: seq<Step>)
    requires IsRun(solver, run)
    ensures OutputOk(run, Exec(solver, run))
  {
    if run == [] {
      NothingGivenYet();
    } else {
      var before, x := run[..|run| - 1], run[|run| - 1];
      Earlier(solver, run, before, x);
      OutputIsTimeline(solver, before);
      NextOutput(solver, before, x, Exec(solver, before), run);
    }
  }

  lemma NothingGivenYet()
    ensures OutputOk([], START)
  {
  }

  lemma Earlier(solver: Solver, run: seq<Step>, before: seq<Step>, x: Step)
    requires IsRun(solver, run) && run != [] && before == run[..|run| - 1] && x == run[|run| - 1]
    ensures run == before + [x] && IsRun(solver, before) && Enabled(Exec(solver, before), x)
    ensures Exec(solver, run) == Apply(solver, Exec(solver, before), x)
  {
  }

  lemma NextOutput(solver: Solver, before: seq<Step>, x: Step, r: Receiver, run: seq<Step>)
    requires OutputOk(before, r) && Enabled(r, x) && run == before + [x]
    ensures OutputOk(run, Apply(solver, r, x))
  {
    StepOutput(solver, before, r, x);
  }

  /** What was given is never taken back. */
  lemma {:induction false} OutputGrows(solver: Solver, run: seq<Step>, i: nat)
    requires i <= |run|
    ensures Exec(solver, run[..i]).out <= Exec(solver, run).out
    decreases |run|
  {
    if i == |run| {
      assert run[..i] == run;
    } else {
      var before := run[..|run| - 1];
      OutputGrows(solver, before, i);
      assert before[..i] == run[..i];
      StepGrows(solver, Exec(solver, before), run[|run| - 1]);
    }
  }

  lemma StepGrows(solver: Solver, r: Receiver, x: Step)
    ensures r.out <= Apply(solver, r, x).out
  {
  }

  /** A codec record stands behind what was given before it came, and in front of everything later. */
  lemma CodecInPlace(solver: Solver, run: seq<Step>, i: nat)
    requires IsRun(solver, run) && i < |run| && IsCodec(run[i]) && run[i].packet.header.frameSize > 0
    ensures var out, n := Exec(solver, run).out, |Exec(solver, run[..i]).out|;
            n < |out| && out[..n] == Exec(solver, run[..i]).out && out[n] == CodecOut(run[i].packet)
  {
    WasEnabled(solver, run, i);
    OutputGrows(solver, run, i);
    OutputGrows(solver, run, i + 1);
    assert run[..i + 1][..i] == run[..i];
    assert Exec(solver, run[..i + 1]).out == Exec(solver, run[..i]).out + [CodecOut(run[i].packet)];
  }

  lemma {:induction false} WasEnabled(solver: Solver, run: seq<Step>, i: nat)
    requires IsRun(solver, run) && i < |run|
    ensures Enabled(Exec(solver, run[..i]), run[i])
    decreases |run|
  {
    if i < |run| - 1 {
      var before := run[..|run| - 1];
      WasEnabled(solver, before, i);
      assert before[..i] == run[..i] && before[i] == run[i];
    }
  }
}
