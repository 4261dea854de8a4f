/** What the client of the video receiver is given, read off the run: codec records at once and where
    they came, and otherwise only what is taken. */
module VideoOutput {
  import opened AvPacket
  import opened Fec
  import opened VideoPending
  import opened VideoReceiver
  import opened VideoOrder

  /** The codec packets among the outputs, and those among the records of the reliable stream. */
  function CodecsIn(out: seq<Output>): seq<Packet> {
    if out == [] then []
    else CodecsIn(out[..|out| - 1]) + if out[|out| - 1].CodecOut? then [out[|out| - 1].packet] else []
  }

  function CodecsOf(run: seq<Step>): seq<Packet> {
    if run == [] then []
    else CodecsOf(run[..|run| - 1]) + if IsCodec(run[|run| - 1]) then [run[|run| - 1].packet] else []
  }

  predicate IsCodec(x: Step) { x.Stream? && x.packet.Codec? }

  lemma CodecsNext(out: seq<Output>, o: Output)
    ensures CodecsIn(out + [o]) == CodecsIn(out) + if o.CodecOut? then [o.packet] else []
  {
    assert (out + [o])[..|out|] == out;
  }

  /** What one step adds to the output: a codec record itself, a take what it forwards. */
  function Adds(r: Receiver, x: Step): seq<Output> {
    if IsCodec(x) then [CodecOut(x.packet)]
    else if x.Take? then
      match TakeNext(r.pending, r.next, x.now).1
      case Forward(group, sn, packet, _) => [PacketOut(sn, group, packet)]
      case _ => []
    else []
  }

  lemma StepAdds(solver: Solver, r: Receiver, x: Step)
    ensures Apply(solver, r, x).out == r.out + Adds(r, x)
  {
    assert r.out + [] == r.out;
    if x.Take? {
      var (q, a) := TakeNext(r.pending, r.next, x.now);
      if a.Forward? {
        TakeDelivers(r, x.now, q, a);
      } else {
        TakeOnlyWaits(r, x.now, q, a);
      }
    }
  }

  lemma AddedCodecs(out: seq<Output>, r: Receiver, x: Step)
    ensures CodecsIn(out + Adds(r, x)) == CodecsIn(out) + if IsCodec(x) then [x.packet] else []
  {
    var added := Adds(r, x);
    if added == [] {
      assert out + added == out;
    } else {
      CodecsNext(out, added[0]);
      assert added == [added[0]];
    }
  }

  /** In every run of any peer the codec records given to the client are those received, in order. */
  lemma {:induction false} CodecsAreGiven(solver: Solver, run: seq<Step>)
    ensures CodecsIn(Exec(solver, START, run).out) == CodecsOf(run)
  {
    if run != [] {
      var before, x := run[..|run| - 1], run[|run| - 1];
      CodecsAreGiven(solver, before);
      var r := Exec(solver, START, before);
      StepAdds(solver, r, x);
      AddedCodecs(r.out, r, x);
    }
  }

  /** What was given is never taken back. */
  lemma {:induction false} OutputGrows(solver: Solver, run: seq<Step>, i: nat)
    requires i <= |run|
    ensures Exec(solver, START, run[..i]).out <= Exec(solver, START, run).out
    decreases |run|
  {
    if i == |run| {
      assert run[..i] == run;
    } else {
      var before, x := run[..|run| - 1], run[|run| - 1];
      OutputGrows(solver, before, i);
      assert before[..i] == run[..i];
      StepAdds(solver, Exec(solver, START, before), x);
    }
  }

  /** And each stands in its place: behind what was given before it came, and in front of everything
      given later. */
  lemma CodecInPlace(solver: Solver, run: seq<Step>, i: nat)
    requires i < |run| && IsCodec(run[i])
    ensures var out, n := Exec(solver, START, run).out, |Exec(solver, START, run[..i]).out|;
            n < |out| && out[..n] == Exec(solver, START, run[..i]).out && out[n] == CodecOut(run[i].packet)
  {
    OutputGrows(solver, run, i);
    OutputGrows(solver, run, i + 1);
    var r := Exec(solver, START, run[..i]);
    StepAdds(solver, r, run[i]);
    assert run[..i + 1][..i] == run[..i];
    assert Exec(solver, START, run[..i + 1]).out == r.out + [CodecOut(run[i].packet)];
  }
}
