/** The audio receiver's processing loop as the source runs it, proved against the state machine
    of `AudioReceiver`. */
module AudioProcess {
  import opened Wrappers
  import opened AvPacket
  import opened Fec
  import opened Sequencer
  import opened AudioGroup
  import opened AudioReceiver

  datatype Input =
    | StreamInput(packet: Packet, rawSn: u32)
    | DatagramInput(rawSn: u32, oti: Oti, id: SymbolId, data: Bytes)
    | DeadlineReached

  lemma ExecStep(solver: Solver, run: seq<Step>, s: Step)
    requires IsRun(solver, run) && Enabled(Exec(solver, run), s)
    ensures IsRun(solver, run + [s]) && Exec(solver, run + [s]) == Apply(solver, Exec(solver, run), s)
  {
    assert (run + [s])[..|run|] == run;
  }

  /** The step that hands an input to the receiver. */
  predicate Carries(input: Input, s: Step) {
    match input
    case StreamInput(packet, rawSn) => s.Stream? && s.packet == packet && s.rawSn == rawSn
    case DatagramInput(rawSn, oti, id, data) =>
      s.Symbol? && s.rawSn == rawSn && s.oti == oti && s.id == id && s.data == data
    case DeadlineReached => s.Timer?
  }

  /** `more` continues `run` by turns of the drain loop only. */
  predicate Drains(run: seq<Step>, more: seq<Step>) {
    run <= more && forall i | |run| <= i < |more| :: more[i].Take?
  }

  /** One input makes `run` into `more`: its step, and a drain to the end. After an error, and for
      a deadline that is not set, nothing happens. */
  ghost predicate Handles(solver: Solver, run: seq<Step>, input: Input, more: seq<Step>) {
    var r := Exec(solver, run);
    if r.status.Failed? || (input.DeadlineReached? && r.deadline.None?) then more == run
    else
      && |run| < |more| && run <= more && Carries(input, more[|run|]) && Drains(more[..|run| + 1], more)
      && !Exec(solver, more).status.Draining?
  }

  /** The inputs, one after the other and each exactly once, make up the run. */
  ghost predicate Feeds(solver: Solver, inputs: seq<Input>, run: seq<Step>)
    decreases |inputs|, 1
  {
    if inputs == [] then run == []
    else exists before :: FeedsThen(solver, inputs, before, run)
  }

  ghost predicate FeedsThen(solver: Solver, inputs: seq<Input>, before: seq<Step>, run: seq<Step>)
    requires inputs != []
    decreases |inputs|, 0
  {
    Feeds(solver, inputs[..|inputs| - 1], before) && Handles(solver, before, inputs[|inputs| - 1], run)
  }

  lemma FeedsNext(solver: Solver, inputs: seq<Input>, i: nat, before: seq<Step>, run: seq<Step>)
    requires i < |inputs| && Feeds(solver, inputs[..i], before) && Handles(solver, before, inputs[i], run)
    ensures Feeds(solver, inputs[..i + 1], run)
  {
    assert inputs[..i + 1][..i] == inputs[..i];
    assert FeedsThen(solver, inputs[..i + 1], before, run);
  }

  lemma HandlesBy(solver: Solver, run: seq<Step>, input: Input, step: Step, more: seq<Step>)
    requires var r := Exec(solver, run); !r.status.Failed? && (input.DeadlineReached? ==> r.deadline.Some?)
    requires Carries(input, step) && Drains(run + [step], more) && !Exec(solver, more).status.Draining?
    ensures Handles(solver, run, input, more)
  {
    var stepped := run + [step];
    assert stepped[|run|] == step && more[..|run| + 1] == stepped;
  }

  /** Inputs after an error change nothing. */
  lemma {:induction false} FeedsFailed(solver: Solver, inputs: seq<Input>, i: nat, run: seq<Step>)
    requires i <= |inputs| && Feeds(solver, inputs[..i], run) && Exec(solver, run).status.Failed?
    ensures Feeds(solver, inputs, run)
    decreases |inputs| - i
  {
    if i == |inputs| {
      assert inputs[..i] == inputs;
    } else {
      FeedsNext(solver, inputs, i, run, run);
      FeedsFailed(solver, inputs, i + 1, run);
    }
  }

  /** Packets that can still be taken. */
  function Takeable(g: Group): nat {
    |g.datagrams| + if g.config.Ready? then 1 else 0
  }

  class Process {
    const solver: Solver
    const clock: nat -> nat         // the clock's readings, in the order they are taken
    const sequencer: Unroller
    const pending: PendingGroup
    var readings: nat
    var next: nat
    var deadline: Option<nat>
    var frameSize: Option<u16>
    var dropped: nat
    var status: Status
    var out: seq<Output>

    ghost predicate Valid()
      reads this, sequencer
    {
      sequencer.half == HALF
    }

    ghost function View(): Receiver
      reads this, sequencer, pending
    {
      Receiver(sequencer.newest, pending.View(), next, deadline, frameSize, dropped, status, out)
    }

    constructor (solver: Solver, clock: nat -> nat)
      ensures Valid() && View() == START && this.solver == solver
      ensures fresh(sequencer) && fresh(pending)
    {
      this.solver, this.clock := solver, clock;
      var s := new Unroller(HALF);
      var g := new PendingGroup();
      sequencer, pending := s, g;
      readings, next, deadline, frameSize, dropped, status, out := 0, 0, None, None, 0, Waiting, [];
    }

    method Now() returns (now: nat)
      modifies this`readings
      ensures now == clock(old(readings)) && readings == old(readings) + 1
    {
      now := clock(readings);
      readings := readings + 1;
    }

    method HandleStream(packet: Packet, rawSn: u32)
      requires Valid()
      modifies this, sequencer, pending
      ensures Valid() && View() == OnStream(old(View()), packet, rawSn)
    {
      if packet.Codec? {
        frameSize := Some(packet.header.frameSize);
        if packet.header.frameSize == 0 {
          status := Failed(ZeroFrameSize);
        } else {
          out := out + [CodecOut(packet)];
        }
        return;
      }
      var sn := sequencer.Seq(rawSn);
      status := Draining;
      if sn >= next {
        var r := pending.InsertStreamPacket(sn, packet);
        status := After(r);
      }
    }

    method HandleDatagram(rawSn: u32, oti: Oti, id: SymbolId, data: Bytes) returns (ghost now: nat)
      requires Valid()
      modifies this, sequencer, pending
      ensures Valid() && View() == OnSymbol(solver, old(View()), rawSn, oti, id, data, now)
      ensures now == clock(old(readings))
    {
      var at := Now();
      now := at;
      var sn := sequencer.Seq(rawSn);
      if sn < next {
        return;
      }
      var r := pending.InsertSymbol(solver, sn, oti, id, data, at);
      status := After(r);
    }

    /** One turn of the inner loop. */
    method TakeOnce() returns (ghost now: nat)
      requires Valid() && status.Draining?
      modifies this, sequencer, pending
      ensures Valid() && View() == OnTake(old(View()), now) && now == clock(old(readings))
      ensures status.Draining? ==> Takeable(pending.View()) < old(Takeable(pending.View()))
    {
      var at := Now();
      now := at;
      var a := pending.TakeNextPacket(next, at);
      match a
      case NoAction =>
        deadline, status := None, Waiting;
      case WaitUntil(instant) =>
        deadline, status := Some(instant), Waiting;
      case Forward(sn, packet) =>
        ForwardPacket(sn, packet);
    }

    method ForwardPacket(sn: nat, packet: Packet)
      requires Valid()
      modifies this
      ensures Valid() && View() == Deliver(old(View()), old(pending.View()), sn, packet) && readings == old(readings)
    {
      if frameSize.None? {
        status := Failed(AudioBeforeCodec);
        return;
      }
      if sn > next {
        var missing := sn - next;
        dropped := dropped + missing;
        out := out + [HoleOut(Samples(missing, frameSize.value))];
      }
      next := sn + 1;
      out := out + [PacketOut(sn, packet)];
    }

    /** The inner loop: takes packets until none can be forwarded now. */
    method DrainAll(ghost run: seq<Step>) returns (ghost more: seq<Step>)
      requires Valid() && status.Draining? && IsRun(solver, run) && View() == Exec(solver, run)
      modifies this, sequencer, pending
      ensures Valid() && !status.Draining? && IsRun(solver, more) && View() == Exec(solver, more)
      ensures Drains(run, more)
    {
      more := run;
      while status.Draining?
        invariant Valid() && IsRun(solver, more) && View() == Exec(solver, more) && Drains(run, more)
        decreases status.Draining?, Takeable(pending.View())
      {
        ghost var now := TakeOnce();
        ExecStep(solver, more, Take(now));
        more := more + [Take(now)];
      }
    }

    /** One turn of the outer loop. */
    method HandleInput(input: Input, ghost run: seq<Step>) returns (ghost more: seq<Step>)
      requires Valid() && status.Waiting? && IsRun(solver, run) && View() == Exec(solver, run)
      requires input.DeadlineReached? ==> deadline.Some?
      modifies this, sequencer, pending
      ensures Valid() && !status.Draining? && IsRun(solver, more) && View() == Exec(solver, more)
      ensures Handles(solver, run, input, more)
    {
      ghost var step := Timer;
      match input {
        case StreamInput(packet, rawSn) =>
          HandleStream(packet, rawSn);
          step := Stream(packet, rawSn);
        case DatagramInput(rawSn, oti, id, data) =>
          ghost var now := HandleDatagram(rawSn, oti, id, data);
          step := Step.Symbol(rawSn, oti, id, data, now);
        case DeadlineReached =>
          status := Draining;
      }
      ExecStep(solver, run, step);
      ghost var stepped := run + [step];
      more := stepped;
      if status.Draining? {
        more := DrainAll(stepped);
      }
      HandlesBy(solver, run, input, step, more);
    }

    /** The outer loop over the inputs, until they end or one of them is rejected. It makes the run
        of the state machine that the inputs feed. */
    method ProcessAll(inputs: seq<Input>) returns (ghost run: seq<Step>)
      requires Valid() && View() == START
      modifies this, sequencer, pending
      ensures Valid() && !status.Draining? && IsRun(solver, run) && View() == Exec(solver, run)
      ensures Feeds(solver, inputs, run)
    {
      run := [];
      for i := 0 to |inputs|
        invariant Valid() && status.Waiting? && IsRun(solver, run) && View() == Exec(solver, run)
        invariant Feeds(solver, inputs[..i], run)
      {
        if inputs[i].DeadlineReached? && deadline.None? {
          FeedsNext(solver, inputs, i, run, run);
          continue;
        }
        ghost var before := run;
        run := HandleInput(inputs[i], run);
        FeedsNext(solver, inputs, i, before, run);
        if status.Failed? {
          FeedsFailed(solver, inputs, i + 1, run);
          return;
        }
      }
      assert inputs[..|inputs|] == inputs;
    }
  }
}
