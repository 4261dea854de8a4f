/** The video receiver's processing loop as the source runs it, over its mutable parts, proved
    against the state machine of `VideoReceiver`. */
module VideoProcess {
  import opened Wrappers
  import opened SortedVec
  import opened AvPacket
  import opened Fec
  import opened Sequencer
  import opened VideoGroup
  import opened VideoPending
  import opened VideoReceiver
  import opened VideoOrder
  import opened VideoBuffer

  /** What the select of the loop can give: a stream record, a datagram, or the deadline. */
  datatype Input =
    | StreamInput(packet: Packet, rawSn: u32, rawGroup: u32)
    | DatagramInput(rawSn: u32, rawGroup: u32, oti: Oti, id: SymbolId, data: Bytes)
    | DeadlineReached

  lemma ExecStep(solver: Solver, r: Receiver, run: seq<Step>, s: Step)
    ensures Exec(solver, r, run + [s]) == Apply(solver, Exec(solver, r, run), s)
    ensures IsRun(solver, r, run) && Parsed(s) && Enabled(Exec(solver, r, run), s) ==> IsRun(solver, r, run + [s])
  {
    assert (run + [s])[..|run|] == run;
  }

  /** The step that hands an input to the receiver. */
  predicate Carries(input: Input, s: Step) {
    match input
    case StreamInput(packet, rawSn, rawGroup) =>
      s.Stream? && s.packet == packet && s.rawSn == rawSn && s.rawGroup == rawGroup
    case DatagramInput(rawSn, rawGroup, oti, id, data) =>
      s.Symbol? && s.rawSn == rawSn && s.rawGroup == rawGroup && s.oti == oti && s.id == id && s.data == data
    case DeadlineReached => s.Timer?
  }

  /** `more` continues `run` by turns of the drain loop only. */
  predicate Drains(run: seq<Step>, more: seq<Step>) {
    run <= more && forall i | |run| <= i < |more| :: more[i].Take?
  }

  /** One input makes `run` into `more`: its step, and a drain to the end. After an error, and for
      a deadline that is not set, nothing happens. */
  ghost predicate Handles(solver: Solver, run: seq<Step>, input: Input, more: seq<Step>) {
    var r := Exec(solver, START, run);
    if r.status.Failed? || (input.DeadlineReached? && r.deadline.None?) then more == run
    else
      && |run| < |more| && run <= more && Carries(input, more[|run|]) && Drains(more[..|run| + 1], more)
      && !Exec(solver, START, more).status.Draining?
  }

  /** The inputs, one after the other and each exactly once, make up the run. */
  ghost predicate Feeds(solver: Solver, inputs: seq<Input>, run: seq<Step>)
    decreases |inputs|, 1
  {
    if inputs == [] then run == []
    else exists before :: FeedsThen(solver, inputs, before, run)
  }

  ghost predicate FeedsThen(solver: Solver, inputs: seq<Input>, before: seq<Step>, run: seq<Step>)
    requires inputs != []
    decreases |inputs|, 0
  {
    Feeds(solver, inputs[..|inputs| - 1], before) && Handles(solver, before, inputs[|inputs| - 1], run)
  }

  lemma FeedsNext(solver: Solver, inputs: seq<Input>, i: nat, before: seq<Step>, run: seq<Step>)
    requires i < |inputs| && Feeds(solver, inputs[..i], before) && Handles(solver, before, inputs[i], run)
    ensures Feeds(solver, inputs[..i + 1], run)
  {
    assert inputs[..i + 1][..i] == inputs[..i];
    assert FeedsThen(solver, inputs[..i + 1], before, run);
  }

  lemma HandlesBy(solver: Solver, run: seq<Step>, input: Input, step: Step, more: seq<Step>)
    requires var r := Exec(solver, START, run); !r.status.Failed? && (input.DeadlineReached? ==> r.deadline.Some?)
    requires Carries(input, step) && Drains(run + [step], more) && !Exec(solver, START, more).status.Draining?
    ensures Handles(solver, run, input, more)
  {
    var stepped := run + [step];
    assert stepped[|run|] == step && more[..|run| + 1] == stepped;
  }

  /** Inputs after an error change nothing. */
  lemma {:induction false} FeedsFailed(solver: Solver, inputs: seq<Input>, i: nat, run: seq<Step>)
    requires i <= |inputs| && Feeds(solver, inputs[..i], run) && Exec(solver, START, run).status.Failed?
    ensures Feeds(solver, inputs, run)
    decreases |inputs| - i
  {
    if i == |inputs| {
      assert inputs[..i] == inputs;
    } else {
      FeedsNext(solver, inputs, i, run, run);
      FeedsFailed(solver, inputs, i + 1, run);
    }
  }

  /** What the loop does with the action, once the buffer has been changed. */
  function Performed(r: Receiver, a: Action): Receiver {
    match a
    case NoAction => r.(deadline := None, status := Waiting)
    case WaitUntil(instant) => r.(deadline := Some(instant), status := Waiting)
    case Forward(_, _, _, _) => Deliver(r, r.pending, a)
  }

  lemma TakenIsPerformed(r: Receiver, now: nat)
    ensures var (q, a) := TakeNext(r.pending, r.next, now);
            OnTake(r, now) == Performed(r.(pending := q), a)
  {
  }

  class Process {
    const solver: Solver
    const clock: nat -> nat         // the clock's readings, in the order they are taken
    const packetSequencer: Unroller
    const groupSequencer: Unroller
    const pending: PendingGroups
    var readings: nat
    var next: nat
    var deadline: Option<nat>
    var stats: ProtocolStats
    var status: Status
    var out: seq<Output>
    ghost var created: seq<Opening>

    ghost predicate Valid()
      reads this, packetSequencer, groupSequencer
    {
      packetSequencer.half == HALF && groupSequencer.half == HALF && packetSequencer != groupSequencer
    }

    ghost function View(): Receiver
      reads this, packetSequencer, groupSequencer, pending
    {
      Receiver(packetSequencer.newest, groupSequencer.newest, pending.View(), next, deadline, stats, status, out,
               created)
    }

    constructor (solver: Solver, clock: nat -> nat)
      ensures Valid() && View() == START && this.solver == solver
      ensures fresh(packetSequencer) && fresh(groupSequencer) && fresh(pending)
    {
      this.solver, this.clock := solver, clock;
      var p := new Unroller(HALF);
      var g := new Unroller(HALF);
      var groups := new PendingGroups();
      packetSequencer, groupSequencer, pending := p, g, groups;
      readings, next, deadline, status, out, created := 0, 0, None, Waiting, [], [];
      stats := ProtocolStats(None, None, None, None);
    }

    method Now() returns (now: nat)
      modifies this`readings
      ensures now == clock(old(readings)) && readings == old(readings) + 1
    {
      now := clock(readings);
      readings := readings + 1;
    }

    method HandleStream(packet: Packet, rawSn: u32, rawGroup: u32) returns (ghost now: nat)
      requires Valid()
      modifies this, packetSequencer, groupSequencer, pending
      ensures Valid() && View() == OnStream(old(View()), packet, rawSn, rawGroup, now)
    {
      var at := Now();
      now := at;
      if packet.Codec? {
        out := out + [CodecOut(packet)];
        return;
      }
      var sn := packetSequencer.Seq(rawSn);
      var group := groupSequencer.Seq(rawGroup);
      if sn >= next {
        var r := pending.InsertStreamPacket(group, sn, packet, at);
        status := After(r);
      } else {
        status := Draining;
      }
    }

    method HandleDatagram(rawSn: u32, rawGroup: u32, oti: Oti, id: SymbolId, data: Bytes) returns (ghost at: Instants)
      requires Valid()
      modifies this, packetSequencer, groupSequencer, pending
      ensures Valid() && View() == OnSymbol(solver, old(View()), rawSn, rawGroup, oti, id, data, at)
    {
      var admitted := Now();
      var opening := Now();
      var assembled := Now();
      at := Instants(admitted, opening, assembled);
      var sn := packetSequencer.Seq(rawSn);
      var group := groupSequencer.Seq(rawGroup);
      if sn < next {
        return;
      }
      ghost var before := pending.View();
      var r := pending.InsertMediaSymbol(solver, group, sn, oti, id, data, Instants(admitted, opening, assembled));
      created := created +
        if !IsPending(before, sn) && IsPending(pending.View(), sn) then [Opening(sn, SourceSymbols(oti))] else [];
      status := After(r);
    }

    method Perform(a: Action)
      requires Valid()
      modifies this
      ensures Valid() && View() == Performed(old(View()), a)
    {
      match a
      case NoAction =>
        deadline, status := None, Waiting;
      case WaitUntil(instant) =>
        deadline, status := Some(instant), Waiting;
      case Forward(_, _, _, _) =>
        ForwardPacket(a);
    }

    /** One turn of the inner loop. */
    method TakeOnce() returns (ghost now: nat)
      requires Valid()
      modifies this, packetSequencer, groupSequencer, pending
      ensures Valid() && View() == OnTake(old(View()), now) && now == clock(old(readings))
      ensures status != old(status) ==> status.Waiting?
      ensures status == old(status) && !status.Waiting? ==>
                Sum(pending.groups, Deliverables) < old(Sum(pending.groups, Deliverables))
    {
      ghost var r := View();
      var at := Now();
      now := at;
      var a := pending.TakeNextPacket(next, at);
      Perform(a);
      TakenIsPerformed(r, at);
      TakenShrinks(r, at);
    }

    method ForwardPacket(a: Action)
      requires Valid() && a.Forward?
      modifies this
      ensures Valid() && View() == Deliver(old(View()), old(pending.View()), a)
    {
      stats := Report(stats, a.stats);
      if a.sn > next {
        stats := stats.(dropped := Plus(stats.dropped, a.sn - next));
      }
      next := a.sn + 1;
      out := out + [PacketOut(a.sn, a.group, a.packet)];
    }

    /** The inner loop: takes packets until none can be forwarded now. `run` is the history that
        led here, and is continued. */
    method DrainAll(ghost run: seq<Step>) returns (ghost more: seq<Step>)
      requires Valid() && status.Draining?
      requires IsRun(solver, START, run) && View() == Exec(solver, START, run)
      modifies this, packetSequencer, groupSequencer, pending
      ensures Valid() && status.Waiting? && Drains(run, more)
      ensures IsRun(solver, START, more) && View() == Exec(solver, START, more)
    {
      more := run;
      while status.Draining?
        invariant Valid() && (status.Draining? || status.Waiting?) && Drains(run, more)
        invariant IsRun(solver, START, more) && View() == Exec(solver, START, more)
        decreases status.Draining?, Sum(pending.groups, Deliverables)
      {
        ghost var now := TakeOnce();
        ExecStep(solver, START, more, Take(now));
        more := more + [Take(now)];
      }
    }

    /** The outer loop over the inputs, until they end or one of them is rejected. It makes the run
        of the state machine that the inputs feed. */
    method ProcessAll(inputs: seq<Input>) returns (ghost run: seq<Step>)
      requires Valid() && View() == START
      requires forall i | 0 <= i < |inputs| && inputs[i].StreamInput? ::
                 && !inputs[i].packet.Hole?
                 && (inputs[i].packet.Media? ==> |inputs[i].packet.payload| <= MAX_CONFIG_PAYLOAD)
      modifies this, packetSequencer, groupSequencer, pending
      ensures Valid() && !status.Draining?
      ensures IsRun(solver, START, run) && View() == Exec(solver, START, run)
      ensures Feeds(solver, inputs, run)
    {
      run := [];
      for i := 0 to |inputs|
        invariant Valid() && status.Waiting?
        invariant IsRun(solver, START, run) && View() == Exec(solver, START, run)
        invariant Feeds(solver, inputs[..i], run)
      {
        if inputs[i].DeadlineReached? && deadline.None? {
          FeedsNext(solver, inputs, i, run, run);
          continue;
        }
        ghost var before := run;
        run := HandleInput(inputs[i], run);
        FeedsNext(solver, inputs, i, before, run);
        if status.Failed? {
          FeedsFailed(solver, inputs, i + 1, run);
          return;
        }
      }
      assert inputs[..|inputs|] == inputs;
    }

    /** One turn of the outer loop. */
    method HandleInput(input: Input, ghost run: seq<Step>) returns (ghost more: seq<Step>)
      requires Valid() && status.Waiting?
      requires IsRun(solver, START, run) && View() == Exec(solver, START, run)
      requires input.StreamInput? ==>
                 !input.packet.Hole? && (input.packet.Media? ==> |input.packet.payload| <= MAX_CONFIG_PAYLOAD)
      requires input.DeadlineReached? ==> deadline.Some?
      modifies this, packetSequencer, groupSequencer, pending
      ensures Valid() && !status.Draining?
      ensures IsRun(solver, START, more) && View() == Exec(solver, START, more)
      ensures Handles(solver, run, input, more)
    {
      ghost var step := Timer;
      match input {
        case StreamInput(packet, rawSn, rawGroup) =>
          ghost var now := HandleStream(packet, rawSn, rawGroup);
          step := Stream(packet, rawSn, rawGroup, now);
        case DatagramInput(rawSn, rawGroup, oti, id, data) =>
          ghost var at := HandleDatagram(rawSn, rawGroup, oti, id, data);
          step := Step.Symbol(rawSn, rawGroup, oti, id, data, at);
        case DeadlineReached =>
          status := Draining;
      }
      ExecStep(solver, START, run, step);
      ghost var stepped := run + [step];
      more := stepped;
      if status.Draining? {
        more := DrainAll(stepped);
      }
      HandlesBy(solver, run, input, step, more);
    }
  }
}
