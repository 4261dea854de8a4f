/** Endpoint registration between the two peers (kyproto/src/control.rs): what an acknowledged
    registration means, and when one is acknowledged. */
module ControlRegistration {
  import opened Wrappers
  import opened AvPacket
  import opened Control

  /** Registrations of an id that were acknowledged. */
  function Acknowledged(rs: seq<Registration>, id: u16): nat {
    if rs == [] then 0
    else Acknowledged(rs[..|rs| - 1], id) + if rs[|rs| - 1].id == id && rs[|rs| - 1].fired then 1 else 0
  }

  lemma AcknowledgedNext(rs: seq<Registration>, g: Registration, id: u16)
    ensures Acknowledged(rs + [g], id) == Acknowledged(rs, id) + if g.id == id && g.fired then 1 else 0
  {
    assert (rs + [g])[..|rs|] == rs;
  }

  lemma {:induction false} AcknowledgedUpdate(rs: seq<Registration>, r: nat, g: Registration, id: u16)
    requires r < |rs| && g.id == rs[r].id
    ensures Acknowledged(rs[r := g], id) - Acknowledged(rs, id) ==
            (if g.id == id && g.fired then 1 else 0) - (if g.id == id && rs[r].fired then 1 else 0)
  {
    var last := |rs| - 1;
    if r < last {
      assert rs[r := g][..last] == rs[..last][r := g];
      AcknowledgedUpdate(rs[..last], r, g, id);
    } else {
      assert rs[r := g][..last] == rs[..last];
    }
  }

  lemma {:induction false} AcknowledgedSome(rs: seq<Registration>, r: nat)
    requires r < |rs| && rs[r].fired
    ensures Acknowledged(rs, rs[r].id) > 0
  {
    if r < |rs| - 1 {
      AcknowledgedSome(rs[..|rs| - 1], r);
    }
  }

  ghost predicate Asked(rs: seq<Registration>, id: u16) {
    exists r | 0 <= r < |rs| :: rs[r].id == id
  }

  // ----- The invariant

  /** The registrations of `me` for one id, as the other peer sees them. */
  ghost predicate RegistrationOk(me: Node, other: Node, id: u16) {
    && me.handled <= |other.state.sent| && other.handled <= |me.state.sent|
    && RecordedOk(me, other, id)
    && TableOk(me.state, id)
    && AckOk(me, other, id)
  }

  /** The other peer recorded the id when it handled the first request, and acknowledged it once. */
  ghost predicate RecordedOk(me: Node, other: Node, id: u16)
    requires other.handled <= |me.state.sent|
  {
    && (id in other.state.pendingConnect <==>
          Occurrences(me.state.sent[..other.handled], RegisterEndpoint(id)) > 0)
    && Occurrences(other.state.sent, EndpointRegistered(id)) ==
       (if id in other.state.pendingConnect then 1 else 0)
  }

  ghost predicate TableOk(s: State, id: u16) {
    && (id in s.pendingAck ==>
          var r := s.pendingAck[id];
          r < |s.registrations| && s.registrations[r].id == id && !s.registrations[r].fired)
    && (Occurrences(s.sent, RegisterEndpoint(id)) > 0 ==> Asked(s.registrations, id))
  }

  /** Each acknowledgement handled completed one registration; before the first, the id is pending. */
  ghost predicate AckOk(me: Node, other: Node, id: u16)
    requires me.handled <= |other.state.sent|
  {
    var acks := Occurrences(other.state.sent[..me.handled], EndpointRegistered(id));
    && Acknowledged(me.state.registrations, id) == acks
    && (Asked(me.state.registrations, id) && acks == 0 ==> id in me.state.pendingAck)
  }

  ghost predicate AllOk(y: System, id: u16) {
    && RegistrationOk(y.server, y.client, id)
    && RegistrationOk(y.client, y.server, id)
  }

  // ----- Steps that leave one side of it alone

  /** `me` sends something else than a request for the id. */
  lemma ISend(me: Node, other: Node, id: u16, me': Node, x: Msg)
    requires RegistrationOk(me, other, id) && x != RegisterEndpoint(id)
    requires me'.handled == me.handled && me'.state.sent == me.state.sent + [x]
    requires me'.state.pendingAck == me.state.pendingAck && me'.state.registrations == me.state.registrations
    ensures RegistrationOk(me', other, id)
  {
    OccurrencesNext(me.state.sent, x, RegisterEndpoint(id));
    HandledSame(me.state.sent, x, other.handled);
  }

  /** The other peer sends something else than an acknowledgement of the id. */
  lemma OtherSends(me: Node, other: Node, id: u16, other': Node, x: Msg)
    requires RegistrationOk(me, other, id) && x != EndpointRegistered(id)
    requires other'.handled == other.handled && other'.state.sent == other.state.sent + [x]
    requires other'.state.pendingConnect == other.state.pendingConnect
    ensures RegistrationOk(me, other', id)
  {
    OccurrencesNext(other.state.sent, x, EndpointRegistered(id));
    HandledSame(other.state.sent, x, me.handled);
  }

  // ----- Steps of `me`

  lemma IRegister(me: Node, other: Node, x: u16, id: u16)
    requires RegistrationOk(me, other, id)
    ensures RegistrationOk(me.(state := Register(me.state, x).0), other, id)
  {
    var s, g := me.state, NewRegistration(x);
    if x !in s.pendingAck {
      var s' := Register(s, x).0;
      AcknowledgedNext(s.registrations, g, id);
      assert s'.registrations[|s.registrations|] == g;
      if Asked(s.registrations, id) {
        var r :| 0 <= r < |s.registrations| && s.registrations[r].id == id;
        assert s'.registrations[r].id == id;
      } else {
        assert x != id ==> !Asked(s'.registrations, id);
      }
    }
  }

  lemma ISendRegister(me: Node, other: Node, r: nat, id: u16)
    requires RegistrationOk(me, other, id) && r < |me.state.registrations|
    ensures RegistrationOk(me.(state := SendRegister(me.state, r)), other, id)
  {
    var s := me.state;
    var s', g := SendRegister(s, r), s.registrations[r];
    AcknowledgedUpdate(s.registrations, r, g.(sent := true), id);
    OccurrencesNext(s.sent, RegisterEndpoint(g.id), RegisterEndpoint(id));
    HandledSame(s.sent, RegisterEndpoint(g.id), other.handled);
    assert s'.registrations[r].id == g.id;
    if Asked(s.registrations, id) {
      var k :| 0 <= k < |s.registrations| && s.registrations[k].id == id;
      assert s'.registrations[k].id == id;
    } else {
      assert !Asked(s'.registrations, id);
    }
  }

  lemma IDrop(me: Node, other: Node, r: nat, id: u16)
    requires RegistrationOk(me, other, id) && r < |me.state.registrations|
    ensures RegistrationOk(me.(state := DropRegistration(me.state, r)), other, id)
  {
    var rs := me.state.registrations;
    AcknowledgedUpdate(rs, r, rs[r].(dropped := true), id);
    AskedUpdate(rs, r, rs[r].(dropped := true), id);
  }

  lemma IHandleAck(me: Node, other: Node, x: u16, id: u16)
    requires RegistrationOk(me, other, id) && (x in me.state.pendingAck ==> TableOk(me.state, x))
    requires me.handled < |other.state.sent| && other.state.sent[me.handled] == EndpointRegistered(x)
    ensures RegistrationOk(Node(HandleAck(me.state, x).0, me.handled + 1), other, id)
  {
    var s, s' := me.state, HandleAck(me.state, x).0;
    OccurrencesPrefix(other.state.sent, me.handled, EndpointRegistered(id));
    OccurrencesPrefix(other.state.sent, me.handled + 1, EndpointRegistered(id));
    if x == id {
      AckIsExpected(me, other, id);
    }
    if x in s.pendingAck {
      var r := s.pendingAck[x];
      AcknowledgedUpdate(s.registrations, r, s.registrations[r].(fired := true), id);
      AskedUpdate(s.registrations, r, s.registrations[r].(fired := true), id);
    }
  }

  lemma AskedUpdate(rs: seq<Registration>, r: nat, g: Registration, id: u16)
    requires r < |rs| && g.id == rs[r].id
    ensures Asked(rs[r := g], id) <==> Asked(rs, id)
  {
    if Asked(rs, id) {
      var k :| 0 <= k < |rs| && rs[k].id == id;
      assert rs[r := g][k].id == id;
    }
  }

  /** An acknowledgement that arrives is for an id this side still waits for. */
  lemma AckIsExpected(me: Node, other: Node, id: u16)
    requires RegistrationOk(me, other, id)
    requires me.handled < |other.state.sent| && other.state.sent[me.handled] == EndpointRegistered(id)
    ensures id in me.state.pendingAck
  {
    OccurrencesPrefix(other.state.sent, me.handled, EndpointRegistered(id));
    OccurrencesPrefix(other.state.sent, me.handled + 1, EndpointRegistered(id));
    OccurrencesPrefix(me.state.sent, other.handled, RegisterEndpoint(id));
  }

  lemma IHandle(me: Node, other: Node, id: u16)
    requires RegistrationOk(me, other, id) && me.handled < |other.state.sent|
    requires forall x | x in me.state.pendingAck :: TableOk(me.state, x)
    ensures RegistrationOk(Node(HandleMsg(me.state, other.state.sent[me.handled]).0, me.handled + 1), other, id)
  {
    var m := other.state.sent[me.handled];
    OccurrencesPrefix(other.state.sent, me.handled, EndpointRegistered(id));
    match m
    case EndpointRegistered(x) => IHandleAck(me, other, x, id);
    case Ready(x) =>
    case RegisterEndpoint(x) =>
      var passed := me.(handled := me.handled + 1);
      if x !in me.state.pendingConnect {
        ISend(passed, other, id, Node(HandleMsg(me.state, m).0, me.handled + 1), EndpointRegistered(x));
      }
  }

  // ----- Steps of the other peer

  lemma OtherRecords(me: Node, other: Node, x: u16, id: u16)
    requires RegistrationOk(me, other, id) && other.handled < |me.state.sent|
    requires me.state.sent[other.handled] == RegisterEndpoint(x)
    ensures RegistrationOk(me, Node(HandleRegister(other.state, x).0, other.handled + 1), id)
  {
    OccurrencesPrefix(me.state.sent, other.handled, RegisterEndpoint(id));
    if x !in other.state.pendingConnect {
      OccurrencesNext(other.state.sent, EndpointRegistered(x), EndpointRegistered(id));
      HandledSame(other.state.sent, EndpointRegistered(x), me.handled);
    }
  }

  lemma OtherHandles(me: Node, other: Node, id: u16)
    requires RegistrationOk(me, other, id) && other.handled < |me.state.sent|
    ensures RegistrationOk(me, Node(HandleMsg(other.state, me.state.sent[other.handled]).0, other.handled + 1), id)
  {
    var m := me.state.sent[other.handled];
    if m.RegisterEndpoint? {
      OtherRecords(me, other, m.id, id);
    } else {
      OccurrencesPrefix(me.state.sent, other.handled, RegisterEndpoint(id));
      var s' := HandleMsg(other.state, m).0;
      assert s'.sent == other.state.sent && s'.pendingConnect == other.state.pendingConnect;
    }
  }

  // ----- Every run

  /** The node of the side that takes a step, after it. */
  function Stepped(y: System, e: Event): Node
    requires Possible(y, e)
  {
    Step(y, e).At(e.side)
  }

  lemma StepMine(y: System, e: Event, id: u16)
    requires Possible(y, e) && RegistrationOk(y.At(e.side), y.At(e.side.Other()), id)
    requires forall x | x in y.At(e.side).state.pendingAck :: TableOk(y.At(e.side).state, x)
    ensures RegistrationOk(Stepped(y, e), y.At(e.side.Other()), id)
  {
    var me, other := y.At(e.side), y.At(e.side.Other());
    match e
    case DoRegister(_, x) => IRegister(me, other, x, id);
    case DoSendRegister(_, r) => ISendRegister(me, other, r, id);
    case DoNotifier(_, _) =>
    case DoReady(_, n) => ISend(me, other, id, Stepped(y, e), Ready(me.state.notifiers[n].id));
    case DoDropNotifier(_, _) =>
    case DoDropRegistration(_, r) => IDrop(me, other, r, id);
    case Deliver(_) => IHandle(me, other, id);
  }

  lemma StepTheirs(y: System, e: Event, id: u16)
    requires Possible(y, e) && RegistrationOk(y.At(e.side.Other()), y.At(e.side), id)
    ensures RegistrationOk(y.At(e.side.Other()), Stepped(y, e), id)
  {
    var me, other := y.At(e.side), y.At(e.side.Other());
    match e
    case DoRegister(_, _) =>
    case DoSendRegister(_, r) =>
      OtherSends(other, me, id, Stepped(y, e), RegisterEndpoint(me.state.registrations[r].id));
    case DoNotifier(_, _) =>
    case DoReady(_, n) => OtherSends(other, me, id, Stepped(y, e), Ready(me.state.notifiers[n].id));
    case DoDropNotifier(_, _) =>
    case DoDropRegistration(_, _) =>
    case Deliver(_) => OtherHandles(other, me, id);
  }

  lemma StepOk(y: System, e: Event, id: u16)
    requires Possible(y, e) && AllOk(y, id)
    requires forall x | x in y.At(e.side).state.pendingAck :: TableOk(y.At(e.side).state, x)
    ensures AllOk(Step(y, e), id)
  {
    StepMine(y, e, id);
    StepTheirs(y, e, id);
    assert Step(y, e).At(e.side.Other()) == y.At(e.side.Other());
  }

  lemma {:induction false} RunOk(events: seq<Event>, id: u16)
    ensures AllOk(Run(events), id)
  {
    if events != [] {
      var before, e := events[..|events| - 1], events[|events| - 1];
      RunOk(before, id);
      var y := Run(before);
      if Possible(y, e) {
        forall x | x in y.At(e.side).state.pendingAck ensures TableOk(y.At(e.side).state, x) {
          RunOk(before, x);
        }
        StepOk(y, e, id);
      }
    }
  }

  // ----- The theorems

  /** A registration completes only after the other peer recorded the id. */
  lemma CompletedIsRecorded(events: seq<Event>, side: Side, r: nat)
    requires r < |Run(events).At(side).state.registrations|
    requires Run(events).At(side).state.registrations[r].fired
    ensures Run(events).At(side).state.registrations[r].id in Run(events).At(side.Other()).state.pendingConnect
  {
    var y := Run(events);
    var me, other := y.At(side), y.At(side.Other());
    var id := me.state.registrations[r].id;
    RunOk(events, id);
    AcknowledgedSome(me.state.registrations, r);
    OccurrencesPrefix(other.state.sent, me.handled, EndpointRegistered(id));
  }

  /** How many registrations of an id complete: at most one, and once every message was handled
      exactly one of each requested id. */
  lemma CompletedOnce(events: seq<Event>, side: Side, id: u16)
    ensures var y := Run(events);
            var me := y.At(side).state;
            && Acknowledged(me.registrations, id) <= 1
            && (Drained(y) ==>
                  Acknowledged(me.registrations, id) == if RegisterEndpoint(id) in me.sent then 1 else 0)
  {
    var y := Run(events);
    var me, other := y.At(side), y.At(side.Other());
    RunOk(events, id);
    OccurrencesPrefix(other.state.sent, me.handled, EndpointRegistered(id));
    if Drained(y) {
      assert other.state.sent[..me.handled] == other.state.sent;
      assert me.state.sent[..other.handled] == me.state.sent;
      OccurrencesMember(me.state.sent, RegisterEndpoint(id));
    }
  }

  // ----- Which registration completes

  /** No earlier registration has the same id. */
  ghost predicate IsFirst(rs: seq<Registration>, r: nat)
    requires r < |rs|
  {
    forall k | 0 <= k < r :: rs[k].id != rs[r].id
  }

  /** Only a first registration is ever acknowledged; until then it is the only one of its id. */
  ghost predicate FirstOk(s: State, id: u16) {
    && (Acknowledged(s.registrations, id) == 0 ==>
          forall r | 0 <= r < |s.registrations| && s.registrations[r].id == id :: IsFirst(s.registrations, r))
    && (forall r | 0 <= r < |s.registrations| && s.registrations[r].id == id && s.registrations[r].fired ::
          IsFirst(s.registrations, r))
    && (forall r | 0 <= r < |s.registrations| && s.registrations[r].id == id && s.registrations[r].sent ::
          RegisterEndpoint(id) in s.sent)
  }

  lemma FirstSame(s: State, s': State, id: u16)
    requires FirstOk(s, id) && s'.registrations == s.registrations && s.sent <= s'.sent
    ensures FirstOk(s', id)
  {
  }

  lemma FirstRegister(me: Node, other: Node, x: u16, id: u16)
    requires RegistrationOk(me, other, id) && FirstOk(me.state, id)
    ensures FirstOk(Register(me.state, x).0, id)
  {
    var s, s' := me.state, Register(me.state, x).0;
    if x !in s.pendingAck {
      AcknowledgedNext(s.registrations, NewRegistration(x), id);
      forall r | 0 <= r < |s'.registrations| && s'.registrations[r].id == id
                 && (Acknowledged(s'.registrations, id) == 0 || s'.registrations[r].fired)
        ensures IsFirst(s'.registrations, r)
      {
        if r < |s.registrations| {
          assert IsFirst(s.registrations, r);
        } else {
          assert !Asked(s.registrations, id);
        }
      }
    }
  }

  /** A registration was changed in place, and the ids stay. */
  lemma FirstUpdate(rs: seq<Registration>, k: nat, g: Registration, r: nat)
    requires k < |rs| && g.id == rs[k].id && r < |rs|
    ensures IsFirst(rs[k := g], r) <==> IsFirst(rs, r)
  {
    var more := rs[k := g];
    assert forall j | 0 <= j < |rs| :: more[j].id == rs[j].id;
  }

  lemma FirstSend(s: State, k: nat, id: u16)
    requires FirstOk(s, id) && k < |s.registrations|
    ensures FirstOk(SendRegister(s, k), id)
  {
    var g := s.registrations[k].(sent := true);
    AcknowledgedUpdate(s.registrations, k, g, id);
    forall r | 0 <= r < |s.registrations| ensures IsFirst(s.registrations[k := g], r) <==> IsFirst(s.registrations, r) {
      FirstUpdate(s.registrations, k, g, r);
    }
  }

  lemma FirstDrop(s: State, k: nat, id: u16)
    requires FirstOk(s, id) && k < |s.registrations|
    ensures FirstOk(DropRegistration(s, k), id)
  {
    var g := s.registrations[k].(dropped := true);
    AcknowledgedUpdate(s.registrations, k, g, id);
    forall r | 0 <= r < |s.registrations| ensures IsFirst(s.registrations[k := g], r) <==> IsFirst(s.registrations, r) {
      FirstUpdate(s.registrations, k, g, r);
    }
  }

  lemma FirstAck(me: Node, other: Node, x: u16, id: u16)
    requires RegistrationOk(me, other, id) && FirstOk(me.state, id)
    requires x in me.state.pendingAck ==> TableOk(me.state, x)
    requires me.handled < |other.state.sent| && other.state.sent[me.handled] == EndpointRegistered(x)
    ensures FirstOk(HandleAck(me.state, x).0, id)
  {
    var s := me.state;
    OccurrencesPrefix(other.state.sent, me.handled, EndpointRegistered(id));
    OccurrencesPrefix(other.state.sent, me.handled + 1, EndpointRegistered(id));
    if x in s.pendingAck {
      var k := s.pendingAck[x];
      var g := s.registrations[k].(fired := true);
      AcknowledgedUpdate(s.registrations, k, g, id);
      forall r | 0 <= r < |s.registrations|
        ensures IsFirst(s.registrations[k := g], r) <==> IsFirst(s.registrations, r)
      {
        FirstUpdate(s.registrations, k, g, r);
      }
    }
  }

  lemma StepFirst(y: System, e: Event, id: u16)
    requires Possible(y, e) && RegistrationOk(y.At(e.side), y.At(e.side.Other()), id) && FirstOk(y.At(e.side).state, id)
    requires forall x | x in y.At(e.side).state.pendingAck :: TableOk(y.At(e.side).state, x)
    ensures FirstOk(Stepped(y, e).state, id)
  {
    var me, other := y.At(e.side), y.At(e.side.Other());
    match e
    case DoRegister(_, x) => FirstRegister(me, other, x, id);
    case DoSendRegister(_, r) => FirstSend(me.state, r, id);
    case DoNotifier(_, x) => FirstSame(me.state, NewNotifier(me.state, x).0, id);
    case DoReady(_, n) => FirstSame(me.state, CallReady(me.state, n), id);
    case DoDropNotifier(_, n) => FirstSame(me.state, DropNotifier(me.state, n), id);
    case DoDropRegistration(_, r) => FirstDrop(me.state, r, id);
    case Deliver(_) =>
      match other.state.sent[me.handled]
      case EndpointRegistered(x) => FirstAck(me, other, x, id);
      case RegisterEndpoint(x) => FirstSame(me.state, HandleRegister(me.state, x).0, id);
      case Ready(x) => FirstSame(me.state, HandleReady(me.state, x).0, id);
  }

  lemma {:induction false} RunFirst(events: seq<Event>, side: Side, id: u16)
    ensures FirstOk(Run(events).At(side).state, id)
  {
    if events != [] {
      var before, e := events[..|events| - 1], events[|events| - 1];
      RunFirst(before, side, id);
      var y := Run(before);
      if Possible(y, e) && e.side == side {
        forall x | x in y.At(e.side).state.pendingAck ensures TableOk(y.At(e.side).state, x) {
          RunOk(before, x);
        }
        RunOk(before, id);
        StepFirst(y, e, id);
      }
    }
  }

  lemma {:induction false} AcknowledgedOne(rs: seq<Registration>, id: u16) returns (r: nat)
    requires Acknowledged(rs, id) > 0
    ensures r < |rs| && rs[r].id == id && rs[r].fired
  {
    var last := |rs| - 1;
    if rs[last].id == id && rs[last].fired {
      r := last;
    } else {
      r := AcknowledgedOne(rs[..last], id);
    }
  }

  /** A registration completes only if no earlier one has its id; and once every message was
      handled, a registration that was sent has completed if and only if that is so. */
  lemma FirstCompletes(events: seq<Event>, side: Side, r: nat)
    requires r < |Run(events).At(side).state.registrations|
    ensures var rs := Run(events).At(side).state.registrations;
            && (rs[r].fired ==> IsFirst(rs, r))
            && (Drained(Run(events)) && rs[r].sent ==> (rs[r].fired <==> IsFirst(rs, r)))
  {
    var s := Run(events).At(side).state;
    var id := s.registrations[r].id;
    RunFirst(events, side, id);
    CompletedOnce(events, side, id);
    if Drained(Run(events)) && s.registrations[r].sent && IsFirst(s.registrations, r) {
      var f := AcknowledgedOne(s.registrations, id);
      assert IsFirst(s.registrations, f);
      assert f == r;
    }
  }

  // ----- A run that repeats an id

  /** The server registers an id, is acknowledged, and registers it again. */
  function Repeating(id: u16): seq<Event> {
    [DoRegister(Server, id), DoSendRegister(Server, 0), Deliver(Client), Deliver(Server),
     DoRegister(Server, id), DoSendRegister(Server, 1), Deliver(Client)]
  }

  lemma RunNext(events: seq<Event>, k: nat)
    requires k < |events|
    ensures var y := Run(events[..k]);
            Run(events[..k + 1]) == if Possible(y, events[k]) then Step(y, events[k]) else y
  {
    assert events[..k + 1][..k] == events[..k];
  }

  /** The states of that run after its fourth and last event. */
  function Acked(id: u16): System {
    System(Node(State(map[], {}, map[], [], [Registration(id, true, true, false)], [RegisterEndpoint(id)]), 1),
           Node(State(map[], {id}, map[], [], [], [EndpointRegistered(id)]), 1))
  }

  function Stuck(id: u16): System {
    System(Node(State(map[id := 1], {}, map[], [],
                      [Registration(id, true, true, false), Registration(id, true, false, false)],
                      [RegisterEndpoint(id), RegisterEndpoint(id)]), 1),
           Node(State(map[], {id}, map[], [], [], [EndpointRegistered(id)]), 2))
  }

  lemma UpToAcked(id: u16)
    ensures Run(Repeating(id)[..4]) == Acked(id)
  {
    var events := Repeating(id);
    assert events[..0] == [];
    RunNext(events, 0);
    RunNext(events, 1);
    RunNext(events, 2);
    RunNext(events, 3);
    assert map[id := 0] - {id} == map[];
  }

  /** The second registration, before and after its request is sent. */
  function Again(id: u16, sent: bool): System {
    System(Node(State(map[id := 1], {}, map[], [],
                      [Registration(id, true, true, false), Registration(id, sent, false, false)],
                      if sent then [RegisterEndpoint(id), RegisterEndpoint(id)] else [RegisterEndpoint(id)]), 1),
           Acked(id).client)
  }

  lemma RegisterAgain(id: u16)
    ensures var e := DoRegister(Server, id); Possible(Acked(id), e) && Step(Acked(id), e) == Again(id, false)
  {
  }

  lemma SendAgain(id: u16)
    ensures var e := DoSendRegister(Server, 1);
            Possible(Again(id, false), e) && Step(Again(id, false), e) == Again(id, true)
  {
  }

  lemma RefuseAgain(id: u16)
    ensures var e := Deliver(Client); Possible(Again(id, true), e) && Step(Again(id, true), e) == Stuck(id)
  {
  }

  lemma RunsTo(events: seq<Event>, k: nat, e: Event, y: System, y': System)
    requires k < |events| && events[k] == e && Run(events[..k]) == y && Possible(y, e) && Step(y, e) == y'
    ensures Run(events[..k + 1]) == y'
  {
    RunNext(events, k);
  }

  lemma UpToStuck(id: u16)
    ensures Run(Repeating(id)) == Stuck(id)
  {
    var events := Repeating(id);
    UpToAcked(id);
    RegisterAgain(id);
    RunsTo(events, 4, DoRegister(Server, id), Acked(id), Again(id, false));
    SendAgain(id);
    RunsTo(events, 5, DoSendRegister(Server, 1), Again(id, false), Again(id, true));
    RefuseAgain(id);
    RunsTo(events, 6, Deliver(Client), Again(id, true), Stuck(id));
    assert events[..7] == events;
  }

  /** Every id can be repeated, and then the second registration is sent and never completes:
      everything is handled and it still waits. */
  lemma RepeatedWaits(id: u16)
    ensures var y := Run(Repeating(id));
            var rs := y.server.state.registrations;
            && Drained(y) && |rs| == 2 && rs[0].id == rs[1].id == id
            && rs[0].fired && rs[1].sent && !rs[1].fired && !rs[1].dropped
  {
    UpToStuck(id);
  }

  // ----- When the handler fails

  /** The waiter the message is for was dropped before it arrived. */
  predicate WaiterGone(s: State, m: Msg) {
    match m
    case RegisterEndpoint(_) => false
    case EndpointRegistered(id) =>
      id in s.pendingAck && s.pendingAck[id] < |s.registrations| && s.registrations[s.pendingAck[id]].dropped
    case Ready(id) =>
      && id in s.pendingReady && s.pendingReady[id].AwaitingRemote?
      && s.pendingReady[id].notifier < |s.notifiers| && s.notifiers[s.pendingReady[id].notifier].dropped
  }

  /** Between two correct peers the handler never sees a second `Ready` for a parked id nor an
      acknowledgement it does not expect: it fails exactly on the repeated request of an id, and
      when the waiter was dropped. */
  lemma OnlyRepeatedRequestsFail(events: seq<Event>, side: Side)
    requires Possible(Run(events), Deliver(side))
    ensures var y := Run(events);
            var me, other := y.At(side), y.At(side.Other()).state;
            var m := other.sent[me.handled];
            HandleMsg(me.state, m).1 ==
            if m.RegisterEndpoint? && m in other.sent[..me.handled] then Some(EndpointAlreadyRegistered)
            else if WaiterGone(me.state, m) then Some(WaiterDropped) else None
  {
    var y := Run(events);
    var me, other := y.At(side), y.At(side.Other());
    var m := other.state.sent[me.handled];
    RunOk(events, m.id);
    match m
    case RegisterEndpoint(id) => OccurrencesMember(other.state.sent[..me.handled], m);
    case EndpointRegistered(id) => AckIsExpected(me, other, id);
    case Ready(id) =>
      RunReady(events, id);
      NeverParkedTwice(y, side, id);
  }
}
