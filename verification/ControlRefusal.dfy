/** When the two entry points of the control handshake refuse a caller, in every run of both peers
    (kyproto/src/control.rs). */
module ControlRefusal {
  import opened AvPacket
  import opened Control

  // ----- Registrations

  /** The table names exactly the registrations that are not acknowledged, one for each id. */
  ghost predicate WaitingOk(s: State) {
    && (forall id | id in s.pendingAck :: s.pendingAck[id] < |s.registrations| && WaitsAs(s, s.pendingAck[id], id))
    && (forall r | 0 <= r < |s.registrations| && !s.registrations[r].fired ::
          s.registrations[r].id in s.pendingAck && s.pendingAck[s.registrations[r].id] == r)
  }

  predicate WaitsAs(s: State, r: nat, id: u16)
    requires r < |s.registrations|
  {
    s.registrations[r].id == id && !s.registrations[r].fired
  }

  lemma SameWaiting(s: State, s': State)
    requires WaitingOk(s) && s'.pendingAck == s.pendingAck && |s'.registrations| == |s.registrations|
    requires forall r | 0 <= r < |s.registrations| ::
               s'.registrations[r].id == s.registrations[r].id && s'.registrations[r].fired == s.registrations[r].fired
    ensures WaitingOk(s')
  {
    forall id | id in s'.pendingAck
      ensures s'.pendingAck[id] < |s'.registrations| && WaitsAs(s', s'.pendingAck[id], id)
    {
      assert WaitsAs(s, s.pendingAck[id], id);
    }
  }

  lemma RegisterWaiting(s: State, id: u16)
    requires WaitingOk(s)
    ensures WaitingOk(Register(s, id).0)
  {
    var s' := Register(s, id).0;
    forall x | x in s'.pendingAck ensures s'.pendingAck[x] < |s'.registrations| && WaitsAs(s', s'.pendingAck[x], x) {
      assert x in s.pendingAck ==> WaitsAs(s, s.pendingAck[x], x);
    }
  }

  lemma AckWaiting(s: State, id: u16)
    requires WaitingOk(s)
    ensures WaitingOk(HandleAck(s, id).0)
  {
    if id in s.pendingAck {
      var s', r := HandleAck(s, id).0, s.pendingAck[id];
      assert WaitsAs(s, r, id);
      forall x | x in s'.pendingAck ensures s'.pendingAck[x] < |s'.registrations| && WaitsAs(s', s'.pendingAck[x], x) {
        assert WaitsAs(s, s.pendingAck[x], x);
      }
    }
  }

  lemma HandleWaiting(s: State, m: Msg)
    requires WaitingOk(s)
    ensures WaitingOk(HandleMsg(s, m).0)
  {
    match m
    case RegisterEndpoint(id) => SameWaiting(s, HandleMsg(s, m).0);
    case EndpointRegistered(id) => AckWaiting(s, id);
    case Ready(id) => SameWaiting(s, HandleMsg(s, m).0);
  }

  lemma StepWaiting(y: System, e: Event)
    requires WaitingOk(y.server.state) && WaitingOk(y.client.state) && Possible(y, e)
    ensures WaitingOk(Step(y, e).server.state) && WaitingOk(Step(y, e).client.state)
  {
    var s := y.At(e.side).state;
    match e
    case DoRegister(_, id) => RegisterWaiting(s, id);
    case Deliver(side) => HandleWaiting(s, y.At(side.Other()).state.sent[y.At(side).handled]);
    case _ => SameWaiting(s, Step(y, e).At(e.side).state);
  }

  lemma {:induction false} RunWaiting(events: seq<Event>)
    ensures WaitingOk(Run(events).server.state) && WaitingOk(Run(events).client.state)
  {
    if events != [] {
      var before, e := events[..|events| - 1], events[|events| - 1];
      RunWaiting(before);
      if Possible(Run(before), e) {
        StepWaiting(Run(before), e);
      }
    }
  }

  /** In every run a registration is refused if and only if one of the same id is not acknowledged. */
  lemma RegistrationRefusedIff(events: seq<Event>, side: Side, id: u16)
    ensures var s := Run(events).At(side).state;
            var r := Register(s, id).1;
            && (r.Err? <==> exists k :: 0 <= k < |s.registrations| && WaitsAs(s, k, id))
            && (r.Err? ==> r.error == EndpointAlreadyPending)
  {
    RunWaiting(events);
    var s := Run(events).At(side).state;
    if id in s.pendingAck {
      assert WaitsAs(s, s.pendingAck[id], id);
    }
  }

  // ----- Ready notifiers

  predicate NotWoken(s: State, n: nat, id: u16)
    requires n < |s.notifiers|
  {
    s.notifiers[n].id == id && !s.notifiers[n].fired
  }

  /** In every run a ready notifier is refused if and only if one of the same id is not woken yet. */
  lemma NotifierRefusedIff(events: seq<Event>, side: Side, id: u16)
    ensures var s := Run(events).At(side).state;
            var r := NewNotifier(s, id).1;
            && (r.Err? <==> exists n :: 0 <= n < |s.notifiers| && NotWoken(s, n, id))
            && (r.Err? ==> r.error == AlreadyAwaitingReady)
  {
    RunReady(events, id);
    var s := Run(events).At(side).state;
    if id in s.pendingReady && s.pendingReady[id].AwaitingRemote? {
      var n := s.pendingReady[id].notifier;
      assert Waits(s, n) && NotWoken(s, n, id);
    }
    forall n | 0 <= n < |s.notifiers| && NotWoken(s, n, id) ensures NewNotifier(s, id).1.Err? {
      assert Waits(s, n);
    }
  }
}
