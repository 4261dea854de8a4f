/** The control handshake between the two peers of a connection (kyproto/src/control.rs): its
    operations, the system of both peers, and the rendezvous of `ready`.

    A oneshot channel is a flag that its one sender sets once. If the waiter was dropped before,
    the handler reports an error but changes the same tables. Every queue between tasks and the
    stream between the peers are one first-in, first-out channel in each direction. */
module Control {
  import opened Wrappers
  import opened AvPacket

  datatype Msg = RegisterEndpoint(id: u16) | EndpointRegistered(id: u16) | Ready(id: u16)

  datatype Error =
    | EndpointAlreadyPending
    | AlreadyAwaitingReady
    | EndpointAlreadyRegistered
    | UnexpectedAck
    | MultipleReady
    | WaiterDropped

  /** A notifier made by `register_ready_notifier`: whether `ready` was called on it, whether the
      remote readiness it waits for was signalled, and whether it was dropped. */
  datatype Notifier = Notifier(id: u16, called: bool, fired: bool, dropped: bool)

  /** A call of `register_endpoint`: whether its message was sent, whether it was acknowledged, and
      whether its caller gave up. */
  datatype Registration = Registration(id: u16, sent: bool, fired: bool, dropped: bool)

  datatype PendingReady = AwaitingLocal | AwaitingRemote(notifier: nat)

  /** `sent` holds every message ever sent; the pending tables name notifiers and registrations by
      index. */
  datatype State = State(
    pendingAck: map<u16, nat>, pendingConnect: set<u16>, pendingReady: map<u16, PendingReady>,
    notifiers: seq<Notifier>, registrations: seq<Registration>, sent: seq<Msg>)

  const EMPTY: State := State(map[], {}, map[], [], [], [])

  function NewRegistration(id: u16): Registration { Registration(id, false, false, false) }

  // ----- What each operation does

  function Register(s: State, id: u16): (State, Result<nat, Error>) {
    if id in s.pendingAck then (s, Err(EndpointAlreadyPending))
    else
      var r := |s.registrations|;
      (s.(pendingAck := s.pendingAck[id := r], registrations := s.registrations + [NewRegistration(id)]), Ok(r))
  }

  function SendRegister(s: State, r: nat): State
    requires r < |s.registrations|
  {
    var g := s.registrations[r];
    s.(registrations := s.registrations[r := g.(sent := true)], sent := s.sent + [RegisterEndpoint(g.id)])
  }

  function NewNotifier(s: State, id: u16): (State, Result<nat, Error>) {
    var n := |s.notifiers|;
    if id !in s.pendingReady then
      (s.(pendingReady := s.pendingReady[id := AwaitingRemote(n)],
          notifiers := s.notifiers + [Notifier(id, false, false, false)]), Ok(n))
    else if s.pendingReady[id].AwaitingRemote? then (s, Err(AlreadyAwaitingReady))
    else
      (s.(pendingReady := s.pendingReady - {id}, notifiers := s.notifiers + [Notifier(id, false, true, false)]), Ok(n))
  }

  function CallReady(s: State, n: nat): State
    requires n < |s.notifiers|
  {
    var w := s.notifiers[n];
    s.(notifiers := s.notifiers[n := w.(called := true)], sent := s.sent + [Ready(w.id)])
  }

  function HandleRegister(s: State, id: u16): (State, Option<Error>) {
    if id in s.pendingConnect then (s, Some(EndpointAlreadyRegistered))
    else (s.(pendingConnect := s.pendingConnect + {id}, sent := s.sent + [EndpointRegistered(id)]), None)
  }

  function HandleAck(s: State, id: u16): (State, Option<Error>) {
    if id !in s.pendingAck then (s, Some(UnexpectedAck))
    else
      var r := s.pendingAck[id];
      var s' := s.(pendingAck := s.pendingAck - {id});
      if r >= |s.registrations| then (s', None)
      else
        (s'.(registrations := s.registrations[r := s.registrations[r].(fired := true)]),
         if s.registrations[r].dropped then Some(WaiterDropped) else None)
  }

  function HandleReady(s: State, id: u16): (State, Option<Error>) {
    if id !in s.pendingReady then (s.(pendingReady := s.pendingReady[id := AwaitingLocal]), None)
    else
      match s.pendingReady[id]
      case AwaitingLocal => (s.(pendingReady := s.pendingReady - {id}), Some(MultipleReady))
      case AwaitingRemote(n) =>
        var s' := s.(pendingReady := s.pendingReady - {id});
        if n >= |s.notifiers| then (s', None)
        else
          (s'.(notifiers := s.notifiers[n := s.notifiers[n].(fired := true)]),
           if s.notifiers[n].dropped then Some(WaiterDropped) else None)
  }

  function DropNotifier(s: State, n: nat): State
    requires n < |s.notifiers|
  {
    s.(notifiers := s.notifiers[n := s.notifiers[n].(dropped := true)])
  }

  function DropRegistration(s: State, r: nat): State
    requires r < |s.registrations|
  {
    s.(registrations := s.registrations[r := s.registrations[r].(dropped := true)])
  }

  function HandleMsg(s: State, m: Msg): (State, Option<Error>) {
    match m
    case RegisterEndpoint(id) => HandleRegister(s, id)
    case EndpointRegistered(id) => HandleAck(s, id)
    case Ready(id) => HandleReady(s, id)
  }

  class Peer {
    var pendingAck: map<u16, nat>
    var pendingConnect: set<u16>
    var pendingReady: map<u16, PendingReady>
    var notifiers: seq<Notifier>
    var registrations: seq<Registration>
    var sent: seq<Msg>

    ghost function View(): State
      reads this
    {
      State(pendingAck, pendingConnect, pendingReady, notifiers, registrations, sent)
    }

    /** The tables only name waiters that exist. */
    ghost predicate Valid()
      reads this
    {
      && (forall id | id in pendingAck :: pendingAck[id] < |registrations|)
      && (forall id | id in pendingReady && pendingReady[id].AwaitingRemote? ::
            pendingReady[id].notifier < |notifiers|)
    }

    constructor ()
      ensures Valid() && View() == EMPTY
    {
      pendingAck, pendingConnect, pendingReady, notifiers, registrations, sent := map[], {}, map[], [], [], [];
    }

    /** The part of `register_endpoint` before it sends. */
    method BeginRegister(id: u16) returns (r: Result<nat, Error>)
      requires Valid()
      modifies this
      ensures Valid() && (View(), r) == Register(old(View()), id)
    {
      if id in pendingAck {
        return Err(EndpointAlreadyPending);
      }
      r := Ok(|registrations|);
      pendingAck := pendingAck[id := |registrations|];
      registrations := registrations + [NewRegistration(id)];
    }

    method SendRegistration(r: nat)
      requires Valid() && r < |registrations|
      modifies this
      ensures Valid() && View() == SendRegister(old(View()), r)
    {
      sent := sent + [RegisterEndpoint(registrations[r].id)];
      registrations := registrations[r := registrations[r].(sent := true)];
    }

    method RegisterReadyNotifier(id: u16) returns (r: Result<nat, Error>)
      requires Valid()
      modifies this
      ensures Valid() && (View(), r) == NewNotifier(old(View()), id)
    {
      var fired := false;
      if id in pendingReady {
        if pendingReady[id].AwaitingRemote? {
          return Err(AlreadyAwaitingReady);
        }
        pendingReady := pendingReady - {id};
        fired := true;
      } else {
        pendingReady := pendingReady[id := AwaitingRemote(|notifiers|)];
      }
      r := Ok(|notifiers|);
      notifiers := notifiers + [Notifier(id, false, fired, false)];
    }

    /** The sending half of `ready`; the waiting half ends once the notifier is fired. */
    method SendReady(n: nat)
      requires Valid() && n < |notifiers|
      modifies this
      ensures Valid() && View() == CallReady(old(View()), n)
    {
      sent := sent + [Ready(notifiers[n].id)];
      notifiers := notifiers[n := notifiers[n].(called := true)];
    }

    method Handle(m: Msg) returns (error: Option<Error>)
      requires Valid()
      modifies this
      ensures Valid() && (View(), error) == HandleMsg(old(View()), m)
    {
      error := None;
      match m
      case RegisterEndpoint(id) =>
        if id in pendingConnect {
          return Some(EndpointAlreadyRegistered);
        }
        pendingConnect := pendingConnect + {id};
        sent := sent + [EndpointRegistered(id)];
      case EndpointRegistered(id) =>
        if id !in pendingAck {
          return Some(UnexpectedAck);
        }
        var r := pendingAck[id];
        pendingAck := pendingAck - {id};
        if registrations[r].dropped {
          error := Some(WaiterDropped);
        }
        registrations := registrations[r := registrations[r].(fired := true)];
      case Ready(id) =>
        if id in pendingReady {
          var removed := pendingReady[id];
          pendingReady := pendingReady - {id};
          if removed.AwaitingLocal? {
            return Some(MultipleReady);
          }
          var n := removed.notifier;
          if notifiers[n].dropped {
            error := Some(WaiterDropped);
          }
          notifiers := notifiers[n := notifiers[n].(fired := true)];
        } else {
          pendingReady := pendingReady[id := AwaitingLocal];
        }
    }
  }

  // ----- The two peers and the channels between them

  datatype Side = Server | Client {
    function Other(): Side { if Server? then Client else Server }
  }

  /** A peer, and how many of the other peer's messages it has handled. */
  datatype Node = Node(state: State, handled: nat)

  datatype System = System(server: Node, client: Node) {
    function At(side: Side): Node { if side.Server? then server else client }

    function With(side: Side, node: Node): System {
      if side.Server? then this.(server := node) else this.(client := node)
    }
  }

  const START: System := System(Node(EMPTY, 0), Node(EMPTY, 0))

  datatype Event =
    | DoRegister(side: Side, id: u16)
    | DoSendRegister(side: Side, registration: nat)
    | DoNotifier(side: Side, id: u16)
    | DoReady(side: Side, notifier: nat)
    | DoDropNotifier(side: Side, notifier: nat)
    | DoDropRegistration(side: Side, registration: nat)
    | Deliver(side: Side)

  /** `ready` consumes its notifier and a registration sends once, unless they were dropped. */
  predicate Possible(y: System, e: Event) {
    var s := y.At(e.side).state;
    match e
    case DoSendRegister(_, r) => r < |s.registrations| && !s.registrations[r].sent && !s.registrations[r].dropped
    case DoReady(_, n) => n < |s.notifiers| && !s.notifiers[n].called && !s.notifiers[n].dropped
    case DoDropNotifier(_, n) => n < |s.notifiers|
    case DoDropRegistration(_, r) => r < |s.registrations|
    case Deliver(side) => y.At(side).handled < |y.At(side.Other()).state.sent|
    case _ => true
  }

  function Step(y: System, e: Event): System
    requires Possible(y, e)
  {
    var node := y.At(e.side);
    var node' :=
      match e
      case DoRegister(_, id) => node.(state := Register(node.state, id).0)
      case DoSendRegister(_, r) => node.(state := SendRegister(node.state, r))
      case DoNotifier(_, id) => node.(state := NewNotifier(node.state, id).0)
      case DoReady(_, n) => node.(state := CallReady(node.state, n))
      case DoDropNotifier(_, n) => node.(state := DropNotifier(node.state, n))
      case DoDropRegistration(_, r) => node.(state := DropRegistration(node.state, r))
      case Deliver(side) =>
        Node(HandleMsg(node.state, y.At(side.Other()).state.sent[node.handled]).0, node.handled + 1);
    y.With(e.side, node')
  }

  /** The system after a sequence of events; an event that is not possible does nothing. */
  function Run(events: seq<Event>): System {
    if events == [] then START
    else
      var y := Run(events[..|events| - 1]);
      var e := events[|events| - 1];
      if Possible(y, e) then Step(y, e) else y
  }

  /** Nothing is in flight in either direction. */
  predicate Drained(y: System) {
    y.server.handled == |y.client.state.sent| && y.client.handled == |y.server.state.sent|
  }

  // ----- Counting

  /** Notifiers for an id. */
  function Created(ns: seq<Notifier>, id: u16): nat {
    if ns == [] then 0 else Created(ns[..|ns| - 1], id) + if ns[|ns| - 1].id == id then 1 else 0
  }

  /** Notifiers for an id on which `ready` was called. */
  function Called(ns: seq<Notifier>, id: u16): nat {
    if ns == [] then 0
    else Called(ns[..|ns| - 1], id) + if ns[|ns| - 1].id == id && ns[|ns| - 1].called then 1 else 0
  }

  function Occurrences(ms: seq<Msg>, m: Msg): nat {
    if ms == [] then 0 else Occurrences(ms[..|ms| - 1], m) + if ms[|ms| - 1] == m then 1 else 0
  }

  lemma CreatedNext(ns: seq<Notifier>, w: Notifier, id: u16)
    ensures Created(ns + [w], id) == Created(ns, id) + if w.id == id then 1 else 0
    ensures Called(ns + [w], id) == Called(ns, id) + if w.id == id && w.called then 1 else 0
  {
    assert (ns + [w])[..|ns|] == ns;
  }

  lemma {:induction false} CreatedUpdate(ns: seq<Notifier>, n: nat, w: Notifier, id: u16)
    requires n < |ns| && w.id == ns[n].id
    ensures Created(ns[n := w], id) == Created(ns, id)
    ensures Called(ns[n := w], id) - Called(ns, id) ==
            (if w.id == id && w.called then 1 else 0) - (if w.id == id && ns[n].called then 1 else 0)
  {
    var last := |ns| - 1;
    if n < last {
      assert ns[n := w][..last] == ns[..last][n := w];
      CreatedUpdate(ns[..last], n, w, id);
    } else {
      assert ns[n := w][..last] == ns[..last];
    }
  }

  lemma {:induction false} CalledAtMostCreated(ns: seq<Notifier>, id: u16)
    ensures Called(ns, id) <= Created(ns, id)
  {
    if ns != [] {
      CalledAtMostCreated(ns[..|ns| - 1], id);
    }
  }

  lemma OccurrencesNext(ms: seq<Msg>, x: Msg, m: Msg)
    ensures Occurrences(ms + [x], m) == Occurrences(ms, m) + if x == m then 1 else 0
  {
    assert (ms + [x])[..|ms|] == ms;
  }

  lemma {:induction false} OccurrencesPrefix(ms: seq<Msg>, k: nat, m: Msg)
    requires k <= |ms|
    ensures Occurrences(ms[..k], m) <= Occurrences(ms, m)
    ensures k < |ms| ==> Occurrences(ms[..k + 1], m) == Occurrences(ms[..k], m) + if ms[k] == m then 1 else 0
    decreases |ms| - k
  {
    if k < |ms| {
      assert ms[..k + 1] == ms[..k] + [ms[k]];
      OccurrencesNext(ms[..k], ms[k], m);
      OccurrencesPrefix(ms, k + 1, m);
    } else {
      assert ms[..k] == ms;
    }
  }

  lemma {:induction false} OccurrencesMember(ms: seq<Msg>, m: Msg)
    ensures Occurrences(ms, m) > 0 <==> m in ms
  {
    if ms != [] {
      assert ms == ms[..|ms| - 1] + [ms[|ms| - 1]];
      OccurrencesMember(ms[..|ms| - 1], m);
    }
  }

  // ----- Readiness

  predicate Waits(s: State, n: nat)
    requires n < |s.notifiers|
  {
    var id := s.notifiers[n].id;
    id in s.pendingReady && s.pendingReady[id] == AwaitingRemote(n)
  }

  /** A notifier is fired unless the table says it waits, and only the newest one of an id waits. */
  ghost predicate NotifiersOk(s: State) {
    && (forall id | id in s.pendingReady && s.pendingReady[id].AwaitingRemote? ::
          var n := s.pendingReady[id].notifier;
          n < |s.notifiers| && s.notifiers[n].id == id && NoneAfter(s.notifiers, n))
    && (forall n | 0 <= n < |s.notifiers| :: s.notifiers[n].fired <==> !Waits(s, n))
  }

  ghost predicate NoneAfter(ns: seq<Notifier>, n: nat)
    requires n < |ns|
  {
    forall k | n < k < |ns| :: ns[k].id != ns[n].id
  }

  function Waiting(s: State, id: u16): nat {
    if id in s.pendingReady && s.pendingReady[id].AwaitingRemote? then 1 else 0
  }

  function Parked(s: State, id: u16): nat {
    if id in s.pendingReady && s.pendingReady[id].AwaitingLocal? then 1 else 0
  }

  /** Each `Ready` handled fired one notifier or is parked, and each call of `ready` sent one. */
  ghost predicate ReadyOk(node: Node, other: State, id: u16) {
    && node.handled <= |other.sent|
    && Occurrences(other.sent[..node.handled], Ready(id)) + Waiting(node.state, id) ==
       Created(node.state.notifiers, id) + Parked(node.state, id)
    && Called(node.state.notifiers, id) == Occurrences(node.state.sent, Ready(id))
  }

  ghost predicate RendezvousOk(y: System, id: u16) {
    && ReadyOk(y.server, y.client.state, id)
    && ReadyOk(y.client, y.server.state, id)
  }

  lemma NewNotifierNotifiers(s: State, id: u16)
    requires NotifiersOk(s)
    ensures NotifiersOk(NewNotifier(s, id).0)
  {
    var s' := NewNotifier(s, id).0;
    forall n | 0 <= n < |s'.notifiers| ensures s'.notifiers[n].fired <==> !Waits(s', n) {
      if n < |s.notifiers| {
        assert Waits(s', n) == Waits(s, n);
      }
    }
  }

  lemma CallNotifiers(s: State, n: nat)
    requires NotifiersOk(s) && n < |s.notifiers|
    ensures NotifiersOk(CallReady(s, n))
  {
    var s' := CallReady(s, n);
    forall k | 0 <= k < |s'.notifiers| ensures s'.notifiers[k].fired <==> !Waits(s', k) {
      assert Waits(s', k) == Waits(s, k);
    }
  }

  lemma DropNotifiers(s: State, n: nat)
    requires NotifiersOk(s) && n < |s.notifiers|
    ensures NotifiersOk(DropNotifier(s, n))
  {
    var s' := DropNotifier(s, n);
    forall k | 0 <= k < |s'.notifiers| ensures s'.notifiers[k].fired <==> !Waits(s', k) {
      assert Waits(s', k) == Waits(s, k);
    }
  }

  lemma SameNotifiers(s: State, s': State)
    requires NotifiersOk(s) && s'.notifiers == s.notifiers && s'.pendingReady == s.pendingReady
    ensures NotifiersOk(s')
  {
    forall k | 0 <= k < |s'.notifiers| ensures s'.notifiers[k].fired <==> !Waits(s', k) {
      assert Waits(s', k) == Waits(s, k);
    }
  }

  lemma HandleNotifiers(s: State, m: Msg)
    requires NotifiersOk(s)
    ensures NotifiersOk(HandleMsg(s, m).0)
  {
    var s' := HandleMsg(s, m).0;
    forall n | 0 <= n < |s'.notifiers| ensures s'.notifiers[n].fired <==> !Waits(s', n) {
      assert s.notifiers[n].fired <==> !Waits(s, n);
    }
  }

  /** Among two correct peers nothing is parked when another `Ready` arrives: between two calls of
      `ready` for an id on one side lies one on the other side. */
  lemma NeverParkedTwice(y: System, side: Side, id: u16)
    requires RendezvousOk(y, id) && Possible(y, Deliver(side))
    requires y.At(side.Other()).state.sent[y.At(side).handled] == Ready(id)
    ensures Parked(y.At(side).state, id) == 0
  {
    var me, other := y.At(side), y.At(side.Other());
    CalledAtMostCreated(me.state.notifiers, id);
    CalledAtMostCreated(other.state.notifiers, id);
    OccurrencesPrefix(other.state.sent, me.handled, Ready(id));
    OccurrencesPrefix(other.state.sent, me.handled + 1, Ready(id));
    OccurrencesPrefix(me.state.sent, other.handled, Ready(id));
  }

  /** Messages already handled stay handled when the other side sends more. */
  lemma HandledSame(a: seq<Msg>, x: Msg, k: nat)
    requires k <= |a|
    ensures (a + [x])[..k] == a[..k]
  {
  }

  /** A new notifier waits, or takes what is parked. */
  lemma NewNotifierCounts(s: State, made: u16, id: u16)
    ensures var s' := NewNotifier(s, made).0;
            && Waiting(s', id) - Parked(s', id) - Created(s'.notifiers, id) ==
               Waiting(s, id) - Parked(s, id) - Created(s.notifiers, id)
            && Called(s'.notifiers, id) == Called(s.notifiers, id)
  {
    CreatedNext(s.notifiers, Notifier(made, false, made in s.pendingReady, false), id);
  }

  lemma NotifierNode(node: Node, other: State, made: u16, id: u16)
    requires ReadyOk(node, other, id)
    ensures ReadyOk(node.(state := NewNotifier(node.state, made).0), other, id)
  {
    NewNotifierCounts(node.state, made, id);
  }

  /** A step of one side that sends nothing leaves the other side's half as it is. */
  lemma SilentStep(y: System, side: Side, node: Node, id: u16)
    requires RendezvousOk(y, id) && ReadyOk(node, y.At(side.Other()).state, id)
    requires node.state.sent == y.At(side).state.sent
    ensures RendezvousOk(y.With(side, node), id)
  {
    assert ReadyOk(y.At(side.Other()), y.At(side).state, id);
    assert ReadyOk(y.At(side.Other()), node.state, id);
  }

  /** What the other side sends later does not matter yet. */
  lemma LongerSent(node: Node, other: State, other': State, x: Msg, id: u16)
    requires ReadyOk(node, other, id) && other'.sent == other.sent + [x]
    ensures ReadyOk(node, other', id)
  {
    HandledSame(other.sent, x, node.handled);
  }

  lemma SendingStep(y: System, side: Side, node: Node, x: Msg, id: u16)
    requires RendezvousOk(y, id) && ReadyOk(node, y.At(side.Other()).state, id)
    requires node.state.sent == y.At(side).state.sent + [x]
    ensures RendezvousOk(y.With(side, node), id)
  {
    LongerSent(y.At(side.Other()), y.At(side).state, node.state, x, id);
  }

  /** Nothing that counts for readiness changed, except that another kind of message was sent. */
  lemma SameCounts(node: Node, node': Node, other: State, id: u16)
    requires ReadyOk(node, other, id) && node'.handled == node.handled
    requires node'.state.notifiers == node.state.notifiers && node'.state.pendingReady == node.state.pendingReady
    requires Occurrences(node'.state.sent, Ready(id)) == Occurrences(node.state.sent, Ready(id))
    ensures ReadyOk(node', other, id)
  {
  }

  lemma RegisterReady(y: System, side: Side, x: u16, id: u16)
    requires RendezvousOk(y, id)
    ensures RendezvousOk(Step(y, DoRegister(side, x)), id)
  {
    var node := y.At(side);
    var node' := node.(state := Register(node.state, x).0);
    SameCounts(node, node', y.At(side.Other()).state, id);
    SilentStep(y, side, node', id);
    assert Step(y, DoRegister(side, x)) == y.With(side, node');
  }

  lemma SendRegisterReady(y: System, side: Side, r: nat, id: u16)
    requires RendezvousOk(y, id) && Possible(y, DoSendRegister(side, r))
    ensures RendezvousOk(Step(y, DoSendRegister(side, r)), id)
  {
    var node := y.At(side);
    var node' := node.(state := SendRegister(node.state, r));
    var x := RegisterEndpoint(node.state.registrations[r].id);
    OccurrencesNext(node.state.sent, x, Ready(id));
    SameCounts(node, node', y.At(side.Other()).state, id);
    SendingStep(y, side, node', x, id);
    assert Step(y, DoSendRegister(side, r)) == y.With(side, node');
  }

  lemma NotifierReady(y: System, side: Side, made: u16, id: u16)
    requires RendezvousOk(y, id)
    ensures RendezvousOk(Step(y, DoNotifier(side, made)), id)
  {
    var node := y.At(side);
    var node' := node.(state := NewNotifier(node.state, made).0);
    NotifierNode(node, y.At(side.Other()).state, made, id);
    NewNotifierSilent(node.state, made);
    SilentStep(y, side, node', id);
    assert Step(y, DoNotifier(side, made)) == y.With(side, node');
  }

  lemma NewNotifierSilent(s: State, made: u16)
    ensures NewNotifier(s, made).0.sent == s.sent
  {
  }

  lemma HandleReadySilent(s: State, id: u16)
    ensures HandleReady(s, id).0.sent == s.sent
  {
  }

  lemma CallReadyNode(node: Node, other: State, n: nat, id: u16)
    requires ReadyOk(node, other, id) && n < |node.state.notifiers| && !node.state.notifiers[n].called
    ensures ReadyOk(node.(state := CallReady(node.state, n)), other, id)
  {
    var s := node.state;
    var w := s.notifiers[n];
    OccurrencesNext(s.sent, Ready(w.id), Ready(id));
    CreatedUpdate(s.notifiers, n, w.(called := true), id);
  }

  lemma CallReadyReady(y: System, side: Side, n: nat, id: u16)
    requires RendezvousOk(y, id) && Possible(y, DoReady(side, n))
    ensures RendezvousOk(Step(y, DoReady(side, n)), id)
  {
    var node := y.At(side);
    var node' := node.(state := CallReady(node.state, n));
    CallReadyNode(node, y.At(side.Other()).state, n, id);
    SendingStep(y, side, node', Ready(node.state.notifiers[n].id), id);
    assert Step(y, DoReady(side, n)) == y.With(side, node');
  }

  lemma DropNotifierReady(y: System, side: Side, n: nat, id: u16)
    requires RendezvousOk(y, id) && Possible(y, DoDropNotifier(side, n))
    ensures RendezvousOk(Step(y, DoDropNotifier(side, n)), id)
  {
    var node := y.At(side);
    var node' := node.(state := DropNotifier(node.state, n));
    CreatedUpdate(node.state.notifiers, n, node.state.notifiers[n].(dropped := true), id);
    assert ReadyOk(node', y.At(side.Other()).state, id);
    SilentStep(y, side, node', id);
    assert Step(y, DoDropNotifier(side, n)) == y.With(side, node');
  }

  lemma DropRegistrationReady(y: System, side: Side, r: nat, id: u16)
    requires RendezvousOk(y, id) && Possible(y, DoDropRegistration(side, r))
    ensures RendezvousOk(Step(y, DoDropRegistration(side, r)), id)
  {
    var node := y.At(side);
    var node' := node.(state := DropRegistration(node.state, r));
    SameCounts(node, node', y.At(side.Other()).state, id);
    SilentStep(y, side, node', id);
    assert Step(y, DoDropRegistration(side, r)) == y.With(side, node');
  }

  lemma ReadyNode(node: Node, other: State, x: u16, id: u16)
    requires ReadyOk(node, other, id) && NotifiersOk(node.state)
    requires node.handled < |other.sent| && other.sent[node.handled] == Ready(x)
    requires x == id ==> Parked(node.state, id) == 0
    ensures ReadyOk(Node(HandleReady(node.state, x).0, node.handled + 1), other, id)
  {
    OccurrencesPrefix(other.sent, node.handled, Ready(id));
    var s := node.state;
    if x in s.pendingReady && s.pendingReady[x].AwaitingRemote? {
      var n := s.pendingReady[x].notifier;
      CreatedUpdate(s.notifiers, n, s.notifiers[n].(fired := true), id);
    }
  }

  /** A message of another kind was handled. */
  lemma OtherHandled(node: Node, other: State, id: u16)
    requires ReadyOk(node, other, id)
    requires node.handled < |other.sent| && !other.sent[node.handled].Ready?
    ensures ReadyOk(Node(node.state, node.handled + 1), other, id)
  {
    OccurrencesPrefix(other.sent, node.handled, Ready(id));
  }

  lemma DeliverReady(y: System, side: Side, id: u16)
    requires RendezvousOk(y, id) && NotifiersOk(y.At(side).state) && Possible(y, Deliver(side))
    ensures RendezvousOk(Step(y, Deliver(side)), id)
  {
    match y.At(side.Other()).state.sent[y.At(side).handled]
    case Ready(x) => DeliverReadiness(y, side, x, id);
    case EndpointRegistered(x) => DeliverAck(y, side, x, id);
    case RegisterEndpoint(x) => DeliverRegister(y, side, x, id);
  }

  lemma DeliverReadiness(y: System, side: Side, x: u16, id: u16)
    requires RendezvousOk(y, id) && NotifiersOk(y.At(side).state) && Possible(y, Deliver(side))
    requires y.At(side.Other()).state.sent[y.At(side).handled] == Ready(x)
    ensures RendezvousOk(y.With(side, Node(HandleReady(y.At(side).state, x).0, y.At(side).handled + 1)), id)
  {
    var me := y.At(side);
    if x == id {
      NeverParkedTwice(y, side, id);
    }
    ReadyNode(me, y.At(side.Other()).state, x, id);
    HandleReadySilent(me.state, x);
    SilentStep(y, side, Node(HandleReady(me.state, x).0, me.handled + 1), id);
  }

  lemma DeliverAck(y: System, side: Side, x: u16, id: u16)
    requires RendezvousOk(y, id) && Possible(y, Deliver(side))
    requires y.At(side.Other()).state.sent[y.At(side).handled] == EndpointRegistered(x)
    ensures RendezvousOk(y.With(side, Node(HandleAck(y.At(side).state, x).0, y.At(side).handled + 1)), id)
  {
    var me, other := y.At(side), y.At(side.Other());
    var me' := Node(HandleAck(me.state, x).0, me.handled + 1);
    OtherHandled(me, other.state, id);
    SameCounts(Node(me.state, me.handled + 1), me', other.state, id);
    SilentStep(y, side, me', id);
  }

  lemma DeliverRegister(y: System, side: Side, x: u16, id: u16)
    requires RendezvousOk(y, id) && Possible(y, Deliver(side))
    requires y.At(side.Other()).state.sent[y.At(side).handled] == RegisterEndpoint(x)
    ensures RendezvousOk(y.With(side, Node(HandleRegister(y.At(side).state, x).0, y.At(side).handled + 1)), id)
  {
    var me, other := y.At(side), y.At(side.Other());
    var me' := Node(HandleRegister(me.state, x).0, me.handled + 1);
    OtherHandled(me, other.state, id);
    OccurrencesNext(me.state.sent, EndpointRegistered(x), Ready(id));
    SameCounts(Node(me.state, me.handled + 1), me', other.state, id);
    if x in me.state.pendingConnect {
      SilentStep(y, side, me', id);
    } else {
      SendingStep(y, side, me', EndpointRegistered(x), id);
    }
  }

  lemma StepNotifiers(y: System, e: Event)
    requires NotifiersOk(y.server.state) && NotifiersOk(y.client.state) && Possible(y, e)
    ensures NotifiersOk(Step(y, e).server.state) && NotifiersOk(Step(y, e).client.state)
  {
    var s := y.At(e.side).state;
    match e
    case DoRegister(_, id) => SameNotifiers(s, Register(s, id).0);
    case DoSendRegister(_, r) => SameNotifiers(s, SendRegister(s, r));
    case DoNotifier(_, id) => NewNotifierNotifiers(s, id);
    case DoReady(_, n) => CallNotifiers(s, n);
    case DoDropNotifier(_, n) => DropNotifiers(s, n);
    case DoDropRegistration(_, r) => SameNotifiers(s, DropRegistration(s, r));
    case Deliver(side) => HandleNotifiers(s, y.At(side.Other()).state.sent[y.At(side).handled]);
  }

  lemma StepReady(y: System, e: Event, id: u16)
    requires NotifiersOk(y.At(e.side).state) && RendezvousOk(y, id) && Possible(y, e)
    ensures RendezvousOk(Step(y, e), id)
  {
    match e
    case DoRegister(side, x) => RegisterReady(y, side, x, id);
    case DoSendRegister(side, r) => SendRegisterReady(y, side, r, id);
    case DoNotifier(side, made) => NotifierReady(y, side, made, id);
    case DoReady(side, n) => CallReadyReady(y, side, n, id);
    case DoDropNotifier(side, n) => DropNotifierReady(y, side, n, id);
    case DoDropRegistration(side, r) => DropRegistrationReady(y, side, r, id);
    case Deliver(side) => DeliverReady(y, side, id);
  }

  lemma {:induction false} RunReady(events: seq<Event>, id: u16)
    ensures NotifiersOk(Run(events).server.state) && NotifiersOk(Run(events).client.state)
    ensures RendezvousOk(Run(events), id)
  {
    if events != [] {
      var before, e := events[..|events| - 1], events[|events| - 1];
      RunReady(before, id);
      var y := Run(before);
      if Possible(y, e) {
        StepNotifiers(y, e);
        StepReady(y, e, id);
      }
    }
  }

  /** How many notifiers for the same id were made before notifier `n`. */
  function Rank(s: State, n: nat): nat
    requires n < |s.notifiers|
  {
    Created(s.notifiers[..n], s.notifiers[n].id)
  }

  lemma {:induction false} CreatedPrefix(ns: seq<Notifier>, k: nat, id: u16)
    requires k <= |ns|
    ensures Created(ns[..k], id) <= Created(ns, id)
    ensures k < |ns| && ns[k].id == id ==> Created(ns[..k], id) < Created(ns, id)
    ensures (forall j | k <= j < |ns| :: ns[j].id != id) ==> Created(ns[..k], id) == Created(ns, id)
    decreases |ns| - k
  {
    if k < |ns| {
      assert ns[..k + 1] == ns[..k] + [ns[k]];
      CreatedNext(ns[..k], ns[k], id);
      CreatedPrefix(ns, k + 1, id);
    } else {
      assert ns[..k] == ns;
    }
  }

  /** A notifier is fired exactly when its rank is below the number of notifiers not waiting. */
  lemma FiredByRank(s: State, n: nat)
    requires NotifiersOk(s) && n < |s.notifiers|
    ensures s.notifiers[n].fired <==>
            Rank(s, n) + Waiting(s, s.notifiers[n].id) < Created(s.notifiers, s.notifiers[n].id)
  {
    var ns, id := s.notifiers, s.notifiers[n].id;
    CreatedPrefix(ns, n, id);
    if Waiting(s, id) == 1 {
      var w := s.pendingReady[id].notifier;
      LastCreated(ns, w);
      if n < w {
        assert ns[..w][..n] == ns[..n];
        CreatedPrefix(ns[..w], n, id);
      }
    }
  }

  lemma LastCreated(ns: seq<Notifier>, w: nat)
    requires w < |ns| && NoneAfter(ns, w)
    ensures Created(ns[..w], ns[w].id) + 1 == Created(ns, ns[w].id)
  {
    assert ns[..w + 1] == ns[..w] + [ns[w]];
    CreatedNext(ns[..w], ns[w], ns[w].id);
    CreatedPrefix(ns, w + 1, ns[w].id);
  }

  /** `ready` completes on one side only if the other side called `ready` for the same id, and at
      least as often as notifiers were made here up to this one. */
  lemma ReadyNeedsPeer(events: seq<Event>, side: Side, n: nat)
    requires n < |Run(events).At(side).state.notifiers|
    ensures var me, other := Run(events).At(side).state, Run(events).At(side.Other()).state;
            me.notifiers[n].fired ==> Rank(me, n) < Occurrences(other.sent, Ready(me.notifiers[n].id))
                                                  == Called(other.notifiers, me.notifiers[n].id)
  {
    var y := Run(events);
    var id := y.At(side).state.notifiers[n].id;
    RunReady(events, id);
    FiredByRank(y.At(side).state, n);
    OccurrencesPrefix(y.At(side.Other()).state.sent, y.At(side).handled, Ready(id));
  }

  /** No wakeup is lost: once every message was handled, a notifier is fired if and only if the
      other side called `ready` for the id often enough to match it. */
  lemma NoLostWakeup(events: seq<Event>, side: Side, n: nat)
    requires Drained(Run(events)) && n < |Run(events).At(side).state.notifiers|
    ensures var me, other := Run(events).At(side).state, Run(events).At(side.Other()).state;
            me.notifiers[n].fired <==> Rank(me, n) < Called(other.notifiers, me.notifiers[n].id)
  {
    var y := Run(events);
    var me, other := y.At(side), y.At(side.Other()).state;
    var id := me.state.notifiers[n].id;
    RunReady(events, id);
    FiredByRank(me.state, n);
    assert other.sent[..me.handled] == other.sent;
    if Waiting(me.state, id) == 0 {
      CreatedPrefix(me.state.notifiers, n, id);
    }
  }

  /** With one notifier for an id on each side, both calls of `ready` complete. */
  lemma OnePairMeets(events: seq<Event>, n: nat, k: nat)
    requires var y := Run(events);
             && Drained(y) && n < |y.server.state.notifiers| && k < |y.client.state.notifiers|
             && y.server.state.notifiers[n].id == y.client.state.notifiers[k].id
             && y.server.state.notifiers[n].called && y.client.state.notifiers[k].called
             && Created(y.server.state.notifiers, y.server.state.notifiers[n].id) == 1
             && Created(y.client.state.notifiers, y.server.state.notifiers[n].id) == 1
    ensures Run(events).server.state.notifiers[n].fired && Run(events).client.state.notifiers[k].fired
  {
    var y := Run(events);
    var id := y.server.state.notifiers[n].id;
    NoLostWakeup(events, Server, n);
    NoLostWakeup(events, Client, k);
    CreatedPrefix(y.server.state.notifiers, n, id);
    CreatedPrefix(y.client.state.notifiers, k, id);
    CalledSome(y.server.state.notifiers, n);
    CalledSome(y.client.state.notifiers, k);
  }

  lemma {:induction false} CalledSome(ns: seq<Notifier>, n: nat)
    requires n < |ns| && ns[n].called
    ensures Called(ns, ns[n].id) > 0
  {
    if n < |ns| - 1 {
      CalledSome(ns[..|ns| - 1], n);
    }
  }
}
