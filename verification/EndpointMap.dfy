/** The endpoint ids and pending channels of the local server (kycom/src/server.rs). */
module EndpointMap {
  import opened Wrappers
  import opened AvPacket

  const IDS: nat := 0x1_0000

  /** A connection names the endpoint it is for; `number` tells connections apart. */
  datatype Connection = Connection(id: u16, number: nat)

  datatype Outcome = Connected(connection: Connection) | Aborted

  /** A registered channel and everything ever sent to its waiter. */
  datatype Channel = Channel(id: u16, outcomes: seq<Outcome>)

  /** `pending` maps ids to channels by index, and is `None` once the listener has stopped. */
  datatype State = State(nextId: u16, pending: Option<map<u16, nat>>, channels: seq<Channel>)

  const START: State := State(0, Some(map[]), [])

  // ----- The first vacant id

  /** The id `d` places after `from`, around the end. */
  function Cyclic(from: u16, d: nat): u16 { (from + d) % IDS }

  ghost function Ids(n: nat): (s: set<u16>)
    requires n <= IDS
    ensures |s| == n && forall i: u16 :: i in s <==> i < n
  {
    if n == 0 then {} else Ids(n - 1) + {n - 1}
  }

  lemma SubsetCount<T>(a: set<T>, b: set<T>)
    requires a <= b
    ensures |a| <= |b|
  {
    assert b == a + (b - a);
  }

  /** If not all ids are taken, one is vacant within a full turn. */
  lemma VacantExists(taken: set<u16>, from: u16)
    requires |taken| < IDS
    ensures exists d | 0 <= d < IDS :: Cyclic(from, d) !in taken
  {
    if forall d | 0 <= d < IDS :: Cyclic(from, d) in taken {
      forall i: u16 ensures i in taken {
        var d := if i >= from then i - from else i + IDS - from;
        assert Cyclic(from, d) == i;
      }
      assert Ids(IDS) <= taken;
      SubsetCount(Ids(IDS), taken);
      assert false;
    }
  }

  /** How far the next vacant id is: the measure of the search. */
  ghost function Distance(taken: set<u16>, from: u16): (d: nat)
    requires |taken| < IDS
    ensures d < IDS && Cyclic(from, d) !in taken
    ensures forall e | 0 <= e < d :: Cyclic(from, e) in taken
  {
    VacantExists(taken, from);
    var d :| 0 <= d < IDS && Cyclic(from, d) !in taken;
    Least(taken, from, d)
  }

  ghost function Least(taken: set<u16>, from: u16, d: nat): (e: nat)
    requires Cyclic(from, d) !in taken
    ensures e <= d && Cyclic(from, e) !in taken
    ensures forall k | 0 <= k < e :: Cyclic(from, k) in taken
  {
    if k :| 0 <= k < d && Cyclic(from, k) !in taken then Least(taken, from, k) else d
  }

  lemma OneStepCloser(taken: set<u16>, from: u16)
    requires |taken| < IDS && from in taken
    ensures Distance(taken, Cyclic(from, 1)) == Distance(taken, from) - 1
  {
    var d, e := Distance(taken, from), Distance(taken, Cyclic(from, 1));
    assert Cyclic(from, 0) == from;
    Around(from, d - 1);
    if e < d - 1 {
      Around(from, e);
    }
  }

  lemma Around(from: u16, d: nat)
    ensures Cyclic(Cyclic(from, 1), d) == Cyclic(from, d + 1)
  {
  }

  ghost function FirstVacant(taken: set<u16>, from: u16): u16
    requires |taken| < IDS
  {
    Cyclic(from, Distance(taken, from))
  }

  lemma VacantHere(taken: set<u16>, from: u16)
    requires |taken| < IDS && from !in taken
    ensures FirstVacant(taken, from) == from
  {
    assert Cyclic(from, 0) == from;
  }

  /** One turn of the search loop: the first vacant id stays the same and comes one step closer. */
  lemma SearchStep(taken: set<u16>, id: u16)
    requires |taken| < IDS && id in taken
    ensures Distance(taken, Wrapping(id)) == Distance(taken, id) - 1
    ensures FirstVacant(taken, Wrapping(id)) == FirstVacant(taken, id)
  {
    WrappingIsNext(id);
    OneStepCloser(taken, id);
    Around(id, Distance(taken, Wrapping(id)));
  }

  function Wrapping(id: u16): u16 { if id + 1 < IDS then id + 1 else 0 }

  lemma WrappingIsNext(id: u16)
    ensures Wrapping(id) == Cyclic(id, 1)
  {
  }

  // ----- What each operation does

  /** `None` is the failed assertion that not all ids are taken. */
  ghost function Register(s: State): Option<(State, Result<u16, ()>)> {
    match s.pending
    case None => Some((s, Err(())))
    case Some(pending) =>
      if |pending.Keys| >= IDS then None
      else
        var id := FirstVacant(pending.Keys, s.nextId);
        Some((State(Cyclic(id, 1), Some(pending[id := |s.channels|]), s.channels + [Channel(id, [])]), Ok(id)))
  }

  function Send(channels: seq<Channel>, k: nat, o: Outcome): seq<Channel>
    requires k < |channels|
  {
    channels[k := channels[k].(outcomes := channels[k].outcomes + [o])]
  }

  function Accept(s: State, c: Connection): State {
    if s.pending.None? || c.id !in s.pending.value then s
    else
      var k := s.pending.value[c.id];
      s.(pending := Some(s.pending.value - {c.id}),
         channels := if k < |s.channels| then Send(s.channels, k, Connected(c)) else s.channels)
  }

  predicate IsPending(pending: map<u16, nat>, channels: seq<Channel>, k: nat)
    requires k < |channels|
  {
    channels[k].id in pending && pending[channels[k].id] == k
  }

  /** The guard's drop: the listener has failed. */
  function Stop(s: State): State {
    match s.pending
    case None => s
    case Some(pending) =>
      State(s.nextId, None,
            seq(|s.channels|, k requires 0 <= k < |s.channels| =>
              if IsPending(pending, s.channels, k) then s.channels[k].(outcomes := s.channels[k].outcomes + [Aborted])
              else s.channels[k]))
  }

  // ----- Every run

  datatype Event = DoRegister | DoAccept(connection: Connection) | DoStop

  /** A registration that fails its assertion ends the process; here it does nothing. */
  ghost function Step(s: State, e: Event): State {
    match e
    case DoRegister => var r := Register(s); if r.Some? then r.value.0 else s
    case DoAccept(c) => Accept(s, c)
    case DoStop => Stop(s)
  }

  ghost function Run(events: seq<Event>): State {
    if events == [] then START else Step(Run(events[..|events| - 1]), events[|events| - 1])
  }

  /** Pending channels are exactly those nothing was sent to; the others got one outcome. */
  ghost predicate StateOk(s: State) {
    && TableOk(s)
    && (forall k | 0 <= k < |s.channels| :: ChannelOk(s, k))
  }

  ghost predicate TableOk(s: State) {
    s.pending.Some? ==>
      forall id | id in s.pending.value ::
        s.pending.value[id] < |s.channels| && s.channels[s.pending.value[id]].id == id
  }

  ghost predicate ChannelOk(s: State, k: nat)
    requires k < |s.channels|
  {
    var c := s.channels[k];
    if s.pending.Some? && IsPending(s.pending.value, s.channels, k) then c.outcomes == []
    else |c.outcomes| == 1 && (c.outcomes[0].Connected? ==> c.outcomes[0].connection.id == c.id)
  }

  lemma RegisterOk(s: State)
    requires StateOk(s) && Register(s).Some?
    ensures StateOk(Register(s).value.0)
  {
    var s' := Register(s).value.0;
    forall k | 0 <= k < |s'.channels| ensures ChannelOk(s', k) {
      if k < |s.channels| {
        assert ChannelOk(s, k);
      }
    }
  }

  lemma AcceptOk(s: State, c: Connection)
    requires StateOk(s)
    ensures StateOk(Accept(s, c))
  {
    var s' := Accept(s, c);
    forall k | 0 <= k < |s'.channels| ensures ChannelOk(s', k) {
      assert ChannelOk(s, k);
    }
  }

  lemma StopOk(s: State)
    requires StateOk(s)
    ensures StateOk(Stop(s))
  {
    var s' := Stop(s);
    forall k | 0 <= k < |s'.channels| ensures ChannelOk(s', k) {
      assert ChannelOk(s, k);
    }
  }

  lemma {:induction false} RunOk(events: seq<Event>)
    ensures StateOk(Run(events))
  {
    if events != [] {
      var s := Run(events[..|events| - 1]);
      RunOk(events[..|events| - 1]);
      match events[|events| - 1]
      case DoRegister =>
        if Register(s).Some? {
          RegisterOk(s);
        }
      case DoAccept(c) => AcceptOk(s, c);
      case DoStop => StopOk(s);
    }
  }

  /** In every run each channel is resolved at most once, a connection only resolves the channel
      with its own id, and once the listener has stopped every channel is resolved. */
  lemma ResolvedOnce(events: seq<Event>, k: nat)
    requires k < |Run(events).channels|
    ensures var s := Run(events);
            var c := s.channels[k];
            && |c.outcomes| <= 1
            && (c.outcomes != [] && c.outcomes[0].Connected? ==> c.outcomes[0].connection.id == c.id)
            && (s.pending.None? ==> |c.outcomes| == 1)
  {
    RunOk(events);
    assert ChannelOk(Run(events), k);
  }

  /** No two channels wait under the same id. */
  lemma WaitingIdsDiffer(events: seq<Event>, j: nat, k: nat)
    requires j < |Run(events).channels| && k < |Run(events).channels|
    requires Run(events).channels[j].outcomes == [] == Run(events).channels[k].outcomes
    requires Run(events).channels[j].id == Run(events).channels[k].id
    ensures j == k
  {
    RunOk(events);
    assert ChannelOk(Run(events), j) && ChannelOk(Run(events), k);
  }

  /** A connection is given to the channel that waits under its id, if one does, and to no other;
      when the listener stops, exactly the waiting channels are told. */
  lemma GivenToItsChannel(events: seq<Event>, e: Event, k: nat)
    requires k < |Run(events).channels| && !e.DoRegister?
    ensures var s, s' := Run(events), Run(events + [e]);
            var c := s.channels[k];
            && |s'.channels| == |s.channels|
            && s'.channels[k].id == c.id
            && s'.channels[k].outcomes == c.outcomes +
               if c.outcomes != [] then [] else if e.DoStop? then [Aborted]
               else if e.connection.id == c.id then [Connected(e.connection)] else []
  {
    assert (events + [e])[..|events|] == events;
    RunOk(events);
    assert ChannelOk(Run(events), k);
  }

  // ----- An id is not given again before the search has gone round

  /** The search counts on and on, around the end; this is where it found the id of each channel. */
  ghost function Places(events: seq<Event>): seq<nat> {
    if events == [] then []
    else
      var before := events[..|events| - 1];
      var s, places := Run(before), Places(before);
      if events[|events| - 1].DoRegister? && CanRegister(s) then
        places + [NextPlace(places) + Distance(s.pending.value.Keys, s.nextId)]
      else places
  }

  predicate CanRegister(s: State) { s.pending.Some? && |s.pending.value.Keys| < IDS }

  function NextPlace(places: seq<nat>): nat { if places == [] then 0 else places[|places| - 1] + 1 }

  ghost predicate PlacesOk(places: seq<nat>, s: State) {
    && |places| == |s.channels| && s.nextId == NextPlace(places) % IDS
    && (forall k | 0 <= k < |places| :: s.channels[k].id == places[k] % IDS)
    && (forall j, k | 0 <= j < k < |places| :: places[j] < places[k])
  }

  lemma FoundAt(place: nat, from: u16, d: nat)
    requires from == place % IDS
    ensures Cyclic(from, d) == (place + d) % IDS && Cyclic(Cyclic(from, d), 1) == (place + d + 1) % IDS
  {
    Wraps(place, d);
    Wraps(place + d, 1);
  }

  lemma Wraps(a: nat, d: nat)
    ensures (a % IDS + d) % IDS == (a + d) % IDS
  {
    var q := a / IDS;
    assert a == IDS * q + a % IDS;
    Shifted(a % IDS + d, q);
  }

  lemma {:induction false} Shifted(x: nat, q: nat)
    ensures (IDS * q + x) % IDS == x % IDS
  {
    if q > 0 {
      Shifted(x, q - 1);
      assert IDS * q + x == (IDS * (q - 1) + x) + IDS;
    }
  }

  lemma RegisterPlaces(places: seq<nat>, s: State)
    requires PlacesOk(places, s) && CanRegister(s)
    ensures PlacesOk(places + [NextPlace(places) + Distance(s.pending.value.Keys, s.nextId)], Register(s).value.0)
  {
    var d := Distance(s.pending.value.Keys, s.nextId);
    FoundAt(NextPlace(places), s.nextId, d);
    OneMorePlace(places, s, Register(s).value.0, NextPlace(places) + d);
  }

  lemma OneMorePlace(places: seq<nat>, s: State, s': State, place: nat)
    requires PlacesOk(places, s) && NextPlace(places) <= place && s'.nextId == (place + 1) % IDS
    requires |s'.channels| == |s.channels| + 1 && s'.channels[..|s.channels|] == s.channels
    requires s'.channels[|s.channels|].id == place % IDS
    ensures PlacesOk(places + [place], s')
  {
    var more := places + [place];
    forall k | 0 <= k < |more| ensures s'.channels[k].id == more[k] % IDS {
      if k < |places| { assert s'.channels[k] == s'.channels[..|s.channels|][k]; }
    }
  }

  lemma {:induction false} RunPlaces(events: seq<Event>)
    ensures PlacesOk(Places(events), Run(events))
  {
    if events != [] {
      var before, e := events[..|events| - 1], events[|events| - 1];
      RunPlaces(before);
      if e.DoRegister? && CanRegister(Run(before)) {
        RegisterPlaces(Places(before), Run(before));
      } else {
        OthersKeepIds(Run(before), e);
        SamePlaces(Places(before), Run(before), Step(Run(before), e));
      }
    }
  }

  predicate SameIds(s: State, s': State) {
    && s'.nextId == s.nextId && |s'.channels| == |s.channels|
    && forall k | 0 <= k < |s.channels| :: s'.channels[k].id == s.channels[k].id
  }

  lemma OthersKeepIds(s: State, e: Event)
    requires !(e.DoRegister? && CanRegister(s))
    ensures SameIds(s, Step(s, e))
  {
  }

  lemma SamePlaces(places: seq<nat>, s: State, s': State)
    requires PlacesOk(places, s) && SameIds(s, s')
    ensures PlacesOk(places, s')
  {
  }

  lemma SameRemainder(a: nat, b: nat)
    requires a < b && a % IDS == b % IDS
    ensures a + IDS <= b
  {
    assert a == IDS * (a / IDS) + a % IDS && b == IDS * (b / IDS) + b % IDS;
  }

  /** In every run, whatever was resolved in between: an id is only given again after the search has
      passed all 65536 ids. */
  lemma GoesRoundFirst(events: seq<Event>, j: nat, k: nat)
    requires j < k < |Run(events).channels| && Run(events).channels[j].id == Run(events).channels[k].id
    ensures |Places(events)| == |Run(events).channels| && Places(events)[j] + IDS <= Places(events)[k]
  {
    RunPlaces(events);
    SameRemainder(Places(events)[j], Places(events)[k]);
  }

  // ----- The same in place

  class KyCom {
    var nextId: u16
    var pending: Option<map<u16, nat>>
    var channels: seq<Channel>

    ghost function View(): State
      reads this
    {
      State(nextId, pending, channels)
    }

    constructor ()
      ensures View() == START
    {
      nextId, pending, channels := 0, Some(map[]), [];
    }

    /** The asserted bound on the number of ids taken is required. */
    method RegisterChannel() returns (r: Result<u16, ()>)
      requires pending.Some? ==> |pending.value.Keys| < IDS
      modifies this
      ensures Register(old(View())) == Some((View(), r))
    {
      if pending.None? {
        return Err(());
      }
      var id := NextVacant(pending.value);
      pending := Some(pending.value[id := |channels|]);
      channels := channels + [Channel(id, [])];
      return Ok(id);
    }

    /** The wrapping search loop: it stops, at the first vacant id from `nextId` on. */
    method NextVacant(taken: map<u16, nat>) returns (id: u16)
      requires |taken.Keys| < IDS
      modifies this`nextId
      ensures id == FirstVacant(taken.Keys, old(nextId))
      ensures nextId == Cyclic(id, 1)
    {
      id := nextId;
      nextId := Wrapping(nextId);
      while id in taken
        invariant nextId == Wrapping(id)
        invariant FirstVacant(taken.Keys, id) == FirstVacant(taken.Keys, old(nextId))
        decreases Distance(taken.Keys, id)
      {
        SearchStep(taken.Keys, id);
        id := nextId;
        nextId := Wrapping(nextId);
      }
      VacantHere(taken.Keys, id);
      WrappingIsNext(id);
    }

    method HandleConnection(c: Connection)
      requires StateOk(View())
      modifies this
      ensures View() == Accept(old(View()), c)
    {
      if pending.Some? && c.id in pending.value {
        var k := pending.value[c.id];
        pending := Some(pending.value - {c.id});
        channels := channels[k := channels[k].(outcomes := channels[k].outcomes + [Connected(c)])];
      }
    }

    /** Takes the map and tells its waiters, in whatever order the map is walked. */
    method DropGuard()
      requires StateOk(View()) && pending.Some?
      modifies this
      ensures View() == Stop(old(View()))
    {
      var taken := pending.value;
      pending := None;
      var left := taken.Keys;
      while left != {}
        invariant left <= taken.Keys && nextId == old(nextId) && pending.None? && |channels| == old(|channels|)
        invariant forall k | 0 <= k < |channels| ::
                    channels[k] == if IsPending(taken, old(channels), k) && old(channels)[k].id !in left
                                   then old(channels)[k].(outcomes := old(channels)[k].outcomes + [Aborted])
                                   else old(channels)[k]
        decreases |left|
      {
        var id :| id in left;
        var k := taken[id];
        channels := channels[k := channels[k].(outcomes := channels[k].outcomes + [Aborted])];
        left := left - {id};
      }
    }
  }
}
