/** What admission at the budget does: it retires the shortest stale prefix of the pending
    media that makes room, and a stall of stale media can always be recovered from. */
module VideoAdmission {
  import opened Wrappers
  import opened SortedVec
  import opened Fec
  import opened VideoGroup
  import opened VideoPending
  import opened VideoInvariant

  // ----- The reference: give up every media object numbered `t` or lower

  function GroupAbove(g: Group, t: nat): Group {
    g.(datagrams := KeepAbove(g.datagrams, t), segments := KeepAbove(g.segments, t))
  }

  /** Emptied by the retirement and not held by a config. */
  predicate Vacated(g: Group, t: nat) {
    g.config.NoConfig? && Holds(g) && !Holds(GroupAbove(g, t))
  }

  function RetireThrough(groups: seq<Entry<Group>>, t: nat): seq<Entry<Group>> {
    if groups == [] then []
    else if Vacated(groups[0].value, t) then RetireThrough(groups[1..], t)
    else [Entry(groups[0].key, GroupAbove(groups[0].value, t))] + RetireThrough(groups[1..], t)
  }

  predicate SegmentsStale(s: Segments, now: nat) { s.created + MAX_BUFFERING <= now }

  predicate DatagramStale(d: Datagram, now: nat) { d.instant + MAX_BUFFERING <= now }

  /** The group's media numbered `t` or lower has waited out the reorder window. */
  ghost predicate GroupStale(g: Group, t: nat, now: nat) {
    && (forall e | e in g.segments && e.key <= t :: SegmentsStale(e.value, now))
    && (forall e | e in g.datagrams && e.key <= t :: DatagramStale(e.value, now))
  }

  ghost predicate StaleThrough(groups: seq<Entry<Group>>, t: nat, now: nat) {
    forall i | 0 <= i < |groups| :: GroupStale(groups[i].value, t, now)
  }

  predicate HasRoom(groups: seq<Entry<Group>>, additional: nat) {
    Sum(groups, Objects) < MAX_PENDING_OBJECTS && Sum(groups, Charge) + additional <= VIDEO_BUDGET
  }

  // ----- Algebra of the reference

  lemma GroupAboveTwice(g: Group, s: nat, t: nat)
    requires s <= t
    ensures GroupAbove(GroupAbove(g, s), t) == GroupAbove(g, t)
  {
    KeepAboveTwice(g.datagrams, s, t);
    KeepAboveTwice(g.segments, s, t);
  }

  lemma {:induction false} RetireThroughTwice(groups: seq<Entry<Group>>, s: nat, t: nat)
    requires s <= t
    ensures RetireThrough(RetireThrough(groups, s), t) == RetireThrough(groups, t)
  {
    if groups != [] {
      var g := groups[0].value;
      RetireThroughTwice(groups[1..], s, t);
      GroupAboveTwice(g, s, t);
      if Vacated(g, s) {
        assert KeepAbove(GroupAbove(g, s).datagrams, t) == [];
        assert KeepAbove(GroupAbove(g, s).segments, t) == [];
      } else {
        var once := RetireThrough(groups, s);
        assert once[0] == Entry(groups[0].key, GroupAbove(g, s)) && once[1..] == RetireThrough(groups[1..], s);
      }
    }
  }

  lemma GroupAboveAll(g: Group, t: nat)
    requires forall k | k in MediaKeys(g) :: t < k
    ensures GroupAbove(g, t) == g
  {
    assert Keys(g.datagrams) <= MediaKeys(g) && Keys(g.segments) <= MediaKeys(g);
    forall k | k in Keys(g.datagrams) ensures t < k { assert k in MediaKeys(g); }
    forall k | k in Keys(g.segments) ensures t < k { assert k in MediaKeys(g); }
    KeepAboveAll(g.datagrams, t);
    KeepAboveAll(g.segments, t);
  }

  lemma {:induction false} RetireNothing(groups: seq<Entry<Group>>, t: nat)
    requires Beyond(groups, Some(t))
    ensures RetireThrough(groups, t) == groups
  {
    if groups != [] {
      GroupAboveAll(groups[0].value, t);
      assert forall i | 0 <= i < |groups[1..]| :: groups[1..][i] == groups[i + 1];
      RetireNothing(groups[1..], t);
      assert groups == [groups[0]] + groups[1..];
    }
  }

  lemma {:induction false} RetireThroughConcat(a: seq<Entry<Group>>, b: seq<Entry<Group>>, t: nat)
    ensures RetireThrough(a + b, t) == RetireThrough(a, t) + RetireThrough(b, t)
  {
    if a == [] {
      assert a + b == b;
    } else {
      assert (a + b)[1..] == a[1..] + b;
      RetireThroughConcat(a[1..], b, t);
    }
  }

  // ----- One retirement is one step of the reference

  lemma PopFrontIsAbove(g: Group, isDatagram: bool, front: nat)
    requires GroupOk(g)
    requires if isDatagram then g.datagrams != [] && front == g.datagrams[0].key
             else g.segments != [] && front == g.segments[0].key
    requires forall k | k in MediaKeys(g) :: front <= k
    ensures PopFront(g, isDatagram).0 == GroupAbove(g, front)
  {
    if isDatagram {
      assert Keys(g.datagrams) + Keys(g.segments) == MediaKeys(g);
      OthersAbove(g.datagrams, g.segments);
    } else {
      assert Keys(g.segments) + Keys(g.datagrams) == MediaKeys(g);
      OthersAbove(g.segments, g.datagrams);
    }
  }

  lemma OthersAbove<S, T>(xs: seq<Entry<S>>, ys: seq<Entry<T>>)
    requires Sorted(xs) && xs != [] && Keys(xs) !! Keys(ys)
    requires forall k | k in Keys(xs) + Keys(ys) :: xs[0].key <= k
    ensures KeepAbove(xs, xs[0].key) == xs[1..] && KeepAbove(ys, xs[0].key) == ys
  {
    KeepAboveFront(xs);
    FrontKey(xs);
    forall k | k in Keys(ys) ensures xs[0].key < k {
      assert k in Keys(xs) + Keys(ys);
    }
    KeepAboveAll(ys, xs[0].key);
  }

  lemma RetireOneGroup(groups: seq<Entry<Group>>, i: nat, t: nat)
    requires i < |groups|
    requires forall j, k | 0 <= j < |groups| && j != i && k in MediaKeys(groups[j].value) :: t < k
    ensures RetireThrough(groups, t) == groups[..i] + RetireThrough([groups[i]], t) + groups[i + 1..]
  {
    var before, after := groups[..i], groups[i + 1..];
    assert groups == before + [groups[i]] + after;
    RetireThroughConcat(before + [groups[i]], after, t);
    RetireThroughConcat(before, [groups[i]], t);
    AfterBeyond(groups, i, t);
    RetireNothing(before, t);
    RetireNothing(after, t);
  }

  lemma AfterBeyond(groups: seq<Entry<Group>>, i: nat, t: nat)
    requires i < |groups|
    requires forall j, k | 0 <= j < |groups| && j != i && k in MediaKeys(groups[j].value) :: t < k
    ensures Beyond(groups[..i], Some(t)) && Beyond(groups[i + 1..], Some(t))
  {
    var after := groups[i + 1..];
    forall j, k | 0 <= j < |after| && k in MediaKeys(after[j].value) ensures t < k {
      assert after[j] == groups[i + 1 + j];
    }
  }

  lemma RetireSingle(e: Entry<Group>, t: nat)
    ensures RetireThrough([e], t) == if Vacated(e.value, t) then [] else [Entry(e.key, GroupAbove(e.value, t))]
  {
    assert [e][1..] == [];
  }

  lemma RetireOldestIsThrough(p: Pending, now: nat)
    requires PendingInv(p) && RetireOldest(p, now).Some?
    ensures var place := Oldest(p.groups).value;
            RetireOldest(p, now).value.groups == RetireThrough(p.groups, place.sn)
  {
    var place := Oldest(p.groups).value;
    OldestIsFront(p.groups);
    OldestIsLowest(p.groups);
    var e := p.groups[place.index];
    assert Lowest(Some(place), e.value);
    PopFrontIsAbove(e.value, place.isDatagram, place.sn);
    OthersBeyond(p, place);
    RetireOneGroup(p.groups, place.index, place.sn);
    RetireAtIsThrough(p, place);
  }

  lemma RetireAtIsThrough(p: Pending, place: Place)
    requires IsFront(p.groups, place)
    requires var e := p.groups[place.index].value; PopFront(e, place.isDatagram).0 == GroupAbove(e, place.sn)
    ensures RetireAt(p, place).groups ==
            p.groups[..place.index] + RetireThrough([p.groups[place.index]], place.sn) + p.groups[place.index + 1..]
  {
    var e := p.groups[place.index];
    RetireSingle(e, place.sn);
    var g := GroupAbove(e.value, place.sn);
    assert Holds(e.value);
    if Vacated(e.value, place.sn) {
      assert RetireAt(p, place).groups == RemoveAt(p.groups, place.index);
    } else {
      assert p.groups[place.index := Entry(e.key, g)] ==
             p.groups[..place.index] + [Entry(e.key, g)] + p.groups[place.index + 1..];
    }
  }

  lemma OthersBeyond(p: Pending, place: Place)
    requires Shape(p.groups) && IsFront(p.groups, place)
    requires forall j | 0 <= j < |p.groups| :: Lowest(Some(place), p.groups[j].value)
    ensures forall j, k | 0 <= j < |p.groups| && j != place.index && k in MediaKeys(p.groups[j].value) :: place.sn < k
  {
    var home := p.groups[place.index].value;
    assert place.sn in MediaKeys(home) by {
      if place.isDatagram { FrontKey(home.datagrams); } else { FrontKey(home.segments); }
    }
    forall j, k | 0 <= j < |p.groups| && j != place.index && k in MediaKeys(p.groups[j].value)
      ensures place.sn < k
    {
      assert Lowest(Some(place), p.groups[j].value);
      assert k !in MediaKeys(home) by {
        if j < place.index { assert MediaKeys(p.groups[j].value) !! MediaKeys(home); }
      }
    }
  }

  // ----- Staleness along a retirement

  lemma OldestStale(p: Pending, now: nat)
    requires PendingInv(p) && Oldest(p.groups).Some?
    ensures var place := Oldest(p.groups).value;
            StaleThrough(p.groups, place.sn, now) <==> place.instant + MAX_BUFFERING <= now
  {
    var place := Oldest(p.groups).value;
    OldestIsFront(p.groups);
    OldestIsLowest(p.groups);
    var g := p.groups[place.index].value;
    if StaleThrough(p.groups, place.sn, now) {
      if place.isDatagram { assert g.datagrams[0] in g.datagrams; } else { assert g.segments[0] in g.segments; }
    }
    if place.instant + MAX_BUFFERING <= now {
      forall i | 0 <= i < |p.groups|
        ensures forall e | e in p.groups[i].value.segments && e.key <= place.sn :: SegmentsStale(e.value, now)
        ensures forall e | e in p.groups[i].value.datagrams && e.key <= place.sn :: DatagramStale(e.value, now)
      {
        OnlyThePlace(p, place, i);
      }
    }
  }

  /** Nothing but the oldest object itself is numbered as low as it. */
  lemma OnlyThePlace(p: Pending, place: Place, i: nat)
    requires Shape(p.groups) && i < |p.groups| && IsFront(p.groups, place)
    requires forall j | 0 <= j < |p.groups| :: Lowest(Some(place), p.groups[j].value)
    ensures forall e | e in p.groups[i].value.segments && e.key <= place.sn ::
              i == place.index && !place.isDatagram && e == p.groups[i].value.segments[0]
    ensures forall e | e in p.groups[i].value.datagrams && e.key <= place.sn ::
              i == place.index && place.isDatagram && e == p.groups[i].value.datagrams[0]
  {
    var home := p.groups[place.index].value;
    var g := p.groups[i].value;
    OthersBeyond(p, place);
    assert Lowest(Some(place), g);
    forall e | e in g.segments && e.key <= place.sn
      ensures i == place.index && !place.isDatagram && e == g.segments[0]
    {
      assert e.key in Keys(g.segments);
      assert e.key in MediaKeys(g);
      if place.isDatagram { FrontKey(home.datagrams); }
      OneEntry(g.segments, e);
    }
    forall e | e in g.datagrams && e.key <= place.sn
      ensures i == place.index && place.isDatagram && e == g.datagrams[0]
    {
      assert e.key in Keys(g.datagrams);
      assert e.key in MediaKeys(g);
      if !place.isDatagram { FrontKey(home.segments); }
      OneEntry(g.datagrams, e);
    }
  }

  lemma OneEntry<T>(xs: seq<Entry<T>>, e: Entry<T>)
    requires Sorted(xs) && e in xs
    ensures e.key <= xs[0].key ==> e == xs[0]
  {
    var i :| 0 <= i < |xs| && xs[i] == e;
  }

  lemma {:induction false} StaleAfter(groups: seq<Entry<Group>>, s: nat, t: nat, now: nat)
    requires StaleThrough(groups, s, now)
    ensures StaleThrough(RetireThrough(groups, s), t, now) <==> StaleThrough(groups, t, now)
  {
    if groups != [] {
      var e, rest := groups[0], groups[1..];
      assert groups == [e] + rest;
      StaleCons(e, rest, s, now);
      StaleCons(e, rest, t, now);
      StaleAfter(rest, s, t, now);
      GroupStaleAfter(e.value, s, t, now);
      StaleCons(Entry(e.key, GroupAbove(e.value, s)), RetireThrough(rest, s), t, now);
    }
  }

  lemma GroupStaleAfter(g: Group, s: nat, t: nat, now: nat)
    requires GroupStale(g, s, now)
    ensures GroupStale(GroupAbove(g, s), t, now) <==> GroupStale(g, t, now)
    ensures !Holds(GroupAbove(g, s)) ==> GroupStale(GroupAbove(g, s), t, now)
  {
    KeepAboveKeys(g.datagrams, s);
    KeepAboveKeys(g.segments, s);
  }

  lemma StaleCons(e: Entry<Group>, groups: seq<Entry<Group>>, t: nat, now: nat)
    ensures StaleThrough([e] + groups, t, now) <==> GroupStale(e.value, t, now) && StaleThrough(groups, t, now)
  {
    var all := [e] + groups;
    assert all[0] == e;
    if StaleThrough(all, t, now) {
      assert forall i | 0 <= i < |groups| :: groups[i] == all[i + 1];
    }
  }

  // ----- What admission retires

  /** Media was retired up to and including the new frontier: all of it stale, and no
      shorter prefix in packet order would have made room. */
  ghost predicate ShortestPrefix(p: Pending, q: Pending, additional: nat, now: nat) {
    && q.retiredThrough.Some?
    && var t := q.retiredThrough.value;
       && q.groups == RetireThrough(p.groups, t)
       && StaleThrough(p.groups, t, now)
       && !HasRoom(p.groups, additional)
       && (forall u | 0 <= u < t :: !HasRoom(RetireThrough(p.groups, u), additional))
  }

  /** No stale prefix of `before` holds anything that is still in `after`. */
  ghost predicate NoStaleLeft(before: seq<Entry<Group>>, after: seq<Entry<Group>>, now: nat) {
    forall t | StaleThrough(before, t, now) :: RetireThrough(after, t) == after
  }

  lemma BeyondLower(p: Pending, u: nat)
    requires PendingInv(p) && Oldest(p.groups).Some? && u < Oldest(p.groups).value.sn
    ensures RetireThrough(p.groups, u) == p.groups
  {
    OldestIsLowest(p.groups);
    forall i, k | 0 <= i < |p.groups| && k in MediaKeys(p.groups[i].value) ensures u < k {
      assert Lowest(Oldest(p.groups), p.groups[i].value);
    }
    RetireNothing(p.groups, u);
  }

  lemma StaleLess(groups: seq<Entry<Group>>, s: nat, t: nat, now: nat)
    requires s <= t && StaleThrough(groups, t, now)
    ensures StaleThrough(groups, s, now)
  {}

  lemma NothingRetired(p: Pending, now: nat)
    requires PendingInv(p) && RetireOldest(p, now).None?
    ensures NoStaleLeft(p.groups, p.groups, now)
  {
    forall t | StaleThrough(p.groups, t, now) ensures RetireThrough(p.groups, t) == p.groups {
      if Oldest(p.groups).None? {
        OldestIsLowest(p.groups);
        assert forall i | 0 <= i < |p.groups| :: Lowest(None, p.groups[i].value);
        RetireNothing(p.groups, t);
      } else {
        var place := Oldest(p.groups).value;
        OldestStale(p, now);
        if place.sn <= t {
          StaleLess(p.groups, place.sn, t, now);
        }
        BeyondLower(p, t);
      }
    }
  }

  lemma StepPrefix(p: Pending, p1: Pending, q: Pending, additional: nat, now: nat)
    requires PendingInv(p) && RetireOldest(p, now) == Some(p1)
    requires !HasRoom(p.groups, additional)
    requires q == p1 || (ShortestPrefix(p1, q, additional, now) && p1.retiredThrough.value <= q.retiredThrough.value)
    ensures ShortestPrefix(p, q, additional, now)
  {
    var s := Oldest(p.groups).value.sn;
    var t := q.retiredThrough.value;
    RetireOldestInv(p, now);
    RetireOldestIsThrough(p, now);
    OldestStale(p, now);
    if q != p1 {
      RetireThroughTwice(p.groups, s, t);
      StaleAfter(p.groups, s, t, now);
    }
    forall u | 0 <= u < t ensures !HasRoom(RetireThrough(p.groups, u), additional) {
      if u < s {
        BeyondLower(p, u);
      } else {
        RetireThroughTwice(p.groups, s, u);
      }
    }
  }

  lemma StepNoStale(p: Pending, p1: Pending, q: Pending, now: nat)
    requires PendingInv(p) && RetireOldest(p, now) == Some(p1)
    requires NoStaleLeft(p1.groups, q.groups, now)
    ensures NoStaleLeft(p.groups, q.groups, now)
  {
    var s := Oldest(p.groups).value.sn;
    RetireOldestIsThrough(p, now);
    OldestStale(p, now);
    forall t | StaleThrough(p.groups, t, now) ensures RetireThrough(q.groups, t) == q.groups {
      StaleAfter(p.groups, s, t, now);
    }
  }

  /** Admission retires nothing, or exactly the shortest prefix of the pending media, in packet
      order across all groups, that makes room; when no stale prefix makes room it retires the
      longest stale one and fails. */
  lemma {:induction false} AdmitRetires(p: Pending, additional: nat, now: nat)
    requires PendingInv(p)
    ensures var (q, r) := Admit(p, additional, now);
            && (q == p || ShortestPrefix(p, q, additional, now))
            && (r.Ok? <==> HasRoom(q.groups, additional))
            && (r.Err? ==> NoStaleLeft(p.groups, q.groups, now))
    decreases Sum(p.groups, MediaCount)
  {
    if CheckCapacity(p, additional).Err? {
      match RetireOldest(p, now)
      case None => NothingRetired(p, now);
      case Some(p1) =>
        RetireOldestInv(p, now);
        RetireShrinks(p, now);
        AdmitRetires(p1, additional, now);
        AdmitInv(p1, additional, now);
        var (q, r) := Admit(p1, additional, now);
        StepPrefix(p, p1, q, additional, now);
        if r.Err? { StepNoStale(p, p1, q, now); }
    }
  }

  /** Admission succeeds exactly when there is room, or some stale prefix makes it. */
  lemma AdmitSucceedsIff(p: Pending, additional: nat, now: nat)
    requires PendingInv(p)
    ensures Admit(p, additional, now).1.Ok? <==>
            || HasRoom(p.groups, additional)
            || exists t :: StaleThrough(p.groups, t, now) && HasRoom(RetireThrough(p.groups, t), additional)
  {
    AdmitRetires(p, additional, now);
    var (q, r) := Admit(p, additional, now);
    if r.Err? {
      forall t | StaleThrough(p.groups, t, now) ensures !HasRoom(RetireThrough(p.groups, t), additional) {
        assert RetireThrough(q.groups, t) == q.groups;
        if q != p && q.retiredThrough.value <= t {
          RetireThroughTwice(p.groups, q.retiredThrough.value, t);
        }
      }
    }
  }

  // ----- Configs are never retired

  /** The configs held, with their groups, in order. */
  function Configs(groups: seq<Entry<Group>>): seq<(nat, Config)> {
    if groups == [] then []
    else if groups[0].value.config.NoConfig? then Configs(groups[1..])
    else [(groups[0].key, groups[0].value.config)] + Configs(groups[1..])
  }

  lemma {:induction false} RetireKeepsConfigs(groups: seq<Entry<Group>>, t: nat)
    ensures Configs(RetireThrough(groups, t)) == Configs(groups)
  {
    if groups != [] {
      RetireKeepsConfigs(groups[1..], t);
      if !Vacated(groups[0].value, t) {
        var all := RetireThrough(groups, t);
        assert all[0].value.config == groups[0].value.config && all[1..] == RetireThrough(groups[1..], t);
      }
    }
  }

  lemma AdmitKeepsConfigs(p: Pending, additional: nat, now: nat)
    requires PendingInv(p)
    ensures Configs(Admit(p, additional, now).0.groups) == Configs(p.groups)
  {
    AdmitRetires(p, additional, now);
    var q := Admit(p, additional, now).0;
    if q != p {
      RetireKeepsConfigs(p.groups, q.retiredThrough.value);
    }
  }

  // ----- Recovery from a stall

  ghost predicate AllStale(groups: seq<Entry<Group>>, now: nat) {
    forall t: nat :: StaleThrough(groups, t, now)
  }

  lemma {:induction false} RetireThroughLength(groups: seq<Entry<Group>>, t: nat)
    ensures |RetireThrough(groups, t)| <= |groups|
  {
    if groups != [] {
      RetireThroughLength(groups[1..], t);
    }
  }

  lemma {:induction false} RetireFixpoint(groups: seq<Entry<Group>>, t: nat)
    requires RetireThrough(groups, t) == groups
    ensures Beyond(groups, Some(t))
  {
    if groups != [] {
      RetireThroughLength(groups[1..], t);
      var g := groups[0].value;
      var tail := RetireThrough(groups[1..], t);
      assert groups == [Entry(groups[0].key, GroupAbove(g, t))] + tail;
      assert groups[1..] == tail && GroupAbove(g, t) == g;
      RetireFixpoint(groups[1..], t);
      KeepAboveKeys(g.datagrams, t);
      KeepAboveKeys(g.segments, t);
      forall i, k | 0 <= i < |groups| && k in MediaKeys(groups[i].value) ensures t < k {
        if i > 0 { assert groups[i] == groups[1..][i - 1]; }
      }
    }
  }

  lemma HeldKey(g: Group) returns (k: nat)
    requires Holds(g)
    ensures k in MediaKeys(g)
  {
    if g.datagrams != [] {
      assert g.datagrams[0] in g.datagrams;
      k := g.datagrams[0].key;
    } else {
      assert g.segments[0] in g.segments;
      k := g.segments[0].key;
    }
  }

  /** Configs alone never fill the budget beyond their own small share. */
  lemma ConfigsLeaveRoom(groups: seq<Entry<Group>>, additional: nat)
    requires |groups| <= MAX_PENDING_GROUPS
    requires forall i | 0 <= i < |groups| :: ConfigOk(groups[i].value.config) && !Holds(groups[i].value)
    requires additional + MAX_PENDING_GROUPS * MAX_CONFIG_PAYLOAD <= VIDEO_BUDGET
    ensures HasRoom(groups, additional)
  {
    SumAtMost(groups, Objects, 1);
    SumAtMost(groups, Charge, MAX_CONFIG_PAYLOAD);
    assert |groups| * MAX_CONFIG_PAYLOAD <= MAX_PENDING_GROUPS * MAX_CONFIG_PAYLOAD;
  }

  lemma AllStaleAdmits(p: Pending, additional: nat, now: nat)
    requires PendingInv(p) && AllStale(p.groups, now)
    requires additional + MAX_PENDING_GROUPS * MAX_CONFIG_PAYLOAD <= VIDEO_BUDGET
    ensures Admit(p, additional, now).1.Ok?
  {
    AdmitRetires(p, additional, now);
    AdmitInv(p, additional, now);
    var (q, r) := Admit(p, additional, now);
    if r.Err? {
      forall i | 0 <= i < |q.groups| ensures !Holds(q.groups[i].value) {
        if Holds(q.groups[i].value) {
          var k := HeldKey(q.groups[i].value);
          RetireFixpoint(q.groups, k);
          assert false;
        }
      }
      ConfigsLeaveRoom(q.groups, additional);
    }
  }

  /** Whatever is pending, once all of its media is stale any valid video object is admitted,
      even beside a full set of the largest configs. */
  lemma StallRecovery(p: Pending, oti: Oti, now: nat)
    requires PendingInv(p) && AllStale(p.groups, now)
    requires ValidOti(oti, MAX_VIDEO_PAYLOAD)
    ensures Admit(p, Reservation(oti), now).1.Ok?
  {
    ReservationLeavesRoomForConfigs(oti);
    AllStaleAdmits(p, Reservation(oti), now);
  }

  /** Likewise every config record the reliable stream can deliver. */
  lemma StallRecoveryConfig(p: Pending, size: nat, now: nat)
    requires PendingInv(p) && AllStale(p.groups, now)
    requires size <= MAX_CONFIG_PAYLOAD
    ensures Admit(p, size, now).1.Ok?
  {
    AllStaleAdmits(p, size, now);
  }
}
