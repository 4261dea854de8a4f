/** The receive buffer as the source keeps it: a vector of groups changed in place, the
    retirement frontier and the accounting held for the next report. */
module VideoBuffer {
  import opened Wrappers
  import opened SortedVec
  import opened AvPacket
  import opened Fec
  import opened VideoGroup
  import opened VideoPending

  lemma SumNext<T>(xs: seq<T>, i: nat, f: T -> nat)
    requires i < |xs|
    ensures Sum(xs[..i + 1], f) == Sum(xs[..i], f) + f(xs[i])
  {
    assert xs[..i + 1] == xs[..i] + [xs[i]];
    SumConcat(xs[..i], [xs[i]], f);
    SumOne(xs[i], f);
  }

  lemma {:induction false} TotalNext<T>(xs: seq<T>, x: T, f: T -> FecStats)
    ensures Total(xs + [x], f) == Total(xs, f).Add(f(x))
  {
    if xs == [] {
      assert [x][1..] == [] && xs + [x] == [x];
    } else {
      assert (xs + [x])[1..] == xs[1..] + [x];
      TotalNext(xs[1..], x, f);
    }
  }

  lemma TotalUpTo<T>(xs: seq<T>, i: nat, f: T -> FecStats)
    requires i < |xs|
    ensures Total(xs[..i + 1], f) == Total(xs[..i], f).Add(f(xs[i]))
  {
    assert xs[..i + 1] == xs[..i] + [xs[i]];
    TotalNext(xs[..i], xs[i], f);
  }

  method Accumulate<T>(xs: seq<T>, f: T -> FecStats, start: FecStats) returns (stats: FecStats)
    ensures stats == start.Add(Total(xs, f))
  {
    stats := start;
    for i := 0 to |xs|
      invariant stats == start.Add(Total(xs[..i], f))
    {
      TotalUpTo(xs, i, f);
      stats := stats.Add(f(xs[i]));
    }
    assert xs[..|xs|] == xs;
  }

  lemma {:induction false} MinDatagramNext(ds: seq<Entry<Datagram>>, e: Entry<Datagram>, acc: Option<nat>)
    ensures MinDatagram(ds + [e], acc) == MinOf(MinDatagram(ds, acc), e.value.instant)
  {
    if ds == [] {
      assert ds + [e] == [e];
    } else {
      assert (ds + [e])[1..] == ds[1..] + [e];
      MinDatagramNext(ds[1..], e, MinOf(acc, ds[0].value.instant));
    }
  }

  lemma {:induction false} MinInstantNext(groups: seq<Entry<Group>>, e: Entry<Group>, acc: Option<nat>)
    ensures MinInstantFrom(groups + [e], acc) == MinDatagram(e.value.datagrams, MinInstantFrom(groups, acc))
  {
    if groups == [] {
      assert groups + [e] == [e] && [e][1..] == [];
    } else {
      assert (groups + [e])[1..] == groups[1..] + [e];
      MinInstantNext(groups[1..], e, MinDatagram(groups[0].value.datagrams, acc));
    }
  }

  class PendingGroups {
    var groups: seq<Entry<Group>>
    var retiredThrough: Option<nat>
    var retired: FecStats

    ghost function View(): Pending
      reads this
    {
      Pending(groups, retiredThrough, retired)
    }

    constructor ()
      ensures View() == EMPTY
    {
      groups, retiredThrough, retired := [], None, NO_STATS;
    }

    method CheckRoom(additional: nat) returns (r: Result<(), Error>)
      ensures r == CheckCapacity(View(), additional)
    {
      var objects, bytes := 0, 0;
      for i := 0 to |groups|
        invariant objects == Sum(groups[..i], Objects) && bytes == Sum(groups[..i], Charge)
      {
        SumNext(groups, i, Objects);
        SumNext(groups, i, Charge);
        objects := objects + Objects(groups[i]);
        bytes := bytes + Charge(groups[i]);
      }
      assert groups[..|groups|] == groups;
      r := CheckPending(objects, bytes, additional, MAX_VIDEO_PAYLOAD);
    }

    method RetireOldestMedia(now: nat) returns (retiredOne: bool)
      modifies this
      ensures retiredOne <==> RetireOldest(old(View()), now).Some?
      ensures View() == if retiredOne then RetireOldest(old(View()), now).value else old(View())
    {
      var oldest: Option<Place> := None;
      for i := 0 to |groups|
        invariant oldest == Oldest(groups[..i])
      {
        assert groups[..i + 1][..i] == groups[..i];
        var g := groups[i].value;
        if g.segments != [] {
          oldest := Older(oldest, Place(i, false, g.segments[0].key, g.segments[0].value.created));
        }
        if g.datagrams != [] {
          oldest := Older(oldest, Place(i, true, g.datagrams[0].key, g.datagrams[0].value.instant));
        }
      }
      assert groups[..|groups|] == groups;
      if oldest.None? {
        return false;
      }
      var place := oldest.value;
      if place.instant + MAX_BUFFERING > now {
        return false;
      }
      var e := groups[place.index];
      var g := e.value;
      var stats;
      if place.isDatagram {
        stats := g.datagrams[0].value.stats;
        g := g.(datagrams := g.datagrams[1..]);
      } else {
        stats := SegmentsStats(g.segments[0].value);
        g := g.(segments := g.segments[1..]);
      }
      groups := groups[place.index := e.(value := g)];
      retired := retired.Add(stats);
      retiredThrough := Some(if retiredThrough.None? then place.sn else Max(retiredThrough.value, place.sn));
      if g.config.NoConfig? && g.segments == [] && g.datagrams == [] {
        groups := groups[..place.index] + groups[place.index + 1..];
      }
      return true;
    }

    /** Retires stale media, oldest first, until one more object fits. */
    method AdmitObject(additional: nat, now: nat) returns (r: Result<(), Error>)
      modifies this
      ensures (View(), r) == Admit(old(View()), additional, now)
    {
      r := CheckRoom(additional);
      while r.Err?
        invariant r == CheckCapacity(View(), additional)
        invariant Admit(View(), additional, now) == Admit(old(View()), additional, now)
        decreases Sum(groups, MediaCount)
      {
        ghost var before := View();
        var more := RetireOldestMedia(now);
        if !more {
          return;
        }
        RetireShrinks(before, now);
        r := CheckRoom(additional);
      }
    }

    method PreparePendingGroup(group: nat) returns (r: Result<nat, Error>)
      modifies this
      ensures (View(), r) == PrepareGroup(old(View()), group)
    {
      var i := Search(groups, group);
      if i < |groups| && groups[i].key == group {
        return Ok(i);
      }
      if |groups| >= MAX_PENDING_GROUPS {
        return Err(TooManyGroups);
      }
      groups := groups[..i] + [Entry(group, EMPTY_GROUP)] + groups[i..];
      return Ok(i);
    }

    method InsertStreamPacket(group: nat, sn: nat, packet: Packet, now: nat) returns (r: Result<(), Error>)
      modifies this
      ensures (View(), r) == InsertStream(old(View()), group, sn, packet, now)
    {
      if !packet.Media? || !packet.media.isConfig {
        return Err(ExpectedConfig);
      }
      r := AdmitObject(|packet.payload|, now);
      if r.Err? {
        return;
      }
      var index := PreparePendingGroup(group);
      if index.Err? {
        return Err(index.error);
      }
      var g := groups[index.value].value;
      if !g.config.NoConfig? {
        return Err(DuplicateConfig);
      }
      groups := groups[index.value := Entry(group, g.(config := Ready(sn, packet)))];
      r := Ok(());
    }

    method InsertMediaSymbol(solver: Solver, group: nat, sn: nat, oti: Oti, id: SymbolId, data: Bytes, at: Instants)
      returns (r: Result<(), Error>)
      modifies this
      ensures (View(), r) == InsertDatagram(solver, old(View()), group, sn, oti, id, data, at)
    {
      r := ValidateOti(oti, MAX_VIDEO_PAYLOAD);
      if r.Err? {
        return;
      }
      if retiredThrough.Some? && sn <= retiredThrough.value {
        return Ok(());
      }
      for i := 0 to |groups|
        invariant forall j | 0 <= j < i :: !(groups[j].key != group && Contains(groups[j].value, sn))
      {
        if groups[i].key != group && Contains(groups[i].value, sn) {
          return Err(GroupChanged);
        }
      }
      var alreadyPending := false;
      for i := 0 to |groups|
        invariant alreadyPending <==> exists j :: 0 <= j < i && groups[j].key == group && Contains(groups[j].value, sn)
      {
        if groups[i].key == group && Contains(groups[i].value, sn) {
          alreadyPending := true;
        }
      }
      if !alreadyPending {
        r := AdmitObject(Reservation(oti), at.admitted);
        if r.Err? {
          return;
        }
        if retiredThrough.Some? && sn <= retiredThrough.value {
          return Ok(());
        }
      }
      var index := PreparePendingGroup(group);
      if index.Err? {
        return Err(index.error);
      }
      var (g, inserted) := InsertSymbol(solver, groups[index.value].value, sn, oti, id, data, at);
      groups := groups[index.value := Entry(group, g)];
      r := inserted;
    }

    method FindMinInstant() returns (min: Option<nat>)
      ensures min == MinInstant(View())
    {
      min := None;
      for i := 0 to |groups|
        invariant min == MinInstantFrom(groups[..i], None)
      {
        ghost var start := min;
        var ds := groups[i].value.datagrams;
        for j := 0 to |ds|
          invariant min == MinDatagram(ds[..j], start)
        {
          assert ds[..j + 1] == ds[..j] + [ds[j]];
          MinDatagramNext(ds[..j], ds[j], start);
          min := MinOf(min, ds[j].value.instant);
        }
        assert ds[..|ds|] == ds;
        assert groups[..i + 1] == groups[..i] + [groups[i]];
        MinInstantNext(groups[..i], groups[i], None);
      }
      assert groups[..|groups|] == groups;
    }

    /** The minimum over all groups is computed once, when it is first needed. */
    method FindNext(next: nat, now: nat) returns (n: Next)
      ensures n == NextPacket(View(), next, now)
    {
      var cached: Option<Option<nat>> := None;
      for i := 0 to |groups|
        invariant cached.Some? ==> cached.value == MinInstant(View())
        invariant NextFrom(View(), i, next, now) == NextPacket(View(), next, now)
      {
        var g := groups[i].value;
        if !g.config.NoConfig? {
          if g.config.Ready? && g.config.sn == next {
            return ReadyAt(i, true);
          }
          if g.datagrams != [] {
            var ready := false;
            if g.datagrams[0].key == next {
              ready := true;
            } else {
              if cached.None? {
                var min := FindMinInstant();
                cached := Some(min);
              }
              if cached.value.Some? {
                var deadline := cached.value.value + MAX_BUFFERING;
                if deadline <= now {
                  ready := true;
                } else {
                  return Deadline(deadline);
                }
              }
            }
            if ready {
              return ReadyAt(i, g.config.Ready?);
            }
          }
        }
      }
      return Nothing;
    }

    /** Drops the groups before `index`, and collects the accounting of all that is given up. */
    method DiscardBefore(index: nat) returns (stats: FecStats)
      requires index < |groups|
      modifies this
      ensures groups == old(groups)[index..] && retiredThrough == old(retiredThrough) && retired == NO_STATS
      ensures stats == old(retired).Add(Total(old(groups)[..index], GroupDiscarded))
    {
      stats := Accumulate(groups[..index], GroupDiscarded, retired);
      retired := NO_STATS;
      groups := groups[index..];
    }

    method TakeConfigAt(index: nat) returns (a: Action)
      requires index < |groups| && groups[index].value.config.Ready?
      modifies this
      ensures (View(), a) == TakeConfig(old(View()), index)
    {
      var stats := DiscardBefore(index);
      var e := groups[0];
      groups := groups[0 := e.(value := e.value.(config := Sent))];
      assert groups == [groups[0]] + old(groups)[index + 1..];
      a := Forward(e.key, e.value.config.sn, e.value.config.packet, stats);
    }

    method TakeDatagramAt(index: nat) returns (a: Action)
      requires index < |groups| && groups[index].value.datagrams != []
      modifies this
      ensures (View(), a) == TakeDatagram(old(View()), index)
    {
      var stats := DiscardBefore(index);
      var e := groups[0];
      var d := e.value.datagrams[0];
      var (g, expired) := DropExpired(e.value.(datagrams := e.value.datagrams[1..]), d.key);
      groups := groups[0 := e.(value := g)];
      assert groups == [groups[0]] + old(groups)[index + 1..];
      a := Forward(e.key, d.key, d.value.packet, stats.Add(expired).Add(d.value.stats));
    }

    method TakeNextPacket(next: nat, now: nat) returns (a: Action)
      modifies this
      ensures (View(), a) == TakeNext(old(View()), next, now)
    {
      var n := FindNext(next, now);
      match n
      case Nothing => a := NoAction;
      case Deadline(instant) => a := WaitUntil(instant);
      case ReadyAt(index, isConfig) =>
        if isConfig {
          a := TakeConfigAt(index);
        } else {
          a := TakeDatagramAt(index);
        }
    }
  }
}
