/** Conservation of all three FEC counts by retirement and by taking packets: what an object
    counted when it was given up or completed is reported once, in full. */
module VideoCounts {
  import opened SortedVec
  import opened Fec
  import opened VideoGroup
  import opened VideoPending
  import opened VideoInvariant

  /** The counts not reported yet: those of retired objects and of everything pending. */
  function Held(p: Pending): FecStats {
    p.retired.Add(Total(p.groups, GroupDiscarded))
  }

  lemma Assoc(a: FecStats, b: FecStats, c: FecStats)
    ensures a.Add(b).Add(c) == a.Add(b.Add(c))
  {
  }

  lemma Zero(a: FecStats)
    ensures NO_STATS.Add(a) == a == a.Add(NO_STATS)
  {
  }

  lemma {:induction false} TotalConcat<T>(xs: seq<T>, ys: seq<T>, f: T -> FecStats)
    ensures Total(xs + ys, f) == Total(xs, f).Add(Total(ys, f))
  {
    if xs == [] {
      assert xs + ys == ys && Total(xs, f) == NO_STATS;
      Zero(Total(ys, f));
    } else {
      TotalConcat(xs[1..], ys, f);
      ConcatFirst(xs, ys);
      TotalFirst(xs + ys, f);
      TotalFirst(xs, f);
      Assoc(f(xs[0]), Total(xs[1..], f), Total(ys, f));
    }
  }

  lemma ConcatFirst<T>(xs: seq<T>, ys: seq<T>)
    requires xs != []
    ensures (xs + ys)[0] == xs[0] && (xs + ys)[1..] == xs[1..] + ys
  {
  }

  lemma TotalFirst<T>(xs: seq<T>, f: T -> FecStats)
    requires xs != []
    ensures Total(xs, f) == f(xs[0]).Add(Total(xs[1..], f))
  {
  }

  /** The total with the element at `i` set apart. */
  lemma TotalAt<T>(xs: seq<T>, i: nat, f: T -> FecStats)
    requires i < |xs|
    ensures Total(xs, f) == Total(xs[..i], f).Add(f(xs[i]).Add(Total(xs[i + 1..], f)))
  {
    assert xs == xs[..i] + xs[i..];
    TotalConcat(xs[..i], xs[i..], f);
    TotalFirst(xs[i..], f);
    assert xs[i..][1..] == xs[i + 1..] && xs[i..][0] == xs[i];
  }

  lemma TotalUpdate<T>(xs: seq<T>, i: nat, x: T, f: T -> FecStats)
    requires i < |xs|
    ensures Total(xs[i := x], f) == Total(xs[..i], f).Add(f(x).Add(Total(xs[i + 1..], f)))
  {
    TotalAt(xs[i := x], i, f);
    assert xs[i := x][..i] == xs[..i] && xs[i := x][i + 1..] == xs[i + 1..];
  }

  lemma TotalRemove<T>(xs: seq<T>, i: nat, f: T -> FecStats)
    requires i < |xs|
    ensures Total(RemoveAt(xs, i), f) == Total(xs[..i], f).Add(Total(xs[i + 1..], f))
  {
    TotalConcat(xs[..i], xs[i + 1..], f);
  }

  lemma PoppedCounts(g: Group, isDatagram: bool)
    requires if isDatagram then g.datagrams != [] else g.segments != []
    ensures var (h, stats) := PopFront(g, isDatagram);
            DiscardedStats(g) == stats.Add(DiscardedStats(h)) && (!Holds(h) ==> DiscardedStats(h) == NO_STATS)
  {
    var (h, stats) := PopFront(g, isDatagram);
    if isDatagram {
      TotalFirst(g.datagrams, DatagramStats);
      Assoc(stats, Total(h.datagrams, DatagramStats), Total(g.segments, EntryStats));
    } else {
      TotalFirst(g.segments, EntryStats);
      Swap(Total(g.datagrams, DatagramStats), stats, Total(h.segments, EntryStats));
    }
    if !Holds(h) {
      assert Total(h.datagrams, DatagramStats) == NO_STATS && Total(h.segments, EntryStats) == NO_STATS;
      Zero(NO_STATS);
    }
  }

  lemma Swap(a: FecStats, b: FecStats, c: FecStats)
    ensures a.Add(b.Add(c)) == b.Add(a.Add(c))
  {
  }

  /** Taking `x` out of the middle and adding it in front. */
  lemma MoveOut(a: FecStats, b: FecStats, x: FecStats, y: FecStats, c: FecStats)
    ensures a.Add(b.Add(x.Add(y).Add(c))) == a.Add(x).Add(b.Add(y.Add(c)))
  {
  }

  lemma RetireAtConserves(p: Pending, place: Place)
    requires IsFront(p.groups, place)
    ensures Held(RetireAt(p, place)) == Held(p)
  {
    var i := place.index;
    var e := p.groups[i];
    var (g, stats) := PopFront(e.value, place.isDatagram);
    var before, after := Total(p.groups[..i], GroupDiscarded), Total(p.groups[i + 1..], GroupDiscarded);
    PoppedCounts(e.value, place.isDatagram);
    TotalAt(p.groups, i, GroupDiscarded);
    MoveOut(p.retired, before, stats, DiscardedStats(g), after);
    LeftAfter(p.groups, i, g);
    var q := RetireAt(p, place);
    assert q.retired == p.retired.Add(stats);
    assert Total(q.groups, GroupDiscarded) == before.Add(DiscardedStats(g).Add(after));
  }

  lemma LeftAfter(groups: seq<Entry<Group>>, i: nat, g: Group)
    requires i < |groups|
    ensures var before, after := Total(groups[..i], GroupDiscarded), Total(groups[i + 1..], GroupDiscarded);
            && Total(groups[i := groups[i].(value := g)], GroupDiscarded) == before.Add(DiscardedStats(g).Add(after))
            && (DiscardedStats(g) == NO_STATS ==>
                  Total(RemoveAt(groups, i), GroupDiscarded) == before.Add(DiscardedStats(g).Add(after)))
  {
    TotalUpdate(groups, i, groups[i].(value := g), GroupDiscarded);
    TotalRemove(groups, i, GroupDiscarded);
    Zero(Total(groups[i + 1..], GroupDiscarded));
  }

  /** Admission moves counts from pending to retired and changes none. */
  lemma {:induction false} AdmitConserves(p: Pending, additional: nat, now: nat)
    ensures Held(Admit(p, additional, now).0) == Held(p)
    decreases Sum(p.groups, MediaCount)
  {
    if CheckCapacity(p, additional).Err? && RetireOldest(p, now).Some? {
      OldestIsFront(p.groups);
      RetireAtConserves(p, Oldest(p.groups).value);
      RetireShrinks(p, now);
      AdmitConserves(RetireOldest(p, now).value, additional, now);
    }
  }

  /** What is left when the groups before `i` are given up. */
  lemma KeptCounts(groups: seq<Entry<Group>>, i: nat, h: Group)
    requires i < |groups|
    ensures Total(Kept(groups, i, h), GroupDiscarded) == DiscardedStats(h).Add(Total(groups[i + 1..], GroupDiscarded))
  {
    var kept := Kept(groups, i, h);
    TotalFirst(kept, GroupDiscarded);
    assert kept[1..] == groups[i + 1..] && kept[0] == Entry(groups[i].key, h);
  }

  lemma TakeConfigConserves(p: Pending, i: nat)
    requires i < |p.groups| && p.groups[i].value.config.Ready?
    ensures var (q, a) := TakeConfig(p, i); a.stats.Add(Held(q)) == Held(p)
  {
    var g := p.groups[i].value;
    var h := g.(config := Sent);
    var before, after := Total(p.groups[..i], GroupDiscarded), Total(p.groups[i + 1..], GroupDiscarded);
    assert TakeConfig(p, i).0.groups == Kept(p.groups, i, h);
    KeptCounts(p.groups, i, h);
    TotalAt(p.groups, i, GroupDiscarded);
    assert DiscardedStats(h) == DiscardedStats(g);
    Zero(DiscardedStats(g).Add(after));
    Assoc(p.retired, before, DiscardedStats(g).Add(after));
  }

  /** A group's counts, with those of the packet taken and of the older open objects set apart. */
  lemma PoppedAndExpired(g: Group)
    requires g.datagrams != []
    ensures var d := g.datagrams[0];
            var (h, expired) := DropExpired(g.(datagrams := g.datagrams[1..]), d.key);
            DiscardedStats(g) == expired.Add(d.value.stats).Add(DiscardedStats(h))
  {
    var d := g.datagrams[0];
    var n := Search(g.segments, d.key);
    TotalFirst(g.datagrams, DatagramStats);
    assert g.segments == g.segments[..n] + g.segments[n..];
    TotalConcat(g.segments[..n], g.segments[n..], EntryStats);
    Rearrange(d.value.stats, Total(g.datagrams[1..], DatagramStats),
              Total(g.segments[..n], EntryStats), Total(g.segments[n..], EntryStats));
  }

  lemma Rearrange(a: FecStats, b: FecStats, c: FecStats, d: FecStats)
    ensures a.Add(b).Add(c.Add(d)) == c.Add(a).Add(b.Add(d))
  {
  }

  lemma TakeDatagramConserves(p: Pending, i: nat)
    requires i < |p.groups| && p.groups[i].value.datagrams != []
    ensures var (q, a) := TakeDatagram(p, i); a.stats.Add(Held(q)) == Held(p)
  {
    var g := p.groups[i].value;
    var d := g.datagrams[0];
    var (h, expired) := DropExpired(g.(datagrams := g.datagrams[1..]), d.key);
    var before, after := Total(p.groups[..i], GroupDiscarded), Total(p.groups[i + 1..], GroupDiscarded);
    assert TakeDatagram(p, i).0.groups == Kept(p.groups, i, h);
    PoppedAndExpired(g);
    KeptCounts(p.groups, i, h);
    TotalAt(p.groups, i, GroupDiscarded);
    Zero(DiscardedStats(h).Add(after));
    Reported(p.retired, before, expired, d.value.stats, DiscardedStats(h), after);
  }

  lemma Reported(r: FecStats, b: FecStats, x: FecStats, y: FecStats, h: FecStats, c: FecStats)
    ensures r.Add(b).Add(x).Add(y).Add(h.Add(c)) == r.Add(b.Add(x.Add(y).Add(h).Add(c)))
  {
  }

  /** Taking a packet reports its own counts, those of everything given up with it and those held
      for retired objects, and leaves the rest: each of the three counts is conserved. */
  lemma TakeConserves(p: Pending, next: nat, now: nat)
    ensures var (q, a) := TakeNext(p, next, now);
            (if a.Forward? then a.stats else NO_STATS).Add(Held(q)) == Held(p)
  {
    var n := NextPacket(p, next, now);
    if n.ReadyAt? {
      if n.isConfig {
        TakeConfigConserves(p, n.index);
      } else {
        TakeDatagramConserves(p, n.index);
      }
    }
  }

  /** What an object counts: its source ids, those of them not received, and, as long as it is not
      reconstructed, the same again as unrecovered. */
  lemma CountsAreExact(s: Segments)
    requires DecoderOk(s.decoder)
    ensures var ids := SourceIds(s.decoder.oti, s.decoder.oti.blocks);
            var lost := |ids - s.decoder.received.Keys|;
            SegmentsStats(s) == FecStats(|ids|, lost, if s.assembled.Some? then 0 else lost)
  {
    MissingIsExact(s.decoder);
    AllSourceIds(s.decoder.oti);
  }
}
