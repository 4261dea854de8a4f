/** What every operation of the video receive buffer keeps, whatever the peer sends:
    sorted vectors, unique media numbers beyond the retirement frontier, and the budget. */
module VideoInvariant {
  import opened Wrappers
  import opened SortedVec
  import opened AvPacket
  import opened Fec
  import opened VideoGroup
  import opened VideoPending

  ghost function MediaKeys(g: Group): set<nat> {
    Keys(g.datagrams) + Keys(g.segments)
  }

  ghost predicate DecoderOk(d: Decoder) {
    ValidOti(d.oti, MAX_VIDEO_PAYLOAD) && DecoderInv(d)
  }

  ghost predicate SegmentsOk(s: Segments) {
    DecoderOk(s.decoder) && s.assembled.None?
  }

  ghost predicate DatagramOk(d: Datagram) {
    ValidOti(d.oti, MAX_VIDEO_PAYLOAD) && d.stats.Consistent() && d.stats.source == SourceSymbols(d.oti)
  }

  ghost predicate ConfigOk(c: Config) {
    c.Ready? ==> c.packet.Media? && |c.packet.payload| <= MAX_CONFIG_PAYLOAD
  }

  ghost predicate GroupOk(g: Group) {
    && Sorted(g.datagrams) && Sorted(g.segments)
    && Keys(g.datagrams) !! Keys(g.segments)
    && (forall e | e in g.segments :: SegmentsOk(e.value))
    && (forall e | e in g.datagrams :: DatagramOk(e.value))
    && ConfigOk(g.config)
  }

  ghost predicate Shape(groups: seq<Entry<Group>>) {
    && Sorted(groups)
    && (forall i | 0 <= i < |groups| :: GroupOk(groups[i].value))
    && (forall i, j | 0 <= i < j < |groups| :: MediaKeys(groups[i].value) !! MediaKeys(groups[j].value))
  }

  ghost predicate Beyond(groups: seq<Entry<Group>>, through: Option<nat>) {
    through.Some? ==>
      forall i, k | 0 <= i < |groups| && k in MediaKeys(groups[i].value) :: through.value < k
  }

  ghost predicate WithinBudget(groups: seq<Entry<Group>>) {
    && |groups| <= MAX_PENDING_GROUPS
    && Sum(groups, Objects) <= MAX_PENDING_OBJECTS
    && Sum(groups, Charge) <= VIDEO_BUDGET
  }

  ghost predicate PendingInv(p: Pending) {
    && Shape(p.groups)
    && Beyond(p.groups, p.retiredThrough)
    && WithinBudget(p.groups)
    && p.retired.Consistent()
  }

  lemma EmptyInv()
    ensures PendingInv(EMPTY)
  {}

  // ----- Edits of the vector of groups

  lemma ShapeUpdate(groups: seq<Entry<Group>>, i: nat, g: Group)
    requires Shape(groups) && i < |groups| && GroupOk(g)
    requires forall j | 0 <= j < |groups| && j != i :: MediaKeys(g) !! MediaKeys(groups[j].value)
    ensures Shape(groups[i := Entry(groups[i].key, g)])
  {
    UpdateSorted(groups, i, g);
  }

  lemma ShapeRemove(groups: seq<Entry<Group>>, i: nat)
    requires Shape(groups) && i < |groups|
    ensures Shape(RemoveAt(groups, i))
  {
    var rest := RemoveAt(groups, i);
    RemoveSorted(groups, i);
    forall j | 0 <= j < |rest| ensures GroupOk(rest[j].value) {
      RemovedAt(groups, i, j);
    }
    forall j, k | 0 <= j < k < |rest| ensures MediaKeys(rest[j].value) !! MediaKeys(rest[k].value) {
      RemovedAt(groups, i, j);
      RemovedAt(groups, i, k);
    }
  }

  lemma EmptyGroupOk()
    ensures GroupOk(EMPTY_GROUP) && MediaKeys(EMPTY_GROUP) == {}
  {}

  lemma ShapeInsertEmpty(groups: seq<Entry<Group>>, id: nat)
    requires Shape(groups) && !Has(groups, id)
    ensures Shape(InsertAt(groups, Search(groups, id), Entry(id, EMPTY_GROUP)))
  {
    var i := Search(groups, id);
    var more := InsertAt(groups, i, Entry(id, EMPTY_GROUP));
    InsertSorted(groups, Entry(id, EMPTY_GROUP));
    EmptyGroupOk();
    forall j | 0 <= j < |more| ensures GroupOk(more[j].value) {
      InsertedAt(groups, i, Entry(id, EMPTY_GROUP), j);
    }
    forall j, k | 0 <= j < k < |more| ensures MediaKeys(more[j].value) !! MediaKeys(more[k].value) {
      InsertedAt(groups, i, Entry(id, EMPTY_GROUP), j);
      InsertedAt(groups, i, Entry(id, EMPTY_GROUP), k);
    }
  }

  lemma InsertedAt<T>(xs: seq<T>, i: nat, x: T, j: nat)
    requires i <= |xs| && j <= |xs|
    ensures InsertAt(xs, i, x)[j] == if j < i then xs[j] else if j == i then x else xs[j - 1]
  {}

  lemma RemovedAt<T>(xs: seq<T>, i: nat, j: nat)
    requires i < |xs| && j < |xs| - 1
    ensures RemoveAt(xs, i)[j] == xs[if j < i then j else j + 1]
  {}

  lemma ShapeSuffix(groups: seq<Entry<Group>>, i: nat)
    requires Shape(groups) && i <= |groups|
    ensures Shape(groups[i..])
  {
    assert forall j | 0 <= j < |groups[i..]| :: groups[i..][j] == groups[i + j];
  }

  // ----- One group

  lemma FrontKey<T>(xs: seq<Entry<T>>)
    requires Sorted(xs) && xs != []
    ensures xs[0].key in Keys(xs)
    ensures forall k | k in Keys(xs) :: xs[0].key <= k
    ensures Sorted(xs[1..]) && Keys(xs[1..]) == Keys(xs) - {xs[0].key}
  {
    assert xs[0] in xs;
    RemoveSorted(xs, 0);
    assert RemoveAt(xs, 0) == xs[1..];
    forall k | k in Keys(xs) ensures xs[0].key <= k {
      KeysAt(xs, k);
    }
  }

  lemma PopFrontOk(g: Group, isDatagram: bool)
    requires GroupOk(g)
    requires if isDatagram then g.datagrams != [] else g.segments != []
    ensures var (h, stats) := PopFront(g, isDatagram);
            var front := if isDatagram then g.datagrams[0].key else g.segments[0].key;
            && GroupOk(h) && stats.Consistent() && h.config == g.config
            && MediaKeys(h) == MediaKeys(g) - {front}
  {
    if isDatagram {
      FrontKey(g.datagrams);
    } else {
      FrontKey(g.segments);
      StatsConsistent(g.segments[0].value);
    }
  }

  lemma StatsConsistent(s: Segments)
    ensures SegmentsStats(s).Consistent()
    ensures SegmentsStats(s).source == SourceSymbols(s.decoder.oti)
  {}

  // ----- Budget edits

  lemma BudgetUpdate(groups: seq<Entry<Group>>, i: nat, e: Entry<Group>)
    requires i < |groups|
    ensures Sum(groups[i := e], Objects) + Objects(groups[i]) == Sum(groups, Objects) + Objects(e)
    ensures Sum(groups[i := e], Charge) + Charge(groups[i]) == Sum(groups, Charge) + Charge(e)
  {
    SumUpdate(groups, i, e, Objects);
    SumUpdate(groups, i, e, Charge);
  }

  lemma BudgetSuffix(groups: seq<Entry<Group>>, i: nat)
    requires i <= |groups|
    ensures Sum(groups[i..], Objects) <= Sum(groups, Objects)
    ensures Sum(groups[i..], Charge) <= Sum(groups, Charge)
  {
    SumSplit(groups, i, Objects);
    SumSplit(groups, i, Charge);
  }

  lemma BudgetRemove(groups: seq<Entry<Group>>, i: nat)
    requires i < |groups|
    ensures Sum(RemoveAt(groups, i), Objects) <= Sum(groups, Objects)
    ensures Sum(RemoveAt(groups, i), Charge) <= Sum(groups, Charge)
  {
    SumRemove(groups, i, Objects);
    SumRemove(groups, i, Charge);
  }

  lemma BudgetInsertEmpty(groups: seq<Entry<Group>>, i: nat, id: nat)
    requires i <= |groups|
    ensures Sum(InsertAt(groups, i, Entry(id, EMPTY_GROUP)), Objects) == Sum(groups, Objects)
    ensures Sum(InsertAt(groups, i, Entry(id, EMPTY_GROUP)), Charge) == Sum(groups, Charge)
  {
    SumInsert(groups, i, Entry(id, EMPTY_GROUP), Objects);
    SumInsert(groups, i, Entry(id, EMPTY_GROUP), Charge);
  }

  lemma PopFrontCharge(e: Entry<Group>, isDatagram: bool)
    requires if isDatagram then e.value.datagrams != [] else e.value.segments != []
    ensures var h := e.(value := PopFront(e.value, isDatagram).0);
            Objects(h) + 1 == Objects(e) && Charge(h) <= Charge(e)
  {}

  // ----- The lowest pending media object

  ghost predicate IsFront(groups: seq<Entry<Group>>, place: Place) {
    && place.index < |groups|
    && var g := groups[place.index].value;
       if place.isDatagram then
         g.datagrams != [] && g.datagrams[0].key == place.sn && g.datagrams[0].value.instant == place.instant
       else
         g.segments != [] && g.segments[0].key == place.sn && g.segments[0].value.created == place.instant
  }

  lemma {:induction false} OldestIsFront(groups: seq<Entry<Group>>)
    ensures var o := Oldest(groups); o.Some? ==> IsFront(groups, o.value)
    ensures Oldest(groups).None? ==> forall i | 0 <= i < |groups| :: !Holds(groups[i].value)
  {
    if groups != [] {
      OldestIsFront(groups[..|groups| - 1]);
    }
  }

  lemma ConsiderLowest(o: Option<Place>, index: nat, g: Group)
    requires GroupOk(g)
    ensures var r := Consider(o, index, g);
            && (o.Some? ==> r.Some? && r.value.sn <= o.value.sn)
            && forall k | k in MediaKeys(g) :: r.Some? && r.value.sn <= k
  {
    if g.datagrams != [] { FrontKey(g.datagrams); }
    if g.segments != [] { FrontKey(g.segments); }
  }

  ghost predicate Lowest(o: Option<Place>, g: Group) {
    forall k | k in MediaKeys(g) :: o.Some? && o.value.sn <= k
  }

  lemma {:induction false} OldestIsLowest(groups: seq<Entry<Group>>)
    requires forall i | 0 <= i < |groups| :: GroupOk(groups[i].value)
    ensures forall i | 0 <= i < |groups| :: Lowest(Oldest(groups), groups[i].value)
  {
    if groups != [] {
      var last := |groups| - 1;
      OldestIsLowest(groups[..last]);
      ConsiderLowest(Oldest(groups[..last]), last, groups[last].value);
      forall i | 0 <= i < |groups| ensures Lowest(Oldest(groups), groups[i].value) {
        if i < last {
          assert groups[..last][i] == groups[i];
        }
      }
    }
  }

  // ----- Retirement keeps the invariant

  lemma RetireAtShape(p: Pending, place: Place)
    requires Shape(p.groups) && IsFront(p.groups, place)
    ensures Shape(RetireAt(p, place).groups)
  {
    var e := p.groups[place.index];
    PopFrontOk(e.value, place.isDatagram);
    var g := PopFront(e.value, place.isDatagram).0;
    forall j | 0 <= j < |p.groups| && j != place.index
      ensures MediaKeys(e.value) !! MediaKeys(p.groups[j].value)
    {}
    ShapeUpdate(p.groups, place.index, g);
    ShapeRemove(p.groups, place.index);
  }

  lemma RetireAtBudget(p: Pending, place: Place)
    requires WithinBudget(p.groups) && IsFront(p.groups, place)
    ensures WithinBudget(RetireAt(p, place).groups)
  {
    var e := p.groups[place.index];
    var g := PopFront(e.value, place.isDatagram).0;
    PopFrontCharge(e, place.isDatagram);
    BudgetUpdate(p.groups, place.index, e.(value := g));
    BudgetRemove(p.groups, place.index);
  }

  /** The media left after retiring the lowest object is exactly the media above it. */
  lemma RetireAtMedia(p: Pending, place: Place)
    requires Shape(p.groups) && IsFront(p.groups, place)
    requires forall i | 0 <= i < |p.groups| :: Lowest(Some(place), p.groups[i].value)
    ensures Beyond(RetireAt(p, place).groups, Some(place.sn))
  {
    var e := p.groups[place.index];
    PopFrontOk(e.value, place.isDatagram);
    var q := RetireAt(p, place);
    assert place.sn in MediaKeys(e.value) by {
      if place.isDatagram { FrontKey(e.value.datagrams); } else { FrontKey(e.value.segments); }
    }
    forall i, k | 0 <= i < |q.groups| && k in MediaKeys(q.groups[i].value)
      ensures place.sn < k
    {
      if |q.groups| == |p.groups| {
        if i != place.index {
          assert q.groups[i] == p.groups[i];
        }
      } else {
        var j := if i < place.index then i else i + 1;
        assert q.groups[i] == p.groups[j];
      }
    }
  }

  lemma RetireOldestInv(p: Pending, now: nat)
    requires PendingInv(p) && RetireOldest(p, now).Some?
    ensures PendingInv(RetireOldest(p, now).value)
    ensures RetireOldest(p, now).value.retiredThrough == Some(Oldest(p.groups).value.sn)
  {
    var place := Oldest(p.groups).value;
    OldestIsFront(p.groups);
    OldestIsLowest(p.groups);
    RetireAtShape(p, place);
    RetireAtBudget(p, place);
    RetireAtMedia(p, place);
    var e := p.groups[place.index];
    PopFrontOk(e.value, place.isDatagram);
    assert place.sn in MediaKeys(e.value) by {
      if place.isDatagram { FrontKey(e.value.datagrams); } else { FrontKey(e.value.segments); }
    }
  }

  lemma {:induction false} AdmitInv(p: Pending, additional: nat, now: nat)
    requires PendingInv(p)
    ensures var (q, r) := Admit(p, additional, now);
            && PendingInv(q)
            && (r.Ok? <==> CheckCapacity(q, additional).Ok?)
            && (p.retiredThrough.Some? ==> q.retiredThrough.Some? && p.retiredThrough.value <= q.retiredThrough.value)
    decreases Sum(p.groups, MediaCount)
  {
    if CheckCapacity(p, additional).Err? {
      match RetireOldest(p, now)
      case None =>
      case Some(p1) =>
        RetireOldestInv(p, now);
        RetireShrinks(p, now);
        AdmitInv(p1, additional, now);
        assert Admit(p, additional, now) == Admit(p1, additional, now);
    }
  }

  // ----- Inserting one symbol

  /** What a change of one group may do to its media and its charge. */
  ghost predicate Moved(g: Group, h: Group) {
    && GroupOk(h) && h.config == g.config
    && MediaKeys(h) == MediaKeys(g)
    && |h.segments| + |h.datagrams| == |g.segments| + |g.datagrams|
    && GroupCharge(h) == GroupCharge(g)
  }

  ghost function GroupCharge(g: Group): nat {
    Sum(g.segments, SegmentsCharge) + Sum(g.datagrams, DatagramCharge)
  }

  lemma PrepareSegmentsOk(g: Group, sn: nat, oti: Oti, now: nat)
    requires GroupOk(g) && !Has(g.datagrams, sn) && ValidOti(oti, MAX_VIDEO_PAYLOAD)
    ensures var r := PrepareSegments(g, sn, oti, now);
            && r.Ok? && GroupOk(r.value)
            && r.value.config == g.config && r.value.datagrams == g.datagrams
            && MediaKeys(r.value) == MediaKeys(g) + {sn}
            && |r.value.segments| == |g.segments| + (if Has(g.segments, sn) then 0 else 1)
            && GroupCharge(r.value) == GroupCharge(g) + (if Has(g.segments, sn) then 0 else Reservation(oti))
  {
    HasIffKey(g.segments, sn);
    HasIffKey(g.datagrams, sn);
    if !Has(g.segments, sn) {
      NewDecoderInv(oti);
      OpenSegmentsOk(g, Entry(sn, Segments(NewDecoder(oti), None, now)));
    }
  }

  lemma OpenSegmentsOk(g: Group, e: Entry<Segments>)
    requires GroupOk(g) && e.key !in MediaKeys(g) && SegmentsOk(e.value)
    ensures var h := g.(segments := InsertAt(g.segments, Search(g.segments, e.key), e));
            && GroupOk(h) && MediaKeys(h) == MediaKeys(g) + {e.key}
            && GroupCharge(h) == GroupCharge(g) + SegmentsCharge(e)
  {
    var i := Search(g.segments, e.key);
    HasIffKey(g.segments, e.key);
    InsertSorted(g.segments, e);
    SumInsert(g.segments, i, e, SegmentsCharge);
    InsertMembers(g.segments, i, e);
  }

  lemma FedGroupOk(g: Group, i: nat, fed: Segments)
    requires GroupOk(g) && i < |g.segments|
    requires SegmentsOk(fed) && fed.decoder.oti == g.segments[i].value.decoder.oti
    ensures Moved(g, g.(segments := g.segments[i := Entry(g.segments[i].key, fed)]))
  {
    UpdateSorted(g.segments, i, fed);
    SumUpdate(g.segments, i, Entry(g.segments[i].key, fed), SegmentsCharge);
  }

  lemma RemovedGroupOk(g: Group, i: nat)
    requires GroupOk(g) && i < |g.segments|
    ensures var h := g.(segments := RemoveAt(g.segments, i));
            && GroupOk(h)
            && MediaKeys(h) == MediaKeys(g) - {g.segments[i].key}
            && GroupCharge(h) + SegmentsCharge(g.segments[i]) == GroupCharge(g)
  {
    RemoveSorted(g.segments, i);
    SumRemove(g.segments, i, SegmentsCharge);
    assert g.segments[i] in g.segments;
  }

  lemma InsertPacketOk(g: Group, sn: nat, d: Datagram)
    requires GroupOk(g) && sn !in MediaKeys(g) && DatagramOk(d)
    ensures var h := InsertPacket(g, sn, d);
            && GroupOk(h) && h.config == g.config && h.segments == g.segments
            && MediaKeys(h) == MediaKeys(g) + {sn}
            && |h.datagrams| == |g.datagrams| + 1
            && GroupCharge(h) == GroupCharge(g) + Reservation(d.oti)
  {
    HasIffKey(g.datagrams, sn);
    InsertSorted(g.datagrams, Entry(sn, d));
    SumInsert(g.datagrams, Search(g.datagrams, sn), Entry(sn, d), DatagramCharge);
  }

  /** Feeding a symbol, and moving a completed object over, leaves media and charge alone;
      only an object that reassembles to something unacceptable disappears. */
  lemma FeedSegmentsOk(solver: Solver, g: Group, sn: nat, oti: Oti, id: SymbolId, data: Bytes, now: nat)
    requires GroupOk(g) && Has(g.segments, sn) && !Has(g.datagrams, sn)
    ensures var (h, r) := FeedSegments(solver, g, sn, oti, id, data, now);
            && GroupOk(h) && h.config == g.config
            && (r.Ok? ==> Moved(g, h))
            && MediaKeys(h) <= MediaKeys(g)
            && |h.segments| + |h.datagrams| <= |g.segments| + |g.datagrams|
            && GroupCharge(h) <= GroupCharge(g)
  {
    var i := Search(g.segments, sn);
    var s := g.segments[i].value;
    DecodeKeepsInv(solver, s.decoder, oti, id, data);
    var (decoder, r) := Decode(solver, s.decoder, oti, id, data);
    if r.Ok? {
      var fed := s.(decoder := decoder, assembled := r.value);
      if r.value.None? {
        FedGroupOk(g, i, fed);
      } else {
        CompletedGroupOk(g, i, fed, now);
      }
    }
  }

  lemma CompletedGroupOk(g: Group, i: nat, fed: Segments, now: nat)
    requires GroupOk(g) && i < |g.segments|
    requires DecoderOk(fed.decoder) && fed.decoder.oti == g.segments[i].value.decoder.oti
    ensures var rest := g.(segments := RemoveAt(g.segments, i));
            var d := Assemble(fed, now);
            && GroupOk(rest) && MediaKeys(rest) <= MediaKeys(g) && GroupCharge(rest) <= GroupCharge(g)
            && (d.Ok? ==> Moved(g, InsertPacket(rest, g.segments[i].key, d.value)))
  {
    RemovedGroupOk(g, i);
    var rest := g.(segments := RemoveAt(g.segments, i));
    var d := Assemble(fed, now);
    if d.Ok? {
      assert g.segments[i] in g.segments;
      StatsConsistent(fed);
      InsertPacketOk(rest, g.segments[i].key, d.value);
    }
  }

  lemma InsertSymbolOk(solver: Solver, g: Group, sn: nat, oti: Oti, id: SymbolId, data: Bytes, at: Instants)
    requires GroupOk(g) && ValidOti(oti, MAX_VIDEO_PAYLOAD)
    ensures var (h, r) := InsertSymbol(solver, g, sn, oti, id, data, at);
            && GroupOk(h) && h.config == g.config
            && MediaKeys(h) <= MediaKeys(g) + {sn}
            && (r.Ok? ==> MediaKeys(h) == MediaKeys(g) + {sn})
            && |h.segments| + |h.datagrams| <= |g.segments| + |g.datagrams| + (if Contains(g, sn) then 0 else 1)
            && GroupCharge(h) <= GroupCharge(g) + (if Contains(g, sn) then 0 else Reservation(oti))
            && (r.Ok? && Contains(g, sn) ==> Moved(g, h))
  {
    HasIffKey(g.datagrams, sn);
    if !Has(g.datagrams, sn) {
      PrepareSegmentsOk(g, sn, oti, at.created);
      var prepared := PrepareSegments(g, sn, oti, at.created).value;
      FeedSegmentsOk(solver, prepared, sn, oti, id, data, at.assembled);
    }
  }

  // ----- Insertion keeps the invariant

  lemma PrepareGroupInv(p: Pending, group: nat)
    requires PendingInv(p)
    ensures var (q, r) := PrepareGroup(p, group);
            && PendingInv(q)
            && q.retiredThrough == p.retiredThrough && q.retired == p.retired
            && Sum(q.groups, Objects) == Sum(p.groups, Objects)
            && Sum(q.groups, Charge) == Sum(p.groups, Charge)
  {
    var i := Search(p.groups, group);
    if !Has(p.groups, group) && |p.groups| < MAX_PENDING_GROUPS {
      ShapeInsertEmpty(p.groups, group);
      BudgetInsertEmpty(p.groups, i, group);
      EmptyGroupOk();
      forall j, k | 0 <= j <= |p.groups|
                    && k in MediaKeys(InsertAt(p.groups, i, Entry(group, EMPTY_GROUP))[j].value)
        ensures p.retiredThrough.Some? ==> p.retiredThrough.value < k
      {
        InsertedAt(p.groups, i, Entry(group, EMPTY_GROUP), j);
      }
    }
  }

  lemma ContainsIsMedia(g: Group, sn: nat)
    requires GroupOk(g)
    ensures Contains(g, sn) <==> sn in MediaKeys(g)
  {
    HasIffKey(g.datagrams, sn);
    HasIffKey(g.segments, sn);
  }

  /** A group may be replaced by one holding at most the new number besides its own. */
  lemma ReplaceGroupInv(p: Pending, i: nat, h: Group, sn: nat)
    requires PendingInv(p) && i < |p.groups| && GroupOk(h)
    requires MediaKeys(h) <= MediaKeys(p.groups[i].value) + {sn}
    requires forall j | 0 <= j < |p.groups| && j != i :: sn !in MediaKeys(p.groups[j].value)
    requires !Retired(p, sn)
    requires var q := p.groups[i := Entry(p.groups[i].key, h)];
             Sum(q, Objects) <= MAX_PENDING_OBJECTS && Sum(q, Charge) <= VIDEO_BUDGET
    ensures PendingInv(p.(groups := p.groups[i := Entry(p.groups[i].key, h)]))
  {
    forall j | 0 <= j < |p.groups| && j != i ensures MediaKeys(h) !! MediaKeys(p.groups[j].value) {
      OthersApart(p.groups, i, j);
    }
    ShapeUpdate(p.groups, i, h);
    BeyondUpdate(p.groups, p.retiredThrough, i, h, sn);
  }

  lemma OthersApart(groups: seq<Entry<Group>>, i: nat, j: nat)
    requires Shape(groups) && i < |groups| && j < |groups| && i != j
    ensures MediaKeys(groups[i].value) !! MediaKeys(groups[j].value)
  {
    if j < i {
      assert MediaKeys(groups[j].value) !! MediaKeys(groups[i].value);
    }
  }

  lemma BeyondUpdate(groups: seq<Entry<Group>>, through: Option<nat>, i: nat, h: Group, sn: nat)
    requires Beyond(groups, through) && i < |groups|
    requires MediaKeys(h) <= MediaKeys(groups[i].value) + {sn}
    requires through.Some? ==> through.value < sn
    ensures Beyond(groups[i := Entry(groups[i].key, h)], through)
  {
  }

  lemma InsertAdmittedInv(solver: Solver, p: Pending, group: nat, sn: nat, oti: Oti, id: SymbolId, data: Bytes,
                          at: Instants)
    requires PendingInv(p) && ValidOti(oti, MAX_VIDEO_PAYLOAD)
    requires !Retired(p, sn) && !InOtherGroup(p.groups, group, sn)
    requires InOwnGroup(p.groups, group, sn) || CheckCapacity(p, Reservation(oti)).Ok?
    ensures PendingInv(InsertAdmitted(solver, p, group, sn, oti, id, data, at).0)
  {
    PrepareGroupInv(p, group);
    var (q, index) := PrepareGroup(p, group);
    if index.Ok? {
      var i := index.value;
      var e := q.groups[i];
      InsertSymbolOk(solver, e.value, sn, oti, id, data, at);
      var (h, r) := InsertSymbol(solver, e.value, sn, oti, id, data, at);
      OnlyOwnGroup(p, group, sn);
      BudgetUpdate(q.groups, i, Entry(group, h));
      ReplaceGroupInv(q, i, h, sn);
    }
  }

  /** After the group is looked up, no other group holds the number, and its own group
      holds it just when it was pending. */
  lemma OnlyOwnGroup(p: Pending, group: nat, sn: nat)
    requires PendingInv(p) && !InOtherGroup(p.groups, group, sn)
    ensures var (q, r) := PrepareGroup(p, group);
            r.Ok? ==>
              && (forall j | 0 <= j < |q.groups| && j != r.value :: sn !in MediaKeys(q.groups[j].value))
              && (Contains(q.groups[r.value].value, sn) <==> InOwnGroup(p.groups, group, sn))
  {
    var (q, r) := PrepareGroup(p, group);
    if r.Ok? {
      var i := r.value;
      if Has(p.groups, group) {
        OthersDoNotHold(p, group, sn);
      } else {
        EmptyGroupOk();
        assert q.groups[i].value == EMPTY_GROUP;
        HasIffKey(p.groups, group);
        OthersDoNotHold(p, group, sn);
        forall j | 0 <= j < |q.groups| && j != i ensures sn !in MediaKeys(q.groups[j].value) {
          InsertedAt(p.groups, i, Entry(group, EMPTY_GROUP), j);
          var m := if j < i then j else j - 1;
          assert p.groups[m] in p.groups;
        }
        forall j | 0 <= j < |p.groups| ensures p.groups[j].key != group {
          assert p.groups[j] in p.groups;
        }
      }
    }
  }

  lemma OthersDoNotHold(p: Pending, group: nat, sn: nat)
    requires PendingInv(p) && !InOtherGroup(p.groups, group, sn)
    ensures forall j | 0 <= j < |p.groups| && p.groups[j].key != group :: sn !in MediaKeys(p.groups[j].value)
  {
    forall j | 0 <= j < |p.groups| && p.groups[j].key != group ensures sn !in MediaKeys(p.groups[j].value) {
      ContainsIsMedia(p.groups[j].value, sn);
    }
  }

  lemma {:induction false} AdmitOnlyRemoves(p: Pending, additional: nat, now: nat, group: nat, sn: nat)
    requires PendingInv(p)
    ensures var q := Admit(p, additional, now).0;
            && (InOtherGroup(q.groups, group, sn) ==> InOtherGroup(p.groups, group, sn))
            && (InOwnGroup(q.groups, group, sn) ==> InOwnGroup(p.groups, group, sn))
    decreases Sum(p.groups, MediaCount)
  {
    if CheckCapacity(p, additional).Err? && RetireOldest(p, now).Some? {
      RetireOldestInv(p, now);
      RetireShrinks(p, now);
      var p1 := RetireOldest(p, now).value;
      AdmitOnlyRemoves(p1, additional, now, group, sn);
      forall i | 0 <= i < |p1.groups| && Contains(p1.groups[i].value, sn)
        ensures exists j ::
                  0 <= j < |p.groups| && p.groups[j].key == p1.groups[i].key && Contains(p.groups[j].value, sn)
      {
        var j := RetiredFrom(p, now, i);
        ContainsIsMedia(p1.groups[i].value, sn);
        ContainsIsMedia(p.groups[j].value, sn);
      }
    }
  }

  /** Every group left by a retirement was there before, with at least the same media. */
  lemma RetiredFrom(p: Pending, now: nat, i: nat) returns (j: nat)
    requires PendingInv(p) && RetireOldest(p, now).Some? && i < |RetireOldest(p, now).value.groups|
    ensures var e := RetireOldest(p, now).value.groups[i];
            && j < |p.groups| && p.groups[j].key == e.key
            && p.groups[j].value.config == e.value.config
            && MediaKeys(e.value) <= MediaKeys(p.groups[j].value)
  {
    var place := Oldest(p.groups).value;
    OldestIsFront(p.groups);
    PopFrontOk(p.groups[place.index].value, place.isDatagram);
    var q := RetireOldest(p, now).value;
    if |q.groups| == |p.groups| {
      j := i;
    } else {
      j := if place.index <= i then i + 1 else i;
      RemovedAt(p.groups, place.index, i);
    }
  }

  lemma InsertDatagramInv(solver: Solver, p: Pending, group: nat, sn: nat, oti: Oti, id: SymbolId, data: Bytes,
                          at: Instants)
    requires PendingInv(p)
    ensures PendingInv(InsertDatagram(solver, p, group, sn, oti, id, data, at).0)
  {
    if ValidOti(oti, MAX_VIDEO_PAYLOAD) && !Retired(p, sn) && !InOtherGroup(p.groups, group, sn) {
      if InOwnGroup(p.groups, group, sn) {
        InsertAdmittedInv(solver, p, group, sn, oti, id, data, at);
      } else {
        AdmitInv(p, Reservation(oti), at.admitted);
        AdmitOnlyRemoves(p, Reservation(oti), at.admitted, group, sn);
        var (q, admitted) := Admit(p, Reservation(oti), at.admitted);
        if admitted.Ok? && !Retired(q, sn) {
          InsertAdmittedInv(solver, q, group, sn, oti, id, data, at);
        }
      }
    }
  }

  lemma InsertStreamInv(p: Pending, group: nat, sn: nat, packet: Packet, now: nat)
    requires PendingInv(p)
    requires packet.Media? ==> |packet.payload| <= MAX_CONFIG_PAYLOAD
    ensures PendingInv(InsertStream(p, group, sn, packet, now).0)
  {
    if packet.Media? && packet.media.isConfig {
      AdmitInv(p, |packet.payload|, now);
      var (q, admitted) := Admit(p, |packet.payload|, now);
      if admitted.Ok? {
        PrepareGroupInv(q, group);
        var (r, index) := PrepareGroup(q, group);
        if index.Ok? && r.groups[index.value].value.config.NoConfig? {
          SetConfigInv(r, index.value, Ready(sn, packet));
        }
      }
    }
  }

  lemma SetConfigInv(p: Pending, i: nat, c: Config)
    requires PendingInv(p) && i < |p.groups| && ConfigOk(c)
    requires Sum(p.groups, Objects) + ConfigObjects(c) <= MAX_PENDING_OBJECTS
    requires Sum(p.groups, Charge) + ConfigBytes(c) <= VIDEO_BUDGET
    ensures PendingInv(p.(groups := p.groups[i := Entry(p.groups[i].key, p.groups[i].value.(config := c))]))
  {
    var e := p.groups[i];
    var h := e.value.(config := c);
    BudgetUpdate(p.groups, i, Entry(e.key, h));
    assert MediaKeys(h) == MediaKeys(e.value);
    forall j | 0 <= j < |p.groups| && j != i ensures MediaKeys(h) !! MediaKeys(p.groups[j].value) {
      if j < i { assert MediaKeys(p.groups[j].value) !! MediaKeys(e.value); }
    }
    ShapeUpdate(p.groups, i, h);
  }

  // ----- Taking the next packet keeps the invariant

  lemma {:induction false} TotalConsistent<T>(xs: seq<T>, f: T -> FecStats)
    requires forall x | x in xs :: f(x).Consistent()
    ensures Total(xs, f).Consistent()
  {
    if xs != [] {
      TotalConsistent(xs[1..], f);
    }
  }

  lemma DiscardedConsistent(g: Group)
    requires GroupOk(g)
    ensures DiscardedStats(g).Consistent()
  {
    forall e | e in g.segments ensures EntryStats(e).Consistent() { StatsConsistent(e.value); }
    TotalConsistent(g.segments, EntryStats);
    TotalConsistent(g.datagrams, DatagramStats);
  }

  lemma DropExpiredOk(g: Group, until: nat)
    requires GroupOk(g)
    ensures var (h, stats) := DropExpired(g, until);
            && GroupOk(h) && stats.Consistent()
            && h.config == g.config && h.datagrams == g.datagrams
            && |h.segments| <= |g.segments| && GroupCharge(h) <= GroupCharge(g)
            && MediaKeys(h) <= MediaKeys(g)
            && forall k :: k in Keys(h.segments) <==> k in Keys(g.segments) && until <= k
  {
    var i := Search(g.segments, until);
    forall e | e in g.segments[..i] ensures EntryStats(e).Consistent() { StatsConsistent(e.value); }
    TotalConsistent(g.segments[..i], EntryStats);
    SumSplit(g.segments, i, SegmentsCharge);
    DrainedKeys(g.segments, until);
  }

  lemma SuffixInv(p: Pending, i: nat, h: Group)
    requires PendingInv(p) && i < |p.groups| && GroupOk(h)
    requires MediaKeys(h) <= MediaKeys(p.groups[i].value)
    requires Objects(Entry(p.groups[i].key, h)) <= Objects(p.groups[i])
    requires Charge(Entry(p.groups[i].key, h)) <= Charge(p.groups[i])
    ensures PendingInv(Pending(Kept(p.groups, i, h), p.retiredThrough, NO_STATS))
  {
    SuffixShape(p.groups, i, h);
    SuffixBudget(p.groups, i, h);
    var left := Kept(p.groups, i, h);
    forall j, k | 0 <= j < |left| && k in MediaKeys(left[j].value)
      ensures p.retiredThrough.Some? ==> p.retiredThrough.value < k
    {
      if j > 0 { assert left[j] == p.groups[i + j]; }
    }
  }

  /** The groups from `i` on, with `h` in place of the first. */
  function Kept(groups: seq<Entry<Group>>, i: nat, h: Group): seq<Entry<Group>>
    requires i < |groups|
  {
    [Entry(groups[i].key, h)] + groups[i + 1..]
  }

  lemma SuffixShape(groups: seq<Entry<Group>>, i: nat, h: Group)
    requires Shape(groups) && i < |groups| && GroupOk(h)
    requires MediaKeys(h) <= MediaKeys(groups[i].value)
    ensures Shape(Kept(groups, i, h))
  {
    var suffix := groups[i..];
    ShapeSuffix(groups, i);
    forall j | 1 <= j < |suffix| ensures MediaKeys(h) !! MediaKeys(suffix[j].value) {
      assert MediaKeys(suffix[0].value) !! MediaKeys(suffix[j].value);
    }
    ShapeUpdate(suffix, 0, h);
    assert suffix[0 := Entry(suffix[0].key, h)] == Kept(groups, i, h);
  }

  lemma SuffixBudget(groups: seq<Entry<Group>>, i: nat, h: Group)
    requires WithinBudget(groups) && i < |groups|
    requires Objects(Entry(groups[i].key, h)) <= Objects(groups[i])
    requires Charge(Entry(groups[i].key, h)) <= Charge(groups[i])
    ensures WithinBudget(Kept(groups, i, h))
  {
    var suffix := groups[i..];
    BudgetSuffix(groups, i);
    BudgetUpdate(suffix, 0, Entry(groups[i].key, h));
    assert suffix[0 := Entry(groups[i].key, h)] == Kept(groups, i, h);
  }

  lemma TakeNextInv(p: Pending, next: nat, now: nat)
    requires PendingInv(p)
    ensures var (q, action) := TakeNext(p, next, now);
            PendingInv(q) && (action.Forward? ==> action.stats.Consistent())
  {
    var n := NextPacket(p, next, now);
    if n.ReadyAt? {
      DiscardedPrefix(p, n.index);
      if n.isConfig {
        TakeConfigInv(p, n.index);
      } else {
        TakeDatagramInv(p, n.index);
      }
    }
  }

  lemma DiscardedPrefix(p: Pending, i: nat)
    requires Shape(p.groups) && i <= |p.groups|
    ensures Total(p.groups[..i], GroupDiscarded).Consistent()
  {
    forall d | d in p.groups[..i] ensures GroupDiscarded(d).Consistent() {
      var j :| 0 <= j < i && p.groups[j] == d;
      DiscardedConsistent(d.value);
    }
    TotalConsistent(p.groups[..i], GroupDiscarded);
  }

  lemma TakeConfigInv(p: Pending, i: nat)
    requires PendingInv(p) && i < |p.groups| && p.groups[i].value.config.Ready?
    requires Total(p.groups[..i], GroupDiscarded).Consistent()
    ensures var (q, action) := TakeConfig(p, i);
            PendingInv(q) && action.stats.Consistent()
  {
    SuffixInv(p, i, p.groups[i].value.(config := Sent));
  }

  lemma TakeDatagramInv(p: Pending, i: nat)
    requires PendingInv(p) && i < |p.groups| && p.groups[i].value.datagrams != []
    requires Total(p.groups[..i], GroupDiscarded).Consistent()
    ensures var (q, action) := TakeDatagram(p, i);
            PendingInv(q) && action.stats.Consistent()
  {
    var e := p.groups[i];
    var d := e.value.datagrams[0];
    PopFrontOk(e.value, true);
    PopFrontCharge(e, true);
    var popped := e.value.(datagrams := e.value.datagrams[1..]);
    assert popped == PopFront(e.value, true).0;
    DropExpiredOk(popped, d.key);
    SuffixInv(p, i, DropExpired(popped, d.key).0);
  }
}
