/** The receive buffer as the simple thing it stands for: for every group and packet number an object
    that is open or completed, or nothing. What each operation does to it, exactly. */
module VideoObjects {
  import opened Wrappers
  import opened SortedVec
  import opened AvPacket
  import opened Fec
  import opened VideoGroup
  import opened VideoPending
  import opened VideoInvariant
  import opened VideoAdmission
  import opened VideoCounts
  import opened VideoExact

  /** Open: its symbols so far and when the first one came. Done: the packet, and when it was
      completed. */
  datatype Object =
    | Open(oti: Oti, symbols: map<SymbolId, Bytes>, created: nat)
    | Done(oti: Oti, packet: Packet, instant: nat, stats: FecStats)

  function ObjectIn(g: Group, k: nat): Option<Object> {
    match At(g.datagrams, k)
    case Some(d) => Some(Done(d.oti, d.packet, d.instant, d.stats))
    case None =>
      match At(g.segments, k)
      case Some(s) => Some(Open(s.decoder.oti, s.decoder.received, s.created))
      case None => None
  }

  function ObjectAt(p: Pending, group: nat, k: nat): Option<Object> {
    ObjectIn(Lookup(p.groups, group), k)
  }

  function ConfigAt(p: Pending, group: nat): Config {
    Lookup(p.groups, group).config
  }

  // ----- What a symbol does to its object

  /** The counts of a completed object: its source symbols, those that never came, none unrecovered. */
  ghost function DoneStats(oti: Oti, symbols: map<SymbolId, Bytes>): FecStats {
    var ids := SourceIds(oti, oti.blocks);
    FecStats(|ids|, |ids - symbols.Keys|, 0)
  }

  /** What a symbol may make of an object: nothing new of a completed one, or of one that has the
      symbol; otherwise one symbol more, and a packet once the solver gives one. */
  ghost predicate Becomes(solver: Solver, was: Option<Object>, oti: Oti, id: SymbolId, data: Bytes, at: Instants,
                          now: Object)
  {
    match was
    case Some(Done(_, _, _, _)) => now == was.value && was.value.oti == oti
    case Some(Open(o, symbols, created)) => o == oti && BecomesFrom(solver, oti, symbols, created, id, data, at, now)
    case None => BecomesFrom(solver, oti, map[], at.created, id, data, at, now)
  }

  ghost predicate BecomesFrom(solver: Solver, oti: Oti, symbols: map<SymbolId, Bytes>, created: nat, id: SymbolId,
                              data: Bytes, at: Instants, now: Object)
  {
    if id in symbols then now == Open(oti, symbols, created)
    else
      var more := symbols[id := data];
      match solver(oti, more)
      case None => now == Open(oti, more, created)
      case Some(bytes) =>
        MediaPacket(bytes).Ok? && now == Done(oti, MediaPacket(bytes).value, at.assembled, DoneStats(oti, more))
  }

  lemma CompletedStats(s: Segments, bytes: Bytes)
    requires DecoderOk(s.decoder)
    ensures SegmentsStats(s.(assembled := Some(bytes))) == DoneStats(s.decoder.oti, s.decoder.received)
  {
    CountsAreExact(s.(assembled := Some(bytes)));
  }

  lemma OpenIn(g: Group, k: nat)
    requires GroupOk(g) && Has(g.segments, k)
    ensures !Has(g.datagrams, k)
  {
    HasIffKey(g.segments, k);
    HasIffKey(g.datagrams, k);
  }

  /** A symbol goes to the open object of its number and to no other. */
  lemma FeedObject(solver: Solver, g: Group, sn: nat, oti: Oti, id: SymbolId, data: Bytes, at: Instants, k: nat)
    requires GroupOk(g) && Has(g.segments, sn) && !Has(g.datagrams, sn)
    ensures var (h, r) := FeedSegments(solver, g, sn, oti, id, data, at.assembled);
            var s := g.segments[Search(g.segments, sn)].value;
            r.Ok? ==>
              && s.decoder.oti == oti
              && (k != sn ==> ObjectIn(h, k) == ObjectIn(g, k))
              && ObjectIn(h, sn).Some?
              && BecomesFrom(solver, oti, s.decoder.received, s.created, id, data, at, ObjectIn(h, sn).value)
  {
    var i := Search(g.segments, sn);
    var s := g.segments[i].value;
    var (decoder, fed) := Decode(solver, s.decoder, oti, id, data);
    DecodeKeepsInv(solver, s.decoder, oti, id, data);
    if fed.Ok? {
      var seg := s.(decoder := decoder, assembled := fed.value);
      match fed.value
      case None => StillOpen(g, sn, seg, k);
      case Some(bytes) =>
        CompletedStats(s.(decoder := decoder), bytes);
        var d := Assemble(seg, at.assembled);
        if d.Ok? {
          NowDone(g, sn, d.value, k);
        }
    }
  }

  lemma StillOpen(g: Group, sn: nat, seg: Segments, k: nat)
    requires GroupOk(g) && Has(g.segments, sn) && !Has(g.datagrams, sn)
    ensures var h := g.(segments := g.segments[Search(g.segments, sn) := Entry(sn, seg)]);
            && (k != sn ==> ObjectIn(h, k) == ObjectIn(g, k))
            && ObjectIn(h, sn) == Some(Open(seg.decoder.oti, seg.decoder.received, seg.created))
  {
    AtUpdate(g.segments, Search(g.segments, sn), seg, k);
    AtUpdate(g.segments, Search(g.segments, sn), seg, sn);
  }

  lemma NowDone(g: Group, sn: nat, d: Datagram, k: nat)
    requires GroupOk(g) && Has(g.segments, sn) && !Has(g.datagrams, sn)
    ensures var h := InsertPacket(g.(segments := RemoveAt(g.segments, Search(g.segments, sn))), sn, d);
            && (k != sn ==> ObjectIn(h, k) == ObjectIn(g, k))
            && ObjectIn(h, sn) == Some(Done(d.oti, d.packet, d.instant, d.stats))
  {
    AtRemove(g.segments, Search(g.segments, sn), k);
    AtInsert(g.datagrams, Entry(sn, d), k);
    AtInsert(g.datagrams, Entry(sn, d), sn);
  }

  lemma OpenedObject(g: Group, sn: nat, oti: Oti, created: nat, k: nat)
    requires GroupOk(g) && !Has(g.datagrams, sn) && !Has(g.segments, sn)
    ensures var e := Entry(sn, Segments(NewDecoder(oti), None, created));
            var h := g.(segments := InsertAt(g.segments, Search(g.segments, sn), e));
            && Has(h.segments, sn) && h.segments[Search(h.segments, sn)] == e
            && (k != sn ==> ObjectIn(h, k) == ObjectIn(g, k)) && ObjectIn(g, sn).None?
  {
    var e := Entry(sn, Segments(NewDecoder(oti), None, created));
    AtInsert(g.segments, e, k);
    AtInsert(g.segments, e, sn);
    SearchInserted(g.segments, e);
  }

  lemma InsertSymbolObject(solver: Solver, g: Group, sn: nat, oti: Oti, id: SymbolId, data: Bytes, at: Instants, k: nat)
    requires GroupOk(g) && ValidOti(oti, MAX_VIDEO_PAYLOAD)
    ensures var (h, r) := InsertSymbol(solver, g, sn, oti, id, data, at);
            r.Ok? ==>
              && (k != sn ==> ObjectIn(h, k) == ObjectIn(g, k))
              && ObjectIn(h, sn).Some?
              && Becomes(solver, ObjectIn(g, sn), oti, id, data, at, ObjectIn(h, sn).value)
  {
    if Has(g.datagrams, sn) {
    } else if Has(g.segments, sn) {
      FeedObject(solver, g, sn, oti, id, data, at, k);
    } else {
      FirstSymbolObject(solver, g, sn, oti, id, data, at, k);
    }
  }

  lemma FirstSymbolObject(solver: Solver, g: Group, sn: nat, oti: Oti, id: SymbolId, data: Bytes, at: Instants, k: nat)
    requires GroupOk(g) && ValidOti(oti, MAX_VIDEO_PAYLOAD) && !Has(g.datagrams, sn) && !Has(g.segments, sn)
    ensures var (h, r) := InsertSymbol(solver, g, sn, oti, id, data, at);
            r.Ok? ==>
              && (k != sn ==> ObjectIn(h, k) == ObjectIn(g, k))
              && ObjectIn(h, sn).Some?
              && BecomesFrom(solver, oti, map[], at.created, id, data, at, ObjectIn(h, sn).value)
  {
    PrepareSegmentsOk(g, sn, oti, at.created);
    var prepared := PrepareSegments(g, sn, oti, at.created).value;
    OpenedObject(g, sn, oti, at.created, k);
    FeedObject(solver, prepared, sn, oti, id, data, at, k);
  }

  // ----- Retirement

  lemma AtKeepAbove<T>(xs: seq<Entry<T>>, t: nat, k: nat)
    requires Sorted(xs) && Sorted(KeepAbove(xs, t))
    ensures At(KeepAbove(xs, t), k) == if k <= t then None else At(xs, k)
  {
    KeepAboveKeys(xs, t);
    if k <= t {
      HasIffKey(KeepAbove(xs, t), k);
    } else {
      AtSame(xs, KeepAbove(xs, t), k);
    }
  }

  lemma {:induction false} KeepAboveSorted<T>(xs: seq<Entry<T>>, t: nat)
    requires Sorted(xs)
    ensures Sorted(KeepAbove(xs, t))
  {
    if xs != [] {
      KeepAboveSorted(xs[1..], t);
      if t < xs[0].key {
        FirstIsLeast(xs);
        KeepAboveLater(xs[0], xs[1..], t);
        FirstSorted(xs[0], KeepAbove(xs[1..], t));
      }
    }
  }

  lemma KeepAboveLater<T>(e: Entry<T>, xs: seq<Entry<T>>, t: nat)
    requires forall x | x in xs :: e.key < x.key
    ensures forall x | x in KeepAbove(xs, t) :: e.key < x.key
  {
    KeepAboveKeys(xs, t);
  }

  lemma FirstIsLeast<T>(xs: seq<Entry<T>>)
    requires Sorted(xs) && xs != []
    ensures forall x | x in xs[1..] :: xs[0].key < x.key
  {
    forall x | x in xs[1..] ensures xs[0].key < x.key {
      var i :| 0 <= i < |xs[1..]| && xs[1..][i] == x;
      assert xs[i + 1] == x;
    }
  }

  lemma FirstSorted<T>(e: Entry<T>, xs: seq<Entry<T>>)
    requires Sorted(xs) && forall x | x in xs :: e.key < x.key
    ensures Sorted([e] + xs)
  {
    var all := [e] + xs;
    forall i, j | 0 <= i < j < |all| ensures all[i].key < all[j].key {
      assert all[j] == xs[j - 1] && xs[j - 1] in xs;
    }
  }

  lemma AboveObject(g: Group, t: nat, k: nat)
    requires GroupOk(g)
    ensures ObjectIn(GroupAbove(g, t), k) == if k <= t then None else ObjectIn(g, k)
  {
    KeepAboveSorted(g.datagrams, t);
    KeepAboveSorted(g.segments, t);
    AtKeepAbove(g.datagrams, t, k);
    AtKeepAbove(g.segments, t, k);
  }

  lemma AtFirst<T>(e: Entry<T>, xs: seq<Entry<T>>, x: nat)
    requires forall y | y in xs :: e.key < y.key
    ensures At([e] + xs, x) == if x == e.key then Some(e.value) else At(xs, x)
  {
    var all := [e] + xs;
    assert all[1..] == xs;
    if x <= e.key {
      if xs != [] { assert xs[0] in xs; }
      assert Search(xs, x) == 0;
    }
  }

  lemma {:induction false} RetireThroughMembers(groups: seq<Entry<Group>>, t: nat)
    ensures forall e | e in RetireThrough(groups, t) :: exists g :: Entry(e.key, g) in groups
  {
    if groups != [] {
      RetireThroughMembers(groups[1..], t);
      assert Entry(groups[0].key, groups[0].value) in groups;
      forall e | e in RetireThrough(groups[1..], t) ensures exists g :: Entry(e.key, g) in groups {
        var g :| Entry(e.key, g) in groups[1..];
        assert Entry(e.key, g) in groups;
      }
    }
  }

  lemma LookupFirst(e: Entry<Group>, xs: seq<Entry<Group>>, x: nat)
    requires forall y | y in xs :: e.key < y.key
    ensures Lookup([e] + xs, x) == if x == e.key then e.value else Lookup(xs, x)
  {
    AtFirst(e, xs, x);
  }

  lemma LaterRetired(e: Entry<Group>, rest: seq<Entry<Group>>, t: nat)
    requires forall y | y in rest :: e.key < y.key
    ensures forall y | y in RetireThrough(rest, t) :: e.key < y.key
  {
    RetireThroughMembers(rest, t);
    forall y | y in RetireThrough(rest, t) ensures e.key < y.key {
      var g :| Entry(y.key, g) in rest;
    }
  }

  lemma NotAmong(groups: seq<Entry<Group>>, x: nat)
    requires forall e | e in groups :: x < e.key
    ensures Lookup(groups, x) == EMPTY_GROUP
  {
    if groups != [] { assert groups[0] in groups; }
  }

  lemma VacatedIsEmpty(g: Group, t: nat)
    requires Vacated(g, t)
    ensures GroupAbove(g, t) == EMPTY_GROUP
  {
  }

  /** A group after retirement through `t`, looked up, is the group without what was retired. */
  lemma {:induction false} LookupRetired(groups: seq<Entry<Group>>, t: nat, x: nat)
    requires Sorted(groups)
    ensures Lookup(RetireThrough(groups, t), x) == GroupAbove(Lookup(groups, x), t)
  {
    if groups != [] {
      var e, rest := groups[0], groups[1..];
      LookupRetired(rest, t, x);
      assert groups == [e] + rest;
      FirstIsLeast(groups);
      LookupFirst(e, rest, x);
      LaterRetired(e, rest, t);
      FirstRetired(e, rest, t, x);
    }
  }

  lemma FirstRetired(e: Entry<Group>, rest: seq<Entry<Group>>, t: nat, x: nat)
    requires forall y | y in RetireThrough(rest, t) :: e.key < y.key
    ensures Lookup(RetireThrough([e] + rest, t), x) ==
            if x == e.key then GroupAbove(e.value, t) else Lookup(RetireThrough(rest, t), x)
  {
    assert ([e] + rest)[1..] == rest;
    if Vacated(e.value, t) {
      VacatedIsEmpty(e.value, t);
      if x == e.key { NotAmong(RetireThrough(rest, t), x); }
    } else {
      LookupFirst(Entry(e.key, GroupAbove(e.value, t)), RetireThrough(rest, t), x);
    }
  }

  /** Admission takes away exactly what is at or below the new frontier. */
  lemma AdmitObjects(p: Pending, additional: nat, now: nat, group: nat, k: nat)
    requires PendingInv(p)
    ensures var q := Admit(p, additional, now).0;
            && ObjectAt(q, group, k) == (if Retired(q, k) then None else ObjectAt(p, group, k))
            && ConfigAt(q, group) == ConfigAt(p, group)
  {
    AdmitRetires(p, additional, now);
    var q := Admit(p, additional, now).0;
    if q == p {
      if Retired(p, k) { RetiredIsGone(p, group, k); }
    } else {
      LookupRetired(p.groups, q.retiredThrough.value, group);
      LookupOk(p.groups, group);
      AboveObject(Lookup(p.groups, group), q.retiredThrough.value, k);
    }
  }

  lemma PendingIff(p: Pending, group: nat, sn: nat)
    requires PendingInv(p)
    ensures InOwnGroup(p.groups, group, sn) <==> ObjectAt(p, group, sn).Some?
  {
    if InOwnGroup(p.groups, group, sn) {
      var i :| 0 <= i < |p.groups| && p.groups[i].key == group && Contains(p.groups[i].value, sn);
      LookupIndex(p.groups, i);
      InGroup(p.groups[i].value, sn);
    } else {
      NotPending(p, group, sn, Lookup(p.groups, group));
    }
  }

  lemma InGroup(g: Group, sn: nat)
    ensures Contains(g, sn) <==> ObjectIn(g, sn).Some?
  {
  }

  lemma NotPending(p: Pending, group: nat, sn: nat, g: Group)
    requires !InOwnGroup(p.groups, group, sn) && g == Lookup(p.groups, group)
    ensures ObjectIn(g, sn).None?
  {
    InGroup(g, sn);
    if g != EMPTY_GROUP {
      LookupFound(p.groups, group);
      var i :| 0 <= i < |p.groups| && p.groups[i].key == group && p.groups[i].value == g;
      assert !Contains(p.groups[i].value, sn);
    }
  }

  lemma RetiredIsGone(p: Pending, group: nat, k: nat)
    requires PendingInv(p) && Retired(p, k)
    ensures ObjectAt(p, group, k).None?
  {
    var g := Lookup(p.groups, group);
    LookupOk(p.groups, group);
    HasIffKey(g.datagrams, k);
    HasIffKey(g.segments, k);
    if g != EMPTY_GROUP {
      LookupFound(p.groups, group);
      var i :| 0 <= i < |p.groups| && p.groups[i].value == g;
      assert k !in MediaKeys(p.groups[i].value);
    }
  }

  // ----- Insertion

  lemma InsertAdmittedObjects(solver: Solver, p: Pending, group: nat, sn: nat, oti: Oti, id: SymbolId, data: Bytes,
                              at: Instants, x: nat, k: nat)
    requires PendingInv(p) && ValidOti(oti, MAX_VIDEO_PAYLOAD)
    ensures var (q, r) := InsertAdmitted(solver, p, group, sn, oti, id, data, at);
            r.Ok? ==>
              && q.retiredThrough == p.retiredThrough
              && ((x, k) != (group, sn) ==> ObjectAt(q, x, k) == ObjectAt(p, x, k))
              && ObjectAt(q, group, sn).Some?
              && Becomes(solver, ObjectAt(p, group, sn), oti, id, data, at, ObjectAt(q, group, sn).value)
              && ConfigAt(q, x) == ConfigAt(p, x)
  {
    var g := Lookup(p.groups, group);
    LookupOk(p.groups, group);
    InsertAdmittedLookup(solver, p, group, sn, oti, id, data, at, x);
    InsertAdmittedLookup(solver, p, group, sn, oti, id, data, at, group);
    InsertSymbolObject(solver, g, sn, oti, id, data, at, k);
    InsertSymbolOk(solver, g, sn, oti, id, data, at);
  }

  /** The whole effect of a symbol on the buffer, whatever was retired for it: its own object becomes
      what the symbol makes of it, what is at or below the frontier is gone, and nothing else
      changes. */
  lemma InsertDatagramObjects(solver: Solver, p: Pending, group: nat, sn: nat, oti: Oti, id: SymbolId, data: Bytes,
                              at: Instants, x: nat, k: nat)
    requires PendingInv(p) && InsertDatagram(solver, p, group, sn, oti, id, data, at).1.Ok?
    ensures var q := InsertDatagram(solver, p, group, sn, oti, id, data, at).0;
            && ValidOti(oti, MAX_VIDEO_PAYLOAD)
            && ConfigAt(q, x) == ConfigAt(p, x)
            && (Retired(q, k) ==> ObjectAt(q, x, k).None?)
            && (!Retired(q, k) && (x, k) != (group, sn) ==> ObjectAt(q, x, k) == ObjectAt(p, x, k))
            && (!Retired(q, sn) ==>
                  && ObjectAt(q, group, sn).Some?
                  && Becomes(solver, ObjectAt(p, group, sn), oti, id, data, at, ObjectAt(q, group, sn).value))
  {
    var q := InsertDatagram(solver, p, group, sn, oti, id, data, at).0;
    InsertDatagramInv(solver, p, group, sn, oti, id, data, at);
    if Retired(q, k) {
      RetiredIsGone(q, x, k);
    }
    if !Retired(p, sn) {
      if InOwnGroup(p.groups, group, sn) {
        InsertAdmittedObjects(solver, p, group, sn, oti, id, data, at, x, k);
      } else {
        AdmittedThenInserted(solver, p, group, sn, oti, id, data, at, x, k);
      }
    }
  }

  lemma AdmittedThenInserted(solver: Solver, p: Pending, group: nat, sn: nat, oti: Oti, id: SymbolId, data: Bytes,
                             at: Instants, x: nat, k: nat)
    requires PendingInv(p) && ValidOti(oti, MAX_VIDEO_PAYLOAD)
    ensures var q := Admit(p, Reservation(oti), at.admitted).0;
            var (q', r) := InsertAdmitted(solver, q, group, sn, oti, id, data, at);
            && ConfigAt(q, x) == ConfigAt(p, x)
            && (!Retired(q, k) ==> ObjectAt(q, x, k) == ObjectAt(p, x, k))
            && (r.Ok? && !Retired(q, sn) ==>
                  && q'.retiredThrough == q.retiredThrough && ConfigAt(q', x) == ConfigAt(p, x)
                  && (!Retired(q, k) && (x, k) != (group, sn) ==> ObjectAt(q', x, k) == ObjectAt(p, x, k))
                  && ObjectAt(q', group, sn).Some?
                  && Becomes(solver, ObjectAt(p, group, sn), oti, id, data, at, ObjectAt(q', group, sn).value))
  {
    AdmitInv(p, Reservation(oti), at.admitted);
    AdmitObjects(p, Reservation(oti), at.admitted, x, k);
    AdmitObjects(p, Reservation(oti), at.admitted, group, sn);
    InsertAdmittedObjects(solver, Admit(p, Reservation(oti), at.admitted).0, group, sn, oti, id, data, at, x, k);
  }

  /** The whole effect of a config: its group, which had none, has it, and what is at or below the
      frontier is gone. */
  lemma InsertStreamObjects(p: Pending, group: nat, sn: nat, packet: Packet, now: nat, x: nat, k: nat)
    requires PendingInv(p) && InsertStream(p, group, sn, packet, now).1.Ok?
    ensures var q := InsertStream(p, group, sn, packet, now).0;
            && ObjectAt(q, x, k) == (if Retired(q, k) then None else ObjectAt(p, x, k))
            && ConfigAt(p, group).NoConfig?
            && ConfigAt(q, x) == if x == group then Ready(sn, packet) else ConfigAt(p, x)
  {
    AdmitInv(p, |packet.payload|, now);
    AdmitObjects(p, |packet.payload|, now, x, k);
    AdmitObjects(p, |packet.payload|, now, group, k);
    var q := Admit(p, |packet.payload|, now).0;
    assert InsertStream(p, group, sn, packet, now).0 == WithConfig(q, group, sn, packet);
    ConfigReady(q, group, sn, packet, x, k);
  }

  function WithConfig(q: Pending, group: nat, sn: nat, packet: Packet): Pending
    requires PrepareGroup(q, group).1.Ok?
  {
    var (q1, index) := PrepareGroup(q, group);
    var g := q1.groups[index.value].value;
    q1.(groups := q1.groups[index.value := Entry(group, g.(config := Ready(sn, packet)))])
  }

  lemma ConfigReady(q: Pending, group: nat, sn: nat, packet: Packet, x: nat, k: nat)
    requires PendingInv(q) && PrepareGroup(q, group).1.Ok?
    ensures var (q1, index) := PrepareGroup(q, group);
            q1.groups[index.value].value.config == ConfigAt(q, group)
    ensures var q' := WithConfig(q, group, sn, packet);
            && q'.retiredThrough == q.retiredThrough && ObjectAt(q', x, k) == ObjectAt(q, x, k)
            && ConfigAt(q', x) == if x == group then Ready(sn, packet) else ConfigAt(q, x)
  {
    LookupPrepare(q, group, x);
    LookupPrepare(q, group, group);
    var (q1, index) := PrepareGroup(q, group);
    LookupUpdate(q1.groups, index.value, q1.groups[index.value].value.(config := Ready(sn, packet)), x);
  }

  // ----- Taking

  lemma KeptObjects(p: Pending, i: nat, h: Group, x: nat)
    requires Sorted(p.groups) && i < |p.groups|
    ensures Lookup(Kept(p.groups, i, h), x) ==
            if x < p.groups[i].key then EMPTY_GROUP else if x == p.groups[i].key then h else Lookup(p.groups, x)
  {
    var kept := Kept(p.groups, i, h);
    if x < p.groups[i].key {
      forall e | e in kept ensures x < e.key {
        var j :| 0 <= j < |kept| && kept[j] == e;
        assert j > 0 ==> kept[j] == p.groups[i + j];
      }
      NotAmong(kept, x);
    } else {
      LookupKept(p.groups, i, h, x);
    }
  }

  lemma PoppedObjects(g: Group, k: nat)
    requires GroupOk(g) && g.datagrams != []
    ensures var d := g.datagrams[0];
            var h := DropExpired(g.(datagrams := g.datagrams[1..]), d.key).0;
            ObjectIn(h, k) == if k <= d.key then None else ObjectIn(g, k)
  {
    var d := g.datagrams[0];
    var h := DropExpired(g.(datagrams := g.datagrams[1..]), d.key).0;
    if k > d.key {
      DropExpiredAt(g, k);
    } else {
      NoneBelow(g.datagrams, k);
      NoneDrained(g, k);
    }
  }

  lemma NoneBelow<T>(xs: seq<Entry<T>>, k: nat)
    requires Sorted(xs) && xs != [] && k <= xs[0].key
    ensures At(xs[1..], k).None?
  {
    FirstIsLeast(xs);
    if xs[1..] != [] { assert xs[1..][0] in xs[1..]; }
  }

  /** The number of a completed packet is not that of an open object, so nothing at or below it stays. */
  lemma NoneDrained(g: Group, k: nat)
    requires GroupOk(g) && g.datagrams != [] && k <= g.datagrams[0].key
    ensures At(g.segments[Search(g.segments, g.datagrams[0].key)..], k).None?
  {
    var d := g.datagrams[0].key;
    var i := Search(g.segments, d);
    if i < |g.segments| {
      OneSide(g, 0, i);
      assert g.segments[i..][0] == g.segments[i];
    }
  }

  lemma OneSide(g: Group, i: nat, j: nat)
    requires GroupOk(g) && i < |g.datagrams| && j < |g.segments|
    ensures g.datagrams[i].key != g.segments[j].key
  {
    assert g.datagrams[i].key in Keys(g.datagrams) && g.segments[j].key in Keys(g.segments);
  }

  /** The whole effect of a take that forwards from group `e`: earlier groups are gone; of a config,
      only that it was sent; of a packet, itself and everything below it in its group. */
  lemma TakeObjects(p: Pending, next: nat, now: nat, x: nat, k: nat)
    requires PendingInv(p) && NextPacket(p, next, now).ReadyAt?
    ensures var n := NextPacket(p, next, now);
            var (q, a) := TakeNext(p, next, now);
            if n.isConfig then ConfigWasTaken(p, q, a, p.groups[n.index].key, x, k)
            else PacketWasTaken(p, q, a, p.groups[n.index].key, x, k)
  {
    var n := NextPacket(p, next, now);
    LookupIndex(p.groups, n.index);
    if n.isConfig {
      ConfigTaken(p, n.index, x);
    } else {
      PacketTaken(p, n.index, x, k);
    }
  }

  ghost predicate ConfigWasTaken(p: Pending, q: Pending, a: Action, e: nat, x: nat, k: nat) {
    && a.Forward? && a.group == e && ConfigAt(p, e) == Ready(a.sn, a.packet)
    && ConfigAt(q, x) == (if x < e then NoConfig else if x == e then Sent else ConfigAt(p, x))
    && ObjectAt(q, x, k) == (if x < e then None else ObjectAt(p, x, k))
  }

  ghost predicate PacketWasTaken(p: Pending, q: Pending, a: Action, e: nat, x: nat, k: nat) {
    && a.Forward? && a.group == e
    && ObjectAt(p, e, a.sn).Some? && ObjectAt(p, e, a.sn).value.Done? && ObjectAt(p, e, a.sn).value.packet == a.packet
    && ConfigAt(q, x) == (if x < e then NoConfig else ConfigAt(p, x))
    && ObjectAt(q, x, k) == (if x < e || (x == e && k <= a.sn) then None else ObjectAt(p, x, k))
  }

  lemma ConfigTaken(p: Pending, i: nat, x: nat)
    requires PendingInv(p) && i < |p.groups| && p.groups[i].value.config.Ready?
    ensures var e := p.groups[i];
            Lookup(TakeConfig(p, i).0.groups, x) ==
            if x < e.key then EMPTY_GROUP else if x == e.key then e.value.(config := Sent) else Lookup(p.groups, x)
  {
    var h := p.groups[i].value.(config := Sent);
    assert TakeConfig(p, i).0.groups == Kept(p.groups, i, h);
    KeptObjects(p, i, h, x);
  }

  lemma PacketTaken(p: Pending, i: nat, x: nat, k: nat)
    requires PendingInv(p) && i < |p.groups| && p.groups[i].value.datagrams != []
    ensures var e := p.groups[i];
            var d := e.value.datagrams[0];
            var q := TakeDatagram(p, i).0;
            && ConfigAt(q, x) == (if x < e.key then NoConfig else if x == e.key then e.value.config else ConfigAt(p, x))
            && ObjectAt(q, x, k) == (if x < e.key || (x == e.key && k <= d.key) then None
                                     else if x == e.key then ObjectIn(e.value, k) else ObjectAt(p, x, k))
            && ObjectIn(e.value, d.key) == Some(Done(d.value.oti, d.value.packet, d.value.instant, d.value.stats))
  {
    var e := p.groups[i];
    var d := e.value.datagrams[0];
    var h := DropExpired(e.value.(datagrams := e.value.datagrams[1..]), d.key).0;
    assert TakeDatagram(p, i).0.groups == Kept(p.groups, i, h);
    KeptObjects(p, i, h, x);
    PoppedObjects(e.value, k);
    AtMember(e.value.datagrams, d.key, d.value);
    assert d in e.value.datagrams;
  }
}
