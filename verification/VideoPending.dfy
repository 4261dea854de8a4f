/** All pending groups of the video receiver: admission, retirement, insertion and the choice
    of the next packet (kyproto/src/protocol/driver/av/video_unreliable_fec.rs). */
module VideoPending {
  import opened Wrappers
  import opened SortedVec
  import opened AvPacket
  import opened Fec
  import opened VideoGroup

  /** Milliseconds a completed packet may wait for the ones before it. */
  const MAX_BUFFERING: nat := 50

  datatype Pending = Pending(groups: seq<Entry<Group>>, retiredThrough: Option<nat>, retired: FecStats)

  const EMPTY: Pending := Pending([], None, NO_STATS)

  // ----- Admission

  function CheckCapacity(p: Pending, additional: nat): Result<(), Error> {
    CheckPending(Sum(p.groups, Objects), Sum(p.groups, Charge), additional, MAX_VIDEO_PAYLOAD)
  }

  datatype Place = Place(index: nat, isDatagram: bool, sn: nat, instant: nat)

  function Older(oldest: Option<Place>, place: Place): Option<Place> {
    if oldest.None? || place.sn < oldest.value.sn then Some(place) else oldest
  }

  function Consider(oldest: Option<Place>, index: nat, g: Group): Option<Place> {
    var o := if g.segments == [] then oldest
             else Older(oldest, Place(index, false, g.segments[0].key, g.segments[0].value.created));
    if g.datagrams == [] then o
    else Older(o, Place(index, true, g.datagrams[0].key, g.datagrams[0].value.instant))
  }

  /** The pending media object with the lowest sequence, found from the fronts of the vectors. */
  function Oldest(groups: seq<Entry<Group>>): (r: Option<Place>)
    ensures r.Some? ==> r.value.index < |groups|
    ensures r.Some? && r.value.isDatagram ==> groups[r.value.index].value.datagrams != []
    ensures r.Some? && !r.value.isDatagram ==> groups[r.value.index].value.segments != []
  {
    if groups == [] then None
    else
      var last := |groups| - 1;
      Consider(Oldest(groups[..last]), last, groups[last].value)
  }

  function Max(a: nat, b: nat): nat { if a <= b then b else a }

  function PopFront(g: Group, isDatagram: bool): (Group, FecStats)
    requires if isDatagram then g.datagrams != [] else g.segments != []
  {
    if isDatagram then (g.(datagrams := g.datagrams[1..]), g.datagrams[0].value.stats)
    else (g.(segments := g.segments[1..]), SegmentsStats(g.segments[0].value))
  }

  function RetireAt(p: Pending, place: Place): Pending
    requires place.index < |p.groups|
    requires var g := p.groups[place.index].value;
             if place.isDatagram then g.datagrams != [] else g.segments != []
  {
    var (g, stats) := PopFront(p.groups[place.index].value, place.isDatagram);
    var through := if p.retiredThrough.None? then place.sn else Max(p.retiredThrough.value, place.sn);
    var groups := if g.config.NoConfig? && !Holds(g) then RemoveAt(p.groups, place.index)
                  else p.groups[place.index := p.groups[place.index].(value := g)];
    Pending(groups, Some(through), p.retired.Add(stats))
  }

  /** Retires the lowest-numbered media object if it has waited out the reorder window. */
  function RetireOldest(p: Pending, now: nat): Option<Pending> {
    match Oldest(p.groups)
    case None => None
    case Some(place) =>
      if place.instant + MAX_BUFFERING > now then None else Some(RetireAt(p, place))
  }

  function MediaCount(e: Entry<Group>): nat { |e.value.segments| + |e.value.datagrams| }

  lemma RetireShrinks(p: Pending, now: nat)
    requires RetireOldest(p, now).Some?
    ensures Sum(RetireOldest(p, now).value.groups, MediaCount) < Sum(p.groups, MediaCount)
  {
    var place := Oldest(p.groups).value;
    var e := p.groups[place.index];
    var (g, stats) := PopFront(e.value, place.isDatagram);
    SumRemove(p.groups, place.index, MediaCount);
    SumUpdate(p.groups, place.index, e.(value := g), MediaCount);
  }

  function Admit(p: Pending, additional: nat, now: nat): (Pending, Result<(), Error>)
    decreases Sum(p.groups, MediaCount)
  {
    match CheckCapacity(p, additional)
    case Ok(_) => (p, Ok(()))
    case Err(e) =>
      match RetireOldest(p, now)
      case None => (p, Err(e))
      case Some(q) => RetireShrinks(p, now); Admit(q, additional, now)
  }

  // ----- Insertion

  function PrepareGroup(p: Pending, group: nat): (r: (Pending, Result<nat, Error>))
    ensures r.1.Ok? ==> r.1.value < |r.0.groups| && r.0.groups[r.1.value].key == group
  {
    var i := Search(p.groups, group);
    if i < |p.groups| && p.groups[i].key == group then (p, Ok(i))
    else if |p.groups| >= MAX_PENDING_GROUPS then (p, Err(TooManyGroups))
    else (p.(groups := InsertAt(p.groups, i, Entry(group, EMPTY_GROUP))), Ok(i))
  }

  function InsertStream(p: Pending, group: nat, sn: nat, packet: Packet, now: nat): (Pending, Result<(), Error>) {
    if !packet.Media? || !packet.media.isConfig then (p, Err(ExpectedConfig))
    else
      var (q, admitted) := Admit(p, |packet.payload|, now);
      if admitted.Err? then (q, admitted)
      else
        var (q, index) := PrepareGroup(q, group);
        match index
        case Err(e) => (q, Err(e))
        case Ok(i) =>
          var g := q.groups[i].value;
          if !g.config.NoConfig? then (q, Err(DuplicateConfig))
          else (q.(groups := q.groups[i := Entry(group, g.(config := Ready(sn, packet)))]), Ok(()))
  }

  predicate Retired(p: Pending, sn: nat) {
    p.retiredThrough.Some? && sn <= p.retiredThrough.value
  }

  predicate InOtherGroup(groups: seq<Entry<Group>>, group: nat, sn: nat) {
    exists i :: 0 <= i < |groups| && groups[i].key != group && Contains(groups[i].value, sn)
  }

  predicate InOwnGroup(groups: seq<Entry<Group>>, group: nat, sn: nat) {
    exists i :: 0 <= i < |groups| && groups[i].key == group && Contains(groups[i].value, sn)
  }

  /** The insertion once the object is admitted: the group is looked up again, because
      admission may have removed groups. */
  function InsertAdmitted(solver: Solver, p: Pending, group: nat, sn: nat, oti: Oti, id: SymbolId, data: Bytes,
                          at: Instants): (Pending, Result<(), Error>)
  {
    var (q, index) := PrepareGroup(p, group);
    match index
    case Err(e) => (q, Err(e))
    case Ok(i) =>
      var (g, r) := InsertSymbol(solver, q.groups[i].value, sn, oti, id, data, at);
      (q.(groups := q.groups[i := Entry(group, g)]), r)
  }

  function InsertDatagram(solver: Solver, p: Pending, group: nat, sn: nat, oti: Oti, id: SymbolId, data: Bytes,
                          at: Instants): (Pending, Result<(), Error>)
  {
    match ValidateOti(oti, MAX_VIDEO_PAYLOAD)
    case Err(e) => (p, Err(e))
    case Ok(_) =>
      if Retired(p, sn) then (p, Ok(()))
      else if InOtherGroup(p.groups, group, sn) then (p, Err(GroupChanged))
      else if InOwnGroup(p.groups, group, sn) then InsertAdmitted(solver, p, group, sn, oti, id, data, at)
      else
        var (q, admitted) := Admit(p, Reservation(oti), at.admitted);
        if admitted.Err? then (q, admitted)
        else if Retired(q, sn) then (q, Ok(()))
        else InsertAdmitted(solver, q, group, sn, oti, id, data, at)
  }

  // ----- The next packet

  function MinOf(a: Option<nat>, b: nat): Option<nat> {
    if a.Some? && a.value <= b then a else Some(b)
  }

  function MinDatagram(ds: seq<Entry<Datagram>>, acc: Option<nat>): Option<nat> {
    if ds == [] then acc else MinDatagram(ds[1..], MinOf(acc, ds[0].value.instant))
  }

  function MinInstantFrom(groups: seq<Entry<Group>>, acc: Option<nat>): Option<nat> {
    if groups == [] then acc else MinInstantFrom(groups[1..], MinDatagram(groups[0].value.datagrams, acc))
  }

  function MinInstant(p: Pending): Option<nat> {
    MinInstantFrom(p.groups, None)
  }

  datatype Next = Nothing | ReadyAt(index: nat, isConfig: bool) | Deadline(instant: nat)

  /** What one group offers; `Nothing` passes on to the next group. */
  function GroupOffer(p: Pending, index: nat, next: nat, now: nat): Next
    requires index < |p.groups|
  {
    var g := p.groups[index].value;
    if g.config.NoConfig? then Nothing
    else if g.config.Ready? && g.config.sn == next then ReadyAt(index, true)
    else if g.datagrams == [] then Nothing
    else if g.datagrams[0].key == next then ReadyAt(index, g.config.Ready?)
    else
      match MinInstant(p)
      case None => Nothing
      case Some(min) =>
        if min + MAX_BUFFERING <= now then ReadyAt(index, g.config.Ready?) else Deadline(min + MAX_BUFFERING)
  }

  function NextFrom(p: Pending, index: nat, next: nat, now: nat): (r: Next)
    requires index <= |p.groups|
    ensures r.ReadyAt? ==> index <= r.index < |p.groups| && GroupOffer(p, r.index, next, now) == r
    ensures r.ReadyAt? ==> forall i | index <= i < r.index :: GroupOffer(p, i, next, now).Nothing?
    ensures r.Nothing? ==> forall i | index <= i < |p.groups| :: GroupOffer(p, i, next, now).Nothing?
    decreases |p.groups| - index
  {
    if index == |p.groups| then Nothing
    else
      var offer := GroupOffer(p, index, next, now);
      if offer.Nothing? then NextFrom(p, index + 1, next, now) else offer
  }

  function NextPacket(p: Pending, next: nat, now: nat): Next {
    NextFrom(p, 0, next, now)
  }

  /** `group` is not part of the source's action; it records where the packet came from. */
  datatype Action = NoAction | WaitUntil(instant: nat) | Forward(group: nat, sn: nat, packet: Packet, stats: FecStats)

  function GroupDiscarded(e: Entry<Group>): FecStats { DiscardedStats(e.value) }

  function TakeConfig(p: Pending, index: nat): (Pending, Action)
    requires index < |p.groups| && p.groups[index].value.config.Ready?
  {
    var e := p.groups[index];
    var stats := p.retired.Add(Total(p.groups[..index], GroupDiscarded));
    (Pending([e.(value := e.value.(config := Sent))] + p.groups[index + 1..], p.retiredThrough, NO_STATS),
     Forward(e.key, e.value.config.sn, e.value.config.packet, stats))
  }

  function TakeDatagram(p: Pending, index: nat): (Pending, Action)
    requires index < |p.groups| && p.groups[index].value.datagrams != []
  {
    var e := p.groups[index];
    var d := e.value.datagrams[0];
    var (g, expired) := DropExpired(e.value.(datagrams := e.value.datagrams[1..]), d.key);
    var stats := p.retired.Add(Total(p.groups[..index], GroupDiscarded)).Add(expired).Add(d.value.stats);
    (Pending([e.(value := g)] + p.groups[index + 1..], p.retiredThrough, NO_STATS),
     Forward(e.key, d.key, d.value.packet, stats))
  }

  function TakeNext(p: Pending, next: nat, now: nat): (Pending, Action) {
    match NextPacket(p, next, now)
    case Nothing => (p, NoAction)
    case Deadline(instant) => (p, WaitUntil(instant))
    case ReadyAt(index, isConfig) =>
      if isConfig then TakeConfig(p, index) else TakeDatagram(p, index)
  }
}
