/** One pending group of the video receiver: its config, its reassembled packets and its
    incomplete objects (kyproto/src/protocol/driver/av/video_unreliable_fec.rs). */
module VideoGroup {
  import opened Wrappers
  import opened SortedVec
  import opened AvPacket
  import opened Fec

  datatype FecStats = FecStats(source: nat, missing: nat, unrecovered: nat) {
    function Add(other: FecStats): FecStats {
      FecStats(source + other.source, missing + other.missing, unrecovered + other.unrecovered)
    }

    /** Residual loss is part of the loss, and the loss part of the whole. */
    predicate Consistent() {
      unrecovered <= missing <= source
    }
  }

  const NO_STATS: FecStats := FecStats(0, 0, 0)

  function Total<T>(xs: seq<T>, f: T -> FecStats): FecStats {
    if xs == [] then NO_STATS else f(xs[0]).Add(Total(xs[1..], f))
  }

  /** An incomplete object; `created` is when its first symbol arrived. */
  datatype Segments = Segments(decoder: Decoder, assembled: Option<Bytes>, created: nat)

  /** A reassembled packet; `instant` is when it was completed. */
  datatype Datagram = Datagram(oti: Oti, packet: Packet, instant: nat, stats: FecStats)

  datatype Config = NoConfig | Ready(sn: nat, packet: Packet) | Sent

  datatype Group = Group(config: Config, datagrams: seq<Entry<Datagram>>, segments: seq<Entry<Segments>>)

  /** The clock readings of one insertion, in the order they are taken. */
  datatype Instants = Instants(admitted: nat, created: nat, assembled: nat)

  const EMPTY_GROUP: Group := Group(NoConfig, [], [])

  predicate Contains(g: Group, sn: nat) {
    Has(g.segments, sn) || Has(g.datagrams, sn)
  }

  predicate Holds(g: Group) {
    g.segments != [] || g.datagrams != []
  }

  // ----- Budget charge

  function SegmentsCharge(e: Entry<Segments>): nat { Reservation(e.value.decoder.oti) }

  function DatagramCharge(e: Entry<Datagram>): nat { Reservation(e.value.oti) }

  function ConfigObjects(c: Config): nat {
    if c.Ready? && c.packet.Media? then 1 else 0
  }

  function ConfigBytes(c: Config): nat {
    if c.Ready? && c.packet.Media? then |c.packet.payload| else 0
  }

  function Objects(e: Entry<Group>): nat {
    |e.value.segments| + |e.value.datagrams| + ConfigObjects(e.value.config)
  }

  function Charge(e: Entry<Group>): nat {
    Sum(e.value.segments, SegmentsCharge) + Sum(e.value.datagrams, DatagramCharge) + ConfigBytes(e.value.config)
  }

  // ----- FEC accounting

  function SegmentsStats(s: Segments): FecStats {
    var source := SourceSymbols(s.decoder.oti);
    var received := s.decoder.receivedSources;
    var missing := if received <= source then source - received else 0;
    FecStats(source, missing, if s.assembled.Some? then 0 else missing)
  }

  function EntryStats(e: Entry<Segments>): FecStats { SegmentsStats(e.value) }

  function DatagramStats(e: Entry<Datagram>): FecStats { e.value.stats }

  function DiscardedStats(g: Group): FecStats {
    Total(g.datagrams, DatagramStats).Add(Total(g.segments, EntryStats))
  }

  // ----- Inserting one symbol

  function NewSegments(oti: Oti, now: nat): Result<Segments, Error> {
    match ValidateOti(oti, MAX_VIDEO_PAYLOAD)
    case Err(e) => Err(e)
    case Ok(_) => Ok(Segments(NewDecoder(oti), None, now))
  }

  /** Opens the object if this is its first symbol. */
  function PrepareSegments(g: Group, sn: nat, oti: Oti, now: nat): (r: Result<Group, Error>)
    ensures r.Ok? ==> Has(r.value.segments, sn)
    ensures r.Ok? && Has(g.segments, sn) ==> r.value == g
  {
    if Has(g.segments, sn) then Ok(g)
    else
      match NewSegments(oti, now)
      case Err(e) => Err(e)
      case Ok(s) =>
        var i := Search(g.segments, sn);
        var segments := InsertAt(g.segments, i, Entry(sn, s));
        SearchInserted(g.segments, Entry(sn, s));
        Ok(g.(segments := segments))
  }

  function Assemble(s: Segments, now: nat): Result<Datagram, Error> {
    match s.assembled
    case None => Err(Incomplete)
    case Some(data) =>
      match MediaPacket(data)
      case Err(e) => Err(e)
      case Ok(packet) => Ok(Datagram(s.decoder.oti, packet, now, SegmentsStats(s)))
  }

  function InsertPacket(g: Group, sn: nat, d: Datagram): Group {
    if Has(g.datagrams, sn) then g
    else g.(datagrams := InsertAt(g.datagrams, Search(g.datagrams, sn), Entry(sn, d)))
  }

  /** Feeds one symbol to its open object, and moves the object over once it is complete. */
  function FeedSegments(solver: Solver, g: Group, sn: nat, oti: Oti, id: SymbolId, data: Bytes, now: nat)
    : (Group, Result<(), Error>)
    requires Has(g.segments, sn)
  {
    var i := Search(g.segments, sn);
    var s := g.segments[i].value;
    var (decoder, r) := Decode(solver, s.decoder, oti, id, data);
    match r
    case Err(e) => (g, Err(e))
    case Ok(assembled) =>
      var fed := s.(decoder := decoder, assembled := assembled);
      if assembled.None? then
        (g.(segments := g.segments[i := Entry(sn, fed)]), Ok(()))
      else
        var rest := g.(segments := RemoveAt(g.segments, i));
        match Assemble(fed, now)
        case Err(e) => (rest, Err(e))
        case Ok(d) => (InsertPacket(rest, sn, d), Ok(()))
  }

  function InsertSymbol(solver: Solver, g: Group, sn: nat, oti: Oti, id: SymbolId, data: Bytes, at: Instants)
    : (Group, Result<(), Error>)
  {
    if Has(g.datagrams, sn) then
      (g, if g.datagrams[Search(g.datagrams, sn)].value.oti != oti then Err(OtiChanged) else Ok(()))
    else
      match PrepareSegments(g, sn, oti, at.created)
      case Err(e) => (g, Err(e))
      case Ok(prepared) => FeedSegments(solver, prepared, sn, oti, id, data, at.assembled)
  }

  // ----- Giving objects up

  /** Discards the incomplete objects below `until`, with their accounting. */
  function DropExpired(g: Group, until: nat): (Group, FecStats) {
    var i := Search(g.segments, until);
    (g.(segments := g.segments[i..]), Total(g.segments[..i], EntryStats))
  }
}
