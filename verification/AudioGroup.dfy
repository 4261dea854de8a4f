/** The pending packets of the audio receiver
    (kyproto/src/protocol/driver/av/audio_unreliable_fec.rs). */
module AudioGroup {
  import opened Wrappers
  import opened SortedVec
  import opened AvPacket
  import opened Fec

  /** Milliseconds a completed packet may wait for the ones before it. */
  const MAX_BUFFERING: nat := 10

  datatype Segments = Segments(decoder: Decoder, assembled: Option<Bytes>)

  datatype Datagram = Datagram(oti: Oti, packet: Packet, instant: nat)

  datatype Config = NoConfig | Ready(sn: nat, packet: Packet) | Sent

  datatype Group = Group(config: Config, datagrams: seq<Entry<Datagram>>, segments: seq<Entry<Segments>>)

  const EMPTY: Group := Group(NoConfig, [], [])

  // ----- Insertion

  function SegmentsCharge(e: Entry<Segments>): nat { Reservation(e.value.decoder.oti) }

  function DatagramCharge(e: Entry<Datagram>): nat { Reservation(e.value.oti) }

  function CheckCapacity(g: Group, additional: nat): Result<(), Error> {
    var counted := g.config.Ready? && g.config.packet.Media?;
    CheckPending(|g.segments| + |g.datagrams| + (if counted then 1 else 0),
                 Sum(g.segments, SegmentsCharge) + Sum(g.datagrams, DatagramCharge)
                 + (if counted then |g.config.packet.payload| else 0),
                 additional, MAX_AUDIO_PAYLOAD)
  }

  function InsertStream(g: Group, sn: nat, packet: Packet): (Group, Result<(), Error>) {
    if !packet.Media? then (g, Err(ExpectedConfig))
    else if !packet.media.isConfig || !g.config.NoConfig? then (g, Err(DuplicateConfig))
    else
      match CheckCapacity(g, |packet.payload|)
      case Err(e) => (g, Err(e))
      case Ok(_) => (g.(config := Ready(sn, packet)), Ok(()))
  }

  /** Opens the object if this is its first symbol. */
  function PrepareSegments(g: Group, sn: nat, oti: Oti): (r: Result<Group, Error>)
    ensures r.Ok? ==> Has(r.value.segments, sn)
  {
    if Has(g.segments, sn) then Ok(g)
    else
      match ValidateOti(oti, MAX_AUDIO_PAYLOAD)
      case Err(e) => Err(e)
      case Ok(_) =>
        match CheckCapacity(g, Reservation(oti))
        case Err(e) => Err(e)
        case Ok(_) =>
          var e := Entry(sn, Segments(NewDecoder(oti), None));
          SearchInserted(g.segments, e);
          Ok(g.(segments := InsertAt(g.segments, Search(g.segments, sn), e)))
  }

  function InsertPacket(g: Group, sn: nat, d: Datagram): Group {
    if Has(g.datagrams, sn) then g
    else g.(datagrams := InsertAt(g.datagrams, Search(g.datagrams, sn), Entry(sn, d)))
  }

  /** Feeds one symbol to its open object, and moves the object over once it is complete. */
  function FeedSegments(solver: Solver, g: Group, sn: nat, oti: Oti, id: SymbolId, data: Bytes, now: nat)
    : (Group, Result<(), Error>)
    requires Has(g.segments, sn)
  {
    var i := Search(g.segments, sn);
    var (decoder, r) := Decode(solver, g.segments[i].value.decoder, oti, id, data);
    match r
    case Err(e) => (g, Err(e))
    case Ok(None) => (g.(segments := g.segments[i := Entry(sn, Segments(decoder, None))]), Ok(()))
    case Ok(Some(bytes)) =>
      var rest := g.(segments := RemoveAt(g.segments, i));
      match MediaPacket(bytes)
      case Err(e) => (rest, Err(e))
      case Ok(packet) => (InsertPacket(rest, sn, Datagram(decoder.oti, packet, now)), Ok(()))
  }

  function InsertDatagram(solver: Solver, g: Group, sn: nat, oti: Oti, id: SymbolId, data: Bytes, now: nat)
    : (Group, Result<(), Error>)
  {
    if Has(g.datagrams, sn) then
      (g, if g.datagrams[Search(g.datagrams, sn)].value.oti != oti then Err(OtiChanged) else Ok(()))
    else
      match PrepareSegments(g, sn, oti)
      case Err(e) => (g, Err(e))
      case Ok(prepared) => FeedSegments(solver, prepared, sn, oti, id, data, now)
  }

  // ----- The next packet

  function MinInstant(ds: seq<Entry<Datagram>>): nat
    requires ds != []
  {
    var last := ds[|ds| - 1].value.instant;
    if |ds| == 1 then last
    else
      var min := MinInstant(ds[..|ds| - 1]);
      if min <= last then min else last
  }

  datatype Next = Nothing | ReadyNow(isConfig: bool) | Deadline(instant: nat)

  function NextPacket(g: Group, next: nat, now: nat): Next {
    if g.config.NoConfig? then Nothing
    else if g.config.Ready? && g.config.sn == next then ReadyNow(true)
    else if g.datagrams == [] then Nothing
    else if g.datagrams[0].key == next || MinInstant(g.datagrams) + MAX_BUFFERING <= now then
      ReadyNow(g.config.Ready?)
    else Deadline(MinInstant(g.datagrams) + MAX_BUFFERING)
  }

  datatype Action = NoAction | WaitUntil(instant: nat) | Forward(sn: nat, packet: Packet)

  function TakeNext(g: Group, next: nat, now: nat): (Group, Action) {
    match NextPacket(g, next, now)
    case Nothing => (g, NoAction)
    case Deadline(instant) => (g, WaitUntil(instant))
    case ReadyNow(isConfig) =>
      if isConfig then (g.(config := Sent), Forward(g.config.sn, g.config.packet))
      else
        var d := g.datagrams[0];
        (g.(datagrams := g.datagrams[1..], segments := g.segments[Search(g.segments, d.key)..]),
         Forward(d.key, d.value.packet))
  }

  // ----- The same in place

  class PendingGroup {
    var config: Config
    var datagrams: seq<Entry<Datagram>>
    var segments: seq<Entry<Segments>>

    ghost function View(): Group
      reads this
    {
      Group(config, datagrams, segments)
    }

    constructor ()
      ensures View() == EMPTY
    {
      config, datagrams, segments := NoConfig, [], [];
    }

    method CheckRoom(additional: nat) returns (r: Result<(), Error>)
      ensures r == CheckCapacity(View(), additional)
    {
      var objects, bytes := |segments| + |datagrams|, 0;
      for i := 0 to |segments|
        invariant bytes == Sum(segments[..i], SegmentsCharge)
      {
        assert segments[..i + 1] == segments[..i] + [segments[i]];
        SumConcat(segments[..i], [segments[i]], SegmentsCharge);
        SumOne(segments[i], SegmentsCharge);
        bytes := bytes + SegmentsCharge(segments[i]);
      }
      assert segments[..|segments|] == segments;
      for i := 0 to |datagrams|
        invariant bytes == Sum(segments, SegmentsCharge) + Sum(datagrams[..i], DatagramCharge)
      {
        assert datagrams[..i + 1] == datagrams[..i] + [datagrams[i]];
        SumConcat(datagrams[..i], [datagrams[i]], DatagramCharge);
        SumOne(datagrams[i], DatagramCharge);
        bytes := bytes + DatagramCharge(datagrams[i]);
      }
      assert datagrams[..|datagrams|] == datagrams;
      if config.Ready? && config.packet.Media? {
        objects, bytes := objects + 1, bytes + |config.packet.payload|;
      }
      r := CheckPending(objects, bytes, additional, MAX_AUDIO_PAYLOAD);
    }

    method InsertStreamPacket(sn: nat, packet: Packet) returns (r: Result<(), Error>)
      modifies this
      ensures (View(), r) == InsertStream(old(View()), sn, packet)
    {
      if !packet.Media? {
        return Err(ExpectedConfig);
      }
      if !packet.media.isConfig || !config.NoConfig? {
        return Err(DuplicateConfig);
      }
      r := CheckRoom(|packet.payload|);
      if r.Ok? {
        config := Ready(sn, packet);
        r := Ok(());
      }
    }

    method PrepareDatagramSegments(sn: nat, oti: Oti) returns (r: Result<nat, Error>)
      modifies this
      ensures r.Ok? ==> PrepareSegments(old(View()), sn, oti) == Ok(View()) && r.value == Search(segments, sn)
      ensures r.Err? ==> PrepareSegments(old(View()), sn, oti) == Err(r.error) && View() == old(View())
    {
      var i := Search(segments, sn);
      if i < |segments| && segments[i].key == sn {
        return Ok(i);
      }
      var valid := ValidateOti(oti, MAX_AUDIO_PAYLOAD);
      if valid.Err? {
        return Err(valid.error);
      }
      var room := CheckRoom(Reservation(oti));
      if room.Err? {
        return Err(room.error);
      }
      var e := Entry(sn, Segments(NewDecoder(oti), None));
      SearchInserted(segments, e);
      segments := InsertAt(segments, i, e);
      return Ok(i);
    }

    method InsertSymbol(solver: Solver, sn: nat, oti: Oti, id: SymbolId, data: Bytes, now: nat)
        returns (r: Result<(), Error>)
      modifies this
      ensures (View(), r) == InsertDatagram(solver, old(View()), sn, oti, id, data, now)
    {
      var found := Search(datagrams, sn);
      if found < |datagrams| && datagrams[found].key == sn {
        return if datagrams[found].value.oti != oti then Err(OtiChanged) else Ok(());
      }
      var prepared := PrepareDatagramSegments(sn, oti);
      if prepared.Err? {
        return Err(prepared.error);
      }
      var i := prepared.value;
      var (decoder, fed) := Decode(solver, segments[i].value.decoder, oti, id, data);
      if fed.Err? {
        return Err(fed.error);
      }
      if fed.value.None? {
        segments := segments[i := Entry(sn, Segments(decoder, None))];
        return Ok(());
      }
      segments := RemoveAt(segments, i);
      var packet := MediaPacket(fed.value.value);
      if packet.Err? {
        return Err(packet.error);
      }
      datagrams := InsertAt(datagrams, found, Entry(sn, Datagram(decoder.oti, packet.value, now)));
      return Ok(());
    }

    method FindMinInstant() returns (min: nat)
      requires datagrams != []
      ensures min == MinInstant(datagrams)
    {
      min := datagrams[0].value.instant;
      for i := 1 to |datagrams|
        invariant min == MinInstant(datagrams[..i])
      {
        assert datagrams[..i + 1][..i] == datagrams[..i];
        if datagrams[i].value.instant < min {
          min := datagrams[i].value.instant;
        }
      }
      assert datagrams[..|datagrams|] == datagrams;
    }

    method FindNext(next: nat, now: nat) returns (r: Next)
      ensures r == NextPacket(View(), next, now)
    {
      if config.NoConfig? {
        return Nothing;
      }
      if config.Ready? && config.sn == next {
        return ReadyNow(true);
      }
      if datagrams == [] {
        return Nothing;
      }
      if datagrams[0].key != next {
        var min := FindMinInstant();
        if min + MAX_BUFFERING > now {
          return Deadline(min + MAX_BUFFERING);
        }
      }
      return ReadyNow(config.Ready?);
    }

    method TakeNextPacket(next: nat, now: nat) returns (a: Action)
      modifies this
      ensures (View(), a) == TakeNext(old(View()), next, now)
    {
      var found := FindNext(next, now);
      match found
      case Nothing => return NoAction;
      case Deadline(instant) => return WaitUntil(instant);
      case ReadyNow(isConfig) =>
        if isConfig {
          a := Forward(config.sn, config.packet);
          config := Sent;
        } else {
          var d := datagrams[0];
          a := Forward(d.key, d.value.packet);
          datagrams := datagrams[1..];
          segments := segments[Search(segments, d.key)..];
        }
    }
  }
}
