/** Where everything in the receive buffer comes from, read off the run: the step that opened each
    object, the symbols it was given since, and the step that completed it. For any peer. */
module VideoHistory {
  import opened Wrappers
  import opened AvPacket
  import opened Fec
  import opened Sequencer
  import opened VideoGroup
  import opened VideoPending
  import opened VideoReceiver
  import opened VideoObjects

  // ----- One step

  /** The step brings a symbol of packet `k` of the group, which is not below the next number. */
  predicate Brings(r: Receiver, x: Step, group: nat, k: nat) {
    x.Symbol? && Unroll(HALF, r.newestPacket, x.rawSn) == k && Unroll(HALF, r.newestGroup, x.rawGroup) == group
    && r.next <= k
  }

  /** Every step leaves an object as it is or removes it, unless it brings one of its symbols. */
  lemma StepObject(solver: Solver, r: Receiver, x: Step, group: nat, k: nat)
    requires ReceiverInv(r) && !Apply(solver, r, x).status.Failed?
    ensures var was, now := ObjectAt(r.pending, group, k), ObjectAt(Apply(solver, r, x).pending, group, k);
            || now.None?
            || (!Brings(r, x, group, k) && now == was)
            || (Brings(r, x, group, k) && Becomes(solver, was, x.oti, x.id, x.data, x.at, now.value))
  {
    match x
    case Stream(packet, rawSn, rawGroup, now) => StreamObject(r, packet, rawSn, rawGroup, now, group, k);
    case Symbol(rawSn, rawGroup, oti, id, data, at) =>
      SymbolObject(solver, r, rawSn, rawGroup, oti, id, data, at, group, k);
    case Timer =>
    case Take(now) => TakeObject(r, now, group, k);
  }

  lemma StreamObject(r: Receiver, packet: Packet, rawSn: u32, rawGroup: u32, now: nat, group: nat, k: nat)
    requires ReceiverInv(r) && !OnStream(r, packet, rawSn, rawGroup, now).status.Failed?
    ensures var o := ObjectAt(OnStream(r, packet, rawSn, rawGroup, now).pending, group, k);
            o.None? || o == ObjectAt(r.pending, group, k)
  {
    var sn, g := Unroll(HALF, r.newestPacket, rawSn), Unroll(HALF, r.newestGroup, rawGroup);
    if !packet.Codec? && sn >= r.next {
      InsertStreamObjects(r.pending, g, sn, packet, now, group, k);
    }
  }

  lemma SymbolObject(solver: Solver, r: Receiver, rawSn: u32, rawGroup: u32, oti: Oti, id: SymbolId, data: Bytes,
                     at: Instants, group: nat, k: nat)
    requires ReceiverInv(r) && !OnSymbol(solver, r, rawSn, rawGroup, oti, id, data, at).status.Failed?
    ensures var x := Step.Symbol(rawSn, rawGroup, oti, id, data, at);
            var was := ObjectAt(r.pending, group, k);
            var now := ObjectAt(OnSymbol(solver, r, rawSn, rawGroup, oti, id, data, at).pending, group, k);
            || now.None?
            || (!Brings(r, x, group, k) && now == was)
            || (Brings(r, x, group, k) && Becomes(solver, was, oti, id, data, at, now.value))
  {
    var sn, g := Unroll(HALF, r.newestPacket, rawSn), Unroll(HALF, r.newestGroup, rawGroup);
    if sn >= r.next {
      InsertDatagramObjects(solver, r.pending, g, sn, oti, id, data, at, group, k);
    }
  }

  lemma TakeObject(r: Receiver, now: nat, group: nat, k: nat)
    requires ReceiverInv(r)
    ensures var o := ObjectAt(OnTake(r, now).pending, group, k); o.None? || o == ObjectAt(r.pending, group, k)
  {
    if NextPacket(r.pending, r.next, now).ReadyAt? {
      TakeObjects(r.pending, r.next, now, group, k);
    }
  }

  // ----- Runs

  /** What is pending of the packet before the run and after each of its steps. */
  ghost function Objects(solver: Solver, run: seq<Step>, group: nat, k: nat): (os: seq<Option<Object>>)
    ensures |os| == |run| + 1
  {
    (if run == [] then [] else Objects(solver, run[..|run| - 1], group, k))
    + [ObjectAt(Exec(solver, START, run).pending, group, k)]
  }

  ghost predicate BringsAt(solver: Solver, run: seq<Step>, i: nat, group: nat, k: nat) {
    i < |run| && Brings(Exec(solver, START, run[..i]), run[i], group, k)
  }

  /** The symbols of the packet brought by the steps from `i` on; of two with the same id the first. */
  ghost function Brought(solver: Solver, run: seq<Step>, i: nat, group: nat, k: nat): map<SymbolId, Bytes> {
    if |run| <= i then map[]
    else
      var before, last := run[..|run| - 1], run[|run| - 1];
      var symbols := Brought(solver, before, i, group, k);
      if Brings(Exec(solver, START, before), last, group, k) && last.id !in symbols then symbols[last.id := last.data]
      else symbols
  }

  /** Step `i` opened the object, and it has been there ever since. */
  ghost predicate OpenedBy(solver: Solver, run: seq<Step>, i: nat, group: nat, k: nat) {
    BringsAt(solver, run, i, group, k) && PresentSince(Objects(solver, run, group, k), i)
  }

  ghost predicate PresentSince(os: seq<Option<Object>>, i: nat) {
    i < |os| && os[i].None? && forall j | i < j < |os| :: os[j].Some?
  }

  /** An open object has the age of the step that opened it and the symbols brought since. */
  ghost predicate OpenStory(solver: Solver, run: seq<Step>, i: nat, group: nat, k: nat, o: Object) {
    && OpenedBy(solver, run, i, group, k)
    && o == Open(run[i].oti, Brought(solver, run, i, group, k), run[i].at.created)
  }

  /** The step behind `before` completes the object that step `i` opened: the packet is what the solver
      makes of the symbols brought since, it is dated by this step, and its counts are those of now. */
  ghost predicate Completes(solver: Solver, before: seq<Step>, x: Step, i: nat, oti: Oti, group: nat, k: nat,
                            o: Object)
  {
    var r := Exec(solver, START, before);
    var was := ObjectAt(r.pending, group, k);
    var symbols := Brought(solver, before + [x], i, group, k);
    && Brings(r, x, group, k) && (was.Some? ==> was.value.Open?)
    && solver(oti, symbols).Some?
    && MediaPacket(solver(oti, symbols).value).Ok?
    && o == Done(oti, MediaPacket(solver(oti, symbols).value).value, x.at.assembled, DoneStats(oti, symbols))
  }

  ghost predicate KeptSince(os: seq<Option<Object>>, c: nat, o: Object) {
    forall j | c < j < |os| :: os[j] == Some(o)
  }

  /** A completed packet was completed by step `c` and has stayed the same ever since. */
  ghost predicate DoneStory(solver: Solver, run: seq<Step>, i: nat, c: nat, group: nat, k: nat, o: Object) {
    && OpenedBy(solver, run, i, group, k) && i <= c < |run|
    && Completes(solver, run[..c], run[c], i, run[i].oti, group, k, o)
    && KeptSince(Objects(solver, run, group, k), c, o)
  }

  ghost predicate Story(solver: Solver, run: seq<Step>, group: nat, k: nat, o: Object) {
    match o
    case Open(_, _, _) => exists i :: OpenStory(solver, run, i, group, k, o)
    case Done(_, _, _, _) => exists i, c :: DoneStory(solver, run, i, c, group, k, o)
  }

  // ----- One step more

  lemma ObjectsNext(solver: Solver, run: seq<Step>, x: Step, group: nat, k: nat, o: Option<Object>)
    requires o == ObjectAt(Apply(solver, Exec(solver, START, run), x).pending, group, k)
    ensures Objects(solver, run + [x], group, k) == Objects(solver, run, group, k) + [o]
    ensures Objects(solver, run, group, k)[|run|] == ObjectAt(Exec(solver, START, run).pending, group, k)
  {
    assert (run + [x])[..|run|] == run;
  }

  lemma BringsAtNext(solver: Solver, run: seq<Step>, x: Step, i: nat, group: nat, k: nat)
    requires BringsAt(solver, run, i, group, k)
    ensures BringsAt(solver, run + [x], i, group, k) && (run + [x])[i] == run[i]
  {
    assert (run + [x])[..i] == run[..i];
  }

  lemma StaysOpened(solver: Solver, run: seq<Step>, x: Step, i: nat, group: nat, k: nat, now: Object)
    requires OpenedBy(solver, run, i, group, k)
    requires ObjectAt(Apply(solver, Exec(solver, START, run), x).pending, group, k) == Some(now)
    ensures OpenedBy(solver, run + [x], i, group, k)
  {
    ObjectsNext(solver, run, x, group, k, Some(now));
    BringsAtNext(solver, run, x, i, group, k);
  }

  lemma BroughtNext(solver: Solver, run: seq<Step>, x: Step, i: nat, group: nat, k: nat)
    requires i <= |run|
    ensures var symbols := Brought(solver, run, i, group, k);
            Brought(solver, run + [x], i, group, k) ==
            if Brings(Exec(solver, START, run), x, group, k) && x.id !in symbols then symbols[x.id := x.data]
            else symbols
  {
    assert (run + [x])[..|run|] == run;
  }

  lemma OpenStoryNext(solver: Solver, run: seq<Step>, x: Step, i: nat, group: nat, k: nat, o: Object)
    requires OpenStory(solver, run, i, group, k, o) && !Brings(Exec(solver, START, run), x, group, k)
    requires ObjectAt(Apply(solver, Exec(solver, START, run), x).pending, group, k) == Some(o)
    ensures OpenStory(solver, run + [x], i, group, k, o)
  {
    StaysOpened(solver, run, x, i, group, k, o);
    BroughtNext(solver, run, x, i, group, k);
  }

  lemma DoneStoryNext(solver: Solver, run: seq<Step>, x: Step, i: nat, c: nat, group: nat, k: nat, o: Object)
    requires DoneStory(solver, run, i, c, group, k, o)
    requires ObjectAt(Apply(solver, Exec(solver, START, run), x).pending, group, k) == Some(o)
    ensures DoneStory(solver, run + [x], i, c, group, k, o)
  {
    StaysOpened(solver, run, x, i, group, k, o);
    ObjectsNext(solver, run, x, group, k, Some(o));
    PrefixSame(run, x, c);
  }

  lemma PrefixSame(run: seq<Step>, x: Step, c: nat)
    requires c < |run|
    ensures (run + [x])[..c] == run[..c] && (run + [x])[c] == run[c]
  {
  }

  lemma BringsNow(solver: Solver, run: seq<Step>, x: Step, group: nat, k: nat)
    requires Brings(Exec(solver, START, run), x, group, k)
    ensures BringsAt(solver, run + [x], |run|, group, k)
  {
    assert (run + [x])[..|run|] == run;
  }

  lemma OpenedNow(solver: Solver, run: seq<Step>, x: Step, group: nat, k: nat, now: Object)
    requires Brings(Exec(solver, START, run), x, group, k)
    requires ObjectAt(Exec(solver, START, run).pending, group, k).None?
    requires ObjectAt(Apply(solver, Exec(solver, START, run), x).pending, group, k) == Some(now)
    ensures OpenedBy(solver, run + [x], |run|, group, k)
  {
    ObjectsNext(solver, run, x, group, k, Some(now));
    BringsNow(solver, run, x, group, k);
  }

  /** A symbol of an object that step `i` opened, maybe this one. */
  lemma SymbolStory(solver: Solver, run: seq<Step>, x: Step, i: nat, symbols: map<SymbolId, Bytes>, created: nat,
                    group: nat, k: nat, now: Object)
    requires Brings(Exec(solver, START, run), x, group, k) && i <= |run| && OpenedBy(solver, run + [x], i, group, k)
    requires symbols == Brought(solver, run, i, group, k)
    requires (run + [x])[i].oti == x.oti && (run + [x])[i].at.created == created
    requires var was := ObjectAt(Exec(solver, START, run).pending, group, k); was.Some? ==> was.value.Open?
    requires ObjectAt(Apply(solver, Exec(solver, START, run), x).pending, group, k) == Some(now)
    requires BecomesFrom(solver, x.oti, symbols, created, x.id, x.data, x.at, now)
    ensures Story(solver, run + [x], group, k, now)
  {
    var more := run + [x];
    BroughtNext(solver, run, x, i, group, k);
    if now.Open? {
      assert OpenStory(solver, more, i, group, k, now);
    } else {
      assert more[..|run|] == run && more[|run|] == x;
      ObjectsNext(solver, run, x, group, k, Some(now));
      assert DoneStory(solver, more, i, |run|, group, k, now);
    }
  }

  lemma StoryNext(solver: Solver, run: seq<Step>, x: Step, group: nat, k: nat, was: Option<Object>, now: Object)
    requires was == ObjectAt(Exec(solver, START, run).pending, group, k)
    requires ObjectAt(Apply(solver, Exec(solver, START, run), x).pending, group, k) == Some(now)
    requires was.Some? ==> Story(solver, run, group, k, was.value)
    requires || (!Brings(Exec(solver, START, run), x, group, k) && was == Some(now))
             || (Brings(Exec(solver, START, run), x, group, k)
                 && Becomes(solver, was, x.oti, x.id, x.data, x.at, now))
    ensures Story(solver, run + [x], group, k, now)
  {
    match was
    case None =>
      OpenedNow(solver, run, x, group, k, now);
      SymbolStory(solver, run, x, |run|, map[], x.at.created, group, k, now);
    case Some(Done(_, _, _, _)) =>
      var i, c :| DoneStory(solver, run, i, c, group, k, was.value);
      DoneStoryNext(solver, run, x, i, c, group, k, now);
    case Some(Open(_, _, _)) =>
      var i :| OpenStory(solver, run, i, group, k, was.value);
      if Brings(Exec(solver, START, run), x, group, k) {
        StaysOpened(solver, run, x, i, group, k, now);
        SymbolStory(solver, run, x, i, was.value.symbols, was.value.created, group, k, now);
      } else {
        OpenStoryNext(solver, run, x, i, group, k, now);
      }
  }

  ghost predicate HasStory(solver: Solver, run: seq<Step>, group: nat, k: nat) {
    var o := ObjectAt(Exec(solver, START, run).pending, group, k);
    o.Some? ==> Story(solver, run, group, k, o.value)
  }

  lemma LastStep(solver: Solver, run: seq<Step>, x: Step, r: Receiver, group: nat, k: nat)
    requires r == Exec(solver, START, run) && ReceiverInv(r) && !Apply(solver, r, x).status.Failed?
    requires HasStory(solver, run, group, k)
    ensures HasStory(solver, run + [x], group, k)
  {
    StepObject(solver, r, x, group, k);
    var now := ObjectAt(Apply(solver, r, x).pending, group, k);
    ObjectsNext(solver, run, x, group, k, now);
    if now.Some? {
      StoryNext(solver, run, x, group, k, ObjectAt(r.pending, group, k), now.value);
    }
  }

  /** In every run of any peer, everything pending has its story: an open object is as old as the step
      that opened it and holds exactly the symbols brought since; a completed packet is dated by the
      step that completed it, and counts as missing the source symbols that had not come by then. */
  lemma {:induction false} EverythingHasItsStory(solver: Solver, run: seq<Step>, group: nat, k: nat)
    requires IsRun(solver, START, run) && !Exec(solver, START, run).status.Failed?
    ensures HasStory(solver, run, group, k)
  {
    if run == [] {
      NothingAtFirst(solver, group, k);
    } else {
      var before, x := run[..|run| - 1], run[|run| - 1];
      Earlier(solver, run, before, x);
      EverythingHasItsStory(solver, before, group, k);
      LongerStory(solver, run, before, x, group, k);
    }
  }

  lemma LongerStory(solver: Solver, run: seq<Step>, before: seq<Step>, x: Step, group: nat, k: nat)
    requires run == before + [x] && IsRun(solver, START, before)
    requires !Apply(solver, Exec(solver, START, before), x).status.Failed? && HasStory(solver, before, group, k)
    ensures HasStory(solver, run, group, k)
  {
    EveryStateKeepsInv(solver, before);
    LastStep(solver, before, x, Exec(solver, START, before), group, k);
  }

  lemma NothingAtFirst(solver: Solver, group: nat, k: nat)
    ensures HasStory(solver, [], group, k)
  {
    assert ObjectAt(EMPTY, group, k).None?;
  }

  lemma Earlier(solver: Solver, run: seq<Step>, before: seq<Step>, x: Step)
    requires IsRun(solver, START, run) && run != [] && before == run[..|run| - 1] && x == run[|run| - 1]
    ensures IsRun(solver, START, before) && !Exec(solver, START, before).status.Failed?
    ensures Exec(solver, START, run) == Apply(solver, Exec(solver, START, before), x)
  {
  }
}
