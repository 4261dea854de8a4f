# Verified models of the Kyber media transport

A Dafny model of the parts of the kymux workspace that decide what a client sees:

- **Unreliable video with forward error correction** (`Video*.dfy`). The receiver keeps pending
  groups, each with a config, completed packets and open objects, in sorted vectors under a memory
  budget. `VideoPending` specifies every operation, `VideoBuffer` carries them out in place as the
  source does, `VideoReceiver` is the processing loop as a state machine with one step per event and
  per turn of the drain loop, and `VideoProcess` is that loop over mutable state, proved to make runs
  of the state machine fed by its inputs. `VideoInvariant`, `VideoAdmission`, `VideoOrder` and
  `VideoExact` hold what is true of every run; `VideoObjects` describes the buffer object by object
  and `VideoHistory` reads it off the run; `VideoLedger`, `VideoCounts` and `VideoReport` account for
  symbols and packets, `VideoOutput` for codec records, `VideoErrors` and `VideoRefusal` for failures.
  `VideoSender` is the send driver and `VideoDelivery` a sender behind a network that loses,
  duplicates, delays and reorders. `VideoExample`, `VideoLateConfig` and `VideoStall` have the runs that show which
  conditions are met and which are needed; `OneSymbol` is the simplest code for them.
- **FEC bookkeeping** (`Fec.dfy`, `FecExact.dfy`), the **source-first interleaver** (`SourceFirst.dfy`) and the
  **sequence unroller** (`Sequencer.dfy`).
- **One stream per group of pictures** (`GopStream.dfy`).
- **The control handshake** of two peers (`Control.dfy`, `ControlRegistration.dfy`,
  `ControlRefusal.dfy`) and the ids they allocate (`EndpointIds.dfy`).
- **Plain datagrams**, split and reassembled (`Reassembly.dfy`).
- **Audio with forward error correction** (`Audio*.dfy`): its order, holes, timeline, budget, the
  buffer read off the run (`AudioExact.dfy`) and its failures (`AudioRefusal.dfy`).
- **The local endpoint allocator** (`EndpointMap.dfy`) and the **packet codec** (`AvPacket.dfy`).

`dafny verify dfyconfig.toml` checks the whole project.

## How to read it

Code that changes state is a class or a method with loops whose `ensures` ties the new state to a
specification function of the old one; what the source promises is then proved about those functions
and about every run of them. A run is a sequence of steps; a theorem over runs quantifies over all of
them, including every clock reading.

- The erasure-code solver is a parameter: a function from the symbols held to the object or nothing.
  `Sound` says that from genuine symbols it never gives a wrong object; nothing else is assumed of it.
  The sender's encoder is a parameter too: a function from parameters, object and symbol id to bytes.
- Clock readings are parameters of the steps. No property needs them to be non-decreasing.
- A binary search by key is its contract on a sorted vector.
- An assertion, `unwrap` or `expect` of the source is an explicit result (`None`, `Failed`, an error)
  or a `requires`, and proved unreachable where the source relies on that.
- Errors of the FEC code, which carry text in the source, are one constructor each.

## What turned out to need a condition

- **Order and accounting** of the video receiver need the sender's own numbering: groups that do not
  decrease with packet numbers, each started by its config. The modelled send driver has it
  (`VideoOrder.EndToEndOrder`). For a media packet and a config of the same group with any two
  numbers, `VideoLateConfig.InOrderIff` says exactly when both hold. Memory bounds, uniqueness, the
  frontier and the ledger do not depend on the sender (`VideoReceiver.EveryStateKeepsInv`,
  `VideoLedger.LedgerConservation`).
- **Reorder exactness** needs the first packet to be a config; `VideoExact.NoConfigNoStart` shows what
  happens otherwise. It also needs that no deadline expires, and there is a deadline only while the next
  packet is ready nowhere and a group that has its config holds a completed packet: media may wait for
  its config, or for the loop, for any time. `VideoExact.GaplessIff` shows that this premise is exact.
- **Audio**: hole samples equal frame size times dropped packets exactly if no gap is clamped to 32
  bits (`AudioReceiver.HolesAddUp`), wherever the config is. Increasing order and the count of packets
  hold, run by run, exactly if the config is numbered below the first media packet forwarded
  (`AudioOrder.OrderIff`), which is decided when the config is taken (`AudioOrder.OrderDecided`);
  `AudioLateConfig.InOrderIff` says which numbers on the wire lead there.
- **Plain reassembly** is right for every arrival order exactly up to 2^31 datagrams per packet, where
  the number reaches the end flag (`Reassembly.ReassembledIff`).
- **Registration**: an id once recorded by the peer is never forgotten, so of the registrations of an
  id exactly the first completes (`ControlRegistration.FirstCompletes`). A second one, which the
  allocator makes after 32768 ids (`EndpointIds.RepeatsAfterWrap`), is sent and waits for ever
  (`ControlRegistration.RepeatedWaits`).
- **Readiness**: the branch of the handler that drops a parked `Ready` when a second one arrives loses
  a wakeup, but two correct peers never get there (`Control.NeverParkedTwice`), so the rendezvous holds
  for any number of notifiers, not only one per side.
- **Stall recovery**: once all media is stale admission always makes room
  (`VideoAdmission.StallRecovery`), but the insertion behind it is still refused exactly if it needs a
  33rd group, or repeats a config (`VideoStall.StallInsertSymbol`, `VideoStall.StallInsertConfig`). A legal sender whose
  media is all lost gets there with its 33rd config (`VideoStall.RefusedForGroups`).

Where the code and its prose differ, the code is followed: the module documentation of both video
drivers gives the buffering delay as 20 ms
(`kyproto/src/protocol/driver/av/video_unreliable_fec.rs`, line 255), the code uses 50 ms (line 573).

## Model

| member | source | states |
|---|---|---|
| `VideoOrder.OrderAndAccounting` | kyproto/src/protocol/driver/av/video_unreliable_fec.rs:663-784 | in every non-failed state of every run fed by a legal sender through a losing, duplicating, reordering network: forwarded packets are the sender's own, numbers strictly increase, and forwarded + `dropped_packets` = `next_kypacket_seq` |
| `VideoOrder.OwnConfigSafety` | kyproto/src/protocol/driver/av/video_unreliable_fec.rs:1015-1197 | the last config forwarded before any forwarded media packet is the last config the sender sent before that packet, across draining, late configs, retirement and group re-creation |
| `VideoOrder.LegalRunInv` | kyproto/src/protocol/driver/av/video_unreliable_fec.rs:663-784 | the invariant behind both, kept by every step: everything pending is the sender's, at or above `next_kypacket_seq`, and only the group in front has its config sent |
| `VideoOrder.TakeShrinks` | kyproto/src/protocol/driver/av/video_unreliable_fec.rs:719-782 | every packet taken leaves fewer packets to take: the measure by which the drain loop ends |
| `VideoOrder.NextIsTaken` | kyproto/src/protocol/driver/av/video_unreliable_fec.rs:1085-1140 | if any group offers the next expected packet, that group is the one taken from, although earlier groups are looked at first |
| `VideoOrder.DrainLeavesNothing` | kyproto/src/protocol/driver/av/video_unreliable_fec.rs:719-782 | whenever the drain loop has stopped, the next expected packet is ready nowhere |
| `VideoOrder.DeadlineForwards` | kyproto/src/protocol/driver/av/video_unreliable_fec.rs:1085-1140 | a deadline lies in the future, and waking up at or after it does forward a packet |
| `VideoOrder.DeadlineIsEarliest` | kyproto/src/protocol/driver/av/video_unreliable_fec.rs:1142-1154 | the deadline is the end of the window of the packet completed first, over all groups |
| `VideoOrder.WaitIsBounded` | kyproto/src/protocol/driver/av/video_unreliable_fec.rs:719-736 | in every run of any peer, whenever the loop waits: a deadline is set if and only if some group with its config holds a completed packet, and it is then the earliest completion time of all groups plus 50 ms |
| `VideoOrder.LateConfigMovesBack` | kyproto/src/protocol/driver/av/video_unreliable_fec.rs:1128-1134 | from every state whose front group holds a ready config numbered above its first packet, that packet being the next expected one: two takes, the second once the window has passed, move `next_kypacket_seq` back |
| `VideoLateConfig.InOrderIff` | kyproto/src/protocol/driver/av/video_unreliable_fec.rs:663-784 | from the empty receiver, for every two numbers: a media packet and then the config of its group are forwarded in increasing order, and likewise forwarded + `dropped_packets` = `next_kypacket_seq`, if and only if the config is numbered below the media packet, within half the range of the counter |
| `VideoLateConfig.ScenarioExists` | kyproto/src/protocol/driver/av/video_unreliable_fec.rs:1041-1083 | such runs exist for every two numbers, every group and every media packet that fits one symbol |
| `VideoOrder.SendDriverOrder` | kyproto/src/protocol/driver/av/video_unreliable_fec.rs:478-522 | order and accounting for every run made of deliveries of the modelled send driver's packets, under any solver that gives back what its encoder encodes |
| `VideoOrder.EndToEndOrder` | kyproto/src/protocol/driver/av/video_unreliable_fec.rs:478-522 | sender and receiver together: in every run of the receiver whose messages are all on the send driver's wire, lost, late, repeated or reordered, forwarded packets are the driver's, in order and counted |
| `VideoDelivery.WireRunIsLegal` | kyproto/src/protocol/driver/av/video_unreliable_fec.rs:663-784 | every such run is one fed by the legal sender of the driver's packets, with the same states |
| `VideoDelivery.EarlyRunIsWireRun` | kyproto/src/protocol/driver/util/seq.rs:78-93 | for the first 2^31 packets any message of the wire may arrive at any time: none is too far behind |
| `VideoErrors.LegalRunFails` | kyproto/src/protocol/driver/av/video_unreliable_fec.rs:1015-1083 | a run fed by a legal sender with valid parameters and symbol sizes fails only for a reason that holds: there is no room even after retiring any stale media; or 32 groups are pending after admission and this is another; or more than 2*K_b+32 distinct symbols of one block were delivered; or the config had been delivered before |
| `VideoRefusal.SymbolRefusedIff` | kyproto/src/protocol/driver/av/video_unreliable_fec.rs:1041-1083 | in every run of any peer the next symbol ends the run if and only if there is a reason, listed and stated by packet: parameters, another group, other parameters, a bad symbol, a full block, no media packet, no room, no group left |
| `VideoRefusal.StreamRefusedIff` | kyproto/src/protocol/driver/av/video_unreliable_fec.rs:1015-1039 | likewise a record: no config, no room, no group left, or a second config of its group |
| `VideoErrors.OnlyLimitsFail` | kyproto/src/protocol/driver/av/video_unreliable_fec.rs:1015-1083 | if each config is delivered at most once, only the three limits are left, each with its reason |
| `VideoExact.ReorderExact` | kyproto/src/protocol/driver/av/video_unreliable_fec.rs:719-782 | sender starts with a config, no deadline expires, nothing is retired or rejected, packets 0..n-1 delivered in any order with any repetition, a config however late: the client was given exactly packets 0, 1, 2, ... in order, at least up to n-1 |
| `VideoExact.GaplessIff` | kyproto/src/protocol/driver/av/video_unreliable_fec.rs:1085-1140 | in every run fed by a legal sender, whatever is lost or retired: the numbers forwarded are 0, 1, 2, ... without a gap if and only if no deadline has expired, that is, no take found a window over while the next packet was ready nowhere and a group with its config held a completed packet |
| `VideoExact.NoConfigNoStart` | kyproto/src/protocol/driver/av/video_unreliable_fec.rs:1085-1140 | why the first packet must be a config: otherwise, while no deadline expires, nothing is ever forwarded |
| `VideoExact.RunExact` | kyproto/src/protocol/driver/av/video_unreliable_fec.rs:1015-1197 | while no deadline expires and nothing is retired, the buffer always holds, for every packet still due, exactly the symbols, config or completed packet that the deliveries so far determine |
| `VideoExample.OvertakingIsUndone` | kyproto/src/protocol/driver/av/video_unreliable_fec.rs:719-782 | exactness at work: a media packet, decoded from its symbol, that overtakes the config of its group is given to the client behind it, at whatever time the config arrives, also after the window, for every sender that starts with such a pair |
| `VideoExample.PairExists` | kyproto/src/protocol/driver/av/video_unreliable_fec.rs:1250-1319 | there are such senders, with a solver that is sound for them: every config, every media packet that fits one symbol |
| `VideoLedger.LedgerConservation` | kyproto/src/protocol/driver/av/video_unreliable_fec.rs:738-756 | over every run without an error, whatever the peer sends: source symbols reported + held in `retired_stats` + held by pending objects = the sum over all objects ever opened |
| `VideoLedger.OpenedOnce` | kyproto/src/protocol/driver/av/video_unreliable_fec.rs:1041-1083 | with a legal sender each packet number opens at most one object, with that packet's source symbols |
| `VideoLedger.LegalLedger` | kyproto/src/protocol/driver/av/video_unreliable_fec.rs:738-756 | both together: for a legal sender the ledger counts each packet's symbols once |
| `VideoLedger.NothingLost` | kyproto/src/protocol/driver/av/video_unreliable_fec.rs:738-756 | skipping a report without source symbols loses nothing of any of the three counts |
| `VideoCounts.TakeConserves` | kyproto/src/protocol/driver/av/video_unreliable_fec.rs:1161-1194 | taking a packet conserves each of the three counts: what is reported with it and what is still held add up to what was held |
| `VideoCounts.AdmitConserves` | kyproto/src/protocol/driver/av/video_unreliable_fec.rs:992-1004 | retirement moves counts from pending to `retired_stats` and changes none |
| `VideoCounts.CountsAreExact` | kyproto/src/protocol/driver/av/video_unreliable_fec.rs:1368-1388 | an open object counts its source ids, those of them not received, and as unrecovered the latter until it is reconstructed |
| `VideoReport.TakeAccounts` | kyproto/src/protocol/driver/av/video_unreliable_fec.rs:738-756 | every take, in all three counts: what the statistics show and what is held add up to the same as before |
| `VideoReport.EverythingIsAccounted` | kyproto/src/protocol/driver/av/video_unreliable_fec.rs:738-756 | over every run of any peer, in all three counts: what is shown and held has changed by exactly what each symbol has made of its own packet |
| `VideoObjects.InsertDatagramObjects` | kyproto/src/protocol/driver/av/video_unreliable_fec.rs:1041-1083 | the buffer as a map from group and number to objects: a symbol makes of its own object what it makes of it (one symbol more with the age unchanged, or the packet dated by this step with the counts of now), what is at or below the frontier is gone, and nothing else changes |
| `VideoObjects.InsertStreamObjects` | kyproto/src/protocol/driver/av/video_unreliable_fec.rs:1015-1039 | a config goes to its group, which had none, and nothing else changes but what is retired |
| `VideoObjects.TakeObjects` | kyproto/src/protocol/driver/av/video_unreliable_fec.rs:1156-1197 | a take removes the groups before, and of its own group the packet and what is below it, and nothing else |
| `VideoHistory.EverythingHasItsStory` | kyproto/src/protocol/driver/av/video_unreliable_fec.rs:1321-1390 | read off every run of any peer: an open object has the creation time of the step that opened it and exactly the symbols brought since; a completed packet has the time of the step that completed it, is what the solver made of the symbols up to then, and counts as missing the source symbols that had not come and none as unrecovered; both unchanged since |
| `VideoReceiver.EveryStateKeepsInv` | kyproto/src/protocol/driver/av/video_unreliable_fec.rs:910-1197 | whatever the peer sends, and also in the state left by a rejected message: vectors strictly sorted, media numbers unique across groups and between segments and datagrams and beyond `retired_through`, at most 128 objects, 256 MiB charged and 32 groups, reported counts with unrecovered <= missing <= source |
| `VideoReceiver.FrontierAdvances` | kyproto/src/protocol/driver/av/video_unreliable_fec.rs:989-1004 | `retired_through` never moves back over a run |
| `VideoReceiver.RetiredForGood` | kyproto/src/protocol/driver/av/video_unreliable_fec.rs:1041-1083 | media retired at any moment of any run is neither pending nor forwarded at any later one |
| `VideoOutput.CodecsAreGiven` | kyproto/src/protocol/driver/av/video_unreliable_fec.rs:679-682 | in every run the codec records given to the client are those of the reliable stream, in order |
| `VideoOutput.CodecInPlace` | kyproto/src/protocol/driver/av/video_unreliable_fec.rs:679-682 | and each stands behind everything given before it came and in front of everything given later |
| `VideoOrder.LowestIsTaken` | kyproto/src/protocol/driver/av/video_unreliable_fec.rs:1085-1140 | when something is given up, not more than has to be: what is taken is the lowest number any waiting group would give |
| `VideoOrder.NewestIsGreatest` | kyproto/src/protocol/driver/av/video_unreliable_fec.rs:663-704 | the newest numbers the unrollers keep are the greatest packet and group numbers delivered, read off the run |
| `VideoAdmission.AdmitRetires` | kyproto/src/protocol/driver/av/video_unreliable_fec.rs:953-1005 | admission retires nothing or exactly the shortest prefix of the pending media, in packet order across all groups, that makes room, all of it stale; when no stale prefix makes room it retires the longest stale one and fails |
| `VideoAdmission.AdmitSucceedsIff` | kyproto/src/protocol/driver/av/video_unreliable_fec.rs:953-964 | admission succeeds if and only if there is room or some stale prefix makes room |
| `VideoAdmission.AdmitKeepsConfigs` | kyproto/src/protocol/driver/av/video_unreliable_fec.rs:966-1005 | admission leaves every config, its group and their order as they are |
| `VideoAdmission.StallRecovery` | kyproto/src/protocol/driver/av/video_unreliable_fec.rs:953-964 | once all pending media is stale, every object that passes `validate_oti` is admitted, even beside 32 configs of 1 MiB |
| `VideoAdmission.StallRecoveryConfig` | kyproto/src/protocol/driver/av/video_unreliable_fec.rs:953-964 | likewise every config record the reliable stream lets through |
| `VideoStall.StallInsertSymbol` | kyproto/src/protocol/driver/av/video_unreliable_fec.rs:1041-1083 | once all pending media is stale, inserting an acceptable symbol of a number not pending fails if and only if admission did not retire that number, its group is not pending afterwards and 32 groups are; otherwise, unless retired, the number is pending |
| `VideoStall.StallInsertConfig` | kyproto/src/protocol/driver/av/video_unreliable_fec.rs:1015-1039 | likewise a config is refused if and only if its group is pending with a config already, or not pending beside 32 groups; otherwise its group holds it |
| `VideoStall.RefusedForGroups` | kyproto/src/protocol/driver/av/video_unreliable_fec.rs:929-945 | a legal sender all of whose media is lost: the 33rd config ends the run with the error about too many groups |
| `VideoAdmission.RetireOldestIsThrough` | kyproto/src/protocol/driver/av/video_unreliable_fec.rs:966-1005 | one retirement is the reference retirement through the lowest pending number |
| `VideoInvariant.AdmitInv` | kyproto/src/protocol/driver/av/video_unreliable_fec.rs:953-964 | admission keeps the buffer invariant |
| `VideoInvariant.InsertDatagramInv` | kyproto/src/protocol/driver/av/video_unreliable_fec.rs:1041-1083 | inserting a symbol keeps the buffer invariant, also when it fails |
| `VideoInvariant.InsertStreamInv` | kyproto/src/protocol/driver/av/video_unreliable_fec.rs:1015-1039 | inserting a config keeps the buffer invariant, also when it fails |
| `VideoInvariant.TakeNextInv` | kyproto/src/protocol/driver/av/video_unreliable_fec.rs:1156-1197 | taking a packet keeps the buffer invariant and yields consistent counts |
| `VideoInvariant.CompletedGroupOk` | kyproto/src/protocol/driver/av/video_unreliable_fec.rs:1250-1319 | moving a completed object from segments to datagrams keeps the group's numbers and its charge |
| `VideoInvariant.OldestIsLowest` | kyproto/src/protocol/driver/av/video_unreliable_fec.rs:970-988 | the object chosen for retirement has the lowest number of all pending media |
| `VideoDelivery.TakeLegal` | kyproto/src/protocol/driver/av/video_unreliable_fec.rs:1156-1197 | the packet taken is one the sender numbered, at or above the next expected number, and media is only taken from the group forwarded from last |
| `VideoDelivery.InsertDatagramLegal` | kyproto/src/protocol/driver/av/video_unreliable_fec.rs:1041-1083 | a genuine symbol keeps every pending object genuine and in its own group |
| `VideoDelivery.LegalIsRun` | kyproto/src/protocol/driver/av/video_unreliable_fec.rs:663-784 | runs fed by a legal sender are runs of the receiver, so all that holds of every run holds of them |
| `VideoDelivery.WireIsDelivered` | kyproto/src/protocol/driver/av/video_unreliable_fec.rs:478-522 | every message the send driver has sent is a delivery of the legal sender with the driver's packets and encoder, so theorems about legal senders speak of the modelled `send` |
| `VideoDelivery.InvertingIsSound` | kyproto/src/protocol/driver/av/video_unreliable_fec.rs:319-399 | a solver that gives back what the encoder encodes is sound for every sequence of packets sent |
| `VideoBuffer.PendingGroups.constructor` | kyproto/src/protocol/driver/av/video_unreliable_fec.rs:910-927 | starts as the empty buffer |
| `VideoBuffer.PendingGroups.CheckRoom` | kyproto/src/protocol/driver/av/video_unreliable_fec.rs:1007-1013 | the summing loops compute the specified charge and the verdict of `check_capacity` |
| `VideoBuffer.PendingGroups.RetireOldestMedia` | kyproto/src/protocol/driver/av/video_unreliable_fec.rs:966-1005 | the scan over the fronts retires exactly what the specification retires, in place |
| `VideoBuffer.PendingGroups.AdmitObject` | kyproto/src/protocol/driver/av/video_unreliable_fec.rs:953-964 | the loop ends and does what `AdmitRetires` characterises |
| `VideoBuffer.PendingGroups.PreparePendingGroup` | kyproto/src/protocol/driver/av/video_unreliable_fec.rs:929-945 | finds or inserts the group at its sorted place, or reports 32 groups |
| `VideoBuffer.PendingGroups.InsertStreamPacket` | kyproto/src/protocol/driver/av/video_unreliable_fec.rs:1015-1039 | new buffer and result are those of the specification proved invariant above |
| `VideoBuffer.PendingGroups.InsertMediaSymbol` | kyproto/src/protocol/driver/av/video_unreliable_fec.rs:1041-1083 | new buffer and result are those of the specification, which `VideoObjects.InsertDatagramObjects` pins object by object and `VideoRefusal.SymbolRefusedIff` error by error |
| `VideoBuffer.PendingGroups.FindMinInstant` | kyproto/src/protocol/driver/av/video_unreliable_fec.rs:1142-1154 | the nested loop finds the earliest completion time of all groups |
| `VideoBuffer.PendingGroups.FindNext` | kyproto/src/protocol/driver/av/video_unreliable_fec.rs:1085-1140 | the loop with its cached minimum chooses what the specification chooses |
| `VideoBuffer.PendingGroups.DiscardBefore` | kyproto/src/protocol/driver/av/video_unreliable_fec.rs:1161-1167 | draining the groups in front sums up all their counts |
| `VideoBuffer.PendingGroups.TakeConfigAt` | kyproto/src/protocol/driver/av/video_unreliable_fec.rs:1171-1180 | consumes the config and hands over all counts held |
| `VideoBuffer.PendingGroups.TakeDatagramAt` | kyproto/src/protocol/driver/av/video_unreliable_fec.rs:1181-1194 | pops the first packet, drops the older open objects and hands over all counts held |
| `VideoBuffer.PendingGroups.TakeNextPacket` | kyproto/src/protocol/driver/av/video_unreliable_fec.rs:1156-1197 | new buffer and action are those of the specification |
| `VideoProcess.Process.HandleStream` | kyproto/src/protocol/driver/av/video_unreliable_fec.rs:678-691 | one stream message makes one step of the state machine, pinned by `VideoOutput.CodecInPlace` and `VideoObjects.InsertStreamObjects` |
| `VideoProcess.Process.HandleDatagram` | kyproto/src/protocol/driver/av/video_unreliable_fec.rs:692-704 | one datagram makes one step of the state machine |
| `VideoProcess.Process.TakeOnce` | kyproto/src/protocol/driver/av/video_unreliable_fec.rs:722-780 | one turn of the inner loop makes one step, and either stops the loop or shrinks what can be taken; the step is pinned by `VideoObjects.TakeObjects`, `VideoReport.TakeAccounts` and `VideoOrder.LowestIsTaken` |
| `VideoProcess.Process.HandleInput` | kyproto/src/protocol/driver/av/video_unreliable_fec.rs:672-783 | one input continues the run by its own step and then by turns of the drain loop only, until the loop waits or has failed |
| `VideoProcess.Process.DrainAll` | kyproto/src/protocol/driver/av/video_unreliable_fec.rs:719-782 | the inner loop ends, waiting, having continued the given run by takes only |
| `VideoProcess.Process.ProcessAll` | kyproto/src/protocol/driver/av/video_unreliable_fec.rs:663-784 | for every sequence of inputs the whole loop makes a run of the state machine that is fed by exactly these inputs, in order and once each, except deadlines not set and what follows an error; so every theorem about runs holds of it |
| `VideoSender.SendDriver.SendConfig` | kyproto/src/protocol/driver/av/video_unreliable_fec.rs:495-517 | a config opens a new group and carries its packet's true numbers modulo 2^32 |
| `VideoSender.SendDriver.SendMedia` | kyproto/src/protocol/driver/av/video_unreliable_fec.rs:319-399 | every symbol of a packet carries the packet's true numbers modulo 2^32, its own id and the bytes encoded for it |
| `VideoSender.SendDriver.SendCodec` | kyproto/src/protocol/driver/av/video_unreliable_fec.rs:480-494 | a codec record takes no number |
| `VideoSender.GroupOfMonotone` | kyproto/src/protocol/driver/av/video_unreliable_fec.rs:495-517 | group numbers never decrease with packet numbers, and increase at each config |
| `VideoSender.ConfigFirst` | kyproto/src/protocol/driver/av/video_unreliable_fec.rs:495-517 | a config comes before everything else of its group |
| `Fec.DatagramRoundTrip` | kyproto/src/protocol/driver/av/fec.rs:81-100 | a datagram as the sender lays it out parses back to its parts if and only if parameters, block number and symbol size are acceptable |
| `Fec.BlocksCoverObject` | kyproto/src/protocol/driver/av/fec.rs:55-64 | the source symbols of all blocks add up to ceil(F/T) |
| `Fec.PartitionCovers` | kyproto/src/protocol/driver/av/fec.rs:55-64 | the partition of section 4.4.1.2 of RFC 6330 covers its whole in parts that differ by at most one |
| `Fec.ReservationLeavesRoomForConfigs` | kyproto/src/protocol/driver/av/fec.rs:106-132 | the largest reservation `validate_oti` allows leaves room for 32 configs of 1 MiB in 256 MiB |
| `Fec.DecodeAllKeepsInv` | kyproto/src/protocol/driver/av/fec.rs:143-181 | after any sequence of `decode` calls `per_block[b]` is the number of distinct ids held for block b, at most 2*K_b+32, and `received_sources` the number of distinct source ids held |
| `Fec.DecoderCounts` | kyproto/src/protocol/driver/av/fec.rs:143-181 | so the missing count is exactly the number of source ids not received and its subtraction never saturates |
| `Fec.MissingIsExact` | kyproto/src/protocol/driver/av/video_unreliable_fec.rs:1368-1388 | the missing count is the cardinality of the set of source ids of the object not held |
| `Fec.AllSourceIds` | kyproto/src/protocol/driver/av/fec.rs:55-64 | an object has exactly ceil(F/T) source ids |
| `Fec.MediaPacketRoundTrip` | kyproto/src/protocol/driver/av/fec.rs:183-197 | a sender's object is accepted and gives the packet back if and only if it is not a config and its header states its size |
| `Fec.ReadStreamPacket` | kyproto/src/protocol/driver/av/fec.rs:201-231 | what the reliable stream lets through is never a hole, and a media record only if it is a config within the size limit |
| `Fec.StreamPacketRoundTrip` | kyproto/src/protocol/driver/av/fec.rs:201-231 | a record written to the reliable stream is read back, with the rest of the stream left over, if and only if it is an acceptable codec or config |
| `Fec.ObjectDecoder.New` | kyproto/src/protocol/driver/av/fec.rs:144-153 | gives a decoder if and only if the parameters pass `validate_oti`, and its error otherwise; the decoder starts with no symbols and zero counts |
| `Fec.ObjectDecoder.constructor` | kyproto/src/protocol/driver/av/fec.rs:147-152 | the part after validation: no symbols and zero counts |
| `Fec.ObjectDecoder.DecodeSymbol` | kyproto/src/protocol/driver/av/fec.rs:155-180 | the in-place update and the result are those of the specification, which `FecExact.DecodeExact` pins |
| `FecExact.DecodeExact` | kyproto/src/protocol/driver/av/fec.rs:155-180 | every call: other parameters, another block or another size are refused; a symbol held changes nothing; any other one is refused if and only if 2*K_b+32 distinct symbols of its block are held, and otherwise is held and the answer is the solver's on all symbols held |
| `FecExact.EnoughAreTaken` | kyproto/src/protocol/driver/av/fec.rs:155-180 | so twice as many symbols as a block has source symbols are always taken |
| `FecExact.OtiAcceptedIff` | kyproto/src/protocol/driver/av/fec.rs:30-53 | parameters are accepted if and only if the object is within the limit, alignment and sub-blocks fit the symbol, and it is cut into at least one symbol for each block, at most 131072 in all and 56403 for a block, stated without division |
| `FecExact.ReservedByBlock` | kyproto/src/protocol/driver/av/fec.rs:106-111 | a reservation is the sum over the blocks: three times its source symbols' bytes, 128 bytes for each and 4096 for the block |
| `FecExact.ReservationCovers` | kyproto/src/protocol/driver/av/fec.rs:106-111 | and covers the object and two symbols for each source symbol |
| `FecExact.RoomIff` | kyproto/src/protocol/driver/av/fec.rs:113-132 | room is refused if and only if 128 objects are held or the bytes would exceed 256 MiB for video and 8 MiB for audio |
| `FecExact.ParsedIsLaidOut` | kyproto/src/protocol/driver/av/fec.rs:81-100 | only what a sender lays out is accepted: an accepted datagram is prefix, parameters, id and symbol, all acceptable |
| `SourceFirst.SourcePackets` | kyproto/src/protocol/driver/av/source_first.rs:6-36 | as many packets as source symbols, one for each source id, each of the symbol size, and putting the symbols together and truncating gives the data back |
| `SourceFirst.EncodeBlock` | kyproto/src/protocol/driver/av/source_first.rs:10-34 | one block more is encoded: its ids are 0..K_b-1 and the blocks so far recover the padded data so far |
| `SourceFirst.Interleave` | kyproto/src/protocol/driver/av/source_first.rs:20-30 | the nested loops use up exactly the padded block, give every symbol the symbol size, and de-interleaving returns the block |
| `SourceFirst.AppendBlock` | kyproto/src/protocol/driver/av/source_first.rs:31-33 | the symbols of a block are numbered from zero, without touching other blocks |
| `SourceFirst.SubBlocksFillSymbol` | kyproto/src/protocol/driver/av/source_first.rs:16-24 | the sub-block widths of a symbol add up to the symbol size |
| `SourceFirst.ValidIsPartitionable` | kyproto/src/protocol/driver/av/fec.rs:30-53 | every object that passes `validate_oti` meets what the interleaver needs |
| `Sequencer.Unroller.Seq` | kyproto/src/protocol/driver/util/seq.rs:78-93 | the update of the newest number in place follows the specification |
| `Sequencer.UnrollIsNearest` | kyproto/src/protocol/driver/util/seq.rs:83-92 | the result is the number congruent to the input in (newest - half, newest + half], or one range above it when that would be negative |
| `Sequencer.UnrollExactIff` | kyproto/src/protocol/driver/util/seq.rs:83-92 | a number is recovered from its remainder if and only if it lies in the window, or above it within the first range |
| `Sequencer.RunRecovered` | kyproto/src/protocol/driver/util/seq.rs:74-96 | every run whose numbers stay in the window of the running maximum is recovered number by number |
| `Sequencer.NewestBound` | kyproto/src/protocol/driver/util/seq.rs:83-92 | how fast the newest number can grow, hence for how many calls 64 bits suffice |
| `GopStream.DeliveredInOrder` | kyproto/src/protocol/driver/av/video_gopstream.rs:330-409 | in every interleaving of stream arrivals, reader tasks and the receive loop: stream numbers never decrease, codec and config generations only increase, and media comes after exactly the codec and config its stream was opened with, even if earlier streams were abandoned in their header |
| `GopStream.OrderedAt` | kyproto/src/protocol/driver/av/video_gopstream.rs:330-409 | the same, packet by packet |
| `GopStream.CodecOnce` | kyproto/src/protocol/driver/av/video_gopstream.rs:381-388 | no codec generation is forwarded twice |
| `GopStream.ConfigOnce` | kyproto/src/protocol/driver/av/video_gopstream.rs:389-397 | no config generation is forwarded twice |
| `GopStream.MediaIsPrefix` | kyproto/src/protocol/driver/av/video_gopstream.rs:377-404 | of every stream the client is given a first part of its media, in order and without gaps |
| `GopStream.LatestIsCurrent` | kyproto/src/protocol/driver/av/video_gopstream.rs:347-379 | read off the events: the current stream is the one with the greatest id of all that arrived and whose ids are not waiting in the queue, so of all that arrived once the queue is empty |
| `GopStream.CurrentIsGiven` | kyproto/src/protocol/driver/av/video_gopstream.rs:381-409 | of the current stream the client has, behind its codec and config generations, all media read so far but what waits in the queue |
| `GopStream.NeverPanics` | kyproto/src/protocol/driver/av/video_gopstream.rs:378-399 | a packet is never handled before some stream's ids, and never is a hole |
| `GopStream.RecvDriver.Recv` | kyproto/src/protocol/driver/av/video_gopstream.rs:330-409 | consumes exactly the messages up to the first one that yields a packet, and yields it; what it does with them is pinned by `GopStream.LatestIsCurrent` and `GopStream.CurrentIsGiven` |
| `GopStream.Sender.SendCodec` | kyproto/src/protocol/driver/av/video_gopstream.rs:136-139 | a codec raises the codec generation |
| `GopStream.Sender.SendConfig` | kyproto/src/protocol/driver/av/video_gopstream.rs:141-143 | a config raises the config generation |
| `GopStream.Sender.SendMedia` | kyproto/src/protocol/driver/av/video_gopstream.rs:144-202 | a key packet opens a stream with the current codec and config in front, other media goes to the current stream, and before the first key packet it is dropped |
| `Control.NoLostWakeup` | kyproto/src/control.rs:148-185 | once every message was handled, a ready notifier is woken if and only if the other side called `ready` for the id often enough to match it, for any number of notifiers |
| `Control.ReadyNeedsPeer` | kyproto/src/control.rs:52-64 | `ready` completes only if the other side called `ready` for the same id, at least as often as notifiers were made here up to this one |
| `Control.OnePairMeets` | kyproto/src/control.rs:52-64 | with one notifier for an id on each side, both calls of `ready` complete |
| `Control.NeverParkedTwice` | kyproto/src/control.rs:280-298 | between two correct peers no second `Ready` for an id arrives while one is parked, so the branch that loses it is not reached |
| `Control.Peer.BeginRegister` | kyproto/src/control.rs:126-139 | records the pending acknowledgement, or refuses an id already pending |
| `Control.Peer.SendRegistration` | kyproto/src/control.rs:141-142 | sends the request |
| `Control.Peer.RegisterReadyNotifier` | kyproto/src/control.rs:148-185 | waits for the remote, takes a readiness already parked, or refuses a second waiter |
| `Control.Peer.SendReady` | kyproto/src/control.rs:53-58 | announces readiness |
| `Control.Peer.Handle` | kyproto/src/control.rs:250-302 | new tables, messages and error of each kind of message, in place, including the error when the waiter was dropped |
| `ControlRegistration.CompletedIsRecorded` | kyproto/src/control.rs:126-146 | a registration completes only after the other peer recorded the id |
| `ControlRegistration.CompletedOnce` | kyproto/src/control.rs:250-279 | at most one registration of each id ever completes, and once every message was handled exactly one of each requested id has |
| `ControlRegistration.FirstCompletes` | kyproto/src/control.rs:126-146 | registration by registration: only the first of its id ever completes, and once every message was handled one that was sent has completed if and only if it is the first of its id |
| `ControlRegistration.RepeatedWaits` | kyproto/src/control.rs:250-268 | for every id a run that registers it twice: everything is handled and the second registration, sent and not dropped, still waits |
| `ControlRegistration.OnlyRepeatedRequestsFail` | kyproto/src/control.rs:250-302 | between two correct peers the handler fails exactly on the repeated request of an id and on an answer whose waiter was dropped, with the error of each |
| `ControlRefusal.RegistrationRefusedIff` | kyproto/src/control.rs:126-139 | in every run a registration is refused if and only if one of the same id is not acknowledged |
| `ControlRefusal.NotifierRefusedIff` | kyproto/src/control.rs:148-185 | in every run a ready notifier is refused if and only if one of the same id is not woken |
| `EndpointIds.SidesNeverCollide` | kyproto/src/lib.rs:420-423 | the two sides never allocate the same id, however often their counters wrap around |
| `EndpointIds.RepeatsAfterWrap` | kyproto/src/lib.rs:420-423 | one side repeats an id exactly every 32768 allocations |
| `EndpointIds.Allocator.GetEndpointId` | kyproto/src/lib.rs:420-423 | the wrapping fetch-and-add returns the n-th id of the side |
| `Reassembly.ReassembledIff` | kyproto/src/protocol/driver/av/video_unreliable.rs:900-920 | for every packet and datagram size: no assertion fails and the packet sent is assembled exactly when its last missing datagram arrives, for every arrival order with duplicates, if and only if the packet takes at most 2^31 datagrams |
| `Reassembly.TooManyDatagrams` | kyproto/src/protocol/driver/av/video_unreliable.rs:323-324 | with more, the datagram whose number reaches the end flag is taken for a whole packet if it arrives first |
| `Reassembly.SendDatagrams` | kyproto/src/protocol/driver/av/video_unreliable.rs:297-347 | the loop cuts the packet into the specified datagrams |
| `Reassembly.SplitJoins` | kyproto/src/protocol/driver/av/video_unreliable.rs:314-343 | cutting loses nothing |
| `Reassembly.SplitCount` | kyproto/src/protocol/driver/av/video_unreliable.rs:314-343 | the number of datagrams is the size divided by the payload size, rounded up |
| `Reassembly.ParseSerialized` | kyproto/src/protocol/driver/av/video_unreliable.rs:515-526 | the datagram header is read back as written |
| `Reassembly.CompleteWhenAll` | kyproto/src/protocol/driver/av/video_unreliable.rs:975-987 | the segments are complete exactly when all pieces arrived, and then merge to the data, with the byte count kept |
| `Reassembly.DatagramSegments.Set` | kyproto/src/protocol/driver/av/video_unreliable.rs:989-1004 | fills a free slot once, keeps counts and total, and reports the failed assertion |
| `Reassembly.DatagramSegments.MergeSegments` | kyproto/src/protocol/driver/av/video_unreliable.rs:979-987 | the loop joins all segments or reports the missing one |
| `Reassembly.DatagramSegments.AssemblePacket` | kyproto/src/protocol/driver/av/video_unreliable.rs:1006-1023 | header and payload of the merged data |
| `AudioReceiver.HolesAddUp` | kyproto/src/protocol/driver/av/audio_unreliable_fec.rs:362-421 | in every run with one frame size: holes never exceed frame_size * `dropped_packets` and equal it if and only if no gap is clamped, every hole passes its own deserializer, and the output is the timeline of what was forwarded |
| `AudioReceiver.AudioTimeline` | kyproto/src/protocol/driver/av/audio_unreliable_fec.rs:362-421 | if the config is the first sequenced packet: numbers strictly increase, forwarded + dropped = `next_kypacket_seq`, and packets and holes cover the time up to it if and only if no gap is clamped |
| `AudioOutput.OutputIsTimeline` | kyproto/src/protocol/driver/av/audio_unreliable_fec.rs:321-421 | in every run, with any codecs: the codec records given are those received, in order; the frame size is the last one received; before each packet stands the hole for exactly what is missing before it, at the frame size then in force, and there is no other hole |
| `AudioOutput.CodecInPlace` | kyproto/src/protocol/driver/av/audio_unreliable_fec.rs:321-335 | each codec record stands behind everything given before it came and in front of everything given later |
| `AudioExact.BufferIsExact` | kyproto/src/protocol/driver/av/audio_unreliable_fec.rs:584-613 | in every run of any peer, of every packet not below any next number so far, the buffer holds exactly what the symbols that arrived have made of it, dated by the step that completed it |
| `AudioExact.GivenUpToTheFirstIncomplete` | kyproto/src/protocol/driver/av/audio_unreliable_fec.rs:362-421 | if the config is first, whenever the loop waits: before anything was given no config came, and afterwards the next packet was not completed by what arrived |
| `AudioRefusal.SymbolRefusedIff` | kyproto/src/protocol/driver/av/audio_unreliable_fec.rs:584-633 | in every run of any peer the next symbol ends the run if and only if there is a reason: parameters, a bad symbol, no room, a full block, no media packet |
| `AudioRefusal.StreamRefusedIff` | kyproto/src/protocol/driver/av/audio_unreliable_fec.rs:565-582 | likewise a record: a codec without frame size, no config, a second config, no room |
| `AudioProgress.HolePlacement` | kyproto/src/protocol/driver/av/audio_unreliable_fec.rs:381-419 | in every such run every packet after a gap has the hole for exactly that gap directly before it, and there is no other hole |
| `AudioProgress.DrainLeavesNothing` | kyproto/src/protocol/driver/av/audio_unreliable_fec.rs:362-421 | if the config is first, also when the codec changes: whenever the loop waits, the next expected packet is not ready |
| `AudioProgress.DeadlineIsEarliest` | kyproto/src/protocol/driver/av/audio_unreliable_fec.rs:683-690 | the deadline is the end of the window of the packet completed first, lies in the future, and waking up at or after it forwards a packet |
| `AudioProgress.WaitIsBounded` | kyproto/src/protocol/driver/av/audio_unreliable_fec.rs:362-376 | in every run of any peer, whenever the loop waits: a deadline is set if and only if the config came and a completed packet is held, and it is the earliest completion time plus 10 ms |
| `AudioProgress.EveryStateWithinBudget` | kyproto/src/protocol/driver/av/audio_unreliable_fec.rs:535-556 | whatever the peer sends, and also in the state left by a rejected message: at most 128 objects and 8 MiB are held |
| `AudioReceiver.HolesCoverMissing` | kyproto/src/protocol/driver/av/audio_unreliable_fec.rs:399-403 | the samples of the holes against the packets missing, by gap |
| `AudioReceiver.TakeAhead` | kyproto/src/protocol/driver/av/audio_unreliable_fec.rs:710-737 | what is taken is the next packet or a later one, and what stays comes after it |
| `AudioOrder.OrderIff` | kyproto/src/protocol/driver/av/audio_unreliable_fec.rs:362-421 | run by run, for any peer: media numbers increase behind the config; all numbers increase, and likewise forwarded + dropped = `next_kypacket_seq`, if and only if the config is numbered below the first media packet forwarded |
| `AudioOrder.OrderDecided` | kyproto/src/protocol/driver/av/audio_unreliable_fec.rs:653-703 | the condition at the take that forwards the config: once media has followed, order and counts hold if and only if no completed packet was then numbered at or below the config, whatever arrives later |
| `AudioOrder.ConfigIsFirst` | kyproto/src/protocol/driver/av/audio_unreliable_fec.rs:653-703 | in every run, whatever the peer sends, the first numbered packet forwarded is a config |
| `AudioLateConfig.InOrderIff` | kyproto/src/protocol/driver/av/audio_unreliable_fec.rs:693-698 | from the empty receiver, for every two numbers: a media packet and then the config end in order, and add up, if and only if the config is numbered below the media packet, within half the range of the counter |
| `AudioLateConfig.ScenarioExists` | kyproto/src/protocol/driver/av/audio_unreliable_fec.rs:584-613 | such runs exist for every two numbers and every media packet that fits one symbol |
| `AudioGroup.PendingGroup.CheckRoom` | kyproto/src/protocol/driver/av/audio_unreliable_fec.rs:535-556 | the summing loops compute the specified charge |
| `AudioGroup.PendingGroup.InsertStreamPacket` | kyproto/src/protocol/driver/av/audio_unreliable_fec.rs:565-582 | accepts one config and nothing else |
| `AudioGroup.PendingGroup.PrepareDatagramSegments` | kyproto/src/protocol/driver/av/audio_unreliable_fec.rs:615-633 | finds or opens the object at its sorted place after validation and the budget check |
| `AudioGroup.PendingGroup.InsertSymbol` | kyproto/src/protocol/driver/av/audio_unreliable_fec.rs:584-613 | feeds the symbol, and moves the object over once it is complete |
| `AudioGroup.PendingGroup.FindMinInstant` | kyproto/src/protocol/driver/av/audio_unreliable_fec.rs:705-708 | the earliest completion time |
| `AudioGroup.PendingGroup.FindNext` | kyproto/src/protocol/driver/av/audio_unreliable_fec.rs:653-703 | the choice of the next packet or deadline |
| `AudioGroup.PendingGroup.TakeNextPacket` | kyproto/src/protocol/driver/av/audio_unreliable_fec.rs:710-737 | new state and action are those of the specification |
| `AudioProcess.Process.HandleStream` | kyproto/src/protocol/driver/av/audio_unreliable_fec.rs:321-335 | one stream message makes one step of the state machine, pinned by `AudioOutput.OutputIsTimeline` and `AudioRefusal.StreamRefusedIff` |
| `AudioProcess.Process.HandleDatagram` | kyproto/src/protocol/driver/av/audio_unreliable_fec.rs:336-347 | one datagram makes one step of the state machine |
| `AudioProcess.Process.TakeOnce` | kyproto/src/protocol/driver/av/audio_unreliable_fec.rs:365-420 | one turn of the inner loop makes one step, and either stops the loop or shrinks what can be taken |
| `AudioProcess.Process.ForwardPacket` | kyproto/src/protocol/driver/av/audio_unreliable_fec.rs:381-419 | forwards a packet with the hole before it, or fails before the first codec |
| `AudioProcess.Process.HandleInput` | kyproto/src/protocol/driver/av/audio_unreliable_fec.rs:315-422 | one input continues the run by its own step and then by turns of the drain loop only |
| `AudioProcess.Process.DrainAll` | kyproto/src/protocol/driver/av/audio_unreliable_fec.rs:362-421 | the inner loop ends having continued the given run by takes only |
| `AudioProcess.Process.ProcessAll` | kyproto/src/protocol/driver/av/audio_unreliable_fec.rs:306-423 | for every sequence of inputs the whole loop makes a run of the state machine that is fed by exactly these inputs, in order and once each, except deadlines not set and what follows an error |
| `EndpointMap.KyCom.NextVacant` | kycom/src/server.rs:111-123 | the wrapping search ends, by the cyclic distance to the next vacant id, at the first vacant id from `next_id` on |
| `EndpointMap.VacantExists` | kycom/src/server.rs:107-108 | with fewer than 2^16 ids taken there is a vacant one within a turn |
| `EndpointMap.KyCom.RegisterChannel` | kycom/src/server.rs:101-128 | registers the first vacant id, or fails once the listener has stopped |
| `EndpointMap.KyCom.HandleConnection` | kycom/src/server.rs:168-180 | resolves the channel waiting under the connection's id, if any |
| `EndpointMap.KyCom.DropGuard` | kycom/src/server.rs:46-56 | tells exactly the waiting channels, in whatever order the map is walked |
| `EndpointMap.ResolvedOnce` | kycom/src/server.rs:162-181 | in every run each channel is resolved at most once, only by a connection with its own id, and all are resolved once the listener has stopped |
| `EndpointMap.WaitingIdsDiffer` | kycom/src/server.rs:111-123 | no two channels wait under the same id |
| `EndpointMap.GoesRoundFirst` | kycom/src/server.rs:111-123 | in every run, whatever was resolved in between: an id is given again only after the search has passed all 65536 ids |
| `EndpointMap.GivenToItsChannel` | kycom/src/server.rs:162-181 | what each accepted connection and the stop send to each channel, and that they send nothing else |
| `AvPacket.ReadWritten` | kymux-types/src/av.rs:200-249 | a written packet is read back, with the rest of the stream left over, if and only if the header can tell it apart |
| `AvPacket.StreamRoundTrip` | kymux-types/src/av.rs:200-249 | a whole stream of such packets is read back |
| `AvPacket.MediaHeaderRoundTrip` | kymux-types/src/av.rs:113-154 | media headers survive serialization and carry the media bit |
| `AvPacket.CodecHeaderRoundTrip` | kymux-types/src/av.rs:82-111 | codec headers survive serialization |

## Left out

- RaptorQ matrix solving and repair bytes: an external library; the solver is a parameter.
- The count of repair packets, a 30% rule in `f32`: it decides how many symbols are sent, not what they mean.
- Network drivers, TLS, certificates, sockets and telemetry text: input and output.
- Tasks, channels and cancellation: nondeterministic steps over queues; a bounded channel that blocks is a step that happens later.
- 64-bit overflow of sequence numbers: `Sequencer.NewestBound` says when it could first occur; statistics and lengths are unbounded.
- 32-bit overflow of the generation and stream counters of the one-stream-per-GOP sender, which panics in debug builds: counters are unbounded.
- The one-packet-per-event loop and the vectors of pending groups of the drivers without FEC: reassembly is modelled packet by packet, and the ordering buffer with FEC only.
- `audio_unreliable.rs`: it repeats the splitting and the buffering modelled here.
- Pending groups as separately allocated objects: a group is a value owned by its vector, so sharing between groups cannot be expressed; the source has none.
- URL parsing, MessagePack encoding, authentication tokens, reliable pass-through drivers and clock synchronisation: thin or library code.
- Liveness beyond progress of the loops: that a network eventually delivers is a condition of the theorems, not a claim.
- VideoOrder.OrderAndAccounting: not stated for a peer that numbers configs against packet order, where `VideoLateConfig.InOrderIff` refutes it; the exact condition is proved for one media packet and one config of a group, not for every run of such a peer.
- VideoExact.ReorderExact: assumes nothing is retired or rejected, as the property does; that no deadline expires is needed exactly (`VideoExact.GaplessIff`), and what holds without these is `VideoOrder.OrderAndAccounting`.
- AudioReceiver.AudioTimeline: states the case of a config numbered first; the exact condition for order and counts, run by run, is `AudioOrder.OrderIff`.
- Reassembly.SendDatagrams: requires the datagram payload to stay below 65536 bytes, which the source asserts.
- EndpointMap.KyCom.RegisterChannel: requires fewer than 65536 pending ids, which the source asserts.
- GopStream.Sender.SendMedia: requires a codec and a config before the first key packet, which the source unwraps.
