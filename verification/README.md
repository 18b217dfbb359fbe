# Soothe client: a verified model

The Soothe client talks to a daemon over one WebSocket. Behind its thin RPC methods sit four stateful or
algebraic parts and two small protocols, and this project models them in Dafny and proves what they are for:

- **Turn lifecycle.** A session reader decides which frames belong to the current turn and which frame ends
  it (`turn_gates.dfy`, `frames.dfy`, `session_reader.dfy`, `session_theorems.dfy`, `session_chunks.dfy`,
  `daemon_session.dfy`).
  The pool path implements the same contract a second time (`turn_boundary.dfy`); `turn_agreement.dfy` proves
  where the two agree. `turn_delivery.dfy` follows frames from the socket to the end of a turn.
- **Card ledger.** Cards are keyed, aligned, diffed, folded, compacted and mirrored on a client (`cards.dfy`,
  `card_ledger.dfy`, `card_history.dfy`, `card_alignment.dfy`, `card_keys.dfy`, `card_diff.dfy`, `card_sync.dfy`,
  `card_projection.dfy`, `card_rebinds.dfy`).
- **Queues and routing.** The evicting inbound queue, the pending deque that RPC waits spill into, delivery
  acknowledgements, and the threaded outbound priority queue (`inbound_queue.dfy`, `frame_routing.dfy`,
  `frame_client.dfy`, `delivery_acks.dfy`, `outbound_pipeline.dfy`, `outbound_eviction.dfy`, `turn_pipeline.dfy`).
- **Identifiers and normal forms.** Unified tool-call ids and spawn tables, the wire form of messages, and
  streamed tool arguments (`task_namespace.dfy`, `spawn_history.dfy`, `wire_codec.dfy`, `tool_call_stream.dfy`).
- **Service turns and slots** (`turn_runner.dfy`, `connection_pool.dfy`).

`python_text.dfy`, `json_values.dfy`, `ordered_dict.dfy` and `sequences.dfy` give the Python notions the rest
is written in. Objects whose methods update fields are classes; each loop is proved to do what a function or a
transition system says, and the theorems are about those. Every `await` and every operation on a thread-shared
queue is a step, so "every run" means every interleaving. Check everything with `dafny verify dfyconfig.toml`.

## What the proofs turned up

Properties that do not hold of the code as written; for each, the exact condition or the whole failing family
is proved.

- A log that patches a card's `tool_status` to a string outside the six known names folds, but its compacted
  log does not (`CompactionReplacesHistory`, `UnknownStatusBreaksCompaction`).
- Repeated user, queued-user, error, app or summary text gives one stable key to two cards, and the ledger then
  stores fewer ids than the aligned list has (`StoresAlignedIdsIffKeysDistinct`, `RepeatedTextRepeatsKey`,
  `SayingItTwice`). `SharedKeyExactlyWhen` says of every type when two cards share a key, a diff whose path reads like
  a hash and a skill named like a number included.
- The forced drop of the inbound queue puts entries back onto a queue it has already refilled: the important
  frame and the end-of-stream sentinel after it are lost, two drops are counted for none, and the reader is
  over (`ForcedDropLosesFrameAndSentinel`).
- The docstring of `_inbound_frame_drop_priority` says terminal frames are never dropped. Bare ones are not;
  one wrapped in a subscription envelope is a drop candidate unless the payload's own type or the outer frame
  happens to keep it, even after it was acknowledged (`DroppableEnvelopes`, `WrappedAckedFramesAreDroppable`).
- The end sentinel of the outbound queue is lost exactly when the eviction finds no LOW entry, and then the
  consumer waits for ever (`SentinelLostExactlyWhen`; `EndIsLost` and `EndIsLostWithRoom` for two runs, the second
  with the queue empty by then).
- The outbound consumer receives an entry out of age order within its priority exactly when an eviction has
  already drained an older one of that priority (`OutOfOrderExactlyWhen`, `PatientConsumersKeepOrder`, and
  `EvictionCanReorder` for a run).
- A namespace bound to a spawn stays with it exactly until a tool id of a task of another step is met in it
  (`BindingKeptExactlyWhen`).
- A subgraph row key follows its binding exactly when the stamped id is neither empty nor a bare `functions.`
  (`RowKeyFollowsBinding`).
- The pool path counts progress that the session reader drops early, so it can end a turn the reader does not
  (`DroppedProgressSplitsThem`). It also makes a boundary that remembers no completed generation for every turn,
  where a session does: at a running status of a completed generation the bindings part, exactly if the reader
  is bound to no generation (`BindingsPartExactlyWhen`). Then the boundary can end a turn that the reader reads
  on in (`OutdatedTurnSplitsThem`), or stay open where the reader ends (`OutdatedTurnKeepsBoundaryOpen`). When it
  ends, a reader that still reads ends with it exactly if the frame is heard, some progress was heard that
  nothing cleared, and both are bound to one turn (`MachinesEndTogetherExactlyWhen`).
- A chunk of a tool call changes another call's arguments exactly when it names no pending call, registers none,
  carries text, and another call is active (`ChangesAnotherExactlyWhen`).
- An acquire that fails to connect releases its own slot exactly when that is still its session's active one;
  with two overlapping acquires of a session the failure of the first takes the slot of the second
  (`FailureWithdrawsOwnExactlyWhen`, `OverlappingAcquiresShareFate`).

## Model

| member | source | states |
|---|---|---|
| TurnGates.GenerationRoundTrip | src/soothe_client/turn_boundary.py:13-32 | a generation is recovered from a formatted turn id exactly when the loop id is not blank and the generation is positive |
| TurnGates.TurnEndIsNoProgress | src/soothe_client/stream_terminal.py:64-99 | a turn-end payload never counts as progress |
| TurnGates.MatchingIdsShareGeneration | src/soothe_client/turn_boundary.py:22-73 | ids that match, compared trimmed, have one generation |
| TurnGates.BindingClearsFloor | src/soothe_client/turn_boundary.py:139-163 | an id that may bind is newer than every completed generation, or has no generation |
| TurnGates.EndsATurnExactlyWhen | src/soothe_client/stream_terminal.py:64-74 | exactly which payloads end a turn: a completed loop, or a stream end whose scope is the turn, blank or missing |
| TurnGates.ProgressesExactlyWhen | src/soothe_client/stream_terminal.py:82-99 | exactly which chunks count as progress |
| Frames.TurnsAreNamed | src/soothe_client/turn_boundary.py:35-47 | a frame names its turn itself or else by its data, a turn end by its data or else as its frame |
| Frames.ChunksAreVerbatim | src/soothe_client/appkit/daemon_session.py:632-660 | a chunk is the frame's own namespace, mode and data, and the early-drop filter judges just these |
| Frames.AcknowledgesExactlyWhen | src/soothe_client/appkit/daemon_session.py:626-630 | a cancellation is acknowledged exactly by a command response whose content says so |
| Frames.CancelsExactlyWhen | src/soothe_client/stream_terminal.py:27-34 | a stream end is a cancellation exactly for four reasons, in any case |
| Frames.BothUnwrappingsAgree | src/soothe_client/appkit/turn_boundary.py:153-187 | bare frames and plainly wrapped ones look the same to both turn readers, each unwrapping them its own way |
| Frames.NormalizesExactly | src/soothe_client/appkit/turn_boundary.py:153-187 | what the pool path sees of any frame: the frame, the status inside, the event inside, the event the payload is, or nothing |
| SessionReader.RunSplits | src/soothe_client/appkit/daemon_session.py:386-707 | a run over two stretches of input is the second run from where the first ended |
| SessionTheorems.GenerationsStrictlyIncrease | src/soothe_client/appkit/daemon_session.py:555-696 | over any number of calls and any frames, generations of accepted terminals strictly increase between floor resets, successors met in the drain included |
| SessionTheorems.TerminalProvenance | src/soothe_client/appkit/daemon_session.py:555-696 | an accepted terminal ends a turn whose id an earlier running status of the call announced and nothing rebound; a turn-end event carries that id after real progress; idle or stopped needs progress or a cancellation, and may omit its id only after one |
| SessionTheorems.AcceptedExactlyWhen | src/soothe_client/appkit/daemon_session.py:492-696 | after any run, the next frame ends the turn if and only if it passes the filters, the log shows its turn bound in the call, and the progress or cancellation it needs |
| SessionChunks.ChunksAreThoseThatPass | src/soothe_client/appkit/daemon_session.py:312-696 | over any run, calls and drains and successors included, the chunks handed out are those of the frames that pass, each once and in order |
| SessionChunks.YieldedExactlyWhen | src/soothe_client/appkit/daemon_session.py:492-672 | after any run, the next frame is handed out if and only if it is a kept event of the loop above the floor of the call, of the turn the log shows bound if any, and, when a turn end, one that ends that turn |
| SessionChunks.DrainedExactlyWhen | src/soothe_client/appkit/daemon_session.py:312-378 | a drain hands out exactly the kept events of the loop |
| SessionChunks.BoundExactlyWhen | src/soothe_client/appkit/daemon_session.py:555-588 | after any run, a running status binds its turn if and only if it passes, its generation is above every one completed, and it is no older than the generation bound; it may be newer |
| SessionChunks.ReleasedExactlyWhen | src/soothe_client/appkit/daemon_session.py:339-362 | a drain hands over exactly at a running status of the loop with a generation above every one completed |
| SessionChunks.CancelSeenExactlyWhen | src/soothe_client/appkit/daemon_session.py:621-683 | a cancellation is noted exactly at an acknowledgement of one and at a stream end with a cancel reason that ends the turn |
| SessionChunks.NoReplayAfterTerminal | src/soothe_client/appkit/daemon_session.py:501-511 | once a numbered terminal ended a turn, no later call uses a frame with that number or a lower one, until the floors are reset |
| SessionChunks.CallEndsExactlyWhen | src/soothe_client/appkit/daemon_session.py:441-487 | when a call that reads is over, and with which outcome |
| SessionChunks.DrainEndsExactlyWhen | src/soothe_client/appkit/daemon_session.py:328-378 | when a drain is over, and with which outcome |
| SessionChunks.StartsExactlyWhen | src/soothe_client/appkit/daemon_session.py:555-588 | a call has started once it met a running status that passes and binds or names no turn |
| SessionChunks.ForgetsExactlyWhen | src/soothe_client/appkit/daemon_session.py:102-106 | what a reconnect and a bootstrap into another loop forget, and one into the same loop does not |
| SessionChunks.DrainsFollowTheirLoop | src/soothe_client/appkit/daemon_session.py:345-349 | a status met in a drain moves session and drain to the loop it names |
| SessionTheorems.FramesAreFaithful | src/soothe_client/stream_terminal.py:64-99 | views of real frames meet the one assumption of the run theorems |
| SessionTheorems.LogComesFromInputs | src/soothe_client/appkit/daemon_session.py:492-696 | everything yielded, bound or accepted came from a frame that was read |
| SessionTheorems.FloorsNeverFall | src/soothe_client/appkit/daemon_session.py:102-113 | the sequence and generation floors only rise between resets |
| SessionTheorems.StaleFramesLeaveNoTrace | src/soothe_client/appkit/daemon_session.py:492-504 | deleting every frame of another loop or at or below the floor changes nothing the main loop does, up to its first terminal |
| DaemonSession.Session.IterTurnChunks | src/soothe_client/appkit/daemon_session.py:386-707 | the reader loop hands out exactly the chunks of the frames that pass, ends with exactly the outcome, and leaves exactly the frames, of the transition system on what arrives; a successor put back stays for the next call when a deadline has passed meanwhile |
| DaemonSession.ServeIsARun | src/soothe_client/appkit/daemon_session.py:386-707 | every call is a run of the transition system on inputs that all arrived, so the theorems about runs hold of it |
| DaemonSession.Session.DrainStreamEventsAfterIdle | src/soothe_client/appkit/daemon_session.py:312-378 | the drain runs the transition system until the window closes, an error arrives, or a successor's running frame is put back |
| DaemonSession.Session.ReadFrame | src/soothe_client/appkit/daemon_session.py:492-696 | one main-loop frame: filters, error, status, cancel acknowledgement, event |
| DaemonSession.Session.ResetTurnSeqFloor | src/soothe_client/appkit/daemon_session.py:102-106 | both floors and the binding are cleared |
| DaemonSession.Session.NoteCompletedTurnGen | src/soothe_client/appkit/daemon_session.py:108-113 | the generation floor becomes the maximum with the id's generation |
| DaemonSession.HandoverRereads | src/soothe_client/appkit/daemon_session.py:345-362 | the successor frame a drain puts back is the next to be read, by the main loop, unbound, or by the next call when a deadline has passed |
| TurnAgreement.TurnEndMachinesAgree | src/soothe_client/appkit/turn_boundary.py:40-141 | on the same raw frames, from a session with any past and a boundary made anew: if no running status is of a completed generation, the boundary has ended whenever the reader has accepted a terminal; if no chunk is dropped they end on the same frame, for corresponding reasons, at the same generation |
| TurnAgreement.BoundaryEndsNoLater | src/soothe_client/appkit/turn_boundary.py:106-136 | the same simulation on normalised frames, from any related pair of states |
| TurnAgreement.BindingsPartExactlyWhen | src/soothe_client/turn_boundary.py:139-163 | before the boundary ends, the two bind the same turns at every frame if and only if no running status of a completed generation meets a reader bound to no generation |
| TurnAgreement.SameFrameSameReason | src/soothe_client/appkit/turn_boundary.py:106-141 | lockstep when every chunk is kept and carries the bound id |
| TurnAgreement.DroppedProgressSplitsThem | src/soothe_client/appkit/turn_boundary.py:65-69 | with dropped chunks they can part: on a running status, an update that the filter drops and the end of the stream, the boundary ends and the reader reads on |
| TurnAgreement.OutdatedTurnSplitsThem | src/soothe_client/appkit/daemon_session.py:555-577 | on a running status of any completed generation, progress and the end of that turn, the boundary ends and the reader reads on |
| TurnAgreement.OutdatedTurnKeepsBoundaryOpen | src/soothe_client/appkit/turn_boundary.py:40-69 | on progress, running statuses of a completed and a later generation and the end of the later turn, the reader ends and the boundary does not |
| TurnAgreement.EndTogetherExactlyWhen | src/soothe_client/appkit/turn_boundary.py:106-141 | when the boundary ends on a frame, a reader that still reads ends on it if and only if the frame is heard, some progress chunk was heard that nothing cleared since, and both are bound to one turn |
| TurnAgreement.MachinesEndTogetherExactlyWhen | src/soothe_client/appkit/daemon_session.py:555-696 | the same on raw frames, from a session with any past and a boundary made anew; without an outdated running status the reader does still read and is bound to the same turn |
| TurnAgreement.FlagIsProgressHeard | src/soothe_client/appkit/daemon_session.py:580-663 | the reader's progress flag is exactly progress heard and not cleared by a rebind |
| TurnBoundaries.TurnLifecycleGate.Observe | src/soothe_client/appkit/turn_boundary.py:40-69 | binding, rebinding that loses progress, and progress of one frame |
| TurnBoundaries.TurnBoundary.Feed | src/soothe_client/appkit/turn_boundary.py:106-141 | one decoded frame; once ended, nothing changes |
| TurnBoundaries.FeedsExactly | src/soothe_client/appkit/turn_boundary.py:40-141 | by the fields of the gate: which turn one frame binds, when progress is seen or cleared, and exactly when the turn ends |
| TurnBoundaries.ReasonsAreNamed | src/soothe_client/appkit/turn_boundary.py:26-28 | the names under which a turn ends |
| Cards.WireRoundTrip | src/soothe_client/display/card_ledger.py:96-121 | a card survives the wire if and only if its tool status is a name the wire knows |
| CardLedger.FoldIsFoldCards | src/soothe_client/display/card_ledger.py:163-213 | sequence numbers, loop ids and headers never influence the cards |
| CardLedger.ReplayCreates | src/soothe_client/display/card_ledger.py:227-259 | replaying the create records of a ledger rebuilds its cards in order, exactly when every tool status is known |
| CardLedger.CompactionReplacesHistory | src/soothe_client/display/card_ledger.py:163-259 | a log may be replaced by its compaction under every later suffix if and only if the folded cards have known statuses |
| CardLedger.NamedStatusesStayKnown | src/soothe_client/display/card_ledger.py:200-209 | a log whose patches name real statuses always compacts |
| CardLedger.UnknownStatusBreaksCompaction | src/soothe_client/display/card_ledger.py:106-121 | a finalize with another status folds, and its compaction does not |
| CardLedger.InMemoryCardLedger.ApplyMutation | src/soothe_client/display/card_ledger.py:163-213 | one mutation, or the reason it is refused and no change |
| CardLedger.InMemoryCardLedger.Replay | src/soothe_client/display/card_ledger.py:248-259 | a log folded up to its first failure |
| CardHistory.LatestState | src/soothe_client/display/card_ledger.py:163-213 | after any log that folds, a card is what its last create made it, with every updatable field set by the last later patch that names it |
| CardHistory.PatchReaches | src/soothe_client/display/transcript_types.py:21-57 | a patch never changes id, type, timestamp or one of the five fixed fields, and sets every other field it names |
| CardHistory.OrderOfFirstCreates | src/soothe_client/display/card_ledger.py:163-217 | cards stand in the order of their first create, however often they are created |
| CardHistory.RefusedExactlyWhen | src/soothe_client/display/card_ledger.py:163-213 | exactly which records are refused, and why |
| CardHistory.MakesACardExactlyWhen | src/soothe_client/display/card_ledger.py:106-121 | exactly which payloads make a card, and with which defaults |
| CardHistory.NextIsAboveEveryRecord | src/soothe_client/display/card_ledger.py:163-213 | the next number is above every record folded and above nothing else |
| CardHistory.LoopIsTheFirstNamed | src/soothe_client/display/card_ledger.py:176-189 | a ledger made for no loop takes the first that a header names |
| CardHistory.HeaderIsTheLast | src/soothe_client/display/card_ledger.py:176-192 | a ledger has the header its last header record says |
| CardAlignment.EqualKeysEqualType | src/soothe_client/display/card_ledger.py:295-330 | cards with equal stable keys have equal type, whatever the hash |
| CardAlignment.RepeatedTextRepeatsKey | src/soothe_client/display/card_ledger.py:295-330 | cards keyed by text alone share a key when the text repeats |
| CardKeys.SameKeyExactlyWhen | src/soothe_client/display/card_ledger.py:295-330 | two cards have one key if and only if they are of one type and stand for the same thing, by the fields each type is keyed by, with a diff path that reads like a hash and a skill name that reads like a number as the exceptions |
| CardKeys.SharedKeyExactlyWhen | src/soothe_client/display/card_ledger.py:333-356 | the same within a list; assistants, tools, plan reviews, steps without an id and skills without a name never share |
| CardKeys.NumbersCountEarlier | src/soothe_client/display/card_ledger.py:333-356 | a card's number is one more than the number of earlier cards of its type, assistants counted within their phase |
| CardAlignment.AssignStableKeys | src/soothe_client/display/card_ledger.py:333-356 | one pass of counters gives each card the key with its ordinal among the earlier cards of its counter |
| CardAlignment.AlignCardsPreservingIds | src/soothe_client/display/card_ledger.py:359-391 | known keys keep the identity of the last previous card with that key, new ones get hashed ids; full replacement is asked for exactly when a previous key is gone |
| CardKeys.TakesIdentityFromItsLike | src/soothe_client/display/card_ledger.py:359-391 | a rebound card takes id and timestamp from the last previous card that stands for the same thing, else a hashed id; all else is its own |
| CardKeys.StepKeepsItsIdentity | src/soothe_client/display/card_ledger.py:359-391 | a step card keeps the identity of the last previous card of its own step |
| CardKeys.ToolKeepsItsPlace | src/soothe_client/display/card_ledger.py:359-391 | the n-th tool card keeps the identity of the n-th previous one |
| CardDiff.DiffCardSnapshots | src/soothe_client/display/card_ledger.py:408-452 | the diff loop, against the per-card specification |
| CardDiff.DiffOfItselfIsEmpty | src/soothe_client/display/card_ledger.py:408-452 | a snapshot diffed against itself is empty |
| CardDiff.DiffFolds | src/soothe_client/display/card_ledger.py:394-452 | folding a diff never fails, settles every current card, touches no other and appends exactly the new ids |
| CardSync.AlignedDistinct | src/soothe_client/display/card_ledger.py:359-391 | with distinct keys the aligned ids are distinct |
| CardSync.AlignedDiffCarriesLedger | src/soothe_client/display/card_ledger.py:163-452 | align, diff, fold: never raises, the ledger's order then the new ids, agreement on id, type, timestamp and every updatable field, no other card touched, and next_seq advanced by the number of mutations |
| CardSync.StoresAlignedIdsIffKeysDistinct | src/soothe_client/display/card_ledger.py:359-452 | the ledger ends with exactly the aligned ids if and only if stable keys are distinct on both sides |
| CardSync.SayingItTwice | src/soothe_client/display/card_ledger.py:295-330 | a user message sent twice meets every precondition, shares its key, and does not reach the ledger under its aligned ids |
| CardProjection.PatchIsRebuild | src/soothe_client/display/card_wire.py:88-124 | patching in place equals rebuilding through the wire form, for patches of updatable fields |
| CardProjection.ProjectionRefinesLedger | src/soothe_client/display/card_wire.py:30-124 | after every frame of a stream of well-formed records the client holds the ledger's ordered cards |
| CardProjection.SnapshotReplayRebuilds | src/soothe_client/display/card_wire.py:88-124 | a replay of a snapshot leaves the client with exactly the ledger's cards |
| CardProjection.DiffStreamKeepsClientInStep | src/soothe_client/display/card_wire.py:88-124 | a client in step stays in step, frame by frame, through every diff |
| CardProjection.ClientFollowsRebind | src/soothe_client/display/card_wire.py:30-124 | align, diff, send: the client agrees with the ledger after every frame |
| CardRebinds.AlignedKeys | src/soothe_client/display/card_ledger.py:359-391 | an aligned list has the stable keys of the list it was aligned from |
| CardRebinds.RebindsCompose | src/soothe_client/display/card_ledger.py:163-452 | over any number of further lists with distinct keys, each covering the one before, every fold succeeds, the ledger holds the last aligned list and nothing else, and fresh ids stay free |
| CardRebinds.ClientFollowsEveryRebind | src/soothe_client/display/card_wire.py:88-124 | a client that starts in step is in step after every frame of every rebind |
| CardRebinds.EveryRebindFromNothing | src/soothe_client/display/card_ledger.py:163-452 | both from an empty ledger and an empty client |
| CardProjection.CardProjection.Apply | src/soothe_client/display/card_wire.py:88-124 | one payload applied to the client's cards, and whether it was a card payload |
| CardProjection.FramesTouchTheirCardOnly | src/soothe_client/display/card_wire.py:30-124 | what each frame type may touch: a patch its own card only, a create the card it makes, the markers the flag and a replay's beginning every card |
| InboundQueues.InboundQueue.MakeRoom | src/soothe_client/websocket.py:383-461 | drain, scan, refill: the oldest NORMAL frame goes; without one a NORMAL arrival waits, any other raises and changes nothing |
| InboundQueues.BareTerminalsAreCritical | src/soothe_client/websocket.py:47-137 | bare terminal statuses and turn-end payloads are never drop candidates |
| InboundQueues.DroppableCustomEvents | src/soothe_client/websocket.py:104-125 | exactly which bare custom events may be dropped |
| InboundQueues.DroppableBareFrames | src/soothe_client/websocket.py:47-137 | exactly which bare frames may be dropped |
| InboundQueues.MessagesAreKeptExactlyWhen | src/soothe_client/websocket.py:32-45 | which messages payloads end a stream or complete a goal |
| InboundQueues.DroppableEnvelopes | src/soothe_client/websocket.py:65-137 | exactly which subscription envelopes may be dropped, by payload type, payload mode and the outer frame |
| InboundQueues.EveryInboundRun | src/soothe_client/websocket.py:359-463 | every run: arrival order, capacity, every arrival in exactly one place, only NORMAL frames evicted; if every arrival can be ranked and no CRITICAL or HIGH one meets a full queue without a NORMAL frame, arrivals = delivered + queued + waiting + dropped, and every CRITICAL or HIGH frame is delivered or queued |
| InboundQueues.NothingLostExactlyWhen | src/soothe_client/websocket.py:373-463 | a run loses no frame exactly when no arrival is one that costs it |
| InboundQueues.OverflowEvictsOldestNormal | src/soothe_client/websocket.py:383-431 | one overflow removes exactly the oldest NORMAL frame and keeps the others in order |
| InboundQueues.LostExactlyWhen | src/soothe_client/websocket.py:433-459 | a frame is lost exactly when it cannot be ranked, or is CRITICAL or HIGH and meets a full queue without a NORMAL frame |
| InboundQueues.ForcedDropLosesFrameAndSentinel | src/soothe_client/websocket.py:445-459 | what the forced drop does instead of making room |
| FrameRouting.EveryRoutingRun | src/soothe_client/websocket.py:650-867 | in every run by one consumer: delivered, pending and inbound stand in arrival order, and every arrival is in exactly one of delivered, pending, inbound, waiting, consumed, discarded, peeled, evicted, lost |
| FrameRouting.WaitsTouchOnlyTheirOwn | src/soothe_client/websocket.py:685-818 | however long it waits, an RPC uses up only its own frames and leaves the others pending in order; the handshake discards only statuses |
| FrameRouting.PeelLeavesNoStale | src/soothe_client/websocket.py:1521-1546 | a peel removes exactly stale frames and leaves none |
| FrameRouting.LeftoverTerminalsArePeeled | src/soothe_client/stream_terminal.py:102-116 | a leftover status is peeled exactly when it is terminal |
| FrameRouting.BareStaleExactlyWhen | src/soothe_client/stream_terminal.py:102-140 | exactly which bare leftovers are peeled |
| FrameRouting.WrappedStaleExactlyWhen | src/soothe_client/stream_terminal.py:102-140 | exactly which envelopes are, by the mode, the frame inside, or the status the payload is |
| TurnDelivery.EveryDelivery | src/soothe_client/websocket.py:1498-1519 | socket, RPC waits, calls and timers interleaved in any way: each entry of the session log was made with a frame that arrived, in arrival order; a frame that ended a turn is older than any used after it; generations increase |
| TurnDelivery.TerminalArrivesLast | src/soothe_client/appkit/daemon_session.py:386-696 | each accepted terminal arrived on the socket after the running status that announced its turn and, where it needs progress, after a delivered progress chunk |
| FrameClients.FrameClient.Request | src/soothe_client/websocket.py:650-718 | a request takes the first reply in the queue, an error or response with its id or the end of the stream, and returns it; frames before it with another id go behind the pending ones in order; without a reply it reads all there is |
| FrameClients.FrameClient.Subscribe | src/soothe_client/websocket.py:749-819 | a subscription takes a rejection that comes before the first frame of its stream; every other frame read, that one included, goes behind the pending ones in order |
| FrameClients.FrameClient.WaitForConnectionAck | src/soothe_client/websocket.py:1337-1410 | the handshake takes the first final acknowledgement that is pending, failing that the first in the queue, or the end of the stream; acknowledgements before it are used up, statuses discarded, other frames put behind the pending ones in order |
| FrameClients.FrameClient.ReadEvent | src/soothe_client/websocket.py:1498-1507 | pending frames come before inbound ones |
| FrameClients.FrameClient.PushPendingEventFront | src/soothe_client/websocket.py:1517-1519 | pushing back the frame just read undoes the read |
| FrameClients.FrameClient.PopPendingEventByType | src/soothe_client/websocket.py:1469-1485 | the first frame of a type leaves, the others keep their order |
| FrameClients.FrameClient.PeelStalePendingControlEvents | src/soothe_client/websocket.py:1521-1546 | labels of the stale frames in order, and the rest kept in order |
| DeliveryAcks.EveryAckRun | src/soothe_client/websocket.py:465-509 | every interleaving: received = the admitted frames of the loop that need an ack, acked ≤ received, sent numbers strictly increase per loop, a loop behind has a task pending, and when none is left nothing is unacknowledged |
| DeliveryAcks.RunCounts | src/soothe_client/websocket.py:465-484 | what a run has counted is what its arrivals need, in order |
| DeliveryAcks.EveryAckGoesOut | src/soothe_client/websocket.py:486-509 | while the connection is up every ack noted goes out: with no task left, the last one carries the number of frames that need one |
| DeliveryAcks.NeedsAckExactlyWhen | src/soothe_client/websocket.py:156-184 | exactly which frames need an ack |
| DeliveryAcks.CountsForItsLoop | src/soothe_client/websocket.py:140-153 | a frame counts for the loop it names, an envelope that names none for that of the frame inside |
| DeliveryAcks.AckCounters.Track | src/soothe_client/websocket.py:465-484 | counts a frame once, a nested batch once per part |
| DeliveryAcks.AckCounters.SendDeliveryAck | src/soothe_client/websocket.py:486-509 | an ack is sent only for new frames, and counted as sent even when the connection is down |
| DeliveryAcks.BareAckedFramesAreKept | src/soothe_client/websocket.py:156-184 | a bare frame that needs an ack is never evicted |
| DeliveryAcks.WrappedAckedFramesAreDroppable | src/soothe_client/websocket.py:156-184 | a wrapped one can be, after it was acknowledged, unless its payload type or the outer frame keeps it |
| OutboundPipeline.EveryPipelineRun | src/soothe_client/appkit/turn.py:165-253 | every interleaving of processor and consumer: produced = delivered + queued + held + dropped, no CRITICAL or HIGH entry is evicted, putting back never meets a full queue |
| OutboundPipeline.SentinelComesLast | src/soothe_client/appkit/turn.py:137-263 | the consumer meets the sentinel only when nothing is queued or held |
| OutboundEviction.EvictsExactlyWhen | src/soothe_client/appkit/turn.py:217-253 | in every run, an eviction that has emptied the queue drops nothing if the arrival and everything drained are CRITICAL or HIGH, or if the arrival is below and nothing drained is LOW; else exactly the oldest entry of the lowest priority |
| OutboundEviction.RefusedOnlyWithNothingToDrop | src/soothe_client/appkit/turn.py:165-253 | in every run, whoever was refused had met an emptied queue with nothing to drop for it |
| OutboundEviction.RefusedExactlyWhen | src/soothe_client/appkit/turn.py:165-215 | below HIGH it is refused at once, from HIGH up only by a full queue at the end of its wait |
| OutboundEviction.PutAdmitsExactlyWhen | src/soothe_client/appkit/turn.py:165-175 | with room a put is admitted at once, without an eviction begins |
| OutboundPipeline.SentinelLostExactlyWhen | src/soothe_client/appkit/turn.py:165-253 | when the queue is full the sentinel survives exactly if a LOW entry is found; otherwise no continuation delivers it |
| OutboundPipeline.EndIsLost | src/soothe_client/appkit/turn.py:137-253 | a run from the start that loses the sentinel, whatever follows |
| OutboundPipeline.EndIsLostWithRoom | src/soothe_client/appkit/turn.py:190-237 | a run that gives the sentinel up with the queue empty |
| OutboundPipeline.DeliveryIsLeastQueued | src/soothe_client/appkit/turn.py:111-116 | in every run a delivery takes an entry that no queued entry precedes, by priority and then by age |
| OutboundPipeline.OutOfOrderExactlyWhen | src/soothe_client/appkit/turn.py:217-263 | in every run, an entry would be delivered before an older live one of its priority if and only if an eviction is draining and already holds one of that priority |
| OutboundPipeline.PatientConsumersKeepOrder | src/soothe_client/appkit/turn.py:165-263 | runs in which the consumer never takes such an entry deliver each priority in production order |
| OutboundPipeline.EvictionCanReorder | src/soothe_client/appkit/turn.py:217-263 | a run from the start that delivers the later of two entries of one priority first |
| TurnPipelines.TurnEventPipeline.PutOutbound | src/soothe_client/appkit/turn.py:165-215 | the put with the consumer running between any two queue operations is a run of the transition system that settles exactly one entry |
| TurnPipelines.TurnEventPipeline.Evict | src/soothe_client/appkit/turn.py:217-253 | the eviction ends with room made, a wait, or a counted drop |
| TurnPipelines.TurnEventPipeline.Scan | src/soothe_client/appkit/turn.py:229-237 | the scan finds the oldest entry of the lowest evictable priority |
| TurnPipelines.TurnApplyBatcher.ApplyBatched | src/soothe_client/appkit/turn.py:305-321 | the batches hold every chunk once and in order, each ends at the first chunk that is urgent, late or fills it, and only the last may end without one |
| TaskNamespace.RoundTrip | src/soothe_client/ux/task_namespace.py:37-177 | parsing a formatted id returns its inputs if and only if the step has a hyphen and no underscore, colon or outer space and the tool info is trimmed and not empty |
| TaskNamespace.ParsedShape | src/soothe_client/ux/task_namespace.py:126-177 | every recognised id yields such a step and tool info |
| TaskNamespace.NormalizePreservesParse | src/soothe_client/ux/task_namespace.py:111-123 | normalising preserves the parse of every string and is idempotent |
| TaskNamespace.ParentTaskIdInjective | src/soothe_client/ux/task_namespace.py:282-285 | distinct tasks have distinct ids |
| TaskNamespace.CanonicalScopeReads | src/soothe_client/ux/task_namespace.py:288-315 | the id of a task delegation reads back as its step and index |
| TaskNamespace.RowKeyFollowsBinding | src/soothe_client/ux/task_namespace.py:318-336 | under a canonical scope the row key parses to the bound step and index if and only if the stamped id is neither empty nor a bare `functions.` |
| TaskNamespace.RowKeyIdempotent | src/soothe_client/ux/task_namespace.py:318-336 | keying a row key again changes nothing |
| TaskNamespace.SpawnResolves | src/soothe_client/ux/task_namespace.py:339-366 | in every history of registrations a tool id stamped with step and task index resolves to the spawn registered last under it |
| SpawnHistory.TaskLevelSearches | src/soothe_client/ux/task_namespace.py:339-366 | an id of a task that was not registered under its own id resolves to the earliest spawn that names its step and index, and to none when spawns name its step alone |
| SpawnHistory.TaskLevelFallsBack | src/soothe_client/ux/task_namespace.py:339-366 | when none names its step, the first task falls back to the spawn of the step, others to none |
| SpawnHistory.FirstTaskKeepsTheStep | src/soothe_client/ux/task_namespace.py:433-463 | in every history the first task delegated at a step takes the step over from inner tasks and keeps it against inner tasks and its other tasks: every step-level id resolves to it |
| SpawnHistory.NormalizesDelegations | src/soothe_client/ux/task_namespace.py:256-279 | what the id of a delegation becomes at a step |
| SpawnHistory.UnboundRowsAreCalled | src/soothe_client/ux/task_namespace.py:318-336 | without a spawn a row is called by its task-level id, or by the path of its namespace and the shortened id |
| SpawnHistory.UnboundRowsDiffer | src/soothe_client/ux/task_namespace.py:407-430 | two such rows are called alike only if paths and short ids agree |
| SpawnHistory.ShortensExactly | src/soothe_client/ux/task_namespace.py:95-108 | what shortening an id leaves |
| TaskNamespace.BindingKeptExactlyWhen | src/soothe_client/ux/task_namespace.py:369-463 | through any later registrations and attempts to bind, a bound namespace stays with its spawn if and only if no tool id of a task of another step is met in it |
| TaskNamespace.BoundNamespaceKeysUnderItsSpawn | src/soothe_client/ux/task_namespace.py:369-431 | after a spawn is registered and one of its tools binds a namespace, every id keys under that spawn, through any later registrations and attempts that do not move the namespace |
| TaskNamespace.SpawnTables.Register | src/soothe_client/ux/task_namespace.py:433-463 | the tables after one registration |
| TaskNamespace.SpawnTables.TryBind | src/soothe_client/ux/task_namespace.py:369-404 | the bindings after one attempt, and whether they changed |
| TaskNamespace.BindsExactlyWhen | src/soothe_client/ux/task_namespace.py:369-404 | an unbound namespace is bound exactly by an id that is no inner task and resolves to a spawn with a step, and to that spawn |
| TaskNamespace.SpawnTables.ScopeForNamespace | src/soothe_client/ux/task_namespace.py:478-490 | the binding of the longest bound prefix |
| WireCodec.FlattenTwice | src/soothe_client/wire/codec.py:175-192 | flattening is idempotent on bodies without a data key |
| WireCodec.FlattenEnvelopedTwice | src/soothe_client/wire/codec.py:175-192 | and on envelopes of such bodies |
| WireCodec.FlattenAfterEnvelope | src/soothe_client/wire/codec.py:39-60 | enveloping a body does not change its flat form |
| WireCodec.FlatteningKeepsTheBody | src/soothe_client/wire/codec.py:175-192 | flattening keeps every field of the body it does not fill in, and the short type |
| WireCodec.CoercionDoesNotChangeBackfill | src/soothe_client/wire/codec.py:63-166 | stringifying chunk arguments does not change what a backfill writes |
| WireCodec.BackfillNeverOverwrites | src/soothe_client/wire/codec.py:106-166 | a call with arguments is left alone; another gets only arguments of a chunk with its id or position |
| WireCodec.FillsByIdThenByPosition | src/soothe_client/wire/codec.py:106-166 | a call without arguments takes those of the last chunk with its id, failing that of the last with its position, failing that none |
| WireCodec.ArgumentsBecomeText | src/soothe_client/wire/codec.py:63-87 | after the coercion no chunk has a dictionary for arguments; such arguments became their JSON text and nothing else changed |
| WireCodec.WrapsExactlyWhen | src/soothe_client/wire/codec.py:39-60 | exactly which messages are wrapped, and the wrapped body |
| WireCodec.StringifyToolCallChunkArgs | src/soothe_client/wire/codec.py:63-87 | the coercion loop |
| WireCodec.BackfillToolCalls | src/soothe_client/wire/codec.py:106-166 | the table-building and filling loops |
| ToolCallStream.StreamsDoNotInterfere | src/soothe_client/display/message_processing.py:91-165 | whatever the interleaving, the entry of an id is what the chunks of that id alone give |
| ToolCallStream.InterleavingDoesNotMatter | src/soothe_client/display/message_processing.py:91-165 | two interleavings of the same streams end with the same pending calls |
| ToolCallStream.SplittingDoesNotMatter | src/soothe_client/display/message_processing.py:91-165 | so do any two splits into successive calls, whatever last active id each is told |
| ToolCallStream.ChangesAnotherExactlyWhen | src/soothe_client/display/message_processing.py:117-163 | a chunk changes another call's entry if and only if it names no pending call, registers none, carries text, and another call is active, pending and not emitted |
| ToolCallStream.FragmentsConcatenate | src/soothe_client/display/message_processing.py:144-157 | string fragments of one call are concatenated |
| ToolCallStream.EveryCallIsGathered | src/soothe_client/display/message_processing.py:91-165 | whatever is interleaved, a call keeps the name of its first chunk, and its arguments are the text since its last complete ones, or those themselves when no text followed |
| ToolCallStream.PendingCalls.Accumulate | src/soothe_client/display/message_processing.py:91-165 | the accumulating loop over the dictionary it mutates |
| TurnRunners.TurnRunner.Execute | src/soothe_client/appkit/turn_runner.py:177-442 | in every run the broadcasts are exactly what the frames handled ask for, the deltas add up to the text those frames leave, and only progress comes before the outcome; an ended run has asked for one row and one complete-or-error broadcast, whichever exit it took; an acquired gate is released last |
| TurnRunners.TurnRunner.RunLoop | src/soothe_client/appkit/turn_runner.py:277-437 | the loop: the last round's trigger, by priority, decides the outcome, and a loop that goes on has a boundary that has not ended |
| TurnRunners.TurnRunner.CheckRound | src/soothe_client/appkit/turn_runner.py:278-377 | the exits through abort, timers and the end of the stream, in order |
| TurnRunners.TurnRunner.FinishTimeout | src/soothe_client/appkit/turn_runner.py:451-471 | soft completion with visible text, failure otherwise |
| TurnRunners.TurnRunner.CompleteTurn | src/soothe_client/appkit/turn_runner.py:473-485 | row, broadcast, hook, in that order |
| TurnRunners.TurnRunner.FailTurn | src/soothe_client/appkit/turn_runner.py:487-496 | the same for a failure |
| TurnRunners.TurnRunner.HandleMessage | src/soothe_client/appkit/turn_runner.py:379-437 | one message: its content extends the text or is appended to it, its delta is what it adds, and it ends the turn exactly by classifier failure, as a deliverable, or at the turn's end with or without substance |
| TurnRunners.EveryContentEndsTheText | src/soothe_client/appkit/turn_runner.py:395-403 | the content of every message ends the text after it, and no text is lost |
| TurnRunners.DeltasConcatenate | src/soothe_client/appkit/turn_runner.py:395-403 | contents none of which repeats the text so far are concatenated |
| TurnRunners.CumulativeKeepsLast | src/soothe_client/appkit/turn_runner.py:395-403 | cumulative contents leave the last one |
| TurnRunners.RunsOnExactlyWhen | src/soothe_client/appkit/turn_runner.py:384-437 | a message leaves the turn running exactly if the classifier does not fail on it, the turn has not ended, and it is no deliverable outside a daemon turn end |
| TurnRunners.TriggersExactlyWhen | src/soothe_client/appkit/turn_runner.py:277-377 | which event a round acts on when several have happened |
| TurnRunners.SoftlyExactlyWhen | src/soothe_client/appkit/turn_runner.py:451-471 | a timer or the end of the stream completes the turn exactly when its own policy says so and the text is not blank |
| TurnRunners.CancelsExactlyWhen | src/soothe_client/appkit/turn_runner.py:284-372 | the daemon is asked to cancel exactly when a timer fires and the loop has a name |
| TurnRunners.ClosesInOrder | src/soothe_client/appkit/turn_runner.py:473-496 | an ended turn asks for the row first, then the broadcast, then the hook if it is set |
| ConnectionPools.EveryPoolRun | src/soothe_client/appkit/pool.py:138-234 | every interleaving of acquires, their connections, releases and stops: idle and active slots make up the pool, slot ids are unique, and an acquire is refused exactly when others hold every slot |
| ConnectionPools.HandsOutExactly | src/soothe_client/appkit/pool.py:149-172 | which slot an acquire hands out, and what happens to the others |
| ConnectionPools.SlotStays | src/soothe_client/appkit/pool.py:138-234 | a session keeps its slot, and a usable acquire hands out the very same one, through every run that does not release it |
| ConnectionPools.FailureWithdrawsOwnExactlyWhen | src/soothe_client/appkit/pool.py:193-216 | a failing acquire withdraws its own slot if and only if that is still its session's active one, and none if and only if the session was released |
| ConnectionPools.ApartAttemptsKeepToTheirSlot | src/soothe_client/appkit/pool.py:138-216 | in every run without overlapping acquires of one session, a failure withdraws its own slot or none, and a success hands out the session's active slot |
| ConnectionPools.OverlappingAcquiresShareFate | src/soothe_client/appkit/pool.py:152-196 | after any run, overlapping acquires of a session: the failure of the first takes the slot of the second |
| ConnectionPools.ConnectionPool.Settle | src/soothe_client/appkit/pool.py:174-205 | the end of an acquire: a slot that does not connect is released by session |
| ConnectionPools.ConnectionPool.Acquire | src/soothe_client/appkit/pool.py:149-172 | the locked part: reuse, or release and take, or refuse |
| ConnectionPools.ConnectionPool.StopAll | src/soothe_client/appkit/pool.py:230-234 | every active slot is replaced by a fresh idle one |

## Left out

- Wall-clock time: the drain window, the deadlines of a call, query and idle timers and RPC timeouts are steps
  that may happen at any moment.
- SessionTheorems.GenerationsStrictlyIncrease: ids without a generation contribute none, as the code's floor
  ignores them too.
- SessionTheorems.StaleFramesLeaveNoTrace: stated for the main loop; the drain applies no sequence or turn
  filter.
- DaemonSession.Session.IterTurnChunks: the local and the field holding the expected turn id are one field,
  `last_turn_end_state` and the statistics are readable from the log instead, and the frames are those left
  after the peel that precedes the loop.
- TurnAgreement.TurnEndMachinesAgree: compares frames of one loop, numbered above the session's sequence floor if
  at all, without daemon errors, without cancellation acknowledgements and with statuses spelled plainly (trimmed,
  lower case), since the reader alone filters on numbers, acts on errors and cancellations and compares states as
  sent; for envelopes that add a turn id of their own, or carry the event in the payload itself, the two
  unwrappings differ and nothing is claimed.
- TurnAgreement.MachinesEndTogetherExactlyWhen: the same frames.
- TurnDelivery.EveryDelivery: one consumer of the socket, the session, beside the RPC waits.
- CardLedger.InMemoryCardLedger.ApplyMutation: cards are values, so a caller that keeps a reference to a stored
  card and sees it patched is not modelled; the `ts` texts of records are omitted; an id or a timestamp that
  the wire does not give is a parameter, and a card id or type that is not a string is refused.
- CardSync.AlignedDiffCarriesLedger: the short hash is an injective uninterpreted function.
- CardKeys.SameKeyExactlyWhen: the same, and its text has no colon.
- CardRebinds.RebindsCompose: each list is aligned with the aligned form of the list before it; full replacement,
  which a vanished key asks for, is the caller's and is not part of this model.
- CardProjection.ProjectionRefinesLedger: for records built by the ledger or the diff; a client silently keeps
  the stored card when a patch makes no valid card, where the ledger would store it.
- TaskNamespace.SpawnTables.Register: a missing spawns-by-task table is an empty one, and pruning of pending
  namespaces is omitted.
- WireCodec.FlattenTwice: the JSON library is a parameter, with the law that loading undoes dumping where it is
  needed.
- FrameRouting.EveryRoutingRun: one consumer; several concurrent consumers of one socket are excluded.
- DeliveryAcks.EveryAckRun: a custom type that is not a string counts as needing no ack, where the code raises
  for lists and objects.
- TurnRunners.TurnRunner.Execute: attachments and the input builder are omitted, an error row carries the kind of
  failure and not its text, row metadata is left out, and store failures are suppressed as in the code.
- ConnectionPools.EveryPoolRun: whether a slot is disconnected or idle for too long, and whether it connects, are
  inputs.
- Text: digits and letter case are ASCII, `int()` has no digit limit, and floats, lists and dicts have no
  `str()` text.
- The reader-side blocking of `feed_chunks`, `TurnEventPipeline.shutdown`, and task cancellation.
- Socket dial, TLS, heartbeats, reconnects, the RPC convenience methods, command clients and SSE broadcaster:
  thin wrappers or clocks, with only easy facts.
- The event classifier, thinking-step texts, tool metadata, LangChain conversion and image compaction: long flat
  tables or foreign libraries.
- Seeding and finalising of pending tool calls (`message_processing.py` lines 36-88 and 390-424): they would add
  only easy members.
