# Iramix, modelled and proved in Dafny

This project models the parts of the Iramix audio engine in which a mistake is hardest to see, and proves that they do
what the engine relies on. `dafny verify dfyconfig.toml` checks everything.

## What is modelled

**Rendering.** A graph of audio nodes is compiled into a flat list of operations over shared buffers and delay lines,
and the executor interprets that list in place, block by block. Samples are an abstract type with a zero and an addition
without laws, nodes are arbitrary per-sample state machines (a node that is not resolved is one that changes nothing).
`Graph`, `TopologicalSort`, `BufferPool`, `Compiler` and `Emission` hold the compiler; `RenderPlan` gives plans a
symbolic meaning and says what it is for a plan to implement a graph, `Alignment` says from the plan alone that all
inputs are in step; `Streams` gives graphs their meaning as streams and `Hearing` spells it out sample by sample;
`Execution`, `Rows`, `Executor` and `Prepare` hold the executor; `Soundness` and `EndToEnd` connect the two. The main
results are `Emission.CompileRenderPlan` (valid if and only if well formed and acyclic, and then an implementation of
the graph), `Soundness.CompiledPlanRendersGraph` (running the plan over any blocks renders the graph),
`Soundness.BlockSizeDoesNotMatter`, the latency laws of `Latency`, and `EndToEnd.CompileAndRender`, which composes all
of them over the actual arrays. `BlockCuts.RenderStream` adds parameter automation to the independence of blocks: queue,
router, event buffer and frame loop together render a track as if it had been rendered in one piece.
`AutomatedGraphs.CompileAndAutomate` does so for a whole graph of processors that take events: compiled, prepared, and
run through the queue, the router and the buffers of the plan, it renders the graph whose nodes find every accepted
event at its own frame, in which no blocks occur. `TrackMachines.TrackIsMachine` makes the track node one of these
processors.

**Two threads around the executor.** `Publication` is the generation-acknowledged publication and reclamation of plans,
`CommandChannel` the command and completion rings, `ParameterRouting` and `ParameterEvents` the way of a parameter event
from its acceptance to the buffer of its node, `ValueRamps` and `TrackNode` what a node does with it, `BlockCuts` a
whole run of both, `Automation`, `Agreement` and `AutomatedGraph` that of a whole graph. Threads are atomic steps; the
`Run` methods take any list of steps.

**The journaled session.** `SessionDocument`, `DocumentRules`, `FloatingPoint`, `Validation`, `SessionController` and
`EditValidity` are documents, their rules, their validation and their edits. `SessionHistory` is replay, `Checkpoint`
compaction, `Undo` the exactness of undo and redo. `Bytes`, `Codecs`, `Framing`, `JournalFile` and `CommandRecords` are
the journal's bytes, `FileLayout` writes them out field by field, `JournalDisk` and `ProjectFile` the files with the
ways in which writing them can fail, `Chronicle`, `JournaledSession` and `SessionRecovery` the session object,
`SessionRuns` its runs and `SessionLives` the lives of a project: `SessionLives.Lifetimes` says that over any number of
runs, each ended anywhere with any failures and reopened from the bytes of the project files, every acknowledged action
survives, and nothing else is added but at most the one attempted action of a run that ended in a failed append.

**The session document on disk.** `DocumentFormat`, `DocumentCodec`, `SessionCodec` and `SessionSerializer`: schema 4 is
a bijection between valid documents and accepted byte strings, older schemas migrate, and permitted exports reload.
`DocumentLayout` says which bytes these are, without the codecs.

**Saving.** `AsyncSessionSaver` is the ring shared by producer, worker and consumer, `SaveCoordinator` the coalescing
coordinator above it, `PersistenceService` the autosave worker above that.

**The plugin bridge.** `PluginBridge` is the ring with wrapping 32-bit indices and power-of-two masking.

A file is the sequence of its durable bytes. Writes, flushes and replacements take a parameter that says how they end:
not at all, after some of the bytes, complete but reported as failed, or done. A crash is a run that ends there.
Replacing a file is atomic, and a replacement stays even if the directory could not be flushed after it; what a power
loss that undoes such a replacement of the journal would cost is said by `SessionRuns.UnsyncedCheckpoint`. The checksum
is a fixed function of the bytes; nothing depends on which one.

## Where the code does less than its documents allow

Some valid documents lead outside what the session can take back. Each case has its exact condition and a concrete input.

- A track name of 0 bytes or of 1025 to 4096 bytes is valid in a document, but edits accept only 1 to 1024 bytes: renaming
  such a track is acknowledged, and undoing the rename is refused. `UndoRedo.InverseUndoesEdit` gives the exact condition,
  `UndoRedo.RenamingAnUnnamedTrackCannotBeUndone` an input.
- Journal records hold names of at most 1024 bytes: renaming a track with a longer name is acknowledged, and the journal
  can then not be replayed. `SessionRecovery.EditKeepsReadable` gives the exact condition,
  `SessionRuns.RenamingALongNameCannotBeRecovered` an input.
- Adding a track does not check the limit of 100000 tracks: the 100001st is acknowledged, and the document can then not be
  edited, undone, saved or opened. `SessionRuns.OneTrackTooManyLocksTheSession` gives an input.
- Adding a track under a chosen identity compares it with the tracks only: the identity of a clip, a source, a lane or a
  plugin is accepted, and leaves a document that is not valid. `SessionRuns.TrackUnderTheIdentityOfAClip` gives an input.
  Edits of a journaled session take a fresh identity and do not come here.

`EditValidity.EditKeepsEditable` gives the exact condition for the last two together.

Three smaller observations: rounding a capacity up to a power of two does not end for requests above 2^31, which its
callers exclude (`PluginBridges.DoublingNeverReaches`); a session whose rewrite of the journal replaced the file but
failed to flush the directory goes on with the compacted journal while it still reports the old checkpoint
(`JournaledSessions.JournaledSession.Checkpoint`), so that what it acknowledges afterwards depends on a replacement that a
power loss may undo (`SessionRuns.UnsyncedCheckpoint`); and a persistence service that was never started drops its tracked
snapshot when it stops
(`PersistenceServices.SessionPersistenceService.Stop`).

## Model

| member | source | states |
|---|---|---|
| `Graph.GraphDescription.AddNode` | src/audio/Graph.cpp:29-31 | a node is added exactly when its identity is non-zero and new; the graph stays well built |
| `Graph.GraphDescription.RemoveNode` | src/audio/Graph.cpp:33-48 | removing a node removes exactly the connections that touch it |
| `Graph.GraphDescription.AddConnection` | src/audio/Graph.cpp:50-64 | a connection is accepted exactly when it is new and admissible: distinct known ends, no mixed lanes, no negative audio channel |
| `Graph.GraphDescription.RemoveConnection` | src/audio/Graph.cpp:66-70 | removes exactly the given connection and says whether it was there |
| `Graph.TopologicalOrderHasNoCycle` | src/audio/RenderPlan.cpp:149-165 | a graph that has a topological order has no cycle |
| `Graph.BlockedNodesHaveCycle` | src/audio/RenderPlan.cpp:162-165 | a set of nodes that all wait for each other contains a cycle |
| `TopologicalSort.CountEdges` | src/audio/RenderPlan.cpp:124-140 | successor lists and in-degrees count every distinct ordering edge once, parallel connections included |
| `TopologicalSort.InitiallyReady` | src/audio/RenderPlan.cpp:142-147 | the work list starts with exactly the nodes without predecessors, in increasing order |
| `TopologicalSort.VisitSuccessors` | src/audio/RenderPlan.cpp:155-159 | visiting the successors of a node lowers exactly their in-degrees and makes ready exactly those that reach zero |
| `TopologicalSort.TopologicalOrder` | src/audio/RenderPlan.cpp:142-165 | the order has every node exactly once and respects every edge if and only if the graph has no cycle; otherwise it is shorter; the loop terminates |
| `BufferPools.BufferPool.Acquire` | src/audio/RenderPlan.cpp:24-31 | the smallest free buffer, or a new one, becomes taken; taken and free buffers always partition those up to the high-water mark |
| `BufferPools.BufferPool.Release` | src/audio/RenderPlan.cpp:33-37 | a taken buffer becomes free, a negative index changes nothing |
| `Compiler.CheckNodes` | src/audio/RenderPlan.cpp:86-102 | reports no error exactly when every node has valid metadata, and otherwise names a node and what is wrong with it |
| `Compiler.CheckPorts` | src/audio/RenderPlan.cpp:104-122 | reports no error exactly when every audio port used exists |
| `Compiler.GatherInputs` | src/audio/RenderPlan.cpp:172-197 | the gathered inputs list every connection of a destination, and the last consumer of a signal is the latest position that reads it |
| `Compiler.SortAudioInputs` | src/audio/RenderPlan.cpp:199-202 | the sources of each channel, in strictly increasing order |
| `Compiler.SortMidiInputs` | src/audio/RenderPlan.cpp:203-210 | the MIDI sources of each node, sorted and without repetition |
| `Compiler.ComputeArrivals` | src/audio/RenderPlan.cpp:212-230 | the arrival of a node is the maximum over its audio inputs of arrival plus latency of the source, zero without inputs |
| `Emission.SourceIsLive` | src/audio/RenderPlan.cpp:264-277 | every source of the node being emitted still has its buffer, so the skip for a missing buffer is not reached, and its compensation is not negative |
| `Emission.EmitSource` | src/audio/RenderPlan.cpp:272-316 | one source is copied or added, through a delay when it must wait, in a scratch buffer that is free again afterwards; the destination then holds the mix with that source, and no other live buffer changes |
| `Emission.EmitMix` | src/audio/RenderPlan.cpp:251-326 | the destination channel holds the left fold of its aligned sources in sorted order, or silence: one leaf for each source, and on each leaf exactly the delay that brings its source to the arrival of the node |
| `Emission.EmitChannels` | src/audio/RenderPlan.cpp:248-327 | all channels of a node hold their mixes, each source delayed by what it is early, in distinct buffers that no live signal uses |
| `Emission.EmitMidi` | src/audio/RenderPlan.cpp:329-344 | the MIDI buffer of a node holds the merge of its sources in sorted order |
| `Emission.UpdateSignals` | src/audio/RenderPlan.cpp:354-386 | after a node, exactly the signals with a later consumer keep their buffers; all others are released |
| `Emission.EmitNode` | src/audio/RenderPlan.cpp:240-387 | emitting one node keeps the whole correspondence between emitted code, buffers, live signals and the graph |
| `Emission.EverythingReleased` | src/audio/RenderPlan.cpp:363-389 | after the last node no signal holds a buffer |
| `Emission.AllFree` | src/audio/RenderPlan.cpp:376-389 | at the end the free buffers are exactly those below the high-water mark |
| `Emission.CompileRenderPlan` | src/audio/RenderPlan.cpp:78-392 | compilation is valid if and only if metadata and ports are well formed and the graph has no cycle; a valid plan implements the graph: the code feeds every channel of every node one leaf for each connection, delayed so that source latency and delay add up to the arrival of the node, merges its MIDI sources, passes every operand check and shares no delay line or MIDI buffer; each error names its cause |
| `Alignment.PlanIsInStep` | src/audio/RenderPlan.cpp:251-344 | in a plan that implements a graph every input channel is a sum with exactly one leaf for each connection into it, the delays on the way to a leaf add up to the difference of the recorded latencies, and MIDI inputs merge exactly the MIDI sources |
| `Alignment.ConnectionLinesUp` | src/audio/RenderPlan.cpp:272-310 | read off the plan alone: the signal of an audio connection reaches its channel once, with a delay that is not negative and makes recorded source latency plus delay the recorded latency of the destination less its own |
| `Latency.CompensationIsPathIndependent` | src/audio/RenderPlan.cpp:272-310 | along any audio path, the latencies of the nodes and the delays that the plan has inserted on its connections total the difference of the recorded arrivals of its ends; so all paths between two nodes are equally late |
| `Latency.ArrivalBoundsEveryPath` | src/audio/RenderPlan.cpp:212-230 | no audio path into a node has a larger total latency than the arrival of the node |
| `Latency.ArrivalIsAttained` | src/audio/RenderPlan.cpp:212-230 | some audio path into the node has exactly that latency |
| `Latency.AcyclicHasOrder` | src/audio/RenderPlan.cpp:142-165 | every acyclic graph has a topological order |
| `Latency.RecordedLatencyIsLongestPath` | src/audio/RenderPlan.cpp:227-229 | the latency recorded for a node is its own plus the largest total latency over all audio paths into it: some path has it and none has more |
| `Streams.GraphNetIsRanked` | src/audio/RenderPlan.cpp:149-165 | the equations of an acyclic graph are well founded, so every node has a stream |
| `Streams.SameNode` | src/audio/RenderPlan.cpp:149-165 | the streams of a graph do not depend on which topological order ranks them |
| `Execution.DelayStep` | src/audio/RenderPlanExecutor.cpp:561-582 | a delay line of d samples turns a block of a stream into the same stream d samples later, zero before, and keeps holding the last d samples |
| `Soundness.BlockCorresponds` | src/audio/RenderPlanExecutor.cpp:548-623 | after every operation of a block each buffer, delay line, node state and captured output holds what the symbolic run says |
| `Soundness.BlockIsSound` | src/audio/RenderPlanExecutor.cpp:537-623 | a block of any length up to the maximum leaves lines and states ready for the next sample and has captured the output node’s stream |
| `Soundness.ProcessSeesItsInputs` | src/audio/RenderPlanExecutor.cpp:593-605 | at each process operation the channels of the node hold, sample by sample, exactly its input streams |
| `Soundness.RunIsSound` | src/audio/RenderPlanExecutor.cpp:461-492 | over any list of blocks the concatenated output is the output node’s stream |
| `Soundness.BlockSizeDoesNotMatter` | src/audio/RenderPlanExecutor.cpp:461-492 | cutting the same frames into different blocks gives the same output, delay lines and node states, for nodes that see the outside world by the absolute frame |
| `TrackMachines.TrackIsMachine` | src/audio/Nodes.cpp:105-188 | a track node is a processor of an automated graph: what the executor computes for it in any block, state and samples, is what the node’s own frame loop does to its channels with the events in its buffer |
| `Automation.CleanBlockDelivers` | src/audio/RenderPlanExecutor.cpp:635-709 | if a block counts no late and no refused event, the buffer of each node’s route has as many events as were due for the node, and each has parameter, value, kind, duration and number of its event, and its position less the block start as offset |
| `Automation.BlockIsPartOfRun` | src/audio/RenderPlanExecutor.cpp:644-706 | such a block gives every node, at each of its frames, the events that the whole run has for that frame |
| `Automation.RenderAutomated` | src/audio/RenderPlanExecutor.cpp:537-709 | a prepared plan run block by block, with requests between the blocks, through queue, router, buffers and operations: if no event was late or refused, storage and output are those of the processors that find at each frame the accepted events for that node and position, field by field and in order |
| `AutomatedGraphs.CompileAndAutomate` | src/audio/RenderPlanExecutor.cpp:364-709 | a graph compiled, prepared and run that way renders the output node’s stream of the graph with each event at its own frame; the accepted events carry in order what requests asked for, those missing are counted as refused, and if none is, the k-th accepted event is the k-th request |
| `AutomatedGraphs.CutsOfAGraphDoNotMatter` | src/audio/RenderPlanExecutor.cpp:461-709 | two runs of a graph with the same events, cut into blocks in any two ways, have the same output |
| `BlockCuts.EnqueueAll` | src/audio/RenderPlanExecutor.cpp:364-404 | of any requests, those accepted carry what was asked, in order, and the others are counted; if none is refused, all are numbered in order |
| `Soundness.CompiledPlanRendersGraph` | src/audio/RenderPlan.cpp:237-391 | a compiled plan, run over any blocks from fresh memory, renders the output node’s stream of the graph, in which each node hears, at each frame, the sum of the frames its sources put out as long ago as they are early, and the MIDI events of its sources |
| `Hearing.GraphIsHeard` | src/audio/RenderPlan.cpp:251-344 | the streams of a graph spelled out frame by frame: what a node hears on a channel is the sum over its connections of the source’s sample from that many frames ago, silence before the start, and its events are those of its MIDI sources in order |
| `Rows.CombineRow` | src/audio/RenderPlanExecutor.cpp:556-560 | the in-place addition loop adds two rows frame by frame and touches nothing else |
| `Rows.DelayRow` | src/audio/RenderPlanExecutor.cpp:561-582 | the in-place delay loop with its circular write position exchanges a row with the front of the delay queue |
| `Executor.PreparedRenderPlan.ExecuteOp` | src/audio/RenderPlanExecutor.cpp:549-622 | each operation on the shared arrays is the corresponding step on values |
| `Executor.PreparedRenderPlan.Execute` | src/audio/RenderPlanExecutor.cpp:548-623 | executing the operation list in place is the run on values |
| `Prepare.DelayLengths` | src/audio/RenderPlanExecutor.cpp:79-92 | each delay line is as long as the longest delay that uses it |
| `Prepare.PlaceLines` | src/audio/RenderPlanExecutor.cpp:94-108 | delay lines are laid out next to each other without overlap |
| `Prepare.CheckOperations` | src/audio/RenderPlanExecutor.cpp:180-300 | no error is reported exactly when every operand is in range and the output node is captured with enough channels |
| `Prepare.PreparePlan` | src/audio/RenderPlanExecutor.cpp:23-313 | a plan is prepared if and only if it is valid, the sizes are positive and those of a live plan, all operands are in range and the output node is there; it then has one empty event buffer of the reserved size and one route per MIDI buffer, and a compiled plan starts silent and can be run |
| `Prepare.OwnRoute` | src/audio/RenderPlanExecutor.cpp:264-269 | in a compiled plan the first route to a node, where the router puts its events, is that of the buffer its own operation reads |
| `Prepare.NodesHaveRoutes` | src/audio/RenderPlanExecutor.cpp:264-269 | in a compiled plan every processed node has a route |
| `Prepare.ProcessBlock` | src/audio/RenderPlanExecutor.cpp:461-492 | nothing happens for an empty block; otherwise the operations run over the frames, at most the prepared maximum |
| `Prepare.RenderTo` | src/audio/RenderPlanExecutor.cpp:494-535 | every cell of the caller’s buffer is the captured output of its channel and frame, or zero for a channel without output or a frame that was not rendered |
| `EndToEnd.OutputNodeIsProcessed` | src/audio/RenderPlanExecutor.cpp:266-287 | a compiled plan captures its output if and only if the output node is in the graph and has enough channels |
| `EndToEnd.CompileAndRender` | src/audio/RenderPlan.cpp:78-392 | a graph is compiled and prepared if and only if it is well formed and acyclic, the sizes are positive and unchanged, and the output node has enough channels; every connection of the plan is in step; the output is then the stream of that node, in which every node hears its sources delayed to the longest path, whatever topological order ranks them, for every list of blocks |
| `Publication.PlanPublisher.HeldIsNotFreed` | src/audio/RenderPlanExecutor.cpp:461-492 | the plan the audio thread holds is not older than what it has acknowledged and is never freed |
| `Publication.PlanPublisher.DoSweep` | src/audio/RenderPlanExecutor.cpp:828-847 | exactly the retired plans whose successor was acknowledged are freed; afterwards at most generation minus acknowledged are retired |
| `Publication.PlanPublisher.Run` | src/audio/RenderPlanExecutor.cpp:302-312 | over all interleavings of publishing, reclaiming and rendering steps the use-after-free counter stays where it was |
| `SpscQueues.SpscQueue.TryPush` | include/iramix/audio/ParameterEvents.hpp:106-120 | adds at the back exactly when fewer than the capacity are queued; a refusal is counted and changes nothing |
| `SpscQueues.SpscQueue.TryPeek` | include/iramix/audio/ParameterEvents.hpp:122-134 | shows the oldest value without removing it |
| `SpscQueues.SpscQueue.TryPop` | include/iramix/audio/ParameterEvents.hpp:136-149 | removes the oldest value, if there is one |
| `SpscQueues.NextSlotIsFree` | include/iramix/audio/ParameterEvents.hpp:106-120 | fewer than the capacity consecutive positions use different slots |
| `ParameterEvents.InsertKeepsOrder` | src/audio/ParameterEvents.cpp:84-98 | insertion keeps a buffer ordered by offset and acceptance |
| `ParameterEvents.InsertAddsOne` | src/audio/ParameterEvents.cpp:84-98 | insertion adds the event and keeps all others |
| `ParameterEvents.ParameterEventBuffer.Add` | src/audio/ParameterEvents.cpp:70-101 | an acceptable event is inserted in its place while there is room; otherwise it is counted as dropped and nothing changes |
| `ParameterRouting.RoutingCounts` | src/audio/RenderPlanExecutor.cpp:635-709 | every event taken from the queue is counted once: routed, unknown target or overflow |
| `ParameterRouting.RoutingTells` | src/audio/RenderPlanExecutor.cpp:662-690 | the late counter grows by the number of events before the block, the unknown counter by the number of events for nodes without a route |
| `ParameterRouting.DueIsExact` | src/audio/RenderPlanExecutor.cpp:654-657 | a block takes exactly the queued events before its end |
| `ParameterRouting.NothingLateInTheNextBlock` | src/audio/RenderPlanExecutor.cpp:644-674 | over contiguous blocks nothing that stays queued is late for the next block |
| `ParameterRouting.BufferHolds` | src/audio/RenderPlanExecutor.cpp:676-706 | each buffer receives only events for its node, ordered, at offsets inside the block, all of them while there is room |
| `ParameterRouting.RoutedCarries` | src/audio/RenderPlanExecutor.cpp:676-706 | with nothing refused, entry j of a buffer is the j-th due event for its node: same parameter, value, kind, duration and number, and its position less the block start as offset, zero if it is late |
| `ParameterRouting.NothingIsInvented` | src/audio/RenderPlanExecutor.cpp:676-706 | also when events are refused, every entry of a buffer stems, field by field, from a due event for its node |
| `ParameterRouting.ParameterPath.Enqueue` | src/audio/RenderPlanExecutor.cpp:364-404 | an event is accepted exactly when it is sound, not before the last accepted one, and the queue has room |
| `ParameterRouting.ParameterPath.RouteParameterEvents` | src/audio/RenderPlanExecutor.cpp:635-709 | exactly the events before the end of the block leave the queue; the counters grow by the late, the unknown and the other events among them; and unless a buffer refused one, each buffer holds the events for its node field by field |
| `ParameterRouting.ParameterPath.EveryEventIsCounted` | src/audio/RenderPlanExecutor.cpp:635-709 | accepted events are routed, unknown, overflowed or still queued |
| `ValueRamps.RampIsLinear` | src/audio/ParameterEvents.cpp:22-55 | a ramp, of at least one sample, runs on the straight line from its start value to its target and stays there |
| `ValueRamps.EventIsHeard` | src/audio/ParameterEvents.cpp:22-55 | any number of samples after an event: a value is held, a ramp is on its line, and a modulation is added to what the parameter would have been without it |
| `ValueRamps.ParameterValueState.Apply` | src/audio/ParameterEvents.cpp:22-43 | a value is taken at once and ends a ramp, a ramp starts from the present value, a modulation changes nothing but the modulation; field by field |
| `ValueRamps.ParameterValueState.NextValue` | src/audio/ParameterEvents.cpp:45-55 | one sample advances a ramp by one step and adds the modulation |
| `BlockCuts.NoneLate` | src/audio/RenderPlanExecutor.cpp:664-674 | if the counter of late events stands still, every routed event is at or after the start of its block |
| `BlockCuts.AtPositionCarries` | src/audio/RenderPlanExecutor.cpp:644-706 | the events a node finds at a frame are exactly the accepted events with that target and position, in the order of acceptance, with their fields |
| `ParameterRouting.NoneOverflowed` | src/audio/RenderPlanExecutor.cpp:692-706 | if the counter of refused events stands still, every buffer had room for all events of its node |
| `BlockCuts.BlocksJoin` | src/audio/RenderPlanExecutor.cpp:644-674 | the frame-by-frame events delivered up to a block and those delivered in it are those of one block over both stretches |
| `BlockCuts.RenderingJoins` | src/audio/Nodes.cpp:105-188 | a track rendered over two stretches gives the samples of one stretch over both |
| `BlockCuts.RenderStream` | src/audio/RenderPlanExecutor.cpp:635-709 | a track rendered block by block through queue, router, event buffer and frame loop, with events accepted between the blocks: if no event was late or refused, state and every output sample are those of one stretch in which each frame has the accepted events for the track and that position |
| `BlockCuts.CutsDoNotMatter` | src/audio/RenderPlanExecutor.cpp:635-709 | two such runs over the same events, cut in any two ways, end in the same state with the same output |
| `TrackNodes.TrackNode.ConsumeEvents` | src/audio/Nodes.cpp:126-168 | at each frame exactly the events at that offset are applied, in order |
| `TrackNodes.TrackNode.Process` | src/audio/Nodes.cpp:105-188 | every sample of a block is silent if the track is muted after the events at its frame, and otherwise multiplied by the gain; the left channel also by one less a positive pan, the right one by one plus a negative pan, down to silence; other channels are untouched |
| `TrackNodes.ShapedIsPanned` | src/audio/Nodes.cpp:165-186 | what gain, pan, their modulations and mute do to a sample of the left, the right and any other channel |
| `TrackNodes.GainEventIsHeard` | src/audio/Nodes.cpp:126-172 | any number of frames after a gain event the gain is held, on the straight line, or as it was plus the modulation, and pan and mute are as without it |
| `TrackNodes.PanEventIsHeard` | src/audio/Nodes.cpp:126-172 | the same for a pan event |
| `CommandChannels.CommandChannel.DoEnqueue` | src/audio/RenderPlanExecutor.cpp:416-438 | a command is accepted exactly when it is sound, newer than the last accepted one, and there is room |
| `CommandChannels.CommandChannel.DoComplete` | src/audio/RenderPlanExecutor.cpp:767-777 | the completion of a popped command always has room; it has the number and target of the command, and rejects exactly a reset of a node that is not there |
| `CommandChannels.CommandChannel.Run` | src/audio/RenderPlanExecutor.cpp:711-780 | over all interleavings no completion is lost, and received completions answer a prefix of the accepted commands in order, with number, target and status; every popped command belongs to a block, and no block pops more than 64 |
| `Validation.ValidateDocument` | src/persistence/SessionDocument.cpp:261-530 | validation, pass by pass with its identity sets and budgets, accepts exactly the documents that obey every rule |
| `DocumentRules.ValidMeansObeying` | src/persistence/SessionDocument.cpp:261-530 | a document is valid if and only if every number is in its range, all notes and points are pairwise in order, every reference meets a track or source, identities and plugin slots differ pairwise, and the sums stay within their budgets |
| `FloatingPoint.TempoIsInRange` | src/persistence/SessionDocument.cpp:273-278 | the test on the bits of a tempo accepts exactly the finite doubles above 0 and up to 1000 |
| `FloatingPoint.VelocityIsInRange` | src/persistence/SessionDocument.cpp:366-375 | the test on the bits of a velocity accepts exactly the finite floats above 0 and up to 1 |
| `FloatingPoint.EqualMeansSameValue` | src/session/JournaledSession.cpp:224-236 | the comparison of tempo bits holds of finite doubles exactly if their values are equal |
| `Validation.CheckPlugins` | src/persistence/SessionDocument.cpp:470-506 | plugins are accepted exactly when each is valid, identities are new, states fit the budget and no slot is used twice |
| `Validation.IdsSplit` | src/persistence/SessionDocument.cpp:284-300 | identities are globally unique if and only if every pass finds them new |
| `SessionEditing.SessionController.FromDocument` | src/session/SessionController.cpp:56-83 | a document becomes editable exactly when it is valid and identities are left to give out |
| `SessionEditing.SessionController.SetTempo` | src/session/SessionController.cpp:112-139 | a stale revision or invalid tempo changes nothing; otherwise the tempo is the given one, the revision one more, and every other field as before |
| `SessionEditing.SessionController.AddTrackWithStableId` | src/session/SessionController.cpp:156-215 | appends one track with the given identity, kind, colour and name and gain one, exactly if the identity is fresh and valid and the name editable, and keeps the next identity above it; nothing else changes |
| `SessionEditing.SessionController.RenameTrack` | src/session/SessionController.cpp:217-263 | changes the name of the first track with the identity and nothing else, or answers why not |
| `SessionEditing.SessionController.RemoveTrack` | src/session/SessionController.cpp:265-340 | drops exactly the track with the identity and keeps the order of the others, exactly when nothing refers to it |
| `SessionEditing.SessionController.ApplyCommand` | src/session/JournaledSession.cpp:254-286 | a journaled command has the outcome of its edit, and an applied one its effect field by field |
| `SessionEditing.ApplyInFields` | src/session/SessionController.cpp:112-340 | what each applied edit makes of a document, field by field |
| `SessionEditing.AnswersInFields` | src/session/SessionController.cpp:112-340 | the exact condition of each answer of an edit |
| `EditValidity.EditKeepsEditable` | src/session/SessionController.cpp:156-205 | an applied edit of an editable document, of any kind, leads to an editable document if and only if it does not add a track beyond 100000 or under an identity that anything in the document already has |
| `SessionRuns.TrackUnderTheIdentityOfAClip` | src/session/SessionController.cpp:184-190 | a concrete editable document on which a track under the identity of a clip is accepted, and which is then not valid |
| `SessionRuns.OneTrackTooManyLocksTheSession` | src/session/SessionController.cpp:188-205 | a concrete valid document on which one more track is acknowledged and the session can then not be edited any more |
| `SessionHistory.ChangeKeepsFaithful` | src/session/JournaledSession.cpp:1027-1144 | logging an edit, undo or redo keeps this true: replay on the document of any revision since the baseline rebuilds exactly the live document and both stacks |
| `SessionHistory.OldRecordsOnlyMoveHistory` | src/session/JournaledSession.cpp:1074-1095 | records not newer than the snapshot rebuild the stacks and leave the document alone |
| `Checkpoints.CompactedRebuildsLive` | src/session/JournaledSession.cpp:754-803 | the compacted records, replayed on the snapshot at the durable revision, apply no command and rebuild both stacks |
| `Checkpoints.CheckpointKeepsFaithful` | src/session/JournaledSession.cpp:754-803 | after a checkpoint replay from any revision since the new baseline rebuilds the live session |
| `Checkpoints.ActionsKeepRoom` | src/session/JournaledSession.cpp:767-774 | undo depth plus twice redo depth plus one never exceeds the revision, so a compacted history always fits |
| `UndoRedo.InverseUndoesEdit` | src/session/JournaledSession.cpp:863-886 | the inverse of an edit restores the content exactly if and only if the replaced name is 1 to 1024 bytes long |
| `UndoRedo.UndoIsExact` | src/session/JournaledSession.cpp:939-1016 | undo always applies on an exact history and brings back the previous content |
| `UndoRedo.RedoIsExact` | src/session/JournaledSession.cpp:939-1016 | redo always applies and brings back the next content |
| `UndoRedo.UndoThenRedo` | src/session/JournaledSession.cpp:939-1016 | undo and then redo restores content and both stacks; only the revision moves |
| `UndoRedo.RedoThenUndo` | src/session/JournaledSession.cpp:939-1016 | and so does redo and then undo |
| `UndoRedo.RenamingAnUnnamedTrackCannotBeUndone` | src/session/SessionController.cpp:226-232 | a concrete valid document on which a rename is accepted and its undo is refused |
| `Framing.ScanTorn` | src/persistence/Persistence.cpp:447-497 | cut anywhere, exactly the records that end by the cut are read |
| `Framing.TruncateThenAppend` | src/persistence/Persistence.cpp:573-650 | truncating to the valid bytes and appending reads back the old records and the new one |
| `JournalFile.FormatIsSound` | src/persistence/Persistence.cpp:460-495 | a whole journal record parses back whatever follows, a torn one never parses, and what parses is a whole record |
| `JournalFile.RecoverCommandJournal` | src/persistence/Persistence.cpp:447-497 | the reading loop returns the records, valid length and torn-tail flag of the specification |
| `JournalFile.RecoverTorn` | src/persistence/Persistence.cpp:447-497 | for every strictly increasing command list and every cut, recovery returns precisely the records that end by the cut, and their end |
| `CommandRecords.RecordReadsBack` | src/session/JournaledSession.cpp:157-222 | a written record is read back if and only if its names have at most 1024 bytes, its track types exist and its baseline is not zero |
| `CommandRecords.ReadRecordIsCanonical` | src/session/JournaledSession.cpp:189-222 | whatever is read encodes to the same bytes |
| `CommandRecords.JournalReadsBack` | src/session/JournaledSession.cpp:1043-1056 | a journal is understood if and only if each of its records can be read back |
| `FileLayout.RecordIsItsLayout` | src/session/JournaledSession.cpp:85-222 | a command record is read from, and only from, these bytes: magic, version 1, action 1 to 4, and the revision or the two commands with kind, entity, track type, colour, tempo and sized name |
| `FileLayout.JournalRecordIsItsLayout` | src/persistence/Persistence.cpp:460-495 | a journal record is found at the front of exactly the bytes that start with magic, version 1, sequence, size, checksum and payload, if its sequence is newer |
| `JournalDisk.CommandJournal.Initialize` | src/persistence/Persistence.cpp:573-597 | a torn tail is cut off and the last sequence found; no readable record changes |
| `JournalDisk.CommandJournal.Append` | src/persistence/Persistence.cpp:599-650 | an append is acknowledged only when flushed, and the file is then its whole records followed by the bytes of the new one; a failure leaves the readable records as they were or with the new one |
| `JournalDisk.RewriteCommandJournal` | src/persistence/Persistence.cpp:499-568 | a rewrite leaves exactly the new records, or the old bytes if the records are out of order or the replacement failed |
| `JournaledSessions.JournaledSession.CommitEdit` | src/session/JournaledSession.cpp:820-937 | each answer of an edit is determined; an edit is acknowledged only after its record is flushed, and has then, field by field, changed what it is for, pushed its entry on the undo stack and emptied the redo stack |
| `JournaledSessions.EditAnswersInFields` | src/session/JournaledSession.cpp:820-861 | the exact condition of each answer of an edit before its record is written |
| `JournaledSessions.JournaledSession.CommitHistoryAction` | src/session/JournaledSession.cpp:939-1025 | each answer of an undo or redo is determined; an acknowledged one has done, field by field, what the inverse or the forward command of the top entry is for, and moved that entry to the other stack |
| `JournaledSessions.JournaledSession.Checkpoint` | src/session/JournaledSession.cpp:734-818 | a checkpoint rewrites the journal to the compacted history exactly when the current revision is durable; the refusal for lack of room is not reached |
| `Chronicles.RecoveryIsExact` | src/session/JournaledSession.cpp:1027-1144 | journal bytes and the snapshot of any revision since the baseline give exactly the live session, if and only if every record can be read back |
| `SessionRecovery.ReplayJournal` | src/session/JournaledSession.cpp:1027-1144 | the replay loop succeeds exactly when decoding and replaying all records does, with that result |
| `SessionRecovery.CreateFromDocument` | src/session/JournaledSession.cpp:556-609 | a session opens exactly when the document is editable, an empty journal can be given its baseline and the journal replays; it is the session the records describe |
| `SessionRecovery.EditKeepsReadable` | src/session/JournaledSession.cpp:111-155 | an acknowledged edit can be recovered if and only if the name it replaced has at most 1024 bytes |
| `SessionRecovery.HistoryAlwaysApplies` | src/session/JournaledSession.cpp:988-996 | while track names are 1 to 1024 bytes and tracks at most 100000, the answer that a history command no longer applies is not reached before the revision counter is exhausted |
| `ProjectFile.EnvelopeReadsBack` | src/persistence/Persistence.cpp:322-369 | a whole project envelope is read back, a torn one is refused |
| `FileLayout.EnvelopeIsItsLayout` | src/persistence/Persistence.cpp:322-369 | a payload is read from, and only from, magic, version 1, size, checksum and payload |
| `ProjectFile.ProjectFiles.SaveProjectSnapshot` | src/persistence/Persistence.cpp:381-419 | at every point where a save may be cut off the target is the old or the complete new envelope |
| `ProjectFile.ProjectFiles.LoadProjectSnapshot` | src/persistence/Persistence.cpp:421-445 | loading returns the target if it can be read, and otherwise completes an interrupted save from a complete staging file unless that replacement fails; however it ends, the same snapshot can be loaded afterwards |
| `SessionRuns.Drive` | src/session/JournaledSession.cpp:734-1025 | after any run of edits, undos, redos, captures, saves and checkpoints with any disk failures, the live session is exactly what the acknowledged calls make of it, and the project file holds an admissible snapshot that with the journal gives that session; only after a failed append possibly the one attempted action more |
| `SessionLives.OpenProject` | src/session/JournaledSession.cpp:385-433 | opening loads, decodes and replays; it gives a session exactly when the snapshot is editable, an empty journal can be given its baseline and the journal replays |
| `SessionLives.OpenNew` | src/session/JournaledSession.cpp:556-609 | a saved document with tidy names and an empty journal open as a project that can be recovered |
| `SessionLives.DriveAndReopen` | src/session/JournaledSession.cpp:385-433 | after any run, reopening from the bytes of the project files gives the session the acknowledged calls make, or with the attempted action, and is ready for another run |
| `SessionLives.Lifetimes` | src/session/JournaledSession.cpp:385-1025 | over any number of runs, each ended anywhere and reopened from its files, every acknowledged action survives all of them in order, with both history stacks; nothing else is added but at most the last attempted action of a run |
| `SessionRuns.UnsyncedCheckpoint` | src/session/JournaledSession.cpp:754-818 | if the directory flush of a checkpoint fails and a power loss later brings the old journal and snapshot back, they give the session of the checkpoint; all that was acknowledged survives if and only if the revision has not moved since |
| `SessionRuns.RenamingALongNameCannotBeRecovered` | src/session/JournaledSession.cpp:111-155 | a concrete document on which an acknowledged rename leaves a journal record that cannot be read back |
| `SessionCodec.CurrentRoundTrip` | src/persistence/SessionDocument.cpp:534-1155 | decoding the schema 4 encoding of a valid document gives it back |
| `SessionCodec.AcceptedIsCanonical` | src/persistence/SessionDocument.cpp:784-1155 | every accepted byte string is the encoding, in its own schema, of the valid document it decodes to |
| `SessionCodec.LegacyReload` | src/persistence/SessionDocument.cpp:545-575 | a permitted export to schema 2 or 3 reloads to the same document up to the order of media sources; schema 1 also loses colours and sample rate |
| `SessionCodec.PlaceholderIds` | src/persistence/SessionDocument.cpp:1122-1138 | migration names each source the clips mention exactly once |
| `DocumentLayout.PlaceholdersDeclare` | src/persistence/SessionDocument.cpp:1122-1138 | in the order of first mention, and with nothing known about them |
| `DocumentLayout.EncodeLayout` | src/persistence/SessionDocument.cpp:611-775 | the bytes of a document, field by field: magic, schema, header, counted tracks, from schema 3 counted clips, routes and lanes, from schema 4 counted sources and sequences, the device and counted plugins |
| `DocumentLayout.ClipLayout` | src/persistence/SessionDocument.cpp:647-663 | the bytes of a clip: identity, track, source, start, length, offset, gain, mute and sized name |
| `Bytes.EightBytes` | src/persistence/SessionDocument.cpp:55-64 | a 64-bit number is stored lowest byte first |
| `SessionSerializer.SerializeSessionDocument` | src/persistence/SessionDocument.cpp:534-782 | the section by section writer gives the laid out bytes of the document, and nothing exactly for invalid documents and lossy exports |
| `SessionSerializer.DeserializeSessionDocument` | src/persistence/SessionDocument.cpp:784-1155 | the section by section reader accepts a byte string exactly if it is the layout of a valid document in some schema; what it answers then has that layout, with what the schema does not store filled in, and under schema 4 is that document |
| `Codecs.WholeIsBijective` | src/persistence/SessionDocument.cpp:784-1155 | a format whose parts keep the two laws is a bijection between valid values and accepted byte strings |
| `AsyncSessionSavers.AsyncSessionSaver.SlotsAreDisjoint` | src/persistence/AsyncSessionSaver.cpp:61-165 | producer, worker and consumer never touch the same slot at once |
| `AsyncSessionSavers.AsyncSessionSaver.Run` | src/persistence/AsyncSessionSaver.cpp:265-323 | over all interleavings read, process, write and read plus capacity stay ordered, and the completions delivered answer the accepted snapshots one by one in order |
| `AsyncSessionSavers.AsyncSessionSaver.DoLookAtIndex` | src/persistence/AsyncSessionSaver.cpp:61-70 | the worker returns only if its second load, after it saw the stop, finds nothing left |
| `AsyncSessionSavers.AsyncSessionSaver.StoppedIsDrained` | src/persistence/AsyncSessionSaver.cpp:248-263 | when the worker has returned every accepted snapshot has its completion |
| `SaveCoordinators.SessionSaveCoordinator.SubmitPending` | src/persistence/SessionSaveCoordinator.cpp:203-220 | what waits is submitted once nothing is in flight and is never refused |
| `SaveCoordinators.RememberedRevisions` | src/persistence/SessionSaveCoordinator.cpp:222-236 | the durable revision is the largest of the initial one and those of the completions that were committed, and the failed one is that of the last completion if it was not |
| `SaveCoordinators.SessionSaveCoordinator.Pump` | src/persistence/SessionSaveCoordinator.cpp:99-108 | a pump delivers exactly how the save in flight ended, if it has; the durable and the failed revision are those that all delivered completions tell; afterwards something waits only behind a save in flight |
| `SaveCoordinators.SessionSaveCoordinator.RequestSave` | src/persistence/SessionSaveCoordinator.cpp:110-149 | a revision is invalid, already requested, or newer and then accepted at once or waiting, each exactly under its condition; the remembered revisions are those of the delivered completions |
| `SaveCoordinators.SessionSaveCoordinator.Query` | src/persistence/SessionSaveCoordinator.cpp:151-177 | a requested revision is committed exactly when the durable revision has reached it and failed exactly when it is the one that failed last, both as the delivered completions tell; after a stop the newest one is never pending |
| `SaveCoordinators.SessionSaveCoordinator.Stop` | src/persistence/SessionSaveCoordinator.cpp:72-97 | a stop delivers how the save in flight and then the waiting one end; afterwards nothing waits or is in flight and the newest requested revision is answered accordingly |
| `PersistenceServices.SessionPersistenceService.Start` | src/persistence/SessionPersistenceService.cpp:63-96 | a service starts exactly once, and only before it is stopped |
| `PersistenceServices.SessionPersistenceService.MarkDirty` | src/persistence/SessionPersistenceService.cpp:120-153 | the answer and the tracked snapshot are determined by the tracked and the durable revision: only a snapshot newer than both is tracked, and only the first one arms the deadline |
| `PersistenceServices.SessionPersistenceService.RequestSave` | src/persistence/SessionPersistenceService.cpp:155-178 | a request is answered as the coordinator answers it; unless it was refused it postpones the autosave of a tracked snapshot |
| `PersistenceServices.SessionPersistenceService.Round` | src/persistence/SessionPersistenceService.cpp:212-234 | a tracked snapshot is requested once its deadline has passed and not before, and dropped only when it has become durable |
| `PersistenceServices.SessionPersistenceService.Stop` | src/persistence/SessionPersistenceService.cpp:98-118 | when a started service has stopped, no tracked snapshot is newer than both the newest request and the durable revision, and that request is answered |
| `PluginBridges.RoundUpToPowerOfTwo` | src/plugin/PluginBridge.cpp:73-80 | the smallest power of two not below the request, for every request up to 2^31 |
| `PluginBridges.DoublingNeverReaches` | src/plugin/PluginBridge.cpp:73-80 | above 2^31 the doubling wraps to zero before it reaches the request, so that the loop would not end |
| `PluginBridges.MaskIsRemainder` | src/plugin/PluginBridge.cpp:922-923 | masking with a power of two less one takes the remainder |
| `PluginBridges.SharedRing.SizeIsTrue` | src/plugin/PluginBridge.cpp:911-914 | the 32-bit difference of the wrapped indices is the true number of queued events |
| `PluginBridges.SharedRing.MaskFindsSlot` | src/plugin/PluginBridge.cpp:922-923 | the masked wrapped index is the slot of the true position, also across the wrap |
| `PluginBridges.SharedRing.Send` | src/plugin/PluginBridge.cpp:892-935 | an event is refused as out of order or for lack of room, or appended to the queue the ring stands for |
| `PluginBridges.SharedRing.DoStore` | src/plugin/PluginBridge.cpp:1598-1664 | a drain whose steps lie anywhere between sends takes, of the events it saw when it loaded the write index, exactly those before the end of the block, and counts exactly those before its start as late |
| `PluginBridges.SharedRing.Drain` | src/plugin/PluginBridge.cpp:1598-1664 | a drain without sends between its steps removes exactly the queued events before the 64-bit end of the block, and counts exactly those before its start as late |
| `PluginBridges.SharedRing.Run` | src/plugin/PluginBridge.cpp:1598-1664 | over any interleaving of sends with the loads, reads and stores of drains, every sent event is applied once and in order, or still queued |

## Left out

- MIDI buffers have no capacity here: merging keeps every event, so the counters of dropped MIDI events are not modelled.
- MIDI is not delayed with audio: the compiler compensates audio only, and the model follows it.
- Latencies and delay lengths are unbounded integers; the 32-bit overflow of their sums is not modelled.
- IEEE arithmetic: samples are abstract in the executor and real numbers in the track node; documents keep the bits of
  floating-point values, and FloatingPoint says what the tests on them mean for the values.
- Weak memory: atomics are sequentially consistent; the 64-bit positions of the rings inside one process do not wrap.
- Audio continuity across a plan swap, and the effect of reset commands on delay lines and node states: a new plan starts
  silent, and only the answers to commands are modelled.
- GainNode and MixerNode: the same frame loop as TrackNode with only its gain parameter.
- External setter calls during a block, and DeviceInputNode.
- SpscQueues.SpscQueue: each call is one atomic step, taken at its single store; the finer interleaving of loads and stores
  is modelled for the three-party ring only.
- Journals without a baseline record: sessions here start with one, as every newly created journal does; restoring a project
  from backups and journal-only recovery are not modelled either.
- SessionRuns.Drive: starts from a document whose track names are 1 to 1024 bytes long, as the conditions above require;
  so does SessionLives.Lifetimes.
- BlockCuts.RenderStream: a run with late events or a full event buffer is not compared across cuts, because then the cuts
  do matter; so with AutomatedGraphs.CompileAndAutomate.
- Prepare.PreparePlan: the capacities of MIDI buffers are not part of the storage, as said above.
- JournalDisk.RewriteCommandJournal: a replacement whose directory flush failed stays, so a power loss that brings the old
  file back is not one of its ends; SessionRuns.UnsyncedCheckpoint says what that would cost.
- ProjectFile.ProjectFiles.SaveProjectSnapshot: neither is one that brings an old project file back; the save was then
  reported as failed, and no checkpoint relies on it.
- PluginBridges.SharedRing.Send: one atomic step, taken at its single store; only the drain is split into its steps.
- PersistenceServices.SessionPersistenceService.Start: a worker thread that cannot be created.
- The strength of CRC-32: only truncation is claimed to be detected, not arbitrary corruption.
- Allocation failures other than the refusal to open an invalid document, and error texts.
- Decode-time budgets for automation points, notes and plugin states across lists: validation enforces the same totals
  after reading.
- Snapshots of more than 2^64 bytes are not saved.
- Backups of saved projects, retries of failed saves, and the liveness of autosave.
- Real files, processes, shared memory, clocks and threads; plugin hosting, the deadline and state handshakes of the plugin
  bridge, recordings, streaming from disk, device and media resolution, and the user interface.
