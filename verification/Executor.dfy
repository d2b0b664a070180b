/** The prepared plan: flat storage, circular delay lines and in-place execution, proved to refine the
    block semantics of `Execution`. */
module Executor {
  import opened Ordered
  import opened Graph
  import opened RenderPlans
  import opened Streams
  import opened Execution
  import opened Rows
  import opened ParameterEvents

  datatype PrepareInfo = PrepareInfo(maximumBlockSize: int, outputNode: NodeId, outputChannelCount: int, maximumParameterEventsPerNode: int)

  /** The format of the live plan, which a later plan has to keep. */
  datatype LiveFormat = NothingLive | Format(outputChannelCount: int, maximumBlockSize: int)

  predicate KeepsFormat(live: LiveFormat, info: PrepareInfo) {
    live.Format? ==> info.outputChannelCount == live.outputChannelCount && info.maximumBlockSize == live.maximumBlockSize
  }

  datatype PrepareError =
    | Prepared
    | InvalidPlan
    | BadBlockSize
    | BadOutputChannelCount
    | DeviceFormatChanged
    | BufferOutsidePool
    | BadOperand(index: nat)
    | TooFewOutputChannels(index: nat)
    | OutputNodeAbsent

  /** The first `f` frames of a block have been processed in place. */
  ghost predicate ProcessedUpTo<S, St, M>(m: Machine<S, St, M>, n: NodeId, s0: St, a: array2<S>, audio0: seq<seq<S>>,
    channels: seq<int>, midi: array2<M>, midi0: seq<seq<M>>, b: nat, t: nat, f: nat, s: St)
    reads a, midi
  {
    && |audio0| == a.Length0 && AllOfLength(audio0, a.Length1)
    && |midi0| == midi.Length0 && AllOfLength(midi0, midi.Length1)
    && b < |midi0| && f <= a.Length1 && f <= midi.Length1
    && (forall k :: 0 <= k < |channels| ==> 0 <= channels[k] < |audio0|)
    && s == FrameState(m, n, s0, ChannelRows(audio0, channels), midi0[b], t, f)
    && RowsOf(a) == ProcessAudio(m, n, s0, audio0, channels, midi0[b], t, f)
    && RowsOf(midi) == midi0[b := Overwrite(midi0[b], MidiRow(m, n, s0, ChannelRows(audio0, channels), midi0[b], t, f))]
  }

  /** One frame: reads the node's channels, writes its outputs over them and advances its processor. */
  method ProcessFrame<S, St, M>(m: Machine<S, St, M>, n: NodeId, ghost s0: St, a: array2<S>, ghost audio0: seq<seq<S>>,
    channels: seq<int>, midi: array2<M>, ghost midi0: seq<seq<M>>, b: nat, t: nat, f: nat, s: St)
    returns (next: St)
    requires Distinct(channels) && a as object != midi as object
    requires ProcessedUpTo(m, n, s0, a, audio0, channels, midi, midi0, b, t, f, s)
    requires f < a.Length1 && f < midi.Length1
    modifies a, midi
    ensures ProcessedUpTo(m, n, s0, a, audio0, channels, midi, midi0, b, t, f + 1, next)
  {
    FrameUntouched(m, n, s0, a, audio0, channels, midi0[b], t, f);
    var frame := seq(|channels|,
      k requires 0 <= k < |channels| && 0 <= channels[k] < a.Length0 reads a => a[channels[k], f]);
    assert frame == Frame(ChannelRows(audio0, channels), f);
    var events := midi[b, f];
    assert events == midi0[b][f] by {
      assert RowsOf(midi)[b] == RowOf(midi, b);
      assert RowOf(midi, b)[f] == midi[b, f];
    }
    var outs := seq(|channels|,
      k requires 0 <= k < |channels| => if k < |frame| then m.Out(n, t + f, s, frame, events, k) else m.zero);
    var midiOut := m.MidiOut(n, t + f, s, frame, events);
    next := m.Next(n, t + f, s, frame, events);
    WriteColumn(m, n, s0, a, audio0, channels, midi0[b], t, f, outs);
    WriteMidi(m, n, s0, audio0, channels, midi, midi0, b, t, f, midiOut);
  }

  method WriteMidi<S, St, M>(ghost m: Machine<S, St, M>, ghost n: NodeId, ghost s0: St, ghost audio0: seq<seq<S>>,
    ghost channels: seq<int>, midi: array2<M>, ghost midi0: seq<seq<M>>, b: nat, ghost t: nat, f: nat, v: M)
    requires |midi0| == midi.Length0 && AllOfLength(midi0, midi.Length1) && b < |midi0| && f < midi.Length1
    requires forall k :: 0 <= k < |channels| ==> 0 <= channels[k] < |audio0|
    requires forall p :: 0 <= p < |audio0| ==> f < |audio0[p]|
    requires v == FrameMidi(m, n, s0, ChannelRows(audio0, channels), midi0[b], t, f)
    requires RowsOf(midi)
      == midi0[b := Overwrite(midi0[b], MidiRow(m, n, s0, ChannelRows(audio0, channels), midi0[b], t, f))]
    modifies midi
    ensures RowsOf(midi)
      == midi0[b := Overwrite(midi0[b], MidiRow(m, n, s0, ChannelRows(audio0, channels), midi0[b], t, f + 1))]
  {
    ghost var before := RowsOf(midi);
    midi[b, f] := v;
    CellWritten(before, midi, b, f, v);
    ghost var rows := ChannelRows(audio0, channels);
    assert MidiRow(m, n, s0, rows, midi0[b], t, f + 1) == MidiRow(m, n, s0, rows, midi0[b], t, f) + [v];
    assert Overwrite(midi0[b], MidiRow(m, n, s0, rows, midi0[b], t, f))[f := v]
      == Overwrite(midi0[b], MidiRow(m, n, s0, rows, midi0[b], t, f + 1));
  }

  /** Processes a node over a block, frame by frame and in place. */
  method ProcessFrames<S, St, M>(m: Machine<S, St, M>, n: NodeId, s0: St, a: array2<S>, channels: seq<int>,
    midi: array2<M>, b: nat, t: nat, frames: nat)
    returns (s: St)
    requires Distinct(channels) && forall k :: 0 <= k < |channels| ==> 0 <= channels[k] < a.Length0
    requires b < midi.Length0 && frames <= a.Length1 && frames <= midi.Length1
    requires a as object != midi as object
    modifies a, midi
    ensures ProcessedUpTo(m, n, s0, a, old(RowsOf(a)), channels, midi, old(RowsOf(midi)), b, t, frames, s)
  {
    ghost var audio0, midi0 := RowsOf(a), RowsOf(midi);
    NothingProcessed(m, n, s0, audio0, channels, midi0[b], t);
    assert Overwrite(midi0[b], []) == midi0[b];
    s := s0;
    var f := 0;
    while f < frames
      invariant 0 <= f <= frames
      invariant ProcessedUpTo(m, n, s0, a, audio0, channels, midi, midi0, b, t, f, s)
    {
      s := ProcessFrame(m, n, s0, a, audio0, channels, midi, midi0, b, t, f, s);
      f := f + 1;
    }
  }

  lemma NothingProcessed<S, St, M>(m: Machine<S, St, M>, n: NodeId, s0: St, audio: seq<seq<S>>, channels: seq<int>,
    midi: seq<M>, t: nat)
    requires forall k :: 0 <= k < |channels| ==> 0 <= channels[k] < |audio|
    ensures ProcessAudio(m, n, s0, audio, channels, midi, t, 0) == audio
  {
    forall b | 0 <= b < |audio| && b in channels
      ensures ProcessAudio(m, n, s0, audio, channels, midi, t, 0)[b] == audio[b] {
      assert [] + audio[b][0..] == audio[b];
    }
  }

  /** The columns not processed yet are as they were. */
  lemma FrameUntouched<S, St, M>(m: Machine<S, St, M>, n: NodeId, s0: St, a: array2<S>, audio0: seq<seq<S>>,
    channels: seq<int>, midi: seq<M>, t: nat, f: nat)
    requires |audio0| == a.Length0 && forall p :: 0 <= p < |audio0| ==> |audio0[p]| == a.Length1
    requires forall k :: 0 <= k < |channels| ==> 0 <= channels[k] < a.Length0
    requires f < a.Length1 && f <= |midi|
    requires RowsOf(a) == ProcessAudio(m, n, s0, audio0, channels, midi, t, f)
    ensures forall p :: 0 <= p < a.Length0 ==> a[p, f] == audio0[p][f]
  {
    forall p | 0 <= p < a.Length0 ensures a[p, f] == audio0[p][f] {
      assert RowsOf(a)[p] == RowOf(a, p);
      assert RowOf(a, p)[f] == a[p, f];
    }
  }

  /** Stores the node's output frame in its channels. */
  method WriteColumn<S, St, M>(ghost m: Machine<S, St, M>, ghost n: NodeId, ghost s0: St, a: array2<S>,
    ghost audio0: seq<seq<S>>, channels: seq<int>, ghost midi: seq<M>, ghost t: nat, f: nat, outs: seq<S>)
    requires |audio0| == a.Length0 && forall p :: 0 <= p < |audio0| ==> |audio0[p]| == a.Length1
    requires Distinct(channels) && forall k :: 0 <= k < |channels| ==> 0 <= channels[k] < a.Length0
    requires f < a.Length1 && f < |midi| && |outs| == |channels|
    requires RowsOf(a) == ProcessAudio(m, n, s0, audio0, channels, midi, t, f)
    requires forall k :: 0 <= k < |channels| ==>
      outs[k] == FrameOut(m, n, s0, ChannelRows(audio0, channels), midi, t, f, k)
    modifies a
    ensures RowsOf(a) == ProcessAudio(m, n, s0, audio0, channels, midi, t, f + 1)
  {
    ghost var before := RowsOf(a);
    forall k | 0 <= k < |channels| {
      a[channels[k], f] := outs[k];
    }
    forall p | 0 <= p < a.Length0 ensures RowOf(a, p) == ProcessAudio(m, n, s0, audio0, channels, midi, t, f + 1)[p] {
      forall j | 0 <= j < a.Length1 && !(j == f && p in channels) ensures a[p, j] == before[p][j] {
        assert p in channels || forall k :: 0 <= k < |channels| ==> channels[k] != p;
      }
      if p in channels {
        var k := IndexOf(channels, p);
        assert a[p, f] == outs[k];
        ColumnDone(m, n, s0, audio0, channels, midi, t, f, p, RowOf(a, p), before[p]);
      } else {
        assert RowOf(a, p) == before[p];
      }
    }
  }

  lemma ColumnDone<S, St, M>(m: Machine<S, St, M>, n: NodeId, s0: St, audio0: seq<seq<S>>, channels: seq<int>,
    midi: seq<M>, t: nat, f: nat, p: int, row: seq<S>, before: seq<S>)
    requires forall k :: 0 <= k < |channels| ==> 0 <= channels[k] < |audio0|
    requires f < |midi| && 0 <= p < |audio0| && p in channels && forall q :: 0 <= q < |audio0| ==> f < |audio0[q]|
    requires before == ProcessAudio(m, n, s0, audio0, channels, midi, t, f)[p]
    requires |row| == |audio0[p]| && forall j :: 0 <= j < |row| && j != f ==> j < |before| && row[j] == before[j]
    requires row[f] == FrameOut(m, n, s0, ChannelRows(audio0, channels), midi, t, f, IndexOf(channels, p))
    ensures row == ProcessAudio(m, n, s0, audio0, channels, midi, t, f + 1)[p]
  {
    var rows, k := ChannelRows(audio0, channels), IndexOf(channels, p);
    OutRowGrows(m, n, s0, rows, midi, t, f, k);
    OneMoreFrame(audio0[p], OutRow(m, n, s0, rows, midi, t, f, k), row, before, row[f]);
  }

  lemma OutRowGrows<S, St, M>(m: Machine<S, St, M>, n: NodeId, s0: St, rows: seq<seq<S>>, midi: seq<M>, t: nat, f: nat,
    k: nat)
    requires k < |rows| && f < |midi| && forall i :: 0 <= i < |rows| ==> f < |rows[i]|
    ensures OutRow(m, n, s0, rows, midi, t, f + 1, k)
      == OutRow(m, n, s0, rows, midi, t, f, k) + [FrameOut(m, n, s0, rows, midi, t, f, k)]
  {}

  lemma OneMoreFrame<T>(base: seq<T>, xs: seq<T>, row: seq<T>, before: seq<T>, v: T)
    requires |xs| < |base| == |row| && before == Overwrite(base, xs)
    requires forall j :: 0 <= j < |row| && j != |xs| ==> row[j] == before[j]
    requires row[|xs|] == v
    ensures row == Overwrite(base, xs + [v])
  {}

  // ----- layout of the delay storage

  /** Where the delay lines live in the flat storage, one after the other. */
  datatype Layout = Layout(offsets: seq<nat>, lengths: seq<nat>, total: nat)

  ghost predicate LaidOut(l: Layout) {
    && |l.offsets| == |l.lengths|
    && (forall i :: 0 <= i < |l.offsets| ==> l.offsets[i] + l.lengths[i] <= l.total)
    && (forall i, j :: 0 <= i < j < |l.offsets| ==> l.offsets[i] + l.lengths[i] <= l.offsets[j])
  }

  /** A line's samples, oldest first. */
  ghost function LineOf<S>(storage: array<S>, offset: nat, length: nat, w: nat): seq<S>
    reads storage
    requires offset + length <= storage.Length && w <= length
  {
    Rotate(storage[offset..offset + length], w)
  }

  ghost predicate LinePositions(l: Layout, positions: seq<nat>) {
    |positions| == |l.lengths| && forall i :: 0 <= i < |positions| ==>
      positions[i] < l.lengths[i] || positions[i] == l.lengths[i] == 0
  }

  ghost function LinesOf<S>(storage: array<S>, l: Layout, positions: seq<nat>): (lines: seq<seq<S>>)
    reads storage
    requires LaidOut(l) && storage.Length == l.total && LinePositions(l, positions)
    ensures |lines| == |l.offsets| && forall i :: 0 <= i < |lines| ==>
      lines[i] == LineOf(storage, l.offsets[i], l.lengths[i], positions[i])
  {
    seq(|l.offsets|, i requires 0 <= i < |l.offsets| reads storage => LineOf(storage, l.offsets[i], l.lengths[i],
      positions[i]))
  }

  /** Changing one line's stretch of the storage leaves the other lines alone. */
  lemma OneLineChanged<S>(storage: array<S>, l: Layout, positions: seq<nat>, i: nat, w: nat, before: seq<seq<S>>,
    storage0: seq<S>)
    requires LaidOut(l) && storage.Length == l.total && LinePositions(l, positions) && i < |l.offsets|
      && w < l.lengths[i]
    requires |storage0| == storage.Length
    requires |before| == |l.offsets| && forall j :: 0 <= j < |before| ==>
      before[j] == Rotate(storage0[l.offsets[j]..l.offsets[j] + l.lengths[j]], positions[j])
    requires forall p :: 0 <= p < storage.Length && !(l.offsets[i] <= p < l.offsets[i] + l.lengths[i]) ==>
      storage[p] == storage0[p]
    ensures LinesOf(storage, l, positions[i := w]) == before[i := LineOf(storage, l.offsets[i], l.lengths[i], w)]
  {
    forall j | 0 <= j < |l.offsets| && j != i
      ensures LineOf(storage, l.offsets[j], l.lengths[j], positions[j]) == before[j] {
      var a, b := l.offsets[j], l.offsets[j] + l.lengths[j];
      assert storage[a..b] == storage0[a..b] by {
        forall p | a <= p < b ensures storage[p] == storage0[p] {
          if i < j { assert l.offsets[i] + l.lengths[i] <= l.offsets[j]; } else { assert l.offsets[j] + l.lengths[j] <= l.offsets[i]; }
        }
      }
    }
  }

  /** A memory with all the effects of a `Process` operation is the result of that operation. */
  lemma ProcessIsStep<S, St, M>(m: Machine<S, St, M>, c: Setup, mem: Memory<S, St, M>, after: Memory<S, St, M>,
    op: RenderOp, t: nat, frames: nat)
    requires Shaped(c, mem) && op.Process? && Executable(c, mem, op) && frames <= c.block
    requires var channels := c.table[op.firstChannel..op.firstChannel + op.channelCount];
      && (forall k :: 0 <= k < |channels| ==> 0 <= channels[k] < |mem.audio|)
      && after.audio == ProcessAudio(m, op.node, mem.states[op.node], mem.audio, channels, mem.midi[op.midi], t, frames)
      && after.midi == mem.midi[op.midi := Overwrite(mem.midi[op.midi],
           MidiRow(m, op.node, mem.states[op.node], ChannelRows(mem.audio, channels), mem.midi[op.midi], t, frames))]
      && after.states == mem.states[op.node := FrameState(m, op.node, mem.states[op.node],
        ChannelRows(mem.audio, channels), mem.midi[op.midi], t, frames)]
      && after.lines == mem.lines
      && (forall b :: 0 <= b < |after.audio| ==> frames <= |after.audio[b]|)
      && after.output == (if op.node == c.outputNode then Capture(mem.output, after.audio, channels, frames) else mem.output)
    ensures after == StepBlock(m, c, mem, op, t, frames)
  {}

  // ----- the prepared plan

  class PreparedRenderPlan<!S, !St, !M> {
    const operations: seq<RenderOp>
    const channelBuffers: seq<int>
    const outputNode: NodeId
    const outputCount: nat
    const maximumBlockSize: nat
    const audioStorage: array2<S>
    const midiBuffers: array2<M>
    const outputStorage: array2<S>
    const delayStorage: array<S>
    const layout: Layout
    const parameterNodeIds: seq<NodeId>
    const parameterBuffers: seq<ParameterEventBuffer>
    var delayWritePositions: seq<nat>
    var states: map<NodeId, St>

    ghost predicate Valid()
      reads this
    {
      && audioStorage.Length1 == midiBuffers.Length1 == outputStorage.Length1 == maximumBlockSize
      && maximumBlockSize > 0 && outputStorage.Length0 == outputCount
      && audioStorage != outputStorage
      && audioStorage as object != midiBuffers as object && outputStorage as object != midiBuffers as object
      && LaidOut(layout) && delayStorage.Length == layout.total
      && LinePositions(layout, delayWritePositions)
    }

    ghost function Config(): Setup
    {
      Setup(channelBuffers, outputNode, outputCount, maximumBlockSize)
    }

    /** The memory this storage represents. */
    ghost function Value(): (mem: Memory<S, St, M>)
      reads this, audioStorage, midiBuffers, outputStorage, delayStorage
      requires Valid()
      ensures Shaped(Config(), mem)
    {
      Memory(RowsOf(audioStorage), RowsOf(midiBuffers), LinesOf(delayStorage, layout, delayWritePositions), states,
        RowsOf(outputStorage))
    }

    constructor (machine: Machine<S, St, M>, operations: seq<RenderOp>, channelBuffers: seq<int>, bufferCount: nat,
      midiBufferCount: nat, layout: Layout, parameterNodeIds: seq<NodeId>, parameterBuffers: seq<ParameterEventBuffer>,
      info: PrepareInfo, states: map<NodeId, St>)
      requires LaidOut(layout) && info.maximumBlockSize > 0 && info.outputChannelCount > 0
      ensures Valid() && fresh(audioStorage) && fresh(midiBuffers) && fresh(outputStorage) && fresh(delayStorage)
      ensures this.operations == operations && this.layout == layout
      ensures this.parameterNodeIds == parameterNodeIds && this.parameterBuffers == parameterBuffers
      ensures Config() == Setup(channelBuffers, info.outputNode, info.outputChannelCount, info.maximumBlockSize)
      ensures |Value().audio| == bufferCount && |Value().midi| == midiBufferCount && |Value().lines| == |layout.lengths|
      ensures forall l :: 0 <= l < |Value().lines| ==> Value().lines[l] == Repeat(machine.zero, layout.lengths[l])
      ensures Value().states == states
    {
      this.operations := operations;
      this.channelBuffers := channelBuffers;
      this.outputNode := info.outputNode;
      this.outputCount := info.outputChannelCount;
      this.maximumBlockSize := info.maximumBlockSize;
      this.layout := layout;
      this.parameterNodeIds, this.parameterBuffers := parameterNodeIds, parameterBuffers;
      this.states := states;
      this.delayWritePositions := seq(|layout.lengths|, _ => 0);
      this.audioStorage := new S[bufferCount, info.maximumBlockSize]((_, _) => machine.zero);
      this.midiBuffers := new M[midiBufferCount, info.maximumBlockSize]((_, _) => machine.noMidi);
      this.outputStorage := new S[info.outputChannelCount, info.maximumBlockSize]((_, _) => machine.zero);
      this.delayStorage := new S[layout.total](_ => machine.zero);
      new;
      forall l | 0 <= l < |layout.lengths|
        ensures LineOf(delayStorage, layout.offsets[l], layout.lengths[l], 0)
          == Repeat(machine.zero, layout.lengths[l]) {}
    }

    /** The operation's delay line has its length, and its channels are distinct. */
    ghost predicate Fits(op: RenderOp) {
      && (op.Delay? ==> 0 <= op.line < |layout.lengths| && op.samples == layout.lengths[op.line])
      && (op.Process? && 0 <= op.firstChannel <= op.firstChannel + op.channelCount <= |channelBuffers| ==>
            Distinct(channelBuffers[op.firstChannel..op.firstChannel + op.channelCount]))
    }

    /** One operation, in place. `machine` is what the processors are given in this block and what they do with it. */
    method ExecuteOp(machine: Machine<S, St, M>, op: RenderOp, t: nat, frames: nat)
      requires Valid() && frames <= maximumBlockSize && Executable(Config(), Value(), op)
      requires Fits(op) == true
      modifies this, audioStorage, midiBuffers, outputStorage, delayStorage
      ensures Valid() && Value() == StepBlock(machine, Config(), old(Value()), op, t, frames)
    {
      match op {
        case Clear(d) => FillRow(audioStorage, d, frames, machine.zero);
        case Copy(s, d) => CopyRow(audioStorage, s, d, frames);
        case Add(s, d) => CombineRow(audioStorage, s, d, frames, machine.add);
        case Delay(d, l, samples) => ExecuteDelay(d, l, samples, frames);
        case MidiClear(d) => FillRow(midiBuffers, d, frames, machine.noMidi);
        case MidiMerge(s, d) => CombineRow(midiBuffers, s, d, frames, machine.merge);
        case Process(n, first, count, b) => ExecuteProcess(machine, op, t, frames);
      }
    }

    method ExecuteDelay(d: nat, l: nat, samples: nat, frames: nat)
      requires Valid() && frames <= maximumBlockSize && d < audioStorage.Length0 && l < |layout.lengths|
        && samples == layout.lengths[l] > 0
      modifies this, audioStorage, delayStorage
      ensures Valid() && states == old(states)
      ensures var stream := old(Value()).lines[l] + old(Value()).audio[d][..frames];
        Value() == old(Value()).(audio := old(Value()).audio[d := Overwrite(old(Value()).audio[d], stream[..frames])],
                                 lines := old(Value()).lines[l := stream[frames..]])
    {
      ghost var q := Value().lines[l];
      ghost var lines0, storage0 := Value().lines, delayStorage[..];
      assert q == LineOf(delayStorage, layout.offsets[l], layout.lengths[l], delayWritePositions[l]);
      forall j | 0 <= j < |lines0|
        ensures storage0[layout.offsets[j]..layout.offsets[j] + layout.lengths[j]]
          == delayStorage[layout.offsets[j]..layout.offsets[j] + layout.lengths[j]]
      {}
      var position := DelayRow(audioStorage, d, frames, delayStorage, layout.offsets[l], samples,
        delayWritePositions[l], q);
      OneLineChanged(delayStorage, layout, delayWritePositions, l, position, lines0, storage0);
      delayWritePositions := delayWritePositions[l := position];
    }

    method ExecuteProcess(machine: Machine<S, St, M>, op: RenderOp, t: nat, frames: nat)
      requires Valid() && frames <= maximumBlockSize && op.Process? && Executable(Config(), Value(), op)
      requires Distinct(channelBuffers[op.firstChannel..op.firstChannel + op.channelCount])
      modifies this, audioStorage, midiBuffers, outputStorage
      ensures Valid() && Value() == StepBlock(machine, Config(), old(Value()), op, t, frames)
    {
      var channels := channelBuffers[op.firstChannel..op.firstChannel + op.channelCount];
      ghost var mem := Value();
      RunProcessor(machine, op.node, channels, op.midi, t, frames);
      if op.node == outputNode {
        CaptureOutput(channels, frames);
      }
      ProcessIsStep(machine, Config(), mem, Value(), op, t, frames);
    }

    /** The virtual call: the node's processor consumes and overwrites its channels and its MIDI buffer. */
    method RunProcessor(machine: Machine<S, St, M>, n: NodeId, channels: seq<int>, b: nat, t: nat, frames: nat)
      requires Valid() && frames <= maximumBlockSize && n in states && b < midiBuffers.Length0
      requires Distinct(channels) && forall k :: 0 <= k < |channels| ==> 0 <= channels[k] < audioStorage.Length0
      modifies this, audioStorage, midiBuffers
      ensures Valid() && delayWritePositions == old(delayWritePositions)
      ensures RowsOf(audioStorage)
        == ProcessAudio(machine, n, old(states)[n], old(RowsOf(audioStorage)), channels, old(RowsOf(midiBuffers))[b], t,
          frames)
      ensures RowsOf(midiBuffers) == old(RowsOf(midiBuffers))[b := Overwrite(old(RowsOf(midiBuffers))[b],
        MidiRow(machine, n, old(states)[n], ChannelRows(old(RowsOf(audioStorage)), channels),
          old(RowsOf(midiBuffers))[b], t, frames))]
      ensures states == old(states)[n := FrameState(machine, n, old(states)[n],
        ChannelRows(old(RowsOf(audioStorage)), channels), old(RowsOf(midiBuffers))[b], t, frames)]
    {
      var state := ProcessFrames(machine, n, states[n], audioStorage, channels, midiBuffers, b, t, frames);
      states := states[n := state];
    }

    /** Copies the output node's channels out, right after it has been processed. */
    method CaptureOutput(channels: seq<int>, frames: nat)
      requires Valid() && frames <= maximumBlockSize && outputCount <= |channels|
      requires forall k :: 0 <= k < |channels| ==> 0 <= channels[k] < audioStorage.Length0
      modifies outputStorage
      ensures Valid()
        && RowsOf(outputStorage) == Capture(old(RowsOf(outputStorage)), RowsOf(audioStorage), channels, frames)
    {
      ghost var rows := RowsOf(outputStorage);
      var channel := 0;
      while channel < outputCount
        invariant 0 <= channel <= outputCount
        invariant forall k :: 0 <= k < outputCount ==>
          RowsOf(outputStorage)[k] == if k < channel then Overwrite(rows[k], RowsOf(audioStorage)[channels[k]][..frames]) else rows[k]
      {
        CopyAcross(audioStorage, channels[channel], outputStorage, channel, frames);
        channel := channel + 1;
      }
    }

    /** Executes the whole plan over one block. */
    method Execute(machine: Machine<S, St, M>, t: nat, frames: nat)
      requires Valid() && frames <= maximumBlockSize && AllExecutable(Config(), Value(), operations)
      requires forall k :: 0 <= k < |operations| ==> Fits(operations[k])
      modifies this, audioStorage, midiBuffers, outputStorage, delayStorage
      ensures Valid() && Value() == RunBlock(machine, Config(), old(Value()), operations, t, frames)
    {
      ghost var mem := Value();
      ghost var now := mem;
      var k := 0;
      while k < |operations|
        invariant 0 <= k <= |operations| && Valid() && Value() == now
        invariant AllExecutable(Config(), mem, operations[..k]) == true
        invariant now == RunBlock(machine, Config(), mem, operations[..k], t, frames)
      {
        RunBlockStep(machine, Config(), mem, operations, k, t, frames);
        now := StepBlock(machine, Config(), now, operations[k], t, frames);
        ExecuteOp(machine, operations[k], t, frames);
        k := k + 1;
      }
      assert operations[..k] == operations;
    }
  }

  /** `memcpy` between two buffers. */
  method CopyAcross<T>(a: array2<T>, s: nat, b: array2<T>, d: nat, frames: nat)
    requires a != b && s < a.Length0 && d < b.Length0 && frames <= a.Length1 && frames <= b.Length1
    modifies b
    ensures RowsOf(b) == old(RowsOf(b))[d := Overwrite(old(RowsOf(b))[d], RowsOf(a)[s][..frames])]
  {
    ghost var rows := RowsOf(b);
    ghost var xs := RowsOf(a)[s][..frames];
    NothingWritten(b, d, xs);
    var f := 0;
    while f < frames
      invariant 0 <= f <= frames && Written(b, rows, d, xs, f)
    {
      assert RowOf(a, s)[f] == xs[f];
      WriteFrame(b, d, f, a[s, f], rows, xs);
      f := f + 1;
    }
    assert xs[..f] == xs;
  }
}
