/** What executing a plan does to its memory, block by block, and the proof that a sound plan computes
    the streams its symbolic meaning describes. */
module Execution {
  import opened Graph
  import opened RenderPlans
  import opened Streams

  /** The runtime storage of a prepared plan: audio and MIDI buffers of one block each, delay lines oldest
      sample first, processor states, and the captured output. */
  datatype Memory<!S, !St, !M> = Memory(
    audio: seq<seq<S>>,
    midi: seq<seq<M>>,
    lines: seq<seq<S>>,
    states: map<NodeId, St>,
    output: seq<seq<S>>
  )

  /** What is fixed when a plan is prepared. */
  datatype Setup = Setup(table: seq<int>, outputNode: NodeId, outputCount: nat, block: nat)

  ghost predicate AllOfLength<T>(rows: seq<seq<T>>, length: nat) {
    forall k :: 0 <= k < |rows| ==> |rows[k]| == length
  }

  ghost predicate Shaped<S, St, M>(c: Setup, mem: Memory<S, St, M>) {
    && AllOfLength(mem.audio, c.block)
    && AllOfLength(mem.midi, c.block)
    && AllOfLength(mem.output, c.block)
    && |mem.output| == c.outputCount
  }

  /** The operation may be executed on this memory. */
  ghost predicate Executable<S, St, M>(c: Setup, mem: Memory<S, St, M>, op: RenderOp) {
    && OperandsInRange(op, |mem.audio|, |mem.lines|, |mem.midi|, |c.table|)
    && (op.Process? ==>
          && op.node in mem.states
          && (op.node == c.outputNode ==> c.outputCount <= op.channelCount)
          && (forall k :: 0 <= k < |c.table| ==> 0 <= c.table[k] < |mem.audio|))
  }

  ghost function Overwrite<T>(row: seq<T>, frames: seq<T>): seq<T>
    requires |frames| <= |row|
  {
    frames + row[|frames|..]
  }

  ghost function Repeat<T>(x: T, n: nat): seq<T> {
    seq(n, _ => x)
  }

  ghost function Zip<T>(f: (T, T) -> T, a: seq<T>, b: seq<T>, n: nat): seq<T>
    requires n <= |a| && n <= |b|
  {
    seq(n, k requires 0 <= k < n => f(a[k], b[k]))
  }

  /** One frame across a node's channels. */
  ghost function Frame<S>(rows: seq<seq<S>>, f: nat): seq<S>
    requires forall k :: 0 <= k < |rows| ==> f < |rows[k]|
  {
    seq(|rows|, k requires 0 <= k < |rows| => rows[k][f])
  }

  /** A processor's state after `f` frames of the block. */
  ghost function FrameState<S, St, M>(m: Machine<S, St, M>, n: NodeId, s: St, rows: seq<seq<S>>, midi: seq<M>, t: nat,
    f: nat): St
    requires f <= |midi| && forall k :: 0 <= k < |rows| ==> f <= |rows[k]|
  {
    if f == 0 then s
    else m.Next(n, t + f - 1, FrameState(m, n, s, rows, midi, t, f - 1), Frame(rows, f - 1), midi[f - 1])
  }

  ghost function FrameOut<S, St, M>(m: Machine<S, St, M>, n: NodeId, s: St, rows: seq<seq<S>>, midi: seq<M>, t: nat,
    f: nat, channel: nat): S
    requires channel < |rows| && f < |midi| && forall k :: 0 <= k < |rows| ==> f < |rows[k]|
  {
    m.Out(n, t + f, FrameState(m, n, s, rows, midi, t, f), Frame(rows, f), midi[f], channel)
  }

  ghost function FrameMidi<S, St, M>(m: Machine<S, St, M>, n: NodeId, s: St, rows: seq<seq<S>>, midi: seq<M>, t: nat,
    f: nat): M
    requires f < |midi| && forall k :: 0 <= k < |rows| ==> f < |rows[k]|
  {
    m.MidiOut(n, t + f, FrameState(m, n, s, rows, midi, t, f), Frame(rows, f), midi[f])
  }

  ghost function OutRow<S, St, M>(m: Machine<S, St, M>, n: NodeId, s: St, rows: seq<seq<S>>, midi: seq<M>, t: nat,
    frames: nat, channel: nat): seq<S>
    requires channel < |rows| && frames <= |midi| && forall k :: 0 <= k < |rows| ==> frames <= |rows[k]|
  {
    seq(frames, f requires 0 <= f < frames => FrameOut(m, n, s, rows, midi, t, f, channel))
  }

  ghost function MidiRow<S, St, M>(m: Machine<S, St, M>, n: NodeId, s: St, rows: seq<seq<S>>, midi: seq<M>, t: nat,
    frames: nat): seq<M>
    requires frames <= |midi| && forall k :: 0 <= k < |rows| ==> frames <= |rows[k]|
  {
    seq(frames, f requires 0 <= f < frames => FrameMidi(m, n, s, rows, midi, t, f))
  }

  ghost function ChannelRows<S>(audio: seq<seq<S>>, channels: seq<int>): (rows: seq<seq<S>>)
    requires forall k :: 0 <= k < |channels| ==> 0 <= channels[k] < |audio|
    ensures |rows| == |channels| && forall k :: 0 <= k < |rows| ==> rows[k] == audio[channels[k]]
  {
    seq(|channels|, k requires 0 <= k < |channels| => audio[channels[k]])
  }

  ghost function ProcessAudio<S, St, M>(m: Machine<S, St, M>, n: NodeId, s: St, audio: seq<seq<S>>, channels: seq<int>,
    midi: seq<M>, t: nat, frames: nat): (after: seq<seq<S>>)
    requires forall k :: 0 <= k < |channels| ==> 0 <= channels[k] < |audio|
    requires frames <= |midi| && forall b :: 0 <= b < |audio| ==> frames <= |audio[b]|
    ensures |after| == |audio|
  {
    var rows := ChannelRows(audio, channels);
    seq(|audio|, b requires 0 <= b < |audio| =>
      if b in channels then Overwrite(audio[b], OutRow(m, n, s, rows, midi, t, frames, IndexOf(channels, b))) else audio[b])
  }

  ghost function Capture<S>(output: seq<seq<S>>, audio: seq<seq<S>>, channels: seq<int>, frames: nat): seq<seq<S>>
    requires |output| <= |channels| && forall k :: 0 <= k < |channels| ==> 0 <= channels[k] < |audio|
    requires forall b :: 0 <= b < |audio| ==> frames <= |audio[b]|
    requires forall k :: 0 <= k < |output| ==> frames <= |output[k]|
  {
    seq(|output|, k requires 0 <= k < |output| => Overwrite(output[k], audio[channels[k]][..frames]))
  }

  /** Runs one operation over a block of `frames` frames starting at absolute frame `t`. */
  ghost function StepBlock<S, St, M>(m: Machine<S, St, M>, c: Setup, mem: Memory<S, St, M>, op: RenderOp, t: nat,
    frames: nat): Memory<S, St, M>
    requires Shaped(c, mem) && Executable(c, mem, op) && frames <= c.block
  {
    match op
    case Clear(d) => mem.(audio := mem.audio[d := Overwrite(mem.audio[d], Repeat(m.zero, frames))])
    case Copy(s, d) => mem.(audio := mem.audio[d := Overwrite(mem.audio[d], mem.audio[s][..frames])])
    case Add(s, d) => mem.(audio := mem.audio[d := Overwrite(mem.audio[d],
      Zip(m.add, mem.audio[d], mem.audio[s], frames))])
    case Delay(d, l, _) =>
      var stream := mem.lines[l] + mem.audio[d][..frames];
      mem.(audio := mem.audio[d := Overwrite(mem.audio[d], stream[..frames])],
        lines := mem.lines[l := stream[frames..]])
    case MidiClear(d) => mem.(midi := mem.midi[d := Overwrite(mem.midi[d], Repeat(m.noMidi, frames))])
    case MidiMerge(s, d) => mem.(midi := mem.midi[d := Overwrite(mem.midi[d],
      Zip(m.merge, mem.midi[d], mem.midi[s], frames))])
    case Process(n, first, count, b) =>
      var channels := c.table[first..first + count];
      var rows := ChannelRows(mem.audio, channels);
      var audio := ProcessAudio(m, n, mem.states[n], mem.audio, channels, mem.midi[b], t, frames);
      mem.(
        audio := audio,
        midi := mem.midi[b := Overwrite(mem.midi[b], MidiRow(m, n, mem.states[n], rows, mem.midi[b], t, frames))],
        states := mem.states[n := FrameState(m, n, mem.states[n], rows, mem.midi[b], t, frames)],
        output := if n == c.outputNode then Capture(mem.output, audio, channels, frames) else mem.output)
  }

  /** The memory keeps its shape, so that every operation of the plan stays executable. */
  lemma StepKeepsShape<S, St, M>(m: Machine<S, St, M>, c: Setup, mem: Memory<S, St, M>, op: RenderOp, t: nat,
    frames: nat)
    requires Shaped(c, mem) && Executable(c, mem, op) && frames <= c.block
    ensures var after := StepBlock(m, c, mem, op, t, frames);
            Shaped(c, after) && |after.audio| == |mem.audio| && |after.midi| == |mem.midi|
              && |after.lines| == |mem.lines|
            && after.states.Keys == mem.states.Keys
  {}

  ghost predicate AllExecutable<S, St, M>(c: Setup, mem: Memory<S, St, M>, ops: seq<RenderOp>) {
    forall k :: 0 <= k < |ops| ==> Executable(c, mem, ops[k])
  }

  ghost function RunBlock<S, St, M>(m: Machine<S, St, M>, c: Setup, mem: Memory<S, St, M>, ops: seq<RenderOp>, t: nat,
    frames: nat): (after: Memory<S, St, M>)
    requires Shaped(c, mem) && AllExecutable(c, mem, ops) && frames <= c.block
    ensures Shaped(c, after) && |after.audio| == |mem.audio| && |after.midi| == |mem.midi|
      && |after.lines| == |mem.lines|
    ensures after.states.Keys == mem.states.Keys
  {
    if ops == [] then mem
    else
      var last := |ops| - 1;
      assert forall k :: 0 <= k < |ops[..last]| ==> ops[..last][k] == ops[k];
      var before := RunBlock(m, c, mem, ops[..last], t, frames);
      assert Executable(c, mem, ops[last]);
      StepKeepsShape(m, c, before, ops[last], t, frames);
      StepBlock(m, c, before, ops[last], t, frames)
  }

  lemma RunBlockStep<S, St, M>(m: Machine<S, St, M>, c: Setup, mem: Memory<S, St, M>, ops: seq<RenderOp>, k: nat,
    t: nat, frames: nat)
    requires Shaped(c, mem) && AllExecutable(c, mem, ops) && frames <= c.block && k < |ops|
    ensures AllExecutable(c, mem, ops[..k]) == true && AllExecutable(c, mem, ops[..k + 1]) == true
    ensures Executable(c, RunBlock(m, c, mem, ops[..k], t, frames), ops[k])
    ensures RunBlock(m, c, mem, ops[..k + 1], t, frames)
         == StepBlock(m, c, RunBlock(m, c, mem, ops[..k], t, frames), ops[k], t, frames)
  {
    assert ops[..k + 1][..k] == ops[..k];
    assert Executable(c, mem, ops[k]);
  }

  // ----- correspondence with the symbolic meaning

  /** `row` holds the frames of the stream from `t` on. */
  ghost predicate RowIs<S, St, M>(m: Machine<S, St, M>, net: Net, row: seq<S>, term: Term, t: nat, frames: nat)
    requires WellRanked(net)
  {
    frames <= |row| && forall f :: 0 <= f < frames ==> row[f] == AudioAt(m, net, term, t + f)
  }

  ghost predicate MidiRowIs<S, St, M>(m: Machine<S, St, M>, net: Net, row: seq<M>, term: MidiTerm, t: nat, frames: nat)
    requires WellRanked(net)
  {
    frames <= |row| && forall f :: 0 <= f < frames ==> row[f] == MidiAt(m, net, term, t + f)
  }

  /** A delay line at time `t`: the last `samples` samples fed to it, oldest first, silence before time zero. */
  ghost function LineAt<S, St, M>(m: Machine<S, St, M>, net: Net, line: DelayUse, t: nat): (q: seq<S>)
    requires WellRanked(net)
    ensures |q| == if line.samples >= 0 then line.samples else 0
  {
    seq(if line.samples >= 0 then line.samples else 0, k requires 0 <= k < line.samples =>
      if t + k - line.samples >= 0 then AudioAt(m, net, line.input, t + k - line.samples) else m.zero)
  }

  ghost predicate AudioHolds<S, St, M>(m: Machine<S, St, M>, net: Net, s: Symbolic, mem: Memory<S, St, M>, t: nat,
    frames: nat)
    requires WellRanked(net)
  {
    forall b :: b in s.audio ==> 0 <= b < |mem.audio| && RowIs(m, net, mem.audio[b], s.audio[b], t, frames)
  }

  ghost predicate MidiHolds<S, St, M>(m: Machine<S, St, M>, net: Net, s: Symbolic, mem: Memory<S, St, M>, t: nat,
    frames: nat)
    requires WellRanked(net)
  {
    forall b :: b in s.midi ==> 0 <= b < |mem.midi| && MidiRowIs(m, net, mem.midi[b], s.midi[b], t, frames)
  }

  /** Lines used so far in this block have advanced; the others have not. */
  ghost predicate LinesHold<S, St, M>(m: Machine<S, St, M>, net: Net, lines: map<int, DelayUse>, s: Symbolic,
    mem: Memory<S, St, M>, t: nat, frames: nat)
    requires WellRanked(net)
  {
    forall l :: l in lines ==>
      0 <= l < |mem.lines| && mem.lines[l] == LineAt(m, net, lines[l], if l in s.lines then t + frames else t)
  }

  ghost predicate StatesHold<S, St, M>(m: Machine<S, St, M>, net: Net, s: Symbolic, mem: Memory<S, St, M>, t: nat,
    frames: nat)
    requires WellRanked(net)
  {
    forall n :: n in net.inputs ==>
      n in mem.states && mem.states[n] == StateAt(m, net, n, if n in s.inputs then t + frames else t)
  }

  ghost predicate OutputHolds<S, St, M>(m: Machine<S, St, M>, net: Net, c: Setup, s: Symbolic, mem: Memory<S, St, M>,
    t: nat, frames: nat)
    requires WellRanked(net)
  {
    c.outputNode in s.inputs ==>
      (forall k :: 0 <= k < |mem.output| ==> RowIs(m, net, mem.output[k], Output(c.outputNode, k), t, frames))
  }

  /** Midway through a block: the memory is what the symbolic state says. */
  ghost predicate Corresponds<S, St, M>(m: Machine<S, St, M>, net: Net, lines: map<int, DelayUse>, c: Setup,
    s: Symbolic, mem: Memory<S, St, M>, t: nat, frames: nat)
    requires WellRanked(net)
  {
    && AudioHolds(m, net, s, mem, t, frames)
    && MidiHolds(m, net, s, mem, t, frames)
    && LinesHold(m, net, lines, s, mem, t, frames)
    && StatesHold(m, net, s, mem, t, frames)
    && OutputHolds(m, net, c, s, mem, t, frames)
  }

  lemma DelayStep<S, St, M>(m: Machine<S, St, M>, net: Net, line: DelayUse, q: seq<S>, row: seq<S>, t: nat, frames: nat)
    requires WellRanked(net) && line.samples > 0
    requires q == LineAt(m, net, line, t) && RowIs(m, net, row, line.input, t, frames)
    ensures |q + row[..frames]| >= frames
    ensures RowIs(m, net, Overwrite(row, (q + row[..frames])[..frames]), Delayed(line.input, line.samples), t, frames)
    ensures (q + row[..frames])[frames..] == LineAt(m, net, line, t + frames)
  {
    var stream := q + row[..frames];
    forall k | 0 <= k < |stream|
      ensures stream[k] == if t + k - line.samples >= 0 then AudioAt(m, net, line.input, t + k - line.samples) else m.zero
    {
      if k >= line.samples {
        assert stream[k] == row[k - line.samples];
      }
    }
  }

  /** The channel rows of a node hold its input streams. */
  ghost predicate RowsAre<S, St, M>(m: Machine<S, St, M>, net: Net, n: NodeId, rows: seq<seq<S>>, t: nat, frames: nat)
    requires WellRanked(net) && n in net.inputs
  {
    && |rows| == |net.inputs[n].audio|
    && (forall k :: 0 <= k < |rows| ==> frames <= |rows[k]|)
    && (forall k, f :: 0 <= k < |rows| && 0 <= f < frames ==>
      rows[k][f] == AudioAt(m, net, net.inputs[n].audio[k], t + f))
  }

  lemma FramesFollowState<S, St, M>(m: Machine<S, St, M>, net: Net, n: NodeId, rows: seq<seq<S>>, midi: seq<M>, t: nat,
    f: nat)
    requires WellRanked(net) && n in net.inputs
    requires (RowsAre(m, net, n, rows, t, f) && MidiRowIs(m, net, midi, net.inputs[n].midi, t, f)) == true
    ensures FrameState(m, n, StateAt(m, net, n, t), rows, midi, t, f) == StateAt(m, net, n, t + f)
    decreases f
  {
    if f > 0 {
      FewerFrames(m, net, n, rows, midi, t, f);
      FramesFollowState(m, net, n, rows, midi, t, f - 1);
      FrameIsInput(m, net, n, rows, midi, t, f, f - 1);
      StateStep(m, net, n, rows, midi, t, f);
    }
  }

  lemma StateStep<S, St, M>(m: Machine<S, St, M>, net: Net, n: NodeId, rows: seq<seq<S>>, midi: seq<M>, t: nat, f: nat)
    requires WellRanked(net) && n in net.inputs && 0 < f <= |midi| && forall k :: 0 <= k < |rows| ==> f <= |rows[k]|
    requires FrameState(m, n, StateAt(m, net, n, t), rows, midi, t, f - 1) == StateAt(m, net, n, t + f - 1)
    requires Frame(rows, f - 1) == InputsAt(m, net, n, t + f - 1) && midi[f - 1] == MidiInAt(m, net, n, t + f - 1)
    ensures FrameState(m, n, StateAt(m, net, n, t), rows, midi, t, f) == StateAt(m, net, n, t + f)
  {}

  lemma FewerFrames<S, St, M>(m: Machine<S, St, M>, net: Net, n: NodeId, rows: seq<seq<S>>, midi: seq<M>, t: nat,
    f: nat)
    requires WellRanked(net) && n in net.inputs && f > 0
    requires (RowsAre(m, net, n, rows, t, f) && MidiRowIs(m, net, midi, net.inputs[n].midi, t, f)) == true
    ensures (RowsAre(m, net, n, rows, t, f - 1) && MidiRowIs(m, net, midi, net.inputs[n].midi, t, f - 1)) == true
  {}

  lemma FrameIsInput<S, St, M>(m: Machine<S, St, M>, net: Net, n: NodeId, rows: seq<seq<S>>, midi: seq<M>, t: nat,
    frames: nat, f: nat)
    requires WellRanked(net) && n in net.inputs && f < frames
    requires (RowsAre(m, net, n, rows, t, frames) && MidiRowIs(m, net, midi, net.inputs[n].midi, t, frames)) == true
    ensures Frame(rows, f) == InputsAt(m, net, n, t + f)
    ensures midi[f] == MidiInAt(m, net, n, t + f)
  {
    assert NodeRanked(net, n);
  }

  lemma ProcessStep<S, St, M>(m: Machine<S, St, M>, net: Net, n: NodeId, rows: seq<seq<S>>, midi: seq<M>, t: nat,
    frames: nat)
    requires WellRanked(net) && n in net.inputs
    requires RowsAre(m, net, n, rows, t, frames)
    requires MidiRowIs(m, net, midi, net.inputs[n].midi, t, frames)
    ensures var s := StateAt(m, net, n, t);
      && FrameState(m, n, s, rows, midi, t, frames) == StateAt(m, net, n, t + frames)
      && (forall k, f :: 0 <= k < |rows| && 0 <= f < frames ==>
            FrameOut(m, n, s, rows, midi, t, f, k) == AudioAt(m, net, Output(n, k), t + f))
      && (forall f :: 0 <= f < frames ==> FrameMidi(m, n, s, rows, midi, t, f) == MidiAt(m, net, NodeEvents(n), t + f))
  {
    var s := StateAt(m, net, n, t);
    FramesFollowState(m, net, n, rows, midi, t, frames);
    forall f | 0 <= f < frames
      ensures FrameState(m, n, s, rows, midi, t, f) == StateAt(m, net, n, t + f)
      ensures Frame(rows, f) == InputsAt(m, net, n, t + f) && midi[f] == MidiInAt(m, net, n, t + f)
    {
      FramesFollowState(m, net, n, rows, midi, t, f);
      FrameIsInput(m, net, n, rows, midi, t, frames, f);
    }
  }
}
