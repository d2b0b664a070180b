/** Executing a sound plan computes the streams its symbolic meaning denotes; a compiled plan therefore
    computes the graph, whatever the block sizes. */
module Soundness {
  import opened Ordered
  import opened Graph
  import opened RenderPlans
  import opened Streams
  import opened Hearing
  import opened Execution

  // ----- one operation

  /** The premises shared by the one-operation lemmas. */
  ghost predicate AtOp<S, St, M>(m: Machine<S, St, M>, net: Net, lines: map<int, DelayUse>, c: Setup, s: Symbolic,
    mem: Memory<S, St, M>, op: RenderOp, t: nat, frames: nat)
  {
    && WellRanked(net) && Shaped(c, mem) && frames <= c.block && Executable(c, mem, op)
    && Corresponds(m, net, lines, c, s, mem, t, frames)
    && Step(c.table, s, op).ok && s.ok
  }

  lemma AudioOpStep<S, St, M>(m: Machine<S, St, M>, net: Net, lines: map<int, DelayUse>, c: Setup, s: Symbolic,
    mem: Memory<S, St, M>, op: RenderOp, t: nat, frames: nat)
    requires AtOp(m, net, lines, c, s, mem, op, t, frames)
    requires op.Clear? || op.Copy? || op.Add?
    ensures Corresponds(m, net, lines, c, Step(c.table, s, op), StepBlock(m, c, mem, op, t, frames), t, frames)
  {
    AudioOpBuffers(m, net, lines, c, s, mem, op, t, frames);
    var stepped, after := Step(c.table, s, op), StepBlock(m, c, mem, op, t, frames);
    assert after == mem.(audio := after.audio) && stepped == s.(audio := stepped.audio);
  }

  lemma AudioOpBuffers<S, St, M>(m: Machine<S, St, M>, net: Net, lines: map<int, DelayUse>, c: Setup, s: Symbolic,
    mem: Memory<S, St, M>, op: RenderOp, t: nat, frames: nat)
    requires AtOp(m, net, lines, c, s, mem, op, t, frames)
    requires op.Clear? || op.Copy? || op.Add?
    ensures AudioHolds(m, net, Step(c.table, s, op), StepBlock(m, c, mem, op, t, frames), t, frames) == true
  {}

  lemma MidiOpStep<S, St, M>(m: Machine<S, St, M>, net: Net, lines: map<int, DelayUse>, c: Setup, s: Symbolic,
    mem: Memory<S, St, M>, op: RenderOp, t: nat, frames: nat)
    requires AtOp(m, net, lines, c, s, mem, op, t, frames)
    requires op.MidiClear? || op.MidiMerge?
    ensures Corresponds(m, net, lines, c, Step(c.table, s, op), StepBlock(m, c, mem, op, t, frames), t, frames)
  {}

  lemma DelayOpStep<S, St, M>(m: Machine<S, St, M>, net: Net, lines: map<int, DelayUse>, c: Setup, s: Symbolic,
    mem: Memory<S, St, M>, op: RenderOp, t: nat, frames: nat)
    requires AtOp(m, net, lines, c, s, mem, op, t, frames) && op.Delay?
    requires op.line in lines && lines[op.line] == DelayUse(s.audio[op.destination], op.samples)
    ensures Corresponds(m, net, lines, c, Step(c.table, s, op), StepBlock(m, c, mem, op, t, frames), t, frames)
  {
    var d, l := op.destination, op.line;
    assert RowIs(m, net, mem.audio[d], s.audio[d], t, frames);
    DelayStep(m, net, lines[l], mem.lines[l], mem.audio[d], t, frames);
    var after := StepBlock(m, c, mem, op, t, frames);
    assert LinesHold(m, net, lines, Step(c.table, s, op), after, t, frames);
  }

  ghost function ChannelsOf(c: Setup, op: RenderOp): seq<int>
    requires op.Process? && 0 <= op.firstChannel && 0 <= op.channelCount
      && op.firstChannel + op.channelCount <= |c.table|
  {
    c.table[op.firstChannel..op.firstChannel + op.channelCount]
  }

  /** What a `Process` operation finds: its channels and its MIDI buffer hold the node's input streams. */
  lemma ProcessPremises<S, St, M>(m: Machine<S, St, M>, net: Net, lines: map<int, DelayUse>, c: Setup, s: Symbolic,
    mem: Memory<S, St, M>, op: RenderOp, t: nat, frames: nat)
    requires AtOp(m, net, lines, c, s, mem, op, t, frames) && op.Process?
    requires op.node in net.inputs && net.inputs[op.node] == Step(c.table, s, op).inputs[op.node]
    ensures CanProcess(s, ChannelsOf(c, op), op.node, op.midi) == true
    ensures forall k :: 0 <= k < |ChannelsOf(c, op)| ==> 0 <= ChannelsOf(c, op)[k] < |mem.audio|
    ensures RowsAre(m, net, op.node, ChannelRows(mem.audio, ChannelsOf(c, op)), t, frames)
    ensures MidiRowIs(m, net, mem.midi[op.midi], net.inputs[op.node].midi, t, frames)
    ensures mem.states[op.node] == StateAt(m, net, op.node, t)
  {
    ProcessIsPossible(c.table, s, op);
    ChannelsHoldInput(m, net, s, mem, op.node, ChannelsOf(c, op), t, frames);
  }

  /** The effect of a `Process` operation, piece by piece. */
  ghost predicate ProcessEffect<S, St, M>(m: Machine<S, St, M>, c: Setup, mem: Memory<S, St, M>,
    after: Memory<S, St, M>, s: Symbolic, stepped: Symbolic, channels: seq<int>, n: NodeId, b: int, t: nat, frames: nat)
    requires Shaped(c, mem) && frames <= c.block && n in mem.states && 0 <= b < |mem.midi|
    requires forall k :: 0 <= k < |channels| ==> 0 <= channels[k] < |mem.audio|
  {
    var rows := ChannelRows(mem.audio, channels);
    && after.audio == ProcessAudio(m, n, mem.states[n], mem.audio, channels, mem.midi[b], t, frames)
    && after.midi == mem.midi[b := Overwrite(mem.midi[b], MidiRow(m, n, mem.states[n], rows, mem.midi[b], t, frames))]
    && after.states == mem.states[n := FrameState(m, n, mem.states[n], rows, mem.midi[b], t, frames)]
    && after.lines == mem.lines
    && stepped.audio == WriteOutputs(s.audio, channels, n)
    && stepped.midi == s.midi[b := NodeEvents(n)]
    && stepped.inputs.Keys == s.inputs.Keys + {n}
    && stepped.lines == s.lines
  }

  lemma ProcessHasEffect<S, St, M>(m: Machine<S, St, M>, net: Net, lines: map<int, DelayUse>, c: Setup, s: Symbolic,
    mem: Memory<S, St, M>, op: RenderOp, t: nat, frames: nat)
    requires AtOp(m, net, lines, c, s, mem, op, t, frames) && op.Process?
    requires op.node in net.inputs && net.inputs[op.node] == Step(c.table, s, op).inputs[op.node]
    requires forall k :: 0 <= k < |ChannelsOf(c, op)| ==> 0 <= ChannelsOf(c, op)[k] < |mem.audio|
    ensures ProcessEffect(m, c, mem, StepBlock(m, c, mem, op, t, frames), s, Step(c.table, s, op), ChannelsOf(c, op),
      op.node, op.midi, t, frames)
    ensures op.node == c.outputNode ==> |mem.output| <= |ChannelsOf(c, op)|
    ensures op.node == c.outputNode ==>
      StepBlock(m, c, mem, op, t, frames).output
        == Capture(mem.output, StepBlock(m, c, mem, op, t, frames).audio, ChannelsOf(c, op), frames)
    ensures op.node != c.outputNode ==> StepBlock(m, c, mem, op, t, frames).output == mem.output
  {}

  lemma ProcessStates<S, St, M>(m: Machine<S, St, M>, net: Net, lines: map<int, DelayUse>, c: Setup,
    mem: Memory<S, St, M>, after: Memory<S, St, M>, s: Symbolic, stepped: Symbolic, channels: seq<int>, n: NodeId,
    b: int, t: nat, frames: nat)
    requires WellRanked(net) && n in net.inputs && Shaped(c, mem) && frames <= c.block
    requires n in mem.states && mem.states[n] == StateAt(m, net, n, t) && 0 <= b < |mem.midi|
    requires forall k :: 0 <= k < |channels| ==> 0 <= channels[k] < |mem.audio|
    requires ProcessEffect(m, c, mem, after, s, stepped, channels, n, b, t, frames)
    requires RowsAre(m, net, n, ChannelRows(mem.audio, channels), t, frames)
      && MidiRowIs(m, net, mem.midi[b], net.inputs[n].midi, t, frames)
    requires MidiHolds(m, net, s, mem, t, frames) && LinesHold(m, net, lines, s, mem, t, frames)
      && StatesHold(m, net, s, mem, t, frames)
    ensures (StatesHold(m, net, stepped, after, t, frames) && MidiHolds(m, net, stepped, after, t, frames)) == true
      && LinesHold(m, net, lines, stepped, after, t, frames)
  {
    ProcessStep(m, net, n, ChannelRows(mem.audio, channels), mem.midi[b], t, frames);
    assert MidiRowIs(m, net, after.midi[b], NodeEvents(n), t, frames);
    StateAdvances(m, net, mem, after, s, stepped, n, t, frames);
    MidiIsWritten(m, net, mem, after, s, stepped, n, b, t, frames);
  }

  lemma StateAdvances<S, St, M>(m: Machine<S, St, M>, net: Net, mem: Memory<S, St, M>, after: Memory<S, St, M>,
    s: Symbolic, stepped: Symbolic, n: NodeId, t: nat, frames: nat)
    requires WellRanked(net) && n in net.inputs && StatesHold(m, net, s, mem, t, frames) == true
    requires after.states == mem.states[n := StateAt(m, net, n, t + frames)]
      && stepped.inputs.Keys == s.inputs.Keys + {n}
    ensures StatesHold(m, net, stepped, after, t, frames) == true
  {}

  lemma MidiIsWritten<S, St, M>(m: Machine<S, St, M>, net: Net, mem: Memory<S, St, M>, after: Memory<S, St, M>,
    s: Symbolic, stepped: Symbolic, n: NodeId, b: int, t: nat, frames: nat)
    requires WellRanked(net) && MidiHolds(m, net, s, mem, t, frames) == true && 0 <= b < |mem.midi| == |after.midi|
    requires MidiRowIs(m, net, after.midi[b], NodeEvents(n), t, frames) == true
    requires after.midi == mem.midi[b := after.midi[b]] && stepped.midi == s.midi[b := NodeEvents(n)]
    ensures MidiHolds(m, net, stepped, after, t, frames) == true
  {}

  lemma OutputsInPlace<S, St, M>(m: Machine<S, St, M>, net: Net, stepped: Symbolic, after: Memory<S, St, M>,
    audio: map<int, Term>, channels: seq<int>, n: NodeId, t: nat, frames: nat)
    requires WellRanked(net) && AudioHolds(m, net, stepped, after, t, frames) && Distinct(channels)
    requires stepped.audio == WriteOutputs(audio, channels, n)
    ensures forall k :: 0 <= k < |channels| ==>
      0 <= channels[k] < |after.audio| && RowIs(m, net, after.audio[channels[k]], Output(n, k), t, frames)
  {
    forall k | 0 <= k < |channels|
      ensures 0 <= channels[k] < |after.audio| && RowIs(m, net, after.audio[channels[k]], Output(n, k), t, frames) {
      assert channels[k] in channels && IndexOf(channels, channels[k]) == k;
      assert stepped.audio[channels[k]] == Output(n, k);
    }
  }

  lemma ProcessBuffers<S, St, M>(m: Machine<S, St, M>, net: Net, c: Setup, mem: Memory<S, St, M>,
    after: Memory<S, St, M>, s: Symbolic, stepped: Symbolic, channels: seq<int>, n: NodeId, b: int, t: nat, frames: nat)
    requires WellRanked(net) && n in net.inputs && Shaped(c, mem) && frames <= c.block
    requires n in mem.states && mem.states[n] == StateAt(m, net, n, t) && 0 <= b < |mem.midi|
    requires forall k :: 0 <= k < |channels| ==> 0 <= channels[k] < |mem.audio|
    requires after.audio == ProcessAudio(m, n, mem.states[n], mem.audio, channels, mem.midi[b], t, frames)
    requires stepped.audio == WriteOutputs(s.audio, channels, n)
    requires RowsAre(m, net, n, ChannelRows(mem.audio, channels), t, frames)
      && MidiRowIs(m, net, mem.midi[b], net.inputs[n].midi, t, frames)
    requires AudioHolds(m, net, s, mem, t, frames)
    ensures AudioHolds(m, net, stepped, after, t, frames)
  {
    ProcessAudioHolds(m, net, s, mem, n, channels, mem.midi[b], t, frames);
  }

  lemma ProcessCaptured<S, St, M>(m: Machine<S, St, M>, net: Net, c: Setup, mem: Memory<S, St, M>,
    after: Memory<S, St, M>, s: Symbolic, stepped: Symbolic, channels: seq<int>, n: NodeId, t: nat, frames: nat)
    requires WellRanked(net) && Shaped(c, mem) && Shaped(c, after) && frames <= c.block && Distinct(channels)
    requires stepped.audio == WriteOutputs(s.audio, channels, n) && stepped.inputs.Keys == s.inputs.Keys + {n}
    requires AudioHolds(m, net, stepped, after, t, frames) && OutputHolds(m, net, c, s, mem, t, frames)
    requires forall k :: 0 <= k < |channels| ==> 0 <= channels[k] < |after.audio|
    requires n == c.outputNode ==>
      |mem.output| <= |channels| && after.output == Capture(mem.output, after.audio, channels, frames)
    requires n != c.outputNode ==> after.output == mem.output
    ensures OutputHolds(m, net, c, stepped, after, t, frames) == true
  {
    if n == c.outputNode {
      OutputsInPlace(m, net, stepped, after, s.audio, channels, n, t, frames);
      CaptureHolds(m, net, c, mem.output, after.audio, channels, n, t, frames);
    }
  }

  lemma ProcessOpStep<S, St, M>(m: Machine<S, St, M>, net: Net, lines: map<int, DelayUse>, c: Setup, s: Symbolic,
    mem: Memory<S, St, M>, op: RenderOp, t: nat, frames: nat)
    requires AtOp(m, net, lines, c, s, mem, op, t, frames) && op.Process?
    requires op.node in net.inputs && net.inputs[op.node] == Step(c.table, s, op).inputs[op.node]
    ensures Corresponds(m, net, lines, c, Step(c.table, s, op), StepBlock(m, c, mem, op, t, frames), t, frames)
  {
    var channels := ChannelsOf(c, op);
    ProcessPremises(m, net, lines, c, s, mem, op, t, frames);
    ProcessHasEffect(m, net, lines, c, s, mem, op, t, frames);
    StepKeepsShape(m, c, mem, op, t, frames);
    Assemble(m, net, lines, c, mem, StepBlock(m, c, mem, op, t, frames), s, Step(c.table, s, op), channels, op.node,
      op.midi, t, frames);
  }

  lemma Assemble<S, St, M>(m: Machine<S, St, M>, net: Net, lines: map<int, DelayUse>, c: Setup, mem: Memory<S, St, M>,
    after: Memory<S, St, M>, s: Symbolic, stepped: Symbolic, channels: seq<int>, n: NodeId, b: int, t: nat, frames: nat)
    requires WellRanked(net) && n in net.inputs && Shaped(c, mem) && Shaped(c, after) && frames <= c.block
    requires n in mem.states && mem.states[n] == StateAt(m, net, n, t) && 0 <= b < |mem.midi| && Distinct(channels)
    requires forall k :: 0 <= k < |channels| ==> 0 <= channels[k] < |mem.audio|
    requires ProcessEffect(m, c, mem, after, s, stepped, channels, n, b, t, frames)
    requires RowsAre(m, net, n, ChannelRows(mem.audio, channels), t, frames)
      && MidiRowIs(m, net, mem.midi[b], net.inputs[n].midi, t, frames)
    requires Corresponds(m, net, lines, c, s, mem, t, frames)
    requires n == c.outputNode ==>
      |mem.output| <= |channels| && after.output == Capture(mem.output, after.audio, channels, frames)
    requires n != c.outputNode ==> after.output == mem.output
    ensures Corresponds(m, net, lines, c, stepped, after, t, frames)
  {
    ProcessStates(m, net, lines, c, mem, after, s, stepped, channels, n, b, t, frames);
    ProcessBuffers(m, net, c, mem, after, s, stepped, channels, n, b, t, frames);
    ProcessCaptured(m, net, c, mem, after, s, stepped, channels, n, t, frames);
  }

  lemma ChannelsHoldInput<S, St, M>(m: Machine<S, St, M>, net: Net, s: Symbolic, mem: Memory<S, St, M>, n: NodeId,
    channels: seq<int>, t: nat, frames: nat)
    requires WellRanked(net) && n in net.inputs && AudioHolds(m, net, s, mem, t, frames)
    requires forall b :: b in channels ==> b in s.audio
    requires net.inputs[n].audio == ChannelTerms(s.audio, channels)
    ensures forall k :: 0 <= k < |channels| ==> 0 <= channels[k] < |mem.audio|
    ensures RowsAre(m, net, n, ChannelRows(mem.audio, channels), t, frames)
  {
    forall k | 0 <= k < |channels|
      ensures 0 <= channels[k] < |mem.audio|
      ensures RowIs(m, net, mem.audio[channels[k]], net.inputs[n].audio[k], t, frames)
    {
      assert channels[k] in channels;
    }
  }

  lemma ProcessAudioHolds<S, St, M>(m: Machine<S, St, M>, net: Net, s: Symbolic, mem: Memory<S, St, M>, n: NodeId,
    channels: seq<int>, midi: seq<M>, t: nat, frames: nat)
    requires WellRanked(net) && n in net.inputs && AudioHolds(m, net, s, mem, t, frames)
    requires forall k :: 0 <= k < |channels| ==> 0 <= channels[k] < |mem.audio|
    requires frames <= |midi| && forall b :: 0 <= b < |mem.audio| ==> frames <= |mem.audio[b]|
    requires RowsAre(m, net, n, ChannelRows(mem.audio, channels), t, frames)
    requires MidiRowIs(m, net, midi, net.inputs[n].midi, t, frames)
    ensures var after := ProcessAudio(m, n, StateAt(m, net, n, t), mem.audio, channels, midi, t, frames);
            forall b :: b in WriteOutputs(s.audio, channels, n) ==>
              0 <= b < |after| && RowIs(m, net, after[b], WriteOutputs(s.audio, channels, n)[b], t, frames)
  {
    var after := ProcessAudio(m, n, StateAt(m, net, n, t), mem.audio, channels, midi, t, frames);
    forall b | b in WriteOutputs(s.audio, channels, n)
      ensures 0 <= b < |after| && RowIs(m, net, after[b], WriteOutputs(s.audio, channels, n)[b], t, frames)
    {
      if b in channels {
        ProcessedRow(m, net, mem, n, channels, midi, t, frames, b);
      }
    }
  }

  lemma ProcessedRow<S, St, M>(m: Machine<S, St, M>, net: Net, mem: Memory<S, St, M>, n: NodeId, channels: seq<int>,
    midi: seq<M>, t: nat, frames: nat, b: int)
    requires WellRanked(net) && n in net.inputs && b in channels
    requires forall k :: 0 <= k < |channels| ==> 0 <= channels[k] < |mem.audio|
    requires frames <= |midi| && forall b :: 0 <= b < |mem.audio| ==> frames <= |mem.audio[b]|
    requires RowsAre(m, net, n, ChannelRows(mem.audio, channels), t, frames) == true
    requires MidiRowIs(m, net, midi, net.inputs[n].midi, t, frames) == true
    ensures RowIs(m, net, ProcessAudio(m, n, StateAt(m, net, n, t), mem.audio, channels, midi, t, frames)[b],
      Output(n, IndexOf(channels, b)), t, frames) == true
  {
    var s, rows, k := StateAt(m, net, n, t), ChannelRows(mem.audio, channels), IndexOf(channels, b);
    var row := Overwrite(mem.audio[b], OutRow(m, n, s, rows, midi, t, frames, k));
    OutRowHolds(m, net, n, rows, midi, t, frames, k, mem.audio[b]);
    ProcessAudioAt(m, n, s, mem.audio, channels, midi, t, frames, b);
    SameRow(m, net, row, ProcessAudio(m, n, s, mem.audio, channels, midi, t, frames)[b], Output(n, k), t, frames);
  }

  lemma OutRowHolds<S, St, M>(m: Machine<S, St, M>, net: Net, n: NodeId, rows: seq<seq<S>>, midi: seq<M>, t: nat,
    frames: nat, k: nat, row: seq<S>)
    requires WellRanked(net) && n in net.inputs && k < |rows| && frames <= |row| && frames <= |midi|
    requires forall j :: 0 <= j < |rows| ==> frames <= |rows[j]|
    requires RowsAre(m, net, n, rows, t, frames) == true
    requires MidiRowIs(m, net, midi, net.inputs[n].midi, t, frames) == true
    ensures RowIs(m, net, Overwrite(row, OutRow(m, n, StateAt(m, net, n, t), rows, midi, t, frames, k)), Output(n, k),
      t, frames) == true
  {
    ProcessStep(m, net, n, rows, midi, t, frames);
  }

  lemma ProcessAudioAt<S, St, M>(m: Machine<S, St, M>, n: NodeId, s: St, audio: seq<seq<S>>, channels: seq<int>,
    midi: seq<M>, t: nat, frames: nat, b: int)
    requires b in channels && forall k :: 0 <= k < |channels| ==> 0 <= channels[k] < |audio|
    requires frames <= |midi| && forall b :: 0 <= b < |audio| ==> frames <= |audio[b]|
    ensures ProcessAudio(m, n, s, audio, channels, midi, t, frames)[b]
         == Overwrite(audio[b], OutRow(m, n, s, ChannelRows(audio, channels), midi, t, frames, IndexOf(channels, b)))
  {}

  lemma SameRow<S, St, M>(m: Machine<S, St, M>, net: Net, a: seq<S>, b: seq<S>, term: Term, t: nat, frames: nat)
    requires WellRanked(net) && a == b && RowIs(m, net, a, term, t, frames) == true
    ensures RowIs(m, net, b, term, t, frames) == true
  {}

  lemma CaptureHolds<S, St, M>(m: Machine<S, St, M>, net: Net, c: Setup, output: seq<seq<S>>, audio: seq<seq<S>>,
    channels: seq<int>, n: NodeId, t: nat, frames: nat)
    requires WellRanked(net) && |output| <= |channels|
    requires Distinct(channels) && forall k :: 0 <= k < |channels| ==> 0 <= channels[k] < |audio|
    requires forall b :: 0 <= b < |audio| ==> frames <= |audio[b]|
    requires forall k :: 0 <= k < |output| ==> frames <= |output[k]|
    requires forall k :: 0 <= k < |channels| ==> RowIs(m, net, audio[channels[k]], Output(n, k), t, frames)
    ensures forall k :: 0 <= k < |output| ==>
      RowIs(m, net, Capture(output, audio, channels, frames)[k], Output(n, k), t, frames)
  {
    forall k | 0 <= k < |output|
      ensures RowIs(m, net, Capture(output, audio, channels, frames)[k], Output(n, k), t, frames) {
      assert RowIs(m, net, audio[channels[k]], Output(n, k), t, frames);
    }
  }

  // ----- one block

  /** Soundness, delay lines and node inputs only accumulate along the operations. */
  lemma {:induction false} PrefixOfRun(table: seq<int>, ops: seq<RenderOp>, k: nat)
    requires k <= |ops| && Run(table, ops).ok
    ensures Run(table, ops[..k]).ok
    ensures forall l :: l in Run(table, ops[..k]).lines ==>
      l in Run(table, ops).lines && Run(table, ops).lines[l] == Run(table, ops[..k]).lines[l]
    ensures forall n :: n in Run(table, ops[..k]).inputs ==>
      n in Run(table, ops).inputs && Run(table, ops).inputs[n] == Run(table, ops[..k]).inputs[n]
    decreases |ops| - k
  {
    if k < |ops| {
      PrefixOfRun(table, ops, k + 1);
      assert ops[..k + 1][..k] == ops[..k];
      OneStepOfRun(table, Run(table, ops[..k]), ops[k]);
    } else {
      assert ops[..k] == ops;
    }
  }

  lemma OneStepOfRun(table: seq<int>, s: Symbolic, op: RenderOp)
    requires Step(table, s, op).ok
    ensures s.ok
    ensures forall l :: l in s.lines ==> l in Step(table, s, op).lines && Step(table, s, op).lines[l] == s.lines[l]
    ensures forall n :: n in s.inputs ==> n in Step(table, s, op).inputs && Step(table, s, op).inputs[n] == s.inputs[n]
  {}

  /** The equations solved by a plan: its own node inputs. */
  ghost predicate Solves(net: Net, c: Setup, ops: seq<RenderOp>) {
    WellRanked(net) && Run(c.table, ops).ok && net.inputs == Run(c.table, ops).inputs
  }

  /** Between blocks: every delay line and every processor has reached time `t`. */
  ghost predicate ReadyAt<S, St, M>(m: Machine<S, St, M>, net: Net, lines: map<int, DelayUse>, mem: Memory<S, St, M>,
    t: nat)
    requires WellRanked(net)
  {
    && (forall l :: l in lines ==> LineReady(m, net, lines, mem, t, l))
    && (forall n :: n in net.inputs ==> NodeReady(m, net, mem, t, n))
  }

  ghost predicate LineReady<S, St, M>(m: Machine<S, St, M>, net: Net, lines: map<int, DelayUse>, mem: Memory<S, St, M>,
    t: nat, l: int)
    requires WellRanked(net) && l in lines
  {
    0 <= l < |mem.lines| && mem.lines[l] == LineAt(m, net, lines[l], t)
  }

  ghost predicate NodeReady<S, St, M>(m: Machine<S, St, M>, net: Net, mem: Memory<S, St, M>, t: nat, n: NodeId)
    requires WellRanked(net) && n in net.inputs
  {
    n in mem.states && mem.states[n] == StateAt(m, net, n, t)
  }

  /** Before the first operation of a block no buffer is defined and nothing has advanced. */
  lemma StartOfBlock<S, St, M>(m: Machine<S, St, M>, net: Net, lines: map<int, DelayUse>, c: Setup,
    mem: Memory<S, St, M>, t: nat, frames: nat)
    requires WellRanked(net) && ReadyAt(m, net, lines, mem, t)
    ensures Corresponds(m, net, lines, c, NOTHING_RUN, mem, t, frames)
  {
    forall l | l in lines ensures 0 <= l < |mem.lines| && mem.lines[l] == LineAt(m, net, lines[l], t) {
      assert LineReady(m, net, lines, mem, t, l);
    }
    forall n | n in net.inputs ensures n in mem.states && mem.states[n] == StateAt(m, net, n, t) {
      assert NodeReady(m, net, mem, t, n);
    }
  }

  /** After the last operation everything the plan uses has advanced. */
  lemma EndOfBlock<S, St, M>(m: Machine<S, St, M>, net: Net, c: Setup, s: Symbolic, mem: Memory<S, St, M>, t: nat,
    frames: nat)
    requires WellRanked(net) && net.inputs == s.inputs
    requires Corresponds(m, net, s.lines, c, s, mem, t, frames)
    ensures ReadyAt(m, net, s.lines, mem, t + frames)
  {}

  /** After the first `k` operations of a block, the memory is what their symbolic meaning says. */
  lemma {:induction false} BlockCorresponds<S, St, M>(m: Machine<S, St, M>, net: Net, c: Setup, mem: Memory<S, St, M>,
    ops: seq<RenderOp>, k: nat, t: nat, frames: nat)
    requires Solves(net, c, ops) && k <= |ops|
    requires Shaped(c, mem) && AllExecutable(c, mem, ops) && frames <= c.block
    requires ReadyAt(m, net, Run(c.table, ops).lines, mem, t)
    ensures AllExecutable(c, mem, ops[..k])
    ensures Corresponds(m, net, Run(c.table, ops).lines, c, Run(c.table, ops[..k]),
      RunBlock(m, c, mem, ops[..k], t, frames), t, frames)
    decreases k
  {
    assert forall i :: 0 <= i < k ==> ops[..k][i] == ops[i];
    var lines := Run(c.table, ops).lines;
    if k == 0 {
      StartOfBlock(m, net, lines, c, mem, t, frames);
    } else {
      BlockCorresponds(m, net, c, mem, ops, k - 1, t, frames);
      var before, s, op := RunBlock(m, c, mem, ops[..k - 1], t, frames), Run(c.table, ops[..k - 1]), ops[k - 1];
      assert ops[..k][..k - 1] == ops[..k - 1];
      PrefixOfRun(c.table, ops, k);
      PrefixOfRun(c.table, ops, k - 1);
      assert Executable(c, mem, op);
      OpStep(m, net, lines, c, s, before, op, t, frames);
    }
  }

  lemma OpStep<S, St, M>(m: Machine<S, St, M>, net: Net, lines: map<int, DelayUse>, c: Setup, s: Symbolic,
    mem: Memory<S, St, M>, op: RenderOp, t: nat, frames: nat)
    requires AtOp(m, net, lines, c, s, mem, op, t, frames)
    requires forall l :: l in Step(c.table, s, op).lines ==> l in lines && lines[l] == Step(c.table, s, op).lines[l]
    requires forall n :: n in Step(c.table, s, op).inputs ==>
      n in net.inputs && net.inputs[n] == Step(c.table, s, op).inputs[n]
    ensures Corresponds(m, net, lines, c, Step(c.table, s, op), StepBlock(m, c, mem, op, t, frames), t, frames)
  {
    match op {
      case Clear(_) => AudioOpStep(m, net, lines, c, s, mem, op, t, frames);
      case Copy(_, _) => AudioOpStep(m, net, lines, c, s, mem, op, t, frames);
      case Add(_, _) => AudioOpStep(m, net, lines, c, s, mem, op, t, frames);
      case Delay(_, l, _) =>
        assert l in Step(c.table, s, op).lines;
        DelayOpStep(m, net, lines, c, s, mem, op, t, frames);
      case MidiClear(_) => MidiOpStep(m, net, lines, c, s, mem, op, t, frames);
      case MidiMerge(_, _) => MidiOpStep(m, net, lines, c, s, mem, op, t, frames);
      case Process(n, _, _, _) =>
        assert n in Step(c.table, s, op).inputs;
        ProcessOpStep(m, net, lines, c, s, mem, op, t, frames);
    }
  }

  /** One block advances every line and processor by its length and captures the output node's stream. */
  lemma BlockIsSound<S, St, M>(m: Machine<S, St, M>, net: Net, c: Setup, mem: Memory<S, St, M>, ops: seq<RenderOp>,
    t: nat, frames: nat)
    requires Solves(net, c, ops)
    requires Shaped(c, mem) && AllExecutable(c, mem, ops) && frames <= c.block
    requires ReadyAt(m, net, Run(c.table, ops).lines, mem, t)
    ensures ReadyAt(m, net, Run(c.table, ops).lines, RunBlock(m, c, mem, ops, t, frames), t + frames)
    ensures OutputHolds(m, net, c, Run(c.table, ops), RunBlock(m, c, mem, ops, t, frames), t, frames)
  {
    BlockCorresponds(m, net, c, mem, ops, |ops|, t, frames);
    assert ops[..|ops|] == ops;
    EndOfBlock(m, net, c, Run(c.table, ops), RunBlock(m, c, mem, ops, t, frames), t, frames);
  }

  /** The symbolic run up to a `Process` operation, and the input it records for good. */
  lemma ProcessAt(table: seq<int>, ops: seq<RenderOp>, k: nat)
    requires Run(table, ops).ok && k < |ops| && ops[k].Process?
    ensures var s, op := Run(table, ops[..k]), ops[k];
      && s.ok && Step(table, s, op).ok && op.node in Step(table, s, op).inputs
      && op.node in Run(table, ops).inputs && Run(table, ops).inputs[op.node] == Step(table, s, op).inputs[op.node]
  {
    PrefixOfRun(table, ops, k);
    PrefixOfRun(table, ops, k + 1);
    assert ops[..k + 1][..k] == ops[..k];
    ProcessIsPossible(table, Run(table, ops[..k]), ops[k]);
  }

  /** At every `Process` operation the channels hold exactly the node's input streams. */
  lemma ProcessSeesItsInputs<S, St, M>(m: Machine<S, St, M>, net: Net, c: Setup, mem: Memory<S, St, M>,
    ops: seq<RenderOp>, k: nat, t: nat, frames: nat)
    requires Solves(net, c, ops) && k < |ops| && ops[k].Process?
    requires Shaped(c, mem) && AllExecutable(c, mem, ops) && frames <= c.block
    requires ReadyAt(m, net, Run(c.table, ops).lines, mem, t)
    ensures AllExecutable(c, mem, ops[..k]) && ops[k].node in net.inputs
    ensures var before := RunBlock(m, c, mem, ops[..k], t, frames);
      && 0 <= ops[k].firstChannel && 0 <= ops[k].channelCount && ops[k].firstChannel + ops[k].channelCount <= |c.table|
      && (forall i :: 0 <= i < |ChannelsOf(c, ops[k])| ==> 0 <= ChannelsOf(c, ops[k])[i] < |before.audio|)
      && RowsAre(m, net, ops[k].node, ChannelRows(before.audio, ChannelsOf(c, ops[k])), t, frames)
  {
    BlockCorresponds(m, net, c, mem, ops, k, t, frames);
    var s := Run(c.table, ops[..k]);
    ProcessAt(c.table, ops, k);
    assert Executable(c, mem, ops[k]);
    ProcessPremises(m, net, Run(c.table, ops).lines, c, s, RunBlock(m, c, mem, ops[..k], t, frames), ops[k], t, frames);
  }

  // ----- whole runs

  function Total(blocks: seq<nat>): nat {
    if blocks == [] then 0 else Total(blocks[..|blocks| - 1]) + blocks[|blocks| - 1]
  }

  ghost predicate Fit(c: Setup, blocks: seq<nat>) {
    forall k :: 0 <= k < |blocks| ==> blocks[k] <= c.block
  }

  ghost function RunAll<S, St, M>(m: Machine<S, St, M>, c: Setup, mem: Memory<S, St, M>, ops: seq<RenderOp>,
    blocks: seq<nat>): (after: Memory<S, St, M>)
    requires Shaped(c, mem) && AllExecutable(c, mem, ops) && Fit(c, blocks)
    ensures Shaped(c, after) && AllExecutable(c, after, ops)
  {
    if blocks == [] then mem
    else
      var last := |blocks| - 1;
      var before := RunAll(m, c, mem, ops, blocks[..last]);
      var after := RunBlock(m, c, before, ops, Total(blocks[..last]), blocks[last]);
      assert forall k :: 0 <= k < |ops| ==> Executable(c, before, ops[k]) && Executable(c, after, ops[k]);
      after
  }

  /** Everything captured on one output channel over a run. */
  ghost function Rendered<S, St, M>(m: Machine<S, St, M>, c: Setup, mem: Memory<S, St, M>, ops: seq<RenderOp>,
    blocks: seq<nat>, channel: nat): seq<S>
    requires Shaped(c, mem) && AllExecutable(c, mem, ops) && Fit(c, blocks) && channel < c.outputCount
  {
    if blocks == [] then []
    else
      var last := |blocks| - 1;
      Rendered(m, c, mem, ops, blocks[..last], channel) + RunAll(m, c, mem, ops, blocks).output[channel][..blocks[last]]
  }

  /** Delay lines and processors reach the end of the run. */
  lemma {:induction false} RunReaches<S, St, M>(m: Machine<S, St, M>, net: Net, c: Setup, mem: Memory<S, St, M>,
    ops: seq<RenderOp>, blocks: seq<nat>)
    requires Solves(net, c, ops)
    requires Shaped(c, mem) && AllExecutable(c, mem, ops) && Fit(c, blocks)
    requires ReadyAt(m, net, Run(c.table, ops).lines, mem, 0)
    ensures ReadyAt(m, net, Run(c.table, ops).lines, RunAll(m, c, mem, ops, blocks), Total(blocks))
  {
    if blocks != [] {
      RunReaches(m, net, c, mem, ops, blocks[..|blocks| - 1]);
      ReachOneBlock(m, net, c, mem, ops, blocks);
    }
  }

  lemma ReachOneBlock<S, St, M>(m: Machine<S, St, M>, net: Net, c: Setup, mem: Memory<S, St, M>, ops: seq<RenderOp>,
    blocks: seq<nat>)
    requires Solves(net, c, ops) && blocks != []
    requires Shaped(c, mem) && AllExecutable(c, mem, ops) && Fit(c, blocks)
    requires ReadyAt(m, net, Run(c.table, ops).lines, RunAll(m, c, mem, ops, blocks[..|blocks| - 1]),
      Total(blocks[..|blocks| - 1]))
    ensures ReadyAt(m, net, Run(c.table, ops).lines, RunAll(m, c, mem, ops, blocks), Total(blocks)) == true
  {
    var last := |blocks| - 1;
    var before, t := RunAll(m, c, mem, ops, blocks[..last]), Total(blocks[..last]);
    RunAllStep(m, c, mem, ops, blocks);
    BlockReaches(m, net, c, before, ops, t, blocks[last], RunAll(m, c, mem, ops, blocks), Total(blocks));
  }

  lemma BlockReaches<S, St, M>(m: Machine<S, St, M>, net: Net, c: Setup, before: Memory<S, St, M>, ops: seq<RenderOp>,
    t: nat, frames: nat, after: Memory<S, St, M>, u: nat)
    requires Solves(net, c, ops) && Shaped(c, before) && AllExecutable(c, before, ops) && frames <= c.block
    requires ReadyAt(m, net, Run(c.table, ops).lines, before, t) == true
    requires after == RunBlock(m, c, before, ops, t, frames) && u == t + frames
    ensures ReadyAt(m, net, Run(c.table, ops).lines, after, u) == true
  {
    BlockLeavesReady(m, net, c, before, ops, t, frames);
    SameMoment(m, net, Run(c.table, ops).lines, RunBlock(m, c, before, ops, t, frames), t + frames, after, u);
  }

  lemma BlockLeavesReady<S, St, M>(m: Machine<S, St, M>, net: Net, c: Setup, before: Memory<S, St, M>,
    ops: seq<RenderOp>, t: nat, frames: nat)
    requires Solves(net, c, ops) && Shaped(c, before) && AllExecutable(c, before, ops) && frames <= c.block
    requires ReadyAt(m, net, Run(c.table, ops).lines, before, t) == true
    ensures ReadyAt(m, net, Run(c.table, ops).lines, RunBlock(m, c, before, ops, t, frames), t + frames) == true
  {
    BlockIsSound(m, net, c, before, ops, t, frames);
  }

  lemma SameMoment<S, St, M>(m: Machine<S, St, M>, net: Net, lines: map<int, DelayUse>, a: Memory<S, St, M>, t: nat,
    b: Memory<S, St, M>, u: nat)
    requires WellRanked(net) && a == b && t == u
    requires ReadyAt(m, net, lines, a, t) == true
    ensures ReadyAt(m, net, lines, b, u) == true
  {}

  lemma RunAllStep<S, St, M>(m: Machine<S, St, M>, c: Setup, mem: Memory<S, St, M>, ops: seq<RenderOp>,
    blocks: seq<nat>)
    requires Shaped(c, mem) && AllExecutable(c, mem, ops) && Fit(c, blocks) && blocks != []
    ensures var last := |blocks| - 1;
      && RunAll(m, c, mem, ops, blocks)
        == RunBlock(m, c, RunAll(m, c, mem, ops, blocks[..last]), ops, Total(blocks[..last]), blocks[last])
      && Total(blocks) == Total(blocks[..last]) + blocks[last]
  {}

  /** The last block of a run captures its stretch of the output node's stream. */
  lemma LastBlockOutput<S, St, M>(m: Machine<S, St, M>, net: Net, c: Setup, mem: Memory<S, St, M>, ops: seq<RenderOp>,
    blocks: seq<nat>, channel: nat)
    requires Solves(net, c, ops) && c.outputNode in net.inputs && c.outputCount <= |net.inputs[c.outputNode].audio|
    requires Shaped(c, mem) && AllExecutable(c, mem, ops) && Fit(c, blocks) && channel < c.outputCount
    requires ReadyAt(m, net, Run(c.table, ops).lines, mem, 0)
    requires blocks != []
    ensures var last := |blocks| - 1;
      RowIs(m, net, RunAll(m, c, mem, ops, blocks).output[channel], Output(c.outputNode, channel),
        Total(blocks[..last]), blocks[last])
  {
    var last := |blocks| - 1;
    RunReaches(m, net, c, mem, ops, blocks[..last]);
    BlockIsSound(m, net, c, RunAll(m, c, mem, ops, blocks[..last]), ops, Total(blocks[..last]), blocks[last]);
  }

  /** The output node's stream up to time `t`. */
  ghost function StreamUpTo<S, St, M>(m: Machine<S, St, M>, net: Net, n: NodeId, channel: nat, t: nat): seq<S>
    requires WellRanked(net) && n in net.inputs && channel < |net.inputs[n].audio|
  {
    seq(t, f requires 0 <= f => OutputAt(m, net, n, f, channel))
  }

  lemma StreamAppend<S, St, M>(m: Machine<S, St, M>, net: Net, n: NodeId, channel: nat, row: seq<S>, t: nat,
    frames: nat)
    requires WellRanked(net) && n in net.inputs && channel < |net.inputs[n].audio|
    requires RowIs(m, net, row, Output(n, channel), t, frames)
    ensures StreamUpTo(m, net, n, channel, t) + row[..frames] == StreamUpTo(m, net, n, channel, t + frames)
  {}

  /** Over any run, the captured output is the output node's stream, whatever the block sizes. */
  lemma {:induction false} RunIsSound<S, St, M>(m: Machine<S, St, M>, net: Net, c: Setup, mem: Memory<S, St, M>,
    ops: seq<RenderOp>, blocks: seq<nat>, channel: nat)
    requires Solves(net, c, ops) && c.outputNode in net.inputs && c.outputCount <= |net.inputs[c.outputNode].audio|
    requires Shaped(c, mem) && AllExecutable(c, mem, ops) && Fit(c, blocks) && channel < c.outputCount
    requires ReadyAt(m, net, Run(c.table, ops).lines, mem, 0)
    ensures Rendered(m, c, mem, ops, blocks, channel) == StreamUpTo(m, net, c.outputNode, channel, Total(blocks))
  {
    if blocks != [] {
      var last := |blocks| - 1;
      RunIsSound(m, net, c, mem, ops, blocks[..last], channel);
      LastBlockOutput(m, net, c, mem, ops, blocks, channel);
      StreamAppend(m, net, c.outputNode, channel, RunAll(m, c, mem, ops, blocks).output[channel], Total(blocks[..last]),
        blocks[last]);
    }
  }

  /** Cutting the same frames into different blocks changes nothing: same output, same delay lines, same
      processor states. */
  lemma BlockSizeDoesNotMatter<S, St, M>(m: Machine<S, St, M>, net: Net, c: Setup, mem: Memory<S, St, M>,
    ops: seq<RenderOp>, a: seq<nat>, b: seq<nat>, channel: nat)
    requires Solves(net, c, ops) && c.outputNode in net.inputs && c.outputCount <= |net.inputs[c.outputNode].audio|
    requires Shaped(c, mem) && AllExecutable(c, mem, ops) && channel < c.outputCount
    requires ReadyAt(m, net, Run(c.table, ops).lines, mem, 0)
    requires Fit(c, a) && Fit(c, b) && Total(a) == Total(b)
    ensures Rendered(m, c, mem, ops, a, channel) == Rendered(m, c, mem, ops, b, channel)
    ensures SameRuntime(net, Run(c.table, ops).lines, RunAll(m, c, mem, ops, a), RunAll(m, c, mem, ops, b))
  {
    RunIsSound(m, net, c, mem, ops, a, channel);
    RunIsSound(m, net, c, mem, ops, b, channel);
    RunReaches(m, net, c, mem, ops, a);
    RunReaches(m, net, c, mem, ops, b);
    ReadyIsUnique(m, net, Run(c.table, ops).lines, RunAll(m, c, mem, ops, a), RunAll(m, c, mem, ops, b), Total(a));
  }

  ghost predicate SameRuntime<S, St, M>(net: Net, lines: map<int, DelayUse>, a: Memory<S, St, M>, b: Memory<S, St, M>) {
    && (forall l :: l in lines ==> 0 <= l < |a.lines| && 0 <= l < |b.lines| && a.lines[l] == b.lines[l])
    && (forall n :: n in net.inputs ==> n in a.states && n in b.states && a.states[n] == b.states[n])
  }

  lemma ReadyIsUnique<S, St, M>(m: Machine<S, St, M>, net: Net, lines: map<int, DelayUse>, a: Memory<S, St, M>,
    b: Memory<S, St, M>, t: nat)
    requires WellRanked(net) && ReadyAt(m, net, lines, a, t) && ReadyAt(m, net, lines, b, t)
    ensures SameRuntime(net, lines, a, b)
  {}

  // ----- compiled plans

  /** The memory a compiled plan starts from: silent delay lines of the right length, fresh processors. */
  ghost predicate FreshFor<S, St, M>(m: Machine<S, St, M>, c: Setup, plan: RenderPlan, mem: Memory<S, St, M>) {
    && Shaped(c, mem)
    && |mem.audio| == plan.bufferCount && |mem.midi| == plan.midiBufferCount && |mem.lines| == plan.delayLineCount
    && c.table == plan.channelBuffers
    && (forall k :: 0 <= k < |plan.operations| && plan.operations[k].Delay? && 0 <= plan.operations[k].line < |mem.lines| ==>
          mem.lines[plan.operations[k].line]
            == Repeat(m.zero, if plan.operations[k].samples > 0 then plan.operations[k].samples else 0))
    && (forall k :: 0 <= k < |plan.operations| && plan.operations[k].Process? ==>
          plan.operations[k].node in mem.states
            && mem.states[plan.operations[k].node] == m.start(plan.operations[k].node))
    && (forall k :: 0 <= k < |plan.operations| && plan.operations[k].Process? && plan.operations[k].node == c.outputNode ==>
          c.outputCount <= plan.operations[k].channelCount)
  }

  lemma StepOrigin(table: seq<int>, s: Symbolic, op: RenderOp)
    ensures forall l :: l in Step(table, s, op).lines ==>
      if l in s.lines then Step(table, s, op).lines[l] == s.lines[l]
      else op.Delay? && op.line == l && op.samples == Step(table, s, op).lines[l].samples
    ensures forall n :: n in Step(table, s, op).inputs && n !in s.inputs ==> op.Process? && op.node == n
  {}

  /** Every line of a run stems from a delay operation of the plan. */
  lemma {:induction false} LineOrigin(table: seq<int>, ops: seq<RenderOp>, l: int) returns (k: nat)
    requires l in Run(table, ops).lines
    ensures k < |ops| && ops[k].Delay? && ops[k].line == l && ops[k].samples == Run(table, ops).lines[l].samples
  {
    var last := |ops| - 1;
    StepOrigin(table, Run(table, ops[..last]), ops[last]);
    if l in Run(table, ops[..last]).lines {
      k := LineOrigin(table, ops[..last], l);
    } else {
      k := last;
    }
  }

  /** Every node input of a run stems from a process operation of the plan. */
  lemma {:induction false} InputOrigin(table: seq<int>, ops: seq<RenderOp>, n: NodeId) returns (k: nat)
    requires n in Run(table, ops).inputs
    ensures k < |ops| && ops[k].Process? && ops[k].node == n
  {
    var last := |ops| - 1;
    StepOrigin(table, Run(table, ops[..last]), ops[last]);
    if n in Run(table, ops[..last]).inputs {
      k := InputOrigin(table, ops[..last], n);
    } else {
      k := last;
    }
  }

  lemma FreshIsReady<S, St, M>(m: Machine<S, St, M>, net: Net, c: Setup, plan: RenderPlan, mem: Memory<S, St, M>)
    requires PassesOperandChecks(plan) && FreshFor(m, c, plan, mem) && Solves(net, c, plan.operations)
    ensures AllExecutable(c, mem, plan.operations)
    ensures ReadyAt(m, net, Run(c.table, plan.operations).lines, mem, 0)
  {
    var ops := plan.operations;
    var lines := Run(c.table, ops).lines;
    forall l | l in lines ensures LineReady(m, net, lines, mem, 0, l) {
      var k := LineOrigin(c.table, ops, l);
      assert OperandsInRange(ops[k], plan.bufferCount, plan.delayLineCount, plan.midiBufferCount,
        |plan.channelBuffers|);
      assert mem.lines[l] == Repeat(m.zero, lines[l].samples);
    }
    forall n | n in net.inputs ensures NodeReady(m, net, mem, 0, n) {
      var k := InputOrigin(c.table, ops, n);
    }
  }

  /** The main theorem: running a compiled plan over any blocks renders the output node's stream of the graph,
      in which every channel of every node is, frame by frame, the sum of its sources in order,
        each held back to line up. */
  lemma CompiledPlanRendersGraph<S, St, M>(m: Machine<S, St, M>, t: Topology, info: NodeInfoMap, plan: RenderPlan,
    order: seq<NodeId>, c: Setup, mem: Memory<S, St, M>, blocks: seq<nat>, channel: nat)
    requires Implements(plan, t, info) && IsTopologicalOrder(t, order)
    requires FreshFor(m, c, plan, mem) && c.outputNode in t.nodes && c.outputCount <= info[c.outputNode].ChannelCount()
    requires Fit(c, blocks) && channel < c.outputCount
    ensures AllExecutable(c, mem, plan.operations)
    ensures WellRanked(GraphNet(t, info, ArrivalIn(plan, info), order))
    ensures HearsGraph(m, GraphNet(t, info, ArrivalIn(plan, info), order), t, info, ArrivalIn(plan, info)) == true
    ensures Rendered(m, c, mem, plan.operations, blocks, channel)
         == StreamUpTo(m, GraphNet(t, info, ArrivalIn(plan, info), order), c.outputNode, channel, Total(blocks))
  {
    CompiledPlanRendersNet(m, t, info, plan, order, c, mem, blocks, channel);
    GraphIsHeard(m, t, info, ArrivalIn(plan, info), order);
  }

  lemma CompiledPlanRendersNet<S, St, M>(m: Machine<S, St, M>, t: Topology, info: NodeInfoMap, plan: RenderPlan,
    order: seq<NodeId>, c: Setup, mem: Memory<S, St, M>, blocks: seq<nat>, channel: nat)
    requires Implements(plan, t, info) && IsTopologicalOrder(t, order)
    requires FreshFor(m, c, plan, mem) && c.outputNode in t.nodes && c.outputCount <= info[c.outputNode].ChannelCount()
    requires Fit(c, blocks) && channel < c.outputCount
    ensures AllExecutable(c, mem, plan.operations)
    ensures WellRanked(GraphNet(t, info, ArrivalIn(plan, info), order))
    ensures Rendered(m, c, mem, plan.operations, blocks, channel)
         == StreamUpTo(m, GraphNet(t, info, ArrivalIn(plan, info), order), c.outputNode, channel, Total(blocks))
  {
    var net := GraphNet(t, info, ArrivalIn(plan, info), order);
    PlanSolvesGraph(t, info, plan, order, c);
    FreshIsReady(m, net, c, plan, mem);
    RunIsSound(m, net, c, mem, plan.operations, blocks, channel);
  }

  lemma PlanSolvesGraph(t: Topology, info: NodeInfoMap, plan: RenderPlan, order: seq<NodeId>, c: Setup)
    requires Implements(plan, t, info) && IsTopologicalOrder(t, order) && c.table == plan.channelBuffers
    ensures Solves(GraphNet(t, info, ArrivalIn(plan, info), order), c, plan.operations)
  {
    GraphNetIsRanked(t, info, ArrivalIn(plan, info), order);
    SameEquations(t, info, ArrivalIn(plan, info), order, Run(plan.channelBuffers, plan.operations).inputs);
  }

  lemma SameEquations(t: Topology, info: NodeInfoMap, arrival: map<NodeId, int>, order: seq<NodeId>,
    inputs: map<NodeId, NodeInput>)
    requires WellBuilt(t) && WellFormed(t, info) && arrival.Keys == t.nodes && IsTopologicalOrder(t, order)
    requires FeedsEveryNode(t, info, arrival, inputs)
    ensures GraphNet(t, info, arrival, order).inputs == inputs
  {}
}
