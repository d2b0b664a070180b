/** Machines that do the same in the frames of a run make the same of it. */
module Agreement {
  import opened Graph
  import opened RenderPlans
  import opened Streams
  import opened Execution
  import opened Soundness
  import opened Prepare

  ghost predicate SameMaterial<S, St, M>(a: Machine<S, St, M>, b: Machine<S, St, M>) {
    a.zero == b.zero && a.add == b.add && a.noMidi == b.noMidi && a.merge == b.merge
  }

  /** Node `n` does the same in frame `t`. */
  ghost predicate AgreeAt<S(!new), St(!new), M(!new)>(a: Machine<S, St, M>, b: Machine<S, St, M>, n: NodeId, t: nat) {
    && (forall s, audio, midi :: a.Next(n, t, s, audio, midi) == b.Next(n, t, s, audio, midi))
    && (forall s, audio, midi, c: nat :: c < |audio| ==>
      a.Out(n, t, s, audio, midi, c) == b.Out(n, t, s, audio, midi, c))
    && (forall s, audio, midi :: a.MidiOut(n, t, s, audio, midi) == b.MidiOut(n, t, s, audio, midi))
  }

  ghost predicate Agree<S(!new), St(!new), M(!new)>(a: Machine<S, St, M>, b: Machine<S, St, M>, nodes: set<NodeId>,
    t: nat, end: nat)
  {
    && SameMaterial(a, b)
    && forall n, f: nat :: n in nodes && t <= f < end ==> AgreeAt(a, b, n, f)
  }

  lemma {:induction false} StatesAgree<S(!new), St(!new), M(!new)>(a: Machine<S, St, M>, b: Machine<S, St, M>,
    n: NodeId, s: St, rows: seq<seq<S>>, midi: seq<M>, t: nat, f: nat)
    requires f <= |midi| && forall k :: 0 <= k < |rows| ==> f <= |rows[k]|
    requires forall k: nat :: t <= k < t + f ==> AgreeAt(a, b, n, k)
    ensures FrameState(a, n, s, rows, midi, t, f) == FrameState(b, n, s, rows, midi, t, f)
  {
    if f > 0 {
      StatesAgree(a, b, n, s, rows, midi, t, f - 1);
      assert AgreeAt(a, b, n, t + f - 1);
    }
  }

  lemma RowAgrees<S(!new), St(!new), M(!new)>(a: Machine<S, St, M>, b: Machine<S, St, M>, n: NodeId, s: St,
    rows: seq<seq<S>>, midi: seq<M>, t: nat, frames: nat, c: nat)
    requires c < |rows| && frames <= |midi| && forall k :: 0 <= k < |rows| ==> frames <= |rows[k]|
    requires forall k: nat :: t <= k < t + frames ==> AgreeAt(a, b, n, k)
    ensures OutRow(a, n, s, rows, midi, t, frames, c) == OutRow(b, n, s, rows, midi, t, frames, c)
  {
    forall f | 0 <= f < frames
      ensures FrameOut(a, n, s, rows, midi, t, f, c) == FrameOut(b, n, s, rows, midi, t, f, c)
    {
      StatesAgree(a, b, n, s, rows, midi, t, f);
      assert AgreeAt(a, b, n, t + f);
    }
  }

  lemma MidiAgrees<S(!new), St(!new), M(!new)>(a: Machine<S, St, M>, b: Machine<S, St, M>, n: NodeId, s: St,
    rows: seq<seq<S>>, midi: seq<M>, t: nat, frames: nat)
    requires frames <= |midi| && forall k :: 0 <= k < |rows| ==> frames <= |rows[k]|
    requires forall k: nat :: t <= k < t + frames ==> AgreeAt(a, b, n, k)
    ensures MidiRow(a, n, s, rows, midi, t, frames) == MidiRow(b, n, s, rows, midi, t, frames)
  {
    forall f | 0 <= f < frames
      ensures FrameMidi(a, n, s, rows, midi, t, f) == FrameMidi(b, n, s, rows, midi, t, f)
    {
      StatesAgree(a, b, n, s, rows, midi, t, f);
      assert AgreeAt(a, b, n, t + f);
    }
  }

  lemma ProcessAgrees<S(!new), St(!new), M(!new)>(a: Machine<S, St, M>, b: Machine<S, St, M>, n: NodeId, s: St,
    audio: seq<seq<S>>, channels: seq<int>, midi: seq<M>, t: nat, frames: nat)
    requires forall k :: 0 <= k < |channels| ==> 0 <= channels[k] < |audio|
    requires frames <= |midi| && forall k :: 0 <= k < |audio| ==> frames <= |audio[k]|
    requires forall k: nat :: t <= k < t + frames ==> AgreeAt(a, b, n, k)
    ensures ProcessAudio(a, n, s, audio, channels, midi, t, frames)
      == ProcessAudio(b, n, s, audio, channels, midi, t, frames)
  {
    forall c | 0 <= c < |channels|
      ensures OutRow(a, n, s, ChannelRows(audio, channels), midi, t, frames, c)
        == OutRow(b, n, s, ChannelRows(audio, channels), midi, t, frames, c)
    {
      RowAgrees(a, b, n, s, ChannelRows(audio, channels), midi, t, frames, c);
    }
  }

  /** What a processed node leaves behind: its channels, its MIDI and its state. */
  ghost predicate SameEffect<S, St, M>(a: Machine<S, St, M>, b: Machine<S, St, M>, n: NodeId, s: St,
    audio: seq<seq<S>>, channels: seq<int>, midi: seq<M>, t: nat, frames: nat)
    requires forall k :: 0 <= k < |channels| ==> 0 <= channels[k] < |audio|
    requires frames <= |midi| && forall k :: 0 <= k < |audio| ==> frames <= |audio[k]|
  {
    && ProcessAudio(a, n, s, audio, channels, midi, t, frames)
      == ProcessAudio(b, n, s, audio, channels, midi, t, frames)
    && MidiRow(a, n, s, ChannelRows(audio, channels), midi, t, frames)
      == MidiRow(b, n, s, ChannelRows(audio, channels), midi, t, frames)
    && FrameState(a, n, s, ChannelRows(audio, channels), midi, t, frames)
      == FrameState(b, n, s, ChannelRows(audio, channels), midi, t, frames)
  }

  lemma EffectAgrees<S(!new), St(!new), M(!new)>(a: Machine<S, St, M>, b: Machine<S, St, M>, n: NodeId, s: St,
    audio: seq<seq<S>>, channels: seq<int>, midi: seq<M>, t: nat, frames: nat)
    requires forall k :: 0 <= k < |channels| ==> 0 <= channels[k] < |audio|
    requires frames <= |midi| && forall k :: 0 <= k < |audio| ==> frames <= |audio[k]|
    requires (forall k: nat :: t <= k < t + frames ==> AgreeAt(a, b, n, k)) == true
    ensures SameEffect(a, b, n, s, audio, channels, midi, t, frames) == true
  {
    ProcessAgrees(a, b, n, s, audio, channels, midi, t, frames);
    MidiAgrees(a, b, n, s, ChannelRows(audio, channels), midi, t, frames);
    StatesAgree(a, b, n, s, ChannelRows(audio, channels), midi, t, frames);
  }

  lemma SameStep<S, St, M>(a: Machine<S, St, M>, b: Machine<S, St, M>, c: Setup, mem: Memory<S, St, M>, op: RenderOp,
    t: nat, frames: nat)
    requires Shaped(c, mem) && op.Process? && Executable(c, mem, op) && frames <= c.block
    requires SameEffect(a, b, op.node, mem.states[op.node], mem.audio,
      c.table[op.firstChannel..op.firstChannel + op.channelCount],
                        mem.midi[op.midi], t, frames)
    ensures StepBlock(a, c, mem, op, t, frames) == StepBlock(b, c, mem, op, t, frames)
  {}

  lemma StepAgrees<S(!new), St(!new), M(!new)>(a: Machine<S, St, M>, b: Machine<S, St, M>, c: Setup,
    mem: Memory<S, St, M>, op: RenderOp, t: nat, frames: nat)
    requires Shaped(c, mem) && Executable(c, mem, op) && frames <= c.block && SameMaterial(a, b)
    requires (op.Process? ==> forall k: nat :: t <= k < t + frames ==> AgreeAt(a, b, op.node, k)) == true
    ensures StepBlock(a, c, mem, op, t, frames) == StepBlock(b, c, mem, op, t, frames)
  {
    if op.Process? {
      EffectAgrees(a, b, op.node, mem.states[op.node], mem.audio,
        c.table[op.firstChannel..op.firstChannel + op.channelCount], mem.midi[op.midi], t, frames);
      SameStep(a, b, c, mem, op, t, frames);
    }
  }

  lemma {:induction false} BlockAgrees<S(!new), St(!new), M(!new)>(a: Machine<S, St, M>, b: Machine<S, St, M>, c: Setup,
    mem: Memory<S, St, M>, ops: seq<RenderOp>, nodes: set<NodeId>, t: nat, frames: nat)
    requires Shaped(c, mem) && AllExecutable(c, mem, ops) && frames <= c.block
    requires ProcessedNodes(ops) <= nodes && Agree(a, b, nodes, t, t + frames)
    ensures RunBlock(a, c, mem, ops, t, frames) == RunBlock(b, c, mem, ops, t, frames)
  {
    if ops != [] {
      var last := |ops| - 1;
      assert forall k :: 0 <= k < last ==> ops[..last][k] == ops[k];
      BlockAgrees(a, b, c, mem, ops[..last], nodes, t, frames);
      var before := RunBlock(a, c, mem, ops[..last], t, frames);
      assert Executable(c, mem, ops[last]);
      assert ops[last].Process? ==> ops[last].node in ProcessedNodes(ops);
      StepAgrees(a, b, c, before, ops[last], t, frames);
    }
  }

  lemma {:induction false} RunsAgree<S(!new), St(!new), M(!new)>(a: Machine<S, St, M>, b: Machine<S, St, M>, c: Setup,
    mem: Memory<S, St, M>, ops: seq<RenderOp>, blocks: seq<nat>)
    requires Shaped(c, mem) && AllExecutable(c, mem, ops) && Fit(c, blocks)
    requires Agree(a, b, ProcessedNodes(ops), 0, Total(blocks))
    ensures RunAll(a, c, mem, ops, blocks) == RunAll(b, c, mem, ops, blocks)
    ensures forall k :: 0 <= k < c.outputCount ==>
      Rendered(a, c, mem, ops, blocks, k) == Rendered(b, c, mem, ops, blocks, k)
  {
    if blocks != [] {
      var last := |blocks| - 1;
      RunsAgree(a, b, c, mem, ops, blocks[..last]);
      BlockAgrees(a, b, c, RunAll(a, c, mem, ops, blocks[..last]), ops, ProcessedNodes(ops), Total(blocks[..last]),
        blocks[last]);
    }
  }
}
