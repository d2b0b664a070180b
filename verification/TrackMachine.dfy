/** The track node as one of the processors of an automated graph: what the executor computes for it in a block is what
    the node's own frame loop does to its channels with the events in its buffer. */
module TrackMachines {
  import opened Graph
  import opened Streams
  import opened Execution
  import opened ParameterEvents
  import opened Automation
  import TrackNodes
  import BlockCuts

  /** The state of a track, among those of other processors. */
  datatype NodeState<!St> = Track(track: TrackNodes.TrackState) | Other(other: St)

  /** Node `n` is a track with `channels` channels. */
  ghost predicate IsTrack<St(!new), M(!new)>(p: Processors<real, NodeState<St>, M>, n: NodeId, channels: nat) {
    && n in p.resolved
    && (forall t, s, audio, midi, events :: p.next(n, t, Track(s), audio, midi,
      events) == Track(TrackNodes.Frame(s, events)))
    && (forall t, s, audio, midi, events, c: nat :: c < |audio| ==>
          p.out(n, t, Track(s), audio, midi, events, c) == Sample(TrackNodes.Frame(s, events), c, audio[c], channels))
  }

  function Sample(s: TrackNodes.TrackState, c: nat, sample: real, channels: nat): real {
    if c < channels then TrackNodes.Shaped(s, c, sample) else sample
  }

  lemma {:induction false} StatesFollow<St(!new), M(!new)>(p: Processors<real, NodeState<St>, M>, ids: seq<nat>,
    contents: seq<seq<NodeEvent>>, n: NodeId, channels: nat, s: TrackNodes.TrackState, rows: seq<seq<real>>,
    midi: seq<M>, t: nat, b: nat, f: nat)
    requires IsTrack(p, n, channels) && f <= b <= |midi| && forall k :: 0 <= k < |rows| ==> b <= |rows[k]|
    ensures FrameState(InBlock(p, ids, contents, t), n, Track(s), rows, midi, t, f)
         == Track(TrackNodes.After(s, TrackNodes.Timeline(Delivered(ids, contents, n), b)[..f]))
  {
    if f > 0 {
      StatesFollow(p, ids, contents, n, channels, s, rows, midi, t, b, f - 1);
      var frames := TrackNodes.Timeline(Delivered(ids, contents, n), b);
      assert frames[..f][..f - 1] == frames[..f - 1];
    }
  }

  /** What the executor makes of a track's channels in a block is what `TrackNode.Process` promises of them: same
      state afterwards, same samples. */
  lemma TrackIsMachine<St(!new), M(!new)>(p: Processors<real, NodeState<St>, M>, ids: seq<nat>,
    contents: seq<seq<NodeEvent>>, n: NodeId, channels: nat, s: TrackNodes.TrackState, rows: seq<seq<real>>,
    midi: seq<M>, t: nat, b: nat)
    requires IsTrack(p, n, channels) && TrackNodes.Settled(s) && b <= |midi| && forall k :: 0 <= k < |rows| ==>
      |rows[k]| == b
    ensures var m, events := InBlock(p, ids, contents, t), Delivered(ids, contents, n);
      var after := TrackNodes.After(s, TrackNodes.Timeline(events, b));
      && TrackNodes.Settled(after) && FrameState(m, n, Track(s), rows, midi, t, b) == Track(after)
      && BlockCuts.RendersWith(s, after, events, rows,
        seq(|rows|, k requires 0 <= k < |rows| => OutRow(m, n, Track(s), rows, midi, t, b, k)), b, channels) == true
  {
    var m, events := InBlock(p, ids, contents, t), Delivered(ids, contents, n);
    var frames := TrackNodes.Timeline(events, b);
    TrackNodes.BeginIsIdle(s);
    TrackNodes.FramesKeepSettled(s, frames);
    StatesFollow(p, ids, contents, n, channels, s, rows, midi, t, b, b);
    assert frames[..b] == frames;
    forall k | 0 <= k < |rows|
      ensures BlockCuts.RowRendered(s, frames, rows[k], OutRow(m, n, Track(s), rows, midi, t, b, k), k, channels)
    {
      TrackRow(p, ids, contents, n, channels, s, rows, midi, t, b, k);
    }
  }

  lemma TrackRow<St(!new), M(!new)>(p: Processors<real, NodeState<St>, M>, ids: seq<nat>, contents: seq<seq<NodeEvent>>,
    n: NodeId, channels: nat, s: TrackNodes.TrackState, rows: seq<seq<real>>, midi: seq<M>, t: nat, b: nat, k: nat)
    requires IsTrack(p, n, channels) && b <= |midi| && k < |rows| && forall k :: 0 <= k < |rows| ==> |rows[k]| == b
    ensures BlockCuts.RowRendered(s, TrackNodes.Timeline(Delivered(ids, contents, n), b), rows[k],
                                  OutRow(InBlock(p, ids, contents, t), n, Track(s), rows, midi, t, b, k), k, channels)
  {
    var frames := TrackNodes.Timeline(Delivered(ids, contents, n), b);
    forall f | 0 <= f < b
      ensures OutRow(InBlock(p, ids, contents, t), n, Track(s), rows, midi, t, b, k)[f]
        == Sample(TrackNodes.After(s, frames[..f + 1]), k, rows[k][f], channels)
    {
      StatesFollow(p, ids, contents, n, channels, s, rows, midi, t, b, f);
      assert frames[..f + 1][..f] == frames[..f];
    }
  }
}
