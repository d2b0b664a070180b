/** The track node: gain, pan and mute applied sample by sample, with events inside the block. What it does to a
    stream does not depend on how the stream is cut into blocks. */
module TrackNodes {
  import opened ParameterEvents
  import opened ValueRamps

  const GAIN_PARAMETER := 1
  const PAN_PARAMETER := 2
  const MUTE_PARAMETER := 3

  function Clamp(v: real): real {
    if v < -1.0 then -1.0 else if v > 1.0 then 1.0 else v
  }

  // ----- the node as a machine that takes one sample at a time

  datatype TrackState = TrackState(gain: Ramp, gainSetting: real, pan: Ramp, panSetting: real, muted: bool)

  function ApplyEvent(s: TrackState, e: NodeEvent): TrackState {
    if e.parameter == GAIN_PARAMETER then
      s.(gain := Applied(s.gain, e), gainSetting := if e.kind == Modulation then s.gainSetting else e.value)
    else if e.parameter == PAN_PARAMETER then
      var v := if e.kind == Modulation then e.value else Clamp(e.value);
      s.(pan := Applied(s.pan, e.(value := v)), panSetting := if e.kind == Modulation then s.panSetting else v)
    else if e.parameter == MUTE_PARAMETER && e.kind == Value then s.(muted := e.value >= 0.5)
    else s
  }

  function ApplyEvents(s: TrackState, events: seq<NodeEvent>): TrackState {
    if events == [] then s else ApplyEvent(ApplyEvents(s, events[..|events| - 1]), events[|events| - 1])
  }

  /** One sample: its events, then one step of both ramps. */
  function Frame(s: TrackState, events: seq<NodeEvent>): TrackState {
    var t := ApplyEvents(s, events);
    t.(gain := Advanced(t.gain), pan := Advanced(t.pan))
  }

  function GainNow(s: TrackState): real { s.gain.current + s.gain.modulation }
  function PanNow(s: TrackState): real { Clamp(s.pan.current + s.pan.modulation) }

  /** The pan attenuates the channel it points away from. */
  function Factor(s: TrackState, channel: nat): real {
    var gain, pan := GainNow(s), PanNow(s);
    if channel == 0 then gain * if pan > 0.0 then 1.0 - pan else 1.0
    else if channel == 1 then gain * if pan < 0.0 then 1.0 + pan else 1.0
    else gain
  }

  /** What the sample of a channel becomes. */
  function Shaped(s: TrackState, channel: nat, sample: real): real {
    if s.muted then 0.0 else Scaled(sample, Factor(s, channel))
  }

  function Scaled(sample: real, factor: real): real { sample * factor }

  /** What a sample becomes, in numbers: silence when muted, otherwise the gain and its modulation, with the left
      channel attenuated by a pan to the right and the right channel by a pan to the left, down to silence. */
  predicate Panned(s: TrackState, channel: nat, sample: real, shaped: real) {
    var gain, pan := s.gain.current + s.gain.modulation, s.pan.current + s.pan.modulation;
    if s.muted then shaped == 0.0
    else if channel == 0 && pan > 0.0 then shaped == if pan >= 1.0 then 0.0 else sample * (gain * (1.0 - pan))
    else if channel == 1 && pan < 0.0 then shaped == if pan <= -1.0 then 0.0 else sample * (gain * (1.0 + pan))
    else shaped == sample * gain
  }

  lemma ShapedIsPanned(s: TrackState, channel: nat, sample: real)
    ensures Panned(s, channel, sample, Shaped(s, channel, sample))
  {
    var gain, pan, now := GainNow(s), s.pan.current + s.pan.modulation, PanNow(s);
    var kept := if channel == 0 && now > 0.0 then 1.0 - now else if channel == 1 && now < 0.0 then 1.0 + now else 1.0;
    assert Factor(s, channel) == gain * kept || (channel > 1 && Factor(s, channel) == gain);
    KeptPart(sample, gain, kept);
  }

  lemma KeptPart(sample: real, gain: real, kept: real)
    ensures kept == 1.0 ==> gain * kept == gain
    ensures kept == 0.0 ==> Scaled(sample, gain * kept) == 0.0
  {}

  function After(s: TrackState, frames: seq<seq<NodeEvent>>): TrackState {
    if frames == [] then s else Frame(After(s, frames[..|frames| - 1]), frames[|frames| - 1])
  }

  /** The beginning of a block: a parameter that is not on a ramp takes its setting. */
  function Begin(s: TrackState): TrackState {
    s.(gain := Begun(s.gain, s.gainSetting), pan := Begun(s.pan, s.panSetting))
  }

  // ----- blocks

  /** The events of each frame of a block, without their offset. */
  function Timeline(events: seq<NodeEvent>, frameCount: nat): (frames: seq<seq<NodeEvent>>)
    ensures |frames| == frameCount
  {
    seq(frameCount, f requires 0 <= f < frameCount => AtFrame(events, f))
  }

  function AtFrame(events: seq<NodeEvent>, frame: int): seq<NodeEvent> {
    if events == [] then []
    else
      var before, last := AtFrame(events[..|events| - 1], frame), events[|events| - 1];
      if last.sampleOffset == frame then before + [last.(sampleOffset := 0)] else before
  }

  lemma {:induction false} OffsetsDoNotMatter(s: TrackState, events: seq<NodeEvent>, others: seq<NodeEvent>)
    requires |events| == |others| && forall k :: 0 <= k < |events| ==>
      others[k] == events[k].(sampleOffset := others[k].sampleOffset)
    ensures ApplyEvents(s, events) == ApplyEvents(s, others)
  {
    if events != [] {
      OffsetsDoNotMatter(s, events[..|events| - 1], others[..|others| - 1]);
    }
  }

  lemma {:induction false} RunsCompose(s: TrackState, first: seq<seq<NodeEvent>>, second: seq<seq<NodeEvent>>)
    ensures After(s, first + second) == After(After(s, first), second)
  {
    if second == [] {
      assert first + second == first;
    } else {
      RunsCompose(s, first, second[..|second| - 1]);
      assert (first + second)[..|first + second| - 1] == first + second[..|second| - 1];
    }
  }

  // ----- what events and frames do, parameter by parameter

  /** The state after an event: only the parameter it is for has moved. */
  predicate EventInFields(s: TrackState, e: NodeEvent, t: TrackState) {
    && (e.parameter != 1 ==> t.gain == s.gain && t.gainSetting == s.gainSetting)
    && (e.parameter == 1 ==> Moved(s.gain, e.kind, e.value, e.duration, t.gain))
    && (e.parameter == 1 ==> t.gainSetting == if e.kind == Modulation then s.gainSetting else e.value)
    && (e.parameter != 2 ==> t.pan == s.pan && t.panSetting == s.panSetting)
    && (e.parameter == 2 && e.kind == Modulation ==>
          Moved(s.pan, e.kind, e.value, e.duration, t.pan) && t.panSetting == s.panSetting)
    && (e.parameter == 2 && e.kind != Modulation ==>
          -1.0 <= t.panSetting <= 1.0 && Moved(s.pan, e.kind, t.panSetting, e.duration, t.pan))
    && (e.parameter == 2 && e.kind != Modulation ==>
          t.panSetting == e.value || e.value < -1.0 == t.panSetting || t.panSetting == 1.0 < e.value)
    && (t.muted <==> if e.parameter == 3 && e.kind == Value then e.value >= 0.5 else s.muted)
  }

  lemma EventMoves(s: TrackState, e: NodeEvent)
    ensures EventInFields(s, e, ApplyEvent(s, e))
  {
    AppliedInFields(s.gain, e);
    AppliedInFields(s.pan, e);
    AppliedInFields(s.pan, e.(value := Clamp(e.value)));
  }

  function Quiet(n: nat): seq<seq<NodeEvent>> { seq(n, k => []) }

  lemma {:induction false} QuietFrames(s: TrackState, n: nat)
    ensures After(s, Quiet(n)) == s.(gain := AdvancedBy(s.gain, n), pan := AdvancedBy(s.pan, n))
  {
    if n > 0 {
      QuietFrames(s, n - 1);
      assert Quiet(n)[..n - 1] == Quiet(n - 1);
    }
  }

  /** An event followed by frames without events. */
  lemma EventThenQuiet(s: TrackState, e: NodeEvent, n: nat)
    ensures var t := ApplyEvent(s, e);
      After(s, [[e]] + Quiet(n)) == t.(gain := AdvancedBy(t.gain, n + 1), pan := AdvancedBy(t.pan, n + 1))
  {
    var t := Frame(s, [e]);
    RunsCompose(s, [[e]], Quiet(n));
    assert After(s, [[e]]) == t by {
      assert [[e]][..0] == [] && After(s, []) == s;
    }
    assert ApplyEvents(s, [e]) == ApplyEvent(s, e) by {
      assert [e][..0] == [] && ApplyEvents(s, []) == s;
    }
    QuietFrames(t, n);
    AdvanceFirst(ApplyEvent(s, e).gain, n);
    AdvanceFirst(ApplyEvent(s, e).pan, n);
  }

  lemma {:induction false} AdvanceFirst(r: Ramp, n: nat)
    ensures AdvancedBy(Advanced(r), n) == AdvancedBy(r, n + 1)
  {
    if n > 0 { AdvanceFirst(r, n - 1); }
  }

  /** A gain event and the gain that is heard `n` frames later: held, on the straight line, or as it would have been
      plus the modulation. */
  lemma GainEventIsHeard(s: TrackState, e: NodeEvent, n: nat)
    requires e.parameter == 1
    ensures var t := After(s, [[e]] + Quiet(n));
      && t.muted == s.muted && t.pan == AdvancedBy(s.pan, n + 1)
      && match e.kind
         case Value => t.gain.current == e.value && t.gain.modulation == s.gain.modulation
         case LinearRamp => t.gain.current == OnLine(s.gain.current, e.value, e.duration, n + 1)
                            && t.gain.modulation == s.gain.modulation
         case Modulation => t.gain.current == AdvancedBy(s.gain, n + 1).current && t.gain.modulation == e.value
  {
    EventThenQuiet(s, e, n);
    EventIsHeard(s.gain, e, n + 1);
  }

  /** The same for the pan, whose targets are limited to the range from left to right. */
  lemma PanEventIsHeard(s: TrackState, e: NodeEvent, n: nat)
    requires e.parameter == 2 && (e.kind != Modulation ==> -1.0 <= e.value <= 1.0)
    ensures var t := After(s, [[e]] + Quiet(n));
      && t.muted == s.muted && t.gain == AdvancedBy(s.gain, n + 1)
      && match e.kind
         case Value => t.pan.current == e.value && t.pan.modulation == s.pan.modulation
         case LinearRamp => t.pan.current == OnLine(s.pan.current, e.value, e.duration, n + 1)
                            && t.pan.modulation == s.pan.modulation
         case Modulation => t.pan.current == AdvancedBy(s.pan, n + 1).current && t.pan.modulation == e.value
  {
    EventThenQuiet(s, e, n);
    EventIsHeard(s.pan, e, n + 1);
  }

  /** A parameter that is not on a ramp has its setting. */
  predicate Settled(s: TrackState) {
    && (s.gain.remaining == 0 ==> s.gain.current == s.gain.target == s.gainSetting)
    && (s.gain.remaining > 0 ==> s.gain.target == s.gainSetting)
    && (s.pan.remaining == 0 ==> s.pan.current == s.pan.target == s.panSetting)
    && (s.pan.remaining > 0 ==> s.pan.target == s.panSetting)
  }

  /** Ramps end at the setting, so that being settled lasts. */
  lemma {:induction false} EventsKeepSettled(s: TrackState, events: seq<NodeEvent>)
    requires Settled(s)
    ensures Settled(ApplyEvents(s, events))
  {
    if events != [] { EventsKeepSettled(s, events[..|events| - 1]); }
  }

  lemma {:induction false} FramesKeepSettled(s: TrackState, frames: seq<seq<NodeEvent>>)
    requires Settled(s)
    ensures Settled(After(s, frames))
  {
    if frames != [] {
      FramesKeepSettled(s, frames[..|frames| - 1]);
      EventsKeepSettled(After(s, frames[..|frames| - 1]), frames[|frames| - 1]);
    }
  }

  /** Once settled, the beginning of a block changes nothing. */
  lemma BeginIsIdle(s: TrackState)
    requires Settled(s)
    ensures Begin(s) == s
  {}

  // ----- the node itself

  ghost predicate Separate(audio: seq<array<real>>, frameCount: nat) {
    && (forall i, j :: 0 <= i < j < |audio| ==> audio[i] != audio[j])
    && (forall i :: 0 <= i < |audio| ==> audio[i].Length >= frameCount)
  }

  /** The frames up to `f` of the first channels are shaped, everything else is as it was. */
  ghost predicate ShapedUpTo(s: TrackState, frames: seq<seq<NodeEvent>>, before: seq<seq<real>>, after: seq<seq<real>>,
    channels: nat, f: nat)
  {
    && |before| == |after| && f <= |frames|
    && forall c :: 0 <= c < |after| ==>
         |after[c]| == |before[c]| && ChannelShaped(s, frames, before[c], after[c], c, if c < channels then f else 0)
  }

  ghost predicate ChannelShaped(s: TrackState, frames: seq<seq<NodeEvent>>, before: seq<real>, after: seq<real>, c: nat,
    f: nat)
    requires |before| == |after| && f <= |frames|
  {
    forall k :: 0 <= k < |after| ==>
      after[k] == if k < f then Shaped(After(s, frames[..k + 1]), c, before[k]) else before[k]
  }

  ghost function Rows(audio: seq<array<real>>): (rows: seq<seq<real>>)
    reads audio
    ensures |rows| == |audio|
  {
    seq(|audio|, c requires 0 <= c < |audio| reads audio => audio[c][..])
  }

  /** Every sample of the first channels is what gain, pan and mute after its frame's events make of it; the other
      samples are as they were. */
  ghost predicate PannedRows(s: TrackState, frames: seq<seq<NodeEvent>>, before: seq<seq<real>>, after: seq<seq<real>>,
    channels: nat)
  {
    && |before| == |after|
    && forall c :: 0 <= c < |after| ==>
         |after[c]| == |before[c]| && PannedRow(s, frames, before[c], after[c], c, channels)
  }

  ghost predicate PannedRow(s: TrackState, frames: seq<seq<NodeEvent>>, before: seq<real>, after: seq<real>, c: nat,
    channels: nat)
    requires |before| == |after|
  {
    forall k :: 0 <= k < |after| ==>
      if c < channels && k < |frames| then Panned(After(s, frames[..k + 1]), c, before[k], after[k])
      else after[k] == before[k]
  }

  lemma ShapedRowsArePanned(s: TrackState, frames: seq<seq<NodeEvent>>, before: seq<seq<real>>, after: seq<seq<real>>,
    channels: nat)
    requires ShapedUpTo(s, frames, before, after, channels, |frames|)
    ensures PannedRows(s, frames, before, after, channels)
  {
    forall c | 0 <= c < |after|
      ensures |after[c]| == |before[c]| && PannedRow(s, frames, before[c], after[c], c, channels)
    {
      ShapedRowIsPanned(s, frames, before[c], after[c], c, channels);
    }
  }

  lemma ShapedRowIsPanned(s: TrackState, frames: seq<seq<NodeEvent>>, before: seq<real>, after: seq<real>, c: nat,
    channels: nat)
    requires |before| == |after| && ChannelShaped(s, frames, before, after, c, if c < channels then |frames| else 0)
    ensures PannedRow(s, frames, before, after, c, channels)
  {
    forall k | 0 <= k < |after| && c < channels && k < |frames|
      ensures Panned(After(s, frames[..k + 1]), c, before[k], after[k])
    {
      ShapedIsPanned(After(s, frames[..k + 1]), c, before[k]);
    }
  }

  /** In a buffer in order, the events at a frame are a stretch of it. */
  lemma {:induction false} FrameIsStretch(events: seq<NodeEvent>, frame: int, start: nat, end: nat)
    requires start <= end <= |events|
    requires forall k :: 0 <= k < start ==> events[k].sampleOffset < frame
    requires forall k :: start <= k < end ==> events[k].sampleOffset == frame
    requires forall k :: end <= k < |events| ==> events[k].sampleOffset > frame
    ensures |AtFrame(events, frame)| == end - start
    ensures forall k :: 0 <= k < end - start ==> AtFrame(events, frame)[k] == events[start + k].(sampleOffset := 0)
    decreases |events|
  {
    if events != [] {
      var n := |events| - 1;
      FrameIsStretch(events[..n], frame, if start > n then n else start, if end > n then n else end);
    }
  }

  lemma StretchIsFrame(s: TrackState, events: seq<NodeEvent>, frame: int, start: nat, end: nat)
    requires start <= end <= |events|
    requires forall k :: 0 <= k < start ==> events[k].sampleOffset < frame
    requires forall k :: start <= k < end ==> events[k].sampleOffset == frame
    requires forall k :: end <= k < |events| ==> events[k].sampleOffset > frame
    ensures ApplyEvents(s, events[start..end]) == ApplyEvents(s, AtFrame(events, frame))
  {
    FrameIsStretch(events, frame, start, end);
    OffsetsDoNotMatter(s, events[start..end], AtFrame(events, frame));
  }

  /** In order, what follows the first event that is not at the frame is later. */
  lemma RestIsLater(events: seq<NodeEvent>, frame: int, index: nat)
    requires InOrder(events) && forall k :: index <= k < |events| ==> events[k].sampleOffset >= frame
    requires index < |events| ==> events[index].sampleOffset != frame
    ensures forall k :: index <= k < |events| ==> events[k].sampleOffset > frame
  {
    forall k | index < k < |events| ensures events[k].sampleOffset > frame { assert !Before(events[k], events[index]); }
  }

  class TrackNode {
    const gainState: ParameterValueState
    const panState: ParameterValueState
    const channelCount: nat
    var gain: real
    var pan: real
    var muted: bool

    constructor (channelCount: nat)
      ensures Valid() && fresh(gainState) && fresh(panState) && this.channelCount == channelCount && Settled(State())
    {
      gainState := new ParameterValueState(1.0);
      panState := new ParameterValueState(0.0);
      this.channelCount, gain, pan, muted := channelCount, 1.0, 0.0, false;
    }

    predicate Valid() {
      gainState != panState
    }

    function State(): TrackState
      reads this, gainState, panState
    {
      TrackState(gainState.State(), gain, panState.State(), pan, muted)
    }

    method ApplyOne(e: NodeEvent)
      requires Valid()
      modifies this, gainState, panState
      ensures State() == ApplyEvent(old(State()), e) && EventInFields(old(State()), e, State())
    {
      EventMoves(State(), e);
      if e.parameter == GAIN_PARAMETER {
        gainState.Apply(e);
        if e.kind != Modulation { gain := e.value; }
      } else if e.parameter == PAN_PARAMETER {
        var panEvent := e;
        if e.kind != Modulation {
          panEvent := e.(value := Clamp(e.value));
          pan := panEvent.value;
        }
        panState.Apply(panEvent);
      } else if e.parameter == MUTE_PARAMETER && e.kind == Value {
        muted := e.value >= 0.5;
      }
    }

    /** Applies the events at a frame, in order. */
    method ConsumeEvents(events: ParameterEventBuffer, frame: nat, start: nat) returns (index: nat)
      requires Valid() && events.Valid() && InOrder(events.Contents()) && start <= |events.Contents()|
      requires forall k :: start <= k < |events.Contents()| ==> events.Contents()[k].sampleOffset >= frame
      requires forall k :: 0 <= k < start ==> events.Contents()[k].sampleOffset < frame
      modifies this, gainState, panState
      ensures start <= index <= |events.Contents()|
      ensures State() == ApplyEvents(old(State()), AtFrame(events.Contents(), frame))
      ensures forall k :: index <= k < |events.Contents()| ==> events.Contents()[k].sampleOffset >= frame + 1
      ensures forall k :: 0 <= k < index ==> events.Contents()[k].sampleOffset < frame + 1
    {
      ghost var all := events.Contents();
      ghost var s := State();
      index := start;
      while index < events.eventCount && events.events[index].sampleOffset == frame
        invariant start <= index <= |all| && events.Valid() && events.Contents() == all
        invariant forall k :: start <= k < index ==> all[k].sampleOffset == frame
        invariant State() == ApplyEvents(s, all[start..index])
      {
        var e := events.Event(index);
        ApplyOne(e);
        assert all[start..index + 1][..index - start] == all[start..index];
        index := index + 1;
      }
      assert index < |all| ==> all[index] == events.events[index];
      RestIsLater(all, frame, index);
      StretchIsFrame(s, all, frame, start, index);
    }

    /** One step of both ramps, and the sample of every channel. */
    method ShapeFrame(audio: seq<array<real>>, frame: nat)
      requires Valid() && Separate(audio, frame + 1)
      modifies gainState, panState, audio
      ensures State() == old(State()).(gain := Advanced(old(State()).gain), pan := Advanced(old(State()).pan))
      ensures forall c :: 0 <= c < |audio| ==>
        audio[c][..] == old(audio[c][..])[frame := if c < channelCount then Shaped(State(), c, old(audio[c][frame])) else old(audio[c][frame])]
    {
      var currentGain := gainState.NextValue();
      var panValue := panState.NextValue();
      var currentPan := Clamp(panValue);
      var channels := if |audio| < channelCount then |audio| else channelCount;
      var leftGain := currentGain * if currentPan > 0.0 then 1.0 - currentPan else 1.0;
      var rightGain := currentGain * if currentPan < 0.0 then 1.0 + currentPan else 1.0;
      ghost var s := State();
      var c := 0;
      while c < channels
        invariant 0 <= c <= channels
        invariant forall i :: 0 <= i < c ==>
          audio[i][..] == old(audio[i][..])[frame := Shaped(s, i, old(audio[i][frame]))]
        invariant forall i :: c <= i < |audio| ==> audio[i][..] == old(audio[i][..])
        modifies audio
      {
        var channelGain := if c == 0 then leftGain else if c == 1 then rightGain else currentGain;
        assert audio[c][..][frame] == old(audio[c][..])[frame];
        ShapeSample(audio[c], frame, muted, channelGain, s, c);
        c := c + 1;
      }
    }

    static method ShapeSample(row: array<real>, frame: nat, muted: bool, channelGain: real, ghost s: TrackState,
      ghost c: nat)
      requires frame < row.Length && muted == s.muted && channelGain == Factor(s, c)
      modifies row
      ensures row[..] == old(row[..])[frame := Shaped(s, c, old(row[frame]))]
    {
      row[frame] := if muted then 0.0 else Scaled(row[frame], channelGain);
    }

    /** One frame of a block. */
    method ProcessFrame(audio: seq<array<real>>, frame: nat, events: ParameterEventBuffer, start: nat,
                        ghost s: TrackState, ghost frames: seq<seq<NodeEvent>>, ghost before: seq<seq<real>>)
      returns (index: nat)
      requires Valid() && Separate(audio, frame + 1)
      requires events.Valid() && InOrder(events.Contents()) && start <= |events.Contents()|
      requires forall k :: start <= k < |events.Contents()| ==> events.Contents()[k].sampleOffset >= frame
      requires forall k :: 0 <= k < start ==> events.Contents()[k].sampleOffset < frame
      requires frame < |frames| && frames[frame] == AtFrame(events.Contents(), frame)
      requires State() == After(s, frames[..frame]) && ShapedUpTo(s, frames, before, Rows(audio), channelCount, frame)
      modifies this, gainState, panState, audio
      ensures start <= index <= |events.Contents()|
      ensures forall k :: index <= k < |events.Contents()| ==> events.Contents()[k].sampleOffset >= frame + 1
      ensures forall k :: 0 <= k < index ==> events.Contents()[k].sampleOffset < frame + 1
      ensures State() == After(s, frames[..frame + 1])
        && ShapedUpTo(s, frames, before, Rows(audio), channelCount, frame + 1)
    {
      ghost var rows := Rows(audio);
      index := ConsumeEvents(events, frame, start);
      ShapeFrame(audio, frame);
      assert frames[..frame + 1][..frame] == frames[..frame];
      OneMoreFrame(s, frames, before, rows, Rows(audio), channelCount, frame);
    }

    /** `process`: the block's samples, frame by frame; the events of the block are in order and inside it. */
    method Process(audio: seq<array<real>>, frameCount: nat, events: ParameterEventBuffer)
      requires Valid() && Separate(audio, frameCount)
      requires events.Valid() && InOrder(events.Contents()) && forall k :: 0 <= k < |events.Contents()| ==>
        0 <= events.Contents()[k].sampleOffset < frameCount
      modifies this, gainState, panState, audio
      ensures State() == After(Begin(old(State())), Timeline(events.Contents(), frameCount))
      ensures ShapedUpTo(Begin(old(State())), Timeline(events.Contents(), frameCount), old(Rows(audio)), Rows(audio),
        channelCount, frameCount)
      ensures PannedRows(Begin(old(State())), Timeline(events.Contents(), frameCount), old(Rows(audio)), Rows(audio),
        channelCount)
    {
      gainState.BeginBlock(gain);
      panState.BeginBlock(pan);
      ghost var s, all, before := State(), events.Contents(), Rows(audio);
      ghost var frames := Timeline(all, frameCount);
      var eventIndex, frame := 0, 0;
      while frame < frameCount
        invariant 0 <= frame <= frameCount && eventIndex <= |all| && events.Valid() && events.Contents() == all
        invariant forall k :: eventIndex <= k < |all| ==> all[k].sampleOffset >= frame
        invariant forall k :: 0 <= k < eventIndex ==> all[k].sampleOffset < frame
        invariant State() == After(s, frames[..frame])
        invariant ShapedUpTo(s, frames, before, Rows(audio), channelCount, frame)
      {
        eventIndex := ProcessFrame(audio, frame, events, eventIndex, s, frames, before);
        frame := frame + 1;
      }
      assert frames[..frame] == frames;
      ShapedRowsArePanned(s, frames, before, Rows(audio), channelCount);
    }
  }

  lemma OneMoreFrame(s: TrackState, frames: seq<seq<NodeEvent>>, before: seq<seq<real>>, rows: seq<seq<real>>,
    after: seq<seq<real>>, channels: nat, f: nat)
    requires f < |frames| && ShapedUpTo(s, frames, before, rows, channels, f) && |after| == |rows|
    requires forall c :: 0 <= c < |rows| ==> f < |rows[c]|
    requires forall c :: 0 <= c < |rows| ==>
      after[c] == rows[c][f := if c < channels then Shaped(After(s, frames[..f + 1]), c, rows[c][f]) else rows[c][f]]
    ensures ShapedUpTo(s, frames, before, after, channels, f + 1)
  {
    forall c | 0 <= c < |after|
      ensures |after[c]| == |before[c]|
        && ChannelShaped(s, frames, before[c], after[c], c, if c < channels then f + 1 else 0) {
      assert ChannelShaped(s, frames, before[c], rows[c], c, if c < channels then f else 0);
    }
  }
}
