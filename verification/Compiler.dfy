/** The first half of `compileRenderPlan`: metadata and port checks, the inputs of every node and the latency
    analysis. Emission and the compiler's correctness theorem are in `Emission`. */
module Compiler {
  import opened Ordered
  import opened Graph
  import opened TopologicalSort
  import opened RenderPlans

  // ----- validation

  method CheckNodes(t: Topology, info: NodeInfoMap) returns (error: CompileError)
    ensures error == NoError <==> forall n :: n in t.nodes ==> n in info && GoodMetadata(info[n])
    ensures error == NoError || (error.MissingNodeInfo? && error.node in t.nodes && error.node !in info)
         || (error.InvalidMetadata? && error.node in t.nodes && error.node in info && !GoodMetadata(info[error.node]))
  {
    var nodes := SortedNodes(t.nodes);
    assert forall n :: n in t.nodes <==> n in Elements(nodes);
    var k := 0;
    while k < |nodes|
      invariant 0 <= k <= |nodes|
      invariant forall i :: 0 <= i < k ==> nodes[i] in info && GoodMetadata(info[nodes[i]])
    {
      var id := nodes[k];
      assert id in Elements(nodes);
      if id !in info {
        return MissingNodeInfo(id);
      }
      if info[id].audioInputCount < 0 || info[id].audioOutputCount < 0 || info[id].latencySamples < 0 {
        return InvalidMetadata(id);
      }
      k := k + 1;
    }
    return NoError;
  }

  method CheckPorts(t: Topology, info: NodeInfoMap) returns (error: CompileError)
    ensures error == NoError || error == PortOutsideLayout
    ensures error == NoError <==> forall c :: c in t.connections && !c.IsMidi() ==> PortsKnown(c, info)
  {
    var connections := SortedConnections(t.connections);
    var k := 0;
    while k < |connections|
      invariant 0 <= k <= |connections|
      invariant forall i :: 0 <= i < k && !connections[i].IsMidi() ==> PortsKnown(connections[i], info)
    {
      var c := connections[k];
      assert c in Elements(connections);
      if !c.IsMidi() && !PortsKnown(c, info) {
        return PortOutsideLayout;
      }
      k := k + 1;
    }
    forall c | c in t.connections && !c.IsMidi() ensures PortsKnown(c, info) {
      assert c in Elements(connections);
    }
    return NoError;
  }

  // ----- fan-in tables

  /** `audioInputs` lists, for every input channel fed by the connections seen so far, its sources. */
  ghost predicate ListsAudio(seen: set<Connection>, audioInputs: map<Signal, seq<Signal>>) {
    && (forall d :: d in audioInputs ==> Elements(audioInputs[d]) == SourceSet(Topology({}, seen), d.node, d.channel))
    && (forall c :: c in seen && !c.IsMidi() ==> DestinationOf(c) in audioInputs)
  }

  ghost predicate ListsMidi(seen: set<Connection>, midiInputs: map<NodeId, seq<NodeId>>) {
    && (forall n :: n in midiInputs ==> Elements(midiInputs[n]) == MidiSourceSet(Topology({}, seen), n))
    && (forall c :: c in seen && c.IsMidi() ==> c.destinationNode in midiInputs)
  }

  /** `lastConsumer` holds the latest position at which each consumed signal is needed. */
  ghost predicate LastUses(seen: set<Connection>, position: map<NodeId, int>, lastConsumer: map<Signal, int>) {
    && (forall c :: c in seen && !c.IsMidi() ==>
          c.destinationNode in position && SourceOf(c) in lastConsumer
            && position[c.destinationNode] <= lastConsumer[SourceOf(c)])
    && (forall s :: s in lastConsumer ==> exists c :: IsLastUse(seen, position, lastConsumer, s, c))
  }

  ghost predicate IsLastUse(seen: set<Connection>, position: map<NodeId, int>, lastConsumer: map<Signal, int>,
    s: Signal, c: Connection)
    requires s in lastConsumer
  {
    c in seen && !c.IsMidi() && SourceOf(c) == s && c.destinationNode in position
      && position[c.destinationNode] == lastConsumer[s]
  }

  function SourceOf(c: Connection): Signal {
    Signal(c.sourceNode, c.sourceChannel)
  }

  function DestinationOf(c: Connection): Signal {
    Signal(c.destinationNode, c.destinationChannel)
  }

  lemma FedIsListed(seen: set<Connection>, audioInputs: map<Signal, seq<Signal>>, d: Signal)
    requires ListsAudio(seen, audioInputs)
    ensures SourceSet(Topology({}, seen), d.node, d.channel) != {} ==> d in audioInputs
  {
    if s :| s in SourceSet(Topology({}, seen), d.node, d.channel) {
      var b :| b in seen && !b.IsMidi() && b.destinationNode == d.node && b.destinationChannel == d.channel;
      assert DestinationOf(b) == d;
    }
  }

  lemma SeeAudio(seen: set<Connection>, audioInputs: map<Signal, seq<Signal>>, c: Connection)
    requires ListsAudio(seen, audioInputs) && !c.IsMidi()
    ensures var d := DestinationOf(c);
            var known := if d in audioInputs then audioInputs[d] else [];
            ListsAudio(seen + {c}, audioInputs[d := known + [SourceOf(c)]])
  {
    var d := DestinationOf(c);
    var known := if d in audioInputs then audioInputs[d] else [];
    var updated := audioInputs[d := known + [SourceOf(c)]];
    forall e | e in updated
      ensures Elements(updated[e]) == SourceSet(Topology({}, seen + {c}), e.node, e.channel)
    {
      var before, now := SourceSet(Topology({}, seen), e.node, e.channel), SourceSet(Topology({}, seen + {c}), e.node,
        e.channel);
      if e == d {
        assert now == before + {SourceOf(c)};
        FedIsListed(seen, audioInputs, d);
        assert Elements(known) == before;
        assert forall x :: x in known + [SourceOf(c)] <==> x in known || x == SourceOf(c);
      } else {
        assert now == before;
      }
    }
  }

  lemma SeeMidi(seen: set<Connection>, midiInputs: map<NodeId, seq<NodeId>>, c: Connection)
    requires ListsMidi(seen, midiInputs) && c.IsMidi()
    ensures var n := c.destinationNode;
            var known := if n in midiInputs then midiInputs[n] else [];
            ListsMidi(seen + {c}, midiInputs[n := known + [c.sourceNode]])
  {
    var n := c.destinationNode;
    var known := if n in midiInputs then midiInputs[n] else [];
    var updated := midiInputs[n := known + [c.sourceNode]];
    forall m | m in updated
      ensures Elements(updated[m]) == MidiSourceSet(Topology({}, seen + {c}), m)
    {
      var before, now := MidiSourceSet(Topology({}, seen), m), MidiSourceSet(Topology({}, seen + {c}), m);
      if m == n {
        assert now == before + {c.sourceNode};
        assert Elements(known) == before;
        assert forall x :: x in known + [c.sourceNode] <==> x in known || x == c.sourceNode;
      } else {
        assert now == before;
      }
    }
  }

  lemma SeeUse(seen: set<Connection>, position: map<NodeId, int>, lastConsumer: map<Signal, int>, c: Connection)
    requires LastUses(seen, position, lastConsumer) && !c.IsMidi() && c.destinationNode in position
    requires forall n :: n in position ==> position[n] >= 0
    ensures var s := SourceOf(c);
            var before := if s in lastConsumer then lastConsumer[s] else -1;
            LastUses(seen + {c}, position, lastConsumer[s := Max(before, position[c.destinationNode])])
  {
    var s := SourceOf(c);
    var before := if s in lastConsumer then lastConsumer[s] else -1;
    var updated := lastConsumer[s := Max(before, position[c.destinationNode])];
    forall r | r in updated ensures exists b :: IsLastUse(seen + {c}, position, updated, r, b) {
      if r == s && updated[s] == position[c.destinationNode] {
        assert IsLastUse(seen + {c}, position, updated, r, c);
      } else {
        var b :| IsLastUse(seen, position, lastConsumer, r, b);
        assert IsLastUse(seen + {c}, position, updated, r, b);
      }
    }
  }

  function Max(a: int, b: int): int {
    if a < b then b else a
  }

  /** One pass over the connections fills all three tables. */
  method GatherInputs(t: Topology, position: map<NodeId, int>)
    returns (audioInputs: map<Signal, seq<Signal>>, midiInputs: map<NodeId, seq<NodeId>>,
      lastConsumer: map<Signal, int>)
    requires WellBuilt(t) && position.Keys == t.nodes && forall n :: n in position ==> position[n] >= 0
    ensures ListsAudio(t.connections, audioInputs)
    ensures ListsMidi(t.connections, midiInputs)
    ensures LastUses(t.connections, position, lastConsumer)
  {
    audioInputs, midiInputs, lastConsumer := map[], map[], map[];
    var connections := SortedConnections(t.connections);
    ghost var seen: set<Connection> := {};
    var k := 0;
    while k < |connections|
      invariant 0 <= k <= |connections|
      invariant seen == Elements(connections[..k])
      invariant ListsAudio(seen, audioInputs)
      invariant ListsMidi(seen, midiInputs)
      invariant LastUses(seen, position, lastConsumer)
    {
      var c := connections[k];
      NextElement(connections, k);
      assert c in t.connections && Admissible(t.nodes, c);
      if c.IsMidi() {
        SeeMidi(seen, midiInputs, c);
        var known := if c.destinationNode in midiInputs then midiInputs[c.destinationNode] else [];
        midiInputs := midiInputs[c.destinationNode := known + [c.sourceNode]];
        AudioUnaffected(seen, audioInputs, position, lastConsumer, c);
      } else {
        SeeAudio(seen, audioInputs, c);
        SeeUse(seen, position, lastConsumer, c);
        MidiUnaffected(seen, midiInputs, c);
        var source, destination := SourceOf(c), DestinationOf(c);
        var known := if destination in audioInputs then audioInputs[destination] else [];
        audioInputs := audioInputs[destination := known + [source]];
        var before := if source in lastConsumer then lastConsumer[source] else -1;
        lastConsumer := lastConsumer[source := Max(before, position[c.destinationNode])];
      }
      seen := seen + {c};
      k := k + 1;
    }
    assert connections[..k] == connections;
    assert seen == t.connections;
  }

  lemma AudioUnaffected(seen: set<Connection>, audioInputs: map<Signal, seq<Signal>>, position: map<NodeId, int>,
    lastConsumer: map<Signal, int>, c: Connection)
    requires c.IsMidi() && ListsAudio(seen, audioInputs) && LastUses(seen, position, lastConsumer)
    ensures ListsAudio(seen + {c}, audioInputs) && LastUses(seen + {c}, position, lastConsumer)
  {
    forall d | d in audioInputs
      ensures Elements(audioInputs[d]) == SourceSet(Topology({}, seen + {c}), d.node, d.channel)
    {
      assert SourceSet(Topology({}, seen + {c}), d.node, d.channel) == SourceSet(Topology({}, seen), d.node, d.channel);
    }
    forall s | s in lastConsumer ensures exists b :: IsLastUse(seen + {c}, position, lastConsumer, s, b) {
      var b :| IsLastUse(seen, position, lastConsumer, s, b);
      assert IsLastUse(seen + {c}, position, lastConsumer, s, b);
    }
  }

  lemma MidiUnaffected(seen: set<Connection>, midiInputs: map<NodeId, seq<NodeId>>, c: Connection)
    requires !c.IsMidi() && ListsMidi(seen, midiInputs)
    ensures ListsMidi(seen + {c}, midiInputs)
  {
    forall n | n in midiInputs ensures Elements(midiInputs[n]) == MidiSourceSet(Topology({}, seen + {c}), n) {
      assert MidiSourceSet(Topology({}, seen + {c}), n) == MidiSourceSet(Topology({}, seen), n);
    }
  }

  /** Every fan-in list in its canonical order. */
  ghost predicate CanonicalAudio(t: Topology, audioInputs: map<Signal, seq<Signal>>) {
    && (forall d :: d in audioInputs ==> audioInputs[d] == SortedSources(t, d.node, d.channel))
    && (forall c :: c in t.connections && !c.IsMidi() ==> DestinationOf(c) in audioInputs)
  }

  ghost predicate CanonicalMidi(t: Topology, midiInputs: map<NodeId, seq<NodeId>>) {
    && (forall n :: n in midiInputs ==> midiInputs[n] == SortedMidiSources(t, n))
    && (forall c :: c in t.connections && c.IsMidi() ==> c.destinationNode in midiInputs)
  }

  method SortSignals(signals: seq<Signal>) returns (sorted: seq<Signal>)
    ensures SortedSignals(sorted) && Elements(sorted) == Elements(signals)
  {
    sorted := SortedElements(Elements(signals), SignalLess);
    assert forall x :: x in sorted <==> x in Elements(signals);
  }

  method SortNodes(nodes: seq<NodeId>) returns (sorted: seq<NodeId>)
    ensures SortedNodeIds(sorted) && Elements(sorted) == Elements(nodes)
  {
    sorted := SortedNodes(Elements(nodes));
  }

  method SortAudioInputs(t: Topology, audioInputs: map<Signal, seq<Signal>>) returns (sorted: map<Signal, seq<Signal>>)
    requires ListsAudio(t.connections, audioInputs)
    ensures CanonicalAudio(t, sorted)
  {
    sorted := audioInputs;
    var rest := audioInputs.Keys;
    while rest != {}
      invariant rest <= audioInputs.Keys == sorted.Keys
      invariant forall d :: d in rest ==> sorted[d] == audioInputs[d]
      invariant forall d :: d in sorted && d !in rest ==> sorted[d] == SortedSources(t, d.node, d.channel)
      decreases |rest|
    {
      var d :| d in rest;
      var signals := SortSignals(audioInputs[d]);
      assert SourceSet(Topology({}, t.connections), d.node, d.channel) == SourceSet(t, d.node, d.channel);
      SignalListingUnique(signals, SortedSources(t, d.node, d.channel));
      sorted := sorted[d := signals];
      rest := rest - {d};
    }
  }

  method SortMidiInputs(t: Topology, midiInputs: map<NodeId, seq<NodeId>>) returns (sorted: map<NodeId, seq<NodeId>>)
    requires ListsMidi(t.connections, midiInputs)
    ensures CanonicalMidi(t, sorted)
  {
    sorted := midiInputs;
    var rest := midiInputs.Keys;
    while rest != {}
      invariant rest <= midiInputs.Keys == sorted.Keys
      invariant forall n :: n in rest ==> sorted[n] == midiInputs[n]
      invariant forall n :: n in sorted && n !in rest ==> sorted[n] == SortedMidiSources(t, n)
      decreases |rest|
    {
      var n :| n in rest;
      var nodes := SortNodes(midiInputs[n]);
      assert MidiSourceSet(Topology({}, t.connections), n) == MidiSourceSet(t, n);
      NodeListingUnique(nodes, SortedMidiSources(t, n));
      sorted := sorted[n := nodes];
      rest := rest - {n};
    }
  }

  // ----- latency

  /** The first `k` nodes of the order have their final arrival. */
  ghost predicate ArrivalsKnown(t: Topology, info: NodeInfoMap, known: map<NodeId, int>, order: seq<NodeId>, k: nat)
    requires WellFormed(t, info) && k <= |order|
  {
    && known.Keys == Elements(order[..k])
    && (forall n :: n in known ==> n in t.nodes && IsArrivalAt(t, info, known, n))
  }

  /** Longest-path latencies, in topological order. */
  method ComputeArrivals(t: Topology, info: NodeInfoMap, order: seq<NodeId>)
    returns (arrivalAtNode: map<NodeId, int>, latencyAtNode: map<NodeId, int>)
    requires WellBuilt(t) && WellFormed(t, info) && IsTopologicalOrder(t, order)
    ensures IsArrival(t, info, arrivalAtNode)
    ensures latencyAtNode.Keys == t.nodes
    ensures forall n :: n in t.nodes ==> latencyAtNode[n] == arrivalAtNode[n] + info[n].latencySamples
  {
    arrivalAtNode, latencyAtNode := map[], map[];
    var connections := SortedConnections(t.connections);
    var k := 0;
    while k < |order|
      invariant 0 <= k <= |order|
      invariant ArrivalsKnown(t, info, arrivalAtNode, order, k)
      invariant latencyAtNode.Keys == arrivalAtNode.Keys
      invariant forall n :: n in latencyAtNode ==> latencyAtNode[n] == arrivalAtNode[n] + info[n].latencySamples
    {
      var id := order[k];
      assert id in order;
      var arrival := ArrivalAt(t, info, arrivalAtNode, connections, order, k);
      ExtendArrival(t, info, arrivalAtNode, order, k, arrival);
      arrivalAtNode := arrivalAtNode[id := arrival];
      latencyAtNode := latencyAtNode[id := arrival + info[id].latencySamples];
      k := k + 1;
    }
    assert order[..k] == order;
    assert arrivalAtNode.Keys == t.nodes;
  }

  method ArrivalAt(t: Topology, info: NodeInfoMap, known: map<NodeId, int>, connections: seq<Connection>,
    order: seq<NodeId>, k: nat)
    returns (arrival: int)
    requires WellBuilt(t) && WellFormed(t, info) && IsTopologicalOrder(t, order) && k < |order|
    requires known.Keys == Elements(order[..k])
    requires Elements(connections) == t.connections
    ensures IsArrivalAt(t, info, known[order[k] := arrival], order[k])
  {
    var id := order[k];
    arrival := 0;
    ghost var latest := Connection(0, 0, 0, 0);
    var j := 0;
    while j < |connections|
      invariant 0 <= j <= |connections|
      invariant arrival >= 0
      invariant forall i :: 0 <= i < j && IsAudioInto(connections[i], id) ==>
        connections[i].sourceNode in known
          && known[connections[i].sourceNode] + info[connections[i].sourceNode].latencySamples <= arrival
      invariant arrival == 0 || (latest in t.connections && IsAudioInto(latest, id) && latest.sourceNode in known
        && known[latest.sourceNode] + info[latest.sourceNode].latencySamples == arrival)
    {
      var c := connections[j];
      assert c in Elements(connections);
      if IsAudioInto(c, id) {
        ProducerIsEarlier(t, order, k, c);
        if arrival < known[c.sourceNode] + info[c.sourceNode].latencySamples {
          arrival := known[c.sourceNode] + info[c.sourceNode].latencySamples;
          latest := c;
        }
      }
      j := j + 1;
    }
    NextElement(order, k);
    ghost var extended := known[id := arrival];
    forall c | c in t.connections && IsAudioInto(c, id) && c.sourceNode in extended
      ensures extended[c.sourceNode] + info[c.sourceNode].latencySamples <= arrival
    {
      assert c in Elements(connections) && Admissible(t.nodes, c);
    }
    assert arrival == 0 || Attains(t, info, extended, id, latest);
  }

  lemma ProducerIsEarlier(t: Topology, order: seq<NodeId>, k: nat, c: Connection)
    requires WellBuilt(t) && IsTopologicalOrder(t, order) && k < |order|
    requires c in t.connections && c.destinationNode == order[k]
    ensures c.sourceNode in Elements(order[..k])
  {
    assert EdgeOf(c) in Edges(t) && Admissible(t.nodes, c);
    assert c.sourceNode in order;
    var i :| 0 <= i < |order| && order[i] == c.sourceNode;
    assert (order[i], order[k]) in Edges(t);
    assert order[..k][i] == c.sourceNode;
  }

  lemma ExtendArrival(t: Topology, info: NodeInfoMap, known: map<NodeId, int>, order: seq<NodeId>, k: nat, arrival: int)
    requires WellBuilt(t) && WellFormed(t, info) && IsTopologicalOrder(t, order) && k < |order|
    requires ArrivalsKnown(t, info, known, order, k)
    requires IsArrivalAt(t, info, known[order[k] := arrival], order[k])
    ensures ArrivalsKnown(t, info, known[order[k] := arrival], order, k + 1)
  {
    var extended := known[order[k] := arrival];
    NextElement(order, k);
    assert order[k] in order;
    forall n | n in known ensures IsArrivalAt(t, info, extended, n) {
      var i :| 0 <= i < k && order[..k][i] == n;
      assert order[i] == n && n != order[k];
      forall c | c in t.connections && IsAudioInto(c, n) && c.sourceNode in extended
        ensures extended[c.sourceNode] + info[c.sourceNode].latencySamples <= extended[n]
      {
        ProducerIsEarlier(t, order, i, c);
        var h :| 0 <= h < i && order[..i][h] == c.sourceNode;
        assert order[h] == c.sourceNode && order[..k][h] == c.sourceNode;
        assert c.sourceNode != order[k];
      }
      if known[n] != 0 {
        var c :| Attains(t, info, known, n, c);
        var h :| 0 <= h < k && order[..k][h] == c.sourceNode;
        assert order[h] == c.sourceNode && c.sourceNode != order[k];
        assert Attains(t, info, extended, n, c);
      }
    }
  }
}
