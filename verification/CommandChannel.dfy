/** Realtime commands and their completions: the control thread enqueues commands and pops completions while the
    audio thread drains commands, in any interleaving. */
module CommandChannels {
  import opened SpscQueues

  const MAXIMUM_COMMANDS_PER_BLOCK := 64

  datatype CommandType = ResetAllNodes | ResetNode

  datatype Command = Command(sequence: nat, kind: CommandType, target: nat)

  datatype CompletionStatus = Applied | RejectedUnknownTarget

  datatype Completion = Completion(sequence: nat, status: CompletionStatus, target: nat, generation: nat)

  /** Where the audio thread stands inside `drainRealtimeCommands`. */
  datatype DrainPoint = Outside | Deciding(drained: nat) | Room(drained: nat) | Holding(drained: nat, command: Command)

  datatype Step = Enqueue(command: Command) | PopCompletion | StartBlock | CheckRoom | PopCommand | Complete

  predicate Sound(c: Command) {
    c.sequence != 0 && (c.kind == ResetAllNodes <==> c.target == 0)
  }

  /** A command for a node that the plan does not process is rejected; everything else is applied. */
  function Answer(c: Command, nodes: set<nat>, generation: nat): Completion {
    Completion(c.sequence, if c.kind == ResetNode && c.target !in nodes then RejectedUnknownTarget else Applied, c.target, generation)
  }

  /** The completion of a command, field by field: only a reset of a node that is not there is rejected. */
  predicate Replies(a: Completion, c: Command, nodes: set<nat>, generation: nat) {
    && a.sequence == c.sequence && a.target == c.target && a.generation == generation
    && (a.status == RejectedUnknownTarget <==> c.kind == ResetNode && c.target !in nodes)
    && (a.status == Applied <==> c.kind == ResetAllNodes || c.target in nodes)
  }

  /** One completion per popped command, in order. */
  ghost predicate Answers(answers: seq<Completion>, commands: seq<Command>, nodes: set<nat>, generation: nat) {
    |answers| == |commands| && forall k :: 0 <= k < |answers| ==> answers[k] == Answer(commands[k], nodes, generation)
  }

  /** Accepted commands are sound and numbered increasingly up to `last`. */
  ghost predicate Numbered(commands: seq<Command>, last: nat) {
    && (forall k :: 0 <= k < |commands| ==> Sound(commands[k]))
    && (forall i, j :: 0 <= i < j < |commands| ==> commands[i].sequence < commands[j].sequence)
    && last == (if commands == [] then 0 else commands[|commands| - 1].sequence)
  }

  lemma NothingIsNumbered()
    ensures Numbered([], 0) == true
  {}

  lemma NumberedGrows(commands: seq<Command>, last: nat, c: Command)
    requires Numbered(commands, last) == true && Sound(c) && last < c.sequence
    ensures Numbered(commands + [c], c.sequence) == true
  {
    forall k | 0 <= k < |commands| ensures commands[k].sequence < c.sequence {
      if k < |commands| - 1 { assert commands[k].sequence < commands[|commands| - 1].sequence; }
    }
  }

  lemma OneMoreAnswer(answers: seq<Completion>, commands: seq<Command>, c: Command, nodes: set<nat>, generation: nat)
    requires commands != [] && commands[|commands| - 1] == c
      && Answers(answers, commands[..|commands| - 1], nodes, generation) == true
    ensures Answers(answers + [Answer(c, nodes, generation)], commands, nodes, generation) == true
  {}

  function Sum(counts: seq<nat>): nat {
    if counts == [] then 0 else Sum(counts[..|counts| - 1]) + counts[|counts| - 1]
  }

  /** Every popped command belongs to a block, no block pops more than 64, and the loop counts those of the present one. */
  ghost predicate Counted(blocks: seq<nat>, popped: nat, point: DrainPoint) {
    && (forall k :: 0 <= k < |blocks| ==> blocks[k] <= MAXIMUM_COMMANDS_PER_BLOCK) && Sum(blocks) == popped
    && (!point.Outside? ==> blocks != [] && blocks[|blocks| - 1] == point.drained + if point.Holding? then 1 else 0)
  }

  lemma CountedMore(blocks: seq<nat>, popped: nat, drained: nat, c: Command)
    requires Counted(blocks, popped, Room(drained)) == true && drained < MAXIMUM_COMMANDS_PER_BLOCK
    ensures blocks != []
    ensures Counted(blocks[|blocks| - 1 := blocks[|blocks| - 1] + 1], popped + 1, Holding(drained, c)) == true
  {
    var last := |blocks| - 1;
    assert blocks[last := blocks[last] + 1][..last] == blocks[..last];
  }

  lemma CountedNext(blocks: seq<nat>, popped: nat)
    requires Counted(blocks, popped, Outside) == true
    ensures Counted(blocks + [0], popped, Deciding(0)) == true
  {
    assert (blocks + [0])[..|blocks|] == blocks;
  }

  /** What was popped is answered, but for the command that is being applied; whoever may pop has room for the answer.
      (Behind a quantifier so that methods carry it as one fact.) */
  ghost predicate Standing(point: DrainPoint, popped: seq<Command>, answered: seq<Completion>, blocks: seq<nat>,
    room: bool, nodes: set<nat>, generation: nat)
  {
    forall seal: bool {:trigger StandingFacts(point, popped, answered, blocks, room, nodes, generation, seal)} ::
      StandingFacts(point, popped, answered, blocks, room, nodes, generation, seal)
  }

  ghost predicate StandingFacts(point: DrainPoint, popped: seq<Command>, answered: seq<Completion>, blocks: seq<nat>,
    room: bool, nodes: set<nat>, generation: nat, seal: bool)
  {
    && (point.Holding? ==> popped != [] && popped[|popped| - 1] == point.command)
    && Answers(answered, if point.Holding? && popped != [] then popped[..|popped| - 1] else popped, nodes, generation)
         == true
    && (point.Room? || point.Holding? ==> room && point.drained < MAXIMUM_COMMANDS_PER_BLOCK)
    && (point.Deciding? ==> point.drained <= MAXIMUM_COMMANDS_PER_BLOCK)
    && Counted(blocks, |popped|, point) == true
  }

  lemma StandingMeans(point: DrainPoint, popped: seq<Command>, answered: seq<Completion>, blocks: seq<nat>, room: bool,
    nodes: set<nat>, generation: nat)
    requires Standing(point, popped, answered, blocks, room, nodes, generation) == true
    ensures StandingFacts(point, popped, answered, blocks, room, nodes, generation, true) == true
    ensures point.Room? || point.Holding? ==> room
  {
    assert StandingFacts(point, popped, answered, blocks, room, nodes, generation, true);
  }

  lemma StandingBegins(nodes: set<nat>, generation: nat, room: bool)
    ensures Standing(Outside, [], [], [], room, nodes, generation) == true
  {}

  /** More room does no harm. */
  lemma StandingRoomier(point: DrainPoint, popped: seq<Command>, answered: seq<Completion>, blocks: seq<nat>,
    room: bool, nodes: set<nat>, generation: nat, now: bool)
    requires Standing(point, popped, answered, blocks, room, nodes, generation) == true && (room ==> now)
    ensures Standing(point, popped, answered, blocks, now, nodes, generation) == true
  {
    StandingMeans(point, popped, answered, blocks, room, nodes, generation);
  }

  lemma StandingStarts(popped: seq<Command>, answered: seq<Completion>, blocks: seq<nat>, room: bool, nodes: set<nat>,
    generation: nat)
    requires Standing(Outside, popped, answered, blocks, room, nodes, generation) == true
    ensures Standing(Deciding(0), popped, answered, blocks + [0], room, nodes, generation) == true
  {
    StandingMeans(Outside, popped, answered, blocks, room, nodes, generation);
    CountedNext(blocks, |popped|);
  }

  /** The loop goes on or ends. */
  lemma StandingMoves(point: DrainPoint, popped: seq<Command>, answered: seq<Completion>, blocks: seq<nat>, room: bool,
    nodes: set<nat>, generation: nat, next: DrainPoint)
    requires Standing(point, popped, answered, blocks, room, nodes, generation) == true
      && (point.Deciding? || point.Room?)
    requires next == Outside || (next == Room(point.drained) && room && point.drained < MAXIMUM_COMMANDS_PER_BLOCK)
    ensures Standing(next, popped, answered, blocks, room, nodes, generation) == true
  {
    StandingMeans(point, popped, answered, blocks, room, nodes, generation);
  }

  lemma StandingPopped(drained: nat, popped: seq<Command>, answered: seq<Completion>, blocks: seq<nat>, room: bool,
    nodes: set<nat>, generation: nat, c: Command, more: seq<Command>)
    requires Standing(Room(drained), popped, answered, blocks, room, nodes, generation) == true && more == popped + [c]
    ensures blocks != []
    ensures Standing(Holding(drained, c), more, answered, blocks[|blocks| - 1 := blocks[|blocks| - 1] + 1], room, nodes,
      generation) == true
  {
    StandingMeans(Room(drained), popped, answered, blocks, room, nodes, generation);
    CountedMore(blocks, |popped|, drained, c);
    assert more[..|more| - 1] == popped;
  }

  lemma StandingAnswered(drained: nat, c: Command, popped: seq<Command>, answered: seq<Completion>, blocks: seq<nat>,
    room: bool, nodes: set<nat>, generation: nat, now: bool)
    requires Standing(Holding(drained, c), popped, answered, blocks, room, nodes, generation) == true
    ensures Standing(Deciding(drained + 1), popped, answered + [Answer(c, nodes, generation)], blocks, now, nodes,
      generation) == true
  {
    StandingMeans(Holding(drained, c), popped, answered, blocks, room, nodes, generation);
    OneMoreAnswer(answered, popped, c, nodes, generation);
  }

  class CommandChannel {
    const commands: SpscQueue<Command>
    const completions: SpscQueue<Completion>
    const nodes: set<nat>
    const generation: nat
    var lastSequence: nat
    var invalidCommands: nat
    var lostCompletions: nat
    var point: DrainPoint
    ghost var accepted: seq<Command>
    ghost var popped: seq<Command>
    ghost var answered: seq<Completion>
    ghost var received: seq<Completion>
    /** How many commands each block popped. */
    ghost var blocks: seq<nat>

    constructor (commandCapacity: nat, completionCapacity: nat, nodes: set<nat>, generation: nat)
      requires commandCapacity > 0 && completionCapacity > 0
      ensures Valid() && fresh(commands) && fresh(completions) && fresh(commands.storage) && fresh(completions.storage)
        && accepted == []
    {
      commands := new SpscQueue(commandCapacity);
      completions := new SpscQueue(completionCapacity);
      this.nodes, this.generation := nodes, generation;
      lastSequence, invalidCommands, lostCompletions, point := 0, 0, 0, Outside;
      accepted, popped, answered, received, blocks := [], [], [], [], [];
      NothingIsNumbered();
      StandingBegins(nodes, generation, true);
    }

    /** Accepted commands have been popped or wait, in order and numbered. */
    ghost predicate Incoming()
      reads this`accepted, this`popped, this`lastSequence, commands, commands.storage
    {
      commands.Valid() && accepted == popped + commands.Contents() && Numbered(accepted, lastSequence) == true
    }

    /** Answers have been received or wait, in order, and none was lost. */
    ghost predicate Outgoing()
      reads this`answered, this`received, this`lostCompletions, completions, completions.storage
    {
      completions.Valid() && answered == received + completions.Contents() && lostCompletions == 0
    }

    /** Where the audio thread stands goes with what was popped and answered. */
    ghost predicate Between()
      reads this`point, this`popped, this`answered, this`blocks, completions
    {
      Standing(point, popped, answered, blocks, |completions.Contents()| < completions.capacity, nodes, generation)
    }

    /** Nothing is lost or reordered: accepted commands are popped in order, answered in order, and the answers are
        received in order; an answer always has room. */
    ghost predicate Valid()
      reads this, commands, completions, commands.storage, completions.storage
    {
      commands as object != completions as object && Incoming() == true && Outgoing() == true && Between() == true
    }

    method DoEnqueue(c: Command) returns (ok: bool)
      requires Valid()
      modifies this`lastSequence, this`invalidCommands, this`accepted, commands, commands.storage
      ensures Valid()
        && (ok <==> Sound(c) && c.sequence > old(lastSequence) && |old(commands.Contents())| < commands.capacity)
      ensures ok ==> 0 < c.sequence && old(lastSequence) < c.sequence
      ensures ok ==> if c.kind == ResetAllNodes then c.target == 0 else c.target != 0
      ensures accepted == if ok then old(accepted) + [c] else old(accepted)
    {
      var soundTarget := (c.kind == ResetAllNodes && c.target == 0) || (c.kind == ResetNode && c.target != 0);
      if c.sequence == 0 || c.sequence <= lastSequence || !soundTarget {
        invalidCommands := invalidCommands + 1;
        return false;
      }
      ok := Push(c);
    }

    method Push(c: Command) returns (ok: bool)
      requires Valid() && Sound(c) && c.sequence > lastSequence
      modifies this`lastSequence, this`accepted, commands, commands.storage
      ensures Valid() && ok == (|old(commands.Contents())| < commands.capacity)
      ensures accepted == if ok then old(accepted) + [c] else old(accepted)
    {
      NumberedGrows(accepted, lastSequence, c);
      ghost var waiting := commands.Contents();
      ok := commands.TryPush(c);
      assert completions.Contents() == old(completions.Contents());
      if ok {
        assert popped + commands.Contents() == popped + waiting + [c];
        lastSequence := c.sequence;
        accepted := accepted + [c];
      }
    }

    method DoPopCompletion() returns (ok: bool, completion: Completion)
      requires Valid()
      modifies this`received, completions`readPosition, completions`queued
      ensures Valid() && received == if ok then old(received) + [completion] else old(received)
      ensures ok <==> old(completions.Contents()) != []
    {
      ghost var room := |completions.Contents()| < completions.capacity;
      ok, completion := completions.TryPop();
      StandingRoomier(point, popped, answered, blocks, room, nodes, generation,
        |completions.Contents()| < completions.capacity);
      if ok { received := received + [completion]; }
    }

    method DoStartBlock()
      requires Valid() && point == Outside
      modifies this`point, this`blocks
      ensures Valid() && point == Deciding(0) && blocks == old(blocks) + [0]
    {
      StandingStarts(popped, answered, blocks, |completions.Contents()| < completions.capacity, nodes, generation);
      blocks := blocks + [0];
      point := Deciding(0);
    }

    /** The loop goes on while fewer than 64 commands were drained and a completion has room. */
    method DoCheckRoom()
      requires Valid() && point.Deciding?
      modifies this`point
      ensures Valid()
      ensures point ==
        if old(point.drained) < MAXIMUM_COMMANDS_PER_BLOCK && |completions.Contents()| < completions.capacity
        then Room(old(point.drained)) else Outside
    {
      var next := if point.drained < MAXIMUM_COMMANDS_PER_BLOCK && !completions.Full() then Room(point.drained) else Outside;
      StandingMoves(point, popped, answered, blocks, |completions.Contents()| < completions.capacity, nodes, generation,
        next);
      point := next;
    }

    method DoPopCommand()
      requires Valid() && point.Room?
      modifies this`point, this`popped, this`blocks, commands`readPosition, commands`queued
      ensures Valid()
      ensures old(commands.Contents()) == [] ==> point == Outside && popped == old(popped)
      ensures old(commands.Contents()) != [] ==>
        point == Holding(old(point.drained), old(commands.Contents())[0])
          && popped == old(popped) + [old(commands.Contents())[0]]
    {
      ghost var before, room := popped, |completions.Contents()| < completions.capacity;
      var ok, c := PopNext();
      if ok {
        StandingPopped(point.drained, before, answered, blocks, room, nodes, generation, c, popped);
        blocks := blocks[|blocks| - 1 := blocks[|blocks| - 1] + 1];
        point := Holding(point.drained, c);
      } else {
        StandingMoves(point, popped, answered, blocks, room, nodes, generation, Outside);
        point := Outside;
      }
    }

    /** Takes the next waiting command. */
    method PopNext() returns (ok: bool, c: Command)
      requires Incoming()
      modifies this`popped, commands`readPosition, commands`queued
      ensures Incoming() == true && (ok <==> old(commands.Contents()) != [])
      ensures popped == if ok then old(popped) + [c] else old(popped)
      ensures ok ==> c == old(commands.Contents())[0]
    {
      ghost var waiting := commands.Contents();
      ok, c := commands.TryPop();
      if ok {
        popped := popped + [c];
        assert popped + waiting[1..] == old(popped) + waiting;
      }
    }

    /** Applies the command and pushes its completion, which always succeeds. */
    method DoComplete()
      requires Valid() && point.Holding?
      modifies this`point, this`lostCompletions, this`answered, completions, completions.storage
      ensures Valid() && point == Deciding(old(point.drained) + 1)
      ensures answered == old(answered) + [Answer(old(point.command), nodes, generation)]
      ensures Replies(answered[|answered| - 1], old(point.command), nodes, generation)
    {
      var found := point.command.kind == ResetAllNodes || point.command.target in nodes;
      var answer := Completion(point.command.sequence,
        if found then Applied else RejectedUnknownTarget, point.command.target, generation);
      ghost var drained, c, told := point.drained, point.command, answered;
      ghost var room := |completions.Contents()| < completions.capacity;
      StandingMeans(point, popped, answered, blocks, room, nodes, generation);
      PushAnswer(answer);
      StandingAnswered(drained, c, popped, told, blocks, room, nodes, generation,
        |completions.Contents()| < completions.capacity);
      point := Deciding(point.drained + 1);
    }

    /** Pushes a completion, or counts it as lost. */
    method PushAnswer(answer: Completion)
      requires Outgoing() && |completions.Contents()| < completions.capacity
      modifies this`lostCompletions, this`answered, completions, completions.storage
      ensures Outgoing() == true && answered == old(answered) + [answer]
    {
      ghost var waiting := completions.Contents();
      var ok := completions.TryPush(answer);
      lostCompletions := lostCompletions + if ok then 0 else 1;
      answered := answered + [answer];
      assert received + (waiting + [answer]) == received + waiting + [answer];
    }

    /** Any interleaving: a step its thread cannot take now is skipped. No completion is ever lost, and what the
        control thread received answers a prefix of what was accepted, in order. No block pops more than 64. */
    method Run(steps: seq<Step>)
      requires Valid()
      modifies this, commands, completions, commands.storage, completions.storage
      ensures Valid() && lostCompletions == 0
      ensures |received| <= |accepted| && forall k :: 0 <= k < |received| ==>
        Replies(received[k], accepted[k], nodes, generation)
      ensures Sum(blocks) == |popped| && forall k :: 0 <= k < |blocks| ==> blocks[k] <= MAXIMUM_COMMANDS_PER_BLOCK
    {
      var k := 0;
      while k < |steps|
        invariant Valid()
      {
        match steps[k] {
          case Enqueue(c) => var accepted := DoEnqueue(c);
          case PopCompletion => var ok, completion := DoPopCompletion();
          case StartBlock => if point == Outside { DoStartBlock(); }
          case CheckRoom => if point.Deciding? { DoCheckRoom(); }
          case PopCommand => if point.Room? { DoPopCommand(); }
          case Complete => if point.Holding? { DoComplete(); }
        }
        k := k + 1;
      }
      AllReply();
    }

    /** What was received replies to what was accepted, in order, and every popped command belongs to a block. */
    lemma AllReply()
      requires Valid()
      ensures |received| <= |accepted| && forall k :: 0 <= k < |received| ==>
        Replies(received[k], accepted[k], nodes, generation)
      ensures Sum(blocks) == |popped| && forall k :: 0 <= k < |blocks| ==> blocks[k] <= MAXIMUM_COMMANDS_PER_BLOCK
    {
      StandingMeans(point, popped, answered, blocks, |completions.Contents()| < completions.capacity, nodes,
        generation);
      forall k | 0 <= k < |received| ensures k < |accepted| && Replies(received[k], accepted[k], nodes, generation) {
        assert answered[k] == received[k] && accepted[k] == popped[k];
      }
      assert received == [] || |received| - 1 < |accepted|;
    }
  }
}
