/** Checkpoint compaction: a shorter journal with the same history, which always fits below the revision. */
module Checkpoints {
  import opened SessionDocuments
  import opened SessionEditing
  import opened SessionHistory

  function Reverse<T>(s: seq<T>): (r: seq<T>)
    ensures |r| == |s| && forall k :: 0 <= k < |s| ==> r[k] == s[|s| - 1 - k]
  {
    seq(|s|, k requires 0 <= k < |s| => s[|s| - 1 - k])
  }

  /** All edits that ever led to the furthest point of the history, oldest first. */
  function Linear(live: Live): seq<HistoryEntry> {
    live.undo + Reverse(live.redo)
  }

  function RecordCount(live: Live): nat {
    |live.undo| + 2 * |live.redo| + 1
  }

  /** The compacted journal: the baseline, one edit per history entry, one undo per entry of the redo stack. */
  function Compacted(live: Live): (log: seq<Logged>)
    requires RecordCount(live) <= live.document.revision
    ensures |log| == RecordCount(live)
  {
    var revision := live.document.revision;
    var first := revision - RecordCount(live) + 1;
    var linear := Linear(live);
    seq(RecordCount(live), k requires 0 <= k < RecordCount(live) =>
      Logged(first + k,
        if k == 0 then Baseline(revision)
        else if k <= |linear| then Change(Edit, linear[k - 1])
        else Change(Undo, live.redo[k - 1 - |linear|])))
  }

  ghost predicate AllCleanLive(live: Live) {
    AllClean(live.undo) && AllClean(live.redo)
  }

  /** A replay that passes through known states, record by record. */
  lemma {:induction false} ReplayThrough(d: SessionDocument, log: seq<Logged>, last: u64, states: seq<Rebuilt>, n: nat)
    requires |states| == |log| + 1 && n <= |log| && states[0] == Rebuilt(Live(d, [], []), 0)
    requires forall k :: 0 <= k < |log| ==> ReplayRecord(states[k], log[k], k == 0, last) == Rebuild(states[k + 1])
    ensures ReplayAll(d, log[..n], last) == Rebuild(states[n])
  {
    if n > 0 {
      ReplayThrough(d, log, last, states, n - 1);
      assert log[..n][..n - 1] == log[..n - 1];
    }
  }

  /** The session after the first `k` compacted records: first the edits fill the undo stack with the whole
      history, then the undos move the redo entries back. */
  function AfterRecords(live: Live, k: nat): Rebuilt
    requires k <= RecordCount(live)
  {
    var linear := Linear(live);
    if k == 0 then Rebuilt(Live(live.document, [], []), 0)
    else if k <= |linear| + 1 then Rebuilt(Live(live.document, linear[..k - 1], []), live.document.revision)
    else
      var j := k - 1 - |linear|;
      Rebuilt(Live(live.document, linear[..|linear| - j], live.redo[..j]), live.document.revision)
  }

  lemma RecordReplays(live: Live, k: nat)
    requires RecordCount(live) <= live.document.revision && AllCleanLive(live) && k < RecordCount(live)
    ensures ReplayRecord(AfterRecords(live, k), Compacted(live)[k], k == 0, live.document.revision)
      == Rebuild(AfterRecords(live, k + 1))
  {
    var linear := Linear(live);
    if 0 < k <= |linear| {
      assert linear[..k] == linear[..k - 1] + [linear[k - 1]];
    } else if k > |linear| {
      var j := k - |linear|;
      var stack := linear[..|linear| - (j - 1)];
      assert live.redo[..j] == live.redo[..j - 1] + [live.redo[j - 1]];
      assert Top(stack) == live.redo[j - 1] && Pop(stack) == linear[..|linear| - j];
      assert Clean(live.redo[j - 1]);
      EqualsItself(live.redo[j - 1]);
    }
  }

  lemma CompactedShape(live: Live)
    requires RecordCount(live) <= live.document.revision
    ensures LogShape(Compacted(live), live.document.revision, live.document.revision)
    ensures forall k :: 0 <= k < |Compacted(live)| ==> Compacted(live)[k].sequence <= live.document.revision
  {}

  lemma LastState(live: Live)
    ensures AfterRecords(live, RecordCount(live)) == Rebuilt(live, live.document.revision)
  {
    var linear := Linear(live);
    assert linear[..|live.undo|] == live.undo;
    assert live.redo[..|live.redo|] == live.redo;
  }

  /** The compacted journal, replayed on the snapshot at the durable revision, applies no command and rebuilds
      the document and both stacks. */
  lemma CompactedRebuildsLive(live: Live)
    requires RecordCount(live) <= live.document.revision && AllCleanLive(live)
    ensures Replay(live.document, Compacted(live)) == Rebuild(Rebuilt(live, live.document.revision))
  {
    var log, n := Compacted(live), RecordCount(live);
    var states := seq(n + 1, k requires 0 <= k <= n => AfterRecords(live, k));
    forall k | 0 <= k < n ensures ReplayRecord(states[k], log[k], k == 0, live.document.revision)
      == Rebuild(states[k + 1]) {
      RecordReplays(live, k);
    }
    assert states[0] == Rebuilt(Live(live.document, [], []), 0);
    ReplayThrough(live.document, log, live.document.revision, states, n);
    LastState(live);
    ReplayEnds(live.document, log, Rebuilt(live, live.document.revision));
  }

  lemma ReplayEnds(d: SessionDocument, log: seq<Logged>, s: Rebuilt)
    requires log != [] && log[|log| - 1].sequence == d.revision
    requires ReplayAll(d, log[..|log|], d.revision) == Rebuild(s)
    ensures Replay(d, log) == Rebuild(s)
  {
    assert log[..|log|] == log;
  }

  /** A checkpoint makes the session faithful to the compacted journal, with the durable revision as baseline. */
  lemma CheckpointKeepsFaithful(live: Live, log: seq<Logged>, baseline: u64, documents: map<int, SessionDocument>)
    requires Faithful(live, log, baseline, documents) && RecordCount(live) <= live.document.revision
    ensures Faithful(live, Compacted(live), live.document.revision, documents)
  {
    CompactedRebuildsLive(live);
    CompactedShape(live);
    assert Rebuilds(documents, live.document.revision, Compacted(live), live, live.document.revision);
  }

  /** A journal holding only its baseline, on the document it names. */
  lemma FreshIsFaithful(d: SessionDocument)
    requires d.revision != 0
    ensures Faithful(Live(d, [], []), [Logged(d.revision, Baseline(d.revision))], d.revision,
      map[d.revision as int := d])
    ensures RecordCount(Live(d, [], [])) <= d.revision
  {
    var log := [Logged(d.revision, Baseline(d.revision))];
    assert log[..0] == [];
    assert ReplayAll(d, log, d.revision) == Rebuild(Rebuilt(Live(d, [], []), d.revision));
    assert Rebuilds(map[d.revision as int := d], d.revision, log, Live(d, [], []), d.revision);
  }

  /** Each action costs at most one record and raises the revision by one, so the compacted history always
      fits: the "cannot fit" refusal of a checkpoint is unreachable. */
  lemma ActionsKeepRoom(live: Live, action: Action, e: HistoryEntry)
    requires Moves(action, e, live.undo, live.redo) && ApplyStatus(live.document, CommandOf(action, e)) == Applied
    requires RecordCount(live) <= live.document.revision
    ensures RecordCount(Act(live, action, e)) <= Act(live, action, e).document.revision
  {}
}
