/** Cutting a log before a checkpoint: when the rest is still accepted, and that it then replays the same. */
module TranscriptPurge {
  import opened Wrappers
  import opened Transcript
  import opened TranscriptInvariant
  import opened TranscriptResume
  import opened TranscriptRestore

  /** materializeRevision: the messages and checkpoint as of one revision of an accepted log. The source record that a
      retained log starts with is no revision that can be asked for. */
  function Materialize(stream: StreamKey, log: seq<Record>, revision: nat): Option<(seq<Message>, Option<nat>)> {
    if !Accepted(stream, log) || log == [] || revision < log[0].sequence || revision - log[0].sequence >= |log|
       || (log[0].sequence > 1 && revision == log[0].sequence) then None
    else match ScanLog(stream, log[..revision - log[0].sequence + 1])
      case Err(_) => None
      case Ok(s) => Some((s.messages, s.checkpointRevision))
  }

  // ---------------------------------------------------------------- what the cut scan still knows

  ghost predicate SubMap<K, V>(m: map<K, V>, n: map<K, V>) {
    forall k :: k in m ==> k in n && m[k] == n[k]
  }

  /** The cut scan agrees on everything that is replayed and knows a part of the deferred work. */
  ghost predicate Agrees(full: Scan, cut: Scan) {
    && cut.openTurn == full.openTurn && cut.messages == full.messages && cut.expected == full.expected
    && cut.previous == full.previous && cut.checkpointRevision == full.checkpointRevision
  }

  ghost predicate Knows(full: Scan, cut: Scan) {
    && cut.recordIds <= full.recordIds && cut.deferredOrigins <= full.deferredOrigins && cut.closedRuns <= full.closedRuns
    && SubMap(cut.latestOrigins, full.latestOrigins) && SubMap(cut.settlements, full.settlements)
    && SubMap(cut.lastClosed, full.lastClosed)
  }

  /** A settlement the cut scan misses is one of an operation it never saw opened. */
  ghost predicate SeesSettlements(full: Scan, cut: Scan) {
    forall op :: op in cut.deferredOrigins && op in full.settlements ==> op in cut.settlements
  }

  ghost predicate Tracks(full: Scan, cut: Scan) {
    Agrees(full, cut) && Knows(full, cut) && SeesSettlements(full, cut)
  }

  /** The only record that the cut scan may reject is a terminal of a run it never saw opened. */
  ghost predicate Accountable(cut: Scan, r: Record) {
    r.body.RunClosed? ==> r.coordinate.runId in cut.latestOrigins
  }

  lemma TerminalFitsCut(stream: StreamKey, full: Scan, cut: Scan, r: Record)
    requires Coherent(stream, full) && Coherent(stream, cut) && Tracks(full, cut) && r.body.RunClosed?
    requires TerminalFits(full, r) && full.openTurn.None?
    ensures TerminalFits(cut, r) <==> Accountable(cut, r)
  {
    hide TurnCoherent, ClosuresCoherent;
    if r.coordinate.runId in cut.latestOrigins { assert OriginCoherent(cut, r.coordinate.runId); }
  }

  lemma SubMapUpdate<K, V>(m: map<K, V>, n: map<K, V>, k: K, v: V)
    requires SubMap(m, n)
    ensures SubMap(m[k := v], n[k := v])
  {}

  lemma OpenedCut(stream: StreamKey, full: Scan, cut: Scan, r: Record)
    requires Coherent(stream, full) && Tracks(full, cut) && r.body.DeferredOpened? && TrackOpened(full, r).Ok?
    ensures TrackOpened(cut, r).Ok? && Tracks(TrackOpened(full, r).value, TrackOpened(cut, r).value)
  {
    hide TurnCoherent, ClosuresCoherent, OriginCoherent, SubMap;
    SubMapUpdate(cut.latestOrigins, full.latestOrigins, r.coordinate.runId, r);
  }

  lemma SettledCut(full: Scan, cut: Scan, op: Id, how: Settled)
    requires Tracks(full, cut)
    ensures Tracks(full.(settlements := full.settlements[op := how]), cut.(settlements := cut.settlements[op := how]))
  {
    hide SubMap;
    SubMapUpdate(cut.settlements, full.settlements, op, how);
  }

  lemma ClosedCut(full: Scan, cut: Scan, r: Record)
    requires Tracks(full, cut) && r.body.RunClosed?
    requires Track(full, r).Ok? && Track(cut, r).Ok?
    ensures Tracks(Track(full, r).value, Track(cut, r).value)
  {
    hide SubMap, TerminalFits;
  }

  lemma CheckpointCut(full: Scan, cut: Scan, revision: Option<nat>)
    requires Tracks(full, cut)
    ensures Tracks(full.(checkpointRevision := revision), cut.(checkpointRevision := revision))
  {
    hide SubMap;
  }

  lemma TrackCut(stream: StreamKey, full: Scan, cut: Scan, r: Record)
    requires Coherent(stream, full) && Coherent(stream, cut) && Tracks(full, cut)
    requires Track(full, r).Ok? && (r.body.RunClosed? ==> full.openTurn.None?)
    ensures Track(cut, r).Ok? <==> Accountable(cut, r)
    ensures Track(cut, r).Ok? ==> Tracks(Track(full, r).value, Track(cut, r).value)
  {
    hide Coherent, Knows, SeesSettlements, TerminalFits, TrackOpened;
    if r.body.RunClosed? {
      TerminalFitsCut(stream, full, cut, r);
      if TerminalFits(cut, r) { ClosedCut(full, cut, r); }
    } else if r.body.DeferredOpened? {
      OpenedCut(stream, full, cut, r);
    } else if r.body.DeferredCompleted? {
      SettledCut(full, cut, r.body.operationId, SettledCompleted);
    } else if r.body.DeferredAbandoned? {
      SettledCut(full, cut, r.body.operationId, SettledAbandoned);
    } else if r.body.Checkpoint? {
      CheckpointCut(full, cut, Some(r.sequence));
    }
  }

  lemma FinishCut(full: Scan, cut: Scan, r: Record, closing: Option<OpenTurn>, folded: Folded)
    requires Tracks(full, cut)
    ensures Tracks(Finish(full, r, closing, folded), Finish(cut, r, closing, folded))
  {}

  lemma AbsorbCut(stream: StreamKey, full: Scan, cut: Scan, r: Record)
    requires Coherent(stream, full) && Coherent(stream, cut) && Tracks(full, cut) && WellFormed(r)
    requires Absorb(full, r).Ok?
    ensures Absorb(cut, r).Ok? <==> Accountable(cut, r)
    ensures Absorb(cut, r).Ok? ==> Tracks(Absorb(full, r).value, Absorb(cut, r).value)
  {
    hide Coherent, Track, FoldIntoTurn, FoldTurnClosed, ExactBoundary, Finish, SeesSettlements;
    TrackCut(stream, full, cut, r);
    if Track(cut, r).Ok? {
      FinishCut(Track(full, r).value, Track(cut, r).value, r, full.openTurn, FoldRecord(r, full.openTurn, full.messages, full.previous).value);
    }
  }

  lemma StepCut(stream: StreamKey, full: Scan, cut: Scan, r: Record)
    requires Coherent(stream, full) && Coherent(stream, cut) && Tracks(full, cut)
    requires full.count >= 2 && cut.count >= 2 && Step(stream, full, r).Ok?
    ensures Step(stream, cut, r).Ok? <==> Accountable(cut, r)
    ensures Step(stream, cut, r).Ok? ==> Tracks(Step(stream, full, r).value, Step(stream, cut, r).value)
  {
    hide Coherent, Absorb;
    StepIsAbsorb(stream, full, r);
    StepIsAbsorb(stream, cut, r);
    SameCoherence(stream, full, Entered(full, r.recordId));
    SameCoherence(stream, cut, Entered(cut, r.recordId));
    AbsorbCut(stream, Entered(full, r.recordId), Entered(cut, r.recordId), r);
  }

  // ---------------------------------------------------------------- whole logs

  /** Every run terminal behind the checkpoint and before position n closes a run that also opened deferred work in
      between. */
  ghost predicate ClosesRetainedRuns(log: seq<Record>, checkpoint: nat, n: nat)
    requires n <= |log|
  {
    forall j {:trigger log[j]} :: checkpoint < j < n && log[j].body.RunClosed? ==>
      OpensBetween(log, checkpoint, j, log[j].coordinate.runId)
  }

  ghost predicate OpensBetween(log: seq<Record>, from: nat, to: nat, run: Id)
    requires to <= |log|
  {
    exists k :: from < k < to && log[k].body.DeferredOpened? && log[k].coordinate.runId == run
  }

  lemma {:induction false} ScanPrefix(stream: StreamKey, log: seq<Record>, n: nat)
    requires n <= |log| && ScanLog(stream, log).Ok?
    ensures ScanLog(stream, log[..n]).Ok?
  {
    hide Step;
    if ScanLog(stream, log[..n]).Err? { ScanStopsAt(stream, log, n); }
  }

  lemma ScanNext(stream: StreamKey, log: seq<Record>, n: nat)
    requires n < |log| && ScanLog(stream, log[..n]).Ok?
    ensures ScanLog(stream, log[..n + 1]) == Step(stream, ScanLog(stream, log[..n]).value, log[n])
  {
    hide Step;
    assert log[..n + 1][..n] == log[..n];
  }

  lemma {:induction false} Sequences(stream: StreamKey, log: seq<Record>, i: nat)
    requires ScanLog(stream, log).Ok? && i < |log|
    ensures log[i].sequence == log[0].sequence + i
  {
    hide Step;
    if i > 0 {
      Sequences(stream, log, i - 1);
      ScanPrefix(stream, log, i);
      ScanPrefix(stream, log, i + 1);
      ScanCounts(stream, log[..i]);
      ScanNext(stream, log, i);
      StepNumbers(stream, ScanLog(stream, log[..i]).value, log[i]);
    }
  }

  lemma StepNumbers(stream: StreamKey, s: Scan, r: Record)
    requires s.count >= 1 && Step(stream, s, r).Ok?
    ensures r.sequence == s.expected
  {
    hide Absorb;
  }

  /** Which runs a scan has seen open deferred work. */
  lemma {:induction false} OriginsSeen(stream: StreamKey, log: seq<Record>, run: Id)
    requires ScanLog(stream, log).Ok?
    ensures run in ScanLog(stream, log).value.latestOrigins
            <==> exists k :: 0 <= k < |log| && log[k].body.DeferredOpened? && log[k].coordinate.runId == run
  {
    hide Step;
    if log != [] {
      var front := log[..|log| - 1];
      OriginsSeen(stream, front, run);
      StepOrigins(stream, ScanLog(stream, front).value, log[|log| - 1]);
    }
  }

  lemma StepOrigins(stream: StreamKey, s: Scan, r: Record)
    requires Step(stream, s, r).Ok?
    ensures var s' := Step(stream, s, r).value;
      s'.latestOrigins.Keys == s.latestOrigins.Keys + (if r.body.DeferredOpened? then {r.coordinate.runId} else {})
  {
    hide FoldRecord, TerminalFits;
  }

  /** A log and the position of a checkpoint in it. A log whose first record is a checkpoint's source is a retained one. */
  ghost predicate Cuttable(stream: StreamKey, log: seq<Record>, checkpoint: nat) {
    && Accepted(stream, log) && 1 <= checkpoint < |log| && log[checkpoint].body.Checkpoint? && log[0].sequence >= 1
  }

  lemma BoundaryFolds(s: Scan, r: Record)
    requires r.body.Checkpoint? && WellFormed(r) && Absorb(s, r).Ok?
    ensures s.openTurn.None? && s.previous.Some? && ExactBoundary(r, s.previous.value)
    ensures Absorb(s, r).value == s.(checkpointRevision := Some(r.sequence), messages := r.body.replacement, previous := Some(r))
  {
    hide Balanced;
  }

  function CutSource(source: Record): Scan {
    EmptyScan.(count := 1, expected := source.sequence + 1, retained := true, recordIds := {} + {source.recordId}, previous := Some(source))
  }

  function CutState(source: Record, r: Record): Scan
    requires r.body.Checkpoint?
  {
    CutSource(source).(count := 2, expected := r.sequence + 1, recordIds := {} + {source.recordId} + {r.recordId},
                       checkpointRevision := Some(r.sequence), messages := r.body.replacement, previous := Some(r))
  }

  lemma CutPair(stream: StreamKey, source: Record, r: Record)
    requires r.body.Checkpoint? && WellFormed(r) && ExactBoundary(r, source) && source.sequence > 1
    requires StreamOf(r.coordinate) == stream && r.recordId != source.recordId
    ensures ScanLog(stream, [source, r]) == Ok(CutState(source, r))
  {
    hide Step, CutSource, CutState, ScanLog, ExactBoundary;
    ScanNothing(stream);
    CutSourceStep(stream, source, r);
    ScanPush(stream, [], source);
    CutCheckpointStep(stream, source, r);
    ScanPush(stream, [] + [source], r);
    assert [] + [source] + [r] == [source, r];
  }

  lemma CutSourceStep(stream: StreamKey, source: Record, r: Record)
    requires r.body.Checkpoint? && ExactBoundary(r, source) && source.sequence > 1 && StreamOf(r.coordinate) == stream
    ensures Step(stream, EmptyScan, source) == Ok(CutSource(source))
  {
    hide Balanced, Absorb;
  }

  lemma CutCheckpointStep(stream: StreamKey, source: Record, r: Record)
    requires r.body.Checkpoint? && WellFormed(r) && ExactBoundary(r, source) && source.sequence > 1
    requires StreamOf(r.coordinate) == stream && r.recordId != source.recordId
    ensures Step(stream, CutSource(source), r) == Ok(CutState(source, r))
  {
    hide Balanced;
  }

  /** The cut log starts with the checkpoint and its source, and its scan agrees there. */
  lemma CutStarts(stream: StreamKey, log: seq<Record>, checkpoint: nat)
    requires Cuttable(stream, log, checkpoint) && checkpoint >= 2
    ensures ScanLog(stream, log[..checkpoint + 1]).Ok? && ScanLog(stream, log[checkpoint - 1..checkpoint + 1]).Ok?
    ensures var cut := ScanLog(stream, log[checkpoint - 1..checkpoint + 1]).value;
      cut.count == 2 && cut.retained && Tracks(ScanLog(stream, log[..checkpoint + 1]).value, cut)
  {
    hide Step, ScanLog, ExactBoundary;
    var source, r := log[checkpoint - 1], log[checkpoint];
    ScanPrefix(stream, log, checkpoint);
    ScanPrefix(stream, log, checkpoint + 1);
    ScanNext(stream, log, checkpoint);
    ScanCounts(stream, log[..checkpoint]);
    var s := ScanLog(stream, log[..checkpoint]).value;
    CheckpointStep(stream, s, r);
    Sequences(stream, log, checkpoint - 1);
    Sequences(stream, log, checkpoint);
    SourceId(stream, log[..checkpoint], s);
    CutPair(stream, source, r);
    assert log[checkpoint - 1..checkpoint + 1] == [source, r];
  }

  lemma SourceId(stream: StreamKey, log: seq<Record>, s: Scan)
    requires log != [] && ScanLog(stream, log) == Ok(s)
    ensures log[|log| - 1].recordId in s.recordIds
  {
    hide ScanLog;
    ScanCounts(stream, log);
  }

  lemma CheckpointStep(stream: StreamKey, s: Scan, r: Record)
    requires s.count >= 2 && Step(stream, s, r).Ok? && r.body.Checkpoint?
    ensures WellFormed(r) && StreamOf(r.coordinate) == stream && r.sequence == s.expected && r.recordId !in s.recordIds
    ensures s.openTurn.None? && s.previous.Some? && ExactBoundary(r, s.previous.value)
    ensures Step(stream, s, r).value
            == Entered(s, r.recordId).(checkpointRevision := Some(r.sequence), messages := r.body.replacement, previous := Some(r))
  {
    hide Absorb, ExactBoundary;
    StepNumbers(stream, s, r);
    StepIsAbsorb(stream, s, r);
    BoundaryFolds(Entered(s, r.recordId), r);
  }

  ghost predicate ScansAlike(stream: StreamKey, log: seq<Record>, checkpoint: nat, n: nat)
    requires 1 <= checkpoint <= n <= |log|
  {
    && ScanLog(stream, log[..n]).Ok?
    && (ScanLog(stream, log[checkpoint - 1..n]).Ok? <==> ClosesRetainedRuns(log, checkpoint, n))
    && (ScanLog(stream, log[checkpoint - 1..n]).Ok? ==>
          var cut := ScanLog(stream, log[checkpoint - 1..n]).value;
          cut.retained && Tracks(ScanLog(stream, log[..n]).value, cut))
  }

  lemma AccountableByLog(stream: StreamKey, log: seq<Record>, checkpoint: nat, n: nat)
    requires Cuttable(stream, log, checkpoint) && checkpoint < n < |log|
    requires log[checkpoint - 1].body.TurnClosed? && ScanLog(stream, log[checkpoint - 1..n]).Ok?
    ensures Accountable(ScanLog(stream, log[checkpoint - 1..n]).value, log[n])
            <==> (log[n].body.RunClosed? ==> OpensBetween(log, checkpoint, n, log[n].coordinate.runId))
  {
    hide Step, ScanLog;
    var part := log[checkpoint - 1..n];
    var run := log[n].coordinate.runId;
    OriginsSeen(stream, part, run);
    forall k | 0 <= k < |part| && part[k].body.DeferredOpened? && part[k].coordinate.runId == run
      ensures OpensBetween(log, checkpoint, n, run)
    {
      assert part[k] == log[checkpoint - 1 + k] && k != 0 && k != 1;
    }
    if OpensBetween(log, checkpoint, n, run) {
      var k :| checkpoint < k < n && log[k].body.DeferredOpened? && log[k].coordinate.runId == run;
      assert part[k - (checkpoint - 1)] == log[k];
    }
  }

  lemma ClosesOneMore(log: seq<Record>, checkpoint: nat, n: nat)
    requires checkpoint < n < |log|
    ensures ClosesRetainedRuns(log, checkpoint, n + 1)
            <==> (ClosesRetainedRuns(log, checkpoint, n)
                  && (log[n].body.RunClosed? ==> OpensBetween(log, checkpoint, n, log[n].coordinate.runId)))
  {
    hide OpensBetween;
  }

  lemma SourceCloses(stream: StreamKey, log: seq<Record>, checkpoint: nat)
    requires Cuttable(stream, log, checkpoint)
    ensures log[checkpoint - 1].body.TurnClosed?
  {
    hide Step, ScanLog;
    ScanPrefix(stream, log, checkpoint);
    ScanPrefix(stream, log, checkpoint + 1);
    ScanNext(stream, log, checkpoint);
    ScanCounts(stream, log[..checkpoint]);
    CheckpointBoundary(stream, ScanLog(stream, log[..checkpoint]).value, log[checkpoint]);
  }

  lemma CheckpointBoundary(stream: StreamKey, s: Scan, r: Record)
    requires s.count >= 1 && Step(stream, s, r).Ok? && r.body.Checkpoint?
    ensures s.previous.Some? && s.previous.value.body.TurnClosed?
  {
    hide Balanced;
  }

  lemma {:induction false} CutScans(stream: StreamKey, log: seq<Record>, checkpoint: nat, n: nat)
    requires Cuttable(stream, log, checkpoint) && checkpoint >= 2 && checkpoint < n <= |log|
    ensures ScansAlike(stream, log, checkpoint, n)
  {
    hide Step, ScanLog, Coherent, Tracks, OpensBetween, Accountable;
    if n == checkpoint + 1 {
      CutStarts(stream, log, checkpoint);
    } else {
      CutScans(stream, log, checkpoint, n - 1);
      CutGrows(stream, log, checkpoint, n - 1);
    }
  }

  lemma CutGrows(stream: StreamKey, log: seq<Record>, checkpoint: nat, n: nat)
    requires Cuttable(stream, log, checkpoint) && checkpoint >= 2 && checkpoint < n < |log|
    requires ScansAlike(stream, log, checkpoint, n)
    ensures ScansAlike(stream, log, checkpoint, n + 1)
  {
    hide Step, ScanLog, Coherent, Tracks, OpensBetween, Accountable, ClosesRetainedRuns;
    var part := log[checkpoint - 1..n];
    var part' := log[checkpoint - 1..n + 1];
    assert part'[..|part|] == part;
    ScanPrefix(stream, log, n + 1);
    ScanNext(stream, log, n);
    ClosesOneMore(log, checkpoint, n);
    if ScanLog(stream, part).Err? {
      ScanStopsAt(stream, part', |part|);
    } else {
      var full, cut := ScanLog(stream, log[..n]).value, ScanLog(stream, part).value;
      SourceCloses(stream, log, checkpoint);
      AccountableByLog(stream, log, checkpoint, n);
      ScanCoherent(stream, log[..n]);
      ScanCoherent(stream, part);
      ScanCounts(stream, log[..n]);
      ScanCounts(stream, part);
      StepCut(stream, full, cut, log[n]);
      StepCounts(stream, cut, log[n]);
      assert part + [log[n]] == part';
      ScanPush(stream, part, log[n]);
    }
  }

  // ---------------------------------------------------------------- the results

  lemma TerminalOpened(stream: StreamKey, s: Scan, r: Record)
    requires s.count >= 1 && Step(stream, s, r).Ok? && r.body.RunClosed?
    ensures r.coordinate.runId in s.latestOrigins
  {
    hide FoldRecord;
  }

  /** A log that starts with the checkpoint's source saw every run it closes being opened. */
  lemma RetainedClosesRetained(stream: StreamKey, log: seq<Record>)
    requires Cuttable(stream, log, 1)
    ensures ClosesRetainedRuns(log, 1, |log|)
  {
    hide Step, ScanLog;
    SourceCloses(stream, log, 1);
    forall j | 1 < j < |log| && log[j].body.RunClosed? ensures OpensBetween(log, 1, j, log[j].coordinate.runId) {
      ScanPrefix(stream, log, j);
      ScanPrefix(stream, log, j + 1);
      ScanNext(stream, log, j);
      ScanCounts(stream, log[..j]);
      TerminalOpened(stream, ScanLog(stream, log[..j]).value, log[j]);
      OriginsSeen(stream, log[..j], log[j].coordinate.runId);
      var k :| 0 <= k < |log[..j]| && log[..j][k].body.DeferredOpened? && log[..j][k].coordinate.runId == log[j].coordinate.runId;
      assert log[k].body.DeferredOpened? && k != 0 && k != 1;
    }
  }

  /** Cutting before a checkpoint keeps the log readable exactly when every run closed behind the checkpoint also opened
      deferred work behind it. */
  lemma PurgeKeepsReadable(stream: StreamKey, log: seq<Record>, checkpoint: nat)
    requires Cuttable(stream, log, checkpoint)
    ensures Accepted(stream, log[checkpoint - 1..]) <==> ClosesRetainedRuns(log, checkpoint, |log|)
  {
    hide Step, ScanLog, ClosesRetainedRuns, Tracks;
    if checkpoint == 1 {
      assert log[0..] == log;
      RetainedClosesRetained(stream, log);
    } else {
      CutScans(stream, log, checkpoint, |log|);
      assert log[checkpoint - 1..|log|] == log[checkpoint - 1..] && log[..|log|] == log;
    }
  }

  /** A readable cut log replays every revision from the checkpoint on exactly as the whole log did. */
  lemma PurgeKeepsReplay(stream: StreamKey, log: seq<Record>, checkpoint: nat, revision: nat)
    requires Cuttable(stream, log, checkpoint) && Accepted(stream, log[checkpoint - 1..])
    requires revision >= log[checkpoint].sequence
    ensures Materialize(stream, log[checkpoint - 1..], revision) == Materialize(stream, log, revision)
  {
    hide Step, ScanLog, ClosesRetainedRuns, Knows, SeesSettlements;
    if checkpoint == 1 {
      assert log[0..] == log;
    } else {
      var cut := log[checkpoint - 1..];
      Sequences(stream, log, checkpoint);
      Sequences(stream, log, checkpoint - 1);
      if revision - log[0].sequence < |log| {
        var n := revision - log[0].sequence + 1;
        CutScans(stream, log, checkpoint, n);
        var m := revision - cut[0].sequence + 1;
        assert cut[..m] == log[checkpoint - 1..n];
        ScanPrefix(stream, cut, m);
      }
    }
  }

  /** Purging also leaves the open turn and the head where they were, and its scan knows a part of the deferred work. */
  lemma PurgeKeepsHead(stream: StreamKey, log: seq<Record>, checkpoint: nat)
    requires Cuttable(stream, log, checkpoint) && Accepted(stream, log[checkpoint - 1..])
    ensures Agrees(CommittedScan(stream, log).value, CommittedScan(stream, log[checkpoint - 1..]).value)
    ensures Tracks(CommittedScan(stream, log).value, CommittedScan(stream, log[checkpoint - 1..]).value)
  {
    hide Step, ScanLog, ClosesRetainedRuns;
    if checkpoint == 1 {
      assert log[0..] == log;
    } else {
      CutScans(stream, log, checkpoint, |log|);
      assert log[checkpoint - 1..|log|] == log[checkpoint - 1..] && log[..|log|] == log;
    }
  }
}
