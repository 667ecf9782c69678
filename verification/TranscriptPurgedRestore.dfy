/** Restoring on both sides of a purge: which run terminals each of the two restores appends. */
module TranscriptPurgedRestore {
  import opened Wrappers
  import opened Transcript
  import opened TranscriptInvariant
  import opened TranscriptRepair
  import opened TranscriptResume
  import opened TranscriptRestore
  import opened TranscriptPurge

  // ---------------------------------------------------------------- the terminals of a repair

  /** The draft is the terminal that a repair has for the run. */
  ghost predicate Terminal(s: Scan, run: Id, d: Draft)
    requires Typed(s)
  {
    && run in s.latestOrigins
    && if RepairsOpenRun(s) && run == s.openTurn.value.coordinate.runId then d == CloseDraft(s, run, s.openTurn.value.coordinate)
       else Closable(s, OwnRun(s), PendingOperation(s), run) && d == CloseDraft(s, run, s.lastClosed[run].coordinate)
  }

  lemma {:induction false} ClosesMember(s: Scan, repaired: set<Id>, pendingOperation: Option<Id>, i: nat, d: Draft)
    requires Typed(s) && i <= |s.originOrder|
    ensures d in RunCloses(s, repaired, pendingOperation, i)
            <==> exists k :: i <= k < |s.originOrder| && Closable(s, repaired, pendingOperation, s.originOrder[k])
                             && d == CloseDraft(s, s.originOrder[k], s.lastClosed[s.originOrder[k]].coordinate)
    decreases |s.originOrder| - i
  {
    hide CloseDraft;
    if i < |s.originOrder| { ClosesMember(s, repaired, pendingOperation, i + 1, d); }
  }

  lemma {:induction false} ResultsCloseNothing(coordinate: Coordinate, calls: seq<OpenToolCall>, recovery: Recovery, d: Draft)
    ensures d in ResultDrafts(coordinate, calls, recovery) ==> !d.body.RunClosed?
  {
    if calls != [] { ResultsCloseNothing(coordinate, calls[1..], recovery, d); }
  }

  /** The results and the closure that a repair has for the open turn. */
  function TurnPart(s: Scan, recovery: Recovery): seq<Draft> {
    if s.openTurn.Some? && !Pending(s) then TurnRepair(s.openTurn.value, recovery) else []
  }

  lemma RepairMember(stream: StreamKey, s: Scan, recovery: Recovery, d: Draft)
    requires Coherent(stream, s) && Typed(s)
    ensures d in Repair(s, recovery)
            <==> (if d.body.RunClosed? then Terminal(s, d.coordinate.runId, d) else d in TurnPart(s, recovery))
  {
    hide TurnCoherent, OriginCoherent, RunCloses, ResultDrafts, Pending, PendingOperation, RepairsOpenRun;
    var closes := RunCloses(s, OwnRun(s), PendingOperation(s), 0);
    ClosesMember(s, OwnRun(s), PendingOperation(s), 0, d);
    if s.openTurn.Some? { ResultsCloseNothing(s.openTurn.value.coordinate, s.openTurn.value.toolCalls, recovery, d); }
    OwnRunOpened(s);
    assert Repair(s, recovery) == TurnPart(s, recovery) + OwnClose(s) + closes;
    if d.body.RunClosed? && Terminal(s, d.coordinate.runId, d) {
      assert d.coordinate.runId in s.originOrder;
    }
  }

  lemma OwnRunOpened(s: Scan)
    ensures RepairsOpenRun(s) ==> s.openTurn.Some? && s.openTurn.value.coordinate.runId in s.latestOrigins
  {}

  // ---------------------------------------------------------------- the two scans

  lemma StepClosures(stream: StreamKey, s: Scan, r: Record)
    requires Step(stream, s, r).Ok?
    ensures var s' := Step(stream, s, r).value;
      s'.closedRuns == s.closedRuns + (if r.body.RunClosed? then {r.coordinate.runId} else {})
    ensures r.body.DeferredOpened? ==> r.coordinate.runId !in s.closedRuns
  {
    hide FoldRecord, TerminalFits;
  }

  /** Which runs a scan has seen closed. */
  lemma {:induction false} ClosuresSeen(stream: StreamKey, log: seq<Record>, run: Id)
    requires ScanLog(stream, log).Ok?
    ensures run in ScanLog(stream, log).value.closedRuns
            <==> exists k :: 0 <= k < |log| && log[k].body.RunClosed? && log[k].coordinate.runId == run
  {
    hide Step;
    if log != [] {
      var front := log[..|log| - 1];
      ClosuresSeen(stream, front, run);
      StepClosures(stream, ScanLog(stream, front).value, log[|log| - 1]);
    }
  }

  lemma OpenedBeforeClosed(stream: StreamKey, log: seq<Record>, k: nat, j: nat)
    requires ScanLog(stream, log).Ok? && k < |log| && j < |log|
    requires log[k].body.DeferredOpened? && log[j].body.RunClosed? && log[k].coordinate.runId == log[j].coordinate.runId
    ensures k < j
  {
    hide Step, ScanLog;
    ScanPrefix(stream, log, k);
    ScanPrefix(stream, log, k + 1);
    ScanNext(stream, log, k);
    StepClosures(stream, ScanLog(stream, log[..k]).value, log[k]);
    ClosuresSeen(stream, log[..k], log[k].coordinate.runId);
    assert forall i :: 0 <= i < k ==> log[..k][i] == log[i];
  }

  /** A closed run that opened work in the retained part was closed there. */
  lemma SeesClosures(stream: StreamKey, log: seq<Record>, from: nat, run: Id)
    requires from <= |log| && ScanLog(stream, log).Ok? && ScanLog(stream, log[from..]).Ok?
    requires run in ScanLog(stream, log).value.closedRuns && run in ScanLog(stream, log[from..]).value.latestOrigins
    ensures run in ScanLog(stream, log[from..]).value.closedRuns
  {
    hide ScanLog;
    var part := log[from..];
    OriginsSeen(stream, part, run);
    ClosuresSeen(stream, log, run);
    ClosuresSeen(stream, part, run);
    var k :| 0 <= k < |part| && part[k].body.DeferredOpened? && part[k].coordinate.runId == run;
    var j :| 0 <= j < |log| && log[j].body.RunClosed? && log[j].coordinate.runId == run;
    OpenedBeforeClosed(stream, log, from + k, j);
    assert part[j - from] == log[j];
  }

  /** What the two scans share about a run that the cut scan saw opened. */
  ghost predicate SharesRun(full: Scan, cut: Scan, run: Id) {
    && cut.openTurn == full.openTurn
    && run in cut.latestOrigins && run in full.latestOrigins && cut.latestOrigins[run] == full.latestOrigins[run]
    && (run in full.closedRuns <==> run in cut.closedRuns)
    && (run in cut.lastClosed ==> run in full.lastClosed && full.lastClosed[run] == cut.lastClosed[run])
    && (run !in cut.lastClosed ==> OpenRun(cut, run))
    && var op := cut.latestOrigins[run].body;
    && op.DeferredOpened?
    && (op.operationId in full.settlements <==> op.operationId in cut.settlements)
    && (op.operationId in cut.settlements ==> full.settlements[op.operationId] == cut.settlements[op.operationId])
    && (OpenRun(cut, run) && cut.openTurn.value.deferred.Some? ==> cut.openTurn.value.deferred.value.0 == cut.latestOrigins[run])
  }

  lemma RunShared(stream: StreamKey, full: Scan, cut: Scan, run: Id)
    requires Coherent(stream, cut) && Tracks(full, cut)
    requires run in cut.latestOrigins && (run in full.closedRuns ==> run in cut.closedRuns)
    ensures SharesRun(full, cut, run)
  {
    hide TurnOk, ClosuresCoherent, PendingTurn;
    assert OriginCoherent(cut, run);
  }

  /** Both repairs treat such a run alike. */
  lemma SameTerminal(full: Scan, cut: Scan, run: Id, d: Draft)
    requires Typed(full) && Typed(cut) && SharesRun(full, cut, run)
    ensures Terminal(full, run, d) <==> Terminal(cut, run, d)
  {}

  // ---------------------------------------------------------------- the result

  /** A restore of the cut log appends the records that a restore of the whole log does, without the terminals of runs that
      opened no deferred work behind the checkpoint. */
  lemma RestoreAcrossPurge(stream: StreamKey, log: seq<Record>, checkpoint: nat, recovery: Recovery, d: Draft)
    requires Cuttable(stream, log, checkpoint) && Accepted(stream, log[checkpoint - 1..])
    ensures d in RepairOf(stream, log[checkpoint - 1..], recovery)
            <==> (d in RepairOf(stream, log, recovery)
                  && (d.body.RunClosed? ==> OpensBetween(log, checkpoint, |log|, d.coordinate.runId)))
  {
    hide Step, ScanLog, Coherent, Typed, Repair, Terminal, OpensBetween, Tracks, SharesRun;
    var full, cut := CommittedScan(stream, log).value, CommittedScan(stream, log[checkpoint - 1..]).value;
    var run := d.coordinate.runId;
    AcceptedScan(stream, log);
    AcceptedScan(stream, log[checkpoint - 1..]);
    RepairMember(stream, full, recovery, d);
    RepairMember(stream, cut, recovery, d);
    PurgeKeepsHead(stream, log, checkpoint);
    SameTurn(full, cut, recovery);
    if d.body.RunClosed? {
      SeenBehind(stream, log, checkpoint, run);
      if run in cut.latestOrigins {
        if run in full.closedRuns { SeesClosures(stream, log, checkpoint - 1, run); }
        RunShared(stream, full, cut, run);
        SameTerminal(full, cut, run, d);
      } else {
        NoTerminal(cut, run, d);
      }
    }
  }

  lemma NoTerminal(s: Scan, run: Id, d: Draft)
    requires Typed(s) && run !in s.latestOrigins
    ensures !Terminal(s, run, d)
  {}

  lemma SameTurn(full: Scan, cut: Scan, recovery: Recovery)
    requires Tracks(full, cut)
    ensures TurnPart(full, recovery) == TurnPart(cut, recovery)
  {}

  /** The retained records start with a closed turn and the checkpoint, which open nothing. */
  lemma SeenBehind(stream: StreamKey, log: seq<Record>, checkpoint: nat, run: Id)
    requires Cuttable(stream, log, checkpoint) && Accepted(stream, log[checkpoint - 1..])
    ensures run in CommittedScan(stream, log[checkpoint - 1..]).value.latestOrigins <==> OpensBetween(log, checkpoint, |log|, run)
  {
    hide Step, ScanLog;
    var part := log[checkpoint - 1..];
    SourceCloses(stream, log, checkpoint);
    OriginsSeen(stream, part, run);
    forall k | 0 <= k < |part| && part[k].body.DeferredOpened? && part[k].coordinate.runId == run
      ensures OpensBetween(log, checkpoint, |log|, run)
    {
      assert part[k] == log[checkpoint - 1 + k] && k != 0 && k != 1;
    }
    if OpensBetween(log, checkpoint, |log|, run) {
      var k :| checkpoint < k < |log| && log[k].body.DeferredOpened? && log[k].coordinate.runId == run;
      assert part[k - (checkpoint - 1)] == log[k];
    }
  }
}
