/** Restoring while a provider operation is pending: when it is safe, and a log that it makes unreadable. */
module TranscriptPending {
  import opened Wrappers
  import opened Transcript
  import opened TranscriptInvariant
  import opened TranscriptRepair
  import opened TranscriptResume
  import opened TranscriptRestore

  /** Some run other than the pending one has ended without its terminal record. */
  ghost predicate Unterminated(s: Scan)
    requires Typed(s)
  {
    exists run :: run in s.originOrder && Closable(s, {}, PendingOperation(s), run)
  }

  lemma {:induction false} NoUnterminated(s: Scan, pendingOperation: Option<Id>, i: nat)
    requires Typed(s) && i <= |s.originOrder|
    ensures RunCloses(s, {}, pendingOperation, i) == []
            <==> forall k :: i <= k < |s.originOrder| ==> !Closable(s, {}, pendingOperation, s.originOrder[k])
    ensures RunCloses(s, {}, pendingOperation, i) != [] ==> RunCloses(s, {}, pendingOperation, i)[0].body.RunClosed?
    decreases |s.originOrder| - i
  {
    if i < |s.originOrder| { NoUnterminated(s, pendingOperation, i + 1); }
  }

  lemma PendingRepair(s: Scan, recovery: Recovery)
    requires Typed(s) && Pending(s)
    ensures Repair(s, recovery) == RunCloses(s, {}, PendingOperation(s), 0)
    ensures Repair(s, recovery) == [] <==> !Unterminated(s)
    ensures Repair(s, recovery) != [] ==> Repair(s, recovery)[0].body.RunClosed?
  {
    hide RunCloses, Closable;
    NoUnterminated(s, PendingOperation(s), 0);
    assert forall run :: run in s.originOrder <==> exists k :: 0 <= k < |s.originOrder| && s.originOrder[k] == run;
  }

  lemma NoTerminalInOpenTurn(stream: StreamKey, s: Scan, r: Record)
    requires s.openTurn.Some? && s.count >= 1 && r.body.RunClosed?
    ensures Step(stream, s, r).Err?
  {
    hide TerminalFits;
  }

  /** Restore keeps a log readable exactly when no provider operation is pending or no other run lacks its terminal:
      otherwise it appends a run terminal inside the open turn, and no later scan accepts the log. */
  lemma RestoreKeepsReadable(stream: StreamKey, log: seq<Record>, recovery: Recovery, ids: seq<Id>, budget: nat)
    requires Accepted(stream, log) && budget >= 1
    requires |RepairOf(stream, log, recovery)| <= |ids|
    requires FreshIds(ids[..|RepairOf(stream, log, recovery)|], CommittedScan(stream, log).value.recordIds)
    ensures Typed(CommittedScan(stream, log).value)
    ensures Accepted(stream, AfterRestore(stream, log, recovery, ids, budget))
            <==> !(Pending(CommittedScan(stream, log).value) && Unterminated(CommittedScan(stream, log).value))
  {
    hide Coherent, Step, Typed, Pending, Unterminated, FreshIds, Repair;
    var s := CommittedScan(stream, log).value;
    AcceptedScan(stream, log);
    if !Pending(s) {
      AttemptLeaves(stream, log, Attempt(recovery, ids, budget));
    } else {
      PendingRepair(s, recovery);
      var drafts := Repair(s, recovery);
      if drafts == [] {
        SettledRestore(stream, log, recovery, ids, budget);
      } else {
        StrandsLog(stream, log, PrepareAll(s.expected, drafts[..Min(budget, |drafts|)], ids));
      }
    }
  }

  lemma StrandsLog(stream: StreamKey, log: seq<Record>, records: seq<Record>)
    requires Accepted(stream, log) && Pending(CommittedScan(stream, log).value)
    requires records != [] && records[0].body.RunClosed?
    ensures !Accepted(stream, log + records)
  {
    hide Step;
    ScanAppends(stream, log, records);
    ScanCounts(stream, log);
    NoTerminalInOpenTurn(stream, ScanLog(stream, log).value, records[0]);
  }

  // ---------------------------------------------------------------- such a log

  const FIRST := Coordinate("session", "actor", "first", 1)
  const SECOND := Coordinate("session", "actor", "second", 1)
  const STREAM := StreamKey("session", "actor")

  const OPENED := Record("r1", 1, FIRST, DeferredOpened("op1", "in1", "api", "provider", "model"))
  const ABANDONED := Record("r2", 2, FIRST, DeferredAbandoned("op1", "r1"))
  const CLOSED := Record("r3", 3, FIRST, TurnClosed(TurnInterrupted))
  const REOPENED := Record("r4", 4, SECOND, DeferredOpened("op2", "in2", "api", "provider", "model"))

  /** A run whose operation was abandoned and whose turn closed, then another run's operation. */
  const STRANDED := [OPENED, ABANDONED, CLOSED, REOPENED]

  function TurnOf(coordinate: Coordinate, origin: Record, status: DeferredStatus): OpenTurn {
    OpenTurn(coordinate, false, None, None, [], Some((origin, status)))
  }

  function AfterOpened(): Scan {
    var s := EmptyScan;
    Entered(s, "r1").(openTurn := Some(TurnOf(FIRST, OPENED, DeferredPending)), previous := Some(OPENED),
                      deferredOrigins := s.deferredOrigins + {"op1"},
                      latestOrigins := s.latestOrigins["first" := OPENED], originOrder := s.originOrder + ["first"])
  }

  function AfterAbandoned(): Scan {
    var s := AfterOpened();
    Entered(s, "r2").(openTurn := Some(TurnOf(FIRST, OPENED, DeferredGivenUp)), previous := Some(ABANDONED),
                      settlements := s.settlements["op1" := SettledAbandoned])
  }

  function AfterClosed(): Scan {
    var s := AfterAbandoned();
    Entered(s, "r3").(openTurn := None, previous := Some(CLOSED),
                      lastClosed := s.lastClosed["first" := ClosedTurn(FIRST, TurnInterrupted, None)])
  }

  function AfterReopened(): Scan {
    var s := AfterClosed();
    Entered(s, "r4").(openTurn := Some(TurnOf(SECOND, REOPENED, DeferredPending)), previous := Some(REOPENED),
                      deferredOrigins := s.deferredOrigins + {"op2"},
                      latestOrigins := s.latestOrigins["second" := REOPENED], originOrder := s.originOrder + ["second"])
  }

  lemma StepOpened()
    ensures Step(STREAM, EmptyScan, OPENED) == Ok(AfterOpened())
  {
    hide FirstUnanswered, FindCall, OpenToolCalls, Balanced;
  }

  lemma StepAbandoned()
    ensures Step(STREAM, AfterOpened(), ABANDONED) == Ok(AfterAbandoned())
  {
    hide FirstUnanswered, FindCall, OpenToolCalls, Balanced;
  }

  lemma StepClosed()
    ensures Step(STREAM, AfterAbandoned(), CLOSED) == Ok(AfterClosed())
  {
    hide FindCall, OpenToolCalls, Balanced;
  }

  lemma StepReopened()
    ensures Step(STREAM, AfterClosed(), REOPENED) == Ok(AfterReopened())
  {
    hide FirstUnanswered, FindCall, OpenToolCalls, Balanced;
  }

  lemma StrandedScan()
    ensures CommittedScan(STREAM, STRANDED) == Ok(AfterReopened())
  {
    hide ScanLog, Step, AfterOpened, AfterAbandoned, AfterClosed;
    ScanNothing(STREAM);
    StepOpened();
    ScanPush(STREAM, [], OPENED);
    StepAbandoned();
    ScanPush(STREAM, [] + [OPENED], ABANDONED);
    StepClosed();
    ScanPush(STREAM, [] + [OPENED] + [ABANDONED], CLOSED);
    StepReopened();
    ScanPush(STREAM, [] + [OPENED] + [ABANDONED] + [CLOSED], REOPENED);
    assert [] + [OPENED] + [ABANDONED] + [CLOSED] + [REOPENED] == STRANDED;
    NotRetained();
  }

  lemma NotRetained()
    ensures !AfterReopened().retained
  {}

  lemma StrandedShape()
    ensures var s := AfterReopened();
      && Typed(s) && Pending(s) && s.originOrder == ["first", "second"]
      && Closable(s, {}, PendingOperation(s), "first") && !Closable(s, {}, PendingOperation(s), "second")
  {}

  lemma StrandedRepair(recovery: Recovery)
    ensures Typed(AfterReopened()) && Pending(AfterReopened()) && |Repair(AfterReopened(), recovery)| == 1
  {
    StrandedShape();
    hide AfterReopened, Closable, Pending, Typed, CloseDraft;
    var s := AfterReopened();
    PendingRepair(s, recovery);
    assert RunCloses(s, {}, PendingOperation(s), 2) == [];
    assert RunCloses(s, {}, PendingOperation(s), 1) == [];
  }

  /** An accepted log that a single restore makes unreadable. */
  lemma RestoreCanStrand(recovery: Recovery, id: Id)
    requires id !in {"r1", "r2", "r3", "r4"}
    ensures Accepted(STREAM, STRANDED) && !Accepted(STREAM, AfterRestore(STREAM, STRANDED, recovery, [id], 1))
  {
    hide AfterRestore, CommittedScan, Repair, Step, Typed, Pending, Unterminated;
    StrandedScan();
    StrandedRepair(recovery);
    assert [id][..1] == [id];
    assert FreshIds([id], AfterReopened().recordIds);
    PendingRepair(AfterReopened(), recovery);
    RestoreKeepsReadable(STREAM, STRANDED, recovery, [id], 1);
  }
}
