/** Concrete logs: one whose resumed restore is stamped otherwise, one whose resumed restore reports its runs in another
    order, and one that a checkpoint purge makes unreadable. */
module TranscriptInputs {
  import opened Wrappers
  import opened Transcript
  import opened TranscriptInvariant
  import opened TranscriptRepair
  import opened TranscriptResume
  import opened TranscriptRestore
  import opened TranscriptOrder
  import opened TranscriptPending
  import opened TranscriptPurge

  // ---------------------------------------------------------------- two calls, two stamps

  const TWO_CALLS := [Call(ToolCall("c1", "tool", "{}")), Call(ToolCall("c2", "tool", "{}"))]
  const ASKED := AssistantMessage(TWO_CALLS, "api", "provider", "model", ToolUse, 0)

  /** An assistant message with two calls, neither of which was started. */
  const UNANSWERED := [Record("r1", 1, FIRST, MessageCompleted(ASKED))]

  function LeftCall(i: nat): OpenToolCall
    requires i < 2
  {
    OpenToolCall("r1", i, TWO_CALLS[i].call, None, false)
  }

  function AfterAsked(): Scan {
    var s := EmptyScan;
    Entered(s, "r1").(
      openTurn := Some(OpenTurn(FIRST, false, Some("r1"), Some(ToolUse), [LeftCall(0), LeftCall(1)], None)),
      messages := s.messages + [ASKED], previous := Some(UNANSWERED[0]))
  }

  lemma TwoCalls()
    ensures OpenToolCalls("r1", TWO_CALLS, 0) == [LeftCall(0), LeftCall(1)]
  {
    assert OpenToolCalls("r1", TWO_CALLS, 2) == [];
    assert OpenToolCalls("r1", TWO_CALLS, 1) == [LeftCall(1)];
  }

  lemma StepAsked()
    ensures Step(STREAM, EmptyScan, UNANSWERED[0]) == Ok(AfterAsked())
  {
    hide FirstUnanswered, FindCall, OpenToolCalls, Balanced;
    TwoCalls();
  }

  lemma UnansweredScan()
    ensures CommittedScan(STREAM, UNANSWERED) == Ok(AfterAsked())
  {
    hide ScanLog, Step;
    ScanNothing(STREAM);
    StepAsked();
    ScanPush(STREAM, [], UNANSWERED[0]);
    assert [] + [UNANSWERED[0]] == UNANSWERED;
  }

  lemma TwoLeft()
    ensures Left(AfterAsked()) == [LeftCall(0), LeftCall(1)] && !Pending(AfterAsked())
  {
    hide LeftCall;
    NeitherStarted();
    assert LeftCalls([LeftCall(0), LeftCall(1)][1..]) == [LeftCall(1)] by {
      assert [LeftCall(0), LeftCall(1)][1..] == [LeftCall(1)] && [LeftCall(1)][1..] == [];
    }
  }

  lemma NeitherStarted()
    ensures !LeftCall(0).completed && !LeftCall(1).completed && LeftCall(0).start.None? && LeftCall(1).start.None?
    ensures LeftCall(0).sourceIndex == 0 && LeftCall(1).sourceIndex == 1
  {}

  /** A restore during which the clock stands still, and whose host recovers no call. */
  function At(now: int): Recovery {
    Recovery((place: nat) => now, (start: Record, call: ToolCall) => None)
  }

  /** Two results and the turn's closure. */
  lemma ThreeRecords(recovery: Recovery)
    ensures Typed(AfterAsked()) && |Repair(AfterAsked(), recovery)| == 3
  {
    NothingToClose();
    TwoLeft();
    hide AfterAsked, Pending, Typed, Closing, Left, ResultsOf;
    RepairSplits(AfterAsked(), recovery);
  }

  lemma NothingToClose()
    ensures Typed(AfterAsked()) && AfterAsked().openTurn.Some? && |Closing(AfterAsked())| == 1
  {
    hide LeftCall;
    assert RunCloses(AfterAsked(), {}, None, 0) == [];
  }

  lemma OneAppend(a: Attempt)
    requires a.budget == 1 && |a.ids| == 3 && FreshIds(a.ids, {"r1"})
    ensures Accepted(STREAM, UNANSWERED) && Appends(STREAM, UNANSWERED, a) == 1
  {
    UnansweredScan();
    ThreeRecords(a.recovery);
    OneRecordId();
    hide CommittedScan, Repair, FreshIds, AfterAsked;
    assert a.ids[..3] == a.ids;
  }

  lemma OneRecordId()
    ensures AfterAsked().recordIds == {"r1"}
  {}

  /** A restore cut short after one append and resumed when the clock has moved on leaves results with two different
      stamps, which no restore that reads the clock once reports. */
  lemma ResumedStampsDiffer(ids: seq<Id>, first: int, second: int, any: int)
    requires first != second && |ids| == 3 && FreshIds(ids, {"r1"})
    ensures Settleable(STREAM, UNANSWERED)
    ensures var log' := AfterAttempts(STREAM, UNANSWERED, [Attempt(At(first), ids, 1)]);
      && Settleable(STREAM, log')
      && RestoreResult(STREAM, log', At(second)).messages != RestoreResult(STREAM, UNANSWERED, At(any)).messages
  {
    hide Accepted, CommittedScan, AfterAttempts, RestoreResult, Appends, Pending, FreshIds, LeftOf, Reader, Synthetic, At;
    var a := Attempt(At(first), ids, 1);
    UnansweredLeaves(At(any));
    OneAppend(a);
    ReadsFirst(a, At(second));
    Agreement(first, any);
    Agreement(second, any);
    ClocksStandStill(first, second, any);
    MessagesSameWhenReadingsAre(STREAM, UNANSWERED, [a], At(second), At(any));
    assert LeftOf(STREAM, UNANSWERED)[0] == LeftCall(0) && LeftOf(STREAM, UNANSWERED)[1] == LeftCall(1);
  }

  lemma UnansweredLeaves(recovery: Recovery)
    ensures Settleable(STREAM, UNANSWERED) && LeftOf(STREAM, UNANSWERED) == [LeftCall(0), LeftCall(1)]
    ensures Synthetic(LeftCall(0), recovery) && Synthetic(LeftCall(1), recovery)
  {
    UnansweredScan();
    TwoLeft();
    NeitherStarted();
    hide CommittedScan, LeftCall, AfterAsked, Left, Pending;
  }

  lemma Agreement(a: int, b: int)
    ensures Agree(At(a), At(b))
  {}

  lemma ClocksStandStill(first: int, second: int, any: int)
    requires first != second
    ensures !(At(first).clock(LeftCall(0).sourceIndex) == At(any).clock(LeftCall(0).sourceIndex)
              && At(second).clock(LeftCall(1).sourceIndex) == At(any).clock(LeftCall(1).sourceIndex))
  {
    hide LeftCall;
  }

  lemma ReadsFirst(a: Attempt, last: Recovery)
    requires Appends(STREAM, UNANSWERED, a) == 1
    ensures Reader(STREAM, UNANSWERED, [a], last, 0) == a.recovery && Reader(STREAM, UNANSWERED, [a], last, 1) == last
  {
    hide Appends, AfterAttempt;
    assert [a][1..] == [];
  }

  // ---------------------------------------------------------------- two runs, two orders

  const SECOND_ABANDONED := Record("r5", 5, SECOND, DeferredAbandoned("op2", "r4"))

  /** A run that ended without its terminal, and a later run whose operation was abandoned inside its open turn. */
  const TWO_RUNS := STRANDED + [SECOND_ABANDONED]

  function AfterSecondAbandoned(): Scan {
    var s := AfterReopened();
    Entered(s, "r5").(openTurn := Some(TurnOf(SECOND, REOPENED, DeferredGivenUp)), previous := Some(SECOND_ABANDONED),
                      settlements := s.settlements["op2" := SettledAbandoned])
  }

  lemma StepSecondAbandoned()
    ensures Step(STREAM, AfterReopened(), SECOND_ABANDONED) == Ok(AfterSecondAbandoned())
  {
    hide FirstUnanswered, FindCall, OpenToolCalls, Balanced;
  }

  lemma TwoRunsScan()
    ensures CommittedScan(STREAM, TWO_RUNS) == Ok(AfterSecondAbandoned())
  {
    StrandedScan();
    StepSecondAbandoned();
    SecondNotRetained();
    hide ScanLog, Step, AfterReopened, AfterSecondAbandoned;
    ScanPush(STREAM, STRANDED, SECOND_ABANDONED);
  }

  lemma SecondNotRetained()
    ensures !AfterSecondAbandoned().retained && !AfterReopened().retained
  {}

  lemma TwoRunsShape()
    ensures var s := AfterSecondAbandoned();
      && Typed(s) && !Pending(s) && s.openTurn.Some? && s.originOrder == ["first", "second"]
      && Left(s) == [] && RepairsOpenRun(s) && OwnRun(s) == {"second"}
      && Closable(s, {"second"}, None, "first")
  {}

  lemma FirstIsOvertaken()
    ensures Typed(AfterSecondAbandoned()) && Overtakes(AfterSecondAbandoned())
  {
    TwoRunsShape();
    hide AfterSecondAbandoned, Closable, Typed, RepairsOpenRun, Pending, Left, OwnRun;
    var s := AfterSecondAbandoned();
    SecondIsOpen();
    assert Place(["first", "second"], "first", 0) == 0;
    assert Earlier(s, "first");
    assert "first" in s.originOrder;
  }

  lemma SecondIsOpen()
    ensures AfterSecondAbandoned().openTurn.Some? && AfterSecondAbandoned().openTurn.value.coordinate.runId == "second"
  {}

  /** The turn's closure, then its own run's terminal, then the other run's. */
  lemma ThreeClosings(recovery: Recovery)
    ensures Typed(AfterSecondAbandoned()) && |Repair(AfterSecondAbandoned(), recovery)| == 3
    ensures AfterSecondAbandoned().recordIds == {"r1", "r2", "r3", "r4", "r5"}
  {
    TwoRunsShape();
    SecondNotDue();
    hide AfterSecondAbandoned, Closable, Typed, Pending, Left, CloseDraft, RepairsOpenRun;
    var s := AfterSecondAbandoned();
    RepairSplits(s, recovery);
    assert RunCloses(s, {"second"}, None, 2) == [];
    assert RunCloses(s, {"second"}, None, 1) == [];
    assert |RunCloses(s, {"second"}, None, 0)| == 1;
  }

  lemma SecondNotDue()
    ensures Typed(AfterSecondAbandoned()) && !Closable(AfterSecondAbandoned(), {"second"}, None, "second")
    ensures AfterSecondAbandoned().recordIds == {"r1", "r2", "r3", "r4", "r5"}
  {}

  lemma OneClosure(a: Attempt)
    requires a.budget == 1 && |a.ids| == 3 && FreshIds(a.ids, {"r1", "r2", "r3", "r4", "r5"})
    ensures Accepted(STREAM, TWO_RUNS) && Appends(STREAM, TWO_RUNS, a) == 1
  {
    TwoRunsScan();
    ThreeClosings(a.recovery);
    hide CommittedScan, Repair, FreshIds, AfterSecondAbandoned;
    assert a.ids[..3] == a.ids;
  }

  /** A restore of that log cut short behind the turn's closure reports, once resumed, the runs in another order than an
      undisturbed one. */
  lemma ResumedOrderDiffers(a: Attempt, again: Recovery, undisturbed: Recovery)
    requires a.budget == 1 && |a.ids| == 3 && FreshIds(a.ids, {"r1", "r2", "r3", "r4", "r5"})
    ensures Settleable(STREAM, TWO_RUNS) && Settleable(STREAM, AfterAttempt(STREAM, TWO_RUNS, a))
    ensures RestoreResult(STREAM, AfterAttempt(STREAM, TWO_RUNS, a), again).closed
            != RestoreResult(STREAM, TWO_RUNS, undisturbed).closed
  {
    hide ScanLog, Repair, AfterAttempt, Appends, Overtakes, RestoreResult, CommittedScan;
    TwoRunsScan();
    TwoRunsShape();
    FirstIsOvertaken();
    OneClosure(a);
    OrderKept(STREAM, TWO_RUNS, a, again, undisturbed);
  }

  // ---------------------------------------------------------------- a run closed behind a checkpoint

  const SAID := AssistantMessage([], "api", "provider", "model", Stop, 0)
  const COMPLETED := Record("r2", 2, FIRST, DeferredCompleted("op1", "r1", SAID))
  const TURN_DONE := Record("r3", 3, FIRST, TurnClosed(TurnCompleted))
  const COMPACTED := Record("r4", 4, FIRST, Checkpoint(3, "r3", [UserMessage("summary", 0)]))
  const RUN_DONE := Record("r5", 5, FIRST, RunClosed("op1", "in1", RunCompleted))

  /** Deferred work that completes, an ordinary compaction, and then the run's terminal. */
  const CLOSED_BEHIND := [OPENED, COMPLETED, TURN_DONE, COMPACTED, RUN_DONE]

  function AfterCompleted(): Scan {
    var s := AfterOpened();
    Entered(s, "r2").(
      openTurn := Some(OpenTurn(FIRST, false, Some("r2"), Some(Stop), [], Some((OPENED, DeferredDone)))),
      messages := s.messages + [SAID], previous := Some(COMPLETED), settlements := s.settlements["op1" := SettledCompleted])
  }

  function AfterTurn(): Scan {
    var s := AfterCompleted();
    Entered(s, "r3").(openTurn := None, previous := Some(TURN_DONE),
                      lastClosed := s.lastClosed["first" := ClosedTurn(FIRST, TurnCompleted, Some(Stop))])
  }

  function AfterCompacted(): Scan {
    var s := AfterTurn();
    Entered(s, "r4").(checkpointRevision := Some(4), messages := [UserMessage("summary", 0)], previous := Some(COMPACTED))
  }

  function AfterRun(): Scan {
    var s := AfterCompacted();
    Entered(s, "r5").(closedRuns := s.closedRuns + {"first"}, terminalRuns := s.terminalRuns + [RunOfTerminal(RUN_DONE)], previous := Some(RUN_DONE))
  }

  lemma StepCompleted()
    ensures Step(STREAM, AfterOpened(), COMPLETED) == Ok(AfterCompleted())
  {
    hide FirstUnanswered, FindCall, Balanced;
  }

  lemma StepTurn()
    ensures Step(STREAM, AfterCompleted(), TURN_DONE) == Ok(AfterTurn())
  {
    hide FindCall, OpenToolCalls, Balanced;
  }

  lemma StepCompacted()
    ensures Step(STREAM, AfterTurn(), COMPACTED) == Ok(AfterCompacted())
  {
    hide FindCall, OpenToolCalls, FirstUnanswered;
    assert [UserMessage("summary", 0)][1..] == [];
  }

  lemma StepRun()
    ensures Step(STREAM, AfterCompacted(), RUN_DONE) == Ok(AfterRun())
  {
    hide FindCall, OpenToolCalls, FirstUnanswered, Balanced;
  }

  lemma ClosedBehindScan()
    ensures CommittedScan(STREAM, CLOSED_BEHIND) == Ok(AfterRun())
  {
    hide ScanLog, Step, AfterOpened, AfterCompleted, AfterTurn, AfterCompacted;
    ScanNothing(STREAM);
    StepOpened();
    ScanPush(STREAM, [], OPENED);
    StepCompleted();
    ScanPush(STREAM, [] + [OPENED], COMPLETED);
    StepTurn();
    ScanPush(STREAM, [] + [OPENED] + [COMPLETED], TURN_DONE);
    StepCompacted();
    ScanPush(STREAM, [] + [OPENED] + [COMPLETED] + [TURN_DONE], COMPACTED);
    StepRun();
    ScanPush(STREAM, [] + [OPENED] + [COMPLETED] + [TURN_DONE] + [COMPACTED], RUN_DONE);
    assert [] + [OPENED] + [COMPLETED] + [TURN_DONE] + [COMPACTED] + [RUN_DONE] == CLOSED_BEHIND;
    RunNotRetained();
  }

  lemma RunNotRetained()
    ensures !AfterRun().retained
  {}

  /** Purging that log before its checkpoint leaves a log that no scan accepts. */
  lemma PurgeCanStrand()
    ensures Accepted(STREAM, CLOSED_BEHIND) && CLOSED_BEHIND[3].body.Checkpoint?
    ensures !Accepted(STREAM, CLOSED_BEHIND[2..])
  {
    hide Accepted;
    ClosedBehindAccepted();
    PurgeKeepsReadable(STREAM, CLOSED_BEHIND, 3);
    assert CLOSED_BEHIND[4].body.RunClosed? && !OpensBetween(CLOSED_BEHIND, 3, 4, "first");
  }

  lemma ClosedBehindAccepted()
    ensures Accepted(STREAM, CLOSED_BEHIND)
  {
    hide CommittedScan;
    ClosedBehindScan();
  }
}
