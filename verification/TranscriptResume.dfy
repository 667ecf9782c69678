/** Appending a repair record by record: each record is accepted and leaves a log whose own repair is the rest. */
module TranscriptResume {
  import opened Wrappers
  import opened Transcript
  import opened TranscriptInvariant
  import opened TranscriptRepair

  // ---------------------------------------------------------------- answering one call

  lemma {:induction false} FirstResult(coordinate: Coordinate, calls: seq<OpenToolCall>, recovery: Recovery, p: nat)
    requires p < |calls| && !calls[p].completed && forall k :: 0 <= k < p ==> calls[k].completed
    ensures ResultDrafts(coordinate, calls, recovery)
            == [ResultDraft(coordinate, calls[p], recovery)]
               + ResultDrafts(coordinate, calls[p := calls[p].(completed := true)], recovery)
  {
    hide ResultDraft;
    var calls' := calls[p := calls[p].(completed := true)];
    if p > 0 {
      FirstResult(coordinate, calls[1..], recovery, p - 1);
      assert calls'[1..] == calls[1..][p - 1 := calls[p].(completed := true)];
    } else {
      assert calls'[1..] == calls[1..];
    }
  }

  lemma {:induction false} NoResults(coordinate: Coordinate, calls: seq<OpenToolCall>, recovery: Recovery)
    requires forall k :: 0 <= k < |calls| ==> calls[k].completed
    ensures ResultDrafts(coordinate, calls, recovery) == []
  {
    if calls != [] { NoResults(coordinate, calls[1..], recovery); }
  }

  /** A call is found by its assistant record and its place. */
  lemma {:induction false} FindsCall(recordId: Option<Id>, calls: seq<OpenToolCall>, p: nat, i: nat)
    requires CallsOk(recordId, calls) && i <= p < |calls|
    ensures FindCall(calls, calls[p].assistantRecordId, calls[p].sourceIndex, i) == p
    decreases |calls| - i
  {
    if i < p { FindsCall(recordId, calls, p, i + 1); }
  }

  lemma ResultFolds(t: OpenTurn, messages: seq<Message>, recovery: Recovery, recordId: Id, sequence: nat)
    requires TurnOk(t) && FirstUnanswered(t.toolCalls, 0) < |t.toolCalls|
    ensures var p := FirstUnanswered(t.toolCalls, 0);
      var d := ResultDraft(t.coordinate, t.toolCalls[p], recovery);
      && d.body.message.ToolResultMessage?
      && FoldToolCompleted(Prepared(d, recordId, sequence), t, messages)
         == Ok(Folded(Some(t.(toolCalls := t.toolCalls[p := t.toolCalls[p].(completed := true)])), messages + [d.body.message]))
  {
    hide FirstUnanswered, FindCall, CallsOk;
    var p := FirstUnanswered(t.toolCalls, 0);
    FindsCall(t.assistantRecordId, t.toolCalls, p, 0);
    assert RecoveredFor(t.toolCalls[p], recovery).outcome != NotStarted ==> t.toolCalls[p].start.Some?;
  }

  /** The scan after one more accepted record of this turn or stream. */
  function Entered(s: Scan, recordId: Id): Scan {
    s.(count := s.count + 1, expected := s.expected + 1, recordIds := s.recordIds + {recordId})
  }

  /** Past the first two records the envelope checks leave only the fold. */
  lemma StepIsAbsorb(stream: StreamKey, s: Scan, r: Record)
    requires s.count >= 1 && (s.retained ==> s.count >= 2)
    requires WellFormed(r) && r.recordId !in s.recordIds && StreamOf(r.coordinate) == stream && r.sequence == s.expected
    ensures Step(stream, s, r) == Absorb(Entered(s, r.recordId), r)
  {
    hide Absorb, WellFormed;
  }

  lemma {:induction false} RunClosesFrame(s: Scan, s': Scan, repaired: set<Id>, pendingOperation: Option<Id>, i: nat)
    requires Typed(s) && Typed(s') && i <= |s.originOrder|
    requires s'.latestOrigins == s.latestOrigins && s'.originOrder == s.originOrder && s'.settlements == s.settlements
    requires s'.closedRuns == s.closedRuns && s'.lastClosed == s.lastClosed
    ensures RunCloses(s', repaired, pendingOperation, i) == RunCloses(s, repaired, pendingOperation, i)
    decreases |s.originOrder| - i
  {
    if i < |s.originOrder| { RunClosesFrame(s, s', repaired, pendingOperation, i + 1); }
  }

  /** What one accepted repair record establishes. */
  ghost predicate Progress(stream: StreamKey, s: Scan, recovery: Recovery, rest: seq<Draft>, recordId: Id, s': Scan)
    requires rest != []
  {
    && Repairable(stream, s') && Continues(s', recovery, rest[1..])
    && RestoredBy(s', rest[1..]) == RestoredBy(s, rest)
    && s'.recordIds == s.recordIds + {recordId} && s'.expected == s.expected + 1 && s'.count == s.count + 1
    && Moves(s, s')
  }

  /** One call fewer is left to answer, and the turn is closed once none is. */
  predicate Moves(s: Scan, s': Scan) {
    && Left(s') == Drop(Left(s), 1) && s'.originOrder == s.originOrder
    && (s'.openTurn.Some? <==> s.openTurn.Some? && Left(s) != [])
  }

  lemma KeepsRepairable(stream: StreamKey, s: Scan, r: Record)
    requires Coherent(stream, s) && s.count >= 1 && (s.retained ==> s.count >= 2)
    requires Step(stream, s, r).Ok? && !Pending(Step(stream, s, r).value)
    ensures Repairable(stream, Step(stream, s, r).value)
  {
    hide Step, Coherent;
    StepKeepsCoherent(stream, s, r);
    StepCounts(stream, s, r);
    CoherentTyped(stream, Step(stream, s, r).value);
  }

  lemma {:induction false} LeftAfterAnswer(calls: seq<OpenToolCall>, p: nat)
    requires p < |calls| && !calls[p].completed && forall k :: 0 <= k < p ==> calls[k].completed
    ensures LeftCalls(calls) == [calls[p]] + LeftCalls(calls[p := calls[p].(completed := true)])
  {
    var calls' := calls[p := calls[p].(completed := true)];
    if p > 0 {
      LeftAfterAnswer(calls[1..], p - 1);
      assert calls'[1..] == calls[1..][p - 1 := calls[p].(completed := true)];
    } else {
      assert calls'[1..] == calls[1..];
    }
  }

  lemma {:induction false} NoneLeft(calls: seq<OpenToolCall>)
    requires forall k :: 0 <= k < |calls| ==> calls[k].completed
    ensures LeftCalls(calls) == []
  {
    if calls != [] { NoneLeft(calls[1..]); }
  }

  // ---------------------------------------------------------------- the three kinds of repair record

  predicate Unanswered(t: OpenTurn) {
    FirstUnanswered(t.toolCalls, 0) < |t.toolCalls|
  }

  function AfterResult(s: Scan, r: Record): Scan
    requires s.openTurn.Some? && Unanswered(s.openTurn.value) && r.body.ToolCompleted?
  {
    var t := s.openTurn.value;
    var p := FirstUnanswered(t.toolCalls, 0);
    Entered(s, r.recordId).(openTurn := Some(t.(toolCalls := t.toolCalls[p := t.toolCalls[p].(completed := true)])),
                            messages := s.messages + [r.body.message], previous := Some(r))
  }

  function FirstResultDraft(t: OpenTurn, recovery: Recovery): Draft
    requires Unanswered(t)
  {
    ResultDraft(t.coordinate, t.toolCalls[FirstUnanswered(t.toolCalls, 0)], recovery)
  }

  lemma ResultAccepted(stream: StreamKey, s: Scan, recovery: Recovery, recordId: Id)
    requires Repairable(stream, s) && s.count >= 1 && s.openTurn.Some? && Unanswered(s.openTurn.value) && recordId !in s.recordIds
    ensures var r := Prepared(FirstResultDraft(s.openTurn.value, recovery), recordId, s.expected);
      Step(stream, s, r) == Ok(AfterResult(s, r))
  {
    hide OriginsCoherent, ClosuresCoherent, FirstUnanswered, Step, TurnOk, ResultDraft, FoldToolCompleted;
    var t := s.openTurn.value;
    ResultFolds(t, s.messages, recovery, recordId, s.expected);
    var r := Prepared(FirstResultDraft(t, recovery), recordId, s.expected);
    ResultDraftShape(t.coordinate, t.toolCalls[FirstUnanswered(t.toolCalls, 0)], recovery);
    StepIsAbsorb(stream, s, r);
  }

  lemma ResultDraftShape(coordinate: Coordinate, tool: OpenToolCall, recovery: Recovery)
    ensures var d := ResultDraft(coordinate, tool, recovery);
      d.coordinate == coordinate && d.body.ToolCompleted? && d.body.message.ToolResultMessage?
  {}

  lemma RepairAfterResult(s: Scan, recovery: Recovery, r: Record)
    requires Typed(s) && s.openTurn.Some? && !Pending(s) && Unanswered(s.openTurn.value) && r.body.ToolCompleted?
    ensures Typed(AfterResult(s, r)) && !Pending(AfterResult(s, r))
    ensures Repair(s, recovery) == [FirstResultDraft(s.openTurn.value, recovery)] + Repair(AfterResult(s, r), recovery)
  {
    hide FirstUnanswered, ResultDraft, RunCloses, ResultDrafts, CloseDraft;
    var s' := AfterResult(s, r);
    var t := s.openTurn.value;
    FirstResult(t.coordinate, t.toolCalls, recovery, FirstUnanswered(t.toolCalls, 0));
    RunClosesFrame(s, s', if RepairsOpenRun(s) then {t.coordinate.runId} else {}, None, 0);
    assert OwnClose(s') == OwnClose(s) by { SameClose(s, s'); }
  }

  lemma ResultMoves(s: Scan, r: Record)
    requires s.openTurn.Some? && !Pending(s) && Unanswered(s.openTurn.value) && r.body.ToolCompleted?
    ensures Moves(s, AfterResult(s, r))
  {
    hide FirstUnanswered, LeftCalls;
    var t := s.openTurn.value;
    LeftAfterAnswer(t.toolCalls, FirstUnanswered(t.toolCalls, 0));
    assert Left(s)[1..] == Left(AfterResult(s, r));
  }

  lemma ClosureMoves(s: Scan, r: Record)
    requires s.openTurn.Some? && !Unanswered(s.openTurn.value) && r.body.TurnClosed?
    ensures Moves(s, AfterClosure(s, r))
  {
    hide LeftCalls;
    NoneLeft(s.openTurn.value.toolCalls);
  }

  lemma SameClose(s: Scan, s': Scan)
    requires Typed(s) && Typed(s') && s'.latestOrigins == s.latestOrigins && s'.settlements == s.settlements
    ensures forall run: Id, c: Coordinate :: run in s.latestOrigins ==> CloseDraft(s', run, c) == CloseDraft(s, run, c)
  {}

  lemma AnswerProgress(stream: StreamKey, s: Scan, recovery: Recovery, rest: seq<Draft>, recordId: Id)
    requires Repairable(stream, s) && s.count >= 1 && s.openTurn.Some? && Unanswered(s.openTurn.value) && recordId !in s.recordIds
    requires Continues(s, recovery, rest)
    ensures rest != [] && Step(stream, s, Prepared(rest[0], recordId, s.expected)).Ok?
    ensures Progress(stream, s, recovery, rest, recordId, Step(stream, s, Prepared(rest[0], recordId, s.expected)).value)
  {
    hide Coherent, FirstUnanswered, ResultDraft, Step, Repair, Moves;
    var t := s.openTurn.value;
    var r := Prepared(FirstResultDraft(t, recovery), recordId, s.expected);
    ResultDraftShape(t.coordinate, t.toolCalls[FirstUnanswered(t.toolCalls, 0)], recovery);
    ResultAccepted(stream, s, recovery, recordId);
    RepairAfterResult(s, recovery, r);
    ResultMoves(s, r);
    KeepsRepairable(stream, s, r);
    assert rest[1..] == Repair(AfterResult(s, r), recovery);
  }

  function AfterClosure(s: Scan, r: Record): Scan
    requires s.openTurn.Some? && r.body.TurnClosed?
  {
    Entered(s, r.recordId).(openTurn := None, previous := Some(r),
      lastClosed := s.lastClosed[r.coordinate.runId := ClosedTurn(r.coordinate, r.body.status, s.openTurn.value.assistantStopReason)])
  }

  lemma ClosureAccepted(stream: StreamKey, s: Scan, recordId: Id)
    requires Repairable(stream, s) && s.count >= 1 && s.openTurn.Some? && !Unanswered(s.openTurn.value) && recordId !in s.recordIds
    ensures var r := Prepared(InterruptedTurn(s.openTurn.value), recordId, s.expected);
      Step(stream, s, r) == Ok(AfterClosure(s, r))
  {
    hide OriginsCoherent, ClosuresCoherent, FirstUnanswered, Step, TurnOk;
    StepIsAbsorb(stream, s, Prepared(InterruptedTurn(s.openTurn.value), recordId, s.expected));
  }

  lemma RepairOfAnsweredTurn(s: Scan, recovery: Recovery)
    requires Typed(s) && s.openTurn.Some? && !Pending(s) && !Unanswered(s.openTurn.value)
    ensures Repair(s, recovery) == [InterruptedTurn(s.openTurn.value)] + (OwnClose(s) + RunCloses(s, OwnRun(s), None, 0))
  {
    hide RunCloses, CloseDraft;
    var t := s.openTurn.value;
    NoResults(t.coordinate, t.toolCalls, recovery);
  }

  /** Interrupting the turn makes exactly its own run's terminal due. */
  lemma ClosesAfterClosure(stream: StreamKey, s: Scan, r: Record, run: Id, d: Draft)
    requires Coherent(stream, s) && Typed(s) && s.openTurn.Some? && !Pending(s)
    requires r.body == TurnClosed(TurnInterrupted) && r.coordinate == s.openTurn.value.coordinate
    ensures Typed(AfterClosure(s, r))
    ensures IsClose(AfterClosure(s, r), {}, run, d)
            <==> if RepairsOpenRun(s) && run == r.coordinate.runId then d == CloseDraft(s, run, r.coordinate)
                 else IsClose(s, OwnRun(s), run, d)
  {
    hide OriginsCoherent, ClosuresCoherent, TurnOk;
  }

  lemma OwnCloseMember(s: Scan, d: Draft)
    requires Typed(s) && s.openTurn.Some?
    ensures d in OwnClose(s)
            <==> (RepairsOpenRun(s) && d == CloseDraft(s, s.openTurn.value.coordinate.runId, s.openTurn.value.coordinate))
    ensures |OwnClose(s)| <= 1
  {
    hide CloseDraft;
  }

  lemma DueAfterClosure(stream: StreamKey, s: Scan, r: Record, d: Draft)
    requires Coherent(stream, s) && Typed(s) && s.openTurn.Some? && !Pending(s)
    requires r.body == TurnClosed(TurnInterrupted) && r.coordinate == s.openTurn.value.coordinate
    ensures Typed(AfterClosure(s, r))
    ensures (exists run :: IsClose(AfterClosure(s, r), {}, run, d)) <==> d in OwnClose(s) + RunCloses(s, OwnRun(s), None, 0)
  {
    hide Coherent, IsClose, RunCloses, CloseDraft;
    var own := r.coordinate.runId;
    ClosesAfterClosure(stream, s, r, own, d);
    RunClosesExact(stream, s, OwnRun(s), d);
    OwnCloseMember(s, d);
    forall run | IsClose(s, OwnRun(s), run, d) ensures exists run :: IsClose(AfterClosure(s, r), {}, run, d) {
      CloseNamesRun(stream, s, OwnRun(s), run, d);
      ClosesAfterClosure(stream, s, r, run, d);
      assert IsClose(AfterClosure(s, r), {}, run, d);
    }
    if run :| IsClose(AfterClosure(s, r), {}, run, d) { ClosesAfterClosure(stream, s, r, run, d); }
  }

  lemma RemainingDistinct(stream: StreamKey, s: Scan)
    requires Coherent(stream, s) && Typed(s) && s.openTurn.Some?
    ensures DistinctCloses(OwnClose(s) + RunCloses(s, OwnRun(s), None, 0))
  {
    hide Coherent, IsClose, RunCloses, DistinctCloses, Typed;
    var rest := RunCloses(s, OwnRun(s), None, 0);
    RunClosesDistinct(stream, s, OwnRun(s), 0);
    if RepairsOpenRun(s) {
      var own := CloseDraft(s, s.openTurn.value.coordinate.runId, s.openTurn.value.coordinate);
      forall j | 0 <= j < |rest| ensures rest[j].coordinate.runId != own.coordinate.runId {
        assert rest[j] in rest;
        RunClosesExact(stream, s, OwnRun(s), rest[j]);
        var run :| IsClose(s, OwnRun(s), run, rest[j]);
        CloseNamesRun(stream, s, OwnRun(s), run, rest[j]);
      }
      PrependClose(own, rest);
    } else {
      assert [] + rest == rest;
    }
  }

  lemma ClosureContinues(stream: StreamKey, s: Scan, recovery: Recovery, r: Record)
    requires Coherent(stream, s) && Typed(s) && s.openTurn.Some? && !Pending(s)
    requires r.body == TurnClosed(TurnInterrupted) && r.coordinate == s.openTurn.value.coordinate
    requires Coherent(stream, AfterClosure(s, r))
    ensures Typed(AfterClosure(s, r)) && Continues(AfterClosure(s, r), recovery, OwnClose(s) + RunCloses(s, OwnRun(s), None, 0))
  {
    hide Coherent, IsClose, RunCloses, CloseDraft, DistinctCloses, Typed, OwnClose, OwnRun, Repair;
    var s' := AfterClosure(s, r);
    CoherentTyped(stream, s');
    RemainingDistinct(stream, s);
    ClosedTurnRepair(s', recovery);
    forall d ensures d in OwnClose(s) + RunCloses(s, OwnRun(s), None, 0) <==> d in Repair(s', recovery) {
      DueAfterClosure(stream, s, r, d);
      RunClosesExact(stream, s', {}, d);
    }
  }

  lemma ClosureProgress(stream: StreamKey, s: Scan, recovery: Recovery, rest: seq<Draft>, recordId: Id)
    requires Repairable(stream, s) && s.count >= 1 && s.openTurn.Some? && !Unanswered(s.openTurn.value) && recordId !in s.recordIds
    requires Continues(s, recovery, rest)
    ensures rest != [] && Step(stream, s, Prepared(rest[0], recordId, s.expected)).Ok?
    ensures Progress(stream, s, recovery, rest, recordId, Step(stream, s, Prepared(rest[0], recordId, s.expected)).value)
  {
    hide Coherent, FirstUnanswered, Step, Repair, RunCloses, OwnClose, OwnRun, Moves;
    var r := Prepared(InterruptedTurn(s.openTurn.value), recordId, s.expected);
    ClosureAccepted(stream, s, recordId);
    RepairOfAnsweredTurn(s, recovery);
    ClosureMoves(s, r);
    KeepsRepairable(stream, s, r);
    ClosureContinues(stream, s, recovery, r);
    assert rest[1..] == OwnClose(s) + RunCloses(s, OwnRun(s), None, 0);
  }

  // ---------------------------------------------------------------- closing one run

  function AfterRunClose(s: Scan, r: Record): Scan
    requires r.body.RunClosed?
  {
    Entered(s, r.recordId).(closedRuns := s.closedRuns + {r.coordinate.runId}, openTurn := None, previous := Some(r),
                            terminalRuns := s.terminalRuns + [RunOfTerminal(r)])
  }

  lemma RunCloseAccepted(stream: StreamKey, s: Scan, run: Id, d: Draft, recordId: Id)
    requires Repairable(stream, s) && s.count >= 1 && s.openTurn.None? && recordId !in s.recordIds && IsClose(s, {}, run, d)
    ensures var r := Prepared(d, recordId, s.expected);
      r.body.RunClosed? && Step(stream, s, r) == Ok(AfterRunClose(s, r))
  {
    hide TurnOk, Step;
    assert OriginCoherent(s, run);
    StepIsAbsorb(stream, s, Prepared(d, recordId, s.expected));
  }

  lemma DueAfterRunClose(stream: StreamKey, s: Scan, r: Record, run: Id, e: Draft)
    requires Coherent(stream, s) && Typed(s) && s.openTurn.None? && r.body.RunClosed?
    ensures Typed(AfterRunClose(s, r))
    ensures IsClose(AfterRunClose(s, r), {}, run, e) <==> IsClose(s, {}, run, e) && run != r.coordinate.runId
  {
    hide Coherent;
  }

  lemma RunCloseContinues(stream: StreamKey, s: Scan, recovery: Recovery, rest: seq<Draft>, r: Record)
    requires Coherent(stream, s) && Typed(s) && s.openTurn.None? && r.body.RunClosed?
    requires rest != [] && Continues(s, recovery, rest) && r.coordinate == rest[0].coordinate
    requires Coherent(stream, AfterRunClose(s, r))
    ensures Typed(AfterRunClose(s, r)) && Continues(AfterRunClose(s, r), recovery, rest[1..])
  {
    hide Coherent, IsClose, RunCloses, Typed, Repair;
    var s' := AfterRunClose(s, r);
    CoherentTyped(stream, s');
    ClosedTurnRepair(s, recovery);
    ClosedTurnRepair(s', recovery);
    forall e ensures e in rest[1..] <==> e in Repair(s', recovery) {
      RunClosesExact(stream, s, {}, e);
      RunClosesExact(stream, s', {}, e);
      if run :| IsClose(s', {}, run, e) {
        DueAfterRunClose(stream, s, r, run, e);
        CloseNamesRun(stream, s, {}, run, e);
      }
      if e in rest[1..] {
        var run :| IsClose(s, {}, run, e);
        DueAfterRunClose(stream, s, r, run, e);
        CloseNamesRun(stream, s, {}, run, e);
      }
    }
  }

  /** What is left of a repair behind a closed turn starts with the terminal of some run. */
  lemma NextClose(stream: StreamKey, s: Scan, recovery: Recovery, rest: seq<Draft>) returns (run: Id)
    requires Coherent(stream, s) && Typed(s) && s.openTurn.None? && rest != [] && Continues(s, recovery, rest)
    ensures IsClose(s, {}, run, rest[0])
  {
    hide Coherent, Repair, RunCloses, IsClose, Typed, DistinctCloses;
    ClosedTurnRepair(s, recovery);
    RunClosesExact(stream, s, {}, rest[0]);
    assert rest[0] in rest;
    run :| IsClose(s, {}, run, rest[0]);
  }

  lemma RunCloseProgress(stream: StreamKey, s: Scan, recovery: Recovery, rest: seq<Draft>, recordId: Id)
    requires Repairable(stream, s) && s.count >= 1 && s.openTurn.None? && recordId !in s.recordIds
    requires rest != [] && Continues(s, recovery, rest)
    ensures Step(stream, s, Prepared(rest[0], recordId, s.expected)).Ok?
    ensures Progress(stream, s, recovery, rest, recordId, Step(stream, s, Prepared(rest[0], recordId, s.expected)).value)
  {
    hide Coherent, Step, Repair, RunCloses, IsClose, Typed, DistinctCloses, Continues;
    var run := NextClose(stream, s, recovery, rest);
    var r := Prepared(rest[0], recordId, s.expected);
    RunCloseAccepted(stream, s, run, rest[0], recordId);
    KeepsRepairable(stream, s, r);
    RunCloseContinues(stream, s, recovery, rest, r);
    RestoredByRunClose(s, rest, r);
  }

  lemma RestoredByRunClose(s: Scan, rest: seq<Draft>, r: Record)
    requires rest != [] && rest[0].body.RunClosed? && r.body == rest[0].body && r.coordinate == rest[0].coordinate
    ensures RestoredBy(AfterRunClose(s, r), rest[1..]) == RestoredBy(s, rest)
  {
    FirstCloseSplits(rest);
    Regroup(s.terminalRuns, RunOfTerminal(r), DraftRuns(rest[1..]));
  }

  lemma FirstCloseSplits(rest: seq<Draft>)
    requires rest != [] && rest[0].body.RunClosed?
    ensures DraftMessages(rest) == DraftMessages(rest[1..])
    ensures DraftRuns(rest) == [RunOfDraft(rest[0])] + DraftRuns(rest[1..])
  {
    assert [] + DraftMessages(rest[1..]) == DraftMessages(rest[1..]);
  }

  lemma Regroup<T>(front: seq<T>, x: T, back: seq<T>)
    ensures (front + [x]) + back == front + ([x] + back)
  {}
}
