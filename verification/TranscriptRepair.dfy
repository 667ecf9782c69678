/** What restoring appends to a log that a crash cut short, and why any prefix of it can be continued. */
module TranscriptRepair {
  import opened Wrappers
  import opened Transcript
  import opened TranscriptInvariant

  datatype Recovered = Recovered(outcome: ToolOutcome, output: string, isError: bool, timestamp: int)

  /** What one restore reads while it prepares its results: the clock when it comes to the call at a place of the
      assistant message, and the host's answer for a call that had started. */
  datatype Recovery = Recovery(clock: nat -> int, started: (Record, ToolCall) -> Option<Recovered>)

  datatype Draft = Draft(coordinate: Coordinate, body: Body)

  function SyntheticText(outcome: ToolOutcome): string {
    if outcome == NotStarted then "transcript_tool_not_started: the previous run ended before execution started."
    else "transcript_tool_outcome_unknown: the previous run ended after execution started; " + "check authoritative state before any retry."
  }

  function SyntheticNotStarted(now: int): Recovered {
    Recovered(NotStarted, SyntheticText(NotStarted), true, now)
  }

  function SyntheticOutcomeUnknown(now: int): Recovered {
    Recovered(OutcomeUnknown, SyntheticText(OutcomeUnknown), true, now)
  }

  function RecoveredFor(tool: OpenToolCall, recovery: Recovery): Recovered {
    if tool.start.None? then SyntheticNotStarted(recovery.clock(tool.sourceIndex))
    else match recovery.started(tool.start.value, tool.call)
      case Some(r) => r
      case None => SyntheticOutcomeUnknown(recovery.clock(tool.sourceIndex))
  }

  function ResultMessage(tool: OpenToolCall, recovery: Recovery): Message {
    var r := RecoveredFor(tool, recovery);
    ToolResultMessage(tool.call.id, tool.call.name, r.output, r.isError, r.timestamp)
  }

  function ResultDraft(coordinate: Coordinate, tool: OpenToolCall, recovery: Recovery): Draft {
    Draft(coordinate,
          ToolCompleted(tool.assistantRecordId,
                        if tool.start.Some? then Some(tool.start.value.recordId) else None,
                        tool.sourceIndex, RecoveredFor(tool, recovery).outcome, ResultMessage(tool, recovery)))
  }

  function ResultDrafts(coordinate: Coordinate, calls: seq<OpenToolCall>, recovery: Recovery): seq<Draft> {
    if calls == [] then []
    else (if calls[0].completed then [] else [ResultDraft(coordinate, calls[0], recovery)])
         + ResultDrafts(coordinate, calls[1..], recovery)
  }

  function InterruptedTurn(t: OpenTurn): Draft {
    Draft(t.coordinate, TurnClosed(TurnInterrupted))
  }

  /** Every unanswered call is answered, then the turn is closed as interrupted. */
  function TurnRepair(t: OpenTurn, recovery: Recovery): seq<Draft> {
    ResultDrafts(t.coordinate, t.toolCalls, recovery) + [InterruptedTurn(t)]
  }

  predicate Typed(s: Scan) {
    && (forall run :: run in s.originOrder ==> run in s.latestOrigins)
    && (forall run :: run in s.latestOrigins ==> s.latestOrigins[run].body.DeferredOpened?)
  }

  function CloseDraft(s: Scan, run: Id, coordinate: Coordinate): Draft
    requires Typed(s) && run in s.latestOrigins
  {
    var origin := s.latestOrigins[run].body;
    var abandoned := origin.operationId in s.settlements && s.settlements[origin.operationId] == SettledAbandoned;
    Draft(coordinate, RunClosed(origin.operationId, origin.inputId, if abandoned then RunAborted else RunFailed))
  }

  /** A run whose last turn is over and does not go on to run tools, and whose terminal is missing. */
  predicate Closable(s: Scan, repaired: set<Id>, pendingOperation: Option<Id>, run: Id)
    requires Typed(s) && run in s.latestOrigins
  {
    && run !in s.closedRuns && run !in repaired
    && pendingOperation != Some(s.latestOrigins[run].body.operationId)
    && run in s.lastClosed
    && !(s.lastClosed[run].status == TurnCompleted && s.lastClosed[run].assistantStopReason == Some(ToolUse))
  }

  /** Run terminals for the runs of originOrder from position i on. */
  function RunCloses(s: Scan, repaired: set<Id>, pendingOperation: Option<Id>, i: nat): seq<Draft>
    requires Typed(s) && i <= |s.originOrder|
    decreases |s.originOrder| - i
  {
    if i == |s.originOrder| then []
    else
      var run := s.originOrder[i];
      (if Closable(s, repaired, pendingOperation, run) then [CloseDraft(s, run, s.lastClosed[run].coordinate)] else [])
      + RunCloses(s, repaired, pendingOperation, i + 1)
  }

  predicate Pending(s: Scan) {
    s.openTurn.Some? && PendingTurn(s.openTurn.value)
  }

  function PendingOperation(s: Scan): Option<Id> {
    if Pending(s) && s.openTurn.value.deferred.value.0.body.DeferredOpened?
    then Some(s.openTurn.value.deferred.value.0.body.operationId) else None
  }

  predicate RepairsOpenRun(s: Scan) {
    && s.openTurn.Some? && !Pending(s)
    && s.openTurn.value.coordinate.runId in s.latestOrigins && s.openTurn.value.coordinate.runId !in s.closedRuns
  }

  /** The terminal of the repaired turn's own run, when it has deferred work. */
  function OwnClose(s: Scan): seq<Draft>
    requires Typed(s)
  {
    if RepairsOpenRun(s) then [CloseDraft(s, s.openTurn.value.coordinate.runId, s.openTurn.value.coordinate)] else []
  }

  /** The runs that are closed with the turn. */
  function OwnRun(s: Scan): set<Id> {
    if RepairsOpenRun(s) then {s.openTurn.value.coordinate.runId} else {}
  }

  /** The records that restore appends, in order. */
  function Repair(s: Scan, recovery: Recovery): seq<Draft>
    requires Typed(s)
  {
    (if s.openTurn.Some? && !Pending(s) then TurnRepair(s.openTurn.value, recovery) else [])
    + OwnClose(s)
    + RunCloses(s, OwnRun(s), PendingOperation(s), 0)
  }

  function Prepared(d: Draft, recordId: Id, sequence: nat): Record {
    Record(recordId, sequence, d.coordinate, d.body)
  }

  // ---------------------------------------------------------------- what restoring returns

  function DraftMessages(drafts: seq<Draft>): seq<Message> {
    if drafts == [] then []
    else (if drafts[0].body.ToolCompleted? then [drafts[0].body.message] else []) + DraftMessages(drafts[1..])
  }

  function RunOfDraft(d: Draft): DeferredRun
    requires d.body.RunClosed?
  {
    DeferredRun(d.coordinate, d.body.inputId, d.body.operationId, d.body.runStatus)
  }

  function DraftRuns(drafts: seq<Draft>): seq<DeferredRun> {
    if drafts == [] then []
    else (if drafts[0].body.RunClosed? then [RunOfDraft(drafts[0])] else []) + DraftRuns(drafts[1..])
  }

  datatype Restored = Restored(messages: seq<Message>, closed: seq<DeferredRun>)

  /** The replayed messages and closed deferred runs that restore reports once drafts are appended. */
  function RestoredBy(s: Scan, drafts: seq<Draft>): Restored {
    Restored(s.messages + DraftMessages(drafts), s.terminalRuns + DraftRuns(drafts))
  }

  /** The same closed runs, in any order. */
  ghost predicate SameRuns(a: seq<DeferredRun>, b: seq<DeferredRun>) {
    forall r :: r in a <==> r in b
  }

  /** The same replayed messages, and the same closed runs in any order. */
  ghost predicate SameRestored(a: Restored, b: Restored) {
    a.messages == b.messages && SameRuns(a.closed, b.closed)
  }

  /** A scan of an accepted log with no provider operation pending. */
  ghost predicate Repairable(stream: StreamKey, s: Scan) {
    && Coherent(stream, s) && Typed(s) && !Pending(s)
    && (s.count == 0 ==> s == EmptyScan)
    && (s.retained ==> s.count >= 2)
  }

  lemma CoherentTyped(stream: StreamKey, s: Scan)
    requires Coherent(stream, s)
    ensures Typed(s)
  {
    hide TurnCoherent, ClosuresCoherent;
    forall run | run in s.latestOrigins ensures s.latestOrigins[run].body.DeferredOpened? { assert OriginCoherent(s, run); }
  }

  // ---------------------------------------------------------------- the calls left to answer

  function LeftCalls(calls: seq<OpenToolCall>): seq<OpenToolCall> {
    if calls == [] then [] else (if calls[0].completed then [] else [calls[0]]) + LeftCalls(calls[1..])
  }

  /** The calls that a repair answers, in order. */
  function Left(s: Scan): seq<OpenToolCall> {
    if s.openTurn.Some? && !Pending(s) then LeftCalls(s.openTurn.value.toolCalls) else []
  }

  function Drop<T>(xs: seq<T>, n: nat): seq<T> {
    if n <= |xs| then xs[n..] else []
  }

  function Answers(calls: seq<OpenToolCall>, recovery: Recovery): (messages: seq<Message>)
    ensures |messages| == |calls|
    ensures forall k :: 0 <= k < |calls| ==> messages[k] == ResultMessage(calls[k], recovery)
  {
    seq(|calls|, k requires 0 <= k < |calls| => ResultMessage(calls[k], recovery))
  }

  lemma {:induction false} MessagesConcat(a: seq<Draft>, b: seq<Draft>)
    ensures DraftMessages(a + b) == DraftMessages(a) + DraftMessages(b)
  {
    if a == [] {
      assert a + b == b;
    } else {
      MessagesConcat(a[1..], b);
      assert (a + b)[1..] == a[1..] + b && (a + b)[0] == a[0];
      Associates(if a[0].body.ToolCompleted? then [a[0].body.message] else [], DraftMessages(a[1..]), DraftMessages(b));
    }
  }

  lemma {:induction false} RunsConcat(a: seq<Draft>, b: seq<Draft>)
    ensures DraftRuns(a + b) == DraftRuns(a) + DraftRuns(b)
  {
    if a == [] {
      assert a + b == b;
    } else {
      RunsConcat(a[1..], b);
      assert (a + b)[1..] == a[1..] + b && (a + b)[0] == a[0];
      Associates(if a[0].body.RunClosed? then [RunOfDraft(a[0])] else [], DraftRuns(a[1..]), DraftRuns(b));
    }
  }

  lemma Associates<T>(a: seq<T>, b: seq<T>, c: seq<T>)
    ensures a + (b + c) == (a + b) + c
  {}

  /** Every draft of the results is one result, so together they say the answers and close no run. */
  lemma {:induction false} ResultsAnswer(coordinate: Coordinate, calls: seq<OpenToolCall>, recovery: Recovery)
    ensures ResultDrafts(coordinate, calls, recovery) == ResultsOf(coordinate, LeftCalls(calls), recovery)
  {
    hide ResultDraft;
    if calls != [] {
      ResultsAnswer(coordinate, calls[1..], recovery);
      var rest := LeftCalls(calls[1..]);
      if !calls[0].completed {
        assert LeftCalls(calls) == [calls[0]] + rest;
        assert ResultsOf(coordinate, [calls[0]] + rest, recovery)
            == [ResultDraft(coordinate, calls[0], recovery)] + ResultsOf(coordinate, rest, recovery);
      } else {
        assert LeftCalls(calls) == rest;
      }
    }
  }

  function ResultsOf(coordinate: Coordinate, calls: seq<OpenToolCall>, recovery: Recovery): (drafts: seq<Draft>)
    ensures |drafts| == |calls|
  {
    seq(|calls|, k requires 0 <= k < |calls| => ResultDraft(coordinate, calls[k], recovery))
  }

  lemma {:induction false} ResultsSay(coordinate: Coordinate, calls: seq<OpenToolCall>, recovery: Recovery)
    ensures DraftMessages(ResultsOf(coordinate, calls, recovery)) == Answers(calls, recovery)
    ensures DraftRuns(ResultsOf(coordinate, calls, recovery)) == []
  {
    hide RecoveredFor, ResultMessage;
    if calls != [] {
      var drafts := ResultsOf(coordinate, calls, recovery);
      assert drafts[1..] == ResultsOf(coordinate, calls[1..], recovery);
      ResultsSay(coordinate, calls[1..], recovery);
      assert drafts[0].body.message == ResultMessage(calls[0], recovery);
      assert Answers(calls, recovery) == [ResultMessage(calls[0], recovery)] + Answers(calls[1..], recovery);
    }
  }

  /** What follows the answers of a repair. */
  function Closing(s: Scan): seq<Draft>
    requires Typed(s)
  {
    (if s.openTurn.Some? && !Pending(s) then [InterruptedTurn(s.openTurn.value)] else [])
    + OwnClose(s) + RunCloses(s, OwnRun(s), PendingOperation(s), 0)
  }

  lemma RepairSplits(s: Scan, recovery: Recovery)
    requires Typed(s) && !Pending(s)
    ensures Repair(s, recovery)
            == (if s.openTurn.Some? then ResultsOf(s.openTurn.value.coordinate, Left(s), recovery) else []) + Closing(s)
  {
    hide RunCloses, OwnClose, ResultDrafts, LeftCalls;
    if s.openTurn.Some? {
      var t := s.openTurn.value;
      ResultsAnswer(t.coordinate, t.toolCalls, recovery);
    }
  }

  /** Only the turn's closure and run terminals follow the answers, so a repair says what answers the calls left. */
  lemma RepairAnswers(stream: StreamKey, s: Scan, recovery: Recovery)
    requires Repairable(stream, s)
    ensures DraftMessages(Repair(s, recovery)) == Answers(Left(s), recovery)
    ensures DraftRuns(Repair(s, recovery)) == DraftRuns(Closing(s))
    ensures |Repair(s, recovery)| == |Left(s)| + |Closing(s)| && Repair(s, recovery)[|Left(s)|..] == Closing(s)
  {
    hide Coherent, Closing, ResultsOf, Repair, DraftRuns, DraftMessages, Left, LeftCalls;
    RepairSplits(s, recovery);
    ClosingSaysNothing(stream, s);
    if s.openTurn.Some? {
      var results := ResultsOf(s.openTurn.value.coordinate, Left(s), recovery);
      ResultsSay(s.openTurn.value.coordinate, Left(s), recovery);
      MessagesConcat(results, Closing(s));
      RunsConcat(results, Closing(s));
    } else {
      NothingLeftToAnswer(s);
      assert [] + Closing(s) == Closing(s);
    }
  }

  lemma NothingLeftToAnswer(s: Scan)
    requires s.openTurn.None?
    ensures Left(s) == []
  {}

  lemma ClosingSaysNothing(stream: StreamKey, s: Scan)
    requires Repairable(stream, s)
    ensures DraftMessages(Closing(s)) == []
  {
    hide Coherent, RunCloses, OwnClose, DistinctCloses, DraftMessages, OwnRun;
    var closes := RunCloses(s, OwnRun(s), None, 0);
    RunClosesDistinct(stream, s, OwnRun(s), 0);
    ClosesSayNothing(closes);
    OwnCloseSaysNothing(s);
    MessagesConcat(OwnClose(s), closes);
    if s.openTurn.Some? {
      ClosureSaysNothing(s.openTurn.value);
      MessagesConcat([InterruptedTurn(s.openTurn.value)], OwnClose(s) + closes);
      assert Closing(s) == [InterruptedTurn(s.openTurn.value)] + (OwnClose(s) + closes);
    } else {
      assert Closing(s) == OwnClose(s) + closes;
    }
  }

  lemma ClosureSaysNothing(t: OpenTurn)
    ensures DraftMessages([InterruptedTurn(t)]) == [] && DraftRuns([InterruptedTurn(t)]) == []
  {}

  lemma OwnCloseSaysNothing(s: Scan)
    requires Typed(s)
    ensures DraftMessages(OwnClose(s)) == []
  {}

  // ---------------------------------------------------------------- run terminals

  ghost predicate IsClose(s: Scan, repaired: set<Id>, run: Id, d: Draft)
    requires Typed(s)
  {
    && run in s.latestOrigins && Closable(s, repaired, None, run)
    && d == CloseDraft(s, run, s.lastClosed[run].coordinate)
  }

  lemma {:induction false} RunClosesMember(s: Scan, repaired: set<Id>, i: nat, d: Draft)
    requires Typed(s) && i <= |s.originOrder|
    ensures d in RunCloses(s, repaired, None, i)
            <==> exists k :: i <= k < |s.originOrder| && IsClose(s, repaired, s.originOrder[k], d)
    decreases |s.originOrder| - i
  {
    hide CloseDraft;
    if i < |s.originOrder| { RunClosesMember(s, repaired, i + 1, d); }
  }

  lemma RunClosesExact(stream: StreamKey, s: Scan, repaired: set<Id>, d: Draft)
    requires Coherent(stream, s) && Typed(s)
    ensures d in RunCloses(s, repaired, None, 0) <==> exists run :: IsClose(s, repaired, run, d)
  {
    hide TurnCoherent, ClosuresCoherent, OriginCoherent, IsClose, RunCloses;
    RunClosesMember(s, repaired, 0, d);
    forall run | IsClose(s, repaired, run, d) ensures run in s.originOrder { IsCloseOf(s, repaired, run, d); }
  }

  lemma IsCloseOf(s: Scan, repaired: set<Id>, run: Id, d: Draft)
    requires Typed(s) && IsClose(s, repaired, run, d)
    ensures run in s.latestOrigins && d.body.RunClosed?
  {}

  /** Each run is closed at most once, on that run's own coordinate. */
  ghost predicate DistinctCloses(drafts: seq<Draft>) {
    && (forall i :: 0 <= i < |drafts| ==> drafts[i].body.RunClosed?)
    && (forall i, j :: 0 <= i < j < |drafts| ==> drafts[i].coordinate.runId != drafts[j].coordinate.runId)
  }

  lemma CloseNamesRun(stream: StreamKey, s: Scan, repaired: set<Id>, run: Id, d: Draft)
    requires Coherent(stream, s) && Typed(s) && IsClose(s, repaired, run, d)
    ensures d.body.RunClosed? && d.coordinate.runId == run && run !in repaired
  {
    hide TurnCoherent, OriginsCoherent;
  }

  lemma {:induction false} RunClosesDistinct(stream: StreamKey, s: Scan, repaired: set<Id>, i: nat)
    requires Coherent(stream, s) && Typed(s) && i <= |s.originOrder|
    ensures DistinctCloses(RunCloses(s, repaired, None, i))
    decreases |s.originOrder| - i
  {
    hide Coherent, IsClose, DistinctCloses, Closable;
    if i == |s.originOrder| {
      NoCloses();
    } else {
      RunClosesDistinct(stream, s, repaired, i + 1);
      var rest := RunCloses(s, repaired, None, i + 1);
      var run := s.originOrder[i];
      if Closable(s, repaired, None, run) {
        var d := RunCloses(s, repaired, None, i)[0];
        CloseOfOrder(s, repaired, i);
        CloseNamesRun(stream, s, repaired, run, d);
        forall j | 0 <= j < |rest| ensures rest[j].coordinate.runId != run {
          assert rest[j] in rest;
          RunClosesMember(s, repaired, i + 1, rest[j]);
          var k :| i + 1 <= k < |s.originOrder| && IsClose(s, repaired, s.originOrder[k], rest[j]);
          CloseNamesRun(stream, s, repaired, s.originOrder[k], rest[j]);
          OrderDistinct(stream, s, i, k);
        }
        PrependClose(d, rest);
      } else {
        assert [] + rest == rest;
      }
    }
  }

  lemma NoCloses()
    ensures DistinctCloses([])
  {}

  lemma CloseOfOrder(s: Scan, repaired: set<Id>, i: nat)
    requires Typed(s) && i < |s.originOrder| && Closable(s, repaired, None, s.originOrder[i])
    ensures var d := CloseDraft(s, s.originOrder[i], s.lastClosed[s.originOrder[i]].coordinate);
      && RunCloses(s, repaired, None, i) == [d] + RunCloses(s, repaired, None, i + 1)
      && IsClose(s, repaired, s.originOrder[i], d)
  {}

  lemma OrderDistinct(stream: StreamKey, s: Scan, i: nat, k: nat)
    requires Coherent(stream, s) && i < k < |s.originOrder|
    ensures s.originOrder[i] != s.originOrder[k]
  {
    hide TurnCoherent, ClosuresCoherent, OriginCoherent;
  }

  lemma PrependClose(d: Draft, rest: seq<Draft>)
    requires d.body.RunClosed? && DistinctCloses(rest)
    requires forall j :: 0 <= j < |rest| ==> rest[j].coordinate.runId != d.coordinate.runId
    ensures DistinctCloses([d] + rest)
  {
    forall i, j | 0 <= i < j < |[d] + rest| ensures ([d] + rest)[i].coordinate.runId != ([d] + rest)[j].coordinate.runId {
      assert ([d] + rest)[j] == rest[j - 1];
      if i > 0 { assert ([d] + rest)[i] == rest[i - 1]; }
    }
  }

  lemma TailCloses(drafts: seq<Draft>)
    requires DistinctCloses(drafts) && drafts != []
    ensures DistinctCloses(drafts[1..]) && drafts[0].body.RunClosed? && drafts[0] !in drafts[1..]
  {}

  /** Run terminals add no message. */
  lemma {:induction false} ClosesSayNothing(drafts: seq<Draft>)
    requires DistinctCloses(drafts)
    ensures DraftMessages(drafts) == []
  {
    if drafts != [] { TailCloses(drafts); ClosesSayNothing(drafts[1..]); }
  }

  lemma {:induction false} RunOfMember(drafts: seq<Draft>, r: DeferredRun)
    ensures r in DraftRuns(drafts) <==> exists d :: d in drafts && d.body.RunClosed? && RunOfDraft(d) == r
  {
    if drafts != [] {
      RunOfMember(drafts[1..], r);
      assert forall d :: d in drafts <==> d == drafts[0] || d in drafts[1..];
    }
  }

  // ---------------------------------------------------------------- what is left of a repair

  /** rest is what an interrupted repair still has to append: exactly the repair of s while its turn is open, and the
      missing run terminals in any order once it is closed. */
  ghost predicate Continues(s: Scan, recovery: Recovery, rest: seq<Draft>)
    requires Typed(s)
  {
    if s.openTurn.Some? then rest == Repair(s, recovery)
    else DistinctCloses(rest) && forall d :: d in rest <==> d in Repair(s, recovery)
  }

  lemma ClosedTurnRepair(s: Scan, recovery: Recovery)
    requires Typed(s) && s.openTurn.None?
    ensures Repair(s, recovery) == RunCloses(s, {}, None, 0)
  {}

  lemma RepairContinues(stream: StreamKey, s: Scan, recovery: Recovery)
    requires Repairable(stream, s)
    ensures Continues(s, recovery, Repair(s, recovery))
  {
    hide Coherent;
    if s.openTurn.None? {
      ClosedTurnRepair(s, recovery);
      RunClosesDistinct(stream, s, {}, 0);
    }
  }

  /** Whatever is left of a repair restores the same messages and runs as starting over. */
  lemma ContinuingRestoresSame(stream: StreamKey, s: Scan, recovery: Recovery, rest: seq<Draft>)
    requires Repairable(stream, s) && Continues(s, recovery, rest)
    ensures SameRestored(RestoredBy(s, rest), RestoredBy(s, Repair(s, recovery)))
  {
    hide Coherent, Repair;
    if s.openTurn.None? {
      RepairContinues(stream, s, recovery);
      ClosesSayNothing(rest);
      ClosesSayNothing(Repair(s, recovery));
      forall r ensures r in DraftRuns(rest) <==> r in DraftRuns(Repair(s, recovery)) {
        RunOfMember(rest, r);
        RunOfMember(Repair(s, recovery), r);
      }
    }
  }

  lemma NothingLeft(s: Scan, recovery: Recovery)
    requires Typed(s) && !Pending(s) && Continues(s, recovery, [])
    ensures s.openTurn.None? && Repair(s, recovery) == []
  {
    hide RunCloses, OwnClose, ResultDrafts;
    SomeDraft(Repair(s, recovery));
  }

  lemma SomeDraft(drafts: seq<Draft>)
    ensures drafts != [] ==> exists d :: d in drafts
  {
    if drafts != [] { assert drafts[0] in drafts; }
  }
}
