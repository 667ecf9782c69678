/** What every record that a restore appends says, read off the log that it restores. */
module TranscriptRestored {
  import opened Wrappers
  import opened Transcript
  import opened TranscriptInvariant
  import opened TranscriptRepair
  import opened TranscriptRestore
  import opened TranscriptPurge
  import opened TranscriptPurgedRestore
  import opened TranscriptCalls

  // ---------------------------------------------------------------- answers

  predicate SaysNotStarted(text: string) {
    text == "transcript_tool_not_started: the previous run ended before execution started."
  }

  predicate SaysUnknown(text: string) {
    text == "transcript_tool_outcome_unknown: the previous run ended after execution started; " + "check authoritative state before any retry."
  }

  lemma TextNotStarted()
    ensures SaysNotStarted(SyntheticText(NotStarted))
  {}

  lemma TextUnknown()
    ensures SaysUnknown(SyntheticText(OutcomeUnknown))
  {}

  /** What the answer to a call says when this record started it, or when none did. */
  predicate Answers(b: Body, call: ToolCall, place: nat, start: Option<Record>, recovery: Recovery) {
    && b.ToolCompleted? && b.sourceIndex == place && b.message.ToolResultMessage?
    && b.message.toolCallId == call.id && b.message.toolName == call.name
    && match start
       case None =>
         && b.startedRecordId.None? && b.outcome == NotStarted && b.message.isError && b.message.timestamp == recovery.clock(place)
         && SaysNotStarted(b.message.output)
       case Some(r) =>
         && b.startedRecordId == Some(r.recordId)
         && match recovery.started(r, call)
            case Some(found) =>
              && b.outcome == found.outcome && b.message.output == found.output
              && b.message.isError == found.isError && b.message.timestamp == found.timestamp
            case None =>
              && b.outcome == OutcomeUnknown && b.message.isError && b.message.timestamp == recovery.clock(place)
              && SaysUnknown(b.message.output)
  }

  lemma DraftAnswers(coordinate: Coordinate, tool: OpenToolCall, recovery: Recovery)
    ensures Answers(ResultDraft(coordinate, tool, recovery).body, tool.call, tool.sourceIndex, tool.start, recovery)
    ensures ResultDraft(coordinate, tool, recovery).body.assistantRecordId == tool.assistantRecordId
  {
    hide SyntheticText, SaysNotStarted, SaysUnknown;
    TextNotStarted();
    TextUnknown();
  }

  /** The message at position m of the log makes the call that this body answers; nothing in the log answers it, and what
      is said follows from the record of the log that started it, or from there being none. */
  ghost predicate AnswersFrom(log: seq<Record>, m: nat, b: Body, recovery: Recovery) {
    && b.ToolCompleted? && m < |log| && log[m].recordId == b.assistantRecordId && Speaks(log[m])
    && b.sourceIndex < |ContentOf(log[m])| && ContentOf(log[m])[b.sourceIndex].Call?
    && !Finished(log, b.assistantRecordId, b.sourceIndex)
    && var call := ContentOf(log[m])[b.sourceIndex].call;
       if Started(log, b.assistantRecordId, b.sourceIndex) then
         exists r :: r in log && Starts(r, b.assistantRecordId, b.sourceIndex) && Answers(b, call, b.sourceIndex, Some(r), recovery)
       else Answers(b, call, b.sourceIndex, None, recovery)
  }

  lemma {:induction false} ResultMember(coordinate: Coordinate, calls: seq<OpenToolCall>, recovery: Recovery, d: Draft)
    ensures d in ResultDrafts(coordinate, calls, recovery)
            <==> exists p :: 0 <= p < |calls| && !calls[p].completed && d == ResultDraft(coordinate, calls[p], recovery)
  {
    hide ResultDraft;
    if calls != [] {
      ResultMember(coordinate, calls[1..], recovery, d);
      if p :| 0 <= p < |calls[1..]| && !calls[1..][p].completed && d == ResultDraft(coordinate, calls[1..][p], recovery) {
        assert calls[p + 1] == calls[1..][p];
      }
      if p :| 0 <= p < |calls| && !calls[p].completed && d == ResultDraft(coordinate, calls[p], recovery) {
        if p > 0 { assert calls[1..][p - 1] == calls[p]; }
      }
    }
  }

  lemma CallAnswered(log: seq<Record>, t: OpenTurn, p: nat, recovery: Recovery)
    requires TurnReflects(log, t) && CallsOk(t.assistantRecordId, t.toolCalls) && p < |t.toolCalls| && !t.toolCalls[p].completed
    ensures exists m: nat :: AnswersFrom(log, m, ResultDraft(t.coordinate, t.toolCalls[p], recovery).body, recovery)
  {
    hide Started, Finished, Answers;
    var tool := t.toolCalls[p];
    var m: nat :| Brings(log, m, t.assistantRecordId.value, t.toolCalls);
    DraftAnswers(t.coordinate, tool, recovery);
    assert Reflects(log, tool);
    AnswerPlace(ResultDraft(t.coordinate, tool, recovery).body, tool.call, tool.sourceIndex, tool.start, recovery);
    assert AnswersFrom(log, m, ResultDraft(t.coordinate, tool, recovery).body, recovery);
  }

  lemma AnswerPlace(b: Body, call: ToolCall, place: nat, start: Option<Record>, recovery: Recovery)
    requires Answers(b, call, place, start, recovery)
    ensures b.ToolCompleted? && b.sourceIndex == place
  {}

  // ---------------------------------------------------------------- terminals

  /** The last record of the log by which the run opened deferred work. */
  ghost predicate LastOpened(log: seq<Record>, run: Id, k: nat) {
    && k < |log| && log[k].body.DeferredOpened? && log[k].coordinate.runId == run
    && forall h :: k < h < |log| && log[h].body.DeferredOpened? ==> log[h].coordinate.runId != run
  }

  ghost predicate OpenedBy(log: seq<Record>, run: Id, r: Record, k: nat) {
    LastOpened(log, run, k) && log[k] == r
  }

  predicate Settles(r: Record, operationId: Id) {
    (r.body.DeferredCompleted? || r.body.DeferredAbandoned?) && r.body.operationId == operationId
  }

  /** The last record of the log that settles the operation. */
  ghost predicate LastSettled(log: seq<Record>, operationId: Id, k: nat) {
    && k < |log| && Settles(log[k], operationId)
    && forall h :: k < h < |log| ==> !Settles(log[h], operationId)
  }

  /** The last record of the log that closes a turn of the run. */
  ghost predicate LastTurn(log: seq<Record>, run: Id, k: nat) {
    && k < |log| && log[k].body.TurnClosed? && log[k].coordinate.runId == run
    && forall h :: k < h < |log| && log[h].body.TurnClosed? ==> log[h].coordinate.runId != run
  }

  /** It left the turn as this closed turn says. */
  ghost predicate ClosedAs(log: seq<Record>, run: Id, turn: ClosedTurn, k: nat) {
    LastTurn(log, run, k) && log[k].coordinate == turn.coordinate && log[k].body.status == turn.status
  }

  ghost predicate Abandoned(log: seq<Record>, operationId: Id) {
    exists k: nat :: LastSettled(log, operationId, k) && log[k].body.DeferredAbandoned?
  }

  /** What a scan knows of deferred work is what the last records about it say. */
  ghost predicate TracksLog(log: seq<Record>, s: Scan) {
    && (forall run :: run in s.latestOrigins ==> exists k: nat :: OpenedBy(log, run, s.latestOrigins[run], k))
    && (forall op :: Abandoned(log, op) <==> op in s.settlements && s.settlements[op] == SettledAbandoned)
    && (forall run :: run in s.lastClosed ==>
          exists k: nat :: ClosedAs(log, run, s.lastClosed[run], k))
  }

  lemma StepTracks(stream: StreamKey, s: Scan, r: Record)
    requires Step(stream, s, r).Ok? && (s.count == 0 ==> s == EmptyScan)
    ensures var s' := Step(stream, s, r).value;
      && s'.latestOrigins == (if r.body.DeferredOpened? then s.latestOrigins[r.coordinate.runId := r] else s.latestOrigins)
      && s'.settlements == (if r.body.DeferredCompleted? then s.settlements[r.body.operationId := SettledCompleted]
                            else if r.body.DeferredAbandoned? then s.settlements[r.body.operationId := SettledAbandoned]
                            else s.settlements)
      && (if r.body.TurnClosed? && s.openTurn.Some? then
            s'.lastClosed == s.lastClosed[r.coordinate.runId := ClosedTurn(r.coordinate, r.body.status, s.openTurn.value.assistantStopReason)]
          else s'.lastClosed == s.lastClosed && (r.body.TurnClosed? ==> s.count == 0))
  {
    hide FoldRecord, TerminalFits;
    if WellFormed(r) && r.body.TurnClosed? { ClosesOpenTurn(r, s); }
  }

  lemma ClosesOpenTurn(r: Record, s: Scan)
    requires WellFormed(r) && r.body.TurnClosed?
    ensures FoldRecord(r, s.openTurn, s.messages, s.previous).Ok? ==> s.openTurn.Some?
  {
    hide FirstUnanswered;
  }

  lemma OpenedPush(log: seq<Record>, r: Record, run: Id, origin: Record, k: nat)
    requires OpenedBy(log, run, origin, k) && !(r.body.DeferredOpened? && r.coordinate.runId == run)
    ensures OpenedBy(log + [r], run, origin, k)
  {}

  lemma SettledPush(log: seq<Record>, r: Record, op: Id)
    ensures Settles(r, op) ==> (Abandoned(log + [r], op) <==> r.body.DeferredAbandoned?)
    ensures !Settles(r, op) ==> (Abandoned(log + [r], op) <==> Abandoned(log, op))
  {
    var log' := log + [r];
    if Settles(r, op) {
      assert LastSettled(log', op, |log|);
      if k: nat :| LastSettled(log', op, k) && log'[k].body.DeferredAbandoned? { assert k == |log|; }
    } else {
      if k: nat :| LastSettled(log, op, k) && log[k].body.DeferredAbandoned? { assert LastSettled(log', op, k); }
      if k: nat :| LastSettled(log', op, k) && log'[k].body.DeferredAbandoned? {
        assert k < |log| && forall h :: k < h < |log| ==> log'[h] == log[h];
        assert LastSettled(log, op, k);
      }
    }
  }

  lemma ClosedPush(log: seq<Record>, r: Record, run: Id, turn: ClosedTurn, k: nat)
    requires ClosedAs(log, run, turn, k) && !(r.body.TurnClosed? && r.coordinate.runId == run)
    ensures ClosedAs(log + [r], run, turn, k)
  {}

  lemma {:induction false} ScanTracks(stream: StreamKey, log: seq<Record>)
    requires ScanLog(stream, log).Ok?
    ensures TracksLog(log, ScanLog(stream, log).value)
  {
    hide Step, TracksLog;
    if log == [] {
      NothingTracked();
    } else {
      var front, r := log[..|log| - 1], log[|log| - 1];
      assert log == front + [r];
      ScanTracks(stream, front);
      ScanCounts(stream, front);
      StepTracks(stream, ScanLog(stream, front).value, r);
      TracksPush(front, ScanLog(stream, front).value, r, ScanLog(stream, log).value);
    }
  }

  lemma NothingTracked()
    ensures TracksLog([], EmptyScan)
  {}

  lemma TracksPush(log: seq<Record>, s: Scan, r: Record, s': Scan)
    requires TracksLog(log, s) && (s.count == 0 ==> s == EmptyScan && log == [])
    requires s'.latestOrigins == (if r.body.DeferredOpened? then s.latestOrigins[r.coordinate.runId := r] else s.latestOrigins)
    requires s'.settlements == (if r.body.DeferredCompleted? then s.settlements[r.body.operationId := SettledCompleted]
                                else if r.body.DeferredAbandoned? then s.settlements[r.body.operationId := SettledAbandoned]
                                else s.settlements)
    requires if r.body.TurnClosed? && s.openTurn.Some? then
               s'.lastClosed == s.lastClosed[r.coordinate.runId := ClosedTurn(r.coordinate, r.body.status, s.openTurn.value.assistantStopReason)]
             else s'.lastClosed == s.lastClosed && (r.body.TurnClosed? ==> s.count == 0)
    ensures TracksLog(log + [r], s')
  {
    hide Abandoned, OpenedBy, ClosedAs;
    var log' := log + [r];
    forall run | run in s'.latestOrigins ensures exists k: nat :: OpenedBy(log', run, s'.latestOrigins[run], k) {
      if r.body.DeferredOpened? && run == r.coordinate.runId {
        OpenedLast(log, r);
      } else {
        var k: nat :| OpenedBy(log, run, s.latestOrigins[run], k);
        OpenedPush(log, r, run, s.latestOrigins[run], k);
      }
    }
    forall op ensures Abandoned(log', op) <==> op in s'.settlements && s'.settlements[op] == SettledAbandoned { SettledPush(log, r, op); }
    forall run | run in s'.lastClosed
      ensures exists k: nat :: ClosedAs(log', run, s'.lastClosed[run], k)
    {
      if r.body.TurnClosed? && run == r.coordinate.runId {
        TurnLast(log, r, s'.lastClosed[run]);
      } else {
        var k: nat :| ClosedAs(log, run, s.lastClosed[run], k);
        ClosedPush(log, r, run, s.lastClosed[run], k);
      }
    }
  }

  lemma OpenedLast(log: seq<Record>, r: Record)
    requires r.body.DeferredOpened?
    ensures OpenedBy(log + [r], r.coordinate.runId, r, |log|)
  {}

  lemma TurnLast(log: seq<Record>, r: Record, turn: ClosedTurn)
    requires r.body.TurnClosed? && turn.coordinate == r.coordinate && turn.status == r.body.status
    ensures ClosedAs(log + [r], r.coordinate.runId, turn, |log|)
  {}

  // ---------------------------------------------------------------- the records of a restore

  /** The terminal of a run that opened deferred work and was not ended: it names the last operation, is aborted exactly
      when that was abandoned, and stands on the run's open turn or on its last closed one. */
  ghost predicate EndsRun(log: seq<Record>, openTurn: Option<OpenTurn>, c: Coordinate, b: Body) {
    && b.RunClosed?
    && (forall h :: 0 <= h < |log| && log[h].body.RunClosed? ==> log[h].coordinate.runId != c.runId)
    && (exists k: nat :: LastOpened(log, c.runId, k) && log[k].body.operationId == b.operationId && log[k].body.inputId == b.inputId)
    && b.runStatus == (if Abandoned(log, b.operationId) then RunAborted else RunFailed)
    && ((openTurn.Some? && openTurn.value.coordinate == c)
        || exists k: nat :: LastTurn(log, c.runId, k) && log[k].coordinate == c)
  }

  /** The record answers a call that the log left open, interrupts the open turn, or ends a run. */
  ghost predicate Repairs(stream: StreamKey, log: seq<Record>, recovery: Recovery, c: Coordinate, b: Body)
    requires Accepted(stream, log)
  {
    var openTurn := CommittedScan(stream, log).value.openTurn;
    match b
    case ToolCompleted(_, _, _, _, _) =>
      openTurn.Some? && openTurn.value.coordinate == c && exists m: nat :: AnswersFrom(log, m, b, recovery)
    case TurnClosed(status) => openTurn.Some? && openTurn.value.coordinate == c && status == TurnInterrupted
    case RunClosed(_, _, _) => EndsRun(log, openTurn, c, b)
    case _ => false
  }

  lemma ScanOfAccepted(stream: StreamKey, log: seq<Record>)
    requires Accepted(stream, log)
    ensures ScanLog(stream, log) == Ok(CommittedScan(stream, log).value)
  {
    hide ScanLog;
  }

  /** Every record that a restore appends says what the log and the host's answers call for. */
  lemma RepairSays(stream: StreamKey, log: seq<Record>, recovery: Recovery, d: Draft)
    requires Accepted(stream, log) && d in RepairOf(stream, log, recovery)
    ensures Repairs(stream, log, recovery, d.coordinate, d.body)
  {
    hide ScanLog, CommittedScan, Coherent, Typed, Repair, Terminal, TurnReflects, TracksLog, EndsRun, AnswersFrom, TurnRepair, CallsOk, Pending;
    var s := CommittedScan(stream, log).value;
    AcceptedScan(stream, log);
    ScanOfAccepted(stream, log);
    RepairMember(stream, s, recovery, d);
    if d.body.RunClosed? {
      TerminalSays(stream, log, s, d);
    } else {
      ScanReflects(stream, log);
      TurnCalls(stream, s);
      TurnSays(log, s.openTurn.value, recovery, d);
    }
  }

  /** The repair of a turn answers its open calls and interrupts it. */
  lemma TurnSays(log: seq<Record>, t: OpenTurn, recovery: Recovery, d: Draft)
    requires TurnReflects(log, t) && CallsOk(t.assistantRecordId, t.toolCalls) && d in TurnRepair(t, recovery)
    ensures d.coordinate == t.coordinate
    ensures d.body == TurnClosed(TurnInterrupted) || (d.body.ToolCompleted? && exists m: nat :: AnswersFrom(log, m, d.body, recovery))
  {
    hide TurnReflects, AnswersFrom, ResultDrafts, CallsOk, RecoveredFor, ResultMessage;
    ResultMember(t.coordinate, t.toolCalls, recovery, d);
    if d != InterruptedTurn(t) {
      var p :| 0 <= p < |t.toolCalls| && !t.toolCalls[p].completed && d == ResultDraft(t.coordinate, t.toolCalls[p], recovery);
      CallAnswered(log, t, p, recovery);
    }
  }

  lemma TurnCalls(stream: StreamKey, s: Scan)
    requires Coherent(stream, s) && s.openTurn.Some?
    ensures CallsOk(s.openTurn.value.assistantRecordId, s.openTurn.value.toolCalls)
  {
    hide OriginsCoherent, ClosuresCoherent;
  }

  lemma TerminalSays(stream: StreamKey, log: seq<Record>, s: Scan, d: Draft)
    requires ScanLog(stream, log) == Ok(s) && Coherent(stream, s) && Typed(s) && d.body.RunClosed? && Terminal(s, d.coordinate.runId, d)
    ensures EndsRun(log, s.openTurn, d.coordinate, d.body)
  {
    hide ScanLog, Coherent, Abandoned, OpenedBy, ClosedAs;
    var run := d.coordinate.runId;
    ScanTracks(stream, log);
    ClosuresSeen(stream, log, run);
    var k: nat :| OpenedBy(log, run, s.latestOrigins[run], k);
    OpenedMeans(log, run, s.latestOrigins[run], k);
    if !(RepairsOpenRun(s) && run == s.openTurn.value.coordinate.runId) {
      var t: nat :| ClosedAs(log, run, s.lastClosed[run], t);
      ClosedMeans(log, run, s.lastClosed[run], t);
    }
  }

  lemma OpenedMeans(log: seq<Record>, run: Id, r: Record, k: nat)
    requires OpenedBy(log, run, r, k)
    ensures LastOpened(log, run, k) && log[k] == r
  {}

  lemma ClosedMeans(log: seq<Record>, run: Id, turn: ClosedTurn, k: nat)
    requires ClosedAs(log, run, turn, k)
    ensures LastTurn(log, run, k) && log[k].coordinate == turn.coordinate
  {}

  /** A restore answers exactly the calls of the open turn's message that nothing in the log answers. */
  lemma CallsAreAnswered(stream: StreamKey, log: seq<Record>, recovery: Recovery, m: nat, place: nat)
    requires Settleable(stream, log) && m < |log| && Speaks(log[m])
    requires var t := CommittedScan(stream, log).value.openTurn; t.Some? && t.value.assistantRecordId == Some(log[m].recordId)
    requires place < |ContentOf(log[m])| && ContentOf(log[m])[place].Call?
    ensures (exists d :: d in RepairOf(stream, log, recovery) && AnswersPlace(d, log[m].recordId, place))
            <==> !Finished(log, log[m].recordId, place)
  {
    hide ScanLog, CommittedScan, Coherent, Typed, Repair, Terminal, Reflects, AnswersPlace, ResultDrafts, Finished, Pending;
    var s := CommittedScan(stream, log).value;
    var t := s.openTurn.value;
    AcceptedScan(stream, log);
    ScanOfAccepted(stream, log);
    ScanReflects(stream, log);
    TurnCalls(stream, s);
    var m': nat :| Brings(log, m', log[m].recordId, t.toolCalls);
    OneRecord(stream, log, m, m');
    var p :| 0 <= p < |t.toolCalls| && t.toolCalls[p].sourceIndex == place;
    ReflectsFinish(log, t.toolCalls[p]);
    if !t.toolCalls[p].completed {
      var d := ResultDraft(t.coordinate, t.toolCalls[p], recovery);
      ResultPlace(t.coordinate, t.toolCalls[p], recovery);
      ResultMember(t.coordinate, t.toolCalls, recovery, d);
      RepairMember(stream, s, recovery, d);
      assert d in RepairOf(stream, log, recovery) && AnswersPlace(d, log[m].recordId, place);
    } else {
      forall d | d in RepairOf(stream, log, recovery) ensures !AnswersPlace(d, log[m].recordId, place) {
        RepairMember(stream, s, recovery, d);
        ResultMember(t.coordinate, t.toolCalls, recovery, d);
        NoAnswer(t, p, recovery, d);
      }
    }
  }

  predicate AnswersPlace(d: Draft, recordId: Id, place: nat) {
    d.body.ToolCompleted? && d.body.assistantRecordId == recordId && d.body.sourceIndex == place
  }

  lemma NoAnswer(t: OpenTurn, p: nat, recovery: Recovery, d: Draft)
    requires CallsOk(t.assistantRecordId, t.toolCalls) && p < |t.toolCalls| && t.toolCalls[p].completed
    requires d.body.ToolCompleted? ==>
      exists q :: 0 <= q < |t.toolCalls| && !t.toolCalls[q].completed && d == ResultDraft(t.coordinate, t.toolCalls[q], recovery)
    ensures !AnswersPlace(d, t.toolCalls[p].assistantRecordId, t.toolCalls[p].sourceIndex)
  {
    hide RecoveredFor;
  }

  lemma ResultPlace(coordinate: Coordinate, tool: OpenToolCall, recovery: Recovery)
    ensures AnswersPlace(ResultDraft(coordinate, tool, recovery), tool.assistantRecordId, tool.sourceIndex)
  {
    hide RecoveredFor;
  }

  lemma ReflectsFinish(log: seq<Record>, tool: OpenToolCall)
    requires Reflects(log, tool)
    ensures tool.completed <==> Finished(log, tool.assistantRecordId, tool.sourceIndex)
  {}

  /** Record ids do not repeat in an accepted log. */
  lemma OneRecord(stream: StreamKey, log: seq<Record>, a: nat, b: nat)
    requires ScanLog(stream, log).Ok? && a < |log| && b < |log| && log[a].recordId == log[b].recordId
    ensures a == b
  {
    hide Step, ScanLog;
    if a != b {
      var k, h := if a < b then b else a, if a < b then a else b;
      ScanPrefix(stream, log, k);
      ScanPrefix(stream, log, k + 1);
      ScanNext(stream, log, k);
      ScanCounts(stream, log[..k]);
      assert log[..k][h] == log[h];
      StepMoves(stream, ScanLog(stream, log[..k]).value, log[k]);
    }
  }

  /** Which runs a restore ends: those that opened deferred work and were not ended, whose last turn is the open one,
      unless an operation is pending in it, or is closed and did not complete in order to run tools. */
  lemma EndedExactly(stream: StreamKey, log: seq<Record>, recovery: Recovery, run: Id)
    requires Accepted(stream, log)
    ensures var s := CommittedScan(stream, log).value;
      (exists d :: d in RepairOf(stream, log, recovery) && d.body.RunClosed? && d.coordinate.runId == run)
      <==> (&& (exists h :: 0 <= h < |log| && log[h].body.DeferredOpened? && log[h].coordinate.runId == run)
            && !(exists h :: 0 <= h < |log| && log[h].body.RunClosed? && log[h].coordinate.runId == run)
            && Ended(s, run))
  {
    hide ScanLog, CommittedScan, Coherent, Typed, Repair, Terminal, Ended;
    var s := CommittedScan(stream, log).value;
    AcceptedScan(stream, log);
    ScanOfAccepted(stream, log);
    OriginsSeen(stream, log, run);
    ClosuresSeen(stream, log, run);
    forall d | d in RepairOf(stream, log, recovery) && d.body.RunClosed? && d.coordinate.runId == run ensures Terminal(s, run, d) {
      RepairMember(stream, s, recovery, d);
    }
    forall d | Terminal(s, run, d) ensures run in s.latestOrigins && run !in s.closedRuns && Ended(s, run) { TerminalEnds(stream, s, run, d); }
    if run in s.latestOrigins && run !in s.closedRuns && Ended(s, run) {
      var d := TheTerminal(stream, s, run);
      RepairMember(stream, s, recovery, d);
    }
  }

  ghost predicate Ended(s: Scan, run: Id) {
    if OpenRun(s, run) then !PendingTurn(s.openTurn.value)
    else
      && run in s.lastClosed && (s.lastClosed[run].status == TurnInterrupted || s.lastClosed[run].assistantStopReason != Some(ToolUse))
      && !(s.openTurn.Some? && PendingTurn(s.openTurn.value) && run in s.latestOrigins
           && s.latestOrigins[run].body.DeferredOpened? && s.openTurn.value.deferred.value.0.body.DeferredOpened?
           && s.openTurn.value.deferred.value.0.body.operationId == s.latestOrigins[run].body.operationId)
  }

  lemma TerminalEnds(stream: StreamKey, s: Scan, run: Id, d: Draft)
    requires Coherent(stream, s) && Typed(s) && Terminal(s, run, d)
    ensures run in s.latestOrigins && run !in s.closedRuns && Ended(s, run)
  {
    hide TurnOk, ClosuresCoherent;
    assert OriginCoherent(s, run);
  }

  lemma TheTerminal(stream: StreamKey, s: Scan, run: Id) returns (d: Draft)
    requires Coherent(stream, s) && Typed(s) && run in s.latestOrigins && run !in s.closedRuns && Ended(s, run)
    ensures d.body.RunClosed? && d.coordinate.runId == run && Terminal(s, run, d)
  {
    hide TurnOk;
    assert OriginCoherent(s, run);
    d := CloseDraft(s, run, if OpenRun(s, run) then s.openTurn.value.coordinate else s.lastClosed[run].coordinate);
  }
}
