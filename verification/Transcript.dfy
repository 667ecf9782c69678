/** The durable transcript: its records and the scan that accepts or rejects a log one record at a time. */
module Transcript {
  import opened Wrappers

  type Id = string

  datatype Coordinate = Coordinate(sessionId: Id, actorId: Id, runId: Id, turn: nat)

  datatype StreamKey = StreamKey(sessionId: Id, actorId: Id)

  datatype ToolCall = ToolCall(id: Id, name: Id, arguments: string)

  datatype Part = Text(text: string) | Thinking(thinking: string) | Call(call: ToolCall)

  datatype StopReason = Stop | Length | ToolUse

  datatype Message =
    | UserMessage(input: string, timestamp: int)
    | AssistantMessage(content: seq<Part>, api: string, provider: string, model: string, stopReason: StopReason, timestamp: int)
    | ToolResultMessage(toolCallId: Id, toolName: Id, output: string, isError: bool, timestamp: int)

  datatype ToolOutcome = Completed | NotStarted | OutcomeUnknown

  datatype TurnStatus = TurnCompleted | TurnInterrupted

  datatype RunStatus = RunCompleted | RunAborted | RunFailed

  datatype Body =
    | MessageCompleted(message: Message)
    | ToolStarted(assistantRecordId: Id, sourceIndex: nat, toolCallId: Id, toolName: Id)
    | ToolCompleted(assistantRecordId: Id, startedRecordId: Option<Id>, sourceIndex: nat, outcome: ToolOutcome, message: Message)
    | TurnClosed(status: TurnStatus)
    | Checkpoint(sourceRevision: nat, sourceRecordId: Id, replacement: seq<Message>)
    | DeferredOpened(operationId: Id, inputId: Id, api: string, provider: string, modelId: string)
    | DeferredCompleted(operationId: Id, openedRecordId: Id, message: Message)
    | DeferredAbandoned(operationId: Id, openedRecordId: Id)
    | RunClosed(operationId: Id, inputId: Id, runStatus: RunStatus)

  datatype Record = Record(recordId: Id, sequence: nat, coordinate: Coordinate, body: Body)

  datatype OpenToolCall = OpenToolCall(
    assistantRecordId: Id, sourceIndex: nat, call: ToolCall, start: Option<Record>, completed: bool)

  datatype DeferredStatus = DeferredPending | DeferredDone | DeferredGivenUp

  datatype OpenTurn = OpenTurn(
    coordinate: Coordinate, hasUserMessage: bool,
    assistantRecordId: Option<Id>, assistantStopReason: Option<StopReason>,
    toolCalls: seq<OpenToolCall>, deferred: Option<(Record, DeferredStatus)>)

  datatype ClosedTurn = ClosedTurn(coordinate: Coordinate, status: TurnStatus, assistantStopReason: Option<StopReason>)

  datatype DeferredRun = DeferredRun(coordinate: Coordinate, inputId: Id, operationId: Id, status: RunStatus)

  datatype Settled = SettledCompleted | SettledAbandoned

  /** The state of the scan. originOrder lists the runs of latestOrigins by first insertion, as its map iterates. */
  datatype Scan = Scan(
    count: nat, expected: nat, retained: bool,
    openTurn: Option<OpenTurn>, checkpointRevision: Option<nat>, previous: Option<Record>,
    recordIds: set<Id>, messages: seq<Message>,
    deferredOrigins: set<Id>, latestOrigins: map<Id, Record>, originOrder: seq<Id>,
    settlements: map<Id, Settled>, closedRuns: set<Id>, lastClosed: map<Id, ClosedTurn>,
    terminalRuns: seq<DeferredRun>)

  const EmptyScan := Scan(0, 1, false, None, None, None, {}, [], {}, map[], [], map[], {}, map[], [])

  datatype Fault =
    | InvalidSchema
    | IdentityConflict
    | ForeignStream
    | SequenceGap
    | BadRetainedPrefix
    | AfterRunTerminal
    | RepeatedOperation
    | TerminalMismatch
    | RunClosedInOpenTurn
    | BadCheckpoint
    | OrphanTurnClosure
    | ClosesPendingOperation
    | ClosesUnansweredCalls
    | CompletesWithoutAssistant
    | NewTurnBeforeClosure
    | SecondAssistant
    | LateUserMessage
    | SecondOperation
    | OperationMismatch
    | UnknownCall
    | StartedTwice
    | StartedAfterResult
    | OrphanResult
    | ResultOutOfOrder
    | ResultWithoutStart
    | StartMismatch

  // ---------------------------------------------------------------- messages and their tool calls

  predicate WellFormed(r: Record) {
    match r.body
    case MessageCompleted(m) => m.UserMessage? || m.AssistantMessage?
    case ToolCompleted(_, _, _, _, m) => m.ToolResultMessage?
    case DeferredCompleted(_, _, m) => m.AssistantMessage?
    case Checkpoint(_, _, replacement) => replacement != []
    case _ => true
  }

  /** The calls of an assistant message from part i on, each with its place in the message. */
  function OpenToolCalls(recordId: Id, content: seq<Part>, i: nat): seq<OpenToolCall>
    requires i <= |content|
    decreases |content| - i
  {
    if i == |content| then []
    else (if content[i].Call? then [OpenToolCall(recordId, i, content[i].call, None, false)] else [])
         + OpenToolCalls(recordId, content, i + 1)
  }

  function CallsOf(content: seq<Part>): seq<ToolCall> {
    if content == [] then []
    else (if content[0].Call? then [content[0].call] else []) + CallsOf(content[1..])
  }

  /** Reads a history with the calls still to be answered: a result must answer the first of them, and nothing else
      may come while one is unanswered. */
  function Balanced(messages: seq<Message>, pending: seq<ToolCall>): bool {
    if messages == [] then pending == []
    else if pending != [] then
      && messages[0].ToolResultMessage?
      && messages[0].toolCallId == pending[0].id && messages[0].toolName == pending[0].name
      && Balanced(messages[1..], pending[1..])
    else match messages[0]
      case ToolResultMessage(_, _, _, _, _) => false
      case AssistantMessage(content, _, _, _, _, _) => Balanced(messages[1..], CallsOf(content))
      case UserMessage(_, _) => Balanced(messages[1..], [])
  }

  predicate ExactBoundary(checkpoint: Record, source: Record)
    requires checkpoint.body.Checkpoint?
  {
    && source.body == TurnClosed(TurnCompleted)
    && checkpoint.sequence == source.sequence + 1
    && checkpoint.body.sourceRevision == source.sequence
    && checkpoint.body.sourceRecordId == source.recordId
    && checkpoint.coordinate == source.coordinate
    && Balanced(checkpoint.body.replacement, [])
  }

  // ---------------------------------------------------------------- folding one record into the open turn

  /** The position of the first call, from i on, with this assistant record and place; |calls| when there is none. */
  function FindCall(calls: seq<OpenToolCall>, assistantRecordId: Id, sourceIndex: nat, i: nat): (p: nat)
    requires i <= |calls|
    ensures i <= p <= |calls|
    decreases |calls| - i
  {
    if i == |calls| || (calls[i].assistantRecordId == assistantRecordId && calls[i].sourceIndex == sourceIndex) then i
    else FindCall(calls, assistantRecordId, sourceIndex, i + 1)
  }

  function FirstUnanswered(calls: seq<OpenToolCall>, i: nat): (p: nat)
    requires i <= |calls|
    ensures i <= p <= |calls|
    ensures forall k :: i <= k < p ==> calls[k].completed
    ensures p < |calls| ==> !calls[p].completed
    decreases |calls| - i
  {
    if i == |calls| || !calls[i].completed then i else FirstUnanswered(calls, i + 1)
  }

  predicate CallMatches(calls: seq<OpenToolCall>, p: nat, toolCallId: Id, toolName: Id) {
    p < |calls| && calls[p].call.id == toolCallId && calls[p].call.name == toolName
  }

  predicate PendingTurn(t: OpenTurn) {
    t.deferred.Some? && t.deferred.value.1 == DeferredPending
  }

  datatype Folded = Folded(openTurn: Option<OpenTurn>, messages: seq<Message>)

  function FoldTurnClosed(record: Record, status: TurnStatus, openTurn: Option<OpenTurn>, messages: seq<Message>): Result<Folded, Fault> {
    if openTurn.None? || openTurn.value.coordinate != record.coordinate then Err(OrphanTurnClosure)
    else if PendingTurn(openTurn.value) then Err(ClosesPendingOperation)
    else if FirstUnanswered(openTurn.value.toolCalls, 0) < |openTurn.value.toolCalls| then Err(ClosesUnansweredCalls)
    else if status == TurnCompleted && openTurn.value.assistantRecordId.None? then Err(CompletesWithoutAssistant)
    else Ok(Folded(None, messages))
  }

  function FoldMessage(record: Record, message: Message, t: OpenTurn, messages: seq<Message>): Result<Folded, Fault> {
    if message.AssistantMessage? then
      if t.assistantRecordId.Some? || t.deferred.Some? then Err(SecondAssistant)
      else Ok(Folded(Some(Answered(t, record.recordId, message)), messages + [message]))
    else if t.assistantRecordId.Some? || t.deferred.Some? then Err(LateUserMessage)
    else Ok(Folded(Some(t.(hasUserMessage := true)), messages + [message]))
  }

  /** The turn once its assistant message is known. */
  function Answered(t: OpenTurn, recordId: Id, message: Message): OpenTurn
    requires message.AssistantMessage?
  {
    t.(assistantRecordId := Some(recordId), assistantStopReason := Some(message.stopReason),
       toolCalls := OpenToolCalls(recordId, message.content, 0))
  }

  predicate SettlesOpen(t: OpenTurn, operationId: Id, openedRecordId: Id) {
    && PendingTurn(t)
    && t.deferred.value.0.body.DeferredOpened?
    && t.deferred.value.0.body.operationId == operationId
    && t.deferred.value.0.recordId == openedRecordId
  }

  function FoldDeferred(record: Record, t: OpenTurn, messages: seq<Message>): Result<Folded, Fault>
    requires record.body.DeferredOpened? || record.body.DeferredCompleted? || record.body.DeferredAbandoned?
    requires WellFormed(record)
  {
    match record.body
    case DeferredOpened(_, _, _, _, _) =>
      if t.deferred.Some? then Err(SecondOperation)
      else if t.assistantRecordId.Some? then Err(SecondOperation)
      else Ok(Folded(Some(t.(deferred := Some((record, DeferredPending)))), messages))
    case DeferredCompleted(operationId, openedRecordId, message) =>
      if !SettlesOpen(t, operationId, openedRecordId) then Err(OperationMismatch)
      else
        var origin := t.deferred.value.0;
        if message.api != origin.body.api || message.provider != origin.body.provider || message.model != origin.body.modelId then
          Err(OperationMismatch)
        else Ok(Folded(Some(Answered(t.(deferred := Some((origin, DeferredDone))), record.recordId, message)), messages + [message]))
    case DeferredAbandoned(operationId, openedRecordId) =>
      if !SettlesOpen(t, operationId, openedRecordId) then Err(OperationMismatch)
      else Ok(Folded(Some(t.(deferred := Some((t.deferred.value.0, DeferredGivenUp)))), messages))
  }

  function FoldToolStarted(record: Record, t: OpenTurn, messages: seq<Message>): Result<Folded, Fault>
    requires record.body.ToolStarted?
  {
    var b := record.body;
    var p := FindCall(t.toolCalls, b.assistantRecordId, b.sourceIndex, 0);
    if !CallMatches(t.toolCalls, p, b.toolCallId, b.toolName) then Err(UnknownCall)
    else if t.toolCalls[p].start.Some? then Err(StartedTwice)
    else if t.toolCalls[p].completed then Err(StartedAfterResult)
    else Ok(Folded(Some(t.(toolCalls := t.toolCalls[p := t.toolCalls[p].(start := Some(record))])), messages))
  }

  function FoldToolCompleted(record: Record, t: OpenTurn, messages: seq<Message>): Result<Folded, Fault>
    requires record.body.ToolCompleted? && WellFormed(record)
  {
    var b := record.body;
    var next := FirstUnanswered(t.toolCalls, 0);
    var p := FindCall(t.toolCalls, b.assistantRecordId, b.sourceIndex, 0);
    if next == |t.toolCalls| then Err(OrphanResult)
    else if !CallMatches(t.toolCalls, p, b.message.toolCallId, b.message.toolName) then Err(UnknownCall)
    else if p != next then Err(ResultOutOfOrder)
    else if b.outcome != NotStarted && t.toolCalls[p].start.None? then Err(ResultWithoutStart)
    else if b.startedRecordId != (if t.toolCalls[p].start.Some? then Some(t.toolCalls[p].start.value.recordId) else None) then
      Err(StartMismatch)
    else Ok(Folded(Some(t.(toolCalls := t.toolCalls[p := t.toolCalls[p].(completed := true)])), messages + [b.message]))
  }

  /** A record that belongs to the open turn t. */
  function FoldIntoTurn(record: Record, t: OpenTurn, messages: seq<Message>): Result<Folded, Fault>
    requires WellFormed(record)
    requires !record.body.RunClosed? && !record.body.Checkpoint? && !record.body.TurnClosed?
  {
    if record.body.MessageCompleted? then FoldMessage(record, record.body.message, t, messages)
    else if record.body.ToolStarted? then FoldToolStarted(record, t, messages)
    else if record.body.ToolCompleted? then FoldToolCompleted(record, t, messages)
    else FoldDeferred(record, t, messages)
  }

  function FoldRecord(record: Record, openTurn: Option<OpenTurn>, messages: seq<Message>, previous: Option<Record>): Result<Folded, Fault>
    requires WellFormed(record)
  {
    match record.body
    case RunClosed(_, _, _) => if openTurn.Some? then Err(RunClosedInOpenTurn) else Ok(Folded(None, messages))
    case Checkpoint(_, _, replacement) =>
      if openTurn.Some? || previous.None? || !ExactBoundary(record, previous.value) then Err(BadCheckpoint)
      else Ok(Folded(None, replacement))
    case TurnClosed(status) => FoldTurnClosed(record, status, openTurn, messages)
    case _ =>
      var t := if openTurn.Some? then openTurn.value else OpenTurn(record.coordinate, false, None, None, [], None);
      if t.coordinate != record.coordinate then Err(NewTurnBeforeClosure) else FoldIntoTurn(record, t, messages)
  }

  // ---------------------------------------------------------------- the scan

  function TrackOpened(s: Scan, record: Record): Result<Scan, Fault>
    requires record.body.DeferredOpened?
  {
    if record.body.operationId in s.deferredOrigins then Err(RepeatedOperation)
    else
      var run := record.coordinate.runId;
      Ok(s.(deferredOrigins := s.deferredOrigins + {record.body.operationId},
            latestOrigins := s.latestOrigins[run := record],
            originOrder := if run in s.latestOrigins then s.originOrder else s.originOrder + [run]))
  }

  /** A run terminal must name its run's latest operation, settled, and the run's last closed turn. */
  predicate TerminalFits(s: Scan, record: Record)
    requires record.body.RunClosed?
  {
    var run := record.coordinate.runId;
    && run in s.latestOrigins
    && s.latestOrigins[run].body.DeferredOpened?
    && s.latestOrigins[run].body.operationId == record.body.operationId
    && s.latestOrigins[run].body.inputId == record.body.inputId
    && record.body.operationId in s.settlements
    && (s.settlements[record.body.operationId] == SettledAbandoned ==> record.body.runStatus == RunAborted)
    && run in s.lastClosed && s.lastClosed[run].coordinate == record.coordinate
  }

  function RunOfTerminal(record: Record): DeferredRun
    requires record.body.RunClosed?
  {
    DeferredRun(record.coordinate, record.body.inputId, record.body.operationId, record.body.runStatus)
  }

  /** What the scan records about deferred work before folding the record. */
  function Track(s: Scan, record: Record): Result<Scan, Fault> {
    match record.body
    case Checkpoint(_, _, _) => Ok(s.(checkpointRevision := Some(record.sequence)))
    case DeferredOpened(_, _, _, _, _) => TrackOpened(s, record)
    case DeferredCompleted(operationId, _, _) => Ok(s.(settlements := s.settlements[operationId := SettledCompleted]))
    case DeferredAbandoned(operationId, _) => Ok(s.(settlements := s.settlements[operationId := SettledAbandoned]))
    case RunClosed(_, _, _) =>
      if !TerminalFits(s, record) then Err(TerminalMismatch)
      else Ok(s.(closedRuns := s.closedRuns + {record.coordinate.runId}, terminalRuns := s.terminalRuns + [RunOfTerminal(record)]))
    case _ => Ok(s)
  }

  function Finish(s: Scan, record: Record, closing: Option<OpenTurn>, folded: Folded): Scan {
    s.(openTurn := folded.openTurn, messages := folded.messages, previous := Some(record),
       lastClosed := if record.body.TurnClosed? && closing.Some?
                     then s.lastClosed[record.coordinate.runId :=
                            ClosedTurn(record.coordinate, record.body.status, closing.value.assistantStopReason)]
                     else s.lastClosed)
  }

  /** Everything after the envelope checks. */
  function Absorb(s: Scan, record: Record): Result<Scan, Fault>
    requires WellFormed(record)
  {
    if record.coordinate.runId in s.closedRuns then Err(AfterRunTerminal)
    else match Track(s, record)
      case Err(e) => Err(e)
      case Ok(tracked) =>
        match FoldRecord(record, s.openTurn, s.messages, s.previous)
        case Err(e) => Err(e)
        case Ok(folded) => Ok(Finish(tracked, record, s.openTurn, folded))
  }

  function Step(stream: StreamKey, s: Scan, record: Record): Result<Scan, Fault> {
    var expected := if s.count == 0 then record.sequence else s.expected;
    var retained := if s.count == 0 then record.sequence > 1 else s.retained;
    if !WellFormed(record) then Err(InvalidSchema)
    else if record.recordId in s.recordIds then Err(IdentityConflict)
    else if StreamKey(record.coordinate.sessionId, record.coordinate.actorId) != stream then Err(ForeignStream)
    else if record.sequence != expected then Err(SequenceGap)
    else
      var entered := s.(count := s.count + 1, expected := expected + 1, retained := retained,
                        recordIds := s.recordIds + {record.recordId});
      if retained && s.count == 0 then
        if record.body == TurnClosed(TurnCompleted) then Ok(entered.(previous := Some(record))) else Err(BadRetainedPrefix)
      else if retained && s.count == 1 && !record.body.Checkpoint? then Err(BadRetainedPrefix)
      else Absorb(entered, record)
  }

  /** The scan of a log, record by record. */
  function ScanLog(stream: StreamKey, log: seq<Record>): Result<Scan, Fault> {
    if log == [] then Ok(EmptyScan)
    else match ScanLog(stream, log[..|log| - 1])
      case Err(e) => Err(e)
      case Ok(s) => Step(stream, s, log[|log| - 1])
  }

  /** A retained log must hold its checkpoint behind the source it starts with. */
  function CommittedScan(stream: StreamKey, log: seq<Record>): Result<Scan, Fault> {
    match ScanLog(stream, log)
    case Err(e) => Err(e)
    case Ok(s) => if s.retained && |log| < 2 then Err(BadRetainedPrefix) else Ok(s)
  }

  predicate Accepted(stream: StreamKey, log: seq<Record>) {
    CommittedScan(stream, log).Ok?
  }

  /** scanCommittedTranscript: the loop over the loaded records. */
  method ScanCommittedTranscript(stream: StreamKey, log: seq<Record>) returns (r: Result<Scan, Fault>)
    ensures r.Ok? <==> Accepted(stream, log)
    ensures r == CommittedScan(stream, log)
  {
    var scan := EmptyScan;
    for index := 0 to |log|
      invariant ScanLog(stream, log[..index]) == Ok(scan)
      invariant scan.count == index
    {
      assert log[..index + 1][..index] == log[..index];
      var next := Step(stream, scan, log[index]);
      StepCounts(stream, scan, log[index]);
      if next.Err? {
        ScanStopsAt(stream, log, index + 1);
        return Err(next.error);
      }
      scan := next.value;
    }
    assert log[..|log|] == log;
    if scan.retained && |log| < 2 { return Err(BadRetainedPrefix); }
    return Ok(scan);
  }

  /** The part of the state that the envelope checks use. */
  predicate SameEnvelope(s: Scan, t: Scan) {
    t.count == s.count && t.expected == s.expected && t.recordIds == s.recordIds && t.retained == s.retained
  }

  lemma TrackCounts(s: Scan, record: Record)
    ensures Track(s, record).Ok? ==> SameEnvelope(s, Track(s, record).value)
  {
    hide TerminalFits;
  }

  lemma AbsorbCounts(s: Scan, record: Record)
    requires WellFormed(record)
    ensures Absorb(s, record).Ok? ==>
              SameEnvelope(s, Absorb(s, record).value) && Absorb(s, record).value.previous == Some(record)
  {
    hide FoldRecord, Track, WellFormed;
    TrackCounts(s, record);
  }

  lemma StepCounts(stream: StreamKey, s: Scan, record: Record)
    ensures Step(stream, s, record).Ok? ==>
              var s' := Step(stream, s, record).value;
              && s'.count == s.count + 1 && s'.expected == record.sequence + 1
              && s'.recordIds == s.recordIds + {record.recordId} && s'.previous == Some(record)
              && s'.retained == if s.count == 0 then record.sequence > 1 else s.retained
  {
    hide Absorb, WellFormed;
    if WellFormed(record) {
      var expected := if s.count == 0 then record.sequence else s.expected;
      AbsorbCounts(s.(count := s.count + 1, expected := expected + 1,
                      retained := if s.count == 0 then record.sequence > 1 else s.retained,
                      recordIds := s.recordIds + {record.recordId}), record);
    }
  }

  /** A rejected prefix rejects the whole log with the same fault. */
  lemma {:induction false} ScanStopsAt(stream: StreamKey, log: seq<Record>, n: nat)
    requires n <= |log| && ScanLog(stream, log[..n]).Err?
    ensures ScanLog(stream, log) == ScanLog(stream, log[..n])
    decreases |log| - n
  {
    hide Step;
    if n == |log| {
      assert log[..n] == log;
    } else {
      assert log[..n + 1][..n] == log[..n];
      ScanStopsAt(stream, log, n + 1);
    }
  }
}
