/** Which logs are accepted, told record by record of the log alone. */
module TranscriptGrammar {
  import opened Wrappers
  import opened Transcript
  import opened TranscriptInvariant
  import opened TranscriptResume
  import opened TranscriptRestore
  import opened TranscriptPurge
  import opened TranscriptPurgedRestore
  import opened TranscriptCalls
  import opened TranscriptRestored

  // ---------------------------------------------------------------- the open turn of a log

  /** No turn is open behind the record. */
  predicate Ends(r: Record) {
    r.body.TurnClosed? || r.body.RunClosed? || r.body.Checkpoint?
  }

  predicate Open(log: seq<Record>) {
    log != [] && !Ends(log[|log| - 1])
  }

  /** Nothing from position k on ends a turn: the records there are those of the open turn. */
  predicate InTurn(log: seq<Record>, k: nat) {
    k < |log| && forall j :: k <= j < |log| ==> !Ends(log[j])
  }

  predicate SpokenAt(log: seq<Record>, k: nat) {
    k < |log| && InTurn(log, k) && Speaks(log[k])
  }

  predicate OpenedAt(log: seq<Record>, k: nat) {
    k < |log| && InTurn(log, k) && log[k].body.DeferredOpened?
  }

  predicate SettlesSome(r: Record) {
    r.body.DeferredCompleted? || r.body.DeferredAbandoned?
  }

  predicate PendingAt(log: seq<Record>, k: nat) {
    OpenedAt(log, k) && forall j :: k < j < |log| ==> !SettlesSome(log[j])
  }

  ghost predicate Spoken(log: seq<Record>) {
    exists k: nat :: SpokenAt(log, k)
  }

  ghost predicate OpenedIn(log: seq<Record>) {
    exists k: nat :: OpenedAt(log, k)
  }

  ghost predicate PendingIn(log: seq<Record>) {
    exists k: nat :: PendingAt(log, k)
  }

  // ---------------------------------------------------------------- what may come next

  predicate CallAt(r: Record, place: nat) {
    Speaks(r) && place < |ContentOf(r)| && ContentOf(r)[place].Call?
  }

  /** The open turn's message at position m makes this call. */
  predicate MakesCall(log: seq<Record>, m: nat, recordId: Id, place: nat, id: Id, name: Id) {
    && SpokenAt(log, m) && log[m].recordId == recordId && CallAt(log[m], place)
    && ContentOf(log[m])[place].call.id == id && ContentOf(log[m])[place].call.name == name
  }

  ghost predicate CallsBeforeFinished(log: seq<Record>, m: nat, place: nat)
    requires m < |log| && CallAt(log[m], place)
  {
    forall i :: 0 <= i < place && CallAt(log[m], i) ==> Finished(log, log[m].recordId, i)
  }

  ghost predicate AllCallsFinished(log: seq<Record>) {
    forall m: nat, i: nat :: m < |log| && SpokenAt(log, m) && CallAt(log[m], i) ==> Finished(log, log[m].recordId, i)
  }

  /** The start that a result names is the one that the log holds. */
  ghost predicate NamesStart(log: seq<Record>, b: Body)
    requires b.ToolCompleted?
  {
    if Started(log, b.assistantRecordId, b.sourceIndex) then
      b.startedRecordId.Some? && exists j :: 0 <= j < |log| && Starts(log[j], b.assistantRecordId, b.sourceIndex) && log[j].recordId == b.startedRecordId.value
    else b.startedRecordId.None? && b.outcome == NotStarted
  }

  ghost predicate SettlesPending(log: seq<Record>, k: nat, operationId: Id, openedRecordId: Id) {
    PendingAt(log, k) && log[k].body.operationId == operationId && log[k].recordId == openedRecordId
  }

  /** The run's last operation, which was settled; a terminal stands on the run's last turn, and one for an abandoned
      operation says aborted. */
  ghost predicate EndsLast(log: seq<Record>, r: Record)
    requires r.body.RunClosed?
  {
    var run := r.coordinate.runId;
    && (exists k: nat :: LastOpened(log, run, k) && log[k].body.operationId == r.body.operationId && log[k].body.inputId == r.body.inputId)
    && (exists j :: 0 <= j < |log| && Settles(log[j], r.body.operationId))
    && (Abandoned(log, r.body.operationId) ==> r.body.runStatus == RunAborted)
    && (exists t: nat :: LastTurn(log, run, t) && log[t].coordinate == r.coordinate)
  }

  ghost predicate BodyFollows(log: seq<Record>, r: Record)
    requires WellFormed(r)
  {
    var fitsTurn := Open(log) ==> log[|log| - 1].coordinate == r.coordinate;
    match r.body
    case MessageCompleted(_) => fitsTurn && !Spoken(log) && !OpenedIn(log)
    case DeferredOpened(op, _, _, _, _) =>
      && fitsTurn && !Spoken(log) && !OpenedIn(log)
      && forall k :: 0 <= k < |log| && log[k].body.DeferredOpened? ==> log[k].body.operationId != op
    case DeferredCompleted(op, openedId, message) =>
      && fitsTurn
      && exists k: nat :: SettlesPending(log, k, op, openedId) && message.api == log[k].body.api
                          && message.provider == log[k].body.provider && message.model == log[k].body.modelId
    case DeferredAbandoned(op, openedId) => fitsTurn && exists k: nat :: SettlesPending(log, k, op, openedId)
    case ToolStarted(recordId, place, id, name) =>
      && fitsTurn && (exists m: nat :: MakesCall(log, m, recordId, place, id, name))
      && !Started(log, recordId, place) && !Finished(log, recordId, place)
    case ToolCompleted(recordId, _, place, _, message) =>
      && fitsTurn && !Finished(log, recordId, place) && NamesStart(log, r.body)
      && exists m: nat :: MakesCall(log, m, recordId, place, message.toolCallId, message.toolName) && CallsBeforeFinished(log, m, place)
    case TurnClosed(status) =>
      && Open(log) && log[|log| - 1].coordinate == r.coordinate && !PendingIn(log) && AllCallsFinished(log)
      && (status == TurnCompleted ==> Spoken(log))
    case RunClosed(_, _, _) => !Open(log) && EndsLast(log, r)
    case Checkpoint(_, _, _) => log != [] && ExactBoundary(r, log[|log| - 1])
  }

  /** The record may come next behind an accepted log. A log that was cut starts with a completed turn's end and the
      checkpoint behind it. */
  ghost predicate Follows(stream: StreamKey, log: seq<Record>, r: Record) {
    && WellFormed(r) && StreamOf(r.coordinate) == stream
    && (forall k :: 0 <= k < |log| ==> log[k].recordId != r.recordId)
    && (log != [] ==> r.sequence == log[|log| - 1].sequence + 1)
    && (|log| == 1 && log[0].sequence > 1 ==> r.body.Checkpoint?)
    && (if log == [] && r.sequence > 1 then r.body == TurnClosed(TurnCompleted)
        else (forall k :: 0 <= k < |log| && log[k].body.RunClosed? ==> log[k].coordinate.runId != r.coordinate.runId) && BodyFollows(log, r))
  }

  // ---------------------------------------------------------------- what the scan knows of the open turn

  /** The turn holds what the records of the log's open turn brought. */
  ghost predicate TurnParts(log: seq<Record>, t: OpenTurn) {
    && (forall j, k :: SpokenAt(log, j) && SpokenAt(log, k) ==> j == k)
    && (forall j, k :: OpenedAt(log, j) && OpenedAt(log, k) ==> j == k)
    && (t.assistantRecordId.None? ==> !Spoken(log))
    && (t.assistantRecordId.Some? ==> exists m: nat :: SpokenAt(log, m) && log[m].recordId == t.assistantRecordId.value)
    && (t.deferred.None? ==> !OpenedIn(log))
    && (t.deferred.Some? ==> exists k: nat :: DeferredAt(log, t, k))
  }

  ghost predicate TurnShown(log: seq<Record>, t: OpenTurn) {
    log != [] && t.coordinate == log[|log| - 1].coordinate && TurnParts(log, t)
  }

  ghost predicate DeferredAt(log: seq<Record>, t: OpenTurn, k: nat) {
    && t.deferred.Some? && OpenedAt(log, k) && log[k] == t.deferred.value.0
    && (PendingTurn(t) <==> PendingAt(log, k))
  }

  ghost predicate Shows(log: seq<Record>, s: Scan) {
    (s.openTurn.Some? <==> Open(log)) && (s.openTurn.Some? ==> TurnShown(log, s.openTurn.value))
  }

  lemma InTurnPush(log: seq<Record>, r: Record, k: nat)
    requires !Ends(r)
    ensures InTurn(log + [r], k) <==> (k == |log| || InTurn(log, k))
  {
    var log' := log + [r];
    if InTurn(log, k) { forall j | k <= j < |log'| ensures !Ends(log'[j]) { if j < |log| { assert log'[j] == log[j]; } } }
    if InTurn(log', k) && k < |log| { forall j | k <= j < |log| ensures !Ends(log[j]) { assert log'[j] == log[j]; } }
  }

  /** What a record adds to the open turn. */
  lemma TurnPush(log: seq<Record>, r: Record, k: nat)
    requires !Ends(r)
    ensures SpokenAt(log + [r], k) <==> (SpokenAt(log, k) || (k == |log| && Speaks(r)))
    ensures OpenedAt(log + [r], k) <==> (OpenedAt(log, k) || (k == |log| && r.body.DeferredOpened?))
    ensures PendingAt(log + [r], k) <==> ((PendingAt(log, k) && !SettlesSome(r)) || (k == |log| && r.body.DeferredOpened?))
  {
    InTurnPush(log, r, k);
    var log' := log + [r];
    if k < |log| { assert log'[k] == log[k]; }
    hide InTurn;
    if PendingAt(log, k) && !SettlesSome(r) {
      forall j | k < j < |log'| ensures !SettlesSome(log'[j]) { if j < |log| { assert log'[j] == log[j]; } }
    }
    if PendingAt(log', k) && k < |log| {
      forall j | k < j < |log| ensures !SettlesSome(log[j]) { assert log'[j] == log[j]; }
      assert log'[|log|] == r;
    }
  }

  /** Between turns nothing is in a turn. */
  lemma ClosedShows(log: seq<Record>, k: nat)
    requires !Open(log)
    ensures !InTurn(log, k)
  {}

  lemma NoParts(log: seq<Record>, t: OpenTurn)
    requires !Open(log) && t.assistantRecordId.None? && t.deferred.None?
    ensures TurnParts(log, t)
  {
    forall k: nat ensures !InTurn(log, k) { ClosedShows(log, k); }
  }

  lemma SpokenGrows(log: seq<Record>, r: Record, t: OpenTurn, t': OpenTurn)
    requires !Ends(r) && TurnParts(log, t) && CallsMove(t, r, t') && (Speaks(r) ==> t.assistantRecordId.None?)
    ensures forall j, k :: SpokenAt(log + [r], j) && SpokenAt(log + [r], k) ==> j == k
    ensures t'.assistantRecordId.None? ==> !Spoken(log + [r])
    ensures t'.assistantRecordId.Some? ==> exists m: nat :: SpokenAt(log + [r], m) && (log + [r])[m].recordId == t'.assistantRecordId.value
  {
    hide InTurn, OpenedAt, PendingAt, Speaks, StartsAt, FinishesAt;
    var log' := log + [r];
    forall k: nat ensures SpokenAt(log', k) <==> (SpokenAt(log, k) || (k == |log| && Speaks(r))) { TurnPush(log, r, k); }
    if Speaks(r) {
      assert SpokenAt(log', |log|);
    } else if t.assistantRecordId.Some? {
      var m: nat :| SpokenAt(log, m) && log[m].recordId == t.assistantRecordId.value;
      assert log'[m] == log[m];
    }
  }

  lemma OpenedGrows(log: seq<Record>, r: Record, t: OpenTurn, t': OpenTurn)
    requires !Ends(r) && TurnParts(log, t) && DeferredMoves(r, t, t')
    ensures forall j, k :: OpenedAt(log + [r], j) && OpenedAt(log + [r], k) ==> j == k
    ensures t'.deferred.None? ==> !OpenedIn(log + [r])
    ensures t'.deferred.Some? ==> exists k: nat :: DeferredAt(log + [r], t', k)
  {
    hide SpokenAt, OpenedAt, PendingAt, Speaks, Spoken;
    var log' := log + [r];
    forall k: nat
      ensures OpenedAt(log', k) <==> (OpenedAt(log, k) || (k == |log| && r.body.DeferredOpened?))
      ensures PendingAt(log', k) <==> ((PendingAt(log, k) && !SettlesSome(r)) || (k == |log| && r.body.DeferredOpened?))
    {
      TurnPush(log, r, k);
    }
    if r.body.DeferredOpened? {
      assert DeferredAt(log', t', |log|);
    } else if t.deferred.Some? {
      var k: nat :| DeferredAt(log, t, k);
      OpenedHere(log, k);
      assert log'[k] == log[k];
      assert DeferredAt(log', t', k);
    }
  }

  lemma OpenedHere(log: seq<Record>, k: nat)
    requires OpenedAt(log, k)
    ensures k < |log| && log[k].body.DeferredOpened?
  {}

  lemma EndedShows(log: seq<Record>, r: Record, s: Scan)
    requires Ends(r) && s.openTurn.None?
    ensures Shows(log + [r], s)
  {}

  /** Every accepted log shows the scan's open turn. */
  lemma {:induction false} ScanShows(stream: StreamKey, log: seq<Record>)
    requires ScanLog(stream, log).Ok?
    ensures Shows(log, ScanLog(stream, log).value)
  {
    hide Step, Shows;
    if log == [] {
      NothingShown();
    } else {
      var front, r := log[..|log| - 1], log[|log| - 1];
      assert log == front + [r];
      ScanShows(stream, front);
      StepShows(stream, front, ScanLog(stream, front).value, r);
    }
  }

  lemma NothingShown()
    ensures Shows([], EmptyScan)
  {}

  lemma StepShows(stream: StreamKey, log: seq<Record>, s: Scan, r: Record)
    requires ScanLog(stream, log) == Ok(s) && Step(stream, s, r).Ok? && Shows(log, s)
    ensures Shows(log + [r], Step(stream, s, r).value)
  {
    hide Step, ScanLog, CallsMove, DeferredMoves, TurnParts, Coherent, TurnOk;
    var s' := Step(stream, s, r).value;
    ScanCoherent(stream, log);
    ScanCounts(stream, log);
    StepMoves(stream, s, r);
    if Ends(r) {
      StepEnds(stream, s, r);
      EndedShows(log, r, s');
    } else {
      StepTurn(stream, s, r);
      var t, t' := CurrentTurn(s, r), s'.openTurn.value;
      if s.openTurn.None? { NoParts(log, t); }
      SpokenGrows(log, r, t, t');
      OpenedGrows(log, r, t, t');
      assert TurnParts(log + [r], t') by { hide SpokenAt, OpenedAt, Spoken, OpenedIn, DeferredAt; PartsOf(log + [r], t'); }
    }
  }

  lemma PartsOf(log: seq<Record>, t: OpenTurn)
    requires forall j, k :: SpokenAt(log, j) && SpokenAt(log, k) ==> j == k
    requires forall j, k :: OpenedAt(log, j) && OpenedAt(log, k) ==> j == k
    requires t.assistantRecordId.None? ==> !Spoken(log)
    requires t.assistantRecordId.Some? ==> exists m: nat :: SpokenAt(log, m) && log[m].recordId == t.assistantRecordId.value
    requires t.deferred.None? ==> !OpenedIn(log)
    requires t.deferred.Some? ==> exists k: nat :: DeferredAt(log, t, k)
    ensures TurnParts(log, t)
  {}

  lemma StepEnds(stream: StreamKey, s: Scan, r: Record)
    requires Step(stream, s, r).Ok? && Ends(r) && (s.count == 0 ==> s == EmptyScan)
    ensures Step(stream, s, r).value.openTurn.None?
  {
    hide TerminalFits, ExactBoundary, FirstUnanswered;
  }

  /** A record inside a turn: its coordinate is the turn's, and it moves the turn's operation. */
  lemma StepTurn(stream: StreamKey, s: Scan, r: Record)
    requires Step(stream, s, r).Ok? && !Ends(r) && Coherent(stream, s) && (s.count == 0 ==> s == EmptyScan)
    ensures var s' := Step(stream, s, r).value; var t := CurrentTurn(s, r);
      && s'.openTurn.Some? && t.coordinate == r.coordinate && s'.openTurn.value.coordinate == r.coordinate
      && DeferredMoves(r, t, s'.openTurn.value) && (Speaks(r) ==> t.assistantRecordId.None?)
  {
    hide Absorb, TurnOk, OriginsCoherent, ClosuresCoherent, DeferredMoves;
    var entered := s.(count := s.count + 1, expected := r.sequence + 1,
                      retained := if s.count == 0 then r.sequence > 1 else s.retained, recordIds := s.recordIds + {r.recordId});
    assert TurnCoherent(stream, entered);
    AbsorbTurnShape(stream, entered, r);
    if Speaks(r) { SpeaksFirst(stream, entered, r); }
  }

  lemma SpeaksFirst(stream: StreamKey, s: Scan, r: Record)
    requires WellFormed(r) && Absorb(s, r).Ok? && Speaks(r) && TurnCoherent(stream, s)
    ensures CurrentTurn(s, r).assistantRecordId.None?
  {
    hide CallsOk, OpenToolCalls;
  }

  // ---------------------------------------------------------------- when the scan takes a record

  ghost predicate StartsSome(calls: seq<OpenToolCall>, r: Record) {
    exists p: nat :: StartsAt(calls, r, p)
  }

  ghost predicate FinishesSome(calls: seq<OpenToolCall>, r: Record) {
    exists p: nat :: FinishesAt(calls, r, p)
  }

  ghost predicate AllCompleted(calls: seq<OpenToolCall>) {
    forall p :: 0 <= p < |calls| ==> calls[p].completed
  }

  lemma NoneUnanswered(calls: seq<OpenToolCall>)
    ensures FirstUnanswered(calls, 0) == |calls| <==> AllCompleted(calls)
  {}

  /** The scan's state lets the record be folded. */
  ghost predicate Folds(r: Record, openTurn: Option<OpenTurn>, previous: Option<Record>)
    requires WellFormed(r)
  {
    var t := if openTurn.Some? then openTurn.value else OpenTurn(r.coordinate, false, None, None, [], None);
    match r.body
    case MessageCompleted(_) => t.coordinate == r.coordinate && t.assistantRecordId.None? && t.deferred.None?
    case DeferredOpened(_, _, _, _, _) => t.coordinate == r.coordinate && t.assistantRecordId.None? && t.deferred.None?
    case DeferredCompleted(op, openedId, message) =>
      && t.coordinate == r.coordinate && SettlesOpen(t, op, openedId)
      && var origin := t.deferred.value.0.body;
         message.api == origin.api && message.provider == origin.provider && message.model == origin.modelId
    case DeferredAbandoned(op, openedId) => t.coordinate == r.coordinate && SettlesOpen(t, op, openedId)
    case ToolStarted(_, _, _, _) => t.coordinate == r.coordinate && StartsSome(t.toolCalls, r)
    case ToolCompleted(_, _, _, _, _) => t.coordinate == r.coordinate && FinishesSome(t.toolCalls, r)
    case TurnClosed(status) =>
      && openTurn.Some? && t.coordinate == r.coordinate && !PendingTurn(t)
      && AllCompleted(t.toolCalls)
      && (status == TurnCompleted ==> t.assistantRecordId.Some?)
    case RunClosed(_, _, _) => openTurn.None?
    case Checkpoint(_, _, _) => openTurn.None? && previous.Some? && ExactBoundary(r, previous.value)
  }

  lemma {:induction false} FindsCall(calls: seq<OpenToolCall>, recordId: Id, place: nat, p: nat, i: nat)
    requires i <= p < |calls| && calls[p].assistantRecordId == recordId && calls[p].sourceIndex == place
    requires forall a, b :: 0 <= a < b < |calls| ==> calls[a].sourceIndex < calls[b].sourceIndex
    ensures FindCall(calls, recordId, place, i) == p
    decreases p - i
  {
    if i < p { FindsCall(calls, recordId, place, p, i + 1); }
  }

  lemma StartFolds(r: Record, t: OpenTurn, messages: seq<Message>)
    requires r.body.ToolStarted? && CallsOk(t.assistantRecordId, t.toolCalls)
    ensures FoldToolStarted(r, t, messages).Ok? <==> StartsSome(t.toolCalls, r)
  {
    var b := r.body;
    FoundCall(t.toolCalls, b.assistantRecordId, b.sourceIndex, 0);
    var found := FindCall(t.toolCalls, b.assistantRecordId, b.sourceIndex, 0);
    if p: nat :| StartsAt(t.toolCalls, r, p) { FindsCall(t.toolCalls, b.assistantRecordId, b.sourceIndex, p, 0); }
    if FoldToolStarted(r, t, messages).Ok? { assert StartsAt(t.toolCalls, r, found); }
  }

  lemma ResultFolds(r: Record, t: OpenTurn, messages: seq<Message>)
    requires r.body.ToolCompleted? && WellFormed(r) && CallsOk(t.assistantRecordId, t.toolCalls)
    ensures FoldToolCompleted(r, t, messages).Ok? <==> FinishesSome(t.toolCalls, r)
  {
    var b := r.body;
    FoundCall(t.toolCalls, b.assistantRecordId, b.sourceIndex, 0);
    var found := FindCall(t.toolCalls, b.assistantRecordId, b.sourceIndex, 0);
    if p: nat :| FinishesAt(t.toolCalls, r, p) { FindsCall(t.toolCalls, b.assistantRecordId, b.sourceIndex, p, 0); }
    if FoldToolCompleted(r, t, messages).Ok? { assert FinishesAt(t.toolCalls, r, found); }
  }

  lemma FoldExactly(r: Record, openTurn: Option<OpenTurn>, messages: seq<Message>, previous: Option<Record>)
    requires WellFormed(r) && (openTurn.Some? ==> CallsOk(openTurn.value.assistantRecordId, openTurn.value.toolCalls))
    ensures FoldRecord(r, openTurn, messages, previous).Ok? <==> Folds(r, openTurn, previous)
  {
    hide FoldToolStarted, FoldToolCompleted, StartsSome, FinishesSome, FirstUnanswered, AllCompleted, OpenToolCalls, ExactBoundary;
    var t := if openTurn.Some? then openTurn.value else OpenTurn(r.coordinate, false, None, None, [], None);
    if r.body.ToolStarted? {
      StartFolds(r, t, messages);
    } else if r.body.ToolCompleted? {
      ResultFolds(r, t, messages);
    } else if r.body.TurnClosed? {
      NoneUnanswered(t.toolCalls);
    }
  }

  /** The scan takes a record exactly when its place fits, its run is not over, what it says of deferred work fits, and it
      folds. */
  lemma StepExactly(stream: StreamKey, s: Scan, r: Record)
    requires Coherent(stream, s) && (s.count == 0 ==> s == EmptyScan)
    ensures Step(stream, s, r).Ok? <==>
              && WellFormed(r) && r.recordId !in s.recordIds && StreamOf(r.coordinate) == stream
              && (s.count > 0 ==> r.sequence == s.expected)
              && (s.count == 1 && s.retained ==> r.body.Checkpoint?)
              && (if s.count == 0 && r.sequence > 1 then r.body == TurnClosed(TurnCompleted)
                  else
                    && r.coordinate.runId !in s.closedRuns
                    && (r.body.DeferredOpened? ==> r.body.operationId !in s.deferredOrigins)
                    && (r.body.RunClosed? ==> TerminalFits(s, r))
                    && Folds(r, s.openTurn, s.previous))
  {
    hide FoldRecord, Folds, TerminalFits, OriginsCoherent, ClosuresCoherent;
    if WellFormed(r) { FoldExactly(r, s.openTurn, s.messages, s.previous); }
    TerminalHere(s, r, s.(count := s.count + 1, expected := r.sequence + 1,
                          retained := if s.count == 0 then r.sequence > 1 else s.retained, recordIds := s.recordIds + {r.recordId}));
  }

  lemma TerminalHere(s: Scan, r: Record, s': Scan)
    requires s'.latestOrigins == s.latestOrigins && s'.settlements == s.settlements && s'.lastClosed == s.lastClosed
    ensures r.body.RunClosed? ==> (TerminalFits(s', r) <==> TerminalFits(s, r))
  {}

  // ---------------------------------------------------------------- the scan's state and the log say the same

  /** What the scan of an accepted log establishes about the turn that the next record belongs to. */
  ghost predicate TurnMatches(log: seq<Record>, t: OpenTurn) {
    && TurnParts(log, t) && TurnReflects(log, t) && CallsOk(t.assistantRecordId, t.toolCalls)
    && (forall a, b :: 0 <= a < |log| && 0 <= b < |log| && log[a].recordId == log[b].recordId ==> a == b)
    && OneStartEach(log)
  }

  /** No two records start one call. */
  ghost predicate OneStartEach(log: seq<Record>) {
    forall a, b :: 0 <= a < b < |log| && log[a].body.ToolStarted? ==>
      !Starts(log[b], log[a].body.assistantRecordId, log[a].body.sourceIndex)
  }

  lemma StartedOnce(stream: StreamKey, log: seq<Record>)
    requires ScanLog(stream, log).Ok?
    ensures OneStartEach(log)
  {
    hide ScanLog;
    forall a, b | 0 <= a < b < |log| && log[a].body.ToolStarted?
      ensures !Starts(log[b], log[a].body.assistantRecordId, log[a].body.sourceIndex)
    {
      RecordsInPlace(stream, log, b);
      assert log[..b][a] == log[a];
    }
  }

  lemma CurrentMatches(stream: StreamKey, log: seq<Record>, s: Scan, r: Record)
    requires ScanLog(stream, log) == Ok(s)
    ensures TurnMatches(log, CurrentTurn(s, r)) && Shows(log, s)
    ensures CurrentTurn(s, r).coordinate == r.coordinate <==> (Open(log) ==> log[|log| - 1].coordinate == r.coordinate)
  {
    hide ScanLog, TurnParts, TurnReflects, CallsOk, Coherent, OneStartEach;
    ScanShows(stream, log);
    ScanReflects(stream, log);
    ScanCoherent(stream, log);
    TurnCallsOk(stream, s, r);
    StartedOnce(stream, log);
    if s.openTurn.None? {
      NoParts(log, CurrentTurn(s, r));
      NoTurnReflects(log, r);
    }
    forall a, b | 0 <= a < |log| && 0 <= b < |log| && log[a].recordId == log[b].recordId ensures a == b { OneRecord(stream, log, a, b); }
  }

  lemma PartsSay(log: seq<Record>, t: OpenTurn)
    requires TurnMatches(log, t)
    ensures t.assistantRecordId.None? <==> !Spoken(log)
    ensures t.deferred.None? <==> !OpenedIn(log)
  {
    hide TurnReflects, CallsOk, SpokenAt, InTurn, OneStartEach;
    if t.deferred.Some? { var k: nat :| DeferredAt(log, t, k); }
  }

  /** The pending operation of the turn is that of the log. */
  lemma PendingSays(log: seq<Record>, t: OpenTurn, op: Id, openedId: Id)
    requires TurnMatches(log, t) && TurnOk(t)
    ensures PendingTurn(t) <==> PendingIn(log)
    ensures SettlesOpen(t, op, openedId) <==> exists k: nat :: SettlesPending(log, k, op, openedId)
    ensures forall k: nat :: PendingAt(log, k) ==> t.deferred.Some? && log[k] == t.deferred.value.0
  {
    hide TurnReflects, CallsOk, SpokenAt, InTurn, Spoken, OneStartEach;
    if t.deferred.Some? {
      var k: nat :| DeferredAt(log, t, k);
      forall j: nat | PendingAt(log, j) ensures j == k && log[j] == t.deferred.value.0 { assert OpenedAt(log, j); }
      if PendingTurn(t) && t.deferred.value.0.body.operationId == op && t.deferred.value.0.recordId == openedId {
        assert SettlesPending(log, k, op, openedId);
      }
    } else {
      forall j: nat ensures !PendingAt(log, j) { assert !OpenedAt(log, j); }
    }
  }

  /** The open call at position p of the turn is a call of the turn's message. */
  lemma CallOfTurn(log: seq<Record>, t: OpenTurn, p: nat) returns (m: nat)
    requires TurnMatches(log, t) && p < |t.toolCalls|
    ensures SpokenAt(log, m) && log[m].recordId == t.toolCalls[p].assistantRecordId && CallAt(log[m], t.toolCalls[p].sourceIndex)
    ensures ContentOf(log[m])[t.toolCalls[p].sourceIndex].call == t.toolCalls[p].call
  {
    hide Reflects, InTurn, OpenedIn, OneStartEach;
    m :| SpokenAt(log, m) && log[m].recordId == t.assistantRecordId.value;
    var b: nat :| Brings(log, b, t.assistantRecordId.value, t.toolCalls);
    assert b == m;
  }

  /** A call of the turn's message is one of the open ones. */
  lemma TurnOfCall(log: seq<Record>, t: OpenTurn, m: nat, place: nat) returns (p: nat)
    requires TurnMatches(log, t) && SpokenAt(log, m) && CallAt(log[m], place)
    ensures p < |t.toolCalls| && t.toolCalls[p].assistantRecordId == log[m].recordId && t.toolCalls[p].sourceIndex == place
    ensures t.toolCalls[p].call == ContentOf(log[m])[place].call
  {
    hide Reflects, InTurn, OpenedIn, OneStartEach;
    assert Spoken(log);
    var k: nat :| SpokenAt(log, k) && log[k].recordId == t.assistantRecordId.value;
    assert k == m;
    var b: nat :| Brings(log, b, t.assistantRecordId.value, t.toolCalls);
    assert b == m;
    p :| 0 <= p < |t.toolCalls| && t.toolCalls[p].sourceIndex == place;
  }

  lemma CallReflects(log: seq<Record>, t: OpenTurn, p: nat)
    requires TurnMatches(log, t) && p < |t.toolCalls|
    ensures Reflects(log, t.toolCalls[p])
  {
    hide TurnParts, CallsOk, Reflects, OneStartEach;
  }

  lemma MadeHere(log: seq<Record>, m: nat, place: nat)
    requires SpokenAt(log, m) && CallAt(log[m], place)
    ensures m < |log| && Speaks(log[m]) && place < |ContentOf(log[m])| && ContentOf(log[m])[place].Call?
  {}

  lemma StartSays(log: seq<Record>, t: OpenTurn, r: Record)
    requires TurnMatches(log, t) && r.body.ToolStarted?
    ensures var b := r.body;
      StartsSome(t.toolCalls, r)
      <==> ((exists m: nat :: MakesCall(log, m, b.assistantRecordId, b.sourceIndex, b.toolCallId, b.toolName))
            && !Started(log, b.assistantRecordId, b.sourceIndex) && !Finished(log, b.assistantRecordId, b.sourceIndex))
  {
    hide TurnMatches, SpokenAt, CallAt, Started, Finished;
    var b := r.body;
    if p: nat :| StartsAt(t.toolCalls, r, p) {
      var m := CallOfTurn(log, t, p);
      CallReflects(log, t, p);
      MadeHere(log, m, b.sourceIndex);
      assert MakesCall(log, m, b.assistantRecordId, b.sourceIndex, b.toolCallId, b.toolName);
    }
    if m: nat :| MakesCall(log, m, b.assistantRecordId, b.sourceIndex, b.toolCallId, b.toolName) {
      var p := TurnOfCall(log, t, m, b.sourceIndex);
      CallReflects(log, t, p);
      if !Started(log, b.assistantRecordId, b.sourceIndex) && !Finished(log, b.assistantRecordId, b.sourceIndex) {
        assert StartsAt(t.toolCalls, r, p);
      }
    }
  }

  lemma SortedCalls(log: seq<Record>, t: OpenTurn)
    requires TurnMatches(log, t)
    ensures forall i, j :: 0 <= i < j < |t.toolCalls| ==> t.toolCalls[i].sourceIndex < t.toolCalls[j].sourceIndex
    ensures OneStartEach(log)
  {
    hide TurnParts, TurnReflects, OneStartEach;
  }

  lemma OneMessage(log: seq<Record>, t: OpenTurn, a: nat, b: nat)
    requires TurnMatches(log, t) && SpokenAt(log, a) && SpokenAt(log, b)
    ensures a == b
  {
    hide TurnReflects, CallsOk, OneStartEach;
  }

  /** The calls before position p are completed exactly when the log finished all calls before its place. */
  lemma BeforeSays(log: seq<Record>, t: OpenTurn, m: nat, p: nat)
    requires TurnMatches(log, t) && p < |t.toolCalls| && SpokenAt(log, m) && CallAt(log[m], t.toolCalls[p].sourceIndex)
    ensures (forall q :: 0 <= q < p ==> t.toolCalls[q].completed) <==> CallsBeforeFinished(log, m, t.toolCalls[p].sourceIndex)
  {
    SortedCalls(log, t);
    hide TurnMatches, SpokenAt, Finished, Started, CallAt, OneStartEach;
    var place := t.toolCalls[p].sourceIndex;
    if forall q :: 0 <= q < p ==> t.toolCalls[q].completed {
      forall i | 0 <= i < place && CallAt(log[m], i) ensures Finished(log, log[m].recordId, i) {
        var q := TurnOfCall(log, t, m, i);
        CallReflects(log, t, q);
      }
    }
    if CallsBeforeFinished(log, m, place) {
      forall q | 0 <= q < p ensures t.toolCalls[q].completed {
        var m' := CallOfTurn(log, t, q);
        OneMessage(log, t, m, m');
        CallReflects(log, t, q);
      }
    }
  }

  /** A result names the call's start exactly when it names that of the open call. */
  lemma StartNamed(log: seq<Record>, tool: OpenToolCall, b: Body)
    requires OneStartEach(log) && Reflects(log, tool) && b.ToolCompleted?
    requires b.assistantRecordId == tool.assistantRecordId && b.sourceIndex == tool.sourceIndex
    ensures NamesStart(log, b)
            <==> (if tool.start.Some? then b.startedRecordId == Some(tool.start.value.recordId)
                  else b.startedRecordId == None && b.outcome == NotStarted)
  {
    if tool.start.Some? {
      var k :| 0 <= k < |log| && log[k] == tool.start.value;
      assert forall j :: 0 <= j < |log| && Starts(log[j], b.assistantRecordId, b.sourceIndex) ==> j == k;
    }
  }

  lemma ResultSays(log: seq<Record>, t: OpenTurn, r: Record)
    requires TurnMatches(log, t) && r.body.ToolCompleted? && WellFormed(r)
    ensures var b := r.body;
      FinishesSome(t.toolCalls, r)
      <==> (!Finished(log, b.assistantRecordId, b.sourceIndex) && NamesStart(log, b)
            && exists m: nat :: MakesCall(log, m, b.assistantRecordId, b.sourceIndex, b.message.toolCallId, b.message.toolName)
                                && CallsBeforeFinished(log, m, b.sourceIndex))
  {
    SortedCalls(log, t);
    hide TurnMatches, SpokenAt, CallAt, Started, Finished, CallsBeforeFinished, NamesStart, OneStartEach;
    var b := r.body;
    if p: nat :| FinishesAt(t.toolCalls, r, p) {
      var m := CallOfTurn(log, t, p);
      MadeHere(log, m, b.sourceIndex);
      BeforeSays(log, t, m, p);
      CallReflects(log, t, p);
      StartNamed(log, t.toolCalls[p], b);
      assert MakesCall(log, m, b.assistantRecordId, b.sourceIndex, b.message.toolCallId, b.message.toolName);
    }
    if m: nat :| MakesCall(log, m, b.assistantRecordId, b.sourceIndex, b.message.toolCallId, b.message.toolName)
                 && CallsBeforeFinished(log, m, b.sourceIndex) {
      var p := TurnOfCall(log, t, m, b.sourceIndex);
      BeforeSays(log, t, m, p);
      CallReflects(log, t, p);
      StartNamed(log, t.toolCalls[p], b);
      if !Finished(log, b.assistantRecordId, b.sourceIndex) && NamesStart(log, b) {
        assert FinishesAt(t.toolCalls, r, p);
      }
    }
  }

  lemma CompletedSays(log: seq<Record>, t: OpenTurn)
    requires TurnMatches(log, t)
    ensures AllCompleted(t.toolCalls) <==> AllCallsFinished(log)
  {
    hide TurnMatches, SpokenAt, CallAt, Started, Finished;
    if AllCompleted(t.toolCalls) {
      forall m: nat, i: nat | m < |log| && SpokenAt(log, m) && CallAt(log[m], i) ensures Finished(log, log[m].recordId, i) {
        var p := TurnOfCall(log, t, m, i);
        CallReflects(log, t, p);
      }
    }
    if AllCallsFinished(log) {
      forall p | 0 <= p < |t.toolCalls| ensures t.toolCalls[p].completed {
        var m := CallOfTurn(log, t, p);
        MadeHere(log, m, t.toolCalls[p].sourceIndex);
        CallReflects(log, t, p);
      }
    }
  }

  // ---------------------------------------------------------------- deferred work

  lemma {:induction false} OperationsSeen(stream: StreamKey, log: seq<Record>, op: Id)
    requires ScanLog(stream, log).Ok?
    ensures op in ScanLog(stream, log).value.deferredOrigins
            <==> exists k :: 0 <= k < |log| && log[k].body.DeferredOpened? && log[k].body.operationId == op
  {
    hide Step;
    if log != [] {
      var front := log[..|log| - 1];
      OperationsSeen(stream, front, op);
      StepOperations(stream, ScanLog(stream, front).value, log[|log| - 1]);
    }
  }

  lemma StepOperations(stream: StreamKey, s: Scan, r: Record)
    requires Step(stream, s, r).Ok?
    ensures Step(stream, s, r).value.deferredOrigins == s.deferredOrigins + (if r.body.DeferredOpened? then {r.body.operationId} else {})
  {
    hide FoldRecord, TerminalFits;
  }

  lemma {:induction false} SettlementsSeen(stream: StreamKey, log: seq<Record>, op: Id)
    requires ScanLog(stream, log).Ok?
    ensures op in ScanLog(stream, log).value.settlements <==> exists k :: 0 <= k < |log| && Settles(log[k], op)
  {
    hide Step;
    if log != [] {
      var front := log[..|log| - 1];
      SettlementsSeen(stream, front, op);
      ScanCounts(stream, front);
      StepTracks(stream, ScanLog(stream, front).value, log[|log| - 1]);
    }
  }

  lemma OneLast(log: seq<Record>, run: Id)
    ensures forall j, k :: LastOpened(log, run, j) && LastOpened(log, run, k) ==> j == k
    ensures forall j, k :: LastTurn(log, run, j) && LastTurn(log, run, k) ==> j == k
  {}

  /** Behind a closed turn a terminal fits the scan exactly when it fits the log. */
  lemma EndsSays(stream: StreamKey, log: seq<Record>, s: Scan, r: Record)
    requires ScanLog(stream, log) == Ok(s) && r.body.RunClosed? && s.openTurn.None?
    ensures TerminalFits(s, r) <==> EndsLast(log, r)
  {
    var run := r.coordinate.runId;
    ScanTracks(stream, log);
    ScanCoherent(stream, log);
    OriginsSeen(stream, log, run);
    SettlementsSeen(stream, log, r.body.operationId);
    OneLast(log, run);
    hide ScanLog, LastOpened, LastTurn, Abandoned, Settles, TurnCoherent, OpenedBy, ClosedAs, ClosuresCoherent, OriginCoherent;
    if run in s.latestOrigins {
      var k: nat :| OpenedBy(log, run, s.latestOrigins[run], k);
      OpenedMeans(log, run, s.latestOrigins[run], k);
      LastHere(log, run, k);
      OriginClosed(s, run);
      var t: nat :| ClosedAs(log, run, s.lastClosed[run], t);
      ClosedMeans(log, run, s.lastClosed[run], t);
      TurnHere(log, run, t);
    } else {
      forall k: nat ensures !LastOpened(log, run, k) { if LastOpened(log, run, k) { LastHere(log, run, k); } }
    }
  }

  lemma LastHere(log: seq<Record>, run: Id, k: nat)
    requires LastOpened(log, run, k)
    ensures k < |log| && log[k].body.DeferredOpened? && log[k].coordinate.runId == run
  {}

  lemma TurnHere(log: seq<Record>, run: Id, t: nat)
    requires LastTurn(log, run, t)
    ensures t < |log|
  {}

  lemma OriginClosed(s: Scan, run: Id)
    requires OriginsCoherent(s) && run in s.latestOrigins && s.openTurn.None?
    ensures run in s.lastClosed
  {
    assert OriginCoherent(s, run);
  }

  // ---------------------------------------------------------------- the result

  /** Behind an accepted log the scan's conditions on a record's content are the grammar's. */
  lemma BodyExactly(stream: StreamKey, log: seq<Record>, s: Scan, r: Record)
    requires ScanLog(stream, log) == Ok(s) && WellFormed(r)
    ensures ((r.body.DeferredOpened? ==> r.body.operationId !in s.deferredOrigins) && (r.body.RunClosed? ==> TerminalFits(s, r))
             && Folds(r, s.openTurn, s.previous)) <==> BodyFollows(log, r)
  {
    var t := CurrentTurn(s, r);
    CurrentMatches(stream, log, s, r);
    ScanCounts(stream, log);
    PartsSay(log, t);
    hide ScanLog, TurnMatches, TurnParts, Spoken, OpenedIn, PendingIn, TerminalFits, EndsLast, ExactBoundary, StartsSome, FinishesSome,
      AllCompleted, AllCallsFinished, NamesStart, CallsBeforeFinished, MakesCall, Started, Finished, TurnShown, SettlesOpen, SettlesPending;
    match r.body
    case MessageCompleted(_) =>
    case DeferredOpened(op, _, _, _, _) => OperationsSeen(stream, log, op);
    case DeferredCompleted(op, openedId, _) => PendingOk(stream, log, s, r, op, openedId); PendingContent(log, t, op, openedId);
    case DeferredAbandoned(op, openedId) => PendingOk(stream, log, s, r, op, openedId);
    case ToolStarted(_, _, _, _) => StartSays(log, t, r);
    case ToolCompleted(_, _, _, _, _) => ResultSays(log, t, r);
    case TurnClosed(_) => PendingOk(stream, log, s, r, "", ""); CompletedSays(log, t);
    case RunClosed(_, _, _) => if s.openTurn.None? { EndsSays(stream, log, s, r); }
    case Checkpoint(_, _, _) => if log != [] { BoundaryCloses(log, r); }
  }

  lemma PendingOk(stream: StreamKey, log: seq<Record>, s: Scan, r: Record, op: Id, openedId: Id)
    requires ScanLog(stream, log) == Ok(s) && TurnMatches(log, CurrentTurn(s, r))
    ensures var t := CurrentTurn(s, r);
      && (PendingTurn(t) <==> PendingIn(log))
      && (SettlesOpen(t, op, openedId) <==> exists k: nat :: SettlesPending(log, k, op, openedId))
      && (forall k: nat :: SettlesPending(log, k, op, openedId) ==> k < |log| && t.deferred.Some? && log[k] == t.deferred.value.0)
  {
    ScanCoherent(stream, log);
    hide ScanLog, TurnMatches, OriginsCoherent, ClosuresCoherent;
    FreshTurnOk(r);
    PendingSays(log, CurrentTurn(s, r), op, openedId);
  }

  lemma FreshTurnOk(r: Record)
    ensures TurnOk(OpenTurn(r.coordinate, false, None, None, [], None))
  {}

  lemma PendingContent(log: seq<Record>, t: OpenTurn, op: Id, openedId: Id)
    ensures forall k: nat :: SettlesPending(log, k, op, openedId) ==> k < |log| && log[k].body.DeferredOpened?
    ensures SettlesOpen(t, op, openedId) ==> t.deferred.Some? && t.deferred.value.0.body.DeferredOpened?
  {}

  lemma BoundaryCloses(log: seq<Record>, r: Record)
    requires log != [] && r.body.Checkpoint?
    ensures ExactBoundary(r, log[|log| - 1]) ==> !Open(log)
  {
    hide Balanced;
  }

  /** A record is taken behind an accepted log exactly when it may come next. */
  lemma NextExactly(stream: StreamKey, log: seq<Record>, r: Record)
    requires ScanLog(stream, log).Ok?
    ensures ScanLog(stream, log + [r]).Ok? <==> Follows(stream, log, r)
  {
    var s := ScanLog(stream, log).value;
    ScanPush(stream, log, r);
    ScanCounts(stream, log);
    ScanCoherent(stream, log);
    StepExactly(stream, s, r);
    ClosuresSeen(stream, log, r.coordinate.runId);
    RetainedSeen(stream, log);
    hide ScanLog, Step, Coherent, Folds, TerminalFits, BodyFollows;
    if WellFormed(r) { BodyExactly(stream, log, s, r); }
  }

  lemma {:induction false} RetainedSeen(stream: StreamKey, log: seq<Record>)
    requires ScanLog(stream, log).Ok?
    ensures ScanLog(stream, log).value.retained <==> log != [] && log[0].sequence > 1
  {
    hide Step;
    if log != [] {
      var front := log[..|log| - 1];
      RetainedSeen(stream, front);
      ScanCounts(stream, front);
      StepCounts(stream, ScanLog(stream, front).value, log[|log| - 1]);
    }
  }

  /** Every record may come next behind those before it. */
  ghost predicate InOrder(stream: StreamKey, log: seq<Record>) {
    forall k {:trigger log[..k]} :: 0 <= k < |log| ==> Follows(stream, log[..k], log[k])
  }

  lemma InOrderPush(stream: StreamKey, log: seq<Record>, r: Record)
    ensures InOrder(stream, log + [r]) <==> InOrder(stream, log) && Follows(stream, log, r)
  {
    hide Follows;
    var log' := log + [r];
    assert log'[..|log|] == log && log'[|log|] == r;
    forall k | 0 <= k < |log| ensures log'[..k] == log[..k] && log'[k] == log[k] {}
    if InOrder(stream, log') {
      forall k | 0 <= k < |log| ensures Follows(stream, log[..k], log[k]) { assert Follows(stream, log'[..k], log'[k]); }
    }
  }

  lemma {:induction false} ScansExactly(stream: StreamKey, log: seq<Record>)
    ensures ScanLog(stream, log).Ok? <==> InOrder(stream, log)
  {
    hide Step, Follows;
    if log == [] {
      ScanNothing(stream);
    } else {
      hide InOrder;
      var front, r := log[..|log| - 1], log[|log| - 1];
      ScansExactly(stream, front);
      InOrderPush(stream, front, r);
      assert log == front + [r];
      if ScanLog(stream, front).Ok? { NextExactly(stream, front, r); }
    }
  }

  /** A log is accepted exactly when each of its records may come next, and one that was cut holds its checkpoint. */
  lemma AcceptedExactly(stream: StreamKey, log: seq<Record>)
    ensures Accepted(stream, log) <==> InOrder(stream, log) && !(|log| == 1 && log[0].sequence > 1)
  {
    ScansExactly(stream, log);
    hide ScanLog, Follows;
    if ScanLog(stream, log).Ok? { RetainedSeen(stream, log); }
  }
}
