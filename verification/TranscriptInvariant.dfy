/** What every accepted prefix of a log establishes about the scan's state. */
module TranscriptInvariant {
  import opened Wrappers
  import opened Transcript

  /** The calls of one assistant message in source order, of which the first answered ones are completed. */
  ghost predicate CallsOk(recordId: Option<Id>, calls: seq<OpenToolCall>) {
    && (recordId.None? ==> calls == [])
    && (forall i :: 0 <= i < |calls| ==> calls[i].assistantRecordId == recordId.value)
    && (forall i, j :: 0 <= i < j < |calls| ==> calls[i].sourceIndex < calls[j].sourceIndex)
    && (forall i, j :: 0 <= i < j < |calls| && calls[j].completed ==> calls[i].completed)
  }

  ghost predicate TurnOk(t: OpenTurn) {
    && CallsOk(t.assistantRecordId, t.toolCalls)
    && (PendingTurn(t) ==> t.assistantRecordId.None?)
    && (t.deferred.Some? ==> t.deferred.value.0.body.DeferredOpened? && t.deferred.value.0.coordinate == t.coordinate)
  }

  function StreamOf(c: Coordinate): StreamKey {
    StreamKey(c.sessionId, c.actorId)
  }

  ghost predicate TurnCoherent(stream: StreamKey, s: Scan) {
    s.openTurn.Some? ==>
      var t := s.openTurn.value;
      && TurnOk(t) && StreamOf(t.coordinate) == stream
      && t.coordinate.runId !in s.closedRuns
      && (t.deferred.Some? ==>
            t.coordinate.runId in s.latestOrigins && s.latestOrigins[t.coordinate.runId] == t.deferred.value.0)
  }

  ghost predicate OpenRun(s: Scan, run: Id) {
    s.openTurn.Some? && s.openTurn.value.coordinate.runId == run
  }

  /** The latest operation of a run is settled, or it is the pending one of the open turn. */
  ghost predicate OriginCoherent(s: Scan, run: Id)
    requires run in s.latestOrigins
  {
    var origin := s.latestOrigins[run];
    && origin.body.DeferredOpened? && origin.coordinate.runId == run
    && origin.body.operationId in s.deferredOrigins
    && (|| origin.body.operationId in s.settlements
        || (OpenRun(s, run) && PendingTurn(s.openTurn.value) && s.openTurn.value.deferred.value.0 == origin))
    && (run in s.lastClosed || OpenRun(s, run))
  }

  ghost predicate OriginsCoherent(s: Scan) {
    && (forall i, j :: 0 <= i < j < |s.originOrder| ==> s.originOrder[i] != s.originOrder[j])
    && (forall run :: run in s.originOrder <==> run in s.latestOrigins)
    && (forall run :: run in s.latestOrigins ==> OriginCoherent(s, run))
    && s.settlements.Keys <= s.deferredOrigins
  }

  ghost predicate ClosuresCoherent(stream: StreamKey, s: Scan) {
    && s.closedRuns <= s.latestOrigins.Keys
    && (forall run :: run in s.lastClosed ==>
          s.lastClosed[run].coordinate.runId == run && StreamOf(s.lastClosed[run].coordinate) == stream)
  }

  ghost predicate Coherent(stream: StreamKey, s: Scan) {
    TurnCoherent(stream, s) && OriginsCoherent(s) && ClosuresCoherent(stream, s)
  }

  // ---------------------------------------------------------------- the open turn

  /** Unanswered, unstarted calls of one assistant record, from part i on, in source order. */
  ghost predicate FreshCalls(recordId: Id, calls: seq<OpenToolCall>, i: nat) {
    && (forall k :: 0 <= k < |calls| ==>
          calls[k].assistantRecordId == recordId && calls[k].sourceIndex >= i && !calls[k].completed && calls[k].start.None?)
    && (forall k, l :: 0 <= k < l < |calls| ==> calls[k].sourceIndex < calls[l].sourceIndex)
  }

  lemma {:induction false} OpenToolCallsFresh(recordId: Id, content: seq<Part>, i: nat)
    requires i <= |content|
    ensures FreshCalls(recordId, OpenToolCalls(recordId, content, i), i)
    decreases |content| - i
  {
    if i < |content| { OpenToolCallsFresh(recordId, content, i + 1); }
  }

  lemma AnsweredOk(t: OpenTurn, recordId: Id, message: Message)
    requires message.AssistantMessage? && TurnOk(t) && !PendingTurn(t)
    ensures TurnOk(Answered(t, recordId, message))
  {
    OpenToolCallsFresh(recordId, message.content, 0);
    assert FreshCalls(recordId, Answered(t, recordId, message).toolCalls, 0);
  }

  /** How one record moves the turn's provider operation. */
  ghost predicate DeferredMoves(record: Record, t: OpenTurn, t': OpenTurn) {
    match record.body
    case DeferredOpened(_, _, _, _, _) => t.deferred.None? && t'.deferred == Some((record, DeferredPending))
    case DeferredCompleted(operationId, openedRecordId, _) =>
      SettlesOpen(t, operationId, openedRecordId) && t'.deferred == Some((t.deferred.value.0, DeferredDone))
    case DeferredAbandoned(operationId, openedRecordId) =>
      SettlesOpen(t, operationId, openedRecordId) && t'.deferred == Some((t.deferred.value.0, DeferredGivenUp))
    case _ => t'.deferred == t.deferred
  }

  lemma FoldTurnKeepsOk(record: Record, t: OpenTurn, messages: seq<Message>)
    requires WellFormed(record) && TurnOk(t) && t.coordinate == record.coordinate
    requires !record.body.RunClosed? && !record.body.Checkpoint? && !record.body.TurnClosed?
    ensures FoldIntoTurn(record, t, messages).Ok? ==>
              var f := FoldIntoTurn(record, t, messages).value;
              && f.openTurn.Some? && TurnOk(f.openTurn.value) && f.openTurn.value.coordinate == t.coordinate
              && DeferredMoves(record, t, f.openTurn.value)
  {
    if FoldIntoTurn(record, t, messages).Ok? {
      if record.body.MessageCompleted? {
        if record.body.message.AssistantMessage? { AnsweredOk(t, record.recordId, record.body.message); }
      } else if record.body.DeferredCompleted? {
        AnsweredOk(t.(deferred := Some((t.deferred.value.0, DeferredDone))), record.recordId, record.body.message);
      }
    }
  }

  // ---------------------------------------------------------------- one record

  /** The turn a record is folded into. */
  function CurrentTurn(s: Scan, record: Record): OpenTurn {
    if s.openTurn.Some? then s.openTurn.value else OpenTurn(record.coordinate, false, None, None, [], None)
  }

  /** What absorbing a record of an open turn changes of the state that matters for deferred work. */
  lemma AbsorbTurnShape(stream: StreamKey, s: Scan, record: Record)
    requires TurnCoherent(stream, s) && WellFormed(record)
    requires !record.body.RunClosed? && !record.body.Checkpoint? && !record.body.TurnClosed?
    requires Absorb(s, record).Ok?
    ensures var s' := Absorb(s, record).value; var t := CurrentTurn(s, record);
      && t.coordinate == record.coordinate && TurnOk(t)
      && s'.openTurn.Some? && TurnOk(s'.openTurn.value) && s'.openTurn.value.coordinate == record.coordinate
      && DeferredMoves(record, t, s'.openTurn.value)
      && record.coordinate.runId !in s.closedRuns
      && Ok(s'.(openTurn := s.openTurn, messages := s.messages, previous := s.previous)) == Track(s, record)
  {
    hide FoldIntoTurn, CallsOk;
    NoCallsOk();
    FoldTurnKeepsOk(record, CurrentTurn(s, record), s.messages);
  }

  /** The state once record has opened an operation in the open turn. */
  ghost predicate Opens(s: Scan, s': Scan, record: Record) {
    && record.body.DeferredOpened? && record.body.operationId !in s.deferredOrigins
    && Ok(s'.(openTurn := s.openTurn, messages := s.messages, previous := s.previous)) == TrackOpened(s, record)
    && s'.openTurn.Some? && s'.openTurn.value.coordinate == record.coordinate
    && s'.openTurn.value.deferred == Some((record, DeferredPending))
    && (s.openTurn.Some? ==> s.openTurn.value.coordinate == record.coordinate && s.openTurn.value.deferred.None?)
  }

  lemma OpenedOrigin(s: Scan, s': Scan, record: Record, run: Id)
    requires Opens(s, s', record) && run in s'.latestOrigins && (run in s.latestOrigins ==> OriginCoherent(s, run))
    ensures OriginCoherent(s', run)
  {}

  lemma OpenedOrigins(s: Scan, s': Scan, record: Record)
    requires Opens(s, s', record) && OriginsCoherent(s)
    ensures OriginsCoherent(s')
  {
    hide OriginCoherent;
    forall run | run in s'.latestOrigins ensures OriginCoherent(s', run) {
      OpenedOrigin(s, s', record, run);
    }
  }

  lemma AbsorbOpened(stream: StreamKey, s: Scan, record: Record)
    requires Coherent(stream, s) && WellFormed(record) && StreamOf(record.coordinate) == stream
    requires record.body.DeferredOpened? && Absorb(s, record).Ok?
    ensures Coherent(stream, Absorb(s, record).value)
  {
    hide Absorb, TurnOk, OriginsCoherent;
    AbsorbTurnShape(stream, s, record);
    OpenedOrigins(s, Absorb(s, record).value, record);
  }

  lemma AbsorbSettled(stream: StreamKey, s: Scan, record: Record)
    requires Coherent(stream, s) && WellFormed(record) && StreamOf(record.coordinate) == stream
    requires (record.body.DeferredCompleted? || record.body.DeferredAbandoned?) && Absorb(s, record).Ok?
    ensures Coherent(stream, Absorb(s, record).value)
  {
    hide Absorb, TurnOk;
    AbsorbTurnShape(stream, s, record);
    var s' := Absorb(s, record).value;
    assert OriginCoherent(s, record.coordinate.runId);
    forall run | run in s'.latestOrigins ensures OriginCoherent(s', run) {
      assert OriginCoherent(s, run);
    }
  }

  lemma AbsorbOther(stream: StreamKey, s: Scan, record: Record)
    requires Coherent(stream, s) && WellFormed(record) && StreamOf(record.coordinate) == stream
    requires record.body.MessageCompleted? || record.body.ToolStarted? || record.body.ToolCompleted?
    requires Absorb(s, record).Ok?
    ensures Coherent(stream, Absorb(s, record).value)
  {
    hide Absorb, TurnOk;
    AbsorbTurnShape(stream, s, record);
    var s' := Absorb(s, record).value;
    forall run | run in s'.latestOrigins ensures OriginCoherent(s', run) {
      assert OriginCoherent(s, run);
    }
  }

  lemma NoCallsOk()
    ensures CallsOk(None, [])
  {}

  lemma AbsorbTurnClosed(stream: StreamKey, s: Scan, record: Record)
    requires Coherent(stream, s) && WellFormed(record) && StreamOf(record.coordinate) == stream && record.body.TurnClosed?
    ensures Absorb(s, record).Ok? ==> Coherent(stream, Absorb(s, record).value)
  {
    hide CallsOk, FirstUnanswered;
    if Absorb(s, record).Ok? {
      var s' := Absorb(s, record).value;
      forall run | run in s'.latestOrigins ensures OriginCoherent(s', run) { assert OriginCoherent(s, run); }
    }
  }

  lemma AbsorbBoundary(stream: StreamKey, s: Scan, record: Record)
    requires Coherent(stream, s) && WellFormed(record) && StreamOf(record.coordinate) == stream
    requires record.body.RunClosed? || record.body.Checkpoint?
    ensures Absorb(s, record).Ok? ==> Coherent(stream, Absorb(s, record).value)
  {
    hide CallsOk, ExactBoundary;
    if Absorb(s, record).Ok? {
      var s' := Absorb(s, record).value;
      forall run | run in s'.latestOrigins ensures OriginCoherent(s', run) { assert OriginCoherent(s, run); }
    }
  }

  lemma StepKeepsCoherent(stream: StreamKey, s: Scan, record: Record)
    requires Coherent(stream, s)
    ensures Step(stream, s, record).Ok? ==> Coherent(stream, Step(stream, s, record).value)
  {
    hide Absorb, OriginCoherent, TurnOk;
    if Step(stream, s, record).Ok? {
      var entered := s.(count := s.count + 1, expected := record.sequence + 1,
                        retained := if s.count == 0 then record.sequence > 1 else s.retained,
                        recordIds := s.recordIds + {record.recordId});
      SameCoherence(stream, s, entered);
      if record.body.TurnClosed? {
        AbsorbTurnClosed(stream, entered, record);
        SameCoherence(stream, s, entered.(previous := Some(record)));
      } else if record.body.RunClosed? || record.body.Checkpoint? {
        AbsorbBoundary(stream, entered, record);
      } else {
        if record.body.DeferredOpened? { AbsorbOpened(stream, entered, record); }
        else if record.body.DeferredCompleted? || record.body.DeferredAbandoned? { AbsorbSettled(stream, entered, record); }
        else { AbsorbOther(stream, entered, record); }
      }
    }
  }

  lemma SameCoherence(stream: StreamKey, s: Scan, s': Scan)
    requires Coherent(stream, s)
    requires s'.openTurn == s.openTurn && s'.deferredOrigins == s.deferredOrigins && s'.latestOrigins == s.latestOrigins
    requires s'.originOrder == s.originOrder && s'.settlements == s.settlements && s'.closedRuns == s.closedRuns
    requires s'.lastClosed == s.lastClosed
    ensures Coherent(stream, s')
  {
    hide TurnOk;
    forall run | run in s'.latestOrigins ensures OriginCoherent(s', run) { assert OriginCoherent(s, run); }
  }

  lemma {:induction false} ScanCoherent(stream: StreamKey, log: seq<Record>)
    requires ScanLog(stream, log).Ok?
    ensures Coherent(stream, ScanLog(stream, log).value)
  {
    if log != [] {
      hide Step, Coherent;
      ScanCoherent(stream, log[..|log| - 1]);
      StepKeepsCoherent(stream, ScanLog(stream, log[..|log| - 1]).value, log[|log| - 1]);
    }
  }
}
