/** The calls of the open turn, read off the log: which are open, which had started and which were answered. */
module TranscriptCalls {
  import opened Wrappers
  import opened Transcript
  import opened TranscriptInvariant
  import TranscriptRepair
  import opened TranscriptRestore
  import opened TranscriptPurge

  /** The record brings an assistant message. */
  predicate Speaks(r: Record) {
    (r.body.MessageCompleted? || r.body.DeferredCompleted?) && r.body.message.AssistantMessage?
  }

  function ContentOf(r: Record): seq<Part>
    requires Speaks(r)
  {
    r.body.message.content
  }

  /** The record starts the call at this place of the assistant message that this record brought. */
  predicate Starts(r: Record, assistantRecordId: Id, place: nat) {
    r.body.ToolStarted? && r.body.assistantRecordId == assistantRecordId && r.body.sourceIndex == place
  }

  predicate Finishes(r: Record, assistantRecordId: Id, place: nat) {
    r.body.ToolCompleted? && r.body.assistantRecordId == assistantRecordId && r.body.sourceIndex == place
  }

  ghost predicate Started(log: seq<Record>, assistantRecordId: Id, place: nat) {
    exists k :: 0 <= k < |log| && Starts(log[k], assistantRecordId, place)
  }

  ghost predicate Finished(log: seq<Record>, assistantRecordId: Id, place: nat) {
    exists k :: 0 <= k < |log| && Finishes(log[k], assistantRecordId, place)
  }

  /** What the scan holds of a call is what the log says of it. */
  ghost predicate Reflects(log: seq<Record>, tool: OpenToolCall) {
    && (tool.completed <==> Finished(log, tool.assistantRecordId, tool.sourceIndex))
    && (tool.start.Some? <==> Started(log, tool.assistantRecordId, tool.sourceIndex))
    && (tool.start.Some? ==>
          var r := tool.start.value;
          && r in log && Starts(r, tool.assistantRecordId, tool.sourceIndex)
          && r.body.toolCallId == tool.call.id && r.body.toolName == tool.call.name)
  }

  /** The open calls are the call parts of one assistant message, each once. */
  ghost predicate Lists(calls: seq<OpenToolCall>, recordId: Id, content: seq<Part>, from: nat) {
    && (forall p :: 0 <= p < |calls| ==>
          && calls[p].assistantRecordId == recordId && from <= calls[p].sourceIndex < |content|
          && content[calls[p].sourceIndex] == Call(calls[p].call))
    && (forall i :: from <= i < |content| && content[i].Call? ==> exists p :: 0 <= p < |calls| && calls[p].sourceIndex == i)
  }

  ghost predicate Brings(log: seq<Record>, m: nat, recordId: Id, calls: seq<OpenToolCall>) {
    m < |log| && log[m].recordId == recordId && Speaks(log[m]) && Lists(calls, recordId, ContentOf(log[m]), 0)
  }

  ghost predicate TurnReflects(log: seq<Record>, t: OpenTurn) {
    && (t.assistantRecordId.None? ==> t.toolCalls == [])
    && (t.assistantRecordId.Some? ==> exists m: nat :: Brings(log, m, t.assistantRecordId.value, t.toolCalls))
    && (forall p :: 0 <= p < |t.toolCalls| ==> Reflects(log, t.toolCalls[p]))
  }

  /** Whatever starts or answers a call names an assistant record of the log. */
  ghost predicate NamesKnown(log: seq<Record>) {
    forall k {:trigger log[k]} :: 0 <= k < |log| ==>
      && (log[k].body.ToolStarted? ==> Known(log, log[k].body.assistantRecordId))
      && (log[k].body.ToolCompleted? ==> Known(log, log[k].body.assistantRecordId))
  }

  ghost predicate Known(log: seq<Record>, id: Id) {
    exists m :: 0 <= m < |log| && log[m].recordId == id
  }

  // ---------------------------------------------------------------- one record

  /** What a record does to the calls of the turn it belongs to. */
  ghost predicate CallsMove(t: OpenTurn, r: Record, t': OpenTurn) {
    if Speaks(r) then
      t'.assistantRecordId == Some(r.recordId) && t'.toolCalls == OpenToolCalls(r.recordId, ContentOf(r), 0)
    else
      && t'.assistantRecordId == t.assistantRecordId
      && (if r.body.ToolStarted? then
            exists p: nat :: StartsAt(t.toolCalls, r, p) && t'.toolCalls == t.toolCalls[p := t.toolCalls[p].(start := Some(r))]
          else if r.body.ToolCompleted? then
            exists p: nat :: FinishesAt(t.toolCalls, r, p) && t'.toolCalls == t.toolCalls[p := t.toolCalls[p].(completed := true)]
          else t'.toolCalls == t.toolCalls)
  }

  predicate StartsAt(calls: seq<OpenToolCall>, r: Record, p: nat) {
    && p < |calls| && Starts(r, calls[p].assistantRecordId, calls[p].sourceIndex) && calls[p].start.None? && !calls[p].completed
    && r.body.toolCallId == calls[p].call.id && r.body.toolName == calls[p].call.name
  }

  predicate FinishesAt(calls: seq<OpenToolCall>, r: Record, p: nat) {
    && p < |calls| && Finishes(r, calls[p].assistantRecordId, calls[p].sourceIndex) && !calls[p].completed
    && (forall q :: 0 <= q < p ==> calls[q].completed)
    && WellFormed(r) && r.body.message.toolCallId == calls[p].call.id && r.body.message.toolName == calls[p].call.name
    && (if calls[p].start.Some? then r.body.startedRecordId == Some(calls[p].start.value.recordId)
        else r.body.startedRecordId == None && r.body.outcome == NotStarted)
  }

  lemma {:induction false} FoundCall(calls: seq<OpenToolCall>, assistantRecordId: Id, place: nat, i: nat)
    requires i <= |calls|
    ensures var p := FindCall(calls, assistantRecordId, place, i);
      p < |calls| ==> calls[p].assistantRecordId == assistantRecordId && calls[p].sourceIndex == place
    decreases |calls| - i
  {
    if i < |calls| { FoundCall(calls, assistantRecordId, place, i + 1); }
  }

  lemma FoldMoves(r: Record, t: OpenTurn, messages: seq<Message>)
    requires WellFormed(r) && !r.body.RunClosed? && !r.body.Checkpoint? && !r.body.TurnClosed?
    ensures FoldIntoTurn(r, t, messages).Ok? ==>
              FoldIntoTurn(r, t, messages).value.openTurn.Some? && CallsMove(t, r, FoldIntoTurn(r, t, messages).value.openTurn.value)
  {
    hide OpenToolCalls, FirstUnanswered;
    if FoldIntoTurn(r, t, messages).Ok? && (r.body.ToolStarted? || r.body.ToolCompleted?) {
      FoundCall(t.toolCalls, r.body.assistantRecordId, r.body.sourceIndex, 0);
      var p := FindCall(t.toolCalls, r.body.assistantRecordId, r.body.sourceIndex, 0);
      if r.body.ToolStarted? {
        assert StartsAt(t.toolCalls, r, p);
      } else {
        assert FinishesAt(t.toolCalls, r, p);
      }
    }
  }

  lemma StepMoves(stream: StreamKey, s: Scan, r: Record)
    requires Step(stream, s, r).Ok?
    ensures var s' := Step(stream, s, r).value;
      r.recordId !in s.recordIds
      && (if r.body.RunClosed? || r.body.Checkpoint? || r.body.TurnClosed? then s'.openTurn.None? || s'.openTurn == s.openTurn
          else s'.openTurn.Some? && CallsMove(CurrentTurn(s, r), r, s'.openTurn.value))
  {
    hide FoldIntoTurn, CallsMove, ExactBoundary, FirstUnanswered, TerminalFits;
    if WellFormed(r) && !(r.body.RunClosed? || r.body.Checkpoint? || r.body.TurnClosed?) {
      FoldMoves(r, CurrentTurn(s, r), s.messages);
    }
  }

  // ---------------------------------------------------------------- the log grows

  lemma {:induction false} OpenToolCallsList(recordId: Id, content: seq<Part>, i: nat)
    requires i <= |content|
    ensures Lists(OpenToolCalls(recordId, content, i), recordId, content, i)
    decreases |content| - i
  {
    if i < |content| {
      OpenToolCallsList(recordId, content, i + 1);
      var rest := OpenToolCalls(recordId, content, i + 1);
      hide OpenToolCalls, Lists;
      if content[i].Call? {
        var tool := OpenToolCall(recordId, i, content[i].call, None, false);
        OneMoreCall(rest, tool, recordId, content, i);
        assert OpenToolCalls(recordId, content, i) == [tool] + rest by { CallsFrom(recordId, content, i); }
      } else {
        NoMoreCall(rest, recordId, content, i);
        assert OpenToolCalls(recordId, content, i) == rest by { CallsFrom(recordId, content, i); }
      }
    } else {
      assert OpenToolCalls(recordId, content, i) == [];
    }
  }

  lemma CallsFrom(recordId: Id, content: seq<Part>, i: nat)
    requires i < |content|
    ensures OpenToolCalls(recordId, content, i)
            == (if content[i].Call? then [OpenToolCall(recordId, i, content[i].call, None, false)] else []) + OpenToolCalls(recordId, content, i + 1)
  {}

  lemma OneMoreCall(rest: seq<OpenToolCall>, tool: OpenToolCall, recordId: Id, content: seq<Part>, i: nat)
    requires i < |content| && Lists(rest, recordId, content, i + 1)
    requires tool.assistantRecordId == recordId && tool.sourceIndex == i && content[i] == Call(tool.call)
    ensures Lists([tool] + rest, recordId, content, i)
  {
    var all := [tool] + rest;
    forall k | i <= k < |content| && content[k].Call? ensures exists p :: 0 <= p < |all| && all[p].sourceIndex == k {
      if k == i {
        assert all[0].sourceIndex == k;
      } else {
        var p :| 0 <= p < |rest| && rest[p].sourceIndex == k;
        assert all[p + 1] == rest[p];
      }
    }
  }

  lemma NoMoreCall(rest: seq<OpenToolCall>, recordId: Id, content: seq<Part>, i: nat)
    requires i < |content| && Lists(rest, recordId, content, i + 1) && !content[i].Call?
    ensures Lists(rest, recordId, content, i)
  {}

  lemma StartedPush(log: seq<Record>, r: Record, id: Id, place: nat)
    ensures Started(log + [r], id, place) <==> Started(log, id, place) || Starts(r, id, place)
    ensures Finished(log + [r], id, place) <==> Finished(log, id, place) || Finishes(r, id, place)
  {
    var log' := log + [r];
    if k :| 0 <= k < |log| && Starts(log[k], id, place) { assert log'[k] == log[k]; }
    if k :| 0 <= k < |log| && Finishes(log[k], id, place) { assert log'[k] == log[k]; }
    assert log'[|log|] == r;
  }

  lemma ReflectsPush(log: seq<Record>, r: Record, tool: OpenToolCall)
    requires Reflects(log, tool)
    requires !Starts(r, tool.assistantRecordId, tool.sourceIndex) && !Finishes(r, tool.assistantRecordId, tool.sourceIndex)
    ensures Reflects(log + [r], tool)
  {
    hide Started, Finished;
    StartedPush(log, r, tool.assistantRecordId, tool.sourceIndex);
  }

  /** A call of a new assistant message was neither started nor answered. */
  lemma NewCallReflects(log: seq<Record>, r: Record, tool: OpenToolCall)
    requires NamesKnown(log) && !Known(log, r.recordId) && Speaks(r)
    requires tool.assistantRecordId == r.recordId && tool.start.None? && !tool.completed
    ensures Reflects(log + [r], tool)
  {
    hide Known;
    StartedPush(log, r, tool.assistantRecordId, tool.sourceIndex);
  }

  lemma BringsPush(log: seq<Record>, r: Record, m: nat, recordId: Id, calls: seq<OpenToolCall>, calls': seq<OpenToolCall>)
    requires Brings(log, m, recordId, calls) && |calls'| == |calls|
    requires forall p :: 0 <= p < |calls| ==>
      calls'[p].assistantRecordId == calls[p].assistantRecordId && calls'[p].sourceIndex == calls[p].sourceIndex && calls'[p].call == calls[p].call
    ensures Brings(log + [r], m, recordId, calls')
  {
    var content := ContentOf(log[m]);
    forall i | 0 <= i < |content| && content[i].Call? ensures exists p :: 0 <= p < |calls'| && calls'[p].sourceIndex == i {
      var p :| 0 <= p < |calls| && calls[p].sourceIndex == i;
      assert calls'[p].sourceIndex == i;
    }
  }

  /** A new assistant message opens its calls. */
  lemma SpokenReflects(log: seq<Record>, r: Record, t': OpenTurn)
    requires NamesKnown(log) && !Known(log, r.recordId) && Speaks(r)
    requires t'.assistantRecordId == Some(r.recordId) && t'.toolCalls == OpenToolCalls(r.recordId, ContentOf(r), 0)
    ensures TurnReflects(log + [r], t')
  {
    hide Reflects, NamesKnown, Known, OpenToolCalls;
    OpenToolCallsFresh(r.recordId, ContentOf(r), 0);
    OpenToolCallsList(r.recordId, ContentOf(r), 0);
    assert Brings(log + [r], |log|, r.recordId, t'.toolCalls);
    forall p | 0 <= p < |t'.toolCalls| ensures Reflects(log + [r], t'.toolCalls[p]) { NewCallReflects(log, r, t'.toolCalls[p]); }
  }

  /** A start or a result moves the one call that it names. */
  lemma MovedReflects(log: seq<Record>, r: Record, t: OpenTurn, t': OpenTurn, p: nat)
    requires TurnReflects(log, t) && CallsOk(t.assistantRecordId, t.toolCalls)
    requires t'.assistantRecordId == t.assistantRecordId
    requires (StartsAt(t.toolCalls, r, p) && t'.toolCalls == t.toolCalls[p := t.toolCalls[p].(start := Some(r))])
             || (FinishesAt(t.toolCalls, r, p) && t'.toolCalls == t.toolCalls[p := t.toolCalls[p].(completed := true)])
    ensures TurnReflects(log + [r], t')
  {
    hide Reflects, Brings;
    var m: nat :| Brings(log, m, t.assistantRecordId.value, t.toolCalls);
    BringsPush(log, r, m, t.assistantRecordId.value, t.toolCalls, t'.toolCalls);
    forall q | 0 <= q < |t'.toolCalls| ensures Reflects(log + [r], t'.toolCalls[q]) {
      if q == p { NamedReflects(log, r, t.toolCalls, p, t'.toolCalls[p]); }
      else { ReflectsPush(log, r, t.toolCalls[q]); }
    }
  }

  lemma NamedReflects(log: seq<Record>, r: Record, calls: seq<OpenToolCall>, p: nat, tool': OpenToolCall)
    requires p < |calls| && Reflects(log, calls[p])
    requires (StartsAt(calls, r, p) && tool' == calls[p].(start := Some(r)))
             || (FinishesAt(calls, r, p) && tool' == calls[p].(completed := true))
    ensures Reflects(log + [r], tool')
  {
    hide Started, Finished;
    StartedPush(log, r, calls[p].assistantRecordId, calls[p].sourceIndex);
  }

  lemma SameReflects(log: seq<Record>, r: Record, t: OpenTurn, t': OpenTurn)
    requires TurnReflects(log, t) && t'.assistantRecordId == t.assistantRecordId && t'.toolCalls == t.toolCalls
    requires !r.body.ToolStarted? && !r.body.ToolCompleted?
    ensures TurnReflects(log + [r], t')
  {
    hide Reflects, Brings;
    if t.assistantRecordId.Some? {
      var m: nat :| Brings(log, m, t.assistantRecordId.value, t.toolCalls);
      BringsPush(log, r, m, t.assistantRecordId.value, t.toolCalls, t'.toolCalls);
    }
    forall q | 0 <= q < |t'.toolCalls| ensures Reflects(log + [r], t'.toolCalls[q]) { ReflectsPush(log, r, t.toolCalls[q]); }
  }

  lemma TurnMoves(log: seq<Record>, r: Record, t: OpenTurn, t': OpenTurn)
    requires TurnReflects(log, t) && CallsOk(t.assistantRecordId, t.toolCalls) && NamesKnown(log) && !Known(log, r.recordId)
    requires CallsMove(t, r, t')
    ensures TurnReflects(log + [r], t')
    ensures r.body.ToolStarted? || r.body.ToolCompleted? ==> Known(log, r.body.assistantRecordId)
  {
    hide TurnReflects, NamesKnown, Known, CallsOk;
    if Speaks(r) {
      SpokenReflects(log, r, t');
    } else if r.body.ToolStarted? {
      var p: nat :| StartsAt(t.toolCalls, r, p) && t'.toolCalls == t.toolCalls[p := t.toolCalls[p].(start := Some(r))];
      MovedReflects(log, r, t, t', p);
      CallKnown(log, t, p);
    } else if r.body.ToolCompleted? {
      var p: nat :| FinishesAt(t.toolCalls, r, p) && t'.toolCalls == t.toolCalls[p := t.toolCalls[p].(completed := true)];
      MovedReflects(log, r, t, t', p);
      CallKnown(log, t, p);
    } else {
      SameReflects(log, r, t, t');
    }
  }

  lemma CallKnown(log: seq<Record>, t: OpenTurn, p: nat)
    requires TurnReflects(log, t) && CallsOk(t.assistantRecordId, t.toolCalls) && p < |t.toolCalls|
    ensures Known(log, t.toolCalls[p].assistantRecordId)
  {
    hide Reflects, Lists;
    var m: nat :| Brings(log, m, t.assistantRecordId.value, t.toolCalls);
  }

  lemma KnownPush(log: seq<Record>, r: Record)
    requires NamesKnown(log) && (r.body.ToolStarted? || r.body.ToolCompleted? ==> Known(log, r.body.assistantRecordId))
    ensures NamesKnown(log + [r])
  {
    hide Known;
    forall id | Known(log, id) ensures Known(log + [r], id) { StillKnown(log, r, id); }
    forall k | 0 <= k < |log + [r]| && ((log + [r])[k].body.ToolStarted? || (log + [r])[k].body.ToolCompleted?)
      ensures Known(log + [r], (log + [r])[k].body.assistantRecordId)
    {
      if k < |log| { assert (log + [r])[k] == log[k]; }
    }
  }

  lemma StillKnown(log: seq<Record>, r: Record, id: Id)
    requires Known(log, id)
    ensures Known(log + [r], id)
  {
    var m :| 0 <= m < |log| && log[m].recordId == id;
    assert (log + [r])[m] == log[m];
  }

  lemma NoTurnReflects(log: seq<Record>, r: Record)
    ensures TurnReflects(log, OpenTurn(r.coordinate, false, None, None, [], None))
  {}

  lemma TurnCallsOk(stream: StreamKey, s: Scan, r: Record)
    requires Coherent(stream, s)
    ensures var t := CurrentTurn(s, r); CallsOk(t.assistantRecordId, t.toolCalls)
  {
    hide OriginsCoherent, ClosuresCoherent;
  }

  /** Every accepted log: the open turn's calls are those of one assistant message of the log, and each is started or
      answered exactly when a record of the log says so. */
  lemma {:induction false} ScanReflects(stream: StreamKey, log: seq<Record>)
    requires ScanLog(stream, log).Ok?
    ensures NamesKnown(log)
    ensures ScanLog(stream, log).value.openTurn.Some? ==> TurnReflects(log, ScanLog(stream, log).value.openTurn.value)
  {
    hide Step, TurnReflects, NamesKnown, CallsMove, CallsOk, Known;
    if log == [] {
      NothingNamed();
    } else {
      var front, r := log[..|log| - 1], log[|log| - 1];
      assert log == front + [r];
      ScanReflects(stream, front);
      var s := ScanLog(stream, front).value;
      StepMoves(stream, s, r);
      StepReflects(stream, front, s, r);
    }
  }

  lemma NothingNamed()
    ensures NamesKnown([])
  {}

  lemma IdKnown(stream: StreamKey, log: seq<Record>, id: Id)
    requires ScanLog(stream, log).Ok?
    ensures Known(log, id) <==> id in ScanLog(stream, log).value.recordIds
  {
    hide ScanLog;
    ScanCounts(stream, log);
  }

  lemma StepReflects(stream: StreamKey, log: seq<Record>, s: Scan, r: Record)
    requires ScanLog(stream, log) == Ok(s) && Step(stream, s, r).Ok? && NamesKnown(log)
    requires s.openTurn.Some? ==> TurnReflects(log, s.openTurn.value)
    ensures NamesKnown(log + [r])
    ensures Step(stream, s, r).value.openTurn.Some? ==> TurnReflects(log + [r], Step(stream, s, r).value.openTurn.value)
  {
    hide Step, ScanLog, TurnReflects, NamesKnown, CallsMove, CallsOk, Known, Coherent;
    StepMoves(stream, s, r);
    ScanCoherent(stream, log);
    IdKnown(stream, log, r.recordId);
    if r.body.RunClosed? || r.body.Checkpoint? || r.body.TurnClosed? {
      if s.openTurn.Some? { SameReflects(log, r, s.openTurn.value, s.openTurn.value); }
    } else {
      NoTurnReflects(log, r);
      TurnCallsOk(stream, s, r);
      TurnMoves(log, r, CurrentTurn(s, r), Step(stream, s, r).value.openTurn.value);
    }
    KnownPush(log, r);
  }

  // ---------------------------------------------------------------- what an accepted log says of its calls

  /** The record at position k starts a call that an earlier message of the log made, and that nothing before it started
      or answered. */
  ghost predicate StartInPlace(log: seq<Record>, k: nat)
    requires k < |log| && log[k].body.ToolStarted?
  {
    var b := log[k].body;
    && (exists m: nat :: Calls(log, m, k, b.assistantRecordId, b.sourceIndex, b.toolCallId, b.toolName))
    && !Started(log[..k], b.assistantRecordId, b.sourceIndex) && !Finished(log[..k], b.assistantRecordId, b.sourceIndex)
  }

  /** The record at position k answers such a call for the first time, behind the answers of all calls before it in the
      message. It names the record that started the call, and without one it says that the call never started. */
  ghost predicate ResultInPlace(log: seq<Record>, k: nat)
    requires k < |log| && log[k].body.ToolCompleted? && WellFormed(log[k])
  {
    var b := log[k].body;
    && (exists m: nat :: Calls(log, m, k, b.assistantRecordId, b.sourceIndex, b.message.toolCallId, b.message.toolName)
                    && forall i :: 0 <= i < b.sourceIndex && ContentOf(log[m])[i].Call? ==> Finished(log[..k], b.assistantRecordId, i))
    && !Finished(log[..k], b.assistantRecordId, b.sourceIndex)
    && (if Started(log[..k], b.assistantRecordId, b.sourceIndex) then
          b.startedRecordId.Some? && exists j :: 0 <= j < k && Starts(log[j], b.assistantRecordId, b.sourceIndex) && log[j].recordId == b.startedRecordId.value
        else b.startedRecordId.None? && b.outcome == NotStarted)
  }

  /** The record at position m, before k, brought a message that makes this call at this place. */
  ghost predicate Calls(log: seq<Record>, m: nat, k: nat, recordId: Id, place: nat, id: Id, name: Id) {
    && m < k <= |log| && log[m].recordId == recordId && Speaks(log[m]) && place < |ContentOf(log[m])|
    && ContentOf(log[m])[place].Call? && ContentOf(log[m])[place].call.id == id && ContentOf(log[m])[place].call.name == name
  }

  lemma RecordsInPlace(stream: StreamKey, log: seq<Record>, k: nat)
    requires ScanLog(stream, log).Ok? && k < |log|
    ensures WellFormed(log[k])
    ensures log[k].body.ToolStarted? ==> StartInPlace(log, k)
    ensures log[k].body.ToolCompleted? ==> WellFormed(log[k]) && ResultInPlace(log, k)
  {
    hide Step, ScanLog, TurnReflects, CallsMove, Coherent, StartInPlace, ResultInPlace, CallsOk;
    ScanPrefix(stream, log, k);
    ScanPrefix(stream, log, k + 1);
    ScanNext(stream, log, k);
    var s := ScanLog(stream, log[..k]).value;
    StepMoves(stream, s, log[k]);
    StepWellFormed(stream, s, log[k]);
    ScanCoherent(stream, log[..k]);
    ScanReflects(stream, log[..k]);
    TurnCallsOk(stream, s, log[k]);
    NoTurnReflects(log[..k], log[k]);
    if log[k].body.ToolStarted? || log[k].body.ToolCompleted? {
      MoveInPlace(log, k, CurrentTurn(s, log[k]), Step(stream, s, log[k]).value.openTurn.value);
    }
  }

  lemma StepWellFormed(stream: StreamKey, s: Scan, r: Record)
    requires Step(stream, s, r).Ok?
    ensures WellFormed(r)
  {
    hide Absorb;
  }

  lemma MoveInPlace(log: seq<Record>, k: nat, t: OpenTurn, t': OpenTurn)
    requires k < |log| && WellFormed(log[k]) && TurnReflects(log[..k], t) && CallsOk(t.assistantRecordId, t.toolCalls)
    requires CallsMove(t, log[k], t')
    ensures log[k].body.ToolStarted? ==> StartInPlace(log, k)
    ensures log[k].body.ToolCompleted? ==> ResultInPlace(log, k)
  {
    hide StartInPlace, ResultInPlace, TurnReflects;
    var r := log[k];
    if r.body.ToolStarted? {
      var p: nat :| StartsAt(t.toolCalls, r, p) && t'.toolCalls == t.toolCalls[p := t.toolCalls[p].(start := Some(r))];
      StartPlaced(log, k, t, p);
    } else if r.body.ToolCompleted? {
      var p: nat :| FinishesAt(t.toolCalls, r, p) && t'.toolCalls == t.toolCalls[p := t.toolCalls[p].(completed := true)];
      ResultPlaced(log, k, t, p);
    }
  }

  lemma StartPlaced(log: seq<Record>, k: nat, t: OpenTurn, p: nat)
    requires k < |log| && TurnReflects(log[..k], t) && CallsOk(t.assistantRecordId, t.toolCalls) && StartsAt(t.toolCalls, log[k], p)
    ensures StartInPlace(log, k)
  {
    hide Started, Finished;
    assert Reflects(log[..k], t.toolCalls[p]);
    var m: nat :| Brings(log[..k], m, t.assistantRecordId.value, t.toolCalls);
    var b := log[k].body;
    assert log[..k][m] == log[m];
    assert Calls(log, m, k, b.assistantRecordId, b.sourceIndex, b.toolCallId, b.toolName);
  }

  lemma ResultPlaced(log: seq<Record>, k: nat, t: OpenTurn, p: nat)
    requires k < |log| && TurnReflects(log[..k], t) && CallsOk(t.assistantRecordId, t.toolCalls) && FinishesAt(t.toolCalls, log[k], p)
    ensures WellFormed(log[k]) && ResultInPlace(log, k)
  {
    hide Started, Finished;
    assert Reflects(log[..k], t.toolCalls[p]);
    var m: nat :| Brings(log[..k], m, t.assistantRecordId.value, t.toolCalls);
    var b := log[k].body;
    assert log[..k][m] == log[m];
    assert Calls(log, m, k, b.assistantRecordId, b.sourceIndex, b.message.toolCallId, b.message.toolName);
    forall i | 0 <= i < b.sourceIndex && ContentOf(log[m])[i].Call? ensures Finished(log[..k], b.assistantRecordId, i) {
      var q :| 0 <= q < |t.toolCalls| && t.toolCalls[q].sourceIndex == i;
      assert q < p;
      assert Reflects(log[..k], t.toolCalls[q]);
    }
    if t.toolCalls[p].start.Some? {
      var r := t.toolCalls[p].start.value;
      var j :| 0 <= j < |log[..k]| && log[..k][j] == r;
      assert log[j] == r;
    }
  }

  // ---------------------------------------------------------------- what is replayed

  /** The messages that records bring, in order. */
  function Said(records: seq<Record>): seq<Message> {
    if records == [] then []
    else
      var r := records[|records| - 1];
      Said(records[..|records| - 1])
      + (if r.body.MessageCompleted? || r.body.DeferredCompleted? || r.body.ToolCompleted? then [r.body.message] else [])
  }

  /** The deferred runs that records end, in order. */
  function EndedRuns(records: seq<Record>): seq<DeferredRun> {
    if records == [] then []
    else
      var r := records[|records| - 1];
      EndedRuns(records[..|records| - 1])
      + (if r.body.RunClosed? then [DeferredRun(r.coordinate, r.body.inputId, r.body.operationId, r.body.runStatus)] else [])
  }

  /** Position c holds the last checkpoint of the log; -1 stands for none. */
  ghost predicate ReplaysFrom(log: seq<Record>, s: Scan, c: int) {
    && -1 <= c < |log| && (forall h :: c < h < |log| ==> !log[h].body.Checkpoint?)
    && (c >= 0 ==> log[c].body.Checkpoint? && s.checkpointRevision == Some(log[c].sequence)
                   && s.messages == log[c].body.replacement + Said(log[c + 1..]))
    && (c < 0 ==> s.checkpointRevision.None? && s.messages == Said(log))
  }

  lemma StepSays(stream: StreamKey, s: Scan, r: Record)
    requires Step(stream, s, r).Ok?
    ensures var s' := Step(stream, s, r).value;
      && s'.messages == (if r.body.Checkpoint? then r.body.replacement else s.messages + Said([r]))
      && s'.checkpointRevision == (if r.body.Checkpoint? then Some(r.sequence) else s.checkpointRevision)
      && s'.terminalRuns == s.terminalRuns + EndedRuns([r])
  {
    hide FoldRecord, TerminalFits;
    OneSays(r);
    if WellFormed(r) { FoldSays(r, s.openTurn, s.messages, s.previous); }
  }

  lemma FoldSays(r: Record, openTurn: Option<OpenTurn>, messages: seq<Message>, previous: Option<Record>)
    requires WellFormed(r)
    ensures FoldRecord(r, openTurn, messages, previous).Ok? ==>
              FoldRecord(r, openTurn, messages, previous).value.messages
              == (if r.body.Checkpoint? then r.body.replacement else messages + Said([r]))
  {
    hide FirstUnanswered, FindCall, OpenToolCalls, Balanced;
    OneSays(r);
  }

  lemma OneSays(r: Record)
    ensures Said([r]) == if r.body.MessageCompleted? || r.body.DeferredCompleted? || r.body.ToolCompleted? then [r.body.message] else []
    ensures EndedRuns([r]) == if r.body.RunClosed? then [DeferredRun(r.coordinate, r.body.inputId, r.body.operationId, r.body.runStatus)] else []
  {
    assert [r][..0] == [];
  }

  lemma SaidPush(records: seq<Record>, r: Record)
    ensures Said(records + [r]) == Said(records) + Said([r])
    ensures EndedRuns(records + [r]) == EndedRuns(records) + EndedRuns([r])
  {
    OneSays(r);
    assert (records + [r])[..|records|] == records;
  }

  lemma ReplayRestarts(log: seq<Record>, r: Record, s: Scan)
    requires r.body.Checkpoint? && s.messages == r.body.replacement && s.checkpointRevision == Some(r.sequence)
    ensures ReplaysFrom(log + [r], s, |log|)
  {
    NothingSaid();
    hide Said;
    assert (log + [r])[|log| + 1..] == [] && r.body.replacement + [] == r.body.replacement;
  }

  lemma ReplayGrows(log: seq<Record>, s: Scan, b: int, r: Record, s': Scan)
    requires ReplaysFrom(log, s, b) && !r.body.Checkpoint?
    requires s'.messages == s.messages + Said([r]) && s'.checkpointRevision == s.checkpointRevision
    ensures ReplaysFrom(log + [r], s', b)
  {
    hide Said;
    var log' := log + [r];
    if b >= 0 {
      var tail := log[b + 1..];
      SaidPush(tail, r);
      TranscriptRepair.Associates(log[b].body.replacement, Said(tail), Said([r]));
      assert log'[b + 1..] == tail + [r] && log'[b] == log[b];
    } else {
      SaidPush(log, r);
    }
    forall h | b < h < |log'| ensures !log'[h].body.Checkpoint? {
      if h < |log| { assert log'[h] == log[h]; }
    }
  }

  /** Every accepted log replays the messages behind its last checkpoint, after what that one puts in place of the rest,
      and reports every deferred run that it ends. */
  lemma {:induction false} ScanReplays(stream: StreamKey, log: seq<Record>) returns (c: int)
    requires ScanLog(stream, log).Ok?
    ensures ReplaysFrom(log, ScanLog(stream, log).value, c)
    ensures ScanLog(stream, log).value.terminalRuns == EndedRuns(log)
  {
    hide Step, Said, EndedRuns;
    if log == [] {
      c := -1;
      NothingSaid();
    } else {
      var front, r := log[..|log| - 1], log[|log| - 1];
      assert log == front + [r];
      var b := ScanReplays(stream, front);
      hide ReplaysFrom;
      StepSays(stream, ScanLog(stream, front).value, r);
      SaidPush(front, r);
      var s, s' := ScanLog(stream, front).value, ScanLog(stream, log).value;
      if r.body.Checkpoint? {
        c := |front|;
        ReplayRestarts(front, r, s');
      } else {
        c := b;
        ReplayGrows(front, s, b, r, s');
      }
    }
  }

  lemma NothingSaid()
    ensures Said([]) == [] && EndedRuns([]) == []
  {}
}
