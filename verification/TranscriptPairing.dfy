/** The history an accepted log replays answers every tool call exactly once, in source order, right behind its message. */
module TranscriptPairing {
  import opened Wrappers
  import opened Transcript
  import opened TranscriptInvariant

  /** The calls still unanswered after one more message; None when the message does not fit. */
  function ReadOne(pending: seq<ToolCall>, m: Message): Option<seq<ToolCall>> {
    if pending != [] then
      if m.ToolResultMessage? && m.toolCallId == pending[0].id && m.toolName == pending[0].name then Some(pending[1..])
      else None
    else match m
      case ToolResultMessage(_, _, _, _, _) => None
      case AssistantMessage(content, _, _, _, _, _) => Some(CallsOf(content))
      case UserMessage(_, _) => Some([])
  }

  function Read(messages: seq<Message>): Option<seq<ToolCall>> {
    if messages == [] then Some([])
    else match Read(messages[..|messages| - 1])
      case None => None
      case Some(pending) => ReadOne(pending, messages[|messages| - 1])
  }

  lemma ReadAppend(messages: seq<Message>, m: Message)
    ensures Read(messages + [m]) == match Read(messages) case None => None case Some(p) => ReadOne(p, m)
  {
    assert (messages + [m])[..|messages|] == messages;
  }

  /** Reading forward from the front, as the checkpoint check does, agrees with reading to the end. */
  lemma {:induction false} BalancedReads(front: seq<Message>, rest: seq<Message>, pending: seq<ToolCall>)
    requires Read(front) == Some(pending)
    ensures Balanced(rest, pending) <==> Read(front + rest) == Some([])
    decreases |rest|
  {
    if rest == [] {
      assert front + rest == front;
    } else {
      ReadAppend(front, rest[0]);
      assert front + rest == (front + [rest[0]]) + rest[1..];
      match ReadOne(pending, rest[0]) {
        case Some(next) => BalancedReads(front + [rest[0]], rest[1..], next);
        case None => ReadStuck(front + [rest[0]], rest[1..]);
      }
    }
  }

  lemma {:induction false} ReadStuck(front: seq<Message>, rest: seq<Message>)
    requires Read(front).None?
    ensures Read(front + rest).None?
  {
    if rest == [] { assert front + rest == front; }
    else {
      ReadStuck(front, rest[..|rest| - 1]);
      assert (front + rest)[..|front + rest| - 1] == front + rest[..|rest| - 1];
    }
  }

  function UnansweredCalls(calls: seq<OpenToolCall>): seq<ToolCall> {
    if calls == [] then []
    else (if calls[0].completed then [] else [calls[0].call]) + UnansweredCalls(calls[1..])
  }

  lemma {:induction false} FreshCallsUnanswered(recordId: Id, content: seq<Part>, i: nat)
    requires i <= |content|
    ensures UnansweredCalls(OpenToolCalls(recordId, content, i)) == CallsOf(content[i..])
    decreases |content| - i
  {
    if i < |content| {
      FreshCallsUnanswered(recordId, content, i + 1);
      assert content[i..][1..] == content[i + 1..];
      var rest := OpenToolCalls(recordId, content, i + 1);
      if content[i].Call? {
        var first := OpenToolCall(recordId, i, content[i].call, None, false);
        assert ([first] + rest)[1..] == rest && ([first] + rest)[0] == first;
      } else {
        assert [] + rest == rest;
      }
    }
  }

  /** Answering the first unanswered call removes it from the unanswered ones. */
  lemma {:induction false} AnswerFirst(calls: seq<OpenToolCall>, p: nat)
    requires p < |calls| && !calls[p].completed && forall k :: 0 <= k < p ==> calls[k].completed
    ensures UnansweredCalls(calls) != [] && UnansweredCalls(calls)[0] == calls[p].call
    ensures UnansweredCalls(calls[p := calls[p].(completed := true)]) == UnansweredCalls(calls)[1..]
  {
    var calls' := calls[p := calls[p].(completed := true)];
    if p > 0 {
      AnswerFirst(calls[1..], p - 1);
      assert calls'[1..] == calls[1..][p - 1 := calls[p].(completed := true)];
    } else {
      assert calls'[1..] == calls[1..];
    }
  }

  lemma {:induction false} SameUnanswered(calls: seq<OpenToolCall>, p: nat, c: OpenToolCall)
    requires p < |calls| && c.completed == calls[p].completed && c.call == calls[p].call
    ensures UnansweredCalls(calls[p := c]) == UnansweredCalls(calls)
  {
    if p > 0 {
      SameUnanswered(calls[1..], p - 1, c);
      assert calls[p := c][1..] == calls[1..][p - 1 := c];
    } else {
      assert calls[p := c][1..] == calls[1..];
    }
  }

  lemma {:induction false} AllAnswered(calls: seq<OpenToolCall>)
    requires forall k :: 0 <= k < |calls| ==> calls[k].completed
    ensures UnansweredCalls(calls) == []
  {
    if calls != [] { AllAnswered(calls[1..]); }
  }

  /** The history leaves exactly the open turn's unanswered calls open. */
  ghost predicate Paired(openTurn: Option<OpenTurn>, messages: seq<Message>) {
    Read(messages) == Some(if openTurn.None? then [] else UnansweredCalls(openTurn.value.toolCalls))
  }

  lemma FoldTurnPaired(record: Record, t: OpenTurn, messages: seq<Message>)
    requires WellFormed(record) && TurnOk(t) && Paired(Some(t), messages)
    requires !record.body.RunClosed? && !record.body.Checkpoint? && !record.body.TurnClosed?
    ensures FoldIntoTurn(record, t, messages).Ok? ==>
              Paired(FoldIntoTurn(record, t, messages).value.openTurn, FoldIntoTurn(record, t, messages).value.messages)
  {
    if FoldIntoTurn(record, t, messages).Ok? {
      if record.body.MessageCompleted? {
        var m := record.body.message;
        ReadAppend(messages, m);
        if m.AssistantMessage? { FreshCallsUnanswered(record.recordId, m.content, 0); assert m.content[0..] == m.content; }
      } else if record.body.DeferredCompleted? {
        var m := record.body.message;
        ReadAppend(messages, m);
        FreshCallsUnanswered(record.recordId, m.content, 0);
        assert m.content[0..] == m.content;
      } else if record.body.ToolStarted? {
        var p := FindCall(t.toolCalls, record.body.assistantRecordId, record.body.sourceIndex, 0);
        SameUnanswered(t.toolCalls, p, t.toolCalls[p].(start := Some(record)));
      } else if record.body.ToolCompleted? {
        AnswerFirst(t.toolCalls, FirstUnanswered(t.toolCalls, 0));
        ReadAppend(messages, record.body.message);
      }
    }
  }

  lemma AbsorbPaired(stream: StreamKey, s: Scan, record: Record)
    requires Coherent(stream, s) && WellFormed(record) && Paired(s.openTurn, s.messages) && Absorb(s, record).Ok?
    ensures Paired(Absorb(s, record).value.openTurn, Absorb(s, record).value.messages)
  {
    hide FoldIntoTurn, OriginsCoherent, ClosuresCoherent, Balanced;
    if record.body.TurnClosed? {
      AllAnswered(s.openTurn.value.toolCalls);
    } else if record.body.Checkpoint? {
      BalancedReads([], record.body.replacement, []);
      assert [] + record.body.replacement == record.body.replacement;
    } else if !record.body.RunClosed? {
      NoCallsOk();
      FoldTurnPaired(record, CurrentTurn(s, record), s.messages);
    }
  }

  lemma StepPaired(stream: StreamKey, s: Scan, record: Record)
    requires Coherent(stream, s) && Paired(s.openTurn, s.messages) && Step(stream, s, record).Ok?
    ensures Paired(Step(stream, s, record).value.openTurn, Step(stream, s, record).value.messages)
  {
    hide Absorb, Coherent, Paired;
    var entered := s.(count := s.count + 1, expected := record.sequence + 1,
                      retained := if s.count == 0 then record.sequence > 1 else s.retained,
                      recordIds := s.recordIds + {record.recordId});
    if !(s.count == 0 && record.sequence > 1) {
      EnterCoherent(stream, s, entered);
      AbsorbPaired(stream, entered, record);
    }
  }

  lemma EnterCoherent(stream: StreamKey, s: Scan, entered: Scan)
    requires Coherent(stream, s)
    requires entered == s.(count := entered.count, expected := entered.expected, retained := entered.retained, recordIds := entered.recordIds)
    ensures Coherent(stream, entered)
  {
    hide Coherent;
    SameCoherence(stream, s, entered);
  }

  lemma {:induction false} ScanPaired(stream: StreamKey, log: seq<Record>)
    requires ScanLog(stream, log).Ok?
    ensures var s := ScanLog(stream, log).value; Paired(s.openTurn, s.messages)
  {
    if log != [] {
      hide Step, Coherent, Paired;
      var front := log[..|log| - 1];
      ScanPaired(stream, front);
      ScanCoherent(stream, front);
      StepPaired(stream, ScanLog(stream, front).value, log[|log| - 1]);
    } else {
      assert Paired(None, []);
    }
  }

  // ---------------------------------------------------------------- what a balanced history looks like

  /** A user message, or an assistant message with the results that follow it. */
  datatype Exchange = Exchange(first: Message, results: seq<Message>)

  ghost predicate Answers(result: Message, call: ToolCall) {
    result.ToolResultMessage? && result.toolCallId == call.id && result.toolName == call.name
  }

  ghost predicate Complete(e: Exchange) {
    match e.first
    case ToolResultMessage(_, _, _, _, _) => false
    case UserMessage(_, _) => e.results == []
    case AssistantMessage(content, _, _, _, _, _) =>
      && |e.results| == |CallsOf(content)|
      && forall k :: 0 <= k < |e.results| ==> Answers(e.results[k], CallsOf(content)[k])
  }

  function Flatten(exchanges: seq<Exchange>): seq<Message> {
    if exchanges == [] then [] else [exchanges[0].first] + exchanges[0].results + Flatten(exchanges[1..])
  }

  lemma {:induction false} TakeAnswers(messages: seq<Message>, pending: seq<ToolCall>)
    requires Balanced(messages, pending)
    ensures |pending| <= |messages| && Balanced(messages[|pending|..], [])
    ensures forall k :: 0 <= k < |pending| ==> Answers(messages[k], pending[k])
  {
    if pending != [] {
      TakeAnswers(messages[1..], pending[1..]);
      assert messages[1..][|pending| - 1..] == messages[|pending|..];
      forall k | 0 <= k < |pending| ensures Answers(messages[k], pending[k]) {
        if k > 0 { assert messages[k] == messages[1..][k - 1] && pending[k] == pending[1..][k - 1]; }
      }
    } else {
      assert messages[0..] == messages;
    }
  }

  lemma {:induction false} GiveAnswers(results: seq<Message>, rest: seq<Message>, pending: seq<ToolCall>)
    requires |results| == |pending| && forall k :: 0 <= k < |pending| ==> Answers(results[k], pending[k])
    requires Balanced(rest, [])
    ensures Balanced(results + rest, pending)
  {
    if pending != [] {
      GiveAnswers(results[1..], rest, pending[1..]);
      assert (results + rest)[1..] == results[1..] + rest;
    } else {
      assert results + rest == rest;
    }
  }

  lemma {:induction false} BalancedSplits(messages: seq<Message>) returns (exchanges: seq<Exchange>)
    requires Balanced(messages, [])
    ensures Flatten(exchanges) == messages && forall e :: e in exchanges ==> Complete(e)
    decreases |messages|
  {
    if messages == [] {
      exchanges := [];
    } else {
      var calls := if messages[0].AssistantMessage? then CallsOf(messages[0].content) else [];
      TakeAnswers(messages[1..], calls);
      var rest := messages[1..][|calls|..];
      var tail := BalancedSplits(rest);
      var head := Exchange(messages[0], messages[1..][..|calls|]);
      exchanges := [head] + tail;
      assert messages == [messages[0]] + messages[1..][..|calls|] + rest;
    }
  }

  lemma PrependExchange(head: Exchange, rest: seq<Message>)
    requires Complete(head) && Balanced(rest, [])
    ensures Balanced([head.first] + head.results + rest, [])
  {
    var messages := [head.first] + head.results + rest;
    var calls := if head.first.AssistantMessage? then CallsOf(head.first.content) else [];
    assert Balanced(head.results + rest, calls) by { GiveAnswers(head.results, rest, calls); }
    assert messages[0] == head.first && messages[1..] == head.results + rest;
  }

  lemma {:induction false} CompleteBalanced(exchanges: seq<Exchange>)
    requires forall e :: e in exchanges ==> Complete(e)
    ensures Balanced(Flatten(exchanges), [])
  {
    hide Balanced, Complete;
    if exchanges != [] {
      CompleteBalanced(exchanges[1..]);
      PrependExchange(exchanges[0], Flatten(exchanges[1..]));
    } else {
      NothingBalanced();
    }
  }

  lemma NothingBalanced()
    ensures Balanced([], [])
  {}

  /** For every accepted log with no open turn, the replayed history is a sequence of exchanges: each assistant message
      is followed at once by exactly one result per call, in source order. */
  lemma ReplayAnswersEveryCall(stream: StreamKey, log: seq<Record>) returns (exchanges: seq<Exchange>)
    requires Accepted(stream, log) && CommittedScan(stream, log).value.openTurn.None?
    ensures Flatten(exchanges) == CommittedScan(stream, log).value.messages
    ensures forall e :: e in exchanges ==> Complete(e)
  {
    hide Step, Complete;
    var s := ScanLog(stream, log).value;
    ScanPaired(stream, log);
    BalancedReads([], s.messages, []);
    assert [] + s.messages == s.messages;
    exchanges := BalancedSplits(s.messages);
  }
}
