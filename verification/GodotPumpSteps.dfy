/** Every step of the pump and of its callers keeps the invariant. */
module GodotPumpSteps {
  import opened Wrappers
  import opened GodotPump
  import opened GodotPumpInvariant

  /** A call that can step: in the background, or the main thread's top frame. */
  ghost predicate CanStep(p: Pump, id: nat) {
    && id in p.calls && p.calls[id].context in p.contexts
    && (p.calls[id].main ==> Top(p) == Some(CallFrame(id)))
  }

  lemma Here(p: Pump, id: nat)
    requires Inv(p) && id in p.calls
    ensures CallOk(p, id, p.calls[id])
  {
    hide CallOk, ContextsOk, ChannelOk, StackOk, LogsOk;
  }

  lemma ContextHere(p: Pump, e: nat)
    requires Inv(p) && e in p.contexts
    ensures ContextOk(p.contexts[e]) && TokenOk(p, e, p.contexts[e])
  {
    hide CallsOk, ChannelOk, StackOk, LogsOk;
  }

  lemma SameLocal(p: Pump, q: Pump, id: nat, e: nat)
    requires Inv(p) && e in p.contexts && q.contexts == p.contexts && SameChannel(p, q)
    ensures Local(p, q, id, e)
  {
    hide ContextsOk, CallsOk, ChannelOk, StackOk, LogsOk, SameChannel, TokenOk;
    ContextHere(p, e);
  }

  lemma FinishPlain(p: Pump, id: nat)
    requires Inv(p) && CanStep(p, id)
    ensures Inv(Finish(p, id))
  {
    hide Inv;
    var q := Finish(p, id);
    assert q.stack == if p.calls[id].main then Pop(p).stack else p.stack;
    SameLocal(p, q, id, p.calls[id].context);
    FinishKeepsInv(p, q, id, p.calls[id].context);
  }

  /** The call goes on to a point that fits without touching anything else. */
  lemma MovePlain(p: Pump, id: nat, to: Point)
    requires Inv(p) && CanStep(p, id) && CallOk(p, id, p.calls[id].(at := to))
    ensures Inv(Move(p, id, to))
  {
    hide Inv, CallOk;
    var q := Move(p, id, to);
    SameLocal(p, q, id, p.calls[id].context);
    SameCallOk(p, q, id, q.calls[id]);
    MoveKeepsInv(p, q, id, p.calls[id].context);
  }

  lemma SameCallOk(p: Pump, q: Pump, id: nat, c: Call)
    requires CallOk(p, id, c) && q.contexts == p.contexts && q.activeEpoch == p.activeEpoch
    ensures CallOk(q, id, c)
  {}

  // ---------------------------------------------------------------- claiming a context

  lemma EnteredKeepsInv(p: Pump, id: nat, choice: Choice)
    requires Inv(p) && CanStep(p, id) && p.calls[id].at == Entered
    ensures Inv(StepCall(p, id, choice))
  {
    hide Inv;
    var c := p.calls[id];
    if p.contexts[c.context].cancelled {
      FinishPlain(p, id);
    } else {
      Here(p, id);
      ContextHere(p, c.context);
      MovePlain(p, id, TokenChecked);
    }
  }

  lemma ClaimKeepsInv(p: Pump, id: nat, choice: Choice)
    requires Inv(p) && CanStep(p, id) && p.calls[id].at == TokenChecked
    ensures Inv(StepCall(p, id, choice))
  {
    hide Inv;
    var c := p.calls[id];
    if p.contexts[c.context].completed {
      FinishPlain(p, id);
    } else {
      Here(p, id);
      ContextHere(p, c.context);
      var q := StepCall(p, id, choice);
      MoveKeepsInv(p, q, id, c.context);
    }
  }

  lemma ReadKeepsInv(p: Pump, id: nat, choice: Choice)
    requires Inv(p) && CanStep(p, id) && p.calls[id].at == Claimed
    ensures Inv(StepCall(p, id, choice))
  {
    hide Inv;
    Here(p, id);
    MovePlain(p, id, Called(p.activeEpoch));
  }

  lemma EnqueueKeepsInv(p: Pump, id: nat, choice: Choice)
    requires Inv(p) && CanStep(p, id) && p.calls[id].at.Enqueueing?
    ensures Inv(StepCall(p, id, choice))
  {
    hide Inv;
    var q := StepCall(p, id, choice);
    assert q.stack == if p.calls[id].main then Pop(p).stack else p.stack;
    Here(p, id);
    SameLocal(p, q, id, p.calls[id].context);
    EventsAppend(p, q, p.calls[id].at.event);
    FinishKeepsInv(p, q, id, p.calls[id].context);
  }

  lemma EventsAppend(p: Pump, q: Pump, event: PumpEvent)
    requires Inv(p) && EventOk(p, event) && q.contexts == p.contexts && q.events == p.events + [event]
    ensures EventsOk(q)
  {
    hide CallsOk, ChannelOk, StackOk, ContextsOk, RequestsOk, BegunLogOk;
    forall i | 0 <= i < |q.events| ensures EventOk(q, q.events[i]) {
      if i < |p.events| { assert EventOk(p, p.events[i]); }
    }
  }

  // ---------------------------------------------------------------- TryCommit

  lemma CheckKeepsInv(p: Pump, id: nat, choice: Choice)
    requires Inv(p) && CanStep(p, id) && p.calls[id].completion.None?
    requires p.calls[id].at.Called? || p.calls[id].at.Rechecking?
    ensures Inv(StepCall(p, id, choice))
  {
    hide Inv;
    Here(p, id);
    var c := p.calls[id];
    if c.at.Rechecking? && choice.Throws? { FinishPlain(p, id); }
    else { MovePlain(p, id, StepCall(p, id, choice).calls[id].at); }
  }

  lemma DeadlineHere(p: Pump)
    requires Inv(p) && p.activeEpoch in p.contexts
    ensures p.startedAt + p.duration == p.contexts[p.activeEpoch].deadline
  {
    hide CallsOk, ContextsOk, StackOk, LogsOk;
  }

  lemma RecheckedKeepsInv(p: Pump, id: nat, choice: Choice)
    requires Inv(p) && CanStep(p, id) && p.calls[id].completion.None? && p.calls[id].at.Rechecked?
    ensures Inv(StepCall(p, id, choice))
  {
    hide Inv;
    Here(p, id);
    DeadlineHere(p);
    MovePlain(p, id, StepCall(p, id, choice).calls[id].at);
  }

  lemma BegunAppend(p: Pump, q: Pump, b: Begun)
    requires Inv(p) && Grows(p, q) && ContextsOk(q) && BegunOk(q, b) && q.begun == p.begun + [b]
    requires b.context in p.contexts && p.contexts[b.context].starts == 0
    ensures BegunLogOk(q)
  {
    hide CallsOk, ChannelOk, StackOk, ContextsOk, RequestsOk, EventsOk, Grows;
    forall i | 0 <= i < |p.begun| ensures BegunOk(q, q.begun[i]) && p.begun[i].context != b.context {
      assert BegunOk(p, p.begun[i]);
      BegunStays(p, q, p.begun[i]);
    }
  }

  /** A transaction begins. */
  lemma ReadyKeepsInv(p: Pump, id: nat, choice: Choice)
    requires Inv(p) && CanStep(p, id) && p.calls[id].completion.None? && p.calls[id].at.Ready?
    ensures Inv(StepCall(p, id, choice))
  {
    hide Inv;
    Here(p, id);
    var c := p.calls[id];
    ContextHere(p, c.context);
    var q := StepCall(p, id, choice);
    if p.state == Executing {
      BeginsLocal(p, id, choice);
      BegunAppend(p, q, Begun(c.context, c.at.epoch, c.at.checkedAt));
      MoveKeepsInv(p, q, id, c.context);
    } else {
      MovePlain(p, id, Refused);
    }
  }

  lemma BeginsLocal(p: Pump, id: nat, choice: Choice)
    requires Inv(p) && CanStep(p, id) && p.calls[id].completion.None? && p.calls[id].at.Ready? && p.state == Executing
    ensures var q := StepCall(p, id, choice); var c := p.calls[id];
      && Local(p, q, id, c.context) && Grows(p, q) && ContextsOk(q) && CallOk(q, id, q.calls[id])
      && p.contexts[c.context].starts == 0
      && BegunOk(q, Begun(c.context, c.at.epoch, c.at.checkedAt))
  {
    hide CallsOk, ChannelOk, StackOk, LogsOk, ContextsOk;
    Here(p, id);
    ContextHere(p, p.calls[id].context);
    LocalContexts(p, StepCall(p, id, choice), id, p.calls[id].context);
  }

  lemma RefusedKeepsInv(p: Pump, id: nat, choice: Choice)
    requires Inv(p) && CanStep(p, id) && p.calls[id].completion.None? && p.calls[id].at.Refused?
    ensures Inv(StepCall(p, id, choice))
  {
    hide Inv;
    Here(p, id);
    ContextHere(p, p.calls[id].context);
    FinishKeepsInv(p, StepCall(p, id, choice), id, p.calls[id].context);
  }

  /** The transaction threw, or returned no completion. */
  lemma UncertainKeepsInv(p: Pump, id: nat, choice: Choice)
    requires Inv(p) && CanStep(p, id) && p.calls[id].completion.None? && p.calls[id].at.Running?
    requires choice.Transacts? ==> choice.completion.None?
    ensures Inv(StepCall(p, id, choice))
  {
    hide Inv;
    Here(p, id);
    var c := p.calls[id];
    var q := StepCall(p, id, choice);
    SameLocal(p, q, id, c.context);
    if choice.Transacts? && p.state == Committing { MoveKeepsInv(p, q, id, c.context); }
    else { FinishKeepsInv(p, q, id, c.context); }
  }

  lemma ReturnsLocal(p: Pump, id: nat, choice: Choice)
    requires Inv(p) && CanStep(p, id) && p.calls[id].completion.None? && p.calls[id].at.Running?
    requires choice.Transacts? && choice.completion.Some?
    ensures var q := StepCall(p, id, choice); var e := p.calls[id].context;
      && Local(p, q, id, e)
      && (p.state == Committing ==> AnswerOk(q, Answer(p.calls[id].at.epoch, choice.completion.value, e, true)))
  {
    hide CallsOk, ChannelOk, StackOk, LogsOk, ContextsOk;
    Here(p, id);
    ContextHere(p, p.calls[id].context);
  }

  lemma ReturnsKeepsInv(p: Pump, id: nat, choice: Choice)
    requires Inv(p) && CanStep(p, id) && p.calls[id].completion.None? && p.calls[id].at.Running?
    requires choice.Transacts? && choice.completion.Some?
    ensures Inv(StepCall(p, id, choice))
  {
    hide Inv, Local, AnswerOk;
    Here(p, id);
    ReturnsLocal(p, id, choice);
    var e := p.calls[id].context;
    var q := StepCall(p, id, choice);
    if p.state == Committing { MoveKeepsInv(p, q, id, e); }
    else { FinishKeepsInv(p, q, id, e); }
  }

  lemma CommitKeepsInv(p: Pump, id: nat, choice: Choice)
    requires Inv(p) && CanStep(p, id) && p.calls[id].completion.None?
    requires !p.calls[id].at.Entered? && !p.calls[id].at.TokenChecked? && !p.calls[id].at.Claimed? && !p.calls[id].at.Enqueueing?
    ensures Inv(StepCall(p, id, choice))
  {
    hide Inv, StepCall;
    Here(p, id);
    var at := p.calls[id].at;
    if at.Called? || at.Rechecking? { CheckKeepsInv(p, id, choice); }
    else if at.Rechecked? { RecheckedKeepsInv(p, id, choice); }
    else if at.Ready? { ReadyKeepsInv(p, id, choice); }
    else if at.Refused? { RefusedKeepsInv(p, id, choice); }
    else if choice.Transacts? && choice.completion.Some? { ReturnsKeepsInv(p, id, choice); }
    else { UncertainKeepsInv(p, id, choice); }
  }

  // ---------------------------------------------------------------- TryCompleteWithoutWorldWrite

  lemma CompleteKeepsInv(p: Pump, id: nat, choice: Choice)
    requires Inv(p) && CanStep(p, id) && p.calls[id].completion.Some?
    requires !p.calls[id].at.Entered? && !p.calls[id].at.TokenChecked? && !p.calls[id].at.Claimed? && !p.calls[id].at.Enqueueing?
    ensures Inv(StepCall(p, id, choice))
  {
    hide Inv;
    Here(p, id);
    var q := StepCall(p, id, choice);
    if id !in q.calls { FinishPlain(p, id); }
    else if !p.calls[id].at.Accepting? { MovePlain(p, id, q.calls[id].at); }
    else { AcceptKeepsInv(p, id, choice); }
  }

  /** A completion without a world write is accepted. */
  lemma AcceptKeepsInv(p: Pump, id: nat, choice: Choice)
    requires Inv(p) && CanStep(p, id) && p.calls[id].completion.Some? && p.calls[id].at.Accepting? && p.state == Executing
    ensures Inv(StepCall(p, id, choice))
  {
    hide Inv;
    Here(p, id);
    var q := StepCall(p, id, choice);
    SameLocal(p, q, id, p.calls[id].context);
    MoveKeepsInv(p, q, id, p.calls[id].context);
  }

  lemma CallKeepsInv(p: Pump, id: nat, choice: Choice)
    requires Inv(p) && CanStep(p, id)
    ensures Inv(StepCall(p, id, choice))
  {
    hide Inv, StepCall;
    var c := p.calls[id];
    if c.at.Entered? { EnteredKeepsInv(p, id, choice); }
    else if c.at.TokenChecked? { ClaimKeepsInv(p, id, choice); }
    else if c.at.Claimed? { ReadKeepsInv(p, id, choice); }
    else if c.at.Enqueueing? { EnqueueKeepsInv(p, id, choice); }
    else if c.completion.Some? { CompleteKeepsInv(p, id, choice); }
    else { CommitKeepsInv(p, id, choice); }
  }

  // ---------------------------------------------------------------- the pump's own steps

  /** What the pump may do to a context between its creation and its end. */
  ghost predicate QuietContext(x: Context, y: Context) {
    SameHold(x, y) && ContextGrows(x, y) && ContextOk(y) && (x.cancelled ==> y.cancelled)
  }

  ghost predicate Quiet(p: Pump, q: Pump) {
    && q.calls == p.calls && q.activeEpoch == p.activeEpoch && q.begun == p.begun
    && q.contexts.Keys == p.contexts.Keys
    && (forall e :: e in p.contexts ==> QuietContext(p.contexts[e], q.contexts[e]))
  }

  ghost predicate TokensOk(q: Pump) {
    forall e :: e in q.contexts ==> TokenOk(q, e, q.contexts[e])
  }

  lemma QuietContexts(p: Pump, q: Pump)
    requires ContextsOk(p) && Quiet(p, q) && TokensOk(q)
    ensures ContextsOk(q) && Grows(p, q)
  {
    hide ContextGrows, SameHold, TokenOk, ContextOk;
  }

  lemma QuietCalls(p: Pump, q: Pump)
    requires ContextsOk(p) && CallsOk(p) && Quiet(p, q) && Grows(p, q)
    ensures CallsOk(q)
  {
    hide CallOk, ContextsOk, Grows, ContextGrows, SameHold;
    forall id | id in q.calls ensures CallOk(q, id, q.calls[id]) { QuietCall(p, q, id); }
  }

  lemma QuietCall(p: Pump, q: Pump, id: nat)
    requires ContextsOk(p) && CallsOk(p) && Quiet(p, q) && Grows(p, q) && id in p.calls
    ensures CallOk(q, id, q.calls[id])
  {
    hide CommitOk, HoldOk, MainOk, ContextsOk, Grows, ContextGrows, SameHold, EventOk;
    CallStays(p, q, id, p.calls[id]);
  }

  /** A step of the pump that leaves the calls alone. */
  lemma QuietKeepsInv(p: Pump, q: Pump)
    requires Inv(p) && Quiet(p, q) && TokensOk(q) && ChannelOk(q) && StackOk(q)
    requires q.events != p.events ==> EventsOk(q)
    requires q.requests != p.requests ==> RequestsOk(q)
    ensures Inv(q)
  {
    hide CallsOk, ContextsOk, ChannelOk, StackOk, EventsOk, RequestsOk, BegunLogOk, Grows, Quiet, TokensOk;
    QuietContexts(p, q);
    QuietCalls(p, q);
    BegunsStayQuiet(p, q);
    if q.events == p.events { EventsStay(p, q); }
    if q.requests == p.requests { RequestsStay(p, q); }
  }

  lemma BegunsStayQuiet(p: Pump, q: Pump)
    requires Grows(p, q) && ContextsOk(q) && BegunLogOk(p) && Quiet(p, q)
    ensures BegunLogOk(q)
  {
    hide BegunLogOk, Grows, ContextsOk, QuietContext;
    BegunsStay(p, q);
  }

  lemma ContextsHere(p: Pump)
    requires Inv(p)
    ensures forall e :: e in p.contexts ==> QuietContext(p.contexts[e], p.contexts[e])
    ensures TokensOk(p) && ChannelOk(p)
  {
    hide CallsOk, ChannelOk, StackOk, LogsOk, TokenOk;
  }

  /** CancelExecution leaves no live token. */
  lemma CancelQuiet(p: Pump)
    requires Inv(p)
    ensures Quiet(p, CancelExecution(p)) && TokensOk(CancelExecution(p)) && CancelExecution(p).cancellation.None?
  {
    hide CallsOk, ChannelOk, StackOk, LogsOk;
  }

  lemma CancelKeepsInv(p: Pump, s: ChannelState)
    requires Inv(p) && !Open(s) && (StartingUp(p) ==> s == Idle)
    ensures Inv(CancelExecution(p).(state := s))
  {
    hide Inv, Quiet;
    var q := CancelExecution(p).(state := s);
    CancelQuiet(p);
    QuietState(p, CancelExecution(p), q);
    CancelChannel(p, s);
    QuietKeepsInv(p, q);
  }

  lemma QuietState(p: Pump, m: Pump, q: Pump)
    requires Quiet(p, m) && TokensOk(m) && q.contexts == m.contexts && q.calls == m.calls && q.activeEpoch == m.activeEpoch
    requires q.begun == m.begun && q.cancellation == m.cancellation
    ensures Quiet(p, q) && TokensOk(q)
  {
    hide QuietContext;
  }

  lemma CancelChannel(p: Pump, s: ChannelState)
    requires Inv(p) && !Open(s) && (StartingUp(p) ==> s == Idle)
    ensures var q := CancelExecution(p).(state := s); ChannelOk(q) && StackOk(q)
  {
    hide CallsOk, ContextsOk, LogsOk, FramesOk;
  }

  predicate Callback(point: PumpPoint) {
    point == InExecute || point == InSignal || point == InInspect || point == InHaltSignal
  }

  lemma PumpFrameAlone(p: Pump, point: PumpPoint)
    requires Inv(p) && Top(p) == Some(PumpFrame(point))
    ensures p.stack == [PumpFrame(point)] && Pop(p).stack == []
  {
    hide CallsOk, ChannelOk, ContextsOk, LogsOk, StartOk;
  }

  /** A change of the stack and of fields that no context or call depends on. */
  lemma RestackKeepsInv(p: Pump, q: Pump)
    requires Inv(p) && ChannelOk(q) && StackOk(q)
    requires q.calls == p.calls && q.contexts == p.contexts && q.activeEpoch == p.activeEpoch && q.cancellation == p.cancellation
    requires q.begun == p.begun && q.events == p.events && q.requests == p.requests
    ensures Inv(q)
  {
    hide Inv, ChannelOk, StackOk, QuietContext, TokenOk;
    ContextsHere(p);
    QuietState(p, p, q);
    QuietKeepsInv(p, q);
  }

  lemma PopKeepsInv(p: Pump, point: PumpPoint)
    requires Inv(p) && Top(p) == Some(PumpFrame(point))
    ensures Inv(Pop(p)) && Pop(p).stack == []
  {
    hide CallsOk, ContextsOk, LogsOk;
    PumpFrameAlone(p, point);
    RestackKeepsInv(p, Pop(p));
  }

  lemma PushKeepsInv(p: Pump, point: PumpPoint)
    requires Inv(p) && p.stack == [] && Callback(point)
    ensures Inv(p.(stack := p.stack + [PumpFrame(point)]))
  {
    hide CallsOk, ContextsOk, LogsOk;
    RestackKeepsInv(p, p.(stack := p.stack + [PumpFrame(point)]));
  }

  lemma CloseQuiet(p: Pump)
    requires Inv(p) && !Open(p.state)
    ensures Inv(CloseActive(p, 0))
  {
    hide CallsOk, LogsOk, FramesOk;
    var q := CloseActive(p, 0);
    assert Quiet(p, q) && TokensOk(q);
    QuietKeepsInv(p, q);
  }

  /** Leaving the open states needs no more than a state that is not one of them. */
  lemma ShutKeepsInv(p: Pump, s: ChannelState)
    requires Inv(p) && !Open(s) && s != Idle && !StartingUp(p)
    ensures Inv(p.(state := s))
  {
    hide CallsOk, ContextsOk, LogsOk, FramesOk;
    RestackKeepsInv(p, p.(state := s));
  }

  lemma InspectionKeepsInv(p: Pump)
    requires Inv(p) && p.stack == []
    ensures Inv(BeginInspection(p))
  {
    hide Inv;
    var shut := p.(state := Inspecting);
    ShutKeepsInv(p, Inspecting);
    CloseQuiet(shut);
    CancelKeepsInv(CloseActive(shut, 0), Inspecting);
    PushKeepsInv(CancelExecution(CloseActive(shut, 0)), InInspect);
    assert BeginInspection(p) == CancelExecution(CloseActive(shut, 0)).(state := Inspecting, stack := [PumpFrame(InInspect)]);
  }

  lemma HaltKeepsInv(p: Pump)
    requires Inv(p) && p.stack == []
    ensures Inv(Halt(p))
  {
    hide Inv;
    if p.state != Stopped && p.state != Halted {
      CancelKeepsInv(p, Halted);
      PushKeepsInv(CancelExecution(p).(state := Halted), InHaltSignal);
    }
  }

  // ---------------------------------------------------------------- sending a receipt

  /** The context of the active epoch, marked for its one receipt; the channel is already shut. */
  function Receipted(p: Pump): Pump {
    CloseActive(p.(state := DeliveringReceipt), 1)
  }

  lemma ReceiptedKeepsInv(p: Pump)
    requires Inv(p) && p.state == CompletionQueued && p.stack == []
    ensures Inv(Receipted(p)) && p.activeEpoch in p.contexts && p.contexts[p.activeEpoch].receipts == 0
    ensures p.active == Some(p.contexts[p.activeEpoch].delivery)
  {
    hide CallsOk, LogsOk, FramesOk;
    ContextHere(p, p.activeEpoch);
    var q := Receipted(p);
    assert Quiet(p, q) && TokensOk(q);
    QuietKeepsInv(p, q);
  }

  lemma RequestsAppend(p: Pump, q: Pump, r: Request)
    requires Inv(p) && q.contexts == p.contexts && q.requests == p.requests + [r] && RequestOk(p, r)
    requires r.SendReceipt? ==> forall i :: 0 <= i < |p.requests| && p.requests[i].SendReceipt? ==> p.requests[i].answer.epoch != r.answer.epoch
    ensures RequestsOk(q)
  {
    hide CallsOk, ChannelOk, StackOk, ContextsOk, EventsOk, BegunLogOk;
    forall i | 0 <= i < |q.requests| ensures RequestOk(q, q.requests[i]) {
      if i < |p.requests| { assert RequestOk(p, p.requests[i]); }
    }
  }

  /** A context that has had no receipt is named by none. */
  lemma NoReceiptYet(p: Pump, e: nat)
    requires Inv(p) && e in p.contexts && p.contexts[e].receipts == 0
    ensures forall i :: 0 <= i < |p.requests| && p.requests[i].SendReceipt? ==> p.requests[i].answer.epoch != e
  {
    hide CallsOk, ChannelOk, StackOk, ContextsOk, EventsOk, BegunLogOk, AnswerOk;
    forall i | 0 <= i < |p.requests| && p.requests[i].SendReceipt? ensures p.requests[i].answer.epoch != e {
      assert RequestOk(p, p.requests[i]);
    }
  }

  lemma SendKeepsInv(p: Pump, q: Pump)
    requires Inv(p) && q == p.(requests := q.requests) && RequestsOk(q)
    ensures Inv(q)
  {
    hide CallsOk, ContextsOk, LogsOk, RequestsOk, QuietContext, TokenOk;
    ContextsHere(p);
    QuietState(p, p, q);
    QuietKeepsInv(p, q);
  }

  lemma ReceiptSent(p: Pump, answer: Answer)
    requires Inv(p) && p.state == CompletionQueued && p.stack == [] && AnswerOk(p, answer) && answer.epoch == p.activeEpoch
    ensures p.active.Some? && RequestsOk(Receipted(p).(requests := p.requests + [SendReceipt(answer, p.active.value)]))
  {
    hide Inv, AnswerOk, RequestsOk;
    ReceiptedKeepsInv(p);
    NoReceiptYet(p, p.activeEpoch);
    var m := Receipted(p);
    AnswerReceipted(p, answer);
    RequestsAppend(m, m.(requests := p.requests + [SendReceipt(answer, p.active.value)]), SendReceipt(answer, p.active.value));
  }

  lemma AnswerReceipted(p: Pump, answer: Answer)
    requires AnswerOk(p, answer)
    ensures AnswerOk(Receipted(p), answer)
  {}

  lemma ReceiptKeepsInv(p: Pump, answer: Answer)
    requires Inv(p) && p.state == CompletionQueued && p.stack == [] && AnswerOk(p, answer) && answer.epoch == p.activeEpoch
    ensures Inv(BeginReceipt(p, answer))
  {
    hide Inv, AnswerOk, RequestsOk;
    ReceiptedKeepsInv(p);
    ReceiptSent(p, answer);
    var sent := Receipted(p).(requests := p.requests + [SendReceipt(answer, p.active.value)]);
    SendKeepsInv(Receipted(p), sent);
    CancelKeepsInv(sent, DeliveringReceipt);
  }

  // ---------------------------------------------------------------- the pump's frames

  lemma StartingKeepsInv(p: Pump, point: PumpPoint, choice: Choice)
    requires Inv(p) && Top(p) == Some(PumpFrame(point)) && (point == Starting || point == Clocked)
    ensures Inv(StepPump(p, point, choice))
  {
    PumpFrameAlone(p, point);
    hide CallsOk, ContextsOk, LogsOk;
    var q := StepPump(p, point, choice);
    if point == Clocked && q.stack != [PumpFrame(Bounded)] {
      var remaining := if choice.Remaining? then choice.claim else 0;
      var timed := Pop(p).(duration := if remaining < p.limit then remaining else p.limit);
      RestackKeepsInv(p, timed);
      InspectionKeepsInv(timed);
    } else {
      RestackKeepsInv(p, q);
    }
  }

  lemma StartUp(p: Pump)
    requires Inv(p) && Top(p) == Some(PumpFrame(Bounded))
    ensures p.stack == [PumpFrame(Bounded)] && p.active.Some? && p.activeEpoch !in p.contexts && p.state == Idle
    ensures p.cancellation.None? && p.duration > 0
  {
    PumpFrameAlone(p, Bounded);
    hide CallsOk, ContextsOk, LogsOk, FramesOk;
  }

  lemma NewContextGrows(p: Pump, q: Pump)
    requires p.activeEpoch !in p.contexts && p.activeEpoch in q.contexts
    requires q.contexts == p.contexts[p.activeEpoch := q.contexts[p.activeEpoch]]
    ensures Grows(p, q)
  {}

  /** Execution begins with a fresh context. */
  lemma BoundedKeepsInv(p: Pump, choice: Choice)
    requires Inv(p) && Top(p) == Some(PumpFrame(Bounded))
    ensures Inv(StepPump(p, Bounded, choice))
  {
    StartUp(p);
    var q := StepPump(p, Bounded, choice);
    NewContextGrows(p, q);
    assert ContextsOk(q) by { hide CallsOk, ChannelOk, StackOk, LogsOk, Grows; BoundedContexts(p, choice); }
    hide ContextsOk, LogsOk, Grows;
    assert CallsOk(q) by { NewContextCalls(p, q); }
    LogsStay(p, q);
    assert StackOk(q) && ChannelOk(q) by { hide CallsOk; }
  }

  lemma BoundedContexts(p: Pump, choice: Choice)
    requires Inv(p) && Top(p) == Some(PumpFrame(Bounded))
    ensures ContextsOk(StepPump(p, Bounded, choice))
  {
    StartUp(p);
    hide CallsOk, StackOk, LogsOk;
  }

  lemma NewContextCalls(p: Pump, q: Pump)
    requires Inv(p) && Grows(p, q) && q.calls == p.calls && q.activeEpoch == p.activeEpoch
    requires p.activeEpoch !in p.contexts && q.contexts.Keys == p.contexts.Keys + {p.activeEpoch}
    requires forall e :: e in p.contexts ==> q.contexts[e] == p.contexts[e]
    ensures CallsOk(q)
  {
    hide ChannelOk, StackOk, LogsOk, Grows;
    forall id | id in q.calls ensures CallOk(q, id, q.calls[id]) {
      assert CallOk(p, id, p.calls[id]);
      hide CommitOk, HoldOk, MainOk, EventOk, ContextsOk;
      CallStays(p, q, id, p.calls[id]);
    }
  }

  lemma ExecuteKeepsInv(p: Pump, choice: Choice)
    requires Inv(p) && Top(p) == Some(PumpFrame(InExecute))
    ensures Inv(StepPump(p, InExecute, choice))
  {
    hide Inv;
    PopKeepsInv(p, InExecute);
    if choice.Throws? && p.state == Executing {
      NotStarting(Pop(p));
      ShutKeepsInv(Pop(p), Inspecting);
      PushKeepsInv(Pop(p).(state := Inspecting), InSignal);
    }
  }

  lemma NotStarting(p: Pump)
    requires p.stack == []
    ensures !StartingUp(p)
  {}

  lemma InspectedKeepsInv(p: Pump, choice: Choice)
    requires Inv(p) && Top(p) == Some(PumpFrame(InInspect))
    ensures Inv(StepPump(p, InInspect, choice))
  {
    hide Inv, RequestsOk;
    PopKeepsInv(p, InInspect);
    if choice.Inspects? && p.active.Some? {
      var r := SendReconcile(p.activeEpoch, p.active.value, choice.resolution);
      NotStarting(Pop(p));
      ShutKeepsInv(Pop(p), Reconciling);
      var shut := Pop(p).(state := Reconciling);
      RequestsAppend(shut, shut.(requests := p.requests + [r]), r);
      SendKeepsInv(shut, shut.(requests := p.requests + [r]));
    } else {
      HaltKeepsInv(Pop(p));
    }
  }

  lemma PumpKeepsInv(p: Pump, point: PumpPoint, choice: Choice)
    requires Inv(p) && Top(p) == Some(PumpFrame(point))
    ensures Inv(StepPump(p, point, choice))
  {
    hide Inv;
    match point
    case Starting => StartingKeepsInv(p, point, choice);
    case Clocked => StartingKeepsInv(p, point, choice);
    case Bounded => BoundedKeepsInv(p, choice);
    case InExecute => ExecuteKeepsInv(p, choice);
    case InSignal => PopKeepsInv(p, point); InspectionKeepsInv(Pop(p));
    case InInspect => InspectedKeepsInv(p, choice);
    case InHaltSignal => PopKeepsInv(p, point);
  }

  // ---------------------------------------------------------------- taking a delivery, and events

  /** A new epoch starts behind every context there is. */
  lemma NewEpochKeepsInv(p: Pump, delivery: Delivery)
    requires Inv(p) && p.stack == [] && p.state == Idle
    ensures var q := p.(active := Some(delivery), lastFence := None, activeEpoch := p.activeEpoch + 1);
      Inv(q) && q.activeEpoch !in q.contexts
  {
    var q := p.(active := Some(delivery), lastFence := None, activeEpoch := p.activeEpoch + 1);
    assert ContextsOk(q) by { hide CallsOk, LogsOk, StackOk; }
    assert StackOk(q) && ChannelOk(q) by { hide CallsOk, LogsOk; }
    assert Grows(p, q);
    LogsStay(p, q);
    NewEpochCalls(p, q);
  }

  lemma NewEpochCalls(p: Pump, q: Pump)
    requires Inv(p) && p.stack == [] && q.calls == p.calls && q.contexts == p.contexts
    ensures CallsOk(q)
  {
    hide ChannelOk, LogsOk, ContextsOk, HoldOk, CommitOk, EventOk;
    forall id | id in q.calls ensures CallOk(q, id, q.calls[id]) {
      assert CallOk(p, id, p.calls[id]);
      NoMainCall(p, id);
      SameEvent(p, q, p.calls[id]);
      SameCommit(p, q, p.calls[id]);
    }
  }

  lemma NoMainCall(p: Pump, id: nat)
    requires Inv(p) && p.stack == [] && id in p.calls
    ensures !p.calls[id].main
  {
    hide ChannelOk, LogsOk, ContextsOk, CallsOk;
  }

  lemma SameEvent(p: Pump, q: Pump, c: Call)
    requires q.contexts == p.contexts
    ensures c.at.Enqueueing? ==> (EventOk(q, c.at.event) <==> EventOk(p, c.at.event))
  {}

  lemma SameCommit(p: Pump, q: Pump, c: Call)
    requires q.contexts == p.contexts && c.context in p.contexts
    ensures CommitOk(q, c, q.contexts[c.context]) <==> CommitOk(p, c, p.contexts[c.context])
  {}

  lemma TakeKeepsInv(p: Pump, item: Item)
    requires Inv(p) && p.stack == [] && p.state == Idle
    ensures Inv(TakeItem(p, item))
  {
    hide Inv;
    if !item.Valid? {
      HaltKeepsInv(p);
    } else {
      var q := p.(active := Some(item.delivery), lastFence := None, activeEpoch := p.activeEpoch + 1);
      NewEpochKeepsInv(p, item.delivery);
      if item.delivery.kind == Reconcile { InspectionKeepsInv(q); } else { StartingPushed(q); }
    }
  }

  lemma StartingPushed(p: Pump)
    requires Inv(p) && p.stack == [] && p.state == Idle && p.activeEpoch !in p.contexts && p.active.Some?
    ensures Inv(p.(stack := p.stack + [PumpFrame(Starting)]))
  {
    hide CallsOk, ContextsOk, LogsOk;
    RestackKeepsInv(p, p.(stack := p.stack + [PumpFrame(Starting)]));
  }

  lemma DroppedEvent(p: Pump)
    requires Inv(p) && p.events != []
    ensures Inv(p.(events := p.events[1..])) && EventOk(p, p.events[0])
  {
    var q := p.(events := p.events[1..]);
    assert EventsOk(q) && EventOk(p, p.events[0]) by {
      hide CallsOk, ContextsOk, ChannelOk, StackOk, RequestsOk, BegunLogOk, EventOk;
      forall i | 0 <= i < |q.events| ensures EventOk(q, q.events[i]) { assert EventOk(p, p.events[i + 1]); SameEventOk(p, q, q.events[i]); }
    }
    hide Inv, QuietContext, TokenOk, EventsOk;
    ContextsHere(p);
    QuietState(p, p, q);
    StackHere(p, q);
    QuietKeepsInv(p, q);
  }

  lemma SameEventOk(p: Pump, q: Pump, event: PumpEvent)
    requires q.contexts == p.contexts
    ensures EventOk(q, event) <==> EventOk(p, event)
  {}

  lemma StackHere(p: Pump, q: Pump)
    requires Inv(p) && q == p.(events := q.events)
    ensures StackOk(q) && ChannelOk(q)
  {
    hide CallsOk, ContextsOk, LogsOk, FramesOk;
  }

  lemma IdleKeepsInv(p: Pump)
    requires Inv(p) && p.stack == []
    ensures Inv(CancelExecution(p).(active := None, lastFence := None, state := Idle))
  {
    CancelKeepsInv(p, Idle);
    hide CallsOk, ContextsOk, LogsOk;
    var q := CancelExecution(p).(state := Idle);
    RestackKeepsInv(q, q.(active := None, lastFence := None));
  }

  lemma ConflictKeepsInv(p: Pump, delivery: Delivery, fence: (Id, nat))
    requires Inv(p) && p.stack == [] && Delivering(p)
    ensures Inv(BeginInspection(p.(lastFence := Some(fence), active := Some(delivery))))
  {
    var q := p.(lastFence := Some(fence), active := Some(delivery));
    assert Inv(q) by { hide CallsOk, ContextsOk, LogsOk; RestackKeepsInv(p, q); }
    hide Inv;
    InspectionKeepsInv(q);
  }

  lemma ProcessKeepsInv(p: Pump, event: PumpEvent)
    requires Inv(p) && p.stack == [] && EventOk(p, event)
    ensures Inv(ProcessEvent(p, event))
  {
    hide Inv, AnswerOk, BeginInspection, Halt, CancelExecution;
    if EpochOf(event) == p.activeEpoch {
      match event
      case ExecutionUncertain(_) => PushKeepsInv(p, InSignal);
      case ExecutionCompleted(answer) => if p.state == CompletionQueued { ReceiptKeepsInv(p, answer); }
      case DeliverySucceeded(_) => IdleKeepsInv(p);
      case DeliveryConflict(_, delivery) =>
        if Delivering(p) {
          HaltKeepsInv(p);
          ConflictKeepsInv(p, delivery, (delivery.claimToken, delivery.attempt));
        }
      case DeliveryFailed(_) => HaltKeepsInv(p);
    }
  }

  // ---------------------------------------------------------------- every step

  lemma EnterKeepsInv(p: Pump, id: nat, call: Call)
    requires Inv(p) && MayEnter(p, id, call)
    ensures Inv(Next(p, Enter(id, call)))
  {
    var q := Next(p, Enter(id, call));
    assert CallsOk(q) by {
      hide ChannelOk, LogsOk, ContextsOk, StackOk, HoldOk, MainOk, EventOk;
      forall k | k in q.calls ensures CallOk(q, k, q.calls[k]) {
        if k != id { assert CallOk(p, k, p.calls[k]); SameCallOk(p, q, k, p.calls[k]); } else { FreshCall(q, id, call); }
      }
    }
    assert StackOk(q) by { hide CallsOk, ChannelOk, LogsOk, ContextsOk; EnteredFrames(p, id, call); }
    hide CallsOk, StackOk, BegunLogOk;
    assert Grows(p, q);
    LogsStay(p, q);
  }

  lemma FreshCall(q: Pump, id: nat, call: Call)
    requires call.context in q.contexts && call.at == Entered && (call.completion.Some? ==> call.completion.value.outcome != Succeeded)
    ensures CallOk(q, id, call)
  {}

  lemma EnteredFrames(p: Pump, id: nat, call: Call)
    requires StackOk(p) && MayEnter(p, id, call)
    ensures StackOk(Next(p, Enter(id, call)))
  {
    var stack := Next(p, Enter(id, call)).stack;
    if call.main {
      assert stack == p.stack + [CallFrame(id)];
      forall k | k in p.calls && p.calls[k].main ensures CallFrame(k) in stack { assert CallFrame(k) in p.stack; }
    }
  }

  lemma ReplyKeepsInv(p: Pump, i: nat, reply: Reply)
    requires Inv(p)
    ensures Inv(Next(p, Replied(i, reply)))
  {
    var q := Next(p, Replied(i, reply));
    if q != p {
      var event := EventOfReply(p.requests[i], reply);
      assert !event.ExecutionCompleted?;
      EventsAppend(p, q, event);
      hide Inv, QuietContext, TokenOk, EventsOk;
      ContextsHere(p);
      QuietState(p, p, q);
      StackHere(p, p);
      RepliedStack(p, q);
      QuietKeepsInv(p, q);
    }
  }

  lemma RepliedStack(p: Pump, q: Pump)
    requires StackOk(p) && ChannelOk(p) && q == p.(events := q.events, answered := q.answered)
    ensures StackOk(q) && ChannelOk(q)
  {
    hide FramesOk;
  }

  lemma TickKeepsInv(p: Pump, elapsed: nat)
    requires Inv(p)
    ensures Inv(p.(now := p.now + elapsed))
  {
    hide CallsOk, ContextsOk, LogsOk, FramesOk;
    RestackKeepsInv(p, p.(now := p.now + elapsed));
  }

  lemma ExitKeepsInv(p: Pump)
    requires Inv(p) && InCallback(p) && NoInspectionPending(p.stack)
    ensures Inv(CancelExecution(p).(state := Stopped))
  {
    hide Inv;
    CancelKeepsInv(p, Stopped);
  }

  /** Whatever happens next, the invariant holds again. */
  lemma NextKeepsInv(p: Pump, step: Step)
    requires Inv(p)
    ensures Inv(Next(p, step))
  {
    hide Inv, TakeItem, ProcessEvent, BeginInspection, CancelExecution, StepCall, StepPump, NoInspectionPending, InCallback;
    match step
    case Tick(elapsed) => TickKeepsInv(p, elapsed);
    case Enter(id, call) => if MayEnter(p, id, call) { EnterKeepsInv(p, id, call); }
    case Background(id, choice) =>
      if id in p.calls && !p.calls[id].main && p.calls[id].context in p.contexts { CallKeepsInv(p, id, choice); }
    case Main(choice) =>
      if Top(p).Some? {
        if Top(p).value.PumpFrame? { PumpKeepsInv(p, Top(p).value.point, choice); }
        else if Top(p).value.id in p.calls && p.calls[Top(p).value.id].context in p.contexts { CallKeepsInv(p, Top(p).value.id, choice); }
      }
    case Take(item) => if p.stack == [] && p.state == Idle { TakeKeepsInv(p, item); }
    case Process =>
      if p.stack == [] && p.events != [] {
        DroppedEvent(p);
        SameEventOk(p, p.(events := p.events[1..]), p.events[0]);
        ProcessKeepsInv(p.(events := p.events[1..]), p.events[0]);
      }
    case Expire => if p.stack == [] { InspectionKeepsInv(p); }
    case ExitTree => if InCallback(p) && NoInspectionPending(p.stack) { ExitKeepsInv(p); }
    case Replied(i, reply) => ReplyKeepsInv(p, i, reply);
  }

  lemma InitialInv(limit: int, now: int)
    ensures Inv(Initial(limit, now))
  {}

  lemma {:induction false} RunKeepsInv(p: Pump, steps: seq<Step>)
    requires Inv(p)
    ensures Inv(Run(p, steps))
  {
    hide Inv, Next;
    if steps != [] {
      RunKeepsInv(p, steps[..|steps| - 1]);
      NextKeepsInv(Run(p, steps[..|steps| - 1]), steps[|steps| - 1]);
    }
  }
}
