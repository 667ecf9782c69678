/** What every interleaving of the pump's steps keeps. */
module GodotPumpInvariant {
  import opened Wrappers
  import opened GodotPump

  // ---------------------------------------------------------------- contexts

  /** A context's flag is free only while no transaction has begun and no completion has claimed it. */
  ghost predicate ContextOk(x: Context) {
    && x.starts <= 1 && (!x.completed ==> x.starts == 0 && !x.noWrite) && (x.noWrite ==> x.starts == 0)
    && (x.returned.Some? ==> x.starts == 1)
    && (x.receipts > 0 ==> x.closed) && x.receipts <= 1
  }

  /** Only the active epoch's context has a token that is not cancelled. */
  ghost predicate TokenOk(p: Pump, e: nat, x: Context) {
    e <= p.activeEpoch && (!x.cancelled ==> p.cancellation == Some(e) && e == p.activeEpoch)
  }

  ghost predicate ContextsOk(p: Pump) {
    forall e :: e in p.contexts ==> ContextOk(p.contexts[e]) && TokenOk(p, e, p.contexts[e])
  }

  // ---------------------------------------------------------------- the channel

  predicate Open(s: ChannelState) {
    s == Executing || s == Committing || s == InspectionQueued || s == CompletionQueued
  }

  /** While the channel executes, no receipt and no inspection of the active epoch has begun. */
  ghost predicate ChannelOk(p: Pump) {
    && (p.activeEpoch in p.contexts ==> p.startedAt + p.duration == p.contexts[p.activeEpoch].deadline)
    && (Open(p.state) ==>
          && p.activeEpoch in p.contexts
          && !p.contexts[p.activeEpoch].closed && p.active == Some(p.contexts[p.activeEpoch].delivery))
    && (p.state == Idle ==> p.cancellation.None?)
  }

  // ---------------------------------------------------------------- calls

  predicate Holding(at: Point) {
    !at.Entered? && !at.TokenChecked?
  }

  predicate CommitPoint(main: bool, at: Point) {
    match at
    case Entered => true
    case TokenChecked => true
    case Claimed => true
    case Called(_) => true
    case Refused => true
    case Rechecking(_) => main
    case Rechecked(_) => main
    case Ready(_, _) => main
    case Running(_) => main
    case Enqueueing(_) => main
    case _ => false
  }

  predicate CompletePoint(at: Point) {
    match at
    case Entered => true
    case TokenChecked => true
    case Claimed => true
    case Called(_) => true
    case Snapped(_) => true
    case Timed(_, _) => true
    case Accepting(_) => true
    case Enqueueing(_) => true
    case _ => false
  }

  predicate Unstarted(at: Point) {
    at.Claimed? || at.Called? || at.Refused? || at.Rechecking? || at.Rechecked? || at.Ready?
  }

  predicate ReadEpoch(at: Point, e: nat) {
    match at
    case Called(epoch) => epoch == e
    case Rechecking(epoch) => epoch == e
    case Rechecked(epoch) => epoch == e
    case Ready(epoch, _) => epoch == e
    case Running(epoch) => epoch == e
    case _ => true
  }

  /** A call past its compare-and-swap owns the flag. */
  ghost predicate HoldOk(id: nat, c: Call, x: Context) {
    Holding(c.at) ==> x.completed && x.owner == id && (x.noWrite <==> c.completion.Some?)
  }

  ghost predicate CommitOk(p: Pump, c: Call, x: Context) {
    c.completion.None? ==>
      && CommitPoint(c.main, c.at)
      && (Unstarted(c.at) ==> x.starts == 0)
      && (c.at.Running? ==> x.starts == 1 && x.returned.None?)
      && (c.at.Ready? ==> c.at.checkedAt < x.deadline)
  }

  /** A call on the main thread past its token check belongs to the active epoch. */
  ghost predicate MainOk(p: Pump, c: Call) {
    c.main && !c.at.Entered? && !c.at.Enqueueing? ==> c.context == p.activeEpoch && ReadEpoch(c.at, p.activeEpoch)
  }

  ghost predicate CallOk(p: Pump, id: nat, c: Call) {
    && c.context in p.contexts
    && HoldOk(id, c, p.contexts[c.context]) && CommitOk(p, c, p.contexts[c.context]) && MainOk(p, c)
    && (c.completion.Some? ==> CompletePoint(c.at) && c.completion.value.outcome != Succeeded)
    && (c.at.Enqueueing? ==> EventOk(p, c.at.event) && (c.completion.Some? ==> FromCall(c)))
  }

  ghost predicate FromCall(c: Call) {
    && c.at.Enqueueing? && c.completion.Some? && c.at.event.ExecutionCompleted?
    && c.at.event.answer.source == c.context && c.at.event.answer.completion == c.completion.value
  }

  ghost predicate CallsOk(p: Pump) {
    forall id :: id in p.calls ==> CallOk(p, id, p.calls[id])
  }

  // ---------------------------------------------------------------- the main thread's stack

  /** The stack holds each main-thread call in progress once, above at most one frame of the pump itself. */
  ghost predicate FramesOk(stack: seq<Frame>, calls: map<nat, Call>) {
    && (forall i :: 0 <= i < |stack| && stack[i].CallFrame? ==> stack[i].id in calls && calls[stack[i].id].main)
    && (forall i, j :: 0 <= i < j < |stack| ==> stack[i] != stack[j])
    && (forall id :: id in calls && calls[id].main ==> CallFrame(id) in stack)
    && (forall i :: 1 <= i < |stack| ==> stack[i].CallFrame?)
  }

  ghost predicate StartOk(p: Pump) {
    && (StartingUp(p) ==> |p.stack| == 1 && p.activeEpoch !in p.contexts && p.state == Idle && p.active.Some?)
    && (p.stack != [] && p.stack[0] == PumpFrame(Bounded) ==> p.duration > 0)
  }

  ghost predicate StackOk(p: Pump) {
    FramesOk(p.stack, p.calls) && StartOk(p)
  }

  predicate StartingUp(p: Pump) {
    p.stack != [] && (p.stack[0] == PumpFrame(Starting) || p.stack[0] == PumpFrame(Clocked) || p.stack[0] == PumpFrame(Bounded))
  }

  // ---------------------------------------------------------------- what was observed

  /** A transaction's completion is what its own context's transaction returned; another one comes from a context that
      never wrote. */
  ghost predicate AnswerOk(p: Pump, a: Answer) {
    && a.source in p.contexts
    && (a.completion.outcome == Succeeded ==> a.written)
    && (if a.written then a.source == a.epoch && p.contexts[a.source].returned == Some(a.completion)
        else p.contexts[a.source].noWrite)
  }

  ghost predicate EventOk(p: Pump, event: PumpEvent) {
    event.ExecutionCompleted? ==> AnswerOk(p, event.answer)
  }

  ghost predicate RequestOk(p: Pump, r: Request) {
    r.SendReceipt? ==>
      && AnswerOk(p, r.answer) && r.answer.epoch in p.contexts
      && p.contexts[r.answer.epoch].delivery == r.delivery && p.contexts[r.answer.epoch].receipts == 1
  }

  ghost predicate BegunOk(p: Pump, b: Begun) {
    && b.context in p.contexts && b.epoch == b.context
    && p.contexts[b.context].starts == 1 && b.checkedAt < p.contexts[b.context].deadline
  }

  ghost predicate EventsOk(p: Pump) {
    forall i :: 0 <= i < |p.events| ==> EventOk(p, p.events[i])
  }

  ghost predicate RequestsOk(p: Pump) {
    && (forall i :: 0 <= i < |p.requests| ==> RequestOk(p, p.requests[i]))
    && (forall i, j :: 0 <= i < j < |p.requests| && p.requests[i].SendReceipt? && p.requests[j].SendReceipt?
          ==> p.requests[i].answer.epoch != p.requests[j].answer.epoch)
  }

  ghost predicate BegunLogOk(p: Pump) {
    && (forall i :: 0 <= i < |p.begun| ==> BegunOk(p, p.begun[i]))
    && (forall i, j :: 0 <= i < j < |p.begun| ==> p.begun[i].context != p.begun[j].context)
  }

  ghost predicate LogsOk(p: Pump) {
    EventsOk(p) && RequestsOk(p) && BegunLogOk(p)
  }

  ghost predicate Inv(p: Pump) {
    ContextsOk(p) && ChannelOk(p) && CallsOk(p) && StackOk(p) && LogsOk(p)
  }

  // ---------------------------------------------------------------- contexts only grow

  ghost predicate ContextGrows(x: Context, y: Context) {
    && y.delivery == x.delivery && y.deadline == x.deadline && x.starts <= y.starts
    && (x.noWrite ==> y.noWrite) && (x.returned.Some? ==> y.returned == x.returned)
    && (x.closed ==> y.closed) && x.receipts <= y.receipts
  }

  ghost predicate Grows(p: Pump, q: Pump) {
    forall e :: e in p.contexts ==> e in q.contexts && ContextGrows(p.contexts[e], q.contexts[e])
  }

  lemma AnswerStays(p: Pump, q: Pump, a: Answer)
    requires Grows(p, q) && ContextsOk(p) && AnswerOk(p, a)
    ensures AnswerOk(q, a)
  {}

  lemma EventStays(p: Pump, q: Pump, event: PumpEvent)
    requires Grows(p, q) && ContextsOk(p) && EventOk(p, event)
    ensures EventOk(q, event)
  {
    hide AnswerOk, Grows, ContextsOk;
    if event.ExecutionCompleted? { AnswerStays(p, q, event.answer); }
  }

  lemma EventsStay(p: Pump, q: Pump)
    requires Grows(p, q) && ContextsOk(p) && EventsOk(p) && q.events == p.events
    ensures EventsOk(q)
  {
    hide EventOk, Grows, ContextsOk;
    forall i | 0 <= i < |q.events| ensures EventOk(q, q.events[i]) { EventStays(p, q, p.events[i]); }
  }

  lemma RequestsStay(p: Pump, q: Pump)
    requires Grows(p, q) && ContextsOk(p) && ContextsOk(q) && RequestsOk(p) && q.requests == p.requests
    ensures RequestsOk(q)
  {
    hide RequestOk, Grows, ContextsOk;
    forall i | 0 <= i < |q.requests| ensures RequestOk(q, q.requests[i]) { RequestStays(p, q, p.requests[i]); }
  }

  lemma BegunsStay(p: Pump, q: Pump)
    requires Grows(p, q) && ContextsOk(q) && BegunLogOk(p) && q.begun == p.begun
    ensures BegunLogOk(q)
  {
    hide BegunOk, Grows, ContextsOk;
    forall i | 0 <= i < |q.begun| ensures BegunOk(q, q.begun[i]) { BegunStays(p, q, p.begun[i]); }
  }

  lemma LogsStay(p: Pump, q: Pump)
    requires Grows(p, q) && ContextsOk(p) && ContextsOk(q) && LogsOk(p)
    requires q.events == p.events && q.requests == p.requests && q.begun == p.begun
    ensures LogsOk(q)
  {
    hide EventsOk, RequestsOk, BegunLogOk, Grows, ContextsOk;
    EventsStay(p, q);
    RequestsStay(p, q);
    BegunsStay(p, q);
  }

  lemma RequestStays(p: Pump, q: Pump, r: Request)
    requires Grows(p, q) && ContextsOk(p) && ContextsOk(q) && RequestOk(p, r)
    ensures RequestOk(q, r)
  {
    hide AnswerOk, TokenOk;
    if r.SendReceipt? {
      AnswerStays(p, q, r.answer);
      assert ContextGrows(p.contexts[r.answer.epoch], q.contexts[r.answer.epoch]) && ContextOk(q.contexts[r.answer.epoch]);
    }
  }

  lemma BegunStays(p: Pump, q: Pump, b: Begun)
    requires Grows(p, q) && ContextsOk(q) && BegunOk(p, b)
    ensures BegunOk(q, b)
  {
    assert ContextGrows(p.contexts[b.context], q.contexts[b.context]) && ContextOk(q.contexts[b.context]);
  }

  // ---------------------------------------------------------------- steps of one call

  ghost predicate SameHold(x: Context, y: Context) {
    y.completed == x.completed && y.owner == x.owner && y.noWrite == x.noWrite && y.starts == x.starts && y.returned == x.returned
  }

  /** What one call may change of its own context. */
  ghost predicate ContextStep(x: Context, y: Context, id: nat) {
    && ContextGrows(x, y) && ContextOk(y) && y.closed == x.closed && y.receipts == x.receipts && y.cancelled == x.cancelled
    && (x.completed && x.owner != id ==> SameHold(x, y))
  }

  ghost predicate SameChannel(p: Pump, q: Pump) {
    && q.activeEpoch == p.activeEpoch && q.active == p.active && q.startedAt == p.startedAt && q.duration == p.duration
    && q.cancellation == p.cancellation && q.requests == p.requests && (Open(q.state) ==> Open(p.state))
    && (q.state == Idle <==> p.state == Idle)
  }

  /** A step of call id, whose context is e. */
  ghost predicate Local(p: Pump, q: Pump, id: nat, e: nat) {
    && SameChannel(p, q) && e in p.contexts && q.contexts.Keys == p.contexts.Keys
    && (forall k :: k in p.contexts && k != e ==> q.contexts[k] == p.contexts[k])
    && ContextStep(p.contexts[e], q.contexts[e], id)
  }

  lemma LocalContexts(p: Pump, q: Pump, id: nat, e: nat)
    requires ContextsOk(p) && Local(p, q, id, e)
    ensures ContextsOk(q) && Grows(p, q)
  {}

  lemma LocalChannel(p: Pump, q: Pump, id: nat, e: nat)
    requires ChannelOk(p) && Local(p, q, id, e)
    ensures ChannelOk(q)
  {}

  lemma CallStays(p: Pump, q: Pump, id: nat, c: Call)
    requires ContextsOk(p) && CallOk(p, id, c) && Grows(p, q) && q.activeEpoch == p.activeEpoch
    requires Holding(c.at) ==> SameHold(p.contexts[c.context], q.contexts[c.context])
    ensures CallOk(q, id, c)
  {
    hide TokenOk, ContextOk, AnswerOk;
    if c.at.Enqueueing? && c.at.event.ExecutionCompleted? { AnswerStays(p, q, c.at.event.answer); }
    assert ContextGrows(p.contexts[c.context], q.contexts[c.context]);
  }

  lemma OtherCallStays(p: Pump, q: Pump, id: nat, e: nat, other: nat, c: Call)
    requires ContextsOk(p) && CallOk(p, other, c) && Local(p, q, id, e) && Grows(p, q) && other != id
    ensures CallOk(q, other, c)
  {
    hide TokenOk, ContextOk, AnswerOk, EventOk, CommitOk, MainOk;
    CallStays(p, q, other, c);
  }

  lemma OtherCallsStay(p: Pump, q: Pump, id: nat, e: nat)
    requires ContextsOk(p) && CallsOk(p) && Local(p, q, id, e) && Grows(p, q)
    requires forall other :: other in q.calls && other != id ==> other in p.calls && q.calls[other] == p.calls[other]
    ensures forall other :: other in q.calls && other != id ==> CallOk(q, other, q.calls[other])
  {
    hide CallOk, ContextsOk, Local, Grows;
    forall other | other in q.calls && other != id ensures CallOk(q, other, q.calls[other]) {
      OtherCallStays(p, q, id, e, other, p.calls[other]);
    }
  }

  lemma MovedStack(p: Pump, q: Pump, id: nat)
    requires StackOk(p) && id in p.calls && id in q.calls && q.calls == p.calls[id := q.calls[id]]
    requires q.calls[id].main == p.calls[id].main && q.stack == p.stack && q.duration == p.duration
    requires q.contexts.Keys == p.contexts.Keys && q.activeEpoch == p.activeEpoch && q.active == p.active
    requires q.state == Idle <==> p.state == Idle
    ensures StackOk(q)
  {}

  /** A call that goes on keeps the invariant when its own new point fits. */
  lemma MoveKeepsInv(p: Pump, q: Pump, id: nat, e: nat)
    requires Inv(p) && id in p.calls && Local(p, q, id, e)
    requires q.stack == p.stack && q.events == p.events
    requires id in q.calls && q.calls == p.calls[id := q.calls[id]] && q.calls[id].main == p.calls[id].main
    requires CallOk(q, id, q.calls[id]) && (q.begun != p.begun ==> BegunLogOk(q))
    ensures Inv(q)
  {
    hide CallOk, ContextStep, ChannelOk, SameHold, Open, ContextsOk, EventsOk, RequestsOk, BegunLogOk, Grows, StackOk;
    LocalContexts(p, q, id, e);
    LocalChannel(p, q, id, e);
    OtherCallsStay(p, q, id, e);
    MovedStack(p, q, id);
    EventsStay(p, q);
    RequestsStay(p, q);
    if q.begun == p.begun { BegunsStay(p, q); }
  }

  lemma PoppedFrames(stack: seq<Frame>, calls: map<nat, Call>, id: nat)
    requires FramesOk(stack, calls) && stack != [] && stack[|stack| - 1] == CallFrame(id)
    ensures FramesOk(stack[..|stack| - 1], calls - {id})
  {
    var rest := stack[..|stack| - 1];
    forall k | k in calls - {id} && (calls - {id})[k].main ensures CallFrame(k) in rest {
      assert CallFrame(k) in stack;
      assert stack == rest + [CallFrame(id)];
    }
  }

  /** The frame of a finished call is the top one, and the others stay. */
  lemma FinishedStack(p: Pump, q: Pump, id: nat)
    requires StackOk(p) && id in p.calls && q.calls == p.calls - {id}
    requires p.calls[id].main ==> Top(p) == Some(CallFrame(id))
    requires q.stack == (if p.calls[id].main then Pop(p).stack else p.stack) && q.duration == p.duration
    requires q.contexts.Keys == p.contexts.Keys && q.activeEpoch == p.activeEpoch && q.active == p.active
    requires q.state == Idle <==> p.state == Idle
    ensures StackOk(q)
  {
    if p.calls[id].main {
      PoppedFrames(p.stack, p.calls, id);
      hide FramesOk;
    }
  }

  lemma FinishKeepsInv(p: Pump, q: Pump, id: nat, e: nat)
    requires Inv(p) && id in p.calls && Local(p, q, id, e)
    requires p.calls[id].main ==> Top(p) == Some(CallFrame(id))
    requires q.calls == p.calls - {id} && q.stack == (if p.calls[id].main then Pop(p).stack else p.stack)
    requires q.begun == p.begun && (q.events != p.events ==> EventsOk(q))
    ensures Inv(q)
  {
    hide CallOk, ContextStep, ChannelOk, SameHold, Open, ContextsOk, EventsOk, RequestsOk, BegunLogOk, Grows, StackOk, Top;
    LocalContexts(p, q, id, e);
    LocalChannel(p, q, id, e);
    OtherCallsStay(p, q, id, e);
    FinishedStack(p, q, id);
    if q.events == p.events { EventsStay(p, q); }
    RequestsStay(p, q);
    BegunsStay(p, q);
  }
}
