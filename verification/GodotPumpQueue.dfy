/** Which step of a run strands the channel, and that completing on the main thread never does. */
module GodotPumpQueue {
  import opened Wrappers
  import opened GodotPump
  import opened GodotPumpInvariant
  import opened GodotPumpSteps
  import opened GodotPumpRuns
  import opened GodotPumpAttribution
  import opened GodotPumpStaleAnswer
  import opened GodotPumpStranded

  /** A completion swaps the state word in an epoch that is not the one it was checked against. */
  predicate StaleSwap(p: Pump, step: Step) {
    match Mover(p, step)
    case Some(id) => p.calls[id].at.Accepting? && p.calls[id].at.epoch != p.activeEpoch && p.calls[id].completion.Some? && p.state == Executing
    case None => false
  }

  // ---------------------------------------------------------------- what every run keeps of the queue

  predicate Engaged(s: ChannelState) {
    s == Executing || s == Committing || s == CompletionQueued
  }

  predicate EventBounded(event: PumpEvent, n: nat) {
    event.ExecutionCompleted? ==> event.answer.epoch <= n
  }

  predicate PointBounded(at: Point, n: nat) {
    match at
    case Called(epoch) => epoch <= n
    case Rechecking(epoch) => epoch <= n
    case Rechecked(epoch) => epoch <= n
    case Ready(epoch, _) => epoch <= n
    case Running(epoch) => epoch <= n
    case Snapped(epoch) => epoch <= n
    case Timed(epoch, _) => epoch <= n
    case Accepting(epoch) => epoch <= n
    case Enqueueing(event) => EventBounded(event, n)
    case _ => true
  }

  /** No completion is for an epoch to come. */
  ghost predicate EpochsOk(p: Pump) {
    && (forall id :: id in p.calls ==> PointBounded(p.calls[id].at, p.activeEpoch))
    && (forall i :: 0 <= i < |p.events| ==> EventBounded(p.events[i], p.activeEpoch))
  }

  /** No inspection is under way while the channel is engaged, and no completion for the active epoch exists before one
      has swapped the state. */
  ghost predicate Tidy(p: Pump) {
    && EpochsOk(p)
    && (Engaged(p.state) ==> NoInspectionPending(p.stack))
    && (Awaited(p) ==> p.state != Executing && p.state != Committing && !StartingUp(p))
  }

  /** What one step of a call does to the channel. */
  ghost predicate CallMoves(p: Pump, q: Pump, id: nat)
    requires id in p.calls
  {
    && q.activeEpoch == p.activeEpoch && (q.stack == p.stack || q.stack == Pop(p).stack)
    && (Engaged(q.state) ==> Engaged(p.state))
    && (q.state == Executing || q.state == Committing ==> p.state == Executing || p.state == Committing)
    && (id in q.calls && PointBounded(p.calls[id].at, p.activeEpoch) ==> PointBounded(q.calls[id].at, p.activeEpoch))
    && (id in q.calls && q.calls[id].at.Enqueueing? && !p.calls[id].at.Enqueueing? && q.calls[id].at.event.ExecutionCompleted? ==>
          q.state == CompletionQueued)
    && (p.calls[id].at.Enqueueing? ==> id !in q.calls)
    && (q.state == CompletionQueued && p.state != CompletionQueued ==> Swaps(p, q, id))
    && (p.state == CompletionQueued ==> q.state == CompletionQueued)
  }

  /** The call has decided on a completion, for the epoch that it was checked against. */
  ghost predicate Swaps(p: Pump, q: Pump, id: nat)
    requires id in p.calls
  {
    && id in q.calls && q.calls[id].at.Enqueueing? && q.calls[id].at.event.ExecutionCompleted?
    && q.events == p.events
    && ((p.calls[id].at.Running? && p.calls[id].completion.None? && q.calls[id].at.event.answer.epoch == p.calls[id].at.epoch)
        || (p.calls[id].at.Accepting? && p.calls[id].completion.Some? && p.state == Executing
            && q.calls[id].at.event.answer.epoch == p.calls[id].at.epoch))
  }

  lemma EarlyMoves(p: Pump, id: nat, choice: Choice)
    requires CanStep(p, id)
    requires p.calls[id].at.Entered? || p.calls[id].at.TokenChecked? || p.calls[id].at.Claimed? || p.calls[id].at.Enqueueing?
    ensures CallMoves(p, StepCall(p, id, choice), id)
  {
    hide StepCommit, StepComplete;
  }

  lemma CommitMoves(p: Pump, id: nat, choice: Choice)
    requires CanStep(p, id) && p.calls[id].completion.None? && !p.calls[id].at.Enqueueing?
    ensures CallMoves(p, StepCommit(p, id, choice), id)
  {
    hide ExpiredAt;
  }

  lemma CompleteMoves(p: Pump, id: nat, choice: Choice)
    requires CanStep(p, id) && p.calls[id].completion.Some? && !p.calls[id].at.Enqueueing?
    ensures CallMoves(p, StepComplete(p, id, choice), id)
  {
    hide ExpiredAt;
  }

  lemma AnyCallMoves(p: Pump, id: nat, choice: Choice)
    requires CanStep(p, id)
    ensures CallMoves(p, StepCall(p, id, choice), id)
  {
    hide StepCommit, StepComplete, CallMoves;
    var c := p.calls[id];
    if c.at.Entered? || c.at.TokenChecked? || c.at.Claimed? || c.at.Enqueueing? { EarlyMoves(p, id, choice); }
    else if c.completion.Some? { CompleteMoves(p, id, choice); }
    else { CommitMoves(p, id, choice); }
  }

  // ---------------------------------------------------------------- steps of a call

  lemma CallBounded(p: Pump, q: Pump, id: nat)
    requires EpochsOk(p) && id in p.calls && CallMoves(p, q, id) && CallShape(p, q, id)
    ensures EpochsOk(q)
  {
    hide EventBounded, Swaps;
    assert PointBounded(p.calls[id].at, p.activeEpoch);
    forall other | other in q.calls ensures PointBounded(q.calls[other].at, q.activeEpoch) {
      if other != id { assert q.calls[other] == p.calls[other]; }
    }
  }

  /** Behind a call's step a completion is awaited only if one was, or the call has just swapped the state. */
  lemma CallAwaits(p: Pump, q: Pump, id: nat)
    requires id in p.calls && CallMoves(p, q, id) && CallShape(p, q, id)
    ensures Awaited(q) ==> Awaited(p) || q.state == CompletionQueued
  {
    hide PointBounded, Swaps;
    if Awaited(q) && q.state != CompletionQueued {
      if Queued(q) {
        var i :| 0 <= i < |q.events| && Concludes(q, q.events[i]);
        if i < |p.events| { assert Concludes(p, p.events[i]); } else { assert AboutToQueue(p, id); }
      } else {
        var other :| AboutToQueue(q, other);
        assert AboutToQueue(p, other);
      }
    }
  }

  lemma CallTidy(p: Pump, id: nat, choice: Choice)
    requires Inv(p) && Tidy(p) && CanStep(p, id)
    ensures Tidy(StepCall(p, id, choice))
  {
    CallHasShape(p, id, choice);
    AnyCallMoves(p, id, choice);
    var q := StepCall(p, id, choice);
    hide Inv, StepCall;
    CallBounded(p, q, id);
    CallAwaits(p, q, id);
    hide Awaited, EpochsOk, CallShape, NoInspectionPending;
    if NoInspectionPending(p.stack) { PoppedPlain(p); }
    PoppedStarting(p);
  }

  lemma PoppedStarting(p: Pump)
    ensures StartingUp(Pop(p)) ==> StartingUp(p)
  {}

  /** An event that a call puts into the queue is there behind the step. */
  lemma EnqueuedAwaits(p: Pump, id: nat, choice: Choice)
    requires CanStep(p, id) && AboutToQueue(p, id)
    ensures Awaited(StepCall(p, id, choice))
  {
    hide StepCommit, StepComplete;
    var q := StepCall(p, id, choice);
    assert q.events == p.events + [p.calls[id].at.event] && q.activeEpoch == p.activeEpoch;
    assert Concludes(q, q.events[|p.events|]);
  }

  /** A waiting channel that loses its completion in the step of a call loses it by a stale swap. */
  lemma CallLoses(p: Pump, id: nat, choice: Choice)
    requires Inv(p) && Tidy(p) && CanStep(p, id)
    requires StepCall(p, id, choice).state == CompletionQueued && !Awaited(StepCall(p, id, choice))
    ensures (p.state == CompletionQueued && !Awaited(p))
            || (p.calls[id].at.Accepting? && p.calls[id].at.epoch != p.activeEpoch && p.calls[id].completion.Some? && p.state == Executing)
  {
    CallHasShape(p, id, choice);
    AnyCallMoves(p, id, choice);
    Here(p, id);
    var q := StepCall(p, id, choice);
    if p.state == CompletionQueued {
      if Awaited(p) {
        if AboutToQueue(p, id) { EnqueuedAwaits(p, id, choice); }
        StillAwaited(p, q, id);
      }
    } else {
      hide Inv, StepCall;
      assert !AboutToQueue(q, id);
    }
  }

  lemma StillAwaited(p: Pump, q: Pump, id: nat)
    requires id in p.calls && CallMoves(p, q, id) && CallShape(p, q, id) && Awaited(p) && !AboutToQueue(p, id)
    ensures Awaited(q)
  {
    hide PointBounded, Swaps;
    if Queued(p) {
      var i :| 0 <= i < |p.events| && Concludes(p, p.events[i]);
      assert q.events[i] == p.events[i] && Concludes(q, q.events[i]);
    } else {
      var other :| AboutToQueue(p, other);
      assert AboutToQueue(q, other);
    }
  }

  /** A stale swap leaves nothing to wait for. */
  lemma SwapLoses(p: Pump, id: nat, choice: Choice)
    requires Inv(p) && Tidy(p) && CanStep(p, id) && p.calls[id].completion.Some?
    requires p.calls[id].at.Accepting? && p.calls[id].at.epoch != p.activeEpoch && p.state == Executing
    ensures Stranded(StepCall(p, id, choice))
  {
    hide Inv, EpochsOk, NoInspectionPending;
    var q := StepCall(p, id, choice);
    assert q.state == CompletionQueued && q.stack == p.stack && q.events == p.events && q.activeEpoch == p.activeEpoch;
    assert !Awaited(p);
    forall other ensures !AboutToQueue(q, other) { assert !AboutToQueue(p, other); }
    assert forall i :: 0 <= i < |q.events| ==> !Concludes(q, q.events[i]) by {
      forall i | 0 <= i < |q.events| ensures !Concludes(q, q.events[i]) { assert !Concludes(p, p.events[i]); }
    }
  }

  // ---------------------------------------------------------------- the other steps

  /** Steps that queue no completion and engage nothing. */
  lemma PlainTidy(p: Pump, q: Pump)
    requires Tidy(p) && q.calls == p.calls && q.activeEpoch == p.activeEpoch && q.events == p.events
    requires Engaged(q.state) ==> Engaged(p.state) && NoInspectionPending(q.stack)
    requires q.state == Executing || q.state == Committing ==> q.state == p.state
    requires StartingUp(q) ==> StartingUp(p)
    ensures Tidy(q)
  {
    hide NoInspectionPending, PointBounded;
    SameAwaited(p, q);
  }

  lemma PumpTidy(p: Pump, point: PumpPoint, choice: Choice)
    requires Inv(p) && Tidy(p) && Top(p) == Some(PumpFrame(point))
    ensures Tidy(StepPump(p, point, choice))
  {
    PumpFrameAlone(p, point);
    if point == Bounded {
      BoundedTidy(p, choice);
    } else {
      hide Inv, Tidy, CancelExecution, CloseActive;
      PlainPump(p, point, choice);
      PlainTidy(p, StepPump(p, point, choice));
    }
  }

  lemma PlainPump(p: Pump, point: PumpPoint, choice: Choice)
    requires Inv(p) && p.stack == [PumpFrame(point)] && point != Bounded
    ensures var q := StepPump(p, point, choice);
      && q.calls == p.calls && q.activeEpoch == p.activeEpoch && q.events == p.events
      && (Engaged(q.state) ==> Engaged(p.state) && NoInspectionPending(q.stack))
      && (q.state == Executing || q.state == Committing ==> q.state == p.state)
      && (StartingUp(q) ==> StartingUp(p))
  {
    hide ContextsOk, CallsOk, LogsOk, ChannelOk, CancelExecution, CloseActive;
  }

  lemma BoundedTidy(p: Pump, choice: Choice)
    requires Inv(p) && Tidy(p) && p.stack == [PumpFrame(Bounded)]
    ensures Tidy(StepPump(p, Bounded, choice))
  {
    hide Inv, EpochsOk;
    var q := StepPump(p, Bounded, choice);
    assert StartingUp(p);
    SameAwaited(p, q);
    assert EpochsOk(q) by { SameEpochs(p, q); }
  }

  lemma SameEpochs(p: Pump, q: Pump)
    requires EpochsOk(p) && q.calls == p.calls && q.activeEpoch == p.activeEpoch && q.events == p.events
    ensures EpochsOk(q)
  {
    hide PointBounded;
  }

  /** A new epoch starts with no completion for it. */
  lemma TakeTidy(p: Pump, item: Item)
    requires Tidy(p) && p.stack == [] && p.state == Idle
    ensures Tidy(TakeItem(p, item))
  {
    hide CancelExecution, CloseActive, NoInspectionPending;
    var q := TakeItem(p, item);
    if q.activeEpoch == p.activeEpoch {
      PlainTidy(p, q);
    } else {
      forall id | id in p.calls ensures PointBounded(p.calls[id].at, q.activeEpoch) { assert PointBounded(p.calls[id].at, p.activeEpoch); }
      forall i | 0 <= i < |p.events| ensures EventBounded(p.events[i], q.activeEpoch) && !Concludes(q, p.events[i]) {
        assert EventBounded(p.events[i], p.activeEpoch);
      }
      forall id ensures !AboutToQueue(q, id) {
        if id in p.calls { assert PointBounded(p.calls[id].at, p.activeEpoch); }
      }
    }
  }

  lemma ProcessTidy(p: Pump)
    requires Tidy(p) && p.stack == [] && p.events != []
    ensures Tidy(Next(p, Process))
  {
    var m := p.(events := p.events[1..]);
    DroppedTidy(p);
    ProcessIsPlain(m, p.events[0]);
    hide Tidy, ProcessEvent, NoInspectionPending;
    PlainTidy(m, ProcessEvent(m, p.events[0]));
  }

  lemma ProcessIsPlain(p: Pump, event: PumpEvent)
    requires p.stack == []
    ensures var q := ProcessEvent(p, event);
      && q.calls == p.calls && q.activeEpoch == p.activeEpoch && q.events == p.events
      && (Engaged(q.state) ==> Engaged(p.state) && NoInspectionPending(q.stack))
      && (q.state == Executing || q.state == Committing ==> q.state == p.state)
      && (StartingUp(q) ==> StartingUp(p))
  {
    hide CancelExecution, CloseActive;
  }

  lemma DroppedTidy(p: Pump)
    requires Tidy(p) && p.events != []
    ensures Tidy(p.(events := p.events[1..]))
  {
    hide NoInspectionPending, PointBounded, EventBounded;
    var m := p.(events := p.events[1..]);
    if Awaited(m) {
      if Queued(m) {
        var i :| 0 <= i < |m.events| && Concludes(m, m.events[i]);
        assert p.events[i + 1] == m.events[i] && Concludes(p, p.events[i + 1]);
      } else {
        var id :| AboutToQueue(m, id);
        assert AboutToQueue(p, id);
      }
    }
  }

  lemma EnterTidy(p: Pump, id: nat, call: Call)
    requires Tidy(p) && MayEnter(p, id, call)
    ensures Tidy(Next(p, Enter(id, call)))
  {
    EntersAtStart(p, id, call);
    EntersBehind(p, id, call);
    Enters(p, id, call);
    hide MayEnter, PointBounded, Next;
    var q := p.(calls := p.calls[id := call], stack := if call.main then p.stack + [CallFrame(id)] else p.stack);
    assert PointBounded(Entered, p.activeEpoch);
    if Awaited(q) {
      if Queued(q) {
        var i :| 0 <= i < |q.events| && Concludes(q, q.events[i]);
        assert Concludes(p, p.events[i]);
      } else {
        var other :| AboutToQueue(q, other);
        assert AboutToQueue(p, other);
      }
    }
  }

  lemma EntersBehind(p: Pump, id: nat, call: Call)
    requires MayEnter(p, id, call)
    ensures var q := p.(stack := if call.main then p.stack + [CallFrame(id)] else p.stack);
      (StartingUp(q) ==> StartingUp(p)) && (NoInspectionPending(p.stack) ==> NoInspectionPending(q.stack))
  {}

  lemma ReplyTidy(p: Pump, i: nat, reply: Reply)
    requires Tidy(p)
    ensures Tidy(Next(p, Replied(i, reply)))
    ensures Awaited(p) ==> Awaited(Next(p, Replied(i, reply)))
  {
    hide NoInspectionPending, PointBounded;
    var q := Next(p, Replied(i, reply));
    if Awaited(q) {
      if Queued(q) {
        var k :| 0 <= k < |q.events| && Concludes(q, q.events[k]);
        assert k < |p.events| && Concludes(p, p.events[k]);
      } else {
        var id :| AboutToQueue(q, id);
        assert AboutToQueue(p, id);
      }
    }
    if Awaited(p) {
      if Queued(p) {
        var k :| 0 <= k < |p.events| && Concludes(p, p.events[k]);
        assert q.events[k] == p.events[k] && Concludes(q, q.events[k]);
      } else {
        var id :| AboutToQueue(p, id);
        assert AboutToQueue(q, id);
      }
    }
  }

  lemma NextTidy(p: Pump, step: Step)
    requires Inv(p) && Tidy(p)
    ensures Tidy(Next(p, step))
  {
    hide Inv, Tidy, StepCall, StepPump, TakeItem, ProcessEvent, BeginInspection, CancelExecution, MayEnter, NoInspectionPending, InCallback;
    match step
    case Background(id, choice) => if Mover(p, step).Some? { CallTidy(p, id, choice); }
    case Main(choice) =>
      if Top(p).Some? {
        if Top(p).value.PumpFrame? { PumpTidy(p, Top(p).value.point, choice); }
        else if Mover(p, step).Some? { CallTidy(p, Top(p).value.id, choice); }
      }
    case Enter(id, call) => if MayEnter(p, id, call) { EnterTidy(p, id, call); }
    case Take(item) => if p.stack == [] && p.state == Idle { TakeTidy(p, item); }
    case Process => if p.stack == [] && p.events != [] { ProcessTidy(p); }
    case Replied(i, reply) => ReplyTidy(p, i, reply);
    case _ => RestTidy(p, step);
  }

  lemma RestTidy(p: Pump, step: Step)
    requires Tidy(p) && (step.Tick? || step.Expire? || step.ExitTree?)
    ensures Tidy(Next(p, step))
  {
    hide Tidy, NoInspectionPending, CancelExecution, CloseActive, InCallback;
    if Engaged(p.state) { TidyStack(p); }
    PlainTidy(p, Next(p, step));
  }

  lemma TidyStack(p: Pump)
    requires Tidy(p) && Engaged(p.state)
    ensures NoInspectionPending(p.stack)
  {}

  lemma {:induction false} RunsStayTidy(limit: int, now: int, steps: seq<Step>)
    ensures Tidy(Run(Initial(limit, now), steps))
  {
    hide Next, Tidy;
    if steps == [] {
      InitialTidy(limit, now);
    } else {
      RunsStayTidy(limit, now, steps[..|steps| - 1]);
      Reachable(limit, now, steps[..|steps| - 1]);
      NextTidy(Run(Initial(limit, now), steps[..|steps| - 1]), steps[|steps| - 1]);
    }
  }

  lemma InitialTidy(limit: int, now: int)
    ensures Tidy(Initial(limit, now))
  {
    var p := Initial(limit, now);
    assert forall id :: !AboutToQueue(p, id);
  }

  // ---------------------------------------------------------------- the step that strands the channel

  /** A step after which the channel waits in vain is a stale swap, unless it did before. */
  lemma NextLoses(p: Pump, step: Step)
    requires Inv(p) && Tidy(p) && Stranded(Next(p, step))
    ensures Stranded(p) || StaleSwap(p, step)
  {
    hide Inv, Tidy, StepCall, StepPump, TakeItem, ProcessEvent, BeginInspection, CancelExecution, MayEnter, NoInspectionPending, InCallback, Awaited;
    if Engaged(p.state) { TidyStack(p); }
    match step
    case Background(id, choice) => if Mover(p, step).Some? { CallLoses(p, id, choice); }
    case Main(choice) =>
      if Top(p).Some? {
        if Top(p).value.PumpFrame? { PumpLoses(p, Top(p).value.point, choice); }
        else if Mover(p, step).Some? { CallLoses(p, Top(p).value.id, choice); }
      }
    case Enter(id, call) =>
      if MayEnter(p, id, call) {
        EntersBehind(p, id, call);
        if Awaited(p) { EnterLoses(p, id, call); }
      }
    case Take(item) => if p.stack == [] && p.state == Idle { TakeNotWaiting(p, item); }
    case Process => if p.stack == [] && p.events != [] { ProcessLoses(p); }
    case Replied(i, reply) => ReplyTidy(p, i, reply);
    case _ => RestLoses(p, step);
  }

  lemma PumpLoses(p: Pump, point: PumpPoint, choice: Choice)
    requires Inv(p) && Top(p) == Some(PumpFrame(point)) && StepPump(p, point, choice).state == CompletionQueued
    ensures p.state == CompletionQueued && (Awaited(p) ==> Awaited(StepPump(p, point, choice)))
  {
    PumpFrameAlone(p, point);
    hide ContextsOk, CallsOk, LogsOk, CancelExecution, CloseActive, Awaited;
    SameAwaited(p, StepPump(p, point, choice));
  }

  lemma EnterLoses(p: Pump, id: nat, call: Call)
    requires MayEnter(p, id, call) && Awaited(p)
    ensures Awaited(Next(p, Enter(id, call)))
  {
    EntersAtStart(p, id, call);
    Enters(p, id, call);
    hide MayEnter, Next;
    var q := p.(calls := p.calls[id := call], stack := if call.main then p.stack + [CallFrame(id)] else p.stack);
    if Queued(p) {
      var i :| 0 <= i < |p.events| && Concludes(p, p.events[i]);
      assert Concludes(q, q.events[i]);
    } else {
      var other :| AboutToQueue(p, other);
      assert AboutToQueue(q, other);
    }
  }

  lemma TakeNotWaiting(p: Pump, item: Item)
    requires p.state == Idle
    ensures TakeItem(p, item).state != CompletionQueued
  {
    hide CancelExecution, CloseActive;
  }

  lemma ProcessLoses(p: Pump)
    requires Inv(p) && p.stack == [] && p.events != [] && Next(p, Process).state == CompletionQueued
    ensures p.state == CompletionQueued && (Awaited(p) ==> Awaited(Next(p, Process)))
  {
    ProcessWaits(p);
    OneProcessed(p);
    hide Inv, ProcessEvent;
    var q := Next(p, Process);
    assert !Concludes(p, p.events[0]);
    if Awaited(p) {
      if Queued(p) {
        var i :| 0 <= i < |p.events| && Concludes(p, p.events[i]);
        assert q.events[i - 1] == p.events[i] && Concludes(q, q.events[i - 1]);
      } else {
        var id :| AboutToQueue(p, id);
        assert AboutToQueue(q, id);
      }
    }
  }

  lemma ProcessWaits(p: Pump)
    requires p.stack == [] && p.events != [] && Next(p, Process).state == CompletionQueued
    ensures p.state == CompletionQueued
  {
    hide CancelExecution, CloseActive;
  }

  lemma RestLoses(p: Pump, step: Step)
    requires (step.Tick? || step.Expire? || step.ExitTree?) && Next(p, step).state == CompletionQueued
    ensures p.state == CompletionQueued && (Awaited(p) ==> Awaited(Next(p, step)))
  {
    hide CancelExecution, CloseActive, InCallback, NoInspectionPending, Awaited;
    SameAwaited(p, Next(p, step));
  }

  lemma StaleSwapStrands(p: Pump, step: Step)
    requires Inv(p) && Tidy(p) && StaleSwap(p, step)
    ensures Stranded(Next(p, step))
  {
    hide Inv, Tidy, Stranded, StepCall;
    SwapLoses(p, Mover(p, step).value, step.choice);
  }

  /** A run passes through a state in which the channel waits for a completion that nobody will hand it exactly when one
      of its steps is a stale swap. */
  lemma StrandsExactly(limit: int, now: int, steps: seq<Step>)
    ensures (exists n :: 0 <= n <= |steps| && Stranded(Run(Initial(limit, now), steps[..n])))
            <==> exists n :: 0 <= n < |steps| && StaleSwap(Run(Initial(limit, now), steps[..n]), steps[n])
  {
    hide Run, Next, Inv, Tidy, Stranded, StaleSwap;
    if n :| 0 <= n <= |steps| && Stranded(Run(Initial(limit, now), steps[..n])) {
      var m := FirstSwap(limit, now, steps, n);
    }
    if n :| 0 <= n < |steps| && StaleSwap(Run(Initial(limit, now), steps[..n]), steps[n]) {
      var p := Run(Initial(limit, now), steps[..n]);
      Reachable(limit, now, steps[..n]);
      RunsStayTidy(limit, now, steps[..n]);
      StaleSwapStrands(p, steps[n]);
      RunPush(Initial(limit, now), steps[..n], steps[n]);
      assert steps[..n] + [steps[n]] == steps[..n + 1];
      assert Stranded(Run(Initial(limit, now), steps[..n + 1]));
    }
  }

  lemma {:induction false} FirstSwap(limit: int, now: int, steps: seq<Step>, n: nat) returns (m: nat)
    requires n <= |steps| && Stranded(Run(Initial(limit, now), steps[..n]))
    ensures m < n && StaleSwap(Run(Initial(limit, now), steps[..m]), steps[m])
    decreases n
  {
    if n == 0 {
      assert false;
    } else {
      hide Run, Next, Inv, Tidy, Stranded, StaleSwap;
      var p := Run(Initial(limit, now), steps[..n - 1]);
      Reachable(limit, now, steps[..n - 1]);
      RunsStayTidy(limit, now, steps[..n - 1]);
      RunPush(Initial(limit, now), steps[..n - 1], steps[n - 1]);
      assert steps[..n - 1] + [steps[n - 1]] == steps[..n];
      NextLoses(p, steps[n - 1]);
      if StaleSwap(p, steps[n - 1]) { m := n - 1; } else { m := FirstSwap(limit, now, steps, n - 1); }
    }
  }

  // ---------------------------------------------------------------- completing on the main thread

  /** A call past its reading in a run without a stale one was checked against its own context's epoch. */
  lemma AcceptsOwnEpoch(limit: int, now: int, steps: seq<Step>, id: nat)
    requires NeverStale(limit, now, steps)
    requires var p := Run(Initial(limit, now), steps);
      id in p.calls && p.calls[id].completion.Some? && p.calls[id].at.Accepting?
    ensures var c := Run(Initial(limit, now), steps).calls[id]; c.at.epoch == c.context
  {
    RunsAttributed(limit, now, steps);
    var p := Run(Initial(limit, now), steps);
    assert AccountedCall(p.calls[id], Readings(Initial(limit, now), steps));
    hide Run, Next, Readings, Attributed, ReadOf;
    var n := ReadSomewhere(Initial(limit, now), steps, Reading(p.calls[id].context, p.calls[id].at.epoch));
    assert steps[..n] <= steps;
  }

  lemma MainThreadNeverSwapsStale(limit: int, now: int, steps: seq<Step>, n: nat)
    requires CompletesOnMainThread(steps) && n < |steps|
    ensures !StaleSwap(Run(Initial(limit, now), steps[..n]), steps[n])
  {
    var p := Run(Initial(limit, now), steps[..n]);
    StaysOnMain(limit, now, steps[..n]);
    MainThreadNeverStale(limit, now, steps[..n]);
    Reachable(limit, now, steps[..n]);
    hide Run, Next, NeverStale, Inv;
    if StaleSwap(p, steps[n]) {
      var id := Mover(p, steps[n]).value;
      AcceptsOwnEpoch(limit, now, steps[..n], id);
      Here(p, id);
    }
  }

  /** If completions without a world write enter on the main thread only, a waiting channel always has its completion
      coming, in every state of every run. */
  lemma MainThreadNeverStrands(limit: int, now: int, steps: seq<Step>)
    requires CompletesOnMainThread(steps)
    ensures var p := Run(Initial(limit, now), steps); p.state == CompletionQueued ==> Awaited(p)
  {
    hide Run, Next, Inv, StaleSwap, Awaited, NoInspectionPending;
    var p := Run(Initial(limit, now), steps);
    RunsStayTidy(limit, now, steps);
    assert steps[..|steps|] == steps;
    if p.state == CompletionQueued && !Awaited(p) {
      assert Stranded(p);
      var m := FirstSwap(limit, now, steps, |steps|);
      MainThreadNeverSwapsStale(limit, now, steps, m);
    }
  }
}
