/** The Godot action pump as interleaved steps: one main thread with nested callbacks, and any number of background
    callers of a context's TryCommit and TryCompleteWithoutWorldWrite. */
module GodotPump {
  import opened Wrappers

  type Id = string

  datatype Outcome = Succeeded | Rejected | Unknown

  datatype Completion = Completion(outcome: Outcome, result: string)

  datatype Resolution = Applied | NotApplied | Unresolved

  datatype DeliveryKind = Dispatch | Reconcile

  datatype Delivery = Delivery(kind: DeliveryKind, operationId: Id, claimToken: Id, attempt: nat)

  datatype ChannelState =
    | Idle | Inspecting | Executing | Committing | InspectionQueued | CompletionQueued
    | DeliveringReceipt | Reconciling | Halted | Stopped

  /** written tells a transaction's completion from one given without a world write; source is the context it came
      from. The program keeps neither. */
  datatype Answer = Answer(epoch: nat, completion: Completion, source: nat, written: bool)

  datatype PumpEvent =
    | ExecutionUncertain(epoch: nat)
    | ExecutionCompleted(answer: Answer)
    | DeliverySucceeded(epoch: nat)
    | DeliveryConflict(epoch: nat, delivery: Delivery)
    | DeliveryFailed(epoch: nat)

  datatype Request =
    | SendReceipt(answer: Answer, delivery: Delivery)
    | SendReconcile(epoch: nat, delivery: Delivery, resolution: Resolution)

  /** An execution context. Its completed flag and whether its token is cancelled are the program's; the other fields
      record what happened: the call that holds the flag, transactions begun, whether a completion without a world
      write claimed the flag, what a transaction returned, and whether a receipt or an inspection has begun. */
  datatype Context = Context(
    delivery: Delivery, deadline: int, completed: bool, cancelled: bool,
    owner: nat, starts: nat, noWrite: bool, returned: Option<Completion>, closed: bool, receipts: nat)

  /** Where a call of TryCommit or TryCompleteWithoutWorldWrite stands. epoch is what the lambda read from activeEpoch. */
  datatype Point =
    | Entered
    | TokenChecked
    | Claimed
    | Called(epoch: nat)
    | Rechecking(epoch: nat)
    | Rechecked(epoch: nat)
    | Ready(epoch: nat, checkedAt: int)
    | Running(epoch: nat)
    | Refused
    | Snapped(epoch: nat)
    | Timed(epoch: nat, completedAt: int)
    | Accepting(epoch: nat)
    | Enqueueing(event: PumpEvent)

  /** A call in progress; without a completion it is a TryCommit. */
  datatype Call = Call(context: nat, main: bool, completion: Option<Completion>, at: Point)

  datatype PumpPoint = Starting | Clocked | Bounded | InExecute | InSignal | InInspect | InHaltSignal

  datatype Frame = PumpFrame(point: PumpPoint) | CallFrame(id: nat)

  datatype Begun = Begun(context: nat, epoch: nat, checkedAt: int)

  datatype Pump = Pump(
    state: ChannelState, activeEpoch: nat, active: Option<Delivery>,
    startedAt: int, duration: int, limit: int, now: int,
    cancellation: Option<nat>, lastFence: Option<(Id, nat)>,
    contexts: map<nat, Context>, calls: map<nat, Call>, stack: seq<Frame>,
    events: seq<PumpEvent>, requests: seq<Request>, answered: set<nat>, begun: seq<Begun>)

  function Initial(limit: int, now: int): Pump {
    Pump(Idle, 0, None, 0, 0, limit, now, None, None, map[], map[], [], [], [], {}, [])
  }

  /** What a callback or the outside decides. */
  datatype Choice =
    | Throws
    | Returns
    | Rechecks(fits: bool)
    | Transacts(completion: Option<Completion>)
    | Remaining(claim: int)
    | Inspects(resolution: Resolution)

  // ---------------------------------------------------------------- parts of a step

  predicate ExpiredAt(p: Pump, at: int) {
    at - p.startedAt >= p.duration
  }

  function CancelExecution(p: Pump): (q: Pump)
    ensures q == p.(cancellation := None, contexts := q.contexts)
  {
    if p.cancellation.Some? && p.cancellation.value in p.contexts
    then p.(cancellation := None,
            contexts := p.contexts[p.cancellation.value := p.contexts[p.cancellation.value].(cancelled := true)])
    else p.(cancellation := None)
  }

  /** A receipt or an inspection of the active epoch has begun. */
  function CloseActive(p: Pump, receipts: nat): (q: Pump)
    ensures q == p.(contexts := q.contexts)
  {
    if p.activeEpoch in p.contexts
    then var x := p.contexts[p.activeEpoch];
         p.(contexts := p.contexts[p.activeEpoch := x.(closed := true, receipts := x.receipts + receipts)])
    else p
  }

  function Halt(p: Pump): Pump {
    if p.state == Stopped || p.state == Halted then p
    else CancelExecution(p).(state := Halted, stack := p.stack + [PumpFrame(InHaltSignal)])
  }

  /** BeginInspection up to its call of the adapter. */
  function BeginInspection(p: Pump): Pump {
    CancelExecution(CloseActive(p, 0)).(state := Inspecting, stack := p.stack + [PumpFrame(InInspect)])
  }

  function BeginReceipt(p: Pump, answer: Answer): Pump {
    if p.active.None? then p
    else CancelExecution(CloseActive(p, 1)).(state := DeliveringReceipt, requests := p.requests + [SendReceipt(answer, p.active.value)])
  }

  function Pop(p: Pump): (q: Pump)
    ensures q == p.(stack := q.stack)
  {
    if p.stack == [] then p else p.(stack := p.stack[..|p.stack| - 1])
  }

  // ---------------------------------------------------------------- one step of a call

  function Move(p: Pump, id: nat, to: Point): Pump
    requires id in p.calls
  {
    p.(calls := p.calls[id := p.calls[id].(at := to)])
  }

  /** The call is over; on the main thread its frame is the top one. */
  function Finish(p: Pump, id: nat): (q: Pump)
    requires id in p.calls
    ensures q == p.(calls := p.calls - {id}, stack := q.stack)
  {
    var q := p.(calls := p.calls - {id});
    if p.calls[id].main then Pop(q) else q
  }

  function Touch(p: Pump, e: nat, x: Context): Pump {
    p.(contexts := p.contexts[e := x])
  }

  /** Context.TryCommit and the node's TryCommit. */
  function StepCommit(p: Pump, id: nat, choice: Choice): Pump
    requires id in p.calls && p.calls[id].context in p.contexts
  {
    var c := p.calls[id];
    var x := p.contexts[c.context];
    match c.at
    case Called(epoch) =>
      // Off the main thread the call is refused; on it, nothing may have changed so far.
      if c.main && p.state == Executing && p.activeEpoch == epoch && !ExpiredAt(p, p.now) then Move(p, id, Rechecking(epoch))
      else Move(p, id, Refused)
    case Rechecking(epoch) =>
      if choice.Throws? then Finish(p, id)
      else if choice == Rechecks(true) then Move(p, id, Rechecked(epoch))
      else Move(p, id, Refused)
    case Rechecked(epoch) =>
      if p.activeEpoch == epoch && !ExpiredAt(p, p.now) then Move(p, id, Ready(epoch, p.now)) else Move(p, id, Refused)
    case Ready(epoch, checkedAt) =>
      if p.state == Executing then
        Move(Touch(p, c.context, x.(starts := x.starts + 1)), id, Running(epoch))
        .(state := Committing, begun := p.begun + [Begun(c.context, epoch, checkedAt)])
      else Move(p, id, Refused)
    case Running(epoch) =>
      if choice.Transacts? then
        match choice.completion
        case None =>
          if p.state == Committing then Move(p, id, Enqueueing(ExecutionUncertain(epoch))).(state := InspectionQueued)
          else Finish(p, id)
        case Some(completion) =>
          var q := Touch(p, c.context, x.(returned := Some(completion)));
          if p.state == Committing then
            Move(q, id, Enqueueing(ExecutionCompleted(Answer(epoch, completion, c.context, true)))).(state := CompletionQueued)
          else Finish(q, id)
      else Finish(p, id).(state := if p.state == Committing then Executing else p.state)
    case Refused => Finish(Touch(p, c.context, x.(completed := false)), id)
    case _ => p
  }

  /** Context.TryCompleteWithoutWorldWrite and QueueExecutionCompletion. */
  function StepComplete(p: Pump, id: nat, choice: Choice): Pump
    requires id in p.calls && p.calls[id].context in p.contexts && p.calls[id].completion.Some?
  {
    var c := p.calls[id];
    match c.at
    case Called(epoch) => if p.activeEpoch != epoch then Finish(p, id) else Move(p, id, Snapped(epoch))
    case Snapped(epoch) => if choice.Throws? then Finish(p, id) else Move(p, id, Timed(epoch, p.now))
    case Timed(epoch, completedAt) =>
      if p.activeEpoch != epoch || ExpiredAt(p, completedAt) then Finish(p, id) else Move(p, id, Accepting(epoch))
    case Accepting(epoch) =>
      if p.state == Executing then
        Move(p, id, Enqueueing(ExecutionCompleted(Answer(epoch, c.completion.value, c.context, false)))).(state := CompletionQueued)
      else Finish(p, id)
    case _ => p
  }

  function StepCall(p: Pump, id: nat, choice: Choice): Pump
    requires id in p.calls && p.calls[id].context in p.contexts
  {
    var c := p.calls[id];
    var x := p.contexts[c.context];
    match c.at
    case Entered => if x.cancelled then Finish(p, id) else Move(p, id, TokenChecked)
    case TokenChecked =>
      if x.completed then Finish(p, id)
      else Move(Touch(p, c.context, x.(completed := true, owner := id, noWrite := c.completion.Some?)), id, Claimed)
    case Claimed => Move(p, id, Called(p.activeEpoch))
    case Enqueueing(event) => Finish(p, id).(events := p.events + [event])
    case _ => if c.completion.Some? then StepComplete(p, id, choice) else StepCommit(p, id, choice)
  }

  // ---------------------------------------------------------------- the pump's own code

  function StepPump(p: Pump, point: PumpPoint, choice: Choice): Pump {
    var q := Pop(p);
    match point
    case Starting => q.(startedAt := p.now, stack := q.stack + [PumpFrame(Clocked)])
    case Clocked =>
      var remaining := if choice.Remaining? then choice.claim else 0;
      var timed := q.(duration := if remaining < p.limit then remaining else p.limit);
      if timed.duration <= 0 then BeginInspection(timed) else timed.(stack := q.stack + [PumpFrame(Bounded)])
    case Bounded =>
      if p.active.None? then q
      else q.(state := Executing, cancellation := Some(p.activeEpoch), stack := q.stack + [PumpFrame(InExecute)],
              contexts := p.contexts[p.activeEpoch :=
                Context(p.active.value, p.startedAt + p.duration, false, false, 0, 0, false, None, false, 0)])
    case InExecute =>
      if choice.Throws? && p.state == Executing then q.(state := Inspecting, stack := q.stack + [PumpFrame(InSignal)]) else q
    case InSignal => BeginInspection(q)
    case InInspect =>
      if choice.Inspects? && p.active.Some? then
        q.(state := Reconciling, requests := p.requests + [SendReconcile(p.activeEpoch, p.active.value, choice.resolution)])
      else Halt(q)
    case InHaltSignal => q
  }

  datatype Item = Failure | Foreign | Valid(delivery: Delivery)

  function TakeItem(p: Pump, item: Item): Pump {
    if !item.Valid? then Halt(p)
    else
      var q := p.(active := Some(item.delivery), lastFence := None, activeEpoch := p.activeEpoch + 1);
      if item.delivery.kind == Reconcile then BeginInspection(q) else q.(stack := q.stack + [PumpFrame(Starting)])
  }

  predicate Delivering(p: Pump) {
    p.state == DeliveringReceipt || p.state == Reconciling
  }

  function EpochOf(event: PumpEvent): nat {
    match event
    case ExecutionUncertain(e) => e
    case ExecutionCompleted(a) => a.epoch
    case DeliverySucceeded(e) => e
    case DeliveryConflict(e, _) => e
    case DeliveryFailed(e) => e
  }

  function ProcessEvent(p: Pump, event: PumpEvent): Pump {
    if EpochOf(event) != p.activeEpoch then p
    else match event
      case ExecutionUncertain(_) => if p.state == InspectionQueued then p.(stack := p.stack + [PumpFrame(InSignal)]) else p
      case ExecutionCompleted(answer) => if p.state == CompletionQueued then BeginReceipt(p, answer) else p
      case DeliverySucceeded(_) =>
        if Delivering(p) then CancelExecution(p).(active := None, lastFence := None, state := Idle) else p
      case DeliveryConflict(_, delivery) =>
        if !Delivering(p) then p
        else
          var fence := (delivery.claimToken, delivery.attempt);
          if p.lastFence == Some(fence) then Halt(p)
          else BeginInspection(p.(lastFence := Some(fence), active := Some(delivery)))
      case DeliveryFailed(_) => if Delivering(p) then Halt(p) else p
  }

  // ---------------------------------------------------------------- steps

  datatype Reply = Accepted | Conflicts(delivery: Delivery) | Settled | Fails

  datatype Step =
    | Tick(elapsed: nat)
    | Enter(id: nat, call: Call)
    | Background(id: nat, choice: Choice)
    | Main(choice: Choice)
    | Take(item: Item)
    | Process
    | Expire
    | ExitTree
    | Replied(request: nat, reply: Reply)

  function Top(p: Pump): Option<Frame> {
    if p.stack == [] then None else Some(p.stack[|p.stack| - 1])
  }

  /** The main thread runs foreign code: between frames of the engine, or in a callback. */
  predicate InCallback(p: Pump) {
    match Top(p)
    case None => true
    case Some(PumpFrame(point)) => point == InExecute || point == InSignal || point == InInspect || point == InHaltSignal
    case Some(CallFrame(id)) => id in p.calls && (p.calls[id].at.Rechecking? || p.calls[id].at.Running?)
  }

  /** A context completes without a world write only with an outcome other than success. */
  predicate MayEnter(p: Pump, id: nat, call: Call) {
    && id !in p.calls && call.context in p.contexts && call.at == Entered
    && (call.completion.Some? ==> call.completion.value.outcome != Succeeded)
    && (call.main ==> InCallback(p))
  }

  function EpochOfRequest(r: Request): nat {
    match r
    case SendReceipt(a, _) => a.epoch
    case SendReconcile(e, _, _) => e
  }

  /** A delivery that the runtime accepts but leaves unresolved counts as failed. */
  predicate Unsettled(r: Request) {
    match r
    case SendReceipt(a, _) => a.completion.outcome == Unknown
    case SendReconcile(_, _, resolution) => resolution == Unresolved
  }

  function EventOfReply(r: Request, reply: Reply): PumpEvent {
    var e := EpochOfRequest(r);
    match reply
    case Accepted => if Unsettled(r) then DeliveryFailed(e) else DeliverySucceeded(e)
    case Conflicts(d) => if d.operationId == r.delivery.operationId then DeliveryConflict(e, d) else DeliveryFailed(e)
    case Settled => DeliverySucceeded(e)
    case Fails => DeliveryFailed(e)
  }

  predicate NoInspectionPending(stack: seq<Frame>) {
    forall f :: f in stack ==> f.CallFrame? || f.point == InExecute
  }

  /** One step; a step that is not possible changes nothing. */
  function Next(p: Pump, step: Step): Pump {
    match step
    case Tick(elapsed) => p.(now := p.now + elapsed)
    case Enter(id, call) =>
      if !MayEnter(p, id, call) then p
      else p.(calls := p.calls[id := call], stack := if call.main then p.stack + [CallFrame(id)] else p.stack)
    case Background(id, choice) =>
      if id in p.calls && !p.calls[id].main && p.calls[id].context in p.contexts then StepCall(p, id, choice) else p
    case Main(choice) =>
      (match Top(p)
       case None => p
       case Some(PumpFrame(point)) => StepPump(p, point, choice)
       case Some(CallFrame(id)) => if id in p.calls && p.calls[id].main && p.calls[id].context in p.contexts then StepCall(p, id, choice) else p)
    case Take(item) => if p.stack == [] && p.state == Idle then TakeItem(p, item) else p
    case Process =>
      if p.stack == [] && p.events != [] then ProcessEvent(p.(events := p.events[1..]), p.events[0]) else p
    case Expire => if p.stack == [] && p.state == Executing && ExpiredAt(p, p.now) then BeginInspection(p) else p
    case ExitTree =>
      if InCallback(p) && NoInspectionPending(p.stack) then CancelExecution(p).(state := Stopped) else p
    case Replied(i, reply) =>
      if i < |p.requests| && i !in p.answered then
        p.(answered := p.answered + {i}, events := p.events + [EventOfReply(p.requests[i], reply)])
      else p
  }

  function Run(p: Pump, steps: seq<Step>): Pump {
    if steps == [] then p else Next(Run(p, steps[..|steps| - 1]), steps[|steps| - 1])
  }
}
