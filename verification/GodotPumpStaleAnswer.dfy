/** A background completion that answers for the next epoch: when it happens, and a run that ends with a rejection of a
    delivery whose transaction had begun. */
module GodotPumpStaleAnswer {
  import opened Wrappers
  import opened GodotPump
  import opened GodotPumpInvariant
  import opened GodotPumpSteps
  import opened GodotPumpRuns
  import opened GodotPumpAttribution

  lemma {:induction false} RunConcat(p: Pump, first: seq<Step>, second: seq<Step>)
    ensures Run(p, first + second) == Run(Run(p, first), second)
  {
    hide Next;
    if second == [] {
      assert first + second == first;
    } else {
      var n := |second| - 1;
      RunConcat(p, first, second[..n]);
      assert (first + second)[..|first + second| - 1] == first + second[..n];
    }
  }

  lemma RunPush(p: Pump, steps: seq<Step>, a: Step)
    ensures Run(p, steps + [a]) == Next(Run(p, steps), a)
  {
    hide Next;
    assert (steps + [a])[..|steps|] == steps;
  }

  lemma RunTwo(p: Pump, a: Step, b: Step)
    ensures Run(p, [a]) == Next(p, a) && Run(p, [a, b]) == Next(Next(p, a), b)
  {
    hide Next;
    RunPush(p, [], a);
    RunPush(p, [a], b);
    assert [] + [a] == [a] && [a] + [b] == [a, b];
  }

  lemma RunThree(p: Pump, a: Step, b: Step, c: Step)
    ensures Run(p, [a, b, c]) == Next(Next(Next(p, a), b), c)
  {
    hide Next;
    RunTwo(p, a, b);
    assert [a, b, c][..2] == [a, b];
  }

  // ---------------------------------------------------------------- which code a step runs

  lemma MainPump(p: Pump, point: PumpPoint, choice: Choice)
    requires p.stack == [PumpFrame(point)]
    ensures Next(p, Main(choice)) == StepPump(p, point, choice)
  {
    hide StepPump;
  }

  lemma MainCall(p: Pump, id: nat, choice: Choice)
    requires Top(p) == Some(CallFrame(id)) && id in p.calls && p.calls[id].main && p.calls[id].context in p.contexts
    ensures Next(p, Main(choice)) == StepCall(p, id, choice)
  {
    hide StepCall;
  }

  lemma BackgroundCall(p: Pump, id: nat)
    requires id in p.calls && !p.calls[id].main && p.calls[id].context in p.contexts
    ensures Next(p, Arrive(id)) == StepCall(p, id, Returns)
  {
    hide StepCall;
  }

  lemma Processes(p: Pump)
    requires p.stack == [] && p.events != []
    ensures Next(p, Process) == ProcessEvent(p.(events := p.events[1..]), p.events[0])
  {
    hide ProcessEvent;
  }

  lemma Takes(p: Pump, item: Item)
    requires p.stack == [] && p.state == Idle
    ensures Next(p, Take(item)) == TakeItem(p, item)
  {
    hide TakeItem;
  }

  lemma Expires(p: Pump)
    requires p.stack == [] && p.state == Executing && ExpiredAt(p, p.now)
    ensures Next(p, Expire) == BeginInspection(p)
  {
    hide BeginInspection;
  }

  lemma Enters(p: Pump, id: nat, call: Call)
    requires MayEnter(p, id, call)
    ensures Next(p, Enter(id, call)) == p.(calls := p.calls[id := call], stack := if call.main then p.stack + [CallFrame(id)] else p.stack)
  {
    hide MayEnter;
  }

  // ---------------------------------------------------------------- a call that reaches the node

  /** A background completion that has claimed its context but not yet read the active epoch, and a channel that
      executes an unexpired delivery. */
  ghost predicate Waiting(p: Pump, id: nat) {
    && id in p.calls && !p.calls[id].main && p.calls[id].completion.Some? && p.calls[id].at == Claimed
    && p.calls[id].context in p.contexts
    && p.state == Executing && p.stack == [] && p.events == [] && p.active.Some? && !ExpiredAt(p, p.now)
  }

  function Arrive(id: nat): Step {
    Background(id, Returns)
  }

  lemma ReadsAndChecks(p: Pump, id: nat)
    requires Waiting(p, id)
    ensures Run(p, [Arrive(id), Arrive(id), Arrive(id)]) == Move(p, id, Timed(p.activeEpoch, p.now))
  {
    RunThree(p, Arrive(id), Arrive(id), Arrive(id));
    hide Run, Next;
    var p1 := Move(p, id, Called(p.activeEpoch));
    BackgroundCall(p, id);
    BackgroundCall(p1, id);
    var p2 := Move(p, id, Snapped(p.activeEpoch));
    BackgroundCall(p2, id);
    assert Next(p1, Arrive(id)) == p2 by { MoveTwice(p, id, Called(p.activeEpoch), Snapped(p.activeEpoch)); }
    MoveTwice(p, id, Snapped(p.activeEpoch), Timed(p.activeEpoch, p.now));
  }

  lemma MoveTwice(p: Pump, id: nat, a: Point, b: Point)
    requires id in p.calls
    ensures Move(Move(p, id, a), id, b) == Move(p, id, b)
  {
    assert Move(Move(p, id, a), id, b).calls == Move(p, id, b).calls;
  }

  function LateAnswer(p: Pump, id: nat): Answer
    requires id in p.calls && p.calls[id].completion.Some?
  {
    Answer(p.activeEpoch, p.calls[id].completion.value, p.calls[id].context, false)
  }

  lemma IsAccepted(p: Pump, id: nat)
    requires Waiting(p, id)
    ensures Run(Move(p, id, Timed(p.activeEpoch, p.now)), [Arrive(id), Arrive(id), Arrive(id)])
            == p.(state := CompletionQueued, calls := p.calls - {id}, events := [ExecutionCompleted(LateAnswer(p, id))])
  {
    var q := Move(p, id, Timed(p.activeEpoch, p.now));
    RunThree(q, Arrive(id), Arrive(id), Arrive(id));
    hide Run, Next;
    BackgroundCall(q, id);
    var q1 := Move(p, id, Accepting(p.activeEpoch));
    BackgroundCall(q1, id);
    assert Next(q, Arrive(id)) == q1 by { MoveTwice(p, id, Timed(p.activeEpoch, p.now), Accepting(p.activeEpoch)); }
    var at := Enqueueing(ExecutionCompleted(LateAnswer(p, id)));
    var q2 := Move(p, id, at).(state := CompletionQueued);
    BackgroundCall(q2, id);
    assert Next(q1, Arrive(id)) == q2 by { MoveTwice(p, id, Accepting(p.activeEpoch), at); }
    assert q2.calls - {id} == p.calls - {id};
    assert [] + [ExecutionCompleted(LateAnswer(p, id))] == [ExecutionCompleted(LateAnswer(p, id))];
  }

  function LateSteps(id: nat): seq<Step> {
    [Arrive(id), Arrive(id), Arrive(id)] + [Arrive(id), Arrive(id), Arrive(id)] + [Process]
  }

  /** When such a call goes on undisturbed, its completion is sent as the receipt of the active epoch's delivery, so it
      answers for its own delivery exactly when its epoch is still the active one. */
  lemma AnswersActiveEpoch(p: Pump, id: nat)
    requires Waiting(p, id)
    ensures Run(p, LateSteps(id)).requests == p.requests + [SendReceipt(LateAnswer(p, id), p.active.value)]
    ensures OwnAnswer(LateAnswer(p, id)) <==> p.calls[id].context == p.activeEpoch
  {
    hide Next, Inv;
    var three := [Arrive(id), Arrive(id), Arrive(id)];
    ReadsAndChecks(p, id);
    IsAccepted(p, id);
    RunConcat(p, three, three);
    RunConcat(p, three + three, [Process]);
    var q := p.(state := CompletionQueued, calls := p.calls - {id}, events := [ExecutionCompleted(LateAnswer(p, id))]);
    assert Run(q, [Process]) == Next(q, Process) by { assert [Process][..0] == []; }
    ReceiptOf(q, LateAnswer(p, id));
  }

  lemma ReceiptOf(q: Pump, a: Answer)
    requires q.state == CompletionQueued && q.stack == [] && q.events == [ExecutionCompleted(a)] && a.epoch == q.activeEpoch
    requires q.active.Some?
    ensures Next(q, Process).requests == q.requests + [SendReceipt(a, q.active.value)]
  {
    hide CancelExecution, CloseActive;
  }

  // ---------------------------------------------------------------- a run that ends with one

  function Fresh(p: Pump, d: Delivery): Context {
    Context(d, p.now + p.limit, false, false, 0, 0, false, None, false, 0)
  }

  /** The pump once it has taken a delivery and called the adapter. */
  function Dispatched(p: Pump, d: Delivery): Pump {
    p.(active := Some(d), lastFence := None, activeEpoch := p.activeEpoch + 1, startedAt := p.now, duration := p.limit,
       state := Executing, cancellation := Some(p.activeEpoch + 1), stack := [PumpFrame(InExecute)],
       contexts := p.contexts[p.activeEpoch + 1 := Fresh(p, d)])
  }

  function DispatchSteps(d: Delivery, limit: int): seq<Step> {
    [Take(Valid(d)), Main(Returns), Main(Remaining(limit))] + [Main(Returns)]
  }

  /** The pump once it has taken a delivery. */
  function Taken(p: Pump, d: Delivery): Pump {
    p.(active := Some(d), lastFence := None, activeEpoch := p.activeEpoch + 1, stack := [PumpFrame(Starting)])
  }

  lemma TakesDelivery(p: Pump, d: Delivery)
    requires p.stack == [] && p.state == Idle && d.kind == Dispatch
    ensures Next(p, Take(Valid(d))) == Taken(p, d)
  {
    hide Next, BeginInspection, CancelExecution, StepPump, StepCall;
    Takes(p, Valid(d));
  }

  lemma ReadsClock(q: Pump)
    requires q.stack == [PumpFrame(Starting)]
    ensures Next(q, Main(Returns)) == q.(startedAt := q.now, stack := [PumpFrame(Clocked)])
  {
    hide Next, BeginInspection, CancelExecution;
    MainPump(q, Starting, Returns);
  }

  lemma BoundsDuration(q: Pump)
    requires q.stack == [PumpFrame(Clocked)] && q.limit > 0
    ensures Next(q, Main(Remaining(q.limit))) == q.(duration := q.limit, stack := [PumpFrame(Bounded)])
  {
    hide Next, BeginInspection, CancelExecution;
    MainPump(q, Clocked, Remaining(q.limit));
  }

  lemma CallsAdapter(q: Pump, d: Delivery)
    requires q.stack == [PumpFrame(Bounded)] && q.active == Some(d)
    ensures Next(q, Main(Returns))
            == q.(state := Executing, cancellation := Some(q.activeEpoch), stack := [PumpFrame(InExecute)],
                  contexts := q.contexts[q.activeEpoch := Context(d, q.startedAt + q.duration, false, false, 0, 0, false, None, false, 0)])
  {
    hide Next, BeginInspection, CancelExecution;
    MainPump(q, Bounded, Returns);
  }

  lemma Dispatches(p: Pump, d: Delivery)
    requires p.stack == [] && p.state == Idle && d.kind == Dispatch && p.limit > 0
    ensures Run(p, DispatchSteps(d, p.limit)) == Dispatched(p, d)
  {
    RunThree(p, Take(Valid(d)), Main(Returns), Main(Remaining(p.limit)));
    RunPush(p, [Take(Valid(d)), Main(Returns), Main(Remaining(p.limit))], Main(Returns));
    hide Run, Next;
    TakesDelivery(p, d);
    var q := Taken(p, d);
    ReadsClock(q);
    var q1 := q.(startedAt := p.now, stack := [PumpFrame(Clocked)]);
    BoundsDuration(q1);
    CallsAdapter(q1.(duration := p.limit, stack := [PumpFrame(Bounded)]), d);
  }

  function ClaimedBy(p: Pump, id: nat, call: Call): Pump
    requires call.context in p.contexts
  {
    p.(calls := p.calls[id := call.(at := Claimed)],
       contexts := p.contexts[call.context := p.contexts[call.context].(completed := true, owner := id, noWrite := call.completion.Some?)])
  }

  /** A call that has just entered claims its context in two steps. */
  lemma ClaimsContext(p: Pump, id: nat, call: Call)
    requires id in p.calls && p.calls[id] == call && call.at == Entered && call.context in p.contexts
    requires !p.contexts[call.context].cancelled && !p.contexts[call.context].completed
    ensures var m := Move(p, id, TokenChecked);
      StepCall(p, id, Returns) == m && StepCall(m, id, Returns) == ClaimedBy(p, id, call)
  {
    hide StepCommit, StepComplete;
    MoveTwice(p, id, TokenChecked, Claimed);
  }

  /** A background completion gets as far as claiming its context. */
  lemma ClaimsInBackground(p: Pump, id: nat, call: Call)
    requires MayEnter(p, id, call) && !call.main
    requires !p.contexts[call.context].cancelled && !p.contexts[call.context].completed
    ensures Run(p, [Enter(id, call), Arrive(id), Arrive(id)]) == ClaimedBy(p, id, call)
  {
    RunThree(p, Enter(id, call), Arrive(id), Arrive(id));
    hide Run, Next, StepCall;
    Enters(p, id, call);
    var q := p.(calls := p.calls[id := call]);
    BackgroundCall(q, id);
    ClaimsContext(q, id, call);
    BackgroundCall(Move(q, id, TokenChecked), id);
    assert q.calls[id := call.(at := Claimed)] == p.calls[id := call.(at := Claimed)];
  }

  /** The pump once the adapter has returned and the deadline has passed. */
  function Late(p: Pump): Pump {
    p.(stack := []).(now := p.now + p.limit)
  }

  /** The pump once an inspection has begun then. */
  function Overdue(p: Pump): Pump
    requires p.activeEpoch in p.contexts
  {
    InspectionBegun(Late(p))
  }

  function InspectionBegun(q: Pump): Pump
    requires q.activeEpoch in q.contexts
  {
    q.(state := Inspecting, cancellation := None, stack := [PumpFrame(InInspect)],
       contexts := q.contexts[q.activeEpoch := q.contexts[q.activeEpoch].(closed := true, cancelled := true)])
  }

  lemma BeginsInspection(q: Pump)
    requires q.stack == [] && q.activeEpoch in q.contexts && q.cancellation == Some(q.activeEpoch)
    ensures BeginInspection(q) == InspectionBegun(q)
  {
    var x := q.contexts[q.activeEpoch];
    assert q.contexts[q.activeEpoch := x.(closed := true)][q.activeEpoch := x.(closed := true, cancelled := true)]
           == q.contexts[q.activeEpoch := x.(closed := true, cancelled := true)];
  }

  lemma Ticks(q: Pump, elapsed: nat)
    ensures Next(q, Tick(elapsed)) == q.(now := q.now + elapsed)
  {}

  lemma AdapterReturns(q: Pump)
    requires q.stack == [PumpFrame(InExecute)]
    ensures Next(q, Main(Returns)) == q.(stack := [])
  {
    hide Next, BeginInspection, CancelExecution;
    MainPump(q, InExecute, Returns);
  }

  lemma GoesOverdue(p: Pump)
    requires p.stack == [PumpFrame(InExecute)] && p.state == Executing && p.activeEpoch in p.contexts && p.limit >= 0
    requires p.cancellation == Some(p.activeEpoch) && p.startedAt == p.now && p.duration == p.limit
    ensures Run(p, [Main(Returns), Tick(p.limit), Expire]) == Overdue(p)
  {
    RunThree(p, Main(Returns), Tick(p.limit), Expire);
    hide Run, Next, BeginInspection, InspectionBegun;
    AdapterReturns(p);
    Ticks(p.(stack := []), p.limit);
    Expires(Late(p));
    BeginsInspection(Late(p));
  }

  /** The pump once that inspection's result was accepted. */
  function Reconciled(q: Pump, d: Delivery): Pump {
    q.(state := Idle, active := None, lastFence := None, stack := [], answered := {0},
       requests := [SendReconcile(q.activeEpoch, d, NotApplied)])
  }

  lemma Inspected(q: Pump, d: Delivery)
    requires q.stack == [PumpFrame(InInspect)] && q.active == Some(d) && q.requests == []
    ensures Next(q, Main(Inspects(NotApplied)))
            == q.(state := GodotPump.Reconciling, stack := [], requests := [SendReconcile(q.activeEpoch, d, NotApplied)])
  {
    hide Next;
    MainPump(q, InInspect, Inspects(NotApplied));
    assert [] + [SendReconcile(q.activeEpoch, d, NotApplied)] == [SendReconcile(q.activeEpoch, d, NotApplied)];
  }

  lemma ReplyArrives(q: Pump, d: Delivery)
    requires q.requests == [SendReconcile(q.activeEpoch, d, NotApplied)] && q.events == [] && q.answered == {}
    ensures Next(q, Replied(0, Accepted)) == q.(answered := {0}, events := [DeliverySucceeded(q.activeEpoch)])
  {
    assert {} + {0} == {0};
    assert [] + [DeliverySucceeded(q.activeEpoch)] == [DeliverySucceeded(q.activeEpoch)];
  }

  lemma GoesIdle(q: Pump)
    requires q.state == GodotPump.Reconciling && q.stack == [] && q.events == [DeliverySucceeded(q.activeEpoch)] && q.cancellation.None?
    ensures Next(q, Process) == q.(state := Idle, active := None, lastFence := None, events := [])
  {
    hide Next;
    Processes(q);
    assert q.events[1..] == [];
  }

  lemma Reconciles(q: Pump, d: Delivery)
    requires q.state == Inspecting && q.stack == [PumpFrame(InInspect)] && q.active == Some(d) && q.cancellation.None?
    requires q.requests == [] && q.events == [] && q.answered == {}
    ensures Run(q, [Main(Inspects(NotApplied)), Replied(0, Accepted), Process]) == Reconciled(q, d)
  {
    RunThree(q, Main(Inspects(NotApplied)), Replied(0, Accepted), Process);
    hide Run, Next;
    Inspected(q, d);
    var q1 := q.(state := GodotPump.Reconciling, stack := [], requests := [SendReconcile(q.activeEpoch, d, NotApplied)]);
    ReplyArrives(q1, d);
    GoesIdle(q1.(answered := {0}, events := [DeliverySucceeded(q.activeEpoch)]));
  }

  // ---------------------------------------------------------------- a transaction that throws

  function InTransaction(p: Pump, id: nat, at: Point): Pump {
    p.(stack := [PumpFrame(InExecute), CallFrame(id)], calls := p.calls[id := Call(p.activeEpoch, true, None, at)])
  }

  ghost predicate CanThrow(p: Pump, id: nat) {
    && p.stack == [PumpFrame(InExecute)] && p.state == Executing && p.activeEpoch in p.contexts && id !in p.calls
    && p.contexts[p.activeEpoch].starts == 0 && !p.contexts[p.activeEpoch].completed && !p.contexts[p.activeEpoch].cancelled
    && !ExpiredAt(p, p.now)
  }

  /** The context once the call has claimed it. */
  function Held(p: Pump, id: nat): Pump
    requires p.activeEpoch in p.contexts
  {
    p.(contexts := p.contexts[p.activeEpoch := p.contexts[p.activeEpoch].(completed := true, owner := id, noWrite := false)])
  }

  lemma MovesInTransaction(p: Pump, id: nat, a: Point, b: Point)
    ensures Move(InTransaction(p, id, a), id, b) == InTransaction(p, id, b)
    ensures Top(InTransaction(p, id, a)) == Some(CallFrame(id))
    ensures id !in p.calls && p.stack == [PumpFrame(InExecute)] ==> Finish(InTransaction(p, id, a), id) == p
  {
    assert Move(InTransaction(p, id, a), id, b).calls == InTransaction(p, id, b).calls;
    if id !in p.calls { assert InTransaction(p, id, a).calls - {id} == p.calls; }
  }

  lemma ThrowClaims(p: Pump, id: nat)
    requires CanThrow(p, id)
    ensures Run(p, [Enter(id, Call(p.activeEpoch, true, None, Entered)), Main(Returns), Main(Returns)])
            == InTransaction(Held(p, id), id, Claimed)
  {
    var call := Call(p.activeEpoch, true, None, Entered);
    RunThree(p, Enter(id, call), Main(Returns), Main(Returns));
    hide Run, Next, StepCall;
    Enters(p, id, call);
    var q := InTransaction(p, id, Entered);
    assert p.stack + [CallFrame(id)] == q.stack;
    MovesInTransaction(p, id, Entered, TokenChecked);
    MainCall(q, id, Returns);
    ClaimsContext(q, id, call);
    MovesInTransaction(p, id, TokenChecked, Claimed);
    MainCall(InTransaction(p, id, TokenChecked), id, Returns);
    assert q.calls[id := call.(at := Claimed)] == InTransaction(p, id, Claimed).calls;
  }

  lemma ThrowChecks(p: Pump, id: nat)
    requires p.activeEpoch in p.contexts && p.state == Executing && !ExpiredAt(p, p.now)
    ensures Run(InTransaction(p, id, Claimed), [Main(Returns), Main(Returns), Main(Rechecks(true))])
            == InTransaction(p, id, Rechecked(p.activeEpoch))
  {
    var q := InTransaction(p, id, Claimed);
    RunThree(q, Main(Returns), Main(Returns), Main(Rechecks(true)));
    hide Run, Next;
    var e := p.activeEpoch;
    MovesInTransaction(p, id, Claimed, Called(e));
    MainCall(q, id, Returns);
    MovesInTransaction(p, id, Called(e), Rechecking(e));
    MainCall(InTransaction(p, id, Called(e)), id, Returns);
    MovesInTransaction(p, id, Rechecking(e), Rechecked(e));
    MainCall(InTransaction(p, id, Rechecking(e)), id, Rechecks(true));
  }

  /** The state while the transaction runs. */
  function WithBegun(p: Pump): Pump
    requires p.activeEpoch in p.contexts
  {
    var x := p.contexts[p.activeEpoch];
    p.(state := Committing, begun := p.begun + [Begun(p.activeEpoch, p.activeEpoch, p.now)],
       contexts := p.contexts[p.activeEpoch := x.(starts := x.starts + 1)])
  }

  lemma ThrowRuns(p: Pump, id: nat)
    requires p.activeEpoch in p.contexts && p.state == Executing && !ExpiredAt(p, p.now) && id !in p.calls
    requires p.stack == [PumpFrame(InExecute)]
    ensures Run(InTransaction(p, id, Rechecked(p.activeEpoch)), [Main(Returns), Main(Returns), Main(Throws)])
            == WithBegun(p).(state := Executing)
  {
    var e := p.activeEpoch;
    var q := InTransaction(p, id, Rechecked(e));
    RunThree(q, Main(Returns), Main(Returns), Main(Throws));
    hide Run, Next;
    MovesInTransaction(p, id, Rechecked(e), Ready(e, p.now));
    MainCall(q, id, Returns);
    MovesInTransaction(p, id, Ready(e, p.now), Running(e));
    MainCall(InTransaction(p, id, Ready(e, p.now)), id, Returns);
    MovesInTransaction(WithBegun(p), id, Running(e), Refused);
    MainCall(InTransaction(WithBegun(p), id, Running(e)), id, Throws);
  }

  // ---------------------------------------------------------------- the whole run

  const FIRST := Delivery(Dispatch, "first", "claim-1", 1)
  const SECOND := Delivery(Dispatch, "second", "claim-2", 1)
  const REFUSAL := Completion(Rejected, "not possible")
  const LATE := Call(1, false, Some(REFUSAL), Entered)

  /** The first delivery's background completion stalls behind its claim; the delivery expires and is reconciled. */
  function StalledSteps(): seq<Step> {
    DispatchSteps(FIRST, 10) + [Enter(0, LATE), Arrive(0), Arrive(0)] + [Main(Returns), Tick(10), Expire]
    + [Main(Inspects(NotApplied)), Replied(0, Accepted), Process]
  }

  /** The second delivery's transaction begins and throws, and the adapter swallows the exception. */
  function ThrownSteps(): seq<Step> {
    DispatchSteps(SECOND, 10)
    + ([Enter(1, Call(2, true, None, Entered)), Main(Returns), Main(Returns)]
       + [Main(Returns), Main(Returns), Main(Rechecks(true))] + [Main(Returns), Main(Returns), Main(Throws)])
    + [Main(Returns)]
  }

  /** Where the first delivery ends. */
  function Stalled(): Pump {
    Reconciled(Overdue(ClaimedBy(Dispatched(Initial(10, 0), FIRST), 0, LATE)), FIRST)
  }

  lemma Stalls()
    ensures Run(Initial(10, 0), StalledSteps()) == Stalled()
  {
    hide Run, Next;
    var p := Initial(10, 0);
    Dispatches(p, FIRST);
    var p1 := Dispatched(p, FIRST);
    ClaimsInBackground(p1, 0, LATE);
    var p2 := ClaimedBy(p1, 0, LATE);
    GoesOverdue(p2);
    Reconciles(Overdue(p2), FIRST);
    RunConcat(p, DispatchSteps(FIRST, 10), [Enter(0, LATE), Arrive(0), Arrive(0)]);
    RunConcat(p, DispatchSteps(FIRST, 10) + [Enter(0, LATE), Arrive(0), Arrive(0)], [Main(Returns), Tick(10), Expire]);
    RunConcat(p, DispatchSteps(FIRST, 10) + [Enter(0, LATE), Arrive(0), Arrive(0)] + [Main(Returns), Tick(10), Expire],
              [Main(Inspects(NotApplied)), Replied(0, Accepted), Process]);
  }

  function ThrownFrom(p: Pump): Pump {
    var q := Dispatched(p, SECOND);
    WithBegun(Held(q, 1)).(state := Executing, stack := [])
  }

  /** The transaction's steps between the adapter's call and its return. */
  lemma ThrowsInside(q: Pump)
    requires CanThrow(q, 1) && q.activeEpoch == 2
    ensures Run(q, [Enter(1, Call(2, true, None, Entered)), Main(Returns), Main(Returns)]
                   + [Main(Returns), Main(Returns), Main(Rechecks(true))] + [Main(Returns), Main(Returns), Main(Throws)])
            == WithBegun(Held(q, 1)).(state := Executing)
  {
    hide Run, Next, InTransaction;
    var enter := [Enter(1, Call(2, true, None, Entered)), Main(Returns), Main(Returns)];
    var check := [Main(Returns), Main(Returns), Main(Rechecks(true))];
    ThrowClaims(q, 1);
    ThrowChecks(Held(q, 1), 1);
    ThrowRuns(Held(q, 1), 1);
    RunConcat(q, enter, check);
    RunConcat(q, enter + check, [Main(Returns), Main(Returns), Main(Throws)]);
  }

  lemma DispatchedCanThrow(p: Pump)
    requires p.limit == 10 && p.activeEpoch == 1 && 1 !in p.calls
    ensures CanThrow(Dispatched(p, SECOND), 1) && Dispatched(p, SECOND).activeEpoch == 2
  {}

  lemma ThrownStack(p: Pump)
    ensures WithBegun(Held(Dispatched(p, SECOND), 1)).stack == [PumpFrame(InExecute)]
  {}

  lemma TransactionThrows(p: Pump)
    requires p.stack == [] && p.state == Idle && p.limit == 10 && p.activeEpoch == 1 && 1 !in p.calls
    ensures Run(p, ThrownSteps()) == ThrownFrom(p)
  {
    hide Run, Next, Dispatched, DispatchSteps, WithBegun, CanThrow;
    Dispatches(p, SECOND);
    var q := Dispatched(p, SECOND);
    DispatchedCanThrow(p);
    ThrowsInside(q);
    var inside := [Enter(1, Call(2, true, None, Entered)), Main(Returns), Main(Returns)]
      + [Main(Returns), Main(Returns), Main(Rechecks(true))] + [Main(Returns), Main(Returns), Main(Throws)];
    RunConcat(p, DispatchSteps(SECOND, 10), inside);
    RunPush(p, DispatchSteps(SECOND, 10) + inside, Main(Returns));
    ThrownStack(p);
    AdapterReturns(WithBegun(Held(q, 1)).(state := Executing));
  }

  /** A reachable run whose last request rejects the second delivery with the first delivery's completion, although the
      second delivery's transaction had begun. */
  lemma RejectsBegunDelivery()
    ensures var p := Run(Initial(10, 0), StalledSteps() + ThrownSteps() + LateSteps(0));
      && |p.requests| == 2
      && p.requests[1] == SendReceipt(Answer(2, REFUSAL, 1, false), SECOND)
    ensures var p := Run(Initial(10, 0), StalledSteps() + ThrownSteps());
      p.begun == [Begun(2, 2, 10)]
  {
    hide Run, Next;
    Stalls();
    TransactionThrows(Stalled());
    RunConcat(Initial(10, 0), StalledSteps(), ThrownSteps());
    RunConcat(Initial(10, 0), StalledSteps() + ThrownSteps(), LateSteps(0));
    ThrownWaits();
    AnswersActiveEpoch(ThrownFrom(Stalled()), 0);
  }

  lemma ThrownWaits()
    ensures var p := ThrownFrom(Stalled());
      && Waiting(p, 0) && LateAnswer(p, 0) == Answer(2, REFUSAL, 1, false) && p.active == Some(SECOND)
      && |p.requests| == 1 && p.begun == [Begun(2, 2, 10)]
  {}
}
