/** A channel that waits for a queued completion: exactly when it can go on, and a run after which it never does. */
module GodotPumpStranded {
  import opened Wrappers
  import opened GodotPump
  import opened GodotPumpInvariant
  import opened GodotPumpSteps
  import opened GodotPumpRuns
  import opened GodotPumpAttribution
  import opened GodotPumpStaleAnswer

  /** The event is a completion for the active epoch. */
  predicate Concludes(p: Pump, event: PumpEvent) {
    event.ExecutionCompleted? && event.answer.epoch == p.activeEpoch
  }

  ghost predicate Queued(p: Pump) {
    exists i :: 0 <= i < |p.events| && Concludes(p, p.events[i])
  }

  predicate AboutToQueue(p: Pump, id: nat) {
    id in p.calls && p.calls[id].at.Enqueueing? && Concludes(p, p.calls[id].at.event)
  }

  /** A completion for the active epoch is queued or about to be. */
  ghost predicate Awaited(p: Pump) {
    Queued(p) || exists id :: AboutToQueue(p, id)
  }

  /** The channel waits for a completion that nobody is going to hand it. */
  ghost predicate Stranded(p: Pump) {
    p.state == CompletionQueued && NoInspectionPending(p.stack) && !Awaited(p)
  }

  predicate NoExit(steps: seq<Step>) {
    forall n :: 0 <= n < |steps| ==> !steps[n].ExitTree?
  }

  // ---------------------------------------------------------------- stranded for good

  lemma StrandedCall(p: Pump, id: nat, choice: Choice)
    requires Inv(p) && CanStep(p, id) && Stranded(p)
    ensures Stranded(StepCall(p, id, choice)) && StepCall(p, id, choice).requests == p.requests
  {
    CallHasShape(p, id, choice);
    WaitingCall(p, id, choice);
    assert !AboutToQueue(p, id);
    var q := StepCall(p, id, choice);
    hide Inv, StepCall;
    forall other ensures !AboutToQueue(q, other) {
      if other in q.calls && other != id { assert q.calls[other] == p.calls[other] && !AboutToQueue(p, other); }
    }
    assert forall i :: 0 <= i < |p.events| ==> !Concludes(p, p.events[i]);
  }

  /** While the channel waits, a call changes neither its state nor its epoch, and decides on no event. */
  ghost predicate Waits(p: Pump, q: Pump, id: nat) {
    && q.state == p.state && q.activeEpoch == p.activeEpoch && (id in q.calls ==> !q.calls[id].at.Enqueueing?)
    && (q.stack == p.stack || q.stack == Pop(p).stack)
  }

  lemma WaitingCall(p: Pump, id: nat, choice: Choice)
    requires CanStep(p, id) && p.state == CompletionQueued
    ensures var q := StepCall(p, id, choice);
      && q.state == p.state && q.activeEpoch == p.activeEpoch && (id in q.calls ==> !q.calls[id].at.Enqueueing?)
      && (NoInspectionPending(p.stack) ==> NoInspectionPending(q.stack))
  {
    hide NoInspectionPending, StepCommit, StepComplete, Pop;
    if NoInspectionPending(p.stack) { PoppedPlain(p); }
    var c := p.calls[id];
    FinishWaits(p, id);
    if !(c.at.Entered? || c.at.TokenChecked? || c.at.Claimed? || c.at.Enqueueing?) {
      if c.completion.Some? { WaitingCompletion(p, id, choice); } else { WaitingCommit(p, id, choice); }
    }
  }

  lemma FinishWaits(p: Pump, id: nat)
    requires id in p.calls
    ensures Waits(p, Finish(p, id), id)
  {}

  lemma WaitingCommit(p: Pump, id: nat, choice: Choice)
    requires CanStep(p, id) && p.state == CompletionQueued && !p.calls[id].at.Enqueueing?
    ensures Waits(p, StepCommit(p, id, choice), id)
  {
    hide ExpiredAt;
  }

  lemma WaitingCompletion(p: Pump, id: nat, choice: Choice)
    requires CanStep(p, id) && p.state == CompletionQueued && p.calls[id].completion.Some? && !p.calls[id].at.Enqueueing?
    ensures Waits(p, StepComplete(p, id, choice), id)
  {
    hide ExpiredAt;
  }

  lemma PoppedPlain(p: Pump)
    requires NoInspectionPending(p.stack)
    ensures NoInspectionPending(Pop(p).stack)
  {}

  lemma StrandedStays(p: Pump, step: Step)
    requires Inv(p) && Stranded(p) && !step.ExitTree?
    ensures Stranded(Next(p, step)) && Next(p, step).requests == p.requests
  {
    hide Inv, StepCall, BeginInspection, CancelExecution, CloseActive, Concludes, Awaited, NoInspectionPending;
    match step
    case Background(id, choice) => if Mover(p, step).Some? { StrandedCall(p, id, choice); }
    case Main(choice) =>
      if Top(p).Some? {
        if Top(p).value.PumpFrame? {
          OnlyAdapterFrame(p, Top(p).value.point);
          PoppedPlain(p);
          SameAwaited(p, Pop(p));
        } else if Mover(p, step).Some? {
          StrandedCall(p, Top(p).value.id, choice);
        }
      }
    case Enter(id, call) => if MayEnter(p, id, call) { EnteredStranded(p, id, call); }
    case Process => if p.stack == [] && p.events != [] { DroppedStranded(p); }
    case Replied(i, reply) => RepliedStranded(p, i, reply);
    case Tick(elapsed) => SameAwaited(p, p.(now := p.now + elapsed));
    case _ =>
  }

  lemma OnlyAdapterFrame(p: Pump, point: PumpPoint)
    requires NoInspectionPending(p.stack) && Top(p) == Some(PumpFrame(point))
    ensures point == InExecute
  {
    assert PumpFrame(point) in p.stack;
  }

  lemma SameAwaited(p: Pump, q: Pump)
    requires q.events == p.events && q.calls == p.calls && q.activeEpoch == p.activeEpoch
    ensures Awaited(q) <==> Awaited(p)
  {
    if Awaited(p) && !Queued(p) { var id :| AboutToQueue(p, id); assert AboutToQueue(q, id); }
    if Awaited(q) && !Queued(q) { var id :| AboutToQueue(q, id); assert AboutToQueue(p, id); }
    assert forall i :: 0 <= i < |p.events| ==> (Concludes(p, p.events[i]) <==> Concludes(q, q.events[i]));
  }

  lemma EnteredStranded(p: Pump, id: nat, call: Call)
    requires Stranded(p) && MayEnter(p, id, call)
    ensures Stranded(Next(p, Enter(id, call)))
  {
    hide MayEnter;
    var q := Next(p, Enter(id, call));
    assert call.at == Entered by { assert MayEnter(p, id, call); EntersAtStart(p, id, call); }
    forall other ensures !AboutToQueue(q, other) { assert !AboutToQueue(p, other); }
    assert forall i :: 0 <= i < |p.events| ==> !Concludes(p, p.events[i]);
  }

  lemma EntersAtStart(p: Pump, id: nat, call: Call)
    requires MayEnter(p, id, call)
    ensures call.at == Entered && id !in p.calls
  {}

  lemma DroppedStranded(p: Pump)
    requires Stranded(p) && p.stack == [] && p.events != []
    ensures Stranded(Next(p, Process)) && Next(p, Process).requests == p.requests
  {
    hide CancelExecution, BeginInspection;
    assert !Concludes(p, p.events[0]);
    var q := Next(p, Process);
    assert q == p.(events := p.events[1..]);
    forall other ensures !AboutToQueue(q, other) { assert !AboutToQueue(p, other); }
    assert forall i :: 0 <= i < |q.events| ==> q.events[i] == p.events[i + 1];
  }

  lemma RepliedStranded(p: Pump, i: nat, reply: Reply)
    requires Stranded(p)
    ensures Stranded(Next(p, Replied(i, reply)))
  {
    hide NoInspectionPending;
    var q := Next(p, Replied(i, reply));
    forall other ensures !AboutToQueue(q, other) { assert !AboutToQueue(p, other); }
    assert forall k :: 0 <= k < |p.events| ==> !Concludes(p, p.events[k]);
  }

  lemma {:induction false} StrandedForGood(p: Pump, steps: seq<Step>)
    requires Inv(p) && Stranded(p) && NoExit(steps)
    ensures Stranded(Run(p, steps)) && Run(p, steps).requests == p.requests
  {
    hide Next, Inv, Stranded;
    if steps != [] {
      var front := steps[..|steps| - 1];
      StrandedForGood(p, front);
      RunKeepsInv(p, front);
      StrandedStays(Run(p, front), steps[|steps| - 1]);
    }
  }

  // ---------------------------------------------------------------- a completion that is awaited gets processed

  /** The events up to a completion for the active epoch are processed one by one. */
  lemma {:induction false} ProcessesUpTo(p: Pump, i: nat) returns (steps: seq<Step>)
    requires Inv(p) && p.state == CompletionQueued && p.stack == [] && i < |p.events| && Concludes(p, p.events[i])
    ensures NoExit(steps) && Run(p, steps).state == DeliveringReceipt
    decreases i
  {
    var q := Next(p, Process);
    OneProcessed(p);
    if Concludes(p, p.events[0]) {
      steps := [Process];
      assert [Process][..0] == [] && Run(p, []) == p;
    } else {
      NextKeepsInv(p, Process);
      assert q.events[i - 1] == p.events[i];
      hide Next, Inv;
      var rest := ProcessesUpTo(q, i - 1);
      steps := [Process] + rest;
      RunConcat(p, [Process], rest);
      assert [Process][..0] == [] && Run(p, [Process]) == q;
    }
  }

  lemma OneProcessed(p: Pump)
    requires Inv(p) && p.state == CompletionQueued && p.stack == [] && p.events != []
    ensures var q := Next(p, Process);
      if Concludes(p, p.events[0]) then q.state == DeliveringReceipt
      else q == p.(events := p.events[1..])
  {
    hide ContextsOk, CallsOk, StackOk, LogsOk, CancelExecution, CloseActive, BeginInspection;
    assert p.active.Some?;
  }

  /** With the main thread between frames, a waiting channel can go on without the node leaving its tree exactly when a
      completion for the active epoch is queued or about to be. */
  lemma WaitingGoesOnExactly(p: Pump)
    requires Inv(p) && p.state == CompletionQueued && p.stack == []
    ensures (exists steps :: NoExit(steps) && Run(p, steps).state != CompletionQueued) <==> Awaited(p)
  {
    hide Inv, Next, Run;
    if Awaited(p) {
      var steps := GoesOn(p);
      assert NoExit(steps) && Run(p, steps).state != CompletionQueued;
    } else {
      forall steps | NoExit(steps) ensures Run(p, steps).state == CompletionQueued { StrandedForGood(p, steps); }
    }
  }

  lemma Enqueues(p: Pump, id: nat)
    requires Inv(p) && p.stack == [] && AboutToQueue(p, id)
    ensures Next(p, Arrive(id)) == Finish(p, id).(events := p.events + [p.calls[id].at.event]) && Finish(p, id).stack == p.stack
  {
    NoMainCall(p, id);
    Here(p, id);
    hide Inv, StepCommit, StepComplete, EventOk, HoldOk, CommitOk;
  }

  lemma GoesOn(p: Pump) returns (steps: seq<Step>)
    requires Inv(p) && p.state == CompletionQueued && p.stack == [] && Awaited(p)
    ensures NoExit(steps) && Run(p, steps).state == DeliveringReceipt
  {
    if Queued(p) {
      var i :| 0 <= i < |p.events| && Concludes(p, p.events[i]);
      steps := ProcessesUpTo(p, i);
    } else {
      var id :| AboutToQueue(p, id);
      steps := QueuesFirst(p, id);
    }
  }

  lemma QueuesFirst(p: Pump, id: nat) returns (steps: seq<Step>)
    requires Inv(p) && p.state == CompletionQueued && p.stack == [] && AboutToQueue(p, id)
    ensures NoExit(steps) && Run(p, steps).state == DeliveringReceipt
  {
    var q := Next(p, Arrive(id));
    Enqueues(p, id);
    NextKeepsInv(p, Arrive(id));
    hide Next, Inv;
    assert q.events[|p.events|] == p.calls[id].at.event;
    var rest := ProcessesUpTo(q, |p.events|);
    steps := [Arrive(id)] + rest;
    RunConcat(p, [Arrive(id)], rest);
    assert [Arrive(id)][..0] == [] && Run(p, []) == p && Run(p, [Arrive(id)]) == q;
  }

  // ---------------------------------------------------------------- a run that strands the channel

  lemma ReachesAcceptance(p: Pump, id: nat)
    requires id in p.calls && !p.calls[id].main && p.calls[id].completion.Some? && p.calls[id].at == Claimed
    requires p.calls[id].context in p.contexts && !ExpiredAt(p, p.now)
    ensures Run(p, [Arrive(id), Arrive(id), Arrive(id)] + [Arrive(id)]) == Move(p, id, Accepting(p.activeEpoch))
  {
    var e := p.activeEpoch;
    RunThree(p, Arrive(id), Arrive(id), Arrive(id));
    RunPush(p, [Arrive(id), Arrive(id), Arrive(id)], Arrive(id));
    hide Run, Next;
    BackgroundCall(p, id);
    BackgroundCall(Move(p, id, Called(e)), id);
    MoveTwice(p, id, Called(e), Snapped(e));
    BackgroundCall(Move(p, id, Snapped(e)), id);
    MoveTwice(p, id, Snapped(e), Timed(e, p.now));
    BackgroundCall(Move(p, id, Timed(e, p.now)), id);
    MoveTwice(p, id, Timed(e, p.now), Accepting(e));
  }

  /** The first delivery's background completion stalls just before it swaps the state; the delivery expires and is
      reconciled. */
  function HesitatingSteps(): seq<Step> {
    DispatchSteps(FIRST, 10) + [Enter(0, LATE), Arrive(0), Arrive(0)]
    + ([Arrive(0), Arrive(0), Arrive(0)] + [Arrive(0)])
    + [Main(Returns), Tick(10), Expire] + [Main(Inspects(NotApplied)), Replied(0, Accepted), Process]
  }

  /** Then the second delivery is dispatched, and the swap succeeds. */
  function StrandingSteps(): seq<Step> {
    HesitatingSteps() + DispatchSteps(SECOND, 10) + [Arrive(0)]
  }

  function Hesitated(): Pump {
    Reconciled(Overdue(Move(ClaimedBy(Dispatched(Initial(10, 0), FIRST), 0, LATE), 0, Accepting(1))), FIRST)
  }

  function BeforeSwap(): Pump {
    Dispatched(Hesitated(), SECOND)
  }

  function AfterSwap(): Pump {
    Move(BeforeSwap(), 0, Enqueueing(ExecutionCompleted(Answer(1, REFUSAL, 1, false)))).(state := CompletionQueued)
  }

  lemma Hesitates()
    ensures Run(Initial(10, 0), HesitatingSteps()) == Hesitated()
  {
    hide Run, Next;
    var p := Initial(10, 0);
    var a, b := DispatchSteps(FIRST, 10), [Enter(0, LATE), Arrive(0), Arrive(0)];
    var c := [Arrive(0), Arrive(0), Arrive(0)] + [Arrive(0)];
    var d, e := [Main(Returns), Tick(10), Expire], [Main(Inspects(NotApplied)), Replied(0, Accepted), Process];
    Dispatches(p, FIRST);
    var p1 := Dispatched(p, FIRST);
    ClaimsInBackground(p1, 0, LATE);
    var p2 := ClaimedBy(p1, 0, LATE);
    ReachesAcceptance(p2, 0);
    var p3 := Move(p2, 0, Accepting(1));
    GoesOverdue(p3);
    Reconciles(Overdue(p3), FIRST);
    RunConcat(p, a, b);
    RunConcat(p, a + b, c);
    RunConcat(p, a + b + c, d);
    RunConcat(p, a + b + c + d, e);
  }

  lemma HesitatedIdle()
    ensures var p := Hesitated(); p.stack == [] && p.state == Idle && p.limit == 10
  {}

  lemma SwapSteps()
    ensures Run(Initial(10, 0), StrandingSteps()) == AfterSwap()
  {
    Hesitates();
    HesitatedIdle();
    Swaps();
    hide Run, Next, HesitatingSteps, Hesitated, AfterSwap, Dispatched;
    var p := Initial(10, 0);
    Dispatches(Hesitated(), SECOND);
    RunConcat(p, HesitatingSteps(), DispatchSteps(SECOND, 10));
    RunPush(p, HesitatingSteps() + DispatchSteps(SECOND, 10), Arrive(0));
  }

  lemma Swaps()
    ensures Next(BeforeSwap(), Arrive(0)) == AfterSwap()
  {
    hide Next;
    BackgroundCall(BeforeSwap(), 0);
  }

  lemma SwapStrands()
    ensures Stranded(AfterSwap())
  {
    var p := AfterSwap();
    assert p.events == [];
    forall id ensures !AboutToQueue(p, id) {}
  }

  /** Whatever happens behind that run, short of the node leaving its tree, the channel stays where it is and no receipt
      is sent for the second delivery. */
  lemma ChannelCanStrand(more: seq<Step>)
    requires NoExit(more)
    ensures var p := Run(Initial(10, 0), StrandingSteps());
      && p.activeEpoch == 2 && p.active == Some(SECOND)
      && Run(p, more).state == CompletionQueued && Run(p, more).requests == p.requests
      && forall i :: 0 <= i < |p.requests| ==> !p.requests[i].SendReceipt?
  {
    SwapSteps();
    SwapStrands();
    Reachable(10, 0, StrandingSteps());
    hide Run, Next, Inv, Stranded, Awaited;
    var p := Run(Initial(10, 0), StrandingSteps());
    StrandedForGood(p, more);
    StrandedWaits(Run(p, more));
  }

  lemma StrandedWaits(p: Pump)
    requires Stranded(p)
    ensures p.state == CompletionQueued
  {}
}
