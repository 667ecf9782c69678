/** Whose completion a receipt carries. A call of TryCompleteWithoutWorldWrite reads the active epoch only when it
    reaches the node, so a background call that outlives its own epoch can answer for the next one. */
module GodotPumpAttribution {
  import opened Wrappers
  import opened GodotPump
  import opened GodotPumpInvariant
  import opened GodotPumpSteps
  import opened GodotPumpRuns

  /** A completion without a world write reads the active epoch: from which context it comes, and what it reads. */
  datatype Reading = Reading(source: nat, epoch: nat)

  /** The call that a step moves on. */
  function Mover(p: Pump, step: Step): Option<nat> {
    match step
    case Background(id, _) => if id in p.calls && !p.calls[id].main && p.calls[id].context in p.contexts then Some(id) else None
    case Main(_) =>
      (match Top(p)
       case Some(CallFrame(id)) => if id in p.calls && p.calls[id].main && p.calls[id].context in p.contexts then Some(id) else None
       case _ => None)
    case _ => None
  }

  function ReadOf(p: Pump, step: Step): Option<Reading> {
    match Mover(p, step)
    case Some(id) =>
      if p.calls[id].at == Claimed && p.calls[id].completion.Some? then Some(Reading(p.calls[id].context, p.activeEpoch)) else None
    case None => None
  }

  function ReadSet(p: Pump, step: Step): set<Reading> {
    if ReadOf(p, step).Some? then {ReadOf(p, step).value} else {}
  }

  /** All readings of a run. */
  function Readings(p: Pump, steps: seq<Step>): set<Reading> {
    if steps == [] then {}
    else Readings(p, steps[..|steps| - 1]) + ReadSet(Run(p, steps[..|steps| - 1]), steps[|steps| - 1])
  }

  /** A completion reads another epoch than its own. */
  predicate StaleRead(p: Pump, step: Step) {
    ReadOf(p, step).Some? && ReadOf(p, step).value.source != ReadOf(p, step).value.epoch
  }

  predicate OwnAnswer(a: Answer) {
    a.source == a.epoch
  }

  /** A transaction's completion answers for its own epoch, any other one for the epoch that its call read. */
  predicate Accounted(a: Answer, log: set<Reading>) {
    if a.written then OwnAnswer(a) else Reading(a.source, a.epoch) in log
  }

  predicate AccountedEvent(event: PumpEvent, log: set<Reading>) {
    event.ExecutionCompleted? ==> Accounted(event.answer, log)
  }

  predicate AccountedRequest(r: Request, log: set<Reading>) {
    r.SendReceipt? ==> Accounted(r.answer, log)
  }

  predicate AccountedCall(c: Call, log: set<Reading>) {
    && (c.at.Enqueueing? ==> AccountedEvent(c.at.event, log))
    && (c.completion.Some? ==> match c.at
        case Called(epoch) => Reading(c.context, epoch) in log
        case Snapped(epoch) => Reading(c.context, epoch) in log
        case Timed(epoch, _) => Reading(c.context, epoch) in log
        case Accepting(epoch) => Reading(c.context, epoch) in log
        case _ => true)
  }

  ghost predicate CallsAttributed(p: Pump, log: set<Reading>) {
    forall id :: id in p.calls ==> AccountedCall(p.calls[id], log)
  }

  ghost predicate EventsAttributed(p: Pump, log: set<Reading>) {
    forall i :: 0 <= i < |p.events| ==> AccountedEvent(p.events[i], log)
  }

  ghost predicate RequestsAttributed(p: Pump, log: set<Reading>) {
    forall i :: 0 <= i < |p.requests| ==> AccountedRequest(p.requests[i], log)
  }

  ghost predicate Attributed(p: Pump, log: set<Reading>) {
    CallsAttributed(p, log) && EventsAttributed(p, log) && RequestsAttributed(p, log)
  }

  lemma AttributedGrows(p: Pump, log: set<Reading>, more: set<Reading>)
    requires Attributed(p, log) && log <= more
    ensures Attributed(p, more)
  {
    forall id | id in p.calls ensures AccountedCall(p.calls[id], more) { assert AccountedCall(p.calls[id], log); }
    forall i | 0 <= i < |p.events| ensures AccountedEvent(p.events[i], more) { assert AccountedEvent(p.events[i], log); }
    forall i | 0 <= i < |p.requests| ensures AccountedRequest(p.requests[i], more) { assert AccountedRequest(p.requests[i], log); }
  }

  /** A step of a call may enqueue its event, and changes no other call. */
  ghost predicate CallShape(p: Pump, q: Pump, id: nat)
    requires id in p.calls
  {
    && q.requests == p.requests
    && (q.events == p.events || (p.calls[id].at.Enqueueing? && q.events == p.events + [p.calls[id].at.event]))
    && (q.calls == p.calls - {id} || (id in q.calls && q.calls == p.calls[id := q.calls[id]]))
    && (id in q.calls ==>
          && q.calls[id].completion == p.calls[id].completion && q.calls[id].context == p.calls[id].context
          && q.calls[id].main == p.calls[id].main
          && (q.calls[id].at == Claimed ==>
                p.calls[id].at == TokenChecked && p.calls[id].context in p.contexts && !p.contexts[p.calls[id].context].completed))
  }

  lemma CommitShape(p: Pump, id: nat, choice: Choice)
    requires CanStep(p, id) && p.calls[id].completion.None? && CommitPoint(p.calls[id].main, p.calls[id].at)
    requires !p.calls[id].at.Entered? && !p.calls[id].at.TokenChecked? && !p.calls[id].at.Claimed? && !p.calls[id].at.Enqueueing?
    ensures CallShape(p, StepCommit(p, id, choice), id)
  {
    hide ExpiredAt, Pop, Finish;
  }

  lemma CompleteShape(p: Pump, id: nat, choice: Choice, log: set<Reading>)
    requires CanStep(p, id) && p.calls[id].completion.Some? && CompletePoint(p.calls[id].at)
    requires !p.calls[id].at.Entered? && !p.calls[id].at.TokenChecked? && !p.calls[id].at.Claimed? && !p.calls[id].at.Enqueueing?
    ensures CallShape(p, StepComplete(p, id, choice), id)
    ensures var q := StepComplete(p, id, choice);
      AccountedCall(p.calls[id], log) && id in q.calls ==> AccountedCall(q.calls[id], log)
  {
    hide ExpiredAt, Pop, Finish;
  }

  lemma CommitStepsOwn(p: Pump, id: nat, choice: Choice, log: set<Reading>)
    requires Inv(p) && CanStep(p, id) && p.calls[id].completion.None? && p.calls[id].at.Running?
    ensures var q := StepCommit(p, id, choice); id in q.calls ==> AccountedCall(q.calls[id], log)
  {
    Here(p, id);
    hide Inv, HoldOk, EventOk, Pop, Finish;
  }

  lemma EarlyStepsOwn(p: Pump, id: nat, choice: Choice, log: set<Reading>)
    requires CanStep(p, id) && AccountedCall(p.calls[id], log)
    requires p.calls[id].at.Entered? || p.calls[id].at.TokenChecked? || p.calls[id].at.Claimed? || p.calls[id].at.Enqueueing?
    requires p.calls[id].at == Claimed && p.calls[id].completion.Some? ==> Reading(p.calls[id].context, p.activeEpoch) in log
    ensures var q := StepCall(p, id, choice); CallShape(p, q, id) && (id in q.calls ==> AccountedCall(q.calls[id], log))
  {
    hide StepCommit, StepComplete, Pop, Finish, Top;
  }

  lemma LateCommitOwn(p: Pump, id: nat, choice: Choice, log: set<Reading>)
    requires Inv(p) && CanStep(p, id) && p.calls[id].completion.None? && CommitPoint(p.calls[id].main, p.calls[id].at)
    requires !p.calls[id].at.Entered? && !p.calls[id].at.TokenChecked? && !p.calls[id].at.Claimed? && !p.calls[id].at.Enqueueing?
    ensures var q := StepCommit(p, id, choice); CallShape(p, q, id) && (id in q.calls ==> AccountedCall(q.calls[id], log))
  {
    hide Inv, Pop, Finish, Touch, Top, ExpiredAt;
    CommitShape(p, id, choice);
    if p.calls[id].at.Running? { CommitStepsOwn(p, id, choice, log); }
  }

  lemma CallStepsOwn(p: Pump, id: nat, choice: Choice, log: set<Reading>)
    requires Inv(p) && CanStep(p, id) && AccountedCall(p.calls[id], log)
    requires p.calls[id].at == Claimed && p.calls[id].completion.Some? ==> Reading(p.calls[id].context, p.activeEpoch) in log
    ensures var q := StepCall(p, id, choice); CallShape(p, q, id) && (id in q.calls ==> AccountedCall(q.calls[id], log))
  {
    PointFits(p, id);
    hide Inv, Pop, Finish, CallShape, AccountedCall, StepCommit, StepComplete, Top, CommitPoint, CompletePoint;
    var c := p.calls[id];
    if c.at.Entered? || c.at.TokenChecked? || c.at.Claimed? || c.at.Enqueueing? { EarlyStepsOwn(p, id, choice, log); }
    else if c.completion.Some? { CompleteShape(p, id, choice, log); }
    else { LateCommitOwn(p, id, choice, log); }
  }

  lemma PointFits(p: Pump, id: nat)
    requires Inv(p) && id in p.calls
    ensures var c := p.calls[id]; if c.completion.Some? then CompletePoint(c.at) else CommitPoint(c.main, c.at)
  {
    Here(p, id);
    hide Inv;
  }

  lemma CallStaysOwn(p: Pump, id: nat, choice: Choice, log: set<Reading>)
    requires Inv(p) && CanStep(p, id) && Attributed(p, log)
    requires p.calls[id].at == Claimed && p.calls[id].completion.Some? ==> Reading(p.calls[id].context, p.activeEpoch) in log
    ensures Attributed(StepCall(p, id, choice), log)
  {
    hide Inv, StepCall;
    assert AccountedCall(p.calls[id], log);
    CallStepsOwn(p, id, choice, log);
  }

  /** On the main thread a completion reads its own epoch. */
  lemma MainNeverStale(p: Pump, id: nat)
    requires Inv(p) && id in p.calls && p.calls[id].main && p.calls[id].at == Claimed
    ensures p.calls[id].context == p.activeEpoch
  {
    Here(p, id);
  }

  /** The pump's own frames enqueue nothing and send only reconciliations. */
  lemma PumpStaysOwn(p: Pump, point: PumpPoint, choice: Choice, log: set<Reading>)
    requires Attributed(p, log)
    ensures Attributed(StepPump(p, point, choice), log)
  {
    hide Attributed, CancelExecution, CloseActive, Pop;
    var q := StepPump(p, point, choice);
    if q.requests == p.requests { SameAttributed(p, q, log); }
    else { SentAttributed(p, q, SendReconcile(p.activeEpoch, p.active.value, choice.resolution), log); }
  }

  lemma SameAttributed(p: Pump, q: Pump, log: set<Reading>)
    requires Attributed(p, log) && q.calls == p.calls && q.events == p.events && q.requests == p.requests
    ensures Attributed(q, log)
  {}

  lemma SentAttributed(p: Pump, q: Pump, r: Request, log: set<Reading>)
    requires Attributed(p, log) && q.calls == p.calls && q.events == p.events && q.requests == p.requests + [r] && AccountedRequest(r, log)
    ensures Attributed(q, log)
  {}

  lemma ProcessStaysOwn(p: Pump, event: PumpEvent, log: set<Reading>)
    requires Attributed(p, log) && AccountedEvent(event, log)
    ensures Attributed(ProcessEvent(p, event), log)
  {
    hide Attributed, CancelExecution, CloseActive, Accounted;
    var q := ProcessEvent(p, event);
    if q.requests == p.requests { SameAttributed(p, q, log); }
    else { SentAttributed(p, q, SendReceipt(event.answer, p.active.value), log); }
  }

  lemma NextStaysOwn(p: Pump, step: Step, log: set<Reading>)
    requires Inv(p) && Attributed(p, log)
    ensures Attributed(Next(p, step), log + ReadSet(p, step))
  {
    hide Inv, StepCall, StepPump, ProcessEvent, NoInspectionPending, InCallback, MayEnter, TakeItem, BeginInspection, CancelExecution, Attributed;
    var all := log + ReadSet(p, step);
    AttributedGrows(p, log, all);
    match step
    case Background(id, choice) => if Mover(p, step).Some? { CallStaysOwn(p, id, choice, all); }
    case Main(choice) =>
      if Top(p).Some? {
        if Top(p).value.PumpFrame? { PumpStaysOwn(p, Top(p).value.point, choice, all); }
        else if Mover(p, step).Some? { CallStaysOwn(p, Top(p).value.id, choice, all); }
      }
    case Process =>
      if p.stack == [] && p.events != [] { DroppedOwn(p, all); ProcessStaysOwn(p.(events := p.events[1..]), p.events[0], all); }
    case _ => OtherStaysOwn(p, step, all);
  }

  lemma DroppedOwn(p: Pump, log: set<Reading>)
    requires Attributed(p, log) && p.events != []
    ensures Attributed(p.(events := p.events[1..]), log) && AccountedEvent(p.events[0], log)
  {}

  lemma OtherStaysOwn(p: Pump, step: Step, log: set<Reading>)
    requires Attributed(p, log) && !step.Background? && !step.Main? && !step.Process?
    ensures Attributed(Next(p, step), log)
  {
    hide CancelExecution, CloseActive, NoInspectionPending, InCallback, Accounted;
  }

  /** Every answer on its way or sent is a transaction's own or one that its call read the epoch for. */
  lemma {:induction false} RunsAttributed(limit: int, now: int, steps: seq<Step>)
    ensures Attributed(Run(Initial(limit, now), steps), Readings(Initial(limit, now), steps))
  {
    hide Next, ReadSet, Attributed;
    if steps == [] {
      NothingUnattributed(limit, now);
    } else {
      var front := steps[..|steps| - 1];
      RunsAttributed(limit, now, front);
      Reachable(limit, now, front);
      NextStaysOwn(Run(Initial(limit, now), front), steps[|steps| - 1], Readings(Initial(limit, now), front));
    }
  }

  lemma NothingUnattributed(limit: int, now: int)
    ensures Attributed(Initial(limit, now), {})
  {}

  // ---------------------------------------------------------------- each context's completion reads once

  /** Behind a reading, the context's flag is held for good and no call of it is about to read. */
  ghost predicate HasRead(p: Pump, r: Reading) {
    && r.source in p.contexts && p.contexts[r.source].noWrite
    && forall id :: id in p.calls && p.calls[id].context == r.source ==> p.calls[id].at != Claimed
  }

  ghost predicate AllHaveRead(p: Pump, log: set<Reading>) {
    forall r :: r in log ==> HasRead(p, r)
  }

  /** A call about to read claimed its context in this step, or was about to read before. */
  ghost predicate ClaimsFresh(p: Pump, q: Pump) {
    forall id :: id in q.calls && q.calls[id].at == Claimed ==>
      id in p.calls && p.calls[id].context == q.calls[id].context
      && (p.calls[id] == q.calls[id]
          || (p.calls[id].at == TokenChecked && p.calls[id].context in p.contexts && !p.contexts[p.calls[id].context].completed))
  }

  lemma CallHasShape(p: Pump, id: nat, choice: Choice)
    requires Inv(p) && CanStep(p, id)
    ensures CallShape(p, StepCall(p, id, choice), id)
  {
    PointFits(p, id);
    hide Inv, CallShape, CommitPoint, CompletePoint, StepCommit, StepComplete, Pop, Finish, Top, Touch;
    var c := p.calls[id];
    if c.at.Entered? || c.at.TokenChecked? || c.at.Claimed? || c.at.Enqueueing? { EarlyShape(p, id, choice); }
    else if c.completion.Some? { CompleteShape(p, id, choice, {}); }
    else { CommitShape(p, id, choice); }
  }

  lemma EarlyShape(p: Pump, id: nat, choice: Choice)
    requires CanStep(p, id)
    requires p.calls[id].at.Entered? || p.calls[id].at.TokenChecked? || p.calls[id].at.Claimed? || p.calls[id].at.Enqueueing?
    ensures CallShape(p, StepCall(p, id, choice), id)
  {
    hide StepCommit, StepComplete, Pop, Finish, Top;
  }

  lemma CallClaimsFresh(p: Pump, id: nat, choice: Choice)
    requires Inv(p) && CanStep(p, id)
    ensures ClaimsFresh(p, StepCall(p, id, choice))
    ensures p.calls[id].at == Claimed && id in StepCall(p, id, choice).calls ==> StepCall(p, id, choice).calls[id].at != Claimed
  {
    CallHasShape(p, id, choice);
    hide Inv, StepCall;
  }

  lemma NextClaimsFresh(p: Pump, step: Step)
    requires Inv(p)
    ensures ClaimsFresh(p, Next(p, step))
  {
    hide Inv, StepCall, ClaimsFresh, NoInspectionPending, InCallback, CancelExecution, CloseActive, Pop;
    match step
    case Background(id, choice) => if Mover(p, step).Some? { CallClaimsFresh(p, id, choice); } else { SameClaims(p, p); }
    case Main(choice) =>
      if Top(p).Some? && Top(p).value.CallFrame? {
        if Mover(p, step).Some? { CallClaimsFresh(p, Top(p).value.id, choice); } else { SameClaims(p, p); }
      } else {
        SameClaims(p, Next(p, step));
      }
    case Enter(id, call) => EnteredClaims(p, id, call);
    case _ => SameClaims(p, Next(p, step));
  }

  lemma SameClaims(p: Pump, q: Pump)
    requires q.calls == p.calls
    ensures ClaimsFresh(p, q)
  {}

  lemma EnteredClaims(p: Pump, id: nat, call: Call)
    ensures ClaimsFresh(p, Next(p, Enter(id, call)))
  {
    hide InCallback;
  }

  /** Contexts only grow. */
  lemma NextGrows(p: Pump, step: Step)
    requires Inv(p)
    ensures Grows(p, Next(p, step))
  {
    NextEffect(p, step);
    hide Inv, Next, Grows;
  }

  lemma ReadStays(p: Pump, step: Step, r: Reading)
    requires Inv(p) && HasRead(p, r)
    ensures HasRead(Next(p, step), r)
  {
    NextClaimsFresh(p, step);
    NextGrows(p, step);
    ContextHere(p, r.source);
    hide Inv, Next;
  }

  /** At most one call of a context is about to read. */
  lemma OneClaims(p: Pump, id: nat, other: nat)
    requires Inv(p) && id in p.calls && other in p.calls && p.calls[id].context == p.calls[other].context
    ensures p.calls[id].at == Claimed && other != id ==> p.calls[other].at != Claimed
    ensures p.calls[id].at == Claimed ==> p.calls[id].context in p.contexts && p.contexts[p.calls[id].context].completed
  {
    Here(p, id);
    Here(p, other);
    hide Inv;
  }

  lemma ReadsNow(p: Pump, step: Step)
    requires Inv(p) && ReadOf(p, step).Some?
    ensures HasRead(Next(p, step), ReadOf(p, step).value)
  {
    var id, r := Mover(p, step).value, ReadOf(p, step).value;
    Here(p, id);
    NextClaimsFresh(p, step);
    NextGrows(p, step);
    var q := Next(p, step);
    assert id in q.calls ==> q.calls[id].at != Claimed by {
      hide Inv, StepCall;
      CallClaimsFresh(p, id, if step.Background? then step.choice else step.choice);
    }
    forall other | other in q.calls && q.calls[other].context == r.source ensures q.calls[other].at != Claimed {
      if q.calls[other].at == Claimed && other != id {
        hide Next;
        OneClaims(p, id, other);
      }
    }
    hide Inv, Next;
  }

  lemma {:induction false} RunsHaveRead(limit: int, now: int, steps: seq<Step>)
    ensures AllHaveRead(Run(Initial(limit, now), steps), Readings(Initial(limit, now), steps))
  {
    hide Next, HasRead, ReadOf;
    if steps != [] {
      var front, step := steps[..|steps| - 1], steps[|steps| - 1];
      var p, log := Run(Initial(limit, now), front), Readings(Initial(limit, now), front);
      RunsHaveRead(limit, now, front);
      Reachable(limit, now, front);
      forall r | r in log ensures HasRead(Next(p, step), r) { ReadStays(p, step, r); }
      if ReadOf(p, step).Some? { ReadsNow(p, step); }
    }
  }

  /** The reading of a run's step. */
  function ReadAt(p: Pump, steps: seq<Step>, n: nat): Option<Reading>
    requires n < |steps|
  {
    ReadOf(Run(p, steps[..n]), steps[n])
  }

  lemma {:induction false} ReadSomewhere(p: Pump, steps: seq<Step>, r: Reading) returns (n: nat)
    requires r in Readings(p, steps)
    ensures n < |steps| && ReadAt(p, steps, n) == Some(r)
  {
    hide Next, ReadOf, Run;
    var front := steps[..|steps| - 1];
    if r in Readings(p, front) {
      n := ReadSomewhere(p, front, r);
      assert front[..n] == steps[..n];
    } else {
      n := |steps| - 1;
    }
  }

  lemma {:induction false} ReadBefore(p: Pump, steps: seq<Step>, n: nat, m: nat)
    requires n < m <= |steps| && ReadAt(p, steps, n).Some?
    ensures ReadAt(p, steps, n).value in Readings(p, steps[..m])
    decreases m
  {
    hide Next, ReadOf, Run;
    var front := steps[..m];
    assert front[..m - 1] == steps[..m - 1] && front[m - 1] == steps[m - 1];
    if n < m - 1 { ReadBefore(p, steps, n, m - 1); }
  }

  /** No two steps of a run read for one context. */
  lemma ReadsOnce(limit: int, now: int, steps: seq<Step>, n: nat, m: nat)
    requires n < m < |steps|
    requires ReadAt(Initial(limit, now), steps, n).Some? && ReadAt(Initial(limit, now), steps, m).Some?
    ensures ReadAt(Initial(limit, now), steps, n).value.source != ReadAt(Initial(limit, now), steps, m).value.source
  {
    hide Next, Run, Readings;
    ReadBefore(Initial(limit, now), steps, n, m);
    RunsHaveRead(limit, now, steps[..m]);
    assert HasRead(Run(Initial(limit, now), steps[..m]), ReadAt(Initial(limit, now), steps, n).value);
  }

  // ---------------------------------------------------------------- receipts

  /** A sent receipt carries a transaction's completion of its own epoch, or the completion of a call that read the
      receipt's epoch in exactly one step of the run; and it answers for another delivery than its own exactly when that
      step was a stale read. */
  lemma ReceiptNamesItsRead(limit: int, now: int, steps: seq<Step>, i: nat) returns (n: nat)
    requires i < |Run(Initial(limit, now), steps).requests| && Run(Initial(limit, now), steps).requests[i].SendReceipt?
    ensures var a := Run(Initial(limit, now), steps).requests[i].answer;
      && (a.written ==> OwnAnswer(a))
      && (!a.written ==>
            && n < |steps| && ReadAt(Initial(limit, now), steps, n) == Some(Reading(a.source, a.epoch))
            && (!OwnAnswer(a) <==> StaleRead(Run(Initial(limit, now), steps[..n]), steps[n]))
            && forall m :: 0 <= m < |steps| && m != n && ReadAt(Initial(limit, now), steps, m).Some? ==>
                 ReadAt(Initial(limit, now), steps, m).value.source != a.source)
  {
    RunsAttributed(limit, now, steps);
    var p := Initial(limit, now);
    var a := Run(p, steps).requests[i].answer;
    assert AccountedRequest(Run(p, steps).requests[i], Readings(p, steps));
    hide Run, Next, Readings, Attributed, ReadOf;
    n := 0;
    if !a.written {
      n := ReadSomewhere(p, steps, Reading(a.source, a.epoch));
      forall m | 0 <= m < |steps| && m != n && ReadAt(p, steps, m).Some? ensures ReadAt(p, steps, m).value.source != a.source {
        if m < n { ReadsOnce(limit, now, steps, m, n); } else { ReadsOnce(limit, now, steps, n, m); }
      }
    }
  }

  /** No step of the run is a stale read. */
  ghost predicate NeverStale(limit: int, now: int, steps: seq<Step>) {
    forall n {:trigger steps[..n]} :: 0 <= n < |steps| ==> !StaleRead(Run(Initial(limit, now), steps[..n]), steps[n])
  }

  /** What an adapter can see to: it completes without a world write only on the main thread. */
  predicate CompletesOnMainThread(steps: seq<Step>) {
    forall n :: 0 <= n < |steps| && steps[n].Enter? && steps[n].call.completion.Some? ==> steps[n].call.main
  }

  ghost predicate CompletionsOnMain(p: Pump) {
    forall id :: id in p.calls && p.calls[id].completion.Some? ==> p.calls[id].main
  }

  lemma NextKeepsOnMain(p: Pump, step: Step)
    requires Inv(p) && CompletionsOnMain(p) && (step.Enter? && step.call.completion.Some? ==> step.call.main)
    ensures CompletionsOnMain(Next(p, step))
  {
    hide Inv, StepCall, StepPump, TakeItem, ProcessEvent, BeginInspection, CompletionsOnMain, NoInspectionPending, InCallback, CancelExecution, MayEnter;
    match step
    case Background(id, choice) =>
      if Mover(p, step).Some? { CallKeepsThread(p, id, choice); SameThreads(p, StepCall(p, id, choice)); }
    case Main(choice) =>
      if Top(p).Some? && Top(p).value.CallFrame? {
        var id := Top(p).value.id;
        if Mover(p, step).Some? { CallKeepsThread(p, id, choice); SameThreads(p, StepCall(p, id, choice)); }
      } else {
        PumpKeepsCalls(p, step);
        SameThreads(p, Next(p, step));
      }
    case Enter(id, call) => if MayEnter(p, id, call) { EnteredThreads(p, id, call); }
    case _ =>
      PumpKeepsCalls(p, step);
      SameThreads(p, Next(p, step));
  }

  lemma PumpKeepsCalls(p: Pump, step: Step)
    requires !step.Enter? && Mover(p, step).None?
    ensures Next(p, step).calls == p.calls
  {
    hide StepCall, NoInspectionPending, InCallback, CancelExecution, CloseActive, Pop;
  }

  lemma SameThreads(p: Pump, q: Pump)
    requires CompletionsOnMain(p)
    requires forall id :: id in q.calls ==>
      id in p.calls && q.calls[id].main == p.calls[id].main && q.calls[id].completion == p.calls[id].completion
    ensures CompletionsOnMain(q)
  {}

  lemma EnteredThreads(p: Pump, id: nat, call: Call)
    requires CompletionsOnMain(p) && (call.completion.Some? ==> call.main)
    ensures CompletionsOnMain(Next(p, Enter(id, call)))
  {
    hide MayEnter;
  }

  lemma CallKeepsThread(p: Pump, id: nat, choice: Choice)
    requires Inv(p) && CanStep(p, id)
    ensures var q := StepCall(p, id, choice);
      forall other :: other in q.calls ==>
        other in p.calls && q.calls[other].main == p.calls[other].main && q.calls[other].completion == p.calls[other].completion
  {
    CallHasShape(p, id, choice);
    hide Inv, StepCall;
  }

  lemma {:induction false} StaysOnMain(limit: int, now: int, steps: seq<Step>)
    requires CompletesOnMainThread(steps)
    ensures CompletionsOnMain(Run(Initial(limit, now), steps))
  {
    hide Next;
    if steps != [] {
      var front := steps[..|steps| - 1];
      StaysOnMain(limit, now, front);
      Reachable(limit, now, front);
      NextKeepsOnMain(Run(Initial(limit, now), front), steps[|steps| - 1]);
    }
  }

  lemma MainThreadNeverStale(limit: int, now: int, steps: seq<Step>)
    requires CompletesOnMainThread(steps)
    ensures NeverStale(limit, now, steps)
  {
    forall n | 0 <= n < |steps| ensures !StaleRead(Run(Initial(limit, now), steps[..n]), steps[n]) {
      hide Run, Inv;
      StaysOnMain(limit, now, steps[..n]);
      Reachable(limit, now, steps[..n]);
      var p := Run(Initial(limit, now), steps[..n]);
      if ReadOf(p, steps[n]).Some? { MainNeverStale(p, Mover(p, steps[n]).value); }
    }
  }

  /** In a run without a stale read, every receipt carries its own epoch's completion; and one that was given without a
      world write belongs to a context that never begins a transaction, however the run goes on. */
  lemma ReceiptsAreHonest(limit: int, now: int, steps: seq<Step>, more: seq<Step>, i: nat)
    requires NeverStale(limit, now, steps)
    requires i < |Run(Initial(limit, now), steps).requests| && Run(Initial(limit, now), steps).requests[i].SendReceipt?
    ensures var p := Run(Initial(limit, now), steps); var a := p.requests[i].answer; var q := Run(p, more);
      && a.source == a.epoch
      && (!a.written ==> a.epoch in q.contexts && q.contexts[a.epoch].starts == 0)
  {
    var n := ReceiptNamesItsRead(limit, now, steps, i);
    Reachable(limit, now, steps);
    OneReceiptPerEpoch(limit, now, steps, more, i);
    var p := Run(Initial(limit, now), steps);
    hide Run;
    ReceiptHere(p, i);
    ContextHere(p, p.requests[i].answer.source);
    hide Inv, StaleRead;
    assert steps[..|steps|] == steps;
  }

  /** So an adapter that completes without a world write only on the main thread gets honest receipts in every run. */
  lemma MainThreadReceiptsAreHonest(limit: int, now: int, steps: seq<Step>, more: seq<Step>, i: nat)
    requires CompletesOnMainThread(steps)
    requires i < |Run(Initial(limit, now), steps).requests| && Run(Initial(limit, now), steps).requests[i].SendReceipt?
    ensures var p := Run(Initial(limit, now), steps); var a := p.requests[i].answer; var q := Run(p, more);
      && a.source == a.epoch
      && (!a.written ==> a.epoch in q.contexts && q.contexts[a.epoch].starts == 0)
  {
    hide Run, NeverStale;
    MainThreadNeverStale(limit, now, steps);
    ReceiptsAreHonest(limit, now, steps, more, i);
  }
}
