/** How long an execution may take: what the clock and the claim said when it began bounds every world transaction. */
module GodotPumpClaims {
  import opened Wrappers
  import opened GodotPump
  import opened GodotPumpInvariant
  import opened GodotPumpSteps
  import opened GodotPumpRuns
  import opened GodotPumpAttribution

  /** One reading of a delivery's claim: its epoch, when its execution started, when the claim was read and how much of
      it was left then. */
  datatype ClaimReading = ClaimReading(epoch: nat, startedAt: int, readAt: int, claim: int)

  /** An execution starts when its first clock reading is taken. */
  datatype Start = Start(epoch: nat, at: int)

  predicate AtFrame(p: Pump, step: Step, point: PumpPoint) {
    step.Main? && Top(p) == Some(PumpFrame(point))
  }

  /** What the step reads of a claim, if it reads one; a text that is no time leaves nothing of it. */
  function ReadHere(p: Pump, step: Step): seq<ClaimReading> {
    if AtFrame(p, step, Clocked)
    then [ClaimReading(p.activeEpoch, p.startedAt, p.now, if step.choice.Remaining? then step.choice.claim else 0)]
    else []
  }

  /** All claim readings of a run. */
  function ClaimReadings(p: Pump, steps: seq<Step>): seq<ClaimReading> {
    if steps == [] then []
    else ClaimReadings(p, steps[..|steps| - 1]) + ReadHere(Run(p, steps[..|steps| - 1]), steps[|steps| - 1])
  }

  function StartHere(p: Pump, step: Step): set<Start> {
    if AtFrame(p, step, Starting) then {Start(p.activeEpoch, p.now)} else {}
  }

  /** All starts of a run. */
  function Starts(p: Pump, steps: seq<Step>): set<Start> {
    if steps == [] then {} else Starts(p, steps[..|steps| - 1]) + StartHere(Run(p, steps[..|steps| - 1]), steps[|steps| - 1])
  }

  /** This much time an execution has: no more than the claim had left and no more than the configured limit. */
  predicate Allows(r: ClaimReading, limit: int, time: int) {
    time <= r.claim && time <= limit && (time == r.claim || time == limit)
  }

  /** The reading gave this deadline. */
  predicate Sets(r: ClaimReading, e: nat, limit: int, deadline: int) {
    r.epoch == e && Allows(r, limit, deadline - r.startedAt) && deadline > r.startedAt
  }

  // ---------------------------------------------------------------- what every run keeps of the times

  /** The readings of different epochs, the current one's last. */
  ghost predicate ReadInOrder(p: Pump, log: seq<ClaimReading>) {
    && (forall i :: 0 <= i < |log| ==> log[i].epoch <= p.activeEpoch)
    && (forall i, j :: 0 <= i < j < |log| ==> log[i].epoch != log[j].epoch)
    && (Unread(p) ==> forall i :: 0 <= i < |log| ==> log[i].epoch != p.activeEpoch)
  }

  /** The active delivery's claim is still to be read. */
  predicate Unread(p: Pump) {
    p.stack != [] && (p.stack[0] == PumpFrame(Starting) || p.stack[0] == PumpFrame(Clocked))
  }

  predicate Bounds(p: Pump) {
    p.stack != [] && p.stack[0] == PumpFrame(Bounded)
  }

  ghost predicate ReadingsOk(p: Pump, log: seq<ClaimReading>, starts: set<Start>) {
    && (forall i :: 0 <= i < |log| ==> Start(log[i].epoch, log[i].startedAt) in starts && log[i].startedAt <= log[i].readAt)
    && (p.stack != [] && p.stack[0] == PumpFrame(Clocked) ==> Start(p.activeEpoch, p.startedAt) in starts && p.startedAt <= p.now)
  }

  ghost predicate DeadlinesOk(p: Pump, log: seq<ClaimReading>) {
    && (Bounds(p) ==> p.activeEpoch !in p.contexts && exists i :: 0 <= i < |log| && Sets(log[i], p.activeEpoch, p.limit, p.startedAt + p.duration))
    && (forall e :: e in p.contexts ==> exists i :: 0 <= i < |log| && Sets(log[i], e, p.limit, p.contexts[e].deadline))
  }

  ghost predicate Timed(p: Pump, log: seq<ClaimReading>, starts: set<Start>) {
    ReadInOrder(p, log) && ReadingsOk(p, log, starts) && DeadlinesOk(p, log)
  }

  /** A step that neither takes an item nor runs the pump's own start keeps what the times depend on. */
  ghost predicate KeepsTimes(p: Pump, q: Pump) {
    && q.activeEpoch == p.activeEpoch && q.startedAt == p.startedAt && q.duration == p.duration && q.limit == p.limit && q.now >= p.now
    && (Unread(q) || Bounds(q) ==> p.stack != [] && q.stack[0] == p.stack[0])
    && q.contexts.Keys == p.contexts.Keys && (forall e :: e in p.contexts ==> q.contexts[e].deadline == p.contexts[e].deadline)
  }

  lemma TimesStay(p: Pump, q: Pump, log: seq<ClaimReading>, starts: set<Start>)
    requires Timed(p, log, starts) && KeepsTimes(p, q)
    ensures Timed(q, log, starts)
  {
    hide Sets;
    forall e | e in q.contexts ensures exists i :: 0 <= i < |log| && Sets(log[i], e, q.limit, q.contexts[e].deadline) {
      assert e in p.contexts;
    }
  }

  lemma EarlyTimes(p: Pump, id: nat, choice: Choice)
    requires CanStep(p, id)
    requires p.calls[id].at.Entered? || p.calls[id].at.TokenChecked? || p.calls[id].at.Claimed? || p.calls[id].at.Enqueueing?
    ensures KeepsTimes(p, StepCall(p, id, choice))
  {
    hide StepCommit, StepComplete;
  }

  lemma FinishTimes(p: Pump, id: nat)
    requires id in p.calls
    ensures KeepsTimes(p, Finish(p, id))
  {}

  lemma TouchTimes(p: Pump, e: nat, x: Context, q: Pump)
    requires e in p.contexts && x.deadline == p.contexts[e].deadline && KeepsTimes(p.(contexts := p.contexts[e := x]), q)
    ensures KeepsTimes(p, q)
  {}

  lemma CommitTimes(p: Pump, id: nat, choice: Choice)
    requires CanStep(p, id)
    ensures KeepsTimes(p, StepCommit(p, id, choice))
  {
    hide ExpiredAt, Finish, KeepsTimes;
    var c := p.calls[id];
    var x := p.contexts[c.context];
    FinishTimes(p, id);
    FinishTimes(Touch(p, c.context, x.(completed := false)), id);
    TouchTimes(p, c.context, x.(completed := false), Finish(Touch(p, c.context, x.(completed := false)), id));
    if c.at.Running? { RunningTimes(p, id, choice); } else if !c.at.Refused? { UnrefusedTimes(p, id, choice); }
  }

  lemma RunningTimes(p: Pump, id: nat, choice: Choice)
    requires CanStep(p, id) && p.calls[id].at.Running?
    ensures KeepsTimes(p, StepCommit(p, id, choice))
  {
    hide ExpiredAt;
  }

  lemma UnrefusedTimes(p: Pump, id: nat, choice: Choice)
    requires CanStep(p, id) && !p.calls[id].at.Running? && !p.calls[id].at.Refused?
    ensures KeepsTimes(p, StepCommit(p, id, choice))
  {
    hide ExpiredAt;
  }

  lemma CompleteTimes(p: Pump, id: nat, choice: Choice)
    requires CanStep(p, id) && p.calls[id].completion.Some?
    ensures KeepsTimes(p, StepComplete(p, id, choice))
  {
    hide ExpiredAt;
  }

  lemma CallTimes(p: Pump, id: nat, choice: Choice)
    requires CanStep(p, id)
    ensures KeepsTimes(p, StepCall(p, id, choice))
  {
    hide StepCommit, StepComplete, KeepsTimes;
    var c := p.calls[id];
    if c.at.Entered? || c.at.TokenChecked? || c.at.Claimed? || c.at.Enqueueing? { EarlyTimes(p, id, choice); }
    else if c.completion.Some? { CompleteTimes(p, id, choice); }
    else { CommitTimes(p, id, choice); }
  }

  // ---------------------------------------------------------------- the pump's own start

  lemma StartingTimes(p: Pump, choice: Choice, log: seq<ClaimReading>, starts: set<Start>)
    requires Timed(p, log, starts) && p.stack == [PumpFrame(Starting)]
    ensures Timed(StepPump(p, Starting, choice), log, starts + {Start(p.activeEpoch, p.now)})
  {
    hide Sets;
    var q := StepPump(p, Starting, choice);
    forall e | e in q.contexts ensures exists i :: 0 <= i < |log| && Sets(log[i], e, q.limit, q.contexts[e].deadline) { assert e in p.contexts; }
  }

  lemma ShutDeadlines(p: Pump)
    ensures var q := CancelExecution(CloseActive(p, 0));
      && q == p.(cancellation := None, contexts := q.contexts)
      && q.contexts.Keys == p.contexts.Keys && forall e :: e in p.contexts ==> q.contexts[e].deadline == p.contexts[e].deadline
  {}

  /** Reading the claim: with time left by both bounds the execution goes on, otherwise the delivery is inspected. */
  lemma ClockedMeans(p: Pump, choice: Choice)
    requires p.stack == [PumpFrame(Clocked)]
    ensures var q := StepPump(p, Clocked, choice); var r := ReadHere(p, Main(choice))[0];
      && |ReadHere(p, Main(choice))| == 1 && r.epoch == p.activeEpoch && r.startedAt == p.startedAt && r.readAt == p.now
      && q.startedAt == p.startedAt && q.activeEpoch == p.activeEpoch && q.limit == p.limit && q.now == p.now
      && Allows(r, p.limit, q.duration)
      && q.contexts.Keys == p.contexts.Keys && (forall e :: e in p.contexts ==> q.contexts[e].deadline == p.contexts[e].deadline)
      && (if r.claim > 0 && p.limit > 0 then q.stack == [PumpFrame(Bounded)] && q.duration > 0 && q.state == p.state
          else q.stack == [PumpFrame(InInspect)] && q.state == Inspecting)
  {
    hide CancelExecution, CloseActive;
    var remaining := if choice.Remaining? then choice.claim else 0;
    ShutDeadlines(Pop(p).(duration := if remaining < p.limit then remaining else p.limit));
  }

  lemma ClockedTimes(p: Pump, choice: Choice, log: seq<ClaimReading>, starts: set<Start>)
    requires Timed(p, log, starts) && p.stack == [PumpFrame(Clocked)] && p.activeEpoch !in p.contexts
    ensures Timed(StepPump(p, Clocked, choice), log + ReadHere(p, Main(choice)), starts)
  {
    ClockedMeans(p, choice);
    hide StepPump, Sets, Allows;
    var q := StepPump(p, Clocked, choice);
    var r := ReadHere(p, Main(choice))[0];
    var log' := log + ReadHere(p, Main(choice));
    assert log' == log + [r];
    forall e | e in q.contexts ensures exists i :: 0 <= i < |log'| && Sets(log'[i], e, q.limit, q.contexts[e].deadline) {
      assert e in p.contexts;
      var i :| 0 <= i < |log| && Sets(log[i], e, p.limit, p.contexts[e].deadline);
      assert log'[i] == log[i];
    }
    if Bounds(q) {
      SetsBy(r, q);
      assert log'[|log|] == r;
    }
  }

  lemma SetsBy(r: ClaimReading, q: Pump)
    requires Allows(r, q.limit, q.duration) && r.startedAt == q.startedAt && r.epoch == q.activeEpoch && q.duration > 0
    ensures Sets(r, q.activeEpoch, q.limit, q.startedAt + q.duration)
  {}

  lemma BoundedTimes(p: Pump, choice: Choice, log: seq<ClaimReading>, starts: set<Start>)
    requires Timed(p, log, starts) && p.stack == [PumpFrame(Bounded)]
    ensures Timed(StepPump(p, Bounded, choice), log, starts)
  {
    hide Sets;
    var q := StepPump(p, Bounded, choice);
    forall e | e in q.contexts ensures exists i :: 0 <= i < |log| && Sets(log[i], e, q.limit, q.contexts[e].deadline) {
      if e != p.activeEpoch { assert e in p.contexts; }
    }
  }

  lemma OtherPumpTimes(p: Pump, point: PumpPoint, choice: Choice)
    requires p.stack == [PumpFrame(point)] && point != Starting && point != Clocked && point != Bounded
    ensures KeepsTimes(p, StepPump(p, point, choice))
  {
    hide CancelExecution, CloseActive;
    ShutDeadlines(Pop(p));
    CancelDeadlines(Pop(p));
  }

  lemma CancelDeadlines(p: Pump)
    ensures var q := CancelExecution(p);
      q.contexts.Keys == p.contexts.Keys && forall e :: e in p.contexts ==> q.contexts[e].deadline == p.contexts[e].deadline
  {}

  ghost predicate SameDeadlines(p: Pump, q: Pump) {
    q.contexts.Keys == p.contexts.Keys && forall e :: e in p.contexts ==> q.contexts[e].deadline == p.contexts[e].deadline
  }

  lemma TakeKeeps(p: Pump, item: Item)
    requires p.stack == []
    ensures var q := TakeItem(p, item);
      && SameDeadlines(p, q) && q.limit == p.limit && q.now == p.now && !Bounds(q)
      && (q.stack == [] || q.stack[0] != PumpFrame(Clocked))
      && (if item.Valid? then q.activeEpoch == p.activeEpoch + 1 else q.activeEpoch == p.activeEpoch && !Unread(q))
  {
    hide CancelExecution, CloseActive;
    CancelDeadlines(p);
    if item.Valid? { ShutDeadlines(p.(active := Some(item.delivery), lastFence := None, activeEpoch := p.activeEpoch + 1)); }
  }

  lemma TakeTimes(p: Pump, item: Item, log: seq<ClaimReading>, starts: set<Start>)
    requires Timed(p, log, starts) && p.stack == []
    ensures Timed(TakeItem(p, item), log, starts)
  {
    TakeKeeps(p, item);
    hide Sets, TakeItem;
    var q := TakeItem(p, item);
    forall e | e in q.contexts ensures exists i :: 0 <= i < |log| && Sets(log[i], e, q.limit, q.contexts[e].deadline) { assert e in p.contexts; }
  }

  lemma ProcessTimes(p: Pump, event: PumpEvent)
    requires p.stack == []
    ensures KeepsTimes(p, ProcessEvent(p, event))
  {
    hide CancelExecution, CloseActive, KeepsTimes, BeginInspection;
    SameTimes(p);
    if event.DeliveryConflict? { ConflictTimes(p, event); } else { OtherEventTimes(p, event); }
  }

  lemma ConflictTimes(p: Pump, event: PumpEvent)
    requires p.stack == [] && event.DeliveryConflict?
    ensures KeepsTimes(p, ProcessEvent(p, event))
  {
    hide CancelExecution, CloseActive;
    CancelDeadlines(p);
    ShutDeadlines(p.(lastFence := Some((event.delivery.claimToken, event.delivery.attempt)), active := Some(event.delivery)));
  }

  lemma OtherEventTimes(p: Pump, event: PumpEvent)
    requires p.stack == [] && !event.DeliveryConflict?
    ensures KeepsTimes(p, ProcessEvent(p, event))
  {
    hide CancelExecution, CloseActive, BeginInspection;
    CancelDeadlines(p);
    CancelDeadlines(CloseActive(p, 1));
    ClosedDeadlines(p);
  }

  lemma ClosedDeadlines(p: Pump)
    ensures var q := CloseActive(p, 1);
      q.contexts.Keys == p.contexts.Keys && forall e :: e in p.contexts ==> q.contexts[e].deadline == p.contexts[e].deadline
  {}

  lemma RestTimes(p: Pump, step: Step)
    requires step.Tick? || step.Enter? || step.Expire? || step.ExitTree? || step.Replied?
    ensures KeepsTimes(p, Next(p, step))
  {
    hide CancelExecution, CloseActive, MayEnter, InCallback, NoInspectionPending;
    ShutDeadlines(p);
    CancelDeadlines(p);
    if step.Enter? && MayEnter(p, step.id, step.call) { EnterTimes(p, step.id, step.call); }
  }

  lemma EnterTimes(p: Pump, id: nat, call: Call)
    requires MayEnter(p, id, call)
    ensures KeepsTimes(p, Next(p, Enter(id, call)))
  {}

  lemma PumpTimes(p: Pump, point: PumpPoint, choice: Choice, log: seq<ClaimReading>, starts: set<Start>)
    requires Inv(p) && Timed(p, log, starts) && Top(p) == Some(PumpFrame(point))
    ensures Timed(StepPump(p, point, choice), log + ReadHere(p, Main(choice)),
                  starts + StartHere(p, Main(choice)))
  {
    PumpFrameAlone(p, point);
    hide StepPump, Timed, KeepsTimes, ContextsOk, ChannelOk, CallsOk, LogsOk, FramesOk;
    if point == Starting { StartingTimes(p, choice, log, starts); assert log + [] == log; }
    else if point == Clocked { ClockedTimes(p, choice, log, starts); assert starts + {} == starts; }
    else {
      assert log + [] == log && starts + {} == starts;
      if point == Bounded { BoundedTimes(p, choice, log, starts); }
      else { OtherPumpTimes(p, point, choice); TimesStay(p, StepPump(p, point, choice), log, starts); }
    }
  }

  lemma SameTimes(p: Pump)
    ensures KeepsTimes(p, p)
  {}

  lemma NextTimes(p: Pump, step: Step, log: seq<ClaimReading>, starts: set<Start>)
    requires Inv(p) && Timed(p, log, starts)
    ensures Timed(Next(p, step), log + ReadHere(p, step), starts + StartHere(p, step))
  {
    hide Inv, Timed, KeepsTimes, StepCall, StepPump, TakeItem, ProcessEvent, BeginInspection, CancelExecution, MayEnter, NoInspectionPending, InCallback;
    var q := Next(p, step);
    assert log + [] == log && starts + {} == starts;
    SameTimes(p);
    match step
    case Background(id, choice) =>
      if q != p { CallTimes(p, id, choice); }
      TimesStay(p, q, log, starts);
    case Main(choice) =>
      if Top(p).Some? && Top(p).value.PumpFrame? {
        PumpTimes(p, Top(p).value.point, choice, log, starts);
      } else {
        if q != p { CallTimes(p, Top(p).value.id, choice); }
        TimesStay(p, q, log, starts);
      }
    case Take(item) => if p.stack == [] && p.state == Idle { TakeTimes(p, item, log, starts); }
    case Process =>
      if p.stack == [] && p.events != [] {
        ProcessTimes(p.(events := p.events[1..]), p.events[0]);
        DroppedTimes(p, q);
        TimesStay(p, q, log, starts);
      }
    case _ =>
      RestTimes(p, step);
      TimesStay(p, q, log, starts);
  }

  lemma DroppedTimes(p: Pump, q: Pump)
    requires p.events != [] && KeepsTimes(p.(events := p.events[1..]), q)
    ensures KeepsTimes(p, q)
  {}

  lemma {:induction false} RunsTimed(limit: int, now: int, steps: seq<Step>)
    ensures Timed(Run(Initial(limit, now), steps), ClaimReadings(Initial(limit, now), steps), Starts(Initial(limit, now), steps))
    ensures Run(Initial(limit, now), steps).limit == limit
  {
    hide Next, Timed;
    if steps == [] {
      NoTimes(limit, now);
    } else {
      var front, step := steps[..|steps| - 1], steps[|steps| - 1];
      var p := Initial(limit, now);
      RunsTimed(limit, now, front);
      Reachable(limit, now, front);
      NextTimes(Run(p, front), step, ClaimReadings(p, front), Starts(p, front));
      LimitStays(Run(p, front), step);
    }
  }

  lemma NoTimes(limit: int, now: int)
    ensures Timed(Initial(limit, now), [], {})
  {}

  lemma LimitStays(p: Pump, step: Step)
    ensures Next(p, step).limit == p.limit
  {
    hide CancelExecution, CloseActive, ExpiredAt, MayEnter, InCallback, NoInspectionPending;
  }

  // ---------------------------------------------------------------- what the times mean

  /** The reading of this epoch, which is the only one of it, taken at or after its start. */
  ghost predicate ReadFor(log: seq<ClaimReading>, starts: set<Start>, e: nat, r: ClaimReading) {
    && r in log && r.epoch == e && Start(e, r.startedAt) in starts && r.startedAt <= r.readAt
    && forall other :: other in log && other.epoch == e ==> other == r
  }

  lemma OneReading(p: Pump, log: seq<ClaimReading>, starts: set<Start>, i: nat)
    requires ReadInOrder(p, log) && ReadingsOk(p, log, starts) && i < |log|
    ensures ReadFor(log, starts, log[i].epoch, log[i])
  {}

  lemma DeadlineRead(p: Pump, log: seq<ClaimReading>, starts: set<Start>, e: nat)
    requires Timed(p, log, starts) && e in p.contexts
    ensures exists r :: ReadFor(log, starts, e, r) && Sets(r, e, p.limit, p.contexts[e].deadline)
  {
    hide Sets, ReadFor;
    var i :| 0 <= i < |log| && Sets(log[i], e, p.limit, p.contexts[e].deadline);
    OneReading(p, log, starts, i);
    SetsEpoch(log[i], e, p.limit, p.contexts[e].deadline);
  }

  lemma SetsEpoch(r: ClaimReading, e: nat, limit: int, deadline: int)
    requires Sets(r, e, limit, deadline)
    ensures r.epoch == e && deadline - r.startedAt <= r.claim && deadline - r.startedAt <= limit && r.claim > 0 && limit > 0
  {}

  /** Over every interleaving: what a transaction last checked lies within the claim's time and the limit, counted from
      the start of its own epoch's execution, and so before the claim that was read runs out. */
  lemma TransactionsWithinClaim(limit: int, now: int, steps: seq<Step>, i: nat)
    requires i < |Run(Initial(limit, now), steps).begun|
    ensures var b := Run(Initial(limit, now), steps).begun[i];
      exists r :: ReadFor(ClaimReadings(Initial(limit, now), steps), Starts(Initial(limit, now), steps), b.epoch, r)
                  && b.checkedAt - r.startedAt < r.claim && b.checkedAt - r.startedAt < limit && b.checkedAt < r.readAt + r.claim
  {
    TransactionsBeginOnce(limit, now, steps);
    RunsTimed(limit, now, steps);
    hide Run, Timed, ClaimReadings, Starts, Sets, ReadFor;
    var p := Run(Initial(limit, now), steps);
    var log, starts := ClaimReadings(Initial(limit, now), steps), Starts(Initial(limit, now), steps);
    var e := p.begun[i].context;
    DeadlineRead(p, log, starts, e);
    var r :| ReadFor(log, starts, e, r) && Sets(r, e, limit, p.contexts[e].deadline);
    SetsEpoch(r, e, limit, p.contexts[e].deadline);
    ReadLater(log, starts, e, r);
  }

  lemma ReadLater(log: seq<ClaimReading>, starts: set<Start>, e: nat, r: ClaimReading)
    requires ReadFor(log, starts, e, r)
    ensures r.startedAt <= r.readAt
  {}

  /** A channel executes only a delivery whose claim had time left when it was read; an epoch whose claim or limit leaves
      none never gets a context, whatever happens. */
  lemma ExecutesWithTimeLeft(limit: int, now: int, steps: seq<Step>)
    ensures var p := Run(Initial(limit, now), steps);
      && (p.state == Executing ==>
            limit > 0 && exists r :: r in ClaimReadings(Initial(limit, now), steps) && r.epoch == p.activeEpoch && r.claim > 0)
      && (forall r :: r in ClaimReadings(Initial(limit, now), steps) && (r.claim <= 0 || limit <= 0) ==> r.epoch !in p.contexts)
  {
    RunsTimed(limit, now, steps);
    Reachable(limit, now, steps);
    hide Run, Timed, ClaimReadings, Starts, Sets, ReadFor, Inv;
    var p := Run(Initial(limit, now), steps);
    var log, starts := ClaimReadings(Initial(limit, now), steps), Starts(Initial(limit, now), steps);
    if p.state == Executing {
      OpenHere(p);
      DeadlineRead(p, log, starts, p.activeEpoch);
      var r :| ReadFor(log, starts, p.activeEpoch, r) && Sets(r, p.activeEpoch, limit, p.contexts[p.activeEpoch].deadline);
      SetsEpoch(r, p.activeEpoch, limit, p.contexts[p.activeEpoch].deadline);
      TheReading(log, starts, p.activeEpoch, r);
    }
    forall r | r in log && r.epoch in p.contexts ensures r.claim > 0 && limit > 0 {
      DeadlineRead(p, log, starts, r.epoch);
      var x :| ReadFor(log, starts, r.epoch, x) && Sets(x, r.epoch, limit, p.contexts[r.epoch].deadline);
      TheReading(log, starts, r.epoch, x);
      SetsEpoch(x, r.epoch, limit, p.contexts[r.epoch].deadline);
    }
  }

  lemma TheReading(log: seq<ClaimReading>, starts: set<Start>, e: nat, r: ClaimReading)
    requires ReadFor(log, starts, e, r)
    ensures r in log && r.epoch == e && forall other :: other in log && other.epoch == e ==> other == r
  {}

  /** The frame check inspects an executing delivery exactly when its time is up. */
  lemma ExpiresExactly(p: Pump)
    requires Inv(p) && p.state == Executing && p.stack == []
    ensures p.activeEpoch in p.contexts
    ensures var q := Next(p, Expire);
      if p.now >= p.contexts[p.activeEpoch].deadline
      then q.state == Inspecting && q.stack == [PumpFrame(InInspect)] && p.activeEpoch in q.contexts && q.contexts[p.activeEpoch].closed
      else q == p
  {
    hide ContextsOk, CallsOk, StackOk, LogsOk;
  }

  // ---------------------------------------------------------------- the authority was asked

  /** The context whose authority a step finds to fit. */
  function FoundToFit(p: Pump, step: Step): set<nat> {
    if step.Main? && step.choice == Rechecks(true) && Mover(p, step).Some? && p.calls[Mover(p, step).value].at.Rechecking?
       && p.calls[Mover(p, step).value].completion.None?
    then {p.calls[Mover(p, step).value].context} else {}
  }

  function Fitting(p: Pump, steps: seq<Step>): set<nat> {
    if steps == [] then {}
    else Fitting(p, steps[..|steps| - 1]) + FoundToFit(Run(p, steps[..|steps| - 1]), steps[|steps| - 1])
  }

  ghost predicate Asked(p: Pump, log: set<nat>) {
    && (forall id :: id in p.calls && (p.calls[id].at.Rechecked? || p.calls[id].at.Ready?) ==> p.calls[id].context in log)
    && (forall i :: 0 <= i < |p.begun| ==> p.begun[i].context in log)
  }

  /** What a step of a call adds to what must have been asked. */
  ghost predicate AsksFirst(p: Pump, q: Pump, id: nat, choice: Choice)
    requires id in p.calls
  {
    && (forall other :: other in q.calls && other != id ==> other in p.calls && q.calls[other] == p.calls[other])
    && (id in q.calls ==> q.calls[id].context == p.calls[id].context)
    && (id in q.calls && q.calls[id].at.Rechecked? ==>
          p.calls[id].main && p.calls[id].at.Rechecking? && choice == Rechecks(true) && p.calls[id].completion.None?)
    && (id in q.calls && q.calls[id].at.Ready? ==> p.calls[id].at.Rechecked?)
    && (q.begun == p.begun || (p.calls[id].main && p.calls[id].at.Ready? && exists b: Begun :: q.begun == p.begun + [b] && b.context == p.calls[id].context))
  }

  /** The part of it that the shape of a call's step leaves open. */
  ghost predicate AsksHere(p: Pump, q: Pump, id: nat, choice: Choice)
    requires id in p.calls
  {
    && (id in q.calls && q.calls[id].at.Rechecked? ==>
          p.calls[id].main && p.calls[id].at.Rechecking? && choice == Rechecks(true) && p.calls[id].completion.None?)
    && (id in q.calls && q.calls[id].at.Ready? ==> p.calls[id].at.Rechecked?)
    && (q.begun == p.begun || (p.calls[id].main && p.calls[id].at.Ready? && exists b: Begun :: q.begun == p.begun + [b] && b.context == p.calls[id].context))
  }

  lemma ShapeAsks(p: Pump, q: Pump, id: nat, choice: Choice)
    requires id in p.calls && CallShape(p, q, id) && AsksHere(p, q, id, choice)
    ensures AsksFirst(p, q, id, choice)
  {}

  lemma CallAsks(p: Pump, id: nat, choice: Choice)
    requires Inv(p) && CanStep(p, id)
    ensures AsksFirst(p, StepCall(p, id, choice), id, choice)
  {
    Here(p, id);
    CallHasShape(p, id, choice);
    hide Inv, StepCommit, StepComplete, EventOk, HoldOk, CommitOk, MainOk, AsksFirst, AsksHere, CallShape;
    var c := p.calls[id];
    if c.at.Entered? || c.at.TokenChecked? || c.at.Claimed? || c.at.Enqueueing? { EarlyAsks(p, id, choice); }
    else if c.completion.Some? { CompleteAsks(p, id, choice); }
    else { MainAtCheck(p, id); CommitAsks(p, id, choice); }
    ShapeAsks(p, StepCall(p, id, choice), id, choice);
  }

  lemma MainAtCheck(p: Pump, id: nat)
    requires Inv(p) && id in p.calls && p.calls[id].completion.None?
    ensures CommitPoint(p.calls[id].main, p.calls[id].at)
  {
    Here(p, id);
    hide ContextsOk, ChannelOk, StackOk, LogsOk, CallsOk;
  }

  lemma EarlyAsks(p: Pump, id: nat, choice: Choice)
    requires CanStep(p, id)
    requires p.calls[id].at.Entered? || p.calls[id].at.TokenChecked? || p.calls[id].at.Claimed? || p.calls[id].at.Enqueueing?
    ensures AsksHere(p, StepCall(p, id, choice), id, choice)
  {
    hide StepCommit, StepComplete, Pop;
  }

  lemma CompleteAsks(p: Pump, id: nat, choice: Choice)
    requires CanStep(p, id) && p.calls[id].completion.Some? && CompletePoint(p.calls[id].at)
    ensures AsksHere(p, StepComplete(p, id, choice), id, choice)
  {
    hide ExpiredAt, Pop;
  }

  lemma CommitAsks(p: Pump, id: nat, choice: Choice)
    requires CanStep(p, id) && p.calls[id].completion.None? && CommitPoint(p.calls[id].main, p.calls[id].at)
    requires !p.calls[id].at.Enqueueing?
    ensures AsksHere(p, StepCommit(p, id, choice), id, choice)
  {
    hide ExpiredAt, Pop;
    var c := p.calls[id];
    if c.at.Ready? && p.state == Executing {
      assert StepCommit(p, id, choice).begun == p.begun + [Begun(c.context, c.at.epoch, c.at.checkedAt)];
    }
  }

  lemma AskedStays(p: Pump, q: Pump, id: nat, choice: Choice, log: set<nat>, more: set<nat>)
    requires Asked(p, log) && id in p.calls && AsksFirst(p, q, id, choice)
    requires p.calls[id].main && p.calls[id].at.Rechecking? && choice == Rechecks(true) && p.calls[id].completion.None? ==> p.calls[id].context in more
    ensures Asked(q, log + more)
  {}

  /** Other steps begin nothing and move no call, except that a new one starts. */
  lemma OtherAsks(p: Pump, q: Pump, log: set<nat>)
    requires Asked(p, log) && q.begun == p.begun
    requires forall id :: id in q.calls ==> q.calls[id].at == Entered || (id in p.calls && q.calls[id] == p.calls[id])
    ensures Asked(q, log)
  {}

  lemma PumpAsks(p: Pump, point: PumpPoint, choice: Choice)
    ensures StepPump(p, point, choice).calls == p.calls && StepPump(p, point, choice).begun == p.begun
  {
    hide CancelExecution, CloseActive, Pop;
  }

  lemma RestAsks(p: Pump, step: Step)
    requires !step.Background? && !step.Main?
    ensures var q := Next(p, step);
      q.begun == p.begun && forall id :: id in q.calls ==> q.calls[id].at == Entered || (id in p.calls && q.calls[id] == p.calls[id])
  {
    hide CancelExecution, CloseActive, InCallback, NoInspectionPending, ExpiredAt;
  }

  lemma NextAsks(p: Pump, step: Step, log: set<nat>)
    requires Inv(p) && Asked(p, log)
    ensures Asked(Next(p, step), log + FoundToFit(p, step))
  {
    hide Inv, Asked, AsksFirst, StepCall, StepPump, TakeItem, ProcessEvent, BeginInspection, CancelExecution, MayEnter, NoInspectionPending, InCallback;
    var q := Next(p, step);
    assert log + {} == log;
    if Mover(p, step).Some? {
      var id := Mover(p, step).value;
      CallAsks(p, id, step.choice);
      AskedStays(p, q, id, step.choice, log, FoundToFit(p, step));
    } else {
      if step.Main? && Top(p).Some? && Top(p).value.PumpFrame? { PumpAsks(p, Top(p).value.point, step.choice); }
      else if !step.Main? && !step.Background? { RestAsks(p, step); }
      OtherAsks(p, q, log);
    }
  }

  lemma {:induction false} RunsAsk(limit: int, now: int, steps: seq<Step>)
    ensures Asked(Run(Initial(limit, now), steps), Fitting(Initial(limit, now), steps))
  {
    hide Next, Asked;
    if steps == [] {
      NothingAsked(limit, now);
    } else {
      var front, p := steps[..|steps| - 1], Initial(limit, now);
      RunsAsk(limit, now, front);
      Reachable(limit, now, front);
      NextAsks(Run(p, front), steps[|steps| - 1], Fitting(p, front));
    }
  }

  lemma NothingAsked(limit: int, now: int)
    ensures Asked(Initial(limit, now), {})
  {}

  /** Every transaction begins in a step of the main thread, after the adapter found the expected authority to fit in a
      step of the same context's call. */
  lemma TransactionsAskFirst(limit: int, now: int, steps: seq<Step>, step: Step)
    ensures var p := Run(Initial(limit, now), steps);
      && (forall i :: 0 <= i < |p.begun| ==> p.begun[i].context in Fitting(Initial(limit, now), steps))
      && (Next(p, step).begun != p.begun ==> step.Main?)
  {
    RunsAsk(limit, now, steps);
    Reachable(limit, now, steps);
    hide Run, Fitting, Inv, Next, AsksFirst;
    BeginsOnMain(Run(Initial(limit, now), steps), step);
  }

  lemma BeginsOnMain(p: Pump, step: Step)
    requires Inv(p)
    ensures Next(p, step).begun != p.begun ==> step.Main?
  {
    hide Inv, StepCall, StepPump, TakeItem, ProcessEvent, BeginInspection, CancelExecution, MayEnter, NoInspectionPending, InCallback;
    if Mover(p, step).Some? { CallAsks(p, Mover(p, step).value, step.choice); }
    else if !step.Main? && !step.Background? { RestAsks(p, step); }
  }

  // ---------------------------------------------------------------- what a reply leads to

  /** The request told the runtime whether the action happened. */
  predicate Definite(r: Request) {
    match r
    case SendReceipt(a, _) => a.completion.outcome == Succeeded || a.completion.outcome == Rejected
    case SendReconcile(_, _, resolution) => resolution == Applied || resolution == NotApplied
  }

  /** The runtime's reply to the active request ends the delivery exactly when it had settled already or accepts a definite
      answer; a conflict about the same operation is inspected once for each claim, and everything else halts. */
  lemma RepliesDecide(p: Pump, i: nat, reply: Reply)
    requires Delivering(p) && p.stack == [] && p.events == []
    requires i < |p.requests| && i !in p.answered && EpochOfRequest(p.requests[i]) == p.activeEpoch
    ensures var q := Next(Next(p, Replied(i, reply)), Process);
      var again := reply.Conflicts? && reply.delivery.operationId == p.requests[i].delivery.operationId
                   && p.lastFence != Some((reply.delivery.claimToken, reply.delivery.attempt));
      && (q.state == Idle <==> reply == Settled || (reply == Accepted && Definite(p.requests[i])))
      && (q.state == Inspecting <==> again) && (again ==> q.active == Some(reply.delivery))
      && (q.state == Idle || q.state == Inspecting || q.state == Halted)
  {
    hide CancelExecution, CloseActive;
    var event := EventOfReply(p.requests[i], reply);
    var r := Next(p, Replied(i, reply));
    assert r.events == [event] && r.events[1..] == [];
    ReplyMeans(p.requests[i], reply);
    hide EventOfReply, Definite;
    assert Next(r, Process) == ProcessEvent(r.(events := []), event);
  }

  lemma ReplyMeans(r: Request, reply: Reply)
    ensures var e := EventOfReply(r, reply);
      && EpochOf(e) == EpochOfRequest(r) && !e.ExecutionUncertain? && !e.ExecutionCompleted?
      && (e.DeliverySucceeded? <==> reply == Settled || (reply == Accepted && Definite(r)))
      && (e.DeliveryConflict? <==> reply.Conflicts? && reply.delivery.operationId == r.delivery.operationId)
      && (e.DeliveryConflict? ==> e.delivery == reply.delivery)
  {}

  /** What the adapter finds out is what is sent, for the delivery that is active. */
  lemma InspectionReports(p: Pump, resolution: Resolution)
    requires p.stack == [PumpFrame(InInspect)] && p.active.Some?
    ensures var q := Next(p, Main(Inspects(resolution)));
      q.state == Reconciling && q.requests == p.requests + [SendReconcile(p.activeEpoch, p.active.value, resolution)]
  {}

  // ---------------------------------------------------------------- what is executed at all

  /** Whatever is started or was started is a dispatch; work to be reconciled is inspected instead. */
  ghost predicate DispatchesOnly(p: Pump) {
    && (Unread(p) || Bounds(p) ==> p.active.Some? && p.active.value.kind == Dispatch)
    && (forall e :: e in p.contexts ==> p.contexts[e].delivery.kind == Dispatch)
  }

  ghost predicate KeepsDeliveries(p: Pump, q: Pump) {
    && (Unread(q) || Bounds(q) ==> (Unread(p) || Bounds(p)) && q.active == p.active)
    && (forall e :: e in q.contexts ==> e in p.contexts && q.contexts[e].delivery == p.contexts[e].delivery)
  }

  lemma DeliveriesStay(p: Pump, q: Pump)
    requires DispatchesOnly(p) && KeepsDeliveries(p, q)
    ensures DispatchesOnly(q)
  {}

  lemma ShutDeliveries(p: Pump)
    ensures var q := CancelExecution(CloseActive(p, 0));
      && q == p.(cancellation := None, contexts := q.contexts)
      && forall e :: e in q.contexts ==> e in p.contexts && q.contexts[e].delivery == p.contexts[e].delivery
  {}

  lemma CancelDeliveries(p: Pump)
    ensures var q := CancelExecution(p);
      forall e :: e in q.contexts ==> e in p.contexts && q.contexts[e].delivery == p.contexts[e].delivery
  {}

  lemma ClosedDeliveries(p: Pump)
    ensures var q := CloseActive(p, 1);
      forall e :: e in q.contexts ==> e in p.contexts && q.contexts[e].delivery == p.contexts[e].delivery
  {}

  lemma TakesDispatch(p: Pump, item: Item)
    requires DispatchesOnly(p) && p.stack == []
    ensures DispatchesOnly(TakeItem(p, item))
    ensures item.Valid? && item.delivery.kind == Reconcile ==>
              TakeItem(p, item).state == Inspecting && TakeItem(p, item).stack == [PumpFrame(InInspect)]
  {
    hide CancelExecution, CloseActive;
    CancelDeliveries(p);
    if item.Valid? { ShutDeliveries(p.(active := Some(item.delivery), lastFence := None, activeEpoch := p.activeEpoch + 1)); }
  }

  lemma StartsDispatch(p: Pump, point: PumpPoint, choice: Choice)
    requires DispatchesOnly(p) && p.stack == [PumpFrame(point)] && (point == Starting || point == Clocked || point == Bounded)
    ensures DispatchesOnly(StepPump(p, point, choice))
  {
    hide CancelExecution, CloseActive;
    if point == Clocked {
      var remaining := if choice.Remaining? then choice.claim else 0;
      ShutDeliveries(Pop(p).(duration := if remaining < p.limit then remaining else p.limit));
    }
  }

  lemma OtherDeliveries(p: Pump, point: PumpPoint, choice: Choice)
    requires p.stack == [PumpFrame(point)] && point != Starting && point != Clocked && point != Bounded
    ensures KeepsDeliveries(p, StepPump(p, point, choice))
  {
    hide CancelExecution, CloseActive;
    ShutDeliveries(Pop(p));
    CancelDeliveries(Pop(p));
  }

  lemma EventDeliveries(p: Pump, event: PumpEvent)
    requires p.stack == []
    ensures KeepsDeliveries(p, ProcessEvent(p, event))
  {
    hide CancelExecution, CloseActive;
    CancelDeliveries(p);
    CancelDeliveries(CloseActive(p, 1));
    ClosedDeliveries(p);
    if event.DeliveryConflict? {
      ShutDeliveries(p.(lastFence := Some((event.delivery.claimToken, event.delivery.attempt)), active := Some(event.delivery)));
    }
  }

  lemma RestDeliveries(p: Pump, step: Step)
    requires step.Tick? || step.Enter? || step.Expire? || step.ExitTree? || step.Replied?
    ensures KeepsDeliveries(p, Next(p, step))
  {
    hide CancelExecution, CloseActive, InCallback, NoInspectionPending;
    ShutDeliveries(p);
    CancelDeliveries(p);
  }

  lemma CallDeliveries(p: Pump, id: nat, choice: Choice)
    requires Inv(p) && CanStep(p, id)
    ensures KeepsDeliveries(p, StepCall(p, id, choice))
  {
    CallTimes(p, id, choice);
    CallEffect(p, id, choice);
    CallActive(p, id, choice);
    hide Inv, StepCall;
  }

  lemma CallActive(p: Pump, id: nat, choice: Choice)
    requires CanStep(p, id)
    ensures StepCall(p, id, choice).active == p.active
  {
    hide ExpiredAt, Pop;
  }

  lemma NextDispatches(p: Pump, step: Step)
    requires Inv(p) && DispatchesOnly(p)
    ensures DispatchesOnly(Next(p, step))
  {
    hide Inv, DispatchesOnly, KeepsDeliveries, StepCall, StepPump, TakeItem, ProcessEvent, BeginInspection, CancelExecution, MayEnter, NoInspectionPending, InCallback;
    var q := Next(p, step);
    match step
    case Background(id, choice) => if q != p { CallDeliveries(p, id, choice); DeliveriesStay(p, q); }
    case Main(choice) =>
      if Top(p).Some? && Top(p).value.PumpFrame? {
        var point := Top(p).value.point;
        PumpFrameAlone(p, point);
        if point == Starting || point == Clocked || point == Bounded { StartsDispatch(p, point, choice); }
        else { OtherDeliveries(p, point, choice); DeliveriesStay(p, q); }
      } else if q != p {
        CallDeliveries(p, Top(p).value.id, choice);
        DeliveriesStay(p, q);
      }
    case Take(item) => if p.stack == [] && p.state == Idle { TakesDispatch(p, item); }
    case Process =>
      if p.stack == [] && p.events != [] {
        EventDeliveries(p.(events := p.events[1..]), p.events[0]);
        DroppedDeliveries(p, q);
        DeliveriesStay(p, q);
      }
    case _ =>
      RestDeliveries(p, step);
      DeliveriesStay(p, q);
  }

  lemma DroppedDeliveries(p: Pump, q: Pump)
    requires p.events != [] && KeepsDeliveries(p.(events := p.events[1..]), q)
    ensures KeepsDeliveries(p, q)
  {}

  /** Over every interleaving only dispatched deliveries are executed. */
  lemma {:induction false} ExecutesDispatchesOnly(limit: int, now: int, steps: seq<Step>)
    ensures DispatchesOnly(Run(Initial(limit, now), steps))
  {
    hide Next, DispatchesOnly;
    if steps == [] {
      NothingExecuted(limit, now);
    } else {
      var front := steps[..|steps| - 1];
      ExecutesDispatchesOnly(limit, now, front);
      Reachable(limit, now, front);
      NextDispatches(Run(Initial(limit, now), front), steps[|steps| - 1]);
    }
  }

  lemma NothingExecuted(limit: int, now: int)
    ensures DispatchesOnly(Initial(limit, now))
  {}

  /** Work that ended without an answer is inspected: a transaction that returned none, or an adapter that threw. */
  lemma UncertainIsInspected(p: Pump, choice: Choice)
    requires Inv(p) && p.stack == []
    ensures p.state == InspectionQueued && p.events != [] && p.events[0] == ExecutionUncertain(p.activeEpoch) ==>
              var q := Next(Next(p, Process), Main(choice)); q.state == Inspecting && q.stack == [PumpFrame(InInspect)]
    ensures forall m: Pump :: m == p.(stack := [PumpFrame(InExecute)]) && p.state == Executing ==>
              var q := Next(Next(m, Main(Throws)), Main(choice)); q.state == Inspecting && q.stack == [PumpFrame(InInspect)]
  {
    hide CancelExecution, CloseActive, Inv;
  }
}
