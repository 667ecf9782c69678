/** What every run of the pump guarantees about world transactions and receipts. */
module GodotPumpRuns {
  import opened Wrappers
  import opened GodotPump
  import opened GodotPumpInvariant
  import opened GodotPumpSteps

  // ---------------------------------------------------------------- one step's effect on the contexts

  /** This step begins a world transaction of context e. */
  ghost predicate Begins(p: Pump, q: Pump, e: nat) {
    exists b: Begun :: b.context == e && q.begun == p.begun + [b]
  }

  ghost predicate Keeps(p: Pump, q: Pump) {
    && Grows(p, q) && q.begun == p.begun
    && forall e :: e in q.contexts ==> q.contexts[e].starts == StartsOf(p, e)
  }

  function StartsOf(p: Pump, e: nat): nat {
    if e in p.contexts then p.contexts[e].starts else 0
  }

  /** The step begins the transaction of the active epoch, while its channel executes and before any receipt. */
  ghost predicate BeginsActive(p: Pump, q: Pump) {
    && p.state == Executing && q.state == Committing && p.activeEpoch in p.contexts
    && !p.contexts[p.activeEpoch].closed && p.contexts[p.activeEpoch].starts == 0
    && Grows(p, q) && Begins(p, q, p.activeEpoch)
    && forall e :: e in q.contexts && e != p.activeEpoch ==> q.contexts[e].starts == StartsOf(p, e)
  }

  lemma TouchKeeps(p: Pump, q: Pump, e: nat, y: Context)
    requires e in p.contexts && q.contexts == p.contexts[e := y] && ContextGrows(p.contexts[e], y) && y.starts == p.contexts[e].starts
    requires q.begun == p.begun
    ensures Keeps(p, q)
  {}

  lemma SameKeeps(p: Pump, q: Pump)
    requires q.contexts == p.contexts && q.begun == p.begun
    ensures Keeps(p, q)
  {}

  lemma CommitEffect(p: Pump, id: nat, choice: Choice)
    requires Inv(p) && CanStep(p, id) && p.calls[id].completion.None?
    ensures var q := StepCommit(p, id, choice); Keeps(p, q) || BeginsActive(p, q)
  {
    hide Inv, Keeps, BeginsActive;
    Here(p, id);
    var c := p.calls[id];
    ContextHere(p, c.context);
    var q := StepCommit(p, id, choice);
    if c.at.Ready? && p.state == Executing { BeginEffect(p, id, choice); }
    else if c.at.Running? && choice.Transacts? && choice.completion.Some? {
      TouchKeeps(p, q, c.context, p.contexts[c.context].(returned := choice.completion));
    } else if c.at.Refused? {
      TouchKeeps(p, q, c.context, p.contexts[c.context].(completed := false));
    } else { SameKeeps(p, q); }
  }

  lemma BeginEffect(p: Pump, id: nat, choice: Choice)
    requires Inv(p) && CanStep(p, id) && p.calls[id].completion.None? && p.calls[id].at.Ready? && p.state == Executing
    ensures BeginsActive(p, StepCommit(p, id, choice))
  {
    BeginsLocal(p, id, choice);
    Here(p, id);
    OpenHere(p);
    hide Inv, Grows;
    var c := p.calls[id];
    var q := StepCommit(p, id, choice);
    assert q.begun == p.begun + [Begun(c.context, c.at.epoch, c.at.checkedAt)];
  }

  lemma OpenHere(p: Pump)
    requires Inv(p) && Open(p.state)
    ensures p.activeEpoch in p.contexts && !p.contexts[p.activeEpoch].closed
  {
    hide CallsOk, ContextsOk, StackOk, LogsOk;
  }

  lemma CallEffect(p: Pump, id: nat, choice: Choice)
    requires Inv(p) && CanStep(p, id)
    ensures var q := StepCall(p, id, choice); Keeps(p, q) || BeginsActive(p, q)
  {
    hide Inv, Keeps, BeginsActive, StepCommit;
    var c := p.calls[id];
    var q := StepCall(p, id, choice);
    ContextHere(p, c.context);
    if c.at.TokenChecked? {
      if !p.contexts[c.context].completed {
        TouchKeeps(p, q, c.context, p.contexts[c.context].(completed := true, owner := id, noWrite := c.completion.Some?));
      } else { SameKeeps(p, q); }
    } else if c.at.Entered? || c.at.Claimed? || c.at.Enqueueing? || c.completion.Some? { SameKeeps(p, q); }
    else { CommitEffect(p, id, choice); }
  }

  lemma CancelEffect(p: Pump, q: Pump)
    requires q.contexts == CancelExecution(p).contexts && q.begun == p.begun
    ensures Keeps(p, q)
  {}

  lemma ShutEffect(p: Pump, q: Pump, receipts: nat)
    requires q.contexts == CancelExecution(CloseActive(p, receipts)).contexts && q.begun == p.begun
    ensures Keeps(p, q)
  {
    var m := CloseActive(p, receipts);
    assert Keeps(p, m);
    CancelEffect(m, q);
  }

  lemma PumpEffect(p: Pump, point: PumpPoint, choice: Choice)
    requires Inv(p) && Top(p) == Some(PumpFrame(point))
    ensures Keeps(p, StepPump(p, point, choice))
  {
    var q := StepPump(p, point, choice);
    if point == Bounded {
      StartUp(p);
      NewContextGrows(p, q);
    } else {
      hide Inv, Keeps, CancelExecution, CloseActive;
      if q.contexts == p.contexts { SameKeeps(p, q); }
      else if point == InInspect { CancelEffect(Pop(p), q); SamePop(p, q); }
      else if point == InSignal { ShutEffect(Pop(p), q, 0); SamePop(p, q); }
      else { ClockedEffect(p, choice); }
    }
  }

  lemma SamePop(p: Pump, q: Pump)
    requires Keeps(Pop(p), q)
    ensures Keeps(p, q)
  {}

  lemma ClockedEffect(p: Pump, choice: Choice)
    requires StepPump(p, Clocked, choice).contexts != p.contexts
    ensures Keeps(p, StepPump(p, Clocked, choice))
  {
    hide CancelExecution, CloseActive;
    var remaining := if choice.Remaining? then choice.claim else 0;
    ShutEffect(Pop(p).(duration := if remaining < p.limit then remaining else p.limit), StepPump(p, Clocked, choice), 0);
  }

  lemma TakeEffect(p: Pump, item: Item)
    ensures Keeps(p, TakeItem(p, item))
  {
    hide Keeps, CancelExecution, CloseActive;
    var q := TakeItem(p, item);
    if q.contexts == p.contexts { SameKeeps(p, q); }
    else if !item.Valid? { CancelEffect(p, q); }
    else {
      var m := p.(active := Some(item.delivery), lastFence := None, activeEpoch := p.activeEpoch + 1);
      ShutEffect(m, q, 0);
      SameContexts(p, m, q);
    }
  }

  lemma SameContexts(p: Pump, m: Pump, q: Pump)
    requires Keeps(m, q) && m.contexts == p.contexts && m.begun == p.begun
    ensures Keeps(p, q)
  {}

  lemma ProcessEffect(p: Pump, event: PumpEvent)
    ensures Keeps(p, ProcessEvent(p, event))
  {
    hide Keeps, CancelExecution, CloseActive;
    var q := ProcessEvent(p, event);
    if q.contexts == p.contexts && q.begun == p.begun { SameKeeps(p, q); }
    else if event.ExecutionCompleted? { ShutEffect(p, q, 1); }
    else if event.DeliveryConflict? && p.lastFence != Some((event.delivery.claimToken, event.delivery.attempt)) {
      var m := p.(lastFence := Some((event.delivery.claimToken, event.delivery.attempt)), active := Some(event.delivery));
      ShutEffect(m, q, 0);
      SameContexts(p, m, q);
    } else { CancelEffect(p, q); }
  }

  /** Every step keeps each context's history; only one kind of step begins a transaction. */
  lemma NextEffect(p: Pump, step: Step)
    requires Inv(p)
    ensures Keeps(p, Next(p, step)) || BeginsActive(p, Next(p, step))
  {
    hide Inv, Keeps, BeginsActive, TakeItem, ProcessEvent, CancelExecution, CloseActive, StepCall, StepPump, NoInspectionPending, InCallback, MayEnter;
    var q := Next(p, step);
    match step
    case Background(id, choice) => if q != p { CallEffect(p, id, choice); } else { SameKeeps(p, q); }
    case Main(choice) =>
      if q == p { SameKeeps(p, q); }
      else if Top(p).value.PumpFrame? { PumpEffect(p, Top(p).value.point, choice); }
      else { CallEffect(p, Top(p).value.id, choice); }
    case Take(item) => if q == p { SameKeeps(p, q); } else { TakeEffect(p, item); }
    case Process =>
      if q == p { SameKeeps(p, q); }
      else { ProcessEffect(p.(events := p.events[1..]), p.events[0]); SameContexts(p, p.(events := p.events[1..]), q); }
    case Expire => if q == p { SameKeeps(p, q); } else { ShutEffect(p, q, 0); }
    case ExitTree => if q == p { SameKeeps(p, q); } else { CancelEffect(p, q); }
    case _ => SameKeeps(p, q);
  }

  // ---------------------------------------------------------------- whole runs

  ghost predicate Logged(p: Pump, e: nat) {
    exists i :: 0 <= i < |p.begun| && p.begun[i].context == e
  }

  /** The log of begun transactions misses none. */
  ghost predicate StartsLogged(p: Pump) {
    forall e :: e in p.contexts && p.contexts[e].starts >= 1 ==> Logged(p, e)
  }

  lemma NextLogs(p: Pump, step: Step)
    requires Inv(p) && StartsLogged(p)
    ensures StartsLogged(Next(p, step))
  {
    var q := Next(p, step);
    NextEffect(p, step);
    hide Inv, Next, Grows;
    if BeginsActive(p, q) {
      var b: Begun :| b.context == p.activeEpoch && q.begun == p.begun + [b];
      assert q.begun[|p.begun|] == b;
      forall e | e in q.contexts && q.contexts[e].starts >= 1 ensures Logged(q, e) {
        if e != p.activeEpoch {
          assert Logged(p, e);
          var i :| 0 <= i < |p.begun| && p.begun[i].context == e;
          assert q.begun[i] == p.begun[i];
        }
      }
    } else {
      forall e | e in q.contexts && q.contexts[e].starts >= 1 ensures Logged(q, e) { assert Logged(p, e); }
    }
  }

  lemma {:induction false} Reachable(limit: int, now: int, steps: seq<Step>)
    ensures Inv(Run(Initial(limit, now), steps)) && StartsLogged(Run(Initial(limit, now), steps))
  {
    if steps == [] {
      InitialInv(limit, now);
    } else {
      hide Inv, Next, StartsLogged;
      var front := steps[..|steps| - 1];
      Reachable(limit, now, front);
      NextKeepsInv(Run(Initial(limit, now), front), steps[|steps| - 1]);
      NextLogs(Run(Initial(limit, now), front), steps[|steps| - 1]);
    }
  }

  /** Over every interleaving, each context begins its world transaction at most once, for its own epoch, and last
      checked before that epoch's deadline. */
  lemma TransactionsBeginOnce(limit: int, now: int, steps: seq<Step>)
    ensures var p := Run(Initial(limit, now), steps);
      && (forall i, j :: 0 <= i < j < |p.begun| ==> p.begun[i].context != p.begun[j].context)
      && (forall i :: 0 <= i < |p.begun| ==>
            p.begun[i].epoch == p.begun[i].context && p.begun[i].context in p.contexts
            && p.begun[i].checkedAt < p.contexts[p.begun[i].context].deadline)
  {
    Reachable(limit, now, steps);
    hide Run, ContextsOk, ChannelOk, CallsOk, StackOk, EventsOk, RequestsOk;
    var p := Run(Initial(limit, now), steps);
    forall i | 0 <= i < |p.begun|
      ensures p.begun[i].epoch == p.begun[i].context && p.begun[i].context in p.contexts
              && p.begun[i].checkedAt < p.contexts[p.begun[i].context].deadline
    {
      assert BegunOk(p, p.begun[i]);
    }
  }

  /** A transaction begins only from the executing state of its own epoch, before that epoch's receipt or inspection. */
  lemma TransactionsBeginWhileExecuting(limit: int, now: int, steps: seq<Step>, step: Step)
    ensures var p := Run(Initial(limit, now), steps);
      Next(p, step).begun != p.begun ==> BeginsActive(p, Next(p, step))
  {
    Reachable(limit, now, steps);
    hide Run, Inv, Next, BeginsActive;
    NextEffect(Run(Initial(limit, now), steps), step);
  }

  /** Once a receipt or an inspection of an epoch has begun, its context never begins a transaction again. */
  lemma {:induction false} NothingBeginsOnceClosed(p: Pump, e: nat, more: seq<Step>)
    requires Inv(p) && e in p.contexts && p.contexts[e].closed
    ensures var q := Run(p, more);
      e in q.contexts && q.contexts[e].closed && q.contexts[e].starts == p.contexts[e].starts
  {
    if more != [] {
      var front := more[..|more| - 1];
      NothingBeginsOnceClosed(p, e, front);
      RunKeepsInv(p, front);
      NextEffect(Run(p, front), more[|more| - 1]);
      hide Inv, Next;
      assert ContextGrows(Run(p, front).contexts[e], Run(p, more).contexts[e]);
    }
  }

  lemma ReceiptHere(p: Pump, i: nat)
    requires Inv(p) && i < |p.requests|
    ensures RequestOk(p, p.requests[i])
  {
    hide ContextsOk, ChannelOk, CallsOk, StackOk, EventsOk, BegunLogOk, RequestOk;
  }

  /** A Succeeded receipt is sent only for a delivery whose own transaction began and returned that completion. */
  lemma SucceededMeansRan(limit: int, now: int, steps: seq<Step>, i: nat)
    requires var p := Run(Initial(limit, now), steps);
      i < |p.requests| && p.requests[i].SendReceipt? && p.requests[i].answer.completion.outcome == Succeeded
    ensures var p := Run(Initial(limit, now), steps); var r := p.requests[i];
      && r.answer.epoch in p.contexts && p.contexts[r.answer.epoch].delivery == r.delivery
      && Logged(p, r.answer.epoch) && p.contexts[r.answer.epoch].returned == Some(r.answer.completion)
  {
    Reachable(limit, now, steps);
    var p := Run(Initial(limit, now), steps);
    hide Run;
    ReceiptHere(p, i);
    ContextHere(p, p.requests[i].answer.epoch);
    hide Inv;
  }

  /** Each epoch sends at most one receipt, for the delivery it executed, and no transaction of it begins afterwards. */
  lemma OneReceiptPerEpoch(limit: int, now: int, steps: seq<Step>, more: seq<Step>, i: nat)
    requires i < |Run(Initial(limit, now), steps).requests| && Run(Initial(limit, now), steps).requests[i].SendReceipt?
    ensures var p := Run(Initial(limit, now), steps); var r := p.requests[i]; var q := Run(p, more);
      && r.answer.epoch in p.contexts && p.contexts[r.answer.epoch].delivery == r.delivery
      && (forall j :: 0 <= j < |p.requests| && j != i && p.requests[j].SendReceipt? ==> p.requests[j].answer.epoch != r.answer.epoch)
      && r.answer.epoch in q.contexts && q.contexts[r.answer.epoch].starts == p.contexts[r.answer.epoch].starts
  {
    Reachable(limit, now, steps);
    var p := Run(Initial(limit, now), steps);
    hide Run;
    ReceiptHere(p, i);
    ContextHere(p, p.requests[i].answer.epoch);
    NothingBeginsOnceClosed(p, p.requests[i].answer.epoch, more);
    hide ContextsOk, ChannelOk, CallsOk, StackOk, EventsOk, BegunLogOk, RequestOk;
  }
}
