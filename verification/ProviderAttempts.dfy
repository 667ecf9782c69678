/** The lifecycle of provider attempts: interleaved calls on attempts, replies of the provenance sink, and the host's
    response callback. */
module ProviderAttempts {
  import opened Wrappers

  /** Blocked is the program's committing state when preparing the request threw before the sink was called, so that no
      reply will come. */
  datatype AttemptState = Draft | Committing | Blocked | Committed | Settling | Settled | Discarded | Failed

  /** An attempt with the settle calls that are inside the host's response callback and those that await the sink. */
  datatype Attempt = Attempt(index: nat, state: AttemptState, recorded: bool, inCallback: nat, awaiting: nat)

  /** What reached the sink. */
  datatype Entry = RequestSent(index: nat) | ResponseSent(index: nat) | SinkFailed

  datatype Lifecycle = Lifecycle(
    hasSink: bool, current: Option<nat>, committedCount: nat, provenanceFailed: bool, attempts: seq<Attempt>,
    committed: seq<nat>, log: seq<Entry>)

  function Initial(hasSink: bool): Lifecycle {
    Lifecycle(hasSink, None, 0, false, [], [], [])
  }

  datatype Step =
    | Begin
    | Discard(id: nat)
    | Commit(id: nat, prepared: bool)
    | RequestReply(id: nat, ok: bool)
    | Settle(id: nat)
    | CallbackReturns(id: nat, threw: bool)
    | ResponseReply(id: nat, ok: bool)

  function Put(l: Lifecycle, id: nat, a: Attempt): Lifecycle
    requires id < |l.attempts|
  {
    l.(attempts := l.attempts[id := a])
  }

  predicate Open(l: Lifecycle, id: nat, state: AttemptState) {
    id < |l.attempts| && l.attempts[id].state == state && l.current == Some(id)
  }

  /** closeAfterProvenanceFailure, with the attempt failed. */
  function Close(l: Lifecycle, id: nat): Lifecycle
    requires id < |l.attempts|
  {
    Put(l, id, l.attempts[id].(state := Failed)).(current := None, provenanceFailed := true, log := l.log + [SinkFailed])
  }

  function MarkCommitted(l: Lifecycle, id: nat, recorded: bool): Lifecycle
    requires id < |l.attempts|
  {
    Put(l, id, l.attempts[id].(state := Committed, recorded := recorded))
    .(committedCount := l.committedCount + 1, committed := l.committed + [l.attempts[id].index])
  }

  function MarkSettled(l: Lifecycle, id: nat): Lifecycle
    requires id < |l.attempts|
  {
    Put(l, id, l.attempts[id].(state := Settled)).(current := None)
  }

  /** One step; a call that the program answers with an error, and a reply that nothing awaits, change nothing. */
  function Next(l: Lifecycle, step: Step): Lifecycle {
    match step
    case Begin =>
      if l.provenanceFailed || l.current.Some? then l
      else l.(attempts := l.attempts + [Attempt(l.committedCount + 1, Draft, false, 0, 0)], current := Some(|l.attempts|))
    case Discard(id) =>
      if !Open(l, id, Draft) then l
      else Put(l, id, l.attempts[id].(state := Discarded)).(current := None)
    case Commit(id, prepared) =>
      if !Open(l, id, Draft) then l
      else if l.hasSink && !prepared then Put(l, id, l.attempts[id].(state := Blocked))
      else if l.hasSink then Put(l, id, l.attempts[id].(state := Committing)).(log := l.log + [RequestSent(l.attempts[id].index)])
      else MarkCommitted(l, id, false)
    case RequestReply(id, ok) =>
      if id >= |l.attempts| || l.attempts[id].state != Committing then l
      else if ok then MarkCommitted(l, id, true) else Close(l, id)
    case Settle(id) =>
      if !Open(l, id, Committed) then l
      else Put(l, id, l.attempts[id].(inCallback := l.attempts[id].inCallback + 1))
    case CallbackReturns(id, threw) =>
      if id >= |l.attempts| || l.attempts[id].inCallback == 0 then l
      else
        // Nothing is checked again behind the callback.
        var a := l.attempts[id].(inCallback := l.attempts[id].inCallback - 1);
        if threw then Put(l, id, a)
        else if a.recorded then
          Put(l, id, a.(state := Settling, awaiting := a.awaiting + 1)).(log := l.log + [ResponseSent(a.index)])
        else MarkSettled(Put(l, id, a), id)
    case ResponseReply(id, ok) =>
      if id >= |l.attempts| || l.attempts[id].awaiting == 0 then l
      else
        var m := Put(l, id, l.attempts[id].(awaiting := l.attempts[id].awaiting - 1));
        if ok then MarkSettled(m, id) else Close(m, id)
  }

  function Run(l: Lifecycle, steps: seq<Step>): Lifecycle {
    if steps == [] then l else Next(Run(l, steps[..|steps| - 1]), steps[|steps| - 1])
  }

  /** A settle call made while another one of the same attempt is still inside the host's response callback. */
  predicate Reentrant(l: Lifecycle, step: Step) {
    step.Settle? && step.id < |l.attempts| && l.attempts[step.id].inCallback > 0
  }

  ghost predicate NeverReentrant(l: Lifecycle, steps: seq<Step>) {
    forall n {:trigger steps[..n]} :: 0 <= n < |steps| ==> !Reentrant(Run(l, steps[..n]), steps[n])
  }

  // ---------------------------------------------------------------- the invariant

  predicate Live(a: Attempt) {
    a.state == Draft || a.state == Committing || a.state == Blocked || a.state == Committed || a.state == Settling
  }

  /** An attempt is the current one exactly while it is live, and has at most one settle call in progress. */
  ghost predicate AttemptOk(l: Lifecycle, id: nat, a: Attempt) {
    && (Live(a) <==> l.current == Some(id))
    && a.inCallback + a.awaiting <= 1
    && (a.inCallback == 1 ==> a.state == Committed) && (a.awaiting == 1 <==> a.state == Settling)
    && (a.state == Draft || a.state == Committing ==> a.index == l.committedCount + 1)
    && (a.state == Committed || a.state == Settling || a.state == Settled ==> 1 <= a.index <= l.committedCount)
    && (a.state == Committed || a.state == Settling ==> a.index == l.committedCount)
    && (a.recorded || a.state == Committing ==> l.hasSink)
    && (l.hasSink && (a.state == Committed || a.state == Settling) ==> a.recorded)
  }

  ghost predicate AttemptsOk(l: Lifecycle) {
    && (forall id :: 0 <= id < |l.attempts| ==> AttemptOk(l, id, l.attempts[id]))
    && (l.current.Some? ==> l.current.value < |l.attempts|)
    && (l.provenanceFailed ==> l.current.None?)
  }

  /** The committed indices count up from 1. */
  ghost predicate CommittedOk(l: Lifecycle) {
    |l.committed| == l.committedCount && forall i :: 0 <= i < |l.committed| ==> l.committed[i] == i + 1
  }

  /** The sink's log: requests 1, 2, 3 and so on, each followed by at most one response before the next request, and
      nothing behind a failure. sent requests and answered say how far it has come. */
  datatype Recorded = Recorded(sent: nat, answered: bool, failed: bool)

  function Read(log: seq<Entry>): Option<Recorded> {
    if log == [] then Some(Recorded(0, true, false))
    else match Read(log[..|log| - 1])
      case None => None
      case Some(r) =>
        if r.failed then None
        else match log[|log| - 1]
          case RequestSent(i) => if i == r.sent + 1 then Some(Recorded(i, false, false)) else None
          case ResponseSent(i) => if i == r.sent && !r.answered then Some(r.(answered := true)) else None
          case SinkFailed => Some(r.(failed := true))
  }

  ghost predicate LogOk(l: Lifecycle) {
    var r := Read(l.log);
    && r.Some? && (r.value.failed <==> l.provenanceFailed)
    && (l.hasSink && !l.provenanceFailed ==>
          && r.value.sent == l.committedCount + (if CurrentIs(l, Committing) then 1 else 0)
          && ((CurrentIs(l, Committing) || CurrentIs(l, Committed)) && CurrentRecords(l) ==> !r.value.answered))
  }

  predicate CurrentIs(l: Lifecycle, state: AttemptState) {
    l.current.Some? && l.current.value < |l.attempts| && l.attempts[l.current.value].state == state
  }

  predicate CurrentRecords(l: Lifecycle) {
    l.current.Some? && l.current.value < |l.attempts|
    && (l.attempts[l.current.value].state == Committing || l.attempts[l.current.value].recorded)
  }

  ghost predicate Inv(l: Lifecycle) {
    AttemptsOk(l) && CommittedOk(l) && LogOk(l)
  }

  lemma AttemptStep(l: Lifecycle, step: Step, id: nat)
    requires AttemptsOk(l) && !Reentrant(l, step) && id < |Next(l, step).attempts|
    ensures AttemptOk(Next(l, step), id, Next(l, step).attempts[id])
  {
    if id < |l.attempts| { assert AttemptOk(l, id, l.attempts[id]); }
    if !step.Begin? && step.id < |l.attempts| { assert AttemptOk(l, step.id, l.attempts[step.id]); }
  }

  lemma CurrentStep(l: Lifecycle, step: Step)
    requires AttemptsOk(l)
    ensures var l' := Next(l, step);
      (l'.current.Some? ==> l'.current.value < |l'.attempts|) && (l'.provenanceFailed ==> l'.current.None?)
  {
    if !step.Begin? && step.id < |l.attempts| { assert AttemptOk(l, step.id, l.attempts[step.id]); }
  }

  lemma AttemptsStep(l: Lifecycle, step: Step)
    requires AttemptsOk(l) && !Reentrant(l, step)
    ensures AttemptsOk(Next(l, step))
  {
    hide Next, AttemptOk, Reentrant;
    CurrentStep(l, step);
    var l' := Next(l, step);
    forall id | 0 <= id < |l'.attempts| ensures AttemptOk(l', id, l'.attempts[id]) { AttemptStep(l, step, id); }
  }

  lemma ReadPush(log: seq<Entry>, e: Entry)
    ensures Read(log + [e]) == match Read(log)
      case None => None
      case Some(r) =>
        if r.failed then None
        else match e
          case RequestSent(i) => if i == r.sent + 1 then Some(Recorded(i, false, false)) else None
          case ResponseSent(i) => if i == r.sent && !r.answered then Some(r.(answered := true)) else None
          case SinkFailed => Some(r.(failed := true))
  {
    assert (log + [e])[..|log|] == log;
  }

  lemma LogStep(l: Lifecycle, step: Step)
    requires Inv(l) && !Reentrant(l, step)
    ensures LogOk(Next(l, step))
  {
    hide Read, CommittedOk;
    var l' := Next(l, step);
    if !step.Begin? && step.id < |l.attempts| {
      assert AttemptOk(l, step.id, l.attempts[step.id]);
      if l'.log != l.log { ReadPush(l.log, l'.log[|l.log|]); }
    }
  }

  lemma NextKeepsInv(l: Lifecycle, step: Step)
    requires Inv(l) && !Reentrant(l, step)
    ensures Inv(Next(l, step))
  {
    AttemptsStep(l, step);
    LogStep(l, step);
    hide LogOk, Read, AttemptsOk;
    CommittedStep(l, step);
  }

  lemma CommittedStep(l: Lifecycle, step: Step)
    requires CommittedOk(l) && AttemptsOk(l)
    ensures CommittedOk(Next(l, step))
  {
    if !step.Begin? && step.id < |l.attempts| { assert AttemptOk(l, step.id, l.attempts[step.id]); }
  }

  lemma InitialInv(hasSink: bool)
    ensures Inv(Initial(hasSink))
  {}

  lemma {:induction false} RunsKeepInv(hasSink: bool, steps: seq<Step>)
    requires NeverReentrant(Initial(hasSink), steps)
    ensures Inv(Run(Initial(hasSink), steps))
  {
    hide Inv, Next, Reentrant;
    if steps == [] {
      InitialInv(hasSink);
    } else {
      var n := |steps| - 1;
      assert NeverReentrant(Initial(hasSink), steps[..n]) by {
        forall k | 0 <= k < n ensures !Reentrant(Run(Initial(hasSink), steps[..n][..k]), steps[..n][k]) {
          assert steps[..n][..k] == steps[..k];
        }
      }
      RunsKeepInv(hasSink, steps[..n]);
      assert steps[..n] == steps[..|steps| - 1];
      NextKeepsInv(Run(Initial(hasSink), steps[..n]), steps[n]);
    }
  }

  // ---------------------------------------------------------------- what the log says

  /** Responses follow their requests, at most one each, and nothing follows a failure. */
  ghost predicate Orderly(log: seq<Entry>) {
    && (forall q :: 0 <= q < |log| && log[q].ResponseSent? ==> SentBefore(log, q, log[q].index))
    && (forall p, q :: 0 <= p < q < |log| && log[p].ResponseSent? && log[q].ResponseSent? ==> log[p].index < log[q].index)
    && (forall p, q :: 0 <= p < q < |log| && log[p].RequestSent? && log[q].RequestSent? ==> log[p].index < log[q].index)
    && (forall p :: 0 <= p < |log| && log[p].SinkFailed? ==> p == |log| - 1)
  }

  ghost predicate SentBefore(log: seq<Entry>, q: nat, index: nat) {
    exists p :: 0 <= p < q && p < |log| && log[p] == RequestSent(index)
  }

  /** The requests in the log are exactly 1 up to the number sent. */
  ghost predicate Counts(log: seq<Entry>, sent: nat) {
    && (forall q :: 0 <= q < |log| && !log[q].SinkFailed? ==> 1 <= log[q].index <= sent)
    && (forall i :: 1 <= i <= sent ==> SentBefore(log, |log|, i))
  }

  /** What a readable log with this outcome looks like. */
  ghost predicate ReadsAs(log: seq<Entry>, r: Recorded) {
    && Orderly(log) && Counts(log, r.sent)
    && (r.failed <==> exists p :: 0 <= p < |log| && log[p].SinkFailed?)
    && (!r.answered ==> forall q :: 0 <= q < |log| && log[q].ResponseSent? ==> log[q].index < r.sent)
  }

  lemma SentStays(front: seq<Entry>, last: Entry, q: nat, index: nat)
    requires q <= |front| && SentBefore(front, q, index)
    ensures SentBefore(front + [last], q, index)
  {
    var p :| 0 <= p < q && p < |front| && front[p] == RequestSent(index);
    assert (front + [last])[p] == front[p];
  }

  lemma CountsPush(front: seq<Entry>, last: Entry, r: Recorded)
    requires Counts(front, r.sent)
    requires last.RequestSent? ==> last.index == r.sent + 1
    requires last.ResponseSent? ==> 1 <= last.index <= r.sent
    ensures Counts(front + [last], if last.RequestSent? then last.index else r.sent)
  {
    var log := front + [last];
    forall i | 1 <= i <= (if last.RequestSent? then last.index else r.sent) ensures SentBefore(log, |log|, i) {
      if i <= r.sent {
        SentStays(front, last, |front|, i);
        var p :| 0 <= p < |front| && p < |log| && log[p] == RequestSent(i);
      } else {
        assert log[|front|] == RequestSent(i);
      }
    }
  }

  lemma OrderlyPush(front: seq<Entry>, last: Entry, r: Recorded)
    requires ReadsAs(front, r) && !r.failed
    requires last.RequestSent? ==> last.index == r.sent + 1
    requires last.ResponseSent? ==> last.index == r.sent && !r.answered && r.sent >= 1
    ensures Orderly(front + [last])
  {
    var log := front + [last];
    forall q | 0 <= q < |log| && log[q].ResponseSent? ensures SentBefore(log, q, log[q].index) {
      if q < |front| { assert SentBefore(front, q, front[q].index); } else { assert SentBefore(front, |front|, last.index); }
      SentStays(front, last, q, log[q].index);
    }
  }

  lemma {:induction false} ReadMeans(log: seq<Entry>)
    requires Read(log).Some?
    ensures ReadsAs(log, Read(log).value) && (Read(log).value.sent == 0 ==> Read(log).value.answered)
  {
    if log != [] {
      var front, last := log[..|log| - 1], log[|log| - 1];
      ReadMeans(front);
      hide Read, Orderly, Counts;
      ReadPush(front, last);
      assert log == front + [last];
      CountsPush(front, last, Read(front).value);
      OrderlyPush(front, last, Read(front).value);
      CountsBound(front, Read(front).value.sent);
      if last.SinkFailed? { assert log[|front|].SinkFailed?; }
    } else {
      hide Read;
      ReadNothing();
    }
  }

  lemma ReadNothing()
    ensures Read([]) == Some(Recorded(0, true, false))
  {}

  lemma CountsBound(log: seq<Entry>, sent: nat)
    requires Counts(log, sent)
    ensures forall q :: 0 <= q < |log| && log[q].ResponseSent? ==> log[q].index <= sent
  {}

  /** At most one attempt is live, the committed indices are 1, 2, 3 and so on, and the sink receives each request once,
      in order, each response at most once and behind its request, and nothing behind a failure. */
  ghost predicate Clean(l: Lifecycle) {
    && (forall i, j :: 0 <= i < j < |l.attempts| ==> !(Live(l.attempts[i]) && Live(l.attempts[j])))
    && CommittedOk(l) && Orderly(l.log)
  }

  lemma InvClean(l: Lifecycle)
    requires Inv(l)
    ensures Clean(l)
  {
    hide Read, Orderly;
    ReadMeans(l.log);
    forall i, j | 0 <= i < j < |l.attempts| ensures !(Live(l.attempts[i]) && Live(l.attempts[j])) {
      assert AttemptOk(l, i, l.attempts[i]) && AttemptOk(l, j, l.attempts[j]);
    }
  }

  /** Over every interleaving in which no settle call is made inside another one's response callback, the lifecycle is
      clean. */
  lemma AttemptsAreOrderly(hasSink: bool, steps: seq<Step>)
    requires NeverReentrant(Initial(hasSink), steps)
    ensures Clean(Run(Initial(hasSink), steps))
  {
    RunsKeepInv(hasSink, steps);
    hide Run, NeverReentrant, Clean, Inv;
    InvClean(Run(Initial(hasSink), steps));
  }

  // ---------------------------------------------------------------- settling inside the callback

  lemma RunOne(l: Lifecycle, a: Step)
    ensures Run(l, [a]) == Next(l, a)
  {
    hide Next;
    assert [a][..0] == [] && Run(l, []) == l;
  }

  lemma RunPush(l: Lifecycle, steps: seq<Step>, a: Step)
    ensures Run(l, steps + [a]) == Next(Run(l, steps), a)
  {
    hide Next;
    assert (steps + [a])[..|steps|] == steps;
  }

  lemma RunSteps(l: Lifecycle, a: Step, b: Step, c: Step, d: Step)
    ensures Run(l, [a, b]) == Next(Next(l, a), b) && Run(l, [a, b, c]) == Next(Next(Next(l, a), b), c)
    ensures Run(l, [a, b, c, d]) == Next(Next(Next(Next(l, a), b), c), d)
  {
    hide Next, Run;
    RunOne(l, a);
    RunPush(l, [a], b);
    assert [a] + [b] == [a, b];
    RunPush(l, [a, b], c);
    assert [a, b] + [c] == [a, b, c];
    RunPush(l, [a, b, c], d);
    assert [a, b, c] + [d] == [a, b, c, d];
  }

  predicate NoSettle(steps: seq<Step>) {
    forall n :: 0 <= n < |steps| ==> !steps[n].Settle?
  }

  lemma NoSettleNeverReentrant(l: Lifecycle, steps: seq<Step>)
    requires NoSettle(steps)
    ensures NeverReentrant(l, steps)
  {
    hide Next, Run;
    forall n | 0 <= n < |steps| ensures !Reentrant(Run(l, steps[..n]), steps[n]) {}
  }

  /** A settle call inside another one's callback passes the same check, and when both callbacks return the response is
      recorded twice. */
  lemma ReentrantSettleRecordsTwice(l: Lifecycle, id: nat)
    requires Open(l, id, Committed) && l.attempts[id].recorded && l.attempts[id].inCallback == 1
    ensures Run(l, [Settle(id), CallbackReturns(id, false), CallbackReturns(id, false)]).log
            == l.log + [ResponseSent(l.attempts[id].index), ResponseSent(l.attempts[id].index)]
  {
    var l1 := Next(l, Settle(id));
    RunSteps(l, Settle(id), CallbackReturns(id, false), CallbackReturns(id, false), Begin);
    hide Run;
    assert Next(l1, CallbackReturns(id, false)).log == l.log + [ResponseSent(l.attempts[id].index)];
  }

  lemma TwiceIsDisorderly(log: seq<Entry>, e: Entry)
    requires e.ResponseSent?
    ensures !Orderly(log + [e, e])
  {
    assert (log + [e, e])[|log|] == e && (log + [e, e])[|log| + 1] == e;
  }

  /** Without a sink both callbacks settle the attempt, and the second one drops a newer attempt. */
  lemma ReentrantSettleDropsAttempt(l: Lifecycle, id: nat)
    requires Open(l, id, Committed) && !l.attempts[id].recorded && l.attempts[id].inCallback == 1 && !l.provenanceFailed
    ensures !Clean(Run(Next(l, Settle(id)), [CallbackReturns(id, false), Begin, CallbackReturns(id, false), Begin]))
  {
    var l1 := Next(l, Settle(id));
    RunSteps(l1, CallbackReturns(id, false), Begin, CallbackReturns(id, false), Begin);
    hide Run, Orderly, CommittedOk;
    var l2 := Next(l1, CallbackReturns(id, false));
    assert l2.current.None? && |l2.attempts| == |l.attempts| && l2.attempts[id].inCallback == 1;
    var l3 := Next(l2, Begin);
    var n := |l.attempts|;
    assert l3.attempts[n].state == Draft && l3.attempts[id].inCallback == 1;
    var l4 := Next(l3, CallbackReturns(id, false));
    assert l4.current.None? && l4.attempts[n].state == Draft;
    var l5 := Next(l4, Begin);
    assert l5.attempts[n].state == Draft && l5.attempts[n + 1].state == Draft;
  }

  /** What a re-entrant settle finds in a run that was free of them so far. */
  lemma ReentrantFinds(l: Lifecycle, step: Step)
    requires Inv(l) && Reentrant(l, step)
    ensures Open(l, step.id, Committed) && l.attempts[step.id].inCallback == 1 && !l.provenanceFailed
    ensures l.attempts[step.id].recorded <==> l.hasSink
  {
    assert AttemptOk(l, step.id, l.attempts[step.id]);
    hide LogOk, CommittedOk;
  }

  lemma {:induction false} CleanOnwards(l: Lifecycle, steps: seq<Step>)
    requires Inv(l) && NeverReentrant(l, steps)
    ensures Inv(Run(l, steps))
  {
    hide Inv, Next, Reentrant;
    if steps != [] {
      var n := |steps| - 1;
      assert NeverReentrant(l, steps[..n]) by {
        forall k | 0 <= k < n ensures !Reentrant(Run(l, steps[..n][..k]), steps[..n][k]) { assert steps[..n][..k] == steps[..k]; }
      }
      CleanOnwards(l, steps[..n]);
      assert steps[..n] == steps[..|steps| - 1];
      NextKeepsInv(Run(l, steps[..n]), steps[n]);
    }
  }

  /** Behind a run without a re-entrant settle, a step leaves the lifecycle clean on every way on without one exactly when
      it is not itself a re-entrant settle. */
  lemma CleanExactly(hasSink: bool, steps: seq<Step>, step: Step)
    requires NeverReentrant(Initial(hasSink), steps)
    ensures var l := Next(Run(Initial(hasSink), steps), step);
      (forall more :: NeverReentrant(l, more) ==> Clean(Run(l, more))) <==> !Reentrant(Run(Initial(hasSink), steps), step)
  {
    RunsKeepInv(hasSink, steps);
    var before := Run(Initial(hasSink), steps);
    var l := Next(before, step);
    hide Run, Next, NeverReentrant, Clean, Inv, Reentrant;
    if !Reentrant(before, step) {
      NextKeepsInv(before, step);
      forall more | NeverReentrant(l, more) ensures Clean(Run(l, more)) {
        CleanOnwards(l, more);
        InvClean(Run(l, more));
      }
    } else {
      var more := Spoils(before, step);
      assert NeverReentrant(l, more) && !Clean(Run(l, more));
    }
  }

  lemma Spoils(l: Lifecycle, step: Step) returns (more: seq<Step>)
    requires Inv(l) && Reentrant(l, step)
    ensures NeverReentrant(Next(l, step), more) && !Clean(Run(Next(l, step), more))
  {
    ReentrantFinds(l, step);
    hide Run, Next, NeverReentrant, Inv, Orderly;
    var id := step.id;
    if l.hasSink {
      more := [CallbackReturns(id, false), CallbackReturns(id, false)];
      ReentrantSettleRecordsTwice(l, id);
      RunSteps(l, step, CallbackReturns(id, false), CallbackReturns(id, false), Begin);
      RunSteps(Next(l, step), CallbackReturns(id, false), CallbackReturns(id, false), Begin, Begin);
      TwiceIsDisorderly(l.log, ResponseSent(l.attempts[id].index));
      assert l.log + [ResponseSent(l.attempts[id].index), ResponseSent(l.attempts[id].index)]
          == Run(Next(l, step), more).log;
    } else {
      more := [CallbackReturns(id, false), Begin, CallbackReturns(id, false), Begin];
      ReentrantSettleDropsAttempt(l, id);
    }
    NoSettleNeverReentrant(Next(l, step), more);
  }

  // ---------------------------------------------------------------- an index used twice

  /** One attempt settled twice from inside its callback; the second attempt begins between the two replies, the third
      behind them. */
  function DoubledSteps(): seq<Step> {
    [Begin, Commit(0, true), RequestReply(0, true), Settle(0)]
    + [Settle(0), CallbackReturns(0, false), CallbackReturns(0, false), ResponseReply(0, true)]
    + [Begin, Commit(1, true), ResponseReply(0, true), Begin]
    + [Commit(2, true), RequestReply(1, true), RequestReply(2, true)]
  }

  const SETTLING := Lifecycle(true, Some(0), 1, false, [Attempt(1, Committed, true, 1, 0)], [1], [RequestSent(1)])
  const HALF_SETTLED := Lifecycle(true, None, 1, false, [Attempt(1, Settled, true, 0, 1)], [1],
                                  [RequestSent(1), ResponseSent(1), ResponseSent(1)])
  const OVERLAPPING := Lifecycle(true, Some(2), 1, false,
                                 [Attempt(1, Settled, true, 0, 0), Attempt(2, Committing, false, 0, 0), Attempt(2, Draft, false, 0, 0)],
                                 [1], [RequestSent(1), ResponseSent(1), ResponseSent(1), RequestSent(2)])
  const DOUBLED := Lifecycle(true, Some(2), 3, false,
                             [Attempt(1, Settled, true, 0, 0), Attempt(2, Committed, true, 0, 0), Attempt(2, Committed, true, 0, 0)],
                             [1, 2, 2],
                             [RequestSent(1), ResponseSent(1), ResponseSent(1), RequestSent(2), RequestSent(2)])

  lemma {:induction false} RunConcat(l: Lifecycle, first: seq<Step>, second: seq<Step>)
    ensures Run(l, first + second) == Run(Run(l, first), second)
  {
    hide Next;
    if second == [] {
      assert first + second == first;
    } else {
      var n := |second| - 1;
      RunConcat(l, first, second[..n]);
      assert (first + second)[..|first + second| - 1] == first + second[..n];
    }
  }

  lemma ReachesCallback()
    ensures Run(Initial(true), [Begin, Commit(0, true), RequestReply(0, true), Settle(0)]) == SETTLING
  {
    RunSteps(Initial(true), Begin, Commit(0, true), RequestReply(0, true), Settle(0));
    hide Run;
  }

  /** Such a state is reached by a single attempt. */
  lemma ReentrantSettleHappens()
    ensures var l := Run(Initial(true), [Begin, Commit(0, true), RequestReply(0, true), Settle(0)]);
      Open(l, 0, Committed) && l.attempts[0].recorded && l.attempts[0].inCallback == 1
  {
    hide Run, Next;
    ReachesCallback();
  }

  lemma SettlesTwice()
    ensures Run(SETTLING, [Settle(0), CallbackReturns(0, false), CallbackReturns(0, false), ResponseReply(0, true)]) == HALF_SETTLED
  {
    RunSteps(SETTLING, Settle(0), CallbackReturns(0, false), CallbackReturns(0, false), ResponseReply(0, true));
    hide Run;
  }

  lemma BeginsTwice()
    ensures Run(HALF_SETTLED, [Begin, Commit(1, true), ResponseReply(0, true), Begin]) == OVERLAPPING
  {
    RunSteps(HALF_SETTLED, Begin, Commit(1, true), ResponseReply(0, true), Begin);
    hide Run;
  }

  lemma CommitsTwice()
    ensures Run(OVERLAPPING, [Commit(2, true), RequestReply(1, true), RequestReply(2, true)]) == DOUBLED
  {
    RunSteps(OVERLAPPING, Commit(2, true), RequestReply(1, true), RequestReply(2, true), Begin);
    hide Run;
  }

  /** A single re-entrant settle lets two later attempts be open at once and both commit index 2. */
  lemma ReentrantSettleReusesIndex()
    ensures var l := Run(Initial(true), DoubledSteps());
      l.committed == [1, 2, 2] && |l.attempts| == 3 && Live(l.attempts[1]) && Live(l.attempts[2])
  {
    hide Run, Next;
    var a := [Begin, Commit(0, true), RequestReply(0, true), Settle(0)];
    var b := [Settle(0), CallbackReturns(0, false), CallbackReturns(0, false), ResponseReply(0, true)];
    var c := [Begin, Commit(1, true), ResponseReply(0, true), Begin];
    var d := [Commit(2, true), RequestReply(1, true), RequestReply(2, true)];
    ReachesCallback();
    SettlesTwice();
    BeginsTwice();
    CommitsTwice();
    RunConcat(Initial(true), a, b);
    RunConcat(Initial(true), a + b, c);
    RunConcat(Initial(true), a + b + c, d);
  }

  // ---------------------------------------------------------------- a request that could not be prepared

  /** When preparing a request throws, the attempt stays current for good: nothing changes any more. */
  lemma {:induction false} FailedPreparationBlocks(hasSink: bool, steps: seq<Step>, more: seq<Step>)
    requires NeverReentrant(Initial(hasSink), steps) && CurrentIs(Run(Initial(hasSink), steps), Blocked)
    ensures Run(Run(Initial(hasSink), steps), more) == Run(Initial(hasSink), steps)
    decreases |more|
  {
    var l := Run(Initial(hasSink), steps);
    if more != [] {
      FailedPreparationBlocks(hasSink, steps, more[..|more| - 1]);
      RunsKeepInv(hasSink, steps);
      BlockedStays(l, more[|more| - 1]);
    }
  }

  lemma BlockedStays(l: Lifecycle, step: Step)
    requires Inv(l) && CurrentIs(l, Blocked)
    ensures Next(l, step) == l
  {
    if !step.Begin? && step.id < |l.attempts| { assert AttemptOk(l, step.id, l.attempts[step.id]); }
    assert AttemptOk(l, l.current.value, l.attempts[l.current.value]);
    hide LogOk, CommittedOk;
  }

  lemma PreparationCanBlock()
    ensures CurrentIs(Run(Initial(true), [Begin, Commit(0, false)]), Blocked)
  {
    RunSteps(Initial(true), Begin, Commit(0, false), Begin, Begin);
    hide Run;
  }

  // ---------------------------------------------------------------- everything is recorded

  /** With a sink, what was committed had its request recorded and what is settled its response. */
  ghost predicate Evidenced(l: Lifecycle, a: Attempt) {
    && (a.state == Committing || a.state == Committed || a.state == Settling || a.state == Settled ==> RequestSent(a.index) in l.log)
    && (a.state == Settling || a.state == Settled ==> ResponseSent(a.index) in l.log)
  }

  ghost predicate AllEvidenced(l: Lifecycle) {
    forall id :: 0 <= id < |l.attempts| ==> Evidenced(l, l.attempts[id])
  }

  lemma StepEvidence(l: Lifecycle, step: Step)
    requires Inv(l) && AllEvidenced(l) && l.hasSink
    ensures AllEvidenced(Next(l, step))
  {
    hide LogOk, CommittedOk;
    var l' := Next(l, step);
    if !step.Begin? && step.id < |l.attempts| { assert AttemptOk(l, step.id, l.attempts[step.id]); }
    forall id | 0 <= id < |l'.attempts| ensures Evidenced(l', l'.attempts[id]) {
      if id < |l.attempts| { assert Evidenced(l, l.attempts[id]); }
    }
  }

  /** Over every interleaving without re-entrance no attempt counts as committed or settled with its record missing. */
  lemma {:induction false} NothingUnrecorded(steps: seq<Step>)
    requires NeverReentrant(Initial(true), steps)
    ensures AllEvidenced(Run(Initial(true), steps)) && Run(Initial(true), steps).hasSink
  {
    hide Next, AllEvidenced, Reentrant, Inv;
    if steps == [] {
      NoneEvidenced();
    } else {
      var front := steps[..|steps| - 1];
      assert NeverReentrant(Initial(true), front) by {
        forall k | 0 <= k < |front| ensures !Reentrant(Run(Initial(true), front[..k]), front[k]) { assert front[..k] == steps[..k]; }
      }
      NothingUnrecorded(front);
      RunsKeepInv(true, front);
      StepEvidence(Run(Initial(true), front), steps[|steps| - 1]);
      SinkStays(Run(Initial(true), front), steps[|steps| - 1]);
    }
  }

  lemma NoneEvidenced()
    ensures AllEvidenced(Initial(true))
  {}

  lemma SinkStays(l: Lifecycle, step: Step)
    ensures Next(l, step).hasSink == l.hasSink
  {}

  /** Between attempts the next one can always run to its end: it commits the next index and is recorded whole. */
  lemma NextAttemptCompletes(l: Lifecycle)
    requires Inv(l) && l.hasSink && l.current.None? && !l.provenanceFailed
    ensures var id, n := |l.attempts|, l.committedCount + 1;
      var q := Run(l, [Begin, Commit(id, true), RequestReply(id, true)] + [Settle(id), CallbackReturns(id, false), ResponseReply(id, true)]);
      && q.log == l.log + [RequestSent(n), ResponseSent(n)] && q.committed == l.committed + [n]
      && q.current.None? && !q.provenanceFailed && q.attempts == l.attempts + [Attempt(n, Settled, true, 0, 0)]
  {
    var id, n := |l.attempts|, l.committedCount + 1;
    RunConcat(l, [Begin, Commit(id, true), RequestReply(id, true)], [Settle(id), CallbackReturns(id, false), ResponseReply(id, true)]);
    CommitsNext(l);
    var m := l.(attempts := l.attempts + [Attempt(n, Committed, true, 0, 0)], current := Some(id), committedCount := n,
                committed := l.committed + [n], log := l.log + [RequestSent(n)]);
    SettlesNext(m, id);
    assert m.log + [ResponseSent(n)] == l.log + [RequestSent(n), ResponseSent(n)];
  }

  lemma CommitsNext(l: Lifecycle)
    requires l.hasSink && l.current.None? && !l.provenanceFailed
    ensures var id, n := |l.attempts|, l.committedCount + 1;
      Run(l, [Begin, Commit(id, true), RequestReply(id, true)])
      == l.(attempts := l.attempts + [Attempt(n, Committed, true, 0, 0)], current := Some(id), committedCount := n,
            committed := l.committed + [n], log := l.log + [RequestSent(n)])
  {
    var id, n := |l.attempts|, l.committedCount + 1;
    RunSteps(l, Begin, Commit(id, true), RequestReply(id, true), Begin);
    var a := WithLast(l, Attempt(n, Draft, false, 0, 0));
    BeginsNext(l);
    RequestsNext(a, l.attempts, n);
    AcceptsNext(WithLast(l, Attempt(n, Committing, false, 0, 0)).(log := l.log + [RequestSent(n)]), l.attempts, n);
    hide Next;
  }

  function WithLast(l: Lifecycle, a: Attempt): Lifecycle {
    l.(attempts := l.attempts + [a], current := Some(|l.attempts|))
  }

  lemma BeginsNext(l: Lifecycle)
    requires l.current.None? && !l.provenanceFailed
    ensures Next(l, Begin) == WithLast(l, Attempt(l.committedCount + 1, Draft, false, 0, 0))
  {}

  lemma RequestsNext(l: Lifecycle, front: seq<Attempt>, n: nat)
    requires l.hasSink && l.attempts == front + [Attempt(n, Draft, false, 0, 0)] && l.current == Some(|front|)
    ensures Next(l, Commit(|front|, true)) == l.(attempts := front + [Attempt(n, Committing, false, 0, 0)], log := l.log + [RequestSent(n)])
  {
    assert l.attempts[|front| := Attempt(n, Committing, false, 0, 0)] == front + [Attempt(n, Committing, false, 0, 0)];
  }

  lemma AcceptsNext(l: Lifecycle, front: seq<Attempt>, n: nat)
    requires l.attempts == front + [Attempt(n, Committing, false, 0, 0)]
    ensures Next(l, RequestReply(|front|, true))
            == l.(attempts := front + [Attempt(n, Committed, true, 0, 0)], committedCount := l.committedCount + 1, committed := l.committed + [n])
  {
    assert l.attempts[|front| := Attempt(n, Committed, true, 0, 0)] == front + [Attempt(n, Committed, true, 0, 0)];
  }

  lemma SettlesNext(l: Lifecycle, id: nat)
    requires id < |l.attempts| && l.current == Some(id) && l.attempts[id] == Attempt(l.attempts[id].index, Committed, true, 0, 0)
    ensures Run(l, [Settle(id), CallbackReturns(id, false), ResponseReply(id, true)])
            == l.(attempts := l.attempts[id := Attempt(l.attempts[id].index, Settled, true, 0, 0)], current := None,
                  log := l.log + [ResponseSent(l.attempts[id].index)])
  {
    RunSteps(l, Settle(id), CallbackReturns(id, false), ResponseReply(id, true), Begin);
  }
}
