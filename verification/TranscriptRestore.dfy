/** Restoring a log any number of times, each attempt cut short anywhere: the log stays accepted and ends the same. */
module TranscriptRestore {
  import opened Wrappers
  import opened Transcript
  import opened TranscriptInvariant
  import opened TranscriptRepair
  import opened TranscriptResume

  // ---------------------------------------------------------------- scanning an extended log

  function StepAll(stream: StreamKey, s: Scan, records: seq<Record>): Result<Scan, Fault>
    decreases |records|
  {
    if records == [] then Ok(s)
    else match Step(stream, s, records[0])
      case Err(e) => Err(e)
      case Ok(s') => StepAll(stream, s', records[1..])
  }

  lemma {:induction false} ScanAppends(stream: StreamKey, log: seq<Record>, records: seq<Record>)
    requires ScanLog(stream, log).Ok?
    ensures ScanLog(stream, log + records) == StepAll(stream, ScanLog(stream, log).value, records)
    decreases |records|
  {
    hide Step;
    if records == [] {
      assert log + records == log;
    } else {
      var next := log + [records[0]];
      assert next[..|next| - 1] == log && next + records[1..] == log + records;
      if ScanLog(stream, next).Ok? {
        ScanAppends(stream, next, records[1..]);
      } else {
        assert (log + records)[..|next|] == next;
        ScanStopsAt(stream, log + records, |next|);
      }
    }
  }

  lemma ScanNothing(stream: StreamKey)
    ensures ScanLog(stream, []) == Ok(EmptyScan)
  {}

  lemma ScanPush(stream: StreamKey, log: seq<Record>, r: Record)
    requires ScanLog(stream, log).Ok?
    ensures ScanLog(stream, log + [r]) == Step(stream, ScanLog(stream, log).value, r)
  {
    hide Step;
    assert (log + [r])[..|log|] == log;
  }

  lemma {:induction false} ScanCounts(stream: StreamKey, log: seq<Record>)
    requires ScanLog(stream, log).Ok?
    ensures var s := ScanLog(stream, log).value;
      && s.count == |log| && (log == [] ==> s == EmptyScan)
      && (log != [] ==> s.expected == log[|log| - 1].sequence + 1 && s.previous == Some(log[|log| - 1]))
      && (forall id :: id in s.recordIds <==> exists k :: 0 <= k < |log| && log[k].recordId == id)
  {
    hide Step;
    if log != [] {
      ScanCounts(stream, log[..|log| - 1]);
      StepCounts(stream, ScanLog(stream, log[..|log| - 1]).value, log[|log| - 1]);
    }
  }

  lemma AcceptedScan(stream: StreamKey, log: seq<Record>)
    requires Accepted(stream, log)
    ensures var s := CommittedScan(stream, log).value;
      Coherent(stream, s) && Typed(s) && s.count == |log| && (!Pending(s) ==> Repairable(stream, s))
  {
    hide Coherent, Typed, Step, Pending;
    ScanCoherent(stream, log);
    CoherentTyped(stream, ScanLog(stream, log).value);
    ScanCounts(stream, log);
  }

  // ---------------------------------------------------------------- appending a repair

  predicate FreshIds(ids: seq<Id>, taken: set<Id>) {
    ids == [] || (ids[0] !in taken && FreshIds(ids[1..], taken + {ids[0]}))
  }

  /** The prepared records of a repair, numbered from first on. */
  function PrepareAll(first: nat, drafts: seq<Draft>, ids: seq<Id>): (records: seq<Record>)
    requires |drafts| <= |ids|
    ensures |records| == |drafts|
    decreases |drafts|
  {
    if drafts == [] then [] else [Prepared(drafts[0], ids[0], first)] + PrepareAll(first + 1, drafts[1..], ids[1..])
  }

  lemma EmptyNothingLeft(stream: StreamKey, s: Scan, recovery: Recovery, rest: seq<Draft>)
    requires Repairable(stream, s) && s.count == 0 && Continues(s, recovery, rest)
    ensures rest == []
  {
    hide Coherent;
    ClosedTurnRepair(EmptyScan, recovery);
    SomeDraft(rest);
  }

  /** n records of a repair later: n answers fewer are left, and one more record than that closes the turn. */
  predicate Moved(s: Scan, s': Scan, n: nat) {
    && Left(s') == Drop(Left(s), n) && s'.originOrder == s.originOrder
    && (s'.openTurn.Some? <==> s.openTurn.Some? && n <= |Left(s)|)
  }

  lemma RepairableTyped(stream: StreamKey, s: Scan)
    requires Repairable(stream, s)
    ensures Typed(s)
  {
    hide Coherent, Typed;
  }

  lemma RepairStep(stream: StreamKey, s: Scan, recovery: Recovery, rest: seq<Draft>, recordId: Id)
    requires Repairable(stream, s) && Continues(s, recovery, rest) && rest != [] && recordId !in s.recordIds
    ensures Step(stream, s, Prepared(rest[0], recordId, s.expected)).Ok?
    ensures Progress(stream, s, recovery, rest, recordId, Step(stream, s, Prepared(rest[0], recordId, s.expected)).value)
  {
    hide Repairable, Step, Continues, Progress, FirstUnanswered, RestoredBy;
    RepairableTyped(stream, s);
    if s.count == 0 {
      EmptyNothingLeft(stream, s, recovery, rest);
    } else if s.openTurn.None? {
      RunCloseProgress(stream, s, recovery, rest, recordId);
    } else if Unanswered(s.openTurn.value) {
      AnswerProgress(stream, s, recovery, rest, recordId);
    } else {
      ClosureProgress(stream, s, recovery, rest, recordId);
    }
  }

  /** Any first part of a repair is accepted, and what it leaves to repair is the other part. */
  lemma {:induction false} RepairSteps(stream: StreamKey, s: Scan, recovery: Recovery, done: seq<Draft>, rest: seq<Draft>, ids: seq<Id>)
    requires Repairable(stream, s) && Continues(s, recovery, done + rest) && |done| <= |ids| && FreshIds(ids, s.recordIds)
    ensures StepAll(stream, s, PrepareAll(s.expected, done, ids)).Ok?
    ensures var s' := StepAll(stream, s, PrepareAll(s.expected, done, ids)).value;
      && Repairable(stream, s') && Continues(s', recovery, rest) && RestoredBy(s', rest) == RestoredBy(s, done + rest)
      && s'.count == s.count + |done| && Moved(s, s', |done|)
    decreases |done|
  {
    hide Coherent, Step, Continues, Typed, RestoredBy, Pending, Left;
    if done == [] {
      assert done + rest == rest;
    } else {
      RepairStep(stream, s, recovery, done + rest, ids[0]);
      var s1 := Step(stream, s, Prepared(done[0], ids[0], s.expected)).value;
      assert (done + rest)[1..] == done[1..] + rest;
      RepairSteps(stream, s1, recovery, done[1..], rest, ids[1..]);
      var records := PrepareAll(s.expected, done, ids);
      assert records[0] == Prepared(done[0], ids[0], s.expected) && records[1..] == PrepareAll(s1.expected, done[1..], ids[1..]);
    }
  }

  // ---------------------------------------------------------------- one restore, cut short after some appends

  function Min(a: nat, b: nat): nat {
    if a < b then a else b
  }

  /** The first budget records of a repair. */
  function FirstRecords(first: nat, drafts: seq<Draft>, ids: seq<Id>, budget: nat): seq<Record>
    requires |drafts| <= |ids|
  {
    PrepareAll(first, drafts[..Min(budget, |drafts|)], ids)
  }

  /** The repair of an accepted log. */
  function RepairOf(stream: StreamKey, log: seq<Record>, recovery: Recovery): seq<Draft>
    requires Accepted(stream, log)
  {
    AcceptedScan(stream, log);
    Repair(CommittedScan(stream, log).value, recovery)
  }

  /** The log after a restore that takes its record ids from ids and stops after at most budget appends. A rejected log
      and a reused record id leave it alone. */
  function AfterRestore(stream: StreamKey, log: seq<Record>, recovery: Recovery, ids: seq<Id>, budget: nat): seq<Record> {
    if !Accepted(stream, log) then log
    else
      var drafts := RepairOf(stream, log, recovery);
      if |ids| < |drafts| || !FreshIds(ids[..|drafts|], CommittedScan(stream, log).value.recordIds) then log
      else log + FirstRecords(CommittedScan(stream, log).value.expected, drafts, ids, budget)
  }

  /** What restoring an accepted log to the end reports. */
  function RestoreResult(stream: StreamKey, log: seq<Record>, recovery: Recovery): Restored
    requires Accepted(stream, log)
  {
    RestoredBy(CommittedScan(stream, log).value, RepairOf(stream, log, recovery))
  }

  ghost predicate Settleable(stream: StreamKey, log: seq<Record>) {
    Accepted(stream, log) && !Pending(CommittedScan(stream, log).value)
  }

  lemma {:induction false} FreshPrefix(ids: seq<Id>, n: nat, taken: set<Id>)
    requires n <= |ids| && FreshIds(ids[..n], taken)
    ensures forall k :: 0 <= k <= n ==> FreshIds(ids[..k], taken)
  {
    forall k | 0 <= k <= n ensures FreshIds(ids[..k], taken) {
      if k > 0 {
        assert ids[..n][1..] == ids[1..][..n - 1] && ids[..k][1..] == ids[1..][..k - 1];
        FreshPrefix(ids[1..], n - 1, taken + {ids[0]});
      }
    }
  }

  lemma {:induction false} PrepareTakes(first: nat, drafts: seq<Draft>, ids: seq<Id>, n: nat)
    requires |drafts| <= n <= |ids|
    ensures PrepareAll(first, drafts, ids) == PrepareAll(first, drafts, ids[..n])
    decreases |drafts|
  {
    if drafts != [] {
      assert ids[..n][1..] == ids[1..][..n - 1];
      PrepareTakes(first + 1, drafts[1..], ids[1..], n - 1);
    }
  }

  /** A scan of the log leaves rest to repair and restores to restored. */
  ghost predicate Leaves(stream: StreamKey, log: seq<Record>, recovery: Recovery, rest: seq<Draft>, restored: Restored) {
    && Accepted(stream, log)
    && var s := CommittedScan(stream, log).value;
    && Repairable(stream, s) && Continues(s, recovery, rest) && RestoredBy(s, rest) == restored
  }

  /** The state a scan of the extended log reaches. */
  lemma ExtendedScan(stream: StreamKey, log: seq<Record>, recovery: Recovery, ids: seq<Id>, n: nat)
    requires Settleable(stream, log)
    requires n <= |RepairOf(stream, log, recovery)| <= |ids|
    requires FreshIds(ids[..|RepairOf(stream, log, recovery)|], CommittedScan(stream, log).value.recordIds)
    ensures var s := CommittedScan(stream, log).value; var drafts := RepairOf(stream, log, recovery);
      var log' := log + PrepareAll(s.expected, drafts[..n], ids);
      Leaves(stream, log', recovery, drafts[n..], RestoreResult(stream, log, recovery))
      && Moved(s, CommittedScan(stream, log').value, n)
  {
    hide Coherent, Step, Continues, Typed, RestoredBy, Pending, Repair, PrepareAll, FreshIds, ScanLog, StepAll, Moved;
    var s := CommittedScan(stream, log).value;
    AcceptedScan(stream, log);
    var drafts := Repair(s, recovery);
    RepairContinues(stream, s, recovery);
    FreshPrefix(ids, |drafts|, s.recordIds);
    PrepareTakes(s.expected, drafts[..n], ids, n);
    assert drafts == drafts[..n] + drafts[n..];
    RepairSteps(stream, s, recovery, drafts[..n], drafts[n..], ids[..n]);
    var records := PrepareAll(s.expected, drafts[..n], ids);
    ScanAppends(stream, log, records);
    assert |log + records| == |log| + n;
    var s' := ScanLog(stream, log + records).value;
    assert s'.retained ==> s'.count >= 2;
  }

  // ---------------------------------------------------------------- any number of restores

  /** One restore: what it reads, the record ids it draws and the number of appends it lives to make. */
  datatype Attempt = Attempt(recovery: Recovery, ids: seq<Id>, budget: nat)

  function AfterAttempt(stream: StreamKey, log: seq<Record>, a: Attempt): seq<Record> {
    AfterRestore(stream, log, a.recovery, a.ids, a.budget)
  }

  /** How many records the attempt appends. */
  function Appends(stream: StreamKey, log: seq<Record>, a: Attempt): nat {
    if !Accepted(stream, log) then 0
    else
      var drafts := RepairOf(stream, log, a.recovery);
      if |a.ids| < |drafts| || !FreshIds(a.ids[..|drafts|], CommittedScan(stream, log).value.recordIds) then 0
      else Min(a.budget, |drafts|)
  }

  /** The log after restores that are each cut short after their budget. */
  function AfterAttempts(stream: StreamKey, log: seq<Record>, attempts: seq<Attempt>): seq<Record>
    decreases |attempts|
  {
    if attempts == [] then log else AfterAttempts(stream, AfterAttempt(stream, log, attempts[0]), attempts[1..])
  }

  /** Whose reading answers the k-th call that the log leaves to answer: the attempt's that appends its result, or the
      last restore's. */
  function Reader(stream: StreamKey, log: seq<Record>, attempts: seq<Attempt>, last: Recovery, k: nat): Recovery
    decreases |attempts|
  {
    if attempts == [] then last
    else
      var n := Appends(stream, log, attempts[0]);
      if k < n then attempts[0].recovery
      else Reader(stream, AfterAttempt(stream, log, attempts[0]), attempts[1..], last, k - n)
  }

  /** The calls that a restore of an accepted log answers. */
  function LeftOf(stream: StreamKey, log: seq<Record>): seq<OpenToolCall>
    requires Accepted(stream, log)
  {
    Left(CommittedScan(stream, log).value)
  }

  function MessagesOf(stream: StreamKey, log: seq<Record>): seq<Message>
    requires Accepted(stream, log)
  {
    CommittedScan(stream, log).value.messages
  }

  /** The attempt's own recovery would end the same from where it stopped. */
  lemma AttemptLeaves(stream: StreamKey, log: seq<Record>, a: Attempt)
    requires Settleable(stream, log)
    ensures var log' := AfterAttempt(stream, log, a); var n := Appends(stream, log, a);
      && n <= |RepairOf(stream, log, a.recovery)|
      && Settleable(stream, log')
      && Leaves(stream, log', a.recovery, RepairOf(stream, log, a.recovery)[n..], RestoreResult(stream, log, a.recovery))
      && Moved(CommittedScan(stream, log).value, CommittedScan(stream, log').value, n)
  {
    hide Coherent, CommittedScan, Continues, Typed, RestoredBy, Pending, Repair, PrepareAll, FreshIds, Moved;
    var drafts := RepairOf(stream, log, a.recovery);
    var n := Appends(stream, log, a);
    AcceptedScan(stream, log);
    if |a.ids| >= |drafts| && FreshIds(a.ids[..|drafts|], CommittedScan(stream, log).value.recordIds) {
      ExtendedScan(stream, log, a.recovery, a.ids, n);
    } else {
      assert drafts[0..] == drafts;
      RepairContinues(stream, CommittedScan(stream, log).value, a.recovery);
      NothingMoved(CommittedScan(stream, log).value);
    }
  }

  lemma NothingMoved(s: Scan)
    ensures Moved(s, s, 0)
  {}

  /** An attempt answers the first calls left, and leaves the others. */
  lemma AttemptAnswers(stream: StreamKey, log: seq<Record>, a: Attempt)
    requires Settleable(stream, log)
    ensures var log' := AfterAttempt(stream, log, a); var n := Appends(stream, log, a);
      && Settleable(stream, log')
      && LeftOf(stream, log') == Drop(LeftOf(stream, log), n)
      && MessagesOf(stream, log') == MessagesOf(stream, log) + Answers(LeftOf(stream, log)[..Min(n, |LeftOf(stream, log)|)], a.recovery)
  {
    hide Coherent, CommittedScan, Typed, Pending, Repair, Left, AfterAttempt, Appends, DraftMessages, DraftRuns, Answers, Continues;
    AttemptLeaves(stream, log, a);
    var log', n := AfterAttempt(stream, log, a), Appends(stream, log, a);
    SettleableIsRepairable(stream, log);
    SettleableIsRepairable(stream, log');
    AnsweredSoFar(stream, CommittedScan(stream, log).value, CommittedScan(stream, log').value, a.recovery, n,
                  RepairOf(stream, log, a.recovery)[n..]);
  }

  lemma AnsweredSoFar(stream: StreamKey, s: Scan, s': Scan, recovery: Recovery, n: nat, rest: seq<Draft>)
    requires Repairable(stream, s) && Repairable(stream, s') && Continues(s', recovery, rest)
    requires RestoredBy(s', rest) == RestoredBy(s, Repair(s, recovery)) && Left(s') == Drop(Left(s), n)
    ensures s'.messages == s.messages + Answers(Left(s)[..Min(n, |Left(s)|)], recovery)
  {
    hide Coherent, Typed, Pending, Repair, Left, DraftMessages, DraftRuns, Continues, ResultMessage;
    RepairAnswers(stream, s, recovery);
    RestSays(stream, s', recovery, rest);
    var m := Min(n, |Left(s)|);
    assert Answers(Left(s), recovery) == Answers(Left(s)[..m], recovery) + Answers(Left(s'), recovery);
    CancelRight(s'.messages, s.messages + Answers(Left(s)[..m], recovery), Answers(Left(s'), recovery));
  }

  lemma SettleableIsRepairable(stream: StreamKey, log: seq<Record>)
    requires Settleable(stream, log)
    ensures Repairable(stream, CommittedScan(stream, log).value)
  {
    AcceptedScan(stream, log);
  }

  lemma RestSays(stream: StreamKey, s: Scan, recovery: Recovery, rest: seq<Draft>)
    requires Repairable(stream, s) && Continues(s, recovery, rest)
    ensures DraftMessages(rest) == Answers(Left(s), recovery)
  {
    hide Coherent, Repair;
    if s.openTurn.Some? {
      RepairAnswers(stream, s, recovery);
    } else {
      ClosesSayNothing(rest);
    }
  }

  lemma CancelRight<T>(a: seq<T>, b: seq<T>, c: seq<T>)
    requires a + c == b + c
    ensures a == b
  {
    assert |a| == |b|;
    assert (a + c)[..|a|] == a && (b + c)[..|b|] == b;
  }

  /** What restoring reports is what the log replays and the answers to the calls that it leaves. */
  lemma ReportsAnswers(stream: StreamKey, log: seq<Record>, recovery: Recovery)
    requires Settleable(stream, log)
    ensures RestoreResult(stream, log, recovery).messages == MessagesOf(stream, log) + Answers(LeftOf(stream, log), recovery)
  {
    hide Coherent, CommittedScan, Repair, Left, Typed;
    SettleableIsRepairable(stream, log);
    RepairAnswers(stream, CommittedScan(stream, log).value, recovery);
  }

  /** Restoring survives any number of crashes, each at any append and each attempt with its own readings: the log stays
      accepted, and it restores to the messages it had and, for each call left, the result read by the attempt that
      appended it. */
  lemma {:induction false} CrashesAnswer(stream: StreamKey, log: seq<Record>, attempts: seq<Attempt>, last: Recovery)
    requires Settleable(stream, log)
    ensures Settleable(stream, AfterAttempts(stream, log, attempts))
    ensures var messages := RestoreResult(stream, AfterAttempts(stream, log, attempts), last).messages;
      && MessagesOf(stream, log) <= messages && |messages| == |MessagesOf(stream, log)| + |LeftOf(stream, log)|
      && forall k :: 0 <= k < |LeftOf(stream, log)| ==>
           messages[|MessagesOf(stream, log)| + k] == ResultMessage(LeftOf(stream, log)[k], Reader(stream, log, attempts, last, k))
    decreases |attempts|
  {
    hide AfterAttempt, Appends, Accepted, Pending, CommittedScan, RestoreResult, MessagesOf, LeftOf, ResultMessage;
    if attempts == [] {
      ReportsAnswers(stream, log, last);
    } else {
      var next, n := AfterAttempt(stream, log, attempts[0]), Appends(stream, log, attempts[0]);
      AttemptAnswers(stream, log, attempts[0]);
      CrashesAnswer(stream, next, attempts[1..], last);
      var front, calls := MessagesOf(stream, log), LeftOf(stream, log);
      var messages := RestoreResult(stream, AfterAttempts(stream, log, attempts), last).messages;
      forall k | 0 <= k < |calls|
        ensures messages[|front| + k] == ResultMessage(calls[k], Reader(stream, log, attempts, last, k))
      {
        if k < n {
          assert messages[|front| + k] == MessagesOf(stream, next)[|front| + k];
        } else {
          assert calls[k] == LeftOf(stream, next)[k - n];
        }
      }
    }
  }

  /** It also closes the same deferred runs. */
  lemma {:induction false} CrashesCloseSame(stream: StreamKey, log: seq<Record>, attempts: seq<Attempt>, last: Recovery, other: Recovery)
    requires Settleable(stream, log)
    ensures var log' := AfterAttempts(stream, log, attempts);
      Settleable(stream, log') && SameRuns(RestoreResult(stream, log', last).closed, RestoreResult(stream, log, other).closed)
    decreases |attempts|
  {
    hide AfterAttempt, Accepted, Pending, CommittedScan, RestoreResult;
    ClosesWhoeverReads(stream, log, last, other);
    if attempts != [] {
      var a := attempts[0];
      var next := AfterAttempt(stream, log, a);
      AttemptClosesSame(stream, log, a);
      CrashesCloseSame(stream, next, attempts[1..], last, a.recovery);
      ClosesWhoeverReads(stream, log, a.recovery, other);
    }
  }

  lemma ClosesWhoeverReads(stream: StreamKey, log: seq<Record>, a: Recovery, b: Recovery)
    requires Settleable(stream, log)
    ensures RestoreResult(stream, log, a).closed == RestoreResult(stream, log, b).closed
  {
    hide Coherent, CommittedScan, Repair, Closing, Typed;
    SettleableIsRepairable(stream, log);
    RepairAnswers(stream, CommittedScan(stream, log).value, a);
    RepairAnswers(stream, CommittedScan(stream, log).value, b);
  }

  lemma AttemptClosesSame(stream: StreamKey, log: seq<Record>, a: Attempt)
    requires Settleable(stream, log)
    ensures var log' := AfterAttempt(stream, log, a);
      Settleable(stream, log') && SameRuns(RestoreResult(stream, log', a.recovery).closed, RestoreResult(stream, log, a.recovery).closed)
  {
    hide Coherent, CommittedScan, Continues, Typed, RestoredBy, Pending, Repair, Moved;
    AttemptLeaves(stream, log, a);
    var log' := AfterAttempt(stream, log, a);
    ContinuingRestoresSame(stream, CommittedScan(stream, log').value, a.recovery,
                           RepairOf(stream, log, a.recovery)[Appends(stream, log, a)..]);
  }

  // ---------------------------------------------------------------- comparison with one undisturbed restore

  /** The host answers alike for a call that had started; the clocks may differ. */
  ghost predicate Agree(a: Recovery, b: Recovery) {
    forall start, call :: a.started(start, call) == b.started(start, call)
  }

  /** The call's result carries a clock reading of the restore that answers it. */
  predicate Synthetic(tool: OpenToolCall, recovery: Recovery) {
    tool.start.None? || recovery.started(tool.start.value, tool.call).None?
  }

  /** The same result with perhaps another time stamp. */
  predicate Restamped(m: Message, m': Message) {
    m.ToolResultMessage? && m'.ToolResultMessage? && m' == m.(timestamp := m'.timestamp)
  }

  /** Agreeing restores answer a call alike, but for the clock reading in a synthetic result. */
  lemma AgreeingAnswers(tool: OpenToolCall, a: Recovery, b: Recovery)
    requires Agree(a, b)
    ensures ResultMessage(tool, a).ToolResultMessage? && ResultMessage(tool, b).ToolResultMessage?
    ensures !Synthetic(tool, b) ==> ResultMessage(tool, a) == ResultMessage(tool, b)
    ensures Synthetic(tool, b) ==>
              && ResultMessage(tool, a) == ResultMessage(tool, b).(timestamp := a.clock(tool.sourceIndex))
              && ResultMessage(tool, b).timestamp == b.clock(tool.sourceIndex)
  {
    hide Agree, SyntheticNotStarted, SyntheticOutcomeUnknown;
    SyntheticsStamped(a.clock(tool.sourceIndex), b.clock(tool.sourceIndex));
    if tool.start.Some? { SameStarted(tool.start.value, tool.call, a, b); }
  }

  lemma SameStarted(start: Record, call: ToolCall, a: Recovery, b: Recovery)
    requires Agree(a, b)
    ensures a.started(start, call) == b.started(start, call)
  {}

  lemma SyntheticsStamped(now: int, before: int)
    ensures SyntheticNotStarted(now) == SyntheticNotStarted(before).(timestamp := now)
    ensures SyntheticOutcomeUnknown(now) == SyntheticOutcomeUnknown(before).(timestamp := now)
    ensures SyntheticNotStarted(before).timestamp == before && SyntheticOutcomeUnknown(before).timestamp == before
  {
    hide SyntheticText;
  }

  lemma {:induction false} ReaderAgrees(stream: StreamKey, log: seq<Record>, attempts: seq<Attempt>, last: Recovery, k: nat, other: Recovery)
    requires Agree(last, other) && forall a :: a in attempts ==> Agree(a.recovery, other)
    ensures Agree(Reader(stream, log, attempts, last, k), other)
    decreases |attempts|
  {
    hide Agree, Appends, AfterAttempt;
    if attempts != [] && k >= Appends(stream, log, attempts[0]) {
      ReaderAgrees(stream, AfterAttempt(stream, log, attempts[0]), attempts[1..], last, k - Appends(stream, log, attempts[0]), other);
    }
  }

  /** The same replayed messages but for the time stamps of the results that carry a clock reading, and the same closed
      deferred runs, as one undisturbed restore would have reported. */
  lemma CrashesKeepOutcome(stream: StreamKey, log: seq<Record>, attempts: seq<Attempt>, last: Recovery, undisturbed: Recovery)
    requires Settleable(stream, log)
    requires Agree(last, undisturbed) && forall a :: a in attempts ==> Agree(a.recovery, undisturbed)
    ensures Settleable(stream, AfterAttempts(stream, log, attempts))
    ensures var front, calls := MessagesOf(stream, log), LeftOf(stream, log);
      var resumed := RestoreResult(stream, AfterAttempts(stream, log, attempts), last);
      var whole := RestoreResult(stream, log, undisturbed);
      && SameRuns(resumed.closed, whole.closed)
      && |resumed.messages| == |whole.messages| == |front| + |calls|
      && front <= resumed.messages && front <= whole.messages
      && forall k :: 0 <= k < |calls| ==>
           if Synthetic(calls[k], undisturbed) then Restamped(whole.messages[|front| + k], resumed.messages[|front| + k])
           else resumed.messages[|front| + k] == whole.messages[|front| + k]
  {
    hide AfterAttempts, Accepted, Pending, CommittedScan, RestoreResult, MessagesOf, LeftOf, ResultMessage, Synthetic, Agree, Reader;
    CrashesAnswer(stream, log, attempts, last);
    CrashesCloseSame(stream, log, attempts, last, undisturbed);
    ReportsAnswers(stream, log, undisturbed);
    var calls := LeftOf(stream, log);
    forall k | 0 <= k < |calls|
      ensures var reader := Reader(stream, log, attempts, last, k);
        if Synthetic(calls[k], undisturbed) then Restamped(ResultMessage(calls[k], undisturbed), ResultMessage(calls[k], reader))
        else ResultMessage(calls[k], reader) == ResultMessage(calls[k], undisturbed)
    {
      ReaderAgrees(stream, log, attempts, last, k, undisturbed);
      AgreeingAnswers(calls[k], Reader(stream, log, attempts, last, k), undisturbed);
    }
  }

  /** The messages are the same to the last stamp exactly when no call left takes a clock reading, or each reading is
      the one that the undisturbed restore would have taken. */
  lemma MessagesSameWhenReadingsAre(stream: StreamKey, log: seq<Record>, attempts: seq<Attempt>, last: Recovery, undisturbed: Recovery)
    requires Settleable(stream, log)
    requires Agree(last, undisturbed) && forall a :: a in attempts ==> Agree(a.recovery, undisturbed)
    ensures Settleable(stream, AfterAttempts(stream, log, attempts))
    ensures RestoreResult(stream, AfterAttempts(stream, log, attempts), last).messages
            == RestoreResult(stream, log, undisturbed).messages
            <==> forall k :: 0 <= k < |LeftOf(stream, log)| && Synthetic(LeftOf(stream, log)[k], undisturbed) ==>
                   Reader(stream, log, attempts, last, k).clock(LeftOf(stream, log)[k].sourceIndex)
                   == undisturbed.clock(LeftOf(stream, log)[k].sourceIndex)
  {
    hide AfterAttempts, Accepted, Pending, CommittedScan, RestoreResult, MessagesOf, LeftOf, ResultMessage, Synthetic, Agree, Reader, Restamped;
    CrashesAnswer(stream, log, attempts, last);
    ReportsAnswers(stream, log, undisturbed);
    var calls, front := LeftOf(stream, log), MessagesOf(stream, log);
    var resumed := RestoreResult(stream, AfterAttempts(stream, log, attempts), last).messages;
    var whole := RestoreResult(stream, log, undisturbed).messages;
    forall k | 0 <= k < |calls|
      ensures resumed[|front|..][k] == whole[|front|..][k]
              <==> (Synthetic(calls[k], undisturbed) ==>
                      Reader(stream, log, attempts, last, k).clock(calls[k].sourceIndex) == undisturbed.clock(calls[k].sourceIndex))
    {
      ReaderAgrees(stream, log, attempts, last, k, undisturbed);
      AgreeingAnswers(calls[k], Reader(stream, log, attempts, last, k), undisturbed);
    }
    SameTails(resumed, whole, front, |calls|);
  }

  lemma SameTails<T>(a: seq<T>, b: seq<T>, front: seq<T>, n: nat)
    requires front <= a && front <= b && |a| == |b| == |front| + n
    ensures a == b <==> forall k :: 0 <= k < n ==> a[|front|..][k] == b[|front|..][k]
  {
    assert a == front + a[|front|..] && b == front + b[|front|..];
    if forall k :: 0 <= k < n ==> a[|front|..][k] == b[|front|..][k] { assert a[|front|..] == b[|front|..]; }
  }

  // ---------------------------------------------------------------- restoring to the end

  /** A restore that is not cut short closes the turn, leaves nothing to repair, and reports what a fresh scan finds. */
  lemma CompleteRestoreSettles(stream: StreamKey, log: seq<Record>, recovery: Recovery, ids: seq<Id>, budget: nat)
    requires Settleable(stream, log)
    requires |RepairOf(stream, log, recovery)| <= |ids| && |RepairOf(stream, log, recovery)| <= budget
    requires FreshIds(ids[..|RepairOf(stream, log, recovery)|], CommittedScan(stream, log).value.recordIds)
    ensures var log' := AfterRestore(stream, log, recovery, ids, budget);
      && Settleable(stream, log')
      && CommittedScan(stream, log').value.openTurn.None?
      && RepairOf(stream, log', recovery) == []
      && RestoreResult(stream, log, recovery)
         == Restored(CommittedScan(stream, log').value.messages, CommittedScan(stream, log').value.terminalRuns)
  {
    hide Coherent, CommittedScan, Continues, Typed, Pending, Repair, PrepareAll, FreshIds, Moved;
    var drafts := RepairOf(stream, log, recovery);
    ExtendedScan(stream, log, recovery, ids, |drafts|);
    assert drafts[|drafts|..] == [];
    var log' := AfterRestore(stream, log, recovery, ids, budget);
    AcceptedScan(stream, log');
    NothingLeft(CommittedScan(stream, log').value, recovery);
  }

  /** Crash anywhere any number of times, then restore once to the end: the repaired log has no open turn, a scan of it
      finds what the last restore reported, and no further restore, whatever it reads, appends anything. */
  lemma EventuallyRestored(stream: StreamKey, log: seq<Record>, attempts: seq<Attempt>, last: Attempt, again: Attempt)
    requires Settleable(stream, log)
    requires var crashed := AfterAttempts(stream, log, attempts);
      Accepted(stream, crashed) ==> Completes(stream, crashed, last)
    ensures var crashed := AfterAttempts(stream, log, attempts); var log' := AfterAttempt(stream, crashed, last);
      && Settleable(stream, crashed) && Settleable(stream, log')
      && CommittedScan(stream, log').value.openTurn.None?
      && AfterAttempt(stream, log', again) == log'
      && RestoreResult(stream, crashed, last.recovery)
         == Restored(CommittedScan(stream, log').value.messages, CommittedScan(stream, log').value.terminalRuns)
  {
    hide AfterAttempts, RestoreResult, RepairOf, CommittedScan, AfterRestore;
    var crashed := AfterAttempts(stream, log, attempts);
    CrashesAnswer(stream, log, attempts, last.recovery);
    CompleteRestoreSettles(stream, crashed, last.recovery, last.ids, last.budget);
    SettledWhoeverReads(stream, AfterAttempt(stream, crashed, last), last.recovery, again.recovery);
    SettledRestore(stream, AfterAttempt(stream, crashed, last), again.recovery, again.ids, again.budget);
  }

  /** The attempt has fresh ids and appends enough for the whole repair. */
  ghost predicate Completes(stream: StreamKey, log: seq<Record>, a: Attempt)
    requires Accepted(stream, log)
  {
    var n := |RepairOf(stream, log, a.recovery)|;
    n <= |a.ids| && n <= a.budget && FreshIds(a.ids[..n], CommittedScan(stream, log).value.recordIds)
  }

  lemma SettledWhoeverReads(stream: StreamKey, log: seq<Record>, a: Recovery, b: Recovery)
    requires Settleable(stream, log) && CommittedScan(stream, log).value.openTurn.None? && RepairOf(stream, log, a) == []
    ensures RepairOf(stream, log, b) == []
  {
    hide CommittedScan, RunCloses;
    AcceptedScan(stream, log);
    ClosedTurnRepair(CommittedScan(stream, log).value, a);
    ClosedTurnRepair(CommittedScan(stream, log).value, b);
  }

  lemma SettledRestore(stream: StreamKey, log: seq<Record>, recovery: Recovery, ids: seq<Id>, budget: nat)
    requires Accepted(stream, log) && RepairOf(stream, log, recovery) == []
    ensures AfterRestore(stream, log, recovery, ids, budget) == log
  {
    hide CommittedScan, RepairOf;
  }
}
