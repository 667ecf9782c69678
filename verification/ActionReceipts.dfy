/** What receipts, reconciliations, settlements and admissions leave in the journal, field by field. */
module ActionReceipts {
  import opened Wrappers
  import opened ActionRecords
  import opened ActionJournal
  import opened ActionJournalInvariant
  import opened ActionJournalSteps

  // ---------------------------------------------------------------- receipts

  /** The receipt carries everything that was reported but its time. */
  predicate Carries(receipt: Receipt, input: ReceiptInput) {
    && receipt.operationId == input.operationId && receipt.claimToken == input.claimToken && receipt.attempt == input.attempt
    && receipt.outcome == input.outcome && receipt.result == input.result && receipt.modelResult == input.modelResult
    && receipt.authorityAfter == input.authorityAfter
  }

  /** The record waits for the outcome of this attempt under this token. */
  predicate AwaitsReceipt(r: ActionRecord, claimToken: Id, attempt: nat) {
    && r.claim.Some? && r.claim.value.claimToken == claimToken && r.attempt == attempt
    && (r.receipt.Some? ==> r.receipt.value.attempt < attempt)
  }

  /** The report names another attempt than the claimed one, or than the answered one when nothing is claimed. */
  predicate NamesAnother(r: ActionRecord, claimToken: Id, attempt: nat) {
    if r.claim.Some? then r.claim.value.claimToken != claimToken || r.claim.value.attempt != attempt
    else r.receipt.Some? && (r.receipt.value.claimToken != claimToken || r.receipt.value.attempt != attempt)
  }

  /** The record that a new receipt leaves. */
  predicate Received(r: ActionRecord, input: ReceiptInput, t: ActionRecord) {
    && t.receipt.Some? && Carries(t.receipt.value, input) && t.receipt.value.receivedAt == input.receivedAt
    && t.updatedAt == input.receivedAt
    && (t.status == Succeeded <==> input.outcome == OutcomeSucceeded)
    && (t.status == Failed <==> input.outcome == OutcomeRejected)
    && (t.status == Uncertain <==> input.outcome == OutcomeUnknown)
    && (if input.outcome == OutcomeUnknown then t.claim == r.claim else t.claim.None?)
    && t.intent == r.intent && t.attempt == r.attempt && t.createdAt == r.createdAt && t.settlement == r.settlement
  }

  /** A report is taken exactly when the record awaits it; one that was taken before changes nothing; the errors tell a
      foreign attempt from a contradiction. */
  lemma ReceiptExact(r: ActionRecord, input: ReceiptInput, config: Config)
    requires Sound(r, config) && input.operationId == r.intent.operationId
    ensures match ReceiptAction(r, input)
      case Ok(t) =>
        && input.claimToken != "" && !NamesAnother(r, input.claimToken, input.attempt)
        && (if t.changed then AwaitsReceipt(r, input.claimToken, input.attempt) && Received(r, input, t.record)
            else r.receipt.Some? && Carries(r.receipt.value, input) && t.record == r)
      case Err(e) =>
        && (e == InvalidRequest <==> input.claimToken == "" || input.attempt == 0)
        && (e == ClaimConflict || e == StateConflict || e == InvalidRequest)
        && (e != InvalidRequest ==> (e == ClaimConflict <==> NamesAnother(r, input.claimToken, input.attempt)))
        && (e != ClaimConflict && input.claimToken != "" ==>
              !AwaitsReceipt(r, input.claimToken, input.attempt) && (r.receipt.Some? ==> !Carries(r.receipt.value, input)))
  {}

  /** The journal behind a receipt: nothing but the one record changes, and that only as the report says. */
  ghost predicate ReceiptRecorded(j: Journal, j': Journal, result: Result<ActionRecord, ActionError>, input: ReceiptInput) {
    var key := RecordKey(input.sessionId, input.actorId, input.operationId);
    && j'.order == j.order && j'.sequences == j.sequences && j'.nextSequence == j.nextSequence
    && (key !in j.records ==> result == Err(NotFound) && j' == j)
    && (result.Err? ==> j' == j)
    && (key in j.records && input.claimToken == "" ==> result == Err(InvalidRequest))
    && (key in j.records && input.claimToken != "" ==>
          var r := j.records[key];
          if AwaitsReceipt(r, input.claimToken, input.attempt) then
            && (result.Err? ==> r.intent.goalProjection.Some? && (result.error == GoalLimitsMissing || result.error == GoalRecordTooLarge))
            && (result.Ok? ==> j'.records == j.records[key := result.value] && Received(r, input, result.value))
          else
            && j' == j
            && (result.Ok? <==> !NamesAnother(r, input.claimToken, input.attempt) && r.receipt.Some? && Carries(r.receipt.value, input))
            && (result.Ok? ==> result.value == r)
            && (result.Err? && input.attempt > 0 ==> result.error == if NamesAnother(r, input.claimToken, input.attempt) then ClaimConflict else StateConflict))
  }

  lemma RecordReceiptMeans(j: Journal, config: Config, input: ReceiptInput)
    requires Inv(j, config)
    ensures var o := RecordReceipt(j, config, input); ReceiptRecorded(j, o.journal, o.result, input)
  {
    hide Inv, ReceiptAction, Fits, Release, Sound, NamesAnother, AwaitsReceipt, Carries;
    var key := RecordKey(input.sessionId, input.actorId, input.operationId);
    if key in j.records {
      var r := j.records[key];
      InvRecord(j, config, key);
      ReceiptExact(r, input, config);
      if AwaitsReceipt(r, input.claimToken, input.attempt) { AwaitedIsNew(r, input, config); }
      FitsWithoutGoal(config);
    }
  }

  lemma AwaitedIsNew(r: ActionRecord, input: ReceiptInput, config: Config)
    requires Sound(r, config) && AwaitsReceipt(r, input.claimToken, input.attempt)
    ensures !NamesAnother(r, input.claimToken, input.attempt) && input.attempt > 0
    ensures r.receipt.Some? ==> !Carries(r.receipt.value, input)
  {}

  lemma FitsWithoutGoal(config: Config)
    ensures forall r: ActionRecord :: r.intent.goalProjection.None? ==> Fits(r, config)
  {}

  // ---------------------------------------------------------------- reconciliation

  /** The receipt carries what was reconciled: applied means succeeded, not applied means rejected. */
  predicate CarriesResolution(receipt: Receipt, input: ReconcileInput) {
    && receipt.operationId == input.operationId && receipt.claimToken == input.claimToken && receipt.attempt == input.attempt
    && (receipt.outcome == OutcomeSucceeded <==> input.resolution == Applied)
    && (receipt.outcome == OutcomeRejected <==> input.resolution == NotApplied)
    && receipt.result == input.result && receipt.modelResult == input.modelResult
    && receipt.authorityAfter == input.authorityAfter
  }

  /** The record waits for a resolution of this attempt; once its outcome is recorded as unknown, for a definite one. */
  predicate AwaitsResolution(r: ActionRecord, input: ReconcileInput) {
    && r.claim.Some? && r.claim.value.claimToken == input.claimToken && r.attempt == input.attempt
    && (r.receipt.Some? && r.receipt.value.attempt == r.attempt ==> input.resolution != UnknownResolution)
  }

  /** An action that was not applied may be tried again. */
  predicate MayRetry(r: ActionRecord, input: ReconcileInput) {
    input.resolution == NotApplied && r.intent.replayPolicy != Never
  }

  /** The record that a resolution leaves; one that could be retried fails when its run is closed. */
  predicate Resolved(r: ActionRecord, input: ReconcileInput, closed: bool, t: ActionRecord) {
    && t.receipt.Some? && CarriesResolution(t.receipt.value, input) && t.receipt.value.receivedAt == input.reconciledAt
    && t.updatedAt == input.reconciledAt
    && (t.status == Succeeded <==> input.resolution == Applied)
    && (t.status == Uncertain <==> input.resolution == UnknownResolution)
    && (t.status == Pending <==> MayRetry(r, input) && !closed)
    && (t.status == Failed <==> input.resolution == NotApplied && (r.intent.replayPolicy == Never || closed))
    && (if input.resolution == UnknownResolution then t.claim == r.claim else t.claim.None?)
    && t.intent == r.intent && t.attempt == r.attempt && t.createdAt == r.createdAt && t.settlement == r.settlement
  }

  lemma ReconcileExact(r: ActionRecord, input: ReconcileInput, config: Config)
    requires Sound(r, config) && input.operationId == r.intent.operationId
    ensures match ReconcileAction(r, input)
      case Ok(t) =>
        && !NamesAnother(r, input.claimToken, input.attempt)
        && (if t.changed then AwaitsResolution(r, input) && Resolved(r, input, false, t.record)
            else r.receipt.Some? && CarriesResolution(r.receipt.value, input) && t.record == r && !t.releaseConflicts)
      case Err(e) =>
        && (e == InvalidRequest <==> input.attempt == 0)
        && (e != InvalidRequest ==> e == if NamesAnother(r, input.claimToken, input.attempt) then ClaimConflict else StateConflict)
        && (e != ClaimConflict ==> !AwaitsResolution(r, input) && (r.receipt.Some? ==> !CarriesResolution(r.receipt.value, input)))
  {}

  /** The journal behind a reconciliation. What could be retried is checked against its run first: a closed run fails it,
      and when the run's authority cannot be asked nothing changes. */
  ghost predicate ResolutionRecorded(j: Journal, j': Journal, result: Result<ActionRecord, ActionError>, input: ReconcileInput,
                                     authority: AuthorityCheck) {
    var key := RecordKey(input.sessionId, input.actorId, input.operationId);
    && j'.order == j.order && j'.sequences == j.sequences && j'.nextSequence == j.nextSequence
    && (key !in j.records ==> result == Err(NotFound) && j' == j)
    && (result.Err? ==> j' == j)
    && (key in j.records ==>
          var r := j.records[key];
          var run := authority(r.intent.coordinate);
          if AwaitsResolution(r, input) then
            && (MayRetry(r, input) && run == Fault ==> result == Err(RunAuthorityFault))
            && (result.Err? && !(MayRetry(r, input) && run == Fault) ==>
                  r.intent.goalProjection.Some? && (result.error == GoalLimitsMissing || result.error == GoalRecordTooLarge))
            && (result.Ok? ==> j'.records == j.records[key := result.value] && Resolved(r, input, run == Closed, result.value))
          else if r.receipt.Some? && CarriesResolution(r.receipt.value, input) && !NamesAnother(r, input.claimToken, input.attempt) then
            && (r.status != Pending || run == RunOpen ==> result == Ok(r) && j' == j)
            && (r.status == Pending && run == Fault ==> result == Err(RunAuthorityFault))
            && (r.status == Pending && run == Closed && result.Ok? ==>
                  result.value == r.(status := Failed, updatedAt := input.reconciledAt) && j'.records == j.records[key := result.value])
          else
            && result.Err?
            && (input.attempt > 0 ==> result.error == if NamesAnother(r, input.claimToken, input.attempt) then ClaimConflict else StateConflict))
  }

  lemma ReconcileMeans(j: Journal, config: Config, input: ReconcileInput, authority: AuthorityCheck)
    requires Inv(j, config)
    ensures var o := Reconcile(j, config, input, authority); ResolutionRecorded(j, o.journal, o.result, input, authority)
  {
    hide Inv, ReconcileAction, RetireAction, Fits, Release, Sound, NamesAnother, AwaitsResolution, CarriesResolution;
    var key := RecordKey(input.sessionId, input.actorId, input.operationId);
    if key in j.records {
      var r := j.records[key];
      InvRecord(j, config, key);
      ReconcileExact(r, input, config);
      if AwaitsResolution(r, input) { AwaitedResolution(r, input, config); }
      if ReconcileAction(r, input).Ok? {
        ReconcileKeepsSound(r, input, config);
        RetiresPending(ReconcileAction(r, input).value.record, input.reconciledAt, config);
      }
      FitsWithoutGoal(config);
    }
  }

  /** A sound pending record can always be retired. */
  lemma RetiresPending(r: ActionRecord, now: Timestamp, config: Config)
    requires Sound(r, config)
    ensures r.status == Pending ==>
              RetireAction(r, now).Ok? && RetireAction(r, now).value.record == r.(status := Failed, updatedAt := now)
  {}

  lemma AwaitedResolution(r: ActionRecord, input: ReconcileInput, config: Config)
    requires Sound(r, config) && AwaitsResolution(r, input)
    ensures !NamesAnother(r, input.claimToken, input.attempt) && input.attempt > 0
    ensures r.receipt.Some? ==> !CarriesResolution(r.receipt.value, input)
  {}

  // ---------------------------------------------------------------- settlement

  /** A settlement says advanced of an action that succeeded and failed of one that failed. */
  predicate SettlesAs(r: ActionRecord, outcome: SettlementOutcome) {
    r.status == (if outcome == Advanced then Succeeded else Failed)
  }

  lemma SettleExact(r: ActionRecord, input: SettlementInput, config: Config)
    requires Sound(r, config)
    ensures match SettleAction(r, input)
      case Ok(t) =>
        && r.intent.intentFingerprint == input.intentFingerprint && r.intent.goalProjection.Some? && SettlesAs(r, input.outcome)
        && (t.changed <==> r.settlement.None?)
        && t.record.settlement.Some? && t.record.settlement.value.outcome == input.outcome
        && (if t.changed then t.record.settlement.value.settledAt == input.settledAt && t.record.updatedAt == input.settledAt
                              && t.record.(settlement := None, updatedAt := r.updatedAt) == r
            else t.record == r)
      case Err(e) =>
        && (e == IntentConflict <==> r.intent.intentFingerprint != input.intentFingerprint)
        && (e != IntentConflict ==> e == StateConflict && !(r.intent.goalProjection.Some? && SettlesAs(r, input.outcome)))
  {}

  /** The journal behind a settlement. Only a receipt that arrived later, or the record's size, refuses one that fits. */
  ghost predicate SettlementRecorded(j: Journal, j': Journal, result: Result<ActionRecord, ActionError>, input: SettlementInput, config: Config) {
    var key := RecordKey(input.sessionId, input.actorId, input.operationId);
    && j'.order == j.order && j'.sequences == j.sequences && j'.nextSequence == j.nextSequence && j'.conflicts == j.conflicts
    && (result.Err? ==> j' == j)
    && (config.limits.None? ==> result == Err(GoalLimitsMissing))
    && (config.limits.Some? && key !in j.records ==> result == Err(NotFound))
    && (config.limits.Some? && key in j.records ==>
          var r := j.records[key];
          if r.intent.intentFingerprint != input.intentFingerprint then result == Err(IntentConflict)
          else if r.intent.goalProjection.None? || !SettlesAs(r, input.outcome) then result == Err(StateConflict)
          else if r.settlement.Some? then result == Ok(r) && j' == j
          else
            && (result.Err? ==> (r.receipt.Some? && r.receipt.value.receivedAt > input.settledAt && result.error == StateConflict)
                                || result.error == GoalRecordTooLarge)
            && (result.Ok? ==>
                  && result.value == r.(updatedAt := input.settledAt, settlement := Some(Settlement(input.outcome, input.settledAt)))
                  && (r.receipt.Some? ==> r.receipt.value.receivedAt <= input.settledAt)
                  && j'.records == j.records[key := result.value]))
  }

  lemma SettleMeans(j: Journal, config: Config, input: SettlementInput)
    requires Inv(j, config)
    ensures var o := Settle(j, config, input); SettlementRecorded(j, o.journal, o.result, input, config)
  {
    hide Inv, SettleAction, ValidRecord, Fits, Release, Sound, SettlesAs;
    var key := RecordKey(input.sessionId, input.actorId, input.operationId);
    if config.limits.Some? && key in j.records {
      InvRecord(j, config, key);
      SettleExact(j.records[key], input, config);
      SettledOnce(j.records[key], input, config);
    }
  }

  lemma SettledOnce(r: ActionRecord, input: SettlementInput, config: Config)
    requires Sound(r, config)
    ensures SettleAction(r, input).Ok? && SettleAction(r, input).value.changed ==>
              && !SettleAction(r, input).value.releaseConflicts
              && (ValidRecord(SettleAction(r, input).value.record, config)
                  <==> (r.receipt.Some? ==> r.receipt.value.receivedAt <= input.settledAt))
    ensures r.settlement.Some? && r.settlement.value.outcome != input.outcome ==> !SettlesAs(r, input.outcome)
  {}

  // ---------------------------------------------------------------- admission

  /** How many records await their goal, counted over the record map. */
  ghost function AwaitingKeys(j: Journal, sessionId: Id, actorId: Id): set<RecordKey> {
    set k | k in j.records && k.sessionId == sessionId && k.actorId == actorId
            && j.records[k].intent.goalProjection.Some? && j.records[k].settlement.None?
  }

  lemma {:induction false} AwaitingCounted(j: Journal, sessionId: Id, actorId: Id, n: nat)
    requires Indexed(j) && Keyed(j) && Distinct(j.order) && n <= |j.order|
    ensures AwaitingGoals(j, sessionId, actorId, n) == |FirstOf(AwaitingKeys(j, sessionId, actorId), j.order, n)|
  {
    hide AwaitingKeys, FirstOf, AwaitsGoal;
    var keys := AwaitingKeys(j, sessionId, actorId);
    if n == 0 {
      NoneFirst(keys, j.order);
    } else {
      AwaitingCounted(j, sessionId, actorId, n - 1);
      AwaitsByKey(j, sessionId, actorId, j.order[n - 1]);
      OneMoreFirst(keys, j.order, n);
    }
  }

  ghost function FirstOf(keys: set<RecordKey>, order: seq<RecordKey>, n: nat): set<RecordKey>
    requires n <= |order|
  {
    set k | k in keys && k in order[..n]
  }

  lemma NoneFirst(keys: set<RecordKey>, order: seq<RecordKey>)
    ensures FirstOf(keys, order, 0) == {}
  {}

  lemma OneMoreFirst(keys: set<RecordKey>, order: seq<RecordKey>, n: nat)
    requires 0 < n <= |order| && Distinct(order)
    ensures |FirstOf(keys, order, n)| == |FirstOf(keys, order, n - 1)| + (if order[n - 1] in keys then 1 else 0)
  {
    assert order[..n] == order[..n - 1] + [order[n - 1]];
    assert FirstOf(keys, order, n) == FirstOf(keys, order, n - 1) + (if order[n - 1] in keys then {order[n - 1]} else {});
  }

  lemma AwaitsByKey(j: Journal, sessionId: Id, actorId: Id, k: RecordKey)
    requires Keyed(j) && k in j.records
    ensures AwaitsGoal(j.records[k], sessionId, actorId) <==> k in AwaitingKeys(j, sessionId, actorId)
  {}

  /** The journal behind an admission: what is stored is found by its own content; what is new starts pending at attempt
      zero under the next sequence, and the errors come in the order of the checks. */
  ghost predicate AdmissionRecorded(j: Journal, j': Journal, result: Result<ActionRecord, ActionError>, config: Config, intent: Intent,
                                    now: Timestamp, run: RunAuthority) {
    var key := RecordKey(intent.sessionId, intent.actorId, intent.operationId);
    var bound := intent.goalProjection.Some?;
    && (result.Err? || key in j.records ==> j' == j)
    && (key in j.records ==>
          result == if j.records[key].intent.intentFingerprint == intent.intentFingerprint then Ok(j.records[key]) else Err(IntentConflict))
    && (key !in j.records ==>
          if bound && config.limits.None? then result == Err(GoalLimitsMissing)
          else if bound && |AwaitingKeys(j, intent.sessionId, intent.actorId)| >= config.limits.value.maxPendingPerStream then
            result == Err(GoalCapacity)
          else if !Prepared(intent, config) then result == Err(StateConflict)
          else if result == Err(GoalRecordTooLarge) then bound
          else match run
            case Closed => result == Err(RunClosed)
            case Fault => result == Err(RunAuthorityFault)
            case RunOpen =>
              && result.Ok? && result.value.intent == intent && result.value.status == Pending && result.value.attempt == 0
              && result.value.createdAt == now && result.value.updatedAt == now
              && result.value.claim.None? && result.value.receipt.None? && result.value.settlement.None?
              && j'.records == j.records[key := result.value] && j'.order == j.order + [key] && j'.conflicts == j.conflicts
              && j'.sequences == j.sequences[key := j'.nextSequence] && j'.nextSequence == j.nextSequence + 1)
  }

  lemma EnsureMeans(j: Journal, config: Config, intent: Intent, now: Timestamp, authority: AuthorityCheck)
    requires Inv(j, config) && Indexed(j)
    ensures var o := Ensure(j, config, intent, now, authority);
      AdmissionRecorded(j, o.journal, o.result, config, intent, now, authority(intent.coordinate))
  {
    hide Inv, AwaitingGoals, Prepared, Fits, OrderOk, Keyed, TableOk, RecordsOk;
    InvParts(j, config);
    AllAwaitingCounted(j, intent.sessionId, intent.actorId);
    FitsWithoutGoal(config);
  }

  lemma AllAwaitingCounted(j: Journal, sessionId: Id, actorId: Id)
    requires Indexed(j) && Keyed(j) && OrderOk(j)
    ensures AwaitingGoals(j, sessionId, actorId, |j.order|) == |AwaitingKeys(j, sessionId, actorId)|
  {
    AwaitingCounted(j, sessionId, actorId, |j.order|);
    assert FirstOf(AwaitingKeys(j, sessionId, actorId), j.order, |j.order|) == AwaitingKeys(j, sessionId, actorId);
  }

  // ---------------------------------------------------------------- identities

  /** An intent's fingerprint is bound to its content: two prepared intents with one fingerprint are the same but for the
      order of their conflict keys, and so are stored under one key. */
  lemma FingerprintBindsIntent(a: Intent, b: Intent, config: Config)
    requires Prepared(a, config) && Prepared(b, config) && a.intentFingerprint == b.intentFingerprint
    ensures b == a.(conflictKeys := b.conflictKeys) && (forall k :: k in a.conflictKeys <==> k in b.conflictKeys)
    ensures |a.conflictKeys| == |b.conflictKeys|
  {
    hide BindingMatches;
    var keys := set k | k in a.conflictKeys;
    forall k ensures k in a.conflictKeys <==> k in b.conflictKeys {
      assert k in a.intentFingerprint.conflictKeys <==> k in b.intentFingerprint.conflictKeys;
    }
    DistinctCount(a.conflictKeys);
    DistinctCount(b.conflictKeys);
    assert keys == set k | k in b.conflictKeys;
  }

  lemma {:induction false} DistinctCount(xs: seq<Id>)
    requires Distinct(xs)
    ensures |set x | x in xs| == |xs|
  {
    if xs == [] {
      assert (set x | x in xs) == {};
    } else {
      var front, last := xs[..|xs| - 1], xs[|xs| - 1];
      assert xs == front + [last] && last !in front;
      DistinctCount(front);
      assert (set x | x in xs) == (set x | x in front) + {last};
    }
  }

  /** A stored record that is bound to a goal is of the goal's timeline, generation and, where it names them, session and
      actor. */
  lemma StoredBindingFits(j: Journal, config: Config, k: RecordKey)
    requires Inv(j, config) && k in j.records && j.records[k].intent.goalProjection.Some?
    ensures var i := j.records[k].intent; var b := i.goalProjection.value;
      && b.timelineId == i.expectedAuthority.timelineId && b.generation == i.expectedAuthority.generation
      && (b.sessionId == None || b.sessionId == Some(k.sessionId)) && (b.actorId == None || b.actorId == Some(k.actorId))
      && i.operationId == k.operationId && i.coordinate.sessionId == k.sessionId && i.coordinate.actorId == k.actorId
  {
    hide OrderOk, Keyed, TableOk, RecordsOk, Inv;
    InvRecord(j, config, k);
  }
}
