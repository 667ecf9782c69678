/** One action record: its identity, its invariant and the transitions that return a new record. */
module ActionRecords {
  import opened Wrappers

  type Id = string

  /** A value in canonical JSON text, so equal values are equal strings. */
  type Json = string

  /** Canonical timestamps are totally ordered, so an instant stands for its text. */
  type Timestamp = int

  datatype Coordinate = Coordinate(sessionId: Id, actorId: Id, runId: Id, turn: nat)

  datatype Authority = Authority(timelineId: Id, generation: nat, revision: nat)

  datatype ReplayPolicy = Never | Safe | Recoverable

  datatype Status = Pending | Claimed | Succeeded | Failed | Uncertain

  datatype GoalBinding = GoalBinding(
    goalId: Id, ownerId: Id, timelineId: Id, generation: nat,
    sessionId: Option<Id>, actorId: Option<Id>,
    stepId: Id, expectedRevision: nat, inputId: Id)

  // A digest of canonical content is the content itself: two digests agree exactly when the contents do.
  // Conflict keys are digested in sorted order, so as a set.

  datatype OperationId = OperationId(coordinate: Coordinate, actionName: Id, operationKey: Id)

  datatype PayloadFingerprint = PayloadFingerprint(payload: Json)

  datatype IntentFingerprint = IntentFingerprint(
    coordinate: Coordinate, actionName: Id, operationKey: Id, payload: Json, expectedAuthority: Authority,
    conflictKeys: set<Id>, replayPolicy: ReplayPolicy, goalProjection: Option<GoalBinding>)

  datatype Intent = Intent(
    sessionId: Id, actorId: Id,
    operationId: OperationId, intentFingerprint: IntentFingerprint, payloadFingerprint: PayloadFingerprint,
    coordinate: Coordinate, actionName: Id, operationKey: Id, payload: Json, expectedAuthority: Authority,
    conflictKeys: seq<Id>, replayPolicy: ReplayPolicy, goalProjection: Option<GoalBinding>)

  datatype Claim = Claim(claimToken: Id, claimantId: Id, attempt: nat, claimedAt: Timestamp, expiresAt: Timestamp)

  datatype ReceiptOutcome = OutcomeSucceeded | OutcomeRejected | OutcomeUnknown

  datatype Receipt = Receipt(
    operationId: OperationId, claimToken: Id, attempt: nat, outcome: ReceiptOutcome, receivedAt: Timestamp,
    result: Option<Json>, modelResult: Option<Json>, authorityAfter: Option<Authority>)

  datatype SettlementOutcome = Advanced | SourceFailed

  datatype Settlement = Settlement(outcome: SettlementOutcome, settledAt: Timestamp)

  datatype ActionRecord = ActionRecord(
    intent: Intent, status: Status, attempt: nat, createdAt: Timestamp, updatedAt: Timestamp,
    claim: Option<Claim>, receipt: Option<Receipt>, settlement: Option<Settlement>)

  datatype GoalLimits = GoalLimits(
    maxBindingBytes: nat, maxPendingPerStream: nat, maxListBatchSize: nat, maxRecordBytes: nat)

  /** Host configuration; the byte size of canonical text is the host's measure. */
  datatype Config = Config(limits: Option<GoalLimits>, bindingBytes: GoalBinding -> nat, recordBytes: ActionRecord -> nat)

  datatype ClaimRequest = ClaimRequest(
    sessionId: Id, actorId: Id, runId: Option<Id>,
    claimantId: Id, claimToken: Id, claimedAt: Timestamp, expiresAt: Timestamp, candidateLimit: int)

  datatype ReceiptInput = ReceiptInput(
    sessionId: Id, actorId: Id, operationId: OperationId,
    claimToken: Id, attempt: nat, outcome: ReceiptOutcome, receivedAt: Timestamp,
    result: Option<Json>, modelResult: Option<Json>, authorityAfter: Option<Authority>)

  datatype Resolution = Applied | NotApplied | UnknownResolution

  datatype ReconcileInput = ReconcileInput(
    sessionId: Id, actorId: Id, operationId: OperationId,
    claimToken: Id, attempt: nat, resolution: Resolution, reconciledAt: Timestamp,
    result: Option<Json>, modelResult: Option<Json>, authorityAfter: Option<Authority>)

  datatype SettlementInput = SettlementInput(
    sessionId: Id, actorId: Id, operationId: OperationId,
    intentFingerprint: IntentFingerprint, outcome: SettlementOutcome, settledAt: Timestamp)

  datatype ActionError =
    | IntentConflict
    | ClaimConflict
    | StateConflict
    | NotFound
    | InvalidRequest
    | GoalCapacity
    | GoalLimitsMissing
    | GoalRecordTooLarge
    | RunClosed
    | RunAuthorityFault

  /** changed is false when a replay hands back the record it was given. */
  datatype Transition = Transition(record: ActionRecord, releaseConflicts: bool, changed: bool)

  // ---------------------------------------------------------------- the record invariant

  predicate Distinct<T(==)>(xs: seq<T>) {
    forall i, j :: 0 <= i < j < |xs| ==> xs[i] != xs[j]
  }

  predicate BindingMatches(b: GoalBinding, intent: Intent, config: Config) {
    && b.timelineId == intent.expectedAuthority.timelineId
    && b.generation == intent.expectedAuthority.generation
    && (b.sessionId.Some? ==> b.sessionId.value == intent.sessionId)
    && (b.actorId.Some? ==> b.actorId.value == intent.actorId)
    && (config.limits.Some? ==> config.bindingBytes(b) <= config.limits.value.maxBindingBytes)
  }

  function FingerprintOf(i: Intent): IntentFingerprint {
    IntentFingerprint(i.coordinate, i.actionName, i.operationKey, i.payload, i.expectedAuthority,
                      (set k | k in i.conflictKeys), i.replayPolicy, i.goalProjection)
  }

  /** Preparing the intent again succeeds and yields the stored identities. */
  predicate Prepared(i: Intent, config: Config) {
    && i.coordinate.sessionId == i.sessionId
    && i.coordinate.actorId == i.actorId
    && Distinct(i.conflictKeys)
    && (i.goalProjection.Some? ==> BindingMatches(i.goalProjection.value, i, config))
    && i.operationId == OperationId(i.coordinate, i.actionName, i.operationKey)
    && i.intentFingerprint == FingerprintOf(i)
    && i.payloadFingerprint == PayloadFingerprint(i.payload)
  }

  /** No attempt was made, or the current attempt was rejected. */
  predicate KnownUnapplied(r: ActionRecord) {
    if r.attempt == 0 then r.receipt.None?
    else r.receipt.Some? && r.receipt.value.outcome == OutcomeRejected && r.receipt.value.attempt == r.attempt
  }

  predicate SourceFailedRecord(r: ActionRecord) {
    r.status == Failed && KnownUnapplied(r)
  }

  predicate SourceMatches(r: ActionRecord, outcome: SettlementOutcome) {
    match outcome
    case Advanced => r.status == Succeeded && r.receipt.Some? && r.receipt.value.outcome == OutcomeSucceeded
    case SourceFailed => SourceFailedRecord(r)
  }

  /** Claimed and uncertain records hold their conflict keys. */
  predicate Holding(r: ActionRecord) {
    r.status == Claimed || r.status == Uncertain
  }

  predicate Terminal(r: ActionRecord) {
    r.status == Succeeded || r.status == Failed
  }

  /** What every record must satisfy when it is checked in full. */
  predicate ValidRecord(r: ActionRecord, config: Config) {
    && Prepared(r.intent, config)
    && (Holding(r) <==> r.claim.Some?)
    && (r.claim.Some? ==>
          && r.claim.value.attempt == r.attempt
          && r.attempt != 0
          && r.claim.value.claimedAt < r.claim.value.expiresAt)
    && (r.receipt.Some? ==> r.receipt.value.operationId == r.intent.operationId)
    && (r.status == Pending || r.status == Failed ==> KnownUnapplied(r))
    && (r.settlement.Some? ==>
          && r.intent.goalProjection.Some?
          && SourceMatches(r, r.settlement.value.outcome)
          && (r.receipt.Some? ==> r.receipt.value.receivedAt <= r.settlement.value.settledAt)
          && r.updatedAt == r.settlement.value.settledAt)
  }

  /** What the stored history adds: which receipt a record in each status can carry. */
  ghost predicate Chronicled(r: ActionRecord) {
    && (r.receipt.Some? ==> 1 <= r.receipt.value.attempt <= r.attempt)
    && (r.status == Claimed && r.receipt.Some? ==> r.receipt.value.attempt < r.attempt)
    && (r.status == Uncertain && r.receipt.Some? && r.receipt.value.attempt == r.attempt ==>
          r.receipt.value.outcome == OutcomeUnknown)
    && (r.claim.Some? && r.receipt.Some? && r.receipt.value.attempt == r.attempt ==>
          r.receipt.value.claimToken == r.claim.value.claimToken)
    && (r.status == Succeeded ==>
          r.receipt.Some? && r.receipt.value.outcome == OutcomeSucceeded && r.receipt.value.attempt == r.attempt)
    && (r.intent.replayPolicy == Never ==> r.attempt <= 1 && (r.status == Pending ==> r.attempt == 0))
  }

  ghost predicate Sound(r: ActionRecord, config: Config) {
    ValidRecord(r, config) && Chronicled(r)
  }

  /** A record bound to a goal must fit its byte budget with a settlement already counted in. */
  predicate Fits(r: ActionRecord, config: Config) {
    r.intent.goalProjection.Some? ==>
      && config.limits.Some?
      && config.recordBytes(if r.settlement.None? then r.(settlement := Some(Settlement(SourceFailed, r.updatedAt))) else r)
         <= config.limits.value.maxRecordBytes
  }

  function FitError(config: Config): ActionError {
    if config.limits.None? then GoalLimitsMissing else GoalRecordTooLarge
  }

  // ---------------------------------------------------------------- transitions

  predicate ValidClaimRequest(request: ClaimRequest) {
    request.claimedAt < request.expiresAt && request.candidateLimit > 0
  }

  function ClaimAction(record: ActionRecord, request: ClaimRequest): Result<Transition, ActionError> {
    if !ValidClaimRequest(request) then Err(InvalidRequest)
    else if record.status != Pending then Err(StateConflict)
    else
      var attempt := record.attempt + 1;
      Ok(Transition(
           record.(status := Claimed, attempt := attempt, updatedAt := request.claimedAt,
                   claim := Some(Claim(request.claimToken, request.claimantId, attempt, request.claimedAt, request.expiresAt))),
           false, true))
  }

  /** Two receipts mean the same when they differ in their arrival time only. */
  predicate SameMeaning(a: Receipt, b: Receipt) {
    a.(receivedAt := 0) == b.(receivedAt := 0)
  }

  function ReplayReceipt(record: ActionRecord, receipt: Receipt): Result<Transition, ActionError>
    requires record.receipt.Some?
  {
    if record.receipt.value.claimToken != receipt.claimToken || record.receipt.value.attempt != receipt.attempt then
      Err(ClaimConflict)
    else if !SameMeaning(record.receipt.value, receipt) then Err(StateConflict)
    else Ok(Transition(record, false, false))
  }

  predicate ClaimMismatch(record: ActionRecord, claimToken: Id, attempt: nat) {
    record.claim.Some? && (record.claim.value.claimToken != claimToken || record.claim.value.attempt != attempt)
  }

  predicate ReceiptMatches(record: ActionRecord, claimToken: Id, attempt: nat) {
    record.receipt.Some? && record.receipt.value.claimToken == claimToken && record.receipt.value.attempt == attempt
  }

  function SettledRecord(record: ActionRecord, status: Status, at: Timestamp, receipt: Receipt): Transition {
    var updated := record.(status := status, updatedAt := at, receipt := Some(receipt));
    if status == Uncertain then Transition(updated, false, true)
    else Transition(updated.(claim := None), true, true)
  }

  function ReceiptAction(record: ActionRecord, input: ReceiptInput): Result<Transition, ActionError> {
    if input.claimToken == "" || input.attempt == 0 then Err(InvalidRequest)
    else if ClaimMismatch(record, input.claimToken, input.attempt) then Err(ClaimConflict)
    else
      var receipt := Receipt(input.operationId, input.claimToken, input.attempt, input.outcome, input.receivedAt,
                             input.result, input.modelResult, input.authorityAfter);
      if record.receipt.Some? && (record.claim.None? || ReceiptMatches(record, input.claimToken, input.attempt)) then
        ReplayReceipt(record, receipt)
      else if !Holding(record) || record.claim.None? then Err(StateConflict)
      else
        var status := match input.outcome
          case OutcomeSucceeded => Succeeded
          case OutcomeRejected => Failed
          case OutcomeUnknown => Uncertain;
        Ok(SettledRecord(record, status, input.receivedAt, receipt))
  }

  function ReconcileReceipt(input: ReconcileInput): Receipt {
    var outcome := match input.resolution
      case Applied => OutcomeSucceeded
      case NotApplied => OutcomeRejected
      case UnknownResolution => OutcomeUnknown;
    Receipt(input.operationId, input.claimToken, input.attempt, outcome, input.reconciledAt,
            input.result, input.modelResult, input.authorityAfter)
  }

  function ReconcileAction(record: ActionRecord, input: ReconcileInput): Result<Transition, ActionError> {
    if input.attempt == 0 then Err(InvalidRequest)
    else if ClaimMismatch(record, input.claimToken, input.attempt) then Err(ClaimConflict)
    else
      var receipt := ReconcileReceipt(input);
      if record.claim.None? then
        if record.receipt.Some? then ReplayReceipt(record, receipt) else Err(StateConflict)
      else if !Holding(record) then Err(StateConflict)
      else
        var answered := ReceiptMatches(record, input.claimToken, input.attempt);
        if answered && SameMeaning(record.receipt.value, receipt) then Ok(Transition(record, false, false))
        else if answered
                && (input.resolution == UnknownResolution || record.receipt.value.outcome != OutcomeUnknown) then
          Err(StateConflict)
        else
          var status := match input.resolution
            case UnknownResolution => Uncertain
            case Applied => Succeeded
            case NotApplied => if record.intent.replayPolicy != Never then Pending else Failed;
          Ok(SettledRecord(record, status, input.reconciledAt, receipt))
  }

  function ReclaimAction(record: ActionRecord, request: ClaimRequest): Result<Transition, ActionError> {
    if record.status != Claimed || record.intent.replayPolicy != Safe || record.claim.None?
       || record.claim.value.expiresAt > request.claimedAt then Err(StateConflict)
    else ClaimAction(record.(status := Pending), request)
  }

  function ExpireAction(record: ActionRecord, now: Timestamp): Result<Transition, ActionError> {
    if record.status != Claimed || record.claim.None? || record.claim.value.expiresAt > now then Err(StateConflict)
    else Ok(Transition(record.(status := Uncertain, updatedAt := now), false, true))
  }

  function RetireAction(record: ActionRecord, now: Timestamp): Result<Transition, ActionError> {
    if record.status != Pending || !KnownUnapplied(record) then Err(StateConflict)
    else Ok(Transition(record.(status := Failed, updatedAt := now), true, true))
  }

  function SettleAction(record: ActionRecord, input: SettlementInput): Result<Transition, ActionError> {
    if record.intent.intentFingerprint != input.intentFingerprint then Err(IntentConflict)
    else if record.settlement.Some? then
      if record.settlement.value.outcome != input.outcome then Err(StateConflict)
      else Ok(Transition(record, false, false))
    else if record.intent.goalProjection.None? || !SourceMatches(record, input.outcome) then Err(StateConflict)
    else Ok(Transition(record.(updatedAt := input.settledAt,
                               settlement := Some(Settlement(input.outcome, input.settledAt))), false, true))
  }

  // ---------------------------------------------------------------- what one transition keeps

  lemma ClaimKeepsSound(r: ActionRecord, request: ClaimRequest, config: Config)
    requires Sound(r, config)
    ensures ClaimAction(r, request).Ok? ==>
              var t := ClaimAction(r, request).value.record;
              && Sound(t, config) && Holding(t) && t.attempt == r.attempt + 1 && KnownUnapplied(r)
  {}

  lemma ReclaimKeepsSound(r: ActionRecord, request: ClaimRequest, config: Config)
    requires Sound(r, config)
    ensures ReclaimAction(r, request).Ok? ==>
              var t := ReclaimAction(r, request).value.record;
              && Sound(t, config) && Holding(t) && t.attempt == r.attempt + 1
              && r.intent.replayPolicy == Safe && r.claim.value.expiresAt <= request.claimedAt
  {}

  /** recordReceipt never rechecks the record: the transition alone keeps the full invariant, and it frees the
      conflict keys exactly when the record stops holding them. */
  lemma ReceiptKeepsSound(r: ActionRecord, input: ReceiptInput, config: Config)
    requires Sound(r, config) && input.operationId == r.intent.operationId
    ensures ReceiptAction(r, input).Ok? ==>
              var t := ReceiptAction(r, input).value;
              && Sound(t.record, config)
              && (t.changed ==> Holding(r) && (t.releaseConflicts <==> !Holding(t.record)))
              && (!t.changed ==> t.record == r && !t.releaseConflicts)
  {}

  lemma ReconcileKeepsSound(r: ActionRecord, input: ReconcileInput, config: Config)
    requires Sound(r, config) && input.operationId == r.intent.operationId
    ensures ReconcileAction(r, input).Ok? ==>
              var t := ReconcileAction(r, input).value;
              && Sound(t.record, config)
              && (t.changed ==> Holding(r) && (t.releaseConflicts <==> !Holding(t.record)))
              && (!t.changed ==> t.record == r && !t.releaseConflicts)
  {}

  /** The fence: a receipt changes a sound record exactly when it names the live claim of the current attempt and
      that attempt has no receipt yet. An earlier attempt's receipt therefore never changes anything. */
  lemma ReceiptFence(r: ActionRecord, input: ReceiptInput, config: Config)
    requires Sound(r, config) && input.operationId == r.intent.operationId && input.claimToken != ""
    ensures (ReceiptAction(r, input).Ok? && ReceiptAction(r, input).value.changed)
            <==> (&& r.claim.Some? && r.claim.value.claimToken == input.claimToken
                  && input.attempt == r.attempt
                  && (r.receipt.Some? ==> r.receipt.value.attempt < r.attempt))
  {}

  /** The same for reconciliation, which may also resolve the current attempt's unknown outcome. */
  lemma ReconcileFence(r: ActionRecord, input: ReconcileInput, config: Config)
    requires Sound(r, config) && input.operationId == r.intent.operationId
    ensures (ReconcileAction(r, input).Ok? && ReconcileAction(r, input).value.changed)
            <==> (&& r.claim.Some? && r.claim.value.claimToken == input.claimToken && input.attempt == r.attempt
                  && (r.receipt.Some? && r.receipt.value.attempt == r.attempt ==> input.resolution != UnknownResolution))
  {}
}
