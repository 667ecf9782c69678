/** One-time approvals of actions: the transitions on one record, the store, and what a run of decisions and
    consumptions guarantees. */
module Approvals {
  import opened Wrappers
  import opened ActionRecords

  /** The content that a request is bound to; a fingerprint stands for it. */
  datatype RequestFingerprint = RequestFingerprint(
    coordinate: Coordinate, policyId: Id, operationId: OperationId, intentFingerprint: IntentFingerprint, actionName: Id,
    expectedAuthority: Authority, taskId: Option<Id>, presentation: Option<Json>)

  datatype ApprovalId = ApprovalId(operationId: OperationId, fingerprint: RequestFingerprint)

  datatype Request = Request(
    sessionId: Id, actorId: Id, coordinate: Coordinate, approvalId: ApprovalId, requestFingerprint: RequestFingerprint,
    policyId: Id, operationId: OperationId, intentFingerprint: IntentFingerprint, actionName: Id,
    expectedAuthority: Authority, taskId: Option<Id>, presentation: Option<Json>,
    requestedAt: Timestamp, expiresAt: Timestamp)

  datatype ApprovalStatus = Pending | Approved | Rejected | Consumed | Expired

  datatype Verdict = VerdictApproved | VerdictRejected

  datatype Decision = Decision(verdict: Verdict, reviewerId: Id, decidedAt: Timestamp, reason: Option<string>)

  datatype Approval = Approval(
    request: Request, status: ApprovalStatus, revision: nat, updatedAt: Timestamp,
    decision: Option<Decision>, consumedAt: Option<Timestamp>)

  datatype Fault = InvalidRecord | Conflict | NotFound | NotAdmissible

  // ---------------------------------------------------------------- what a valid record is

  function FingerprintOf(r: Request): RequestFingerprint {
    RequestFingerprint(r.coordinate, r.policyId, r.operationId, r.intentFingerprint, r.actionName, r.expectedAuthority,
                       r.taskId, r.presentation)
  }

  /** assertActionApprovalRequest: the identifiers are bound to the content. */
  predicate ValidRequest(r: Request) {
    && r.coordinate.sessionId == r.sessionId && r.coordinate.actorId == r.actorId
    && r.expiresAt > r.requestedAt
    && r.requestFingerprint == FingerprintOf(r)
    && r.approvalId == ApprovalId(r.operationId, r.requestFingerprint)
  }

  predicate DecisionOk(a: Approval) {
    && (a.decision.Some? ==> a.request.requestedAt <= a.decision.value.decidedAt < a.request.expiresAt)
    && (a.status == ApprovalStatus.Pending ==> a.decision.None?)
    && (a.status == Approved || a.status == Rejected || a.status == Consumed ==> a.decision.Some?)
    && (a.status == Approved || a.status == Consumed ==> a.decision.value.verdict == VerdictApproved)
    && (a.status == Rejected ==> a.decision.value.verdict == VerdictRejected)
    && (a.status == Approved || a.status == Rejected ==> a.updatedAt == a.decision.value.decidedAt)
  }

  predicate ConsumptionOk(a: Approval) {
    && (a.status == Consumed <==> a.consumedAt.Some?)
    && (a.consumedAt.Some? ==>
          && a.decision.Some? && a.decision.value.decidedAt <= a.consumedAt.value < a.request.expiresAt
          && a.updatedAt == a.consumedAt.value)
  }

  /** assertActionApprovalRecord. */
  predicate ValidApproval(a: Approval) {
    && ValidRequest(a.request) && a.revision >= 1 && DecisionOk(a) && ConsumptionOk(a)
    && (a.status == Expired ==> a.updatedAt == a.request.expiresAt)
  }

  // ---------------------------------------------------------------- transitions

  datatype DecisionInput = DecisionInput(
    expectedRevision: nat, requestFingerprint: RequestFingerprint, approve: bool, reviewerId: Id, reason: Option<string>,
    decidedAt: Timestamp)

  datatype ConsumeInput = ConsumeInput(
    coordinate: Coordinate, expectedRevision: nat, operationId: OperationId, intentFingerprint: IntentFingerprint,
    currentAuthority: Authority, consumedAt: Timestamp)

  function Advance(a: Approval, status: ApprovalStatus, updatedAt: Timestamp): Approval {
    a.(status := status, revision := a.revision + 1, updatedAt := updatedAt)
  }

  function Decide(a: Approval, input: DecisionInput): Result<Approval, Fault> {
    if !ValidApproval(a) then Err(InvalidRecord)
    else if a.status != ApprovalStatus.Pending || a.revision != input.expectedRevision then Err(Conflict)
    else if a.request.requestFingerprint != input.requestFingerprint then Err(Conflict)
    else if input.decidedAt < a.request.requestedAt then Err(Conflict)
    else if a.request.expiresAt <= input.decidedAt then Ok(Advance(a, Expired, a.request.expiresAt))
    else
      var verdict := if input.approve then VerdictApproved else VerdictRejected;
      Ok(Advance(a, if input.approve then Approved else Rejected, input.decidedAt)
         .(decision := Some(Decision(verdict, input.reviewerId, input.decidedAt, input.reason))))
  }

  function Consume(a: Approval, input: ConsumeInput): Result<Approval, Fault> {
    if !ValidApproval(a) then Err(InvalidRecord)
    else if a.status != Approved || a.revision != input.expectedRevision then Err(Conflict)
    else if a.request.coordinate != input.coordinate || a.request.operationId != input.operationId
            || a.request.intentFingerprint != input.intentFingerprint
            || a.request.expectedAuthority != input.currentAuthority then Err(Conflict)
    else if a.request.expiresAt <= input.consumedAt then Ok(Advance(a, Expired, a.request.expiresAt))
    else Ok(Advance(a, Consumed, input.consumedAt).(consumedAt := Some(input.consumedAt)))
  }

  function Expire(a: Approval, expectedRevision: nat, expiredAt: Timestamp): Result<Approval, Fault> {
    if !ValidApproval(a) then Err(InvalidRecord)
    else if a.status != ApprovalStatus.Pending || a.revision != expectedRevision || expiredAt < a.request.expiresAt then Err(Conflict)
    else Ok(Advance(a, Expired, a.request.expiresAt))
  }

  /** approvalRevisionForAdmission. */
  function RevisionForAdmission(a: Approval): Result<nat, Fault> {
    if !ValidApproval(a) then Err(InvalidRecord)
    else if a.status == Approved then Ok(a.revision)
    else if a.status != Consumed then Err(NotAdmissible)
    else if a.revision <= 1 then Err(InvalidRecord)
    else Ok(a.revision - 1)
  }

  // ---------------------------------------------------------------- single steps

  lemma DecidingKeepsValid(a: Approval, input: DecisionInput)
    ensures Decide(a, input).Ok? ==> ValidApproval(Decide(a, input).value)
  {}

  /** Consuming keeps the record valid exactly when the clock has not gone back behind the decision. */
  lemma ConsumingKeepsValid(a: Approval, input: ConsumeInput)
    requires Consume(a, input).Ok?
    ensures ValidApproval(Consume(a, input).value) <==> input.consumedAt >= a.decision.value.decidedAt
  {}

  /** A consumption is for the exact coordinate, operation, content and authority that was approved, before expiry, and
      admits under the revision that the approval had. */
  lemma ConsumptionIsExact(a: Approval, input: ConsumeInput)
    requires Consume(a, input).Ok? && Consume(a, input).value.status == Consumed
    ensures var c := Consume(a, input).value;
      && a.status == Approved && a.decision.Some? && a.decision.value.verdict == VerdictApproved && input.consumedAt < a.request.expiresAt
      && c.request == a.request && c.request.requestFingerprint.operationId == input.operationId
      && c.request.requestFingerprint.coordinate == input.coordinate
      && c.request.requestFingerprint.intentFingerprint == input.intentFingerprint
      && c.request.requestFingerprint.expectedAuthority == input.currentAuthority
      && RevisionForAdmission(a) == Ok(input.expectedRevision)
      && (RevisionForAdmission(c) == Ok(input.expectedRevision) <==> input.consumedAt >= a.decision.value.decidedAt)
  {}

  // ---------------------------------------------------------------- what each transition records

  /** One revision on, about the same request. */
  predicate NextVersion(a: Approval, t: Approval) {
    t.request == a.request && t.revision == a.revision + 1
  }

  /** Nobody decided or used it in time. */
  predicate LapsedFrom(a: Approval, t: Approval) {
    t.status == Expired && t.updatedAt == a.request.expiresAt && t.decision == a.decision && t.consumedAt == a.consumedAt
  }

  /** A decision is taken exactly on the pending revision that the reviewer saw, with the content that was asked about and
      not before it was asked; it records the reviewer, the verdict, the time and the reason, or the lapse. */
  ghost predicate Decides(a: Approval, input: DecisionInput, r: Result<Approval, Fault>) {
    && (r.Ok? <==> ValidApproval(a) && a.status == ApprovalStatus.Pending && a.revision == input.expectedRevision
                   && FingerprintOf(a.request) == input.requestFingerprint && a.request.requestedAt <= input.decidedAt)
    && (r.Err? ==> r.error == if ValidApproval(a) then Conflict else InvalidRecord)
    && (r.Ok? ==>
          var t := r.value;
          && NextVersion(a, t)
          && (if input.decidedAt >= a.request.expiresAt then LapsedFrom(a, t)
              else
                && t.status == (if input.approve then Approved else Rejected) && t.updatedAt == input.decidedAt && t.consumedAt.None?
                && t.decision.Some? && t.decision.value.reviewerId == input.reviewerId && t.decision.value.reason == input.reason
                && t.decision.value.decidedAt == input.decidedAt
                && (t.decision.value.verdict == VerdictApproved <==> input.approve)))
  }

  lemma DecideMeans(a: Approval, input: DecisionInput)
    ensures Decides(a, input, Decide(a, input))
  {}

  ghost predicate Consumes(a: Approval, input: ConsumeInput, r: Result<Approval, Fault>) {
    && (r.Ok? <==> ValidApproval(a) && a.status == Approved && a.revision == input.expectedRevision
                   && a.request.coordinate == input.coordinate && a.request.operationId == input.operationId
                   && a.request.intentFingerprint == input.intentFingerprint && a.request.expectedAuthority == input.currentAuthority)
    && (r.Err? ==> r.error == if ValidApproval(a) then Conflict else InvalidRecord)
    && (r.Ok? ==>
          var t := r.value;
          && NextVersion(a, t) && t.decision == a.decision
          && (if input.consumedAt >= a.request.expiresAt then LapsedFrom(a, t)
              else t.status == Consumed && t.consumedAt == Some(input.consumedAt) && t.updatedAt == input.consumedAt))
  }

  lemma ConsumeMeans(a: Approval, input: ConsumeInput)
    ensures Consumes(a, input, Consume(a, input))
  {}

  ghost predicate Expires(a: Approval, expectedRevision: nat, expiredAt: Timestamp, r: Result<Approval, Fault>) {
    && (r.Ok? <==> ValidApproval(a) && a.status == ApprovalStatus.Pending && a.revision == expectedRevision && a.request.expiresAt <= expiredAt)
    && (r.Err? ==> r.error == if ValidApproval(a) then Conflict else InvalidRecord)
    && (r.Ok? ==> NextVersion(a, r.value) && LapsedFrom(a, r.value))
  }

  lemma ExpireMeans(a: Approval, expectedRevision: nat, expiredAt: Timestamp)
    ensures Expires(a, expectedRevision, expiredAt, Expire(a, expectedRevision, expiredAt))
  {}

  /** A new approval is pending at revision 1, for the whole request, times included. */
  predicate Fresh(request: Request, t: Approval) {
    && t.request == request && t.status == ApprovalStatus.Pending && t.revision == 1
    && t.updatedAt == request.requestedAt && t.decision.None? && t.consumedAt.None?
  }

  // ---------------------------------------------------------------- the store

  datatype Key = Key(sessionId: Id, actorId: Id, approvalId: ApprovalId)

  type Store = map<Key, Approval>

  datatype Outcome = Outcome(store: Store, result: Result<Approval, Fault>)

  function KeyOf(r: Request): Key {
    Key(r.sessionId, r.actorId, r.approvalId)
  }

  function Ensure(s: Store, r: Request): Outcome {
    if !ValidRequest(r) then Outcome(s, Err(InvalidRecord))
    else if KeyOf(r) in s then
      if s[KeyOf(r)].request.requestFingerprint != r.requestFingerprint then Outcome(s, Err(Conflict))
      else Outcome(s, Ok(s[KeyOf(r)]))
    else
      var a := Approval(r, ApprovalStatus.Pending, 1, r.requestedAt, None, None);
      Outcome(s[KeyOf(r) := a], Ok(a))
  }

  /** What a transition of the stored record does to the store. */
  function Commit(s: Store, key: Key, moved: Result<Approval, Fault>): Outcome {
    match moved
    case Err(e) => Outcome(s, Err(e))
    case Ok(a) => Outcome(s[key := a], Ok(a))
  }

  function DecideAt(s: Store, key: Key, input: DecisionInput): Outcome {
    if key !in s then Outcome(s, Err(Fault.NotFound)) else Commit(s, key, Decide(s[key], input))
  }

  function ConsumeAt(s: Store, key: Key, input: ConsumeInput): Outcome {
    if key !in s then Outcome(s, Err(Fault.NotFound)) else Commit(s, key, Consume(s[key], input))
  }

  function ExpireAt(s: Store, key: Key, expectedRevision: nat, expiredAt: Timestamp): Outcome {
    if key !in s then Outcome(s, Err(Fault.NotFound)) else Commit(s, key, Expire(s[key], expectedRevision, expiredAt))
  }

  class InMemoryActionApprovalStore {
    var records: Store

    /** Every stored approval stands under the key of its own valid request. */
    ghost predicate Keyed()
      reads this
    {
      KeysOk(records)
    }

    /** Every stored approval also meets the record invariant. */
    ghost predicate Valid()
      reads this
    {
      StoreOk(records)
    }

    constructor ()
      ensures records == map[] && Keyed() && Valid()
    {
      records := map[];
    }

    /** A request finds the approval of its own content, or gets a pending one. */
    method EnsureApproval(request: Request) returns (r: Result<Approval, Fault>)
      modifies this
      ensures Outcome(records, r) == Ensure(old(records), request)
      ensures (old(Keyed()) ==> Keyed()) && (old(Valid()) ==> Valid())
      ensures r.Ok? ==>
                && KeyOf(request) in records && records[KeyOf(request)] == r.value
                && r.value.request.requestFingerprint == request.requestFingerprint
                && records == (if KeyOf(request) in old(records) then old(records) else old(records)[KeyOf(request) := r.value])
                && (KeyOf(request) !in old(records) ==> Fresh(request, r.value))
      ensures r.Err? ==> records == old(records)
      ensures old(Keyed()) && ValidRequest(request) ==> r.Ok?
    {
      hide KeysOk, StoreOk, Moves, ValidRequest, DecisionOk, ConsumptionOk;
      ApplyMoves(records, OpEnsure(request));
      ValidityMoves(records, OpEnsure(request));
      if Keyed() && ValidRequest(request) { EnsuringNeverConflicts(records, request); }
      if !ValidRequest(request) { return Err(InvalidRecord); }
      var key := KeyOf(request);
      if key in records {
        if records[key].request.requestFingerprint != request.requestFingerprint { return Err(Conflict); }
        return Ok(records[key]);
      }
      var record := Approval(request, ApprovalStatus.Pending, 1, request.requestedAt, None, None);
      records := records[key := record];
      r := Ok(record);
    }

    /** Only a pending approval is decided, once: behind its expiry it expires instead, and afterwards no decision on it
        succeeds. */
    method DecideApproval(key: Key, input: DecisionInput) returns (r: Result<Approval, Fault>)
      modifies this
      ensures Outcome(records, r) == DecideAt(old(records), key, input)
      ensures (old(Keyed()) ==> Keyed()) && (old(Valid()) ==> Valid())
      ensures r.Ok? ==>
                && key in old(records) && old(records)[key].status == ApprovalStatus.Pending
                && records == old(records)[key := r.value] && ValidApproval(r.value)
                && (r.value.status == Approved <==> input.approve && input.decidedAt < r.value.request.expiresAt)
                && (r.value.status == Rejected <==> !input.approve && input.decidedAt < r.value.request.expiresAt)
                && forall again: DecisionInput :: Decide(records[key], again).Err?
      ensures r.Err? ==> records == old(records)
      ensures if key in old(records) then Decides(old(records)[key], input, r) else r == Err(Fault.NotFound)
    {
      hide KeysOk, StoreOk, Moves, ValidRequest, DecisionOk, ConsumptionOk, Decides;
      if key in records { DecidingMoves(records[key], input); DecideMeans(records[key], input); }
      ApplyMoves(records, OpDecide(key, input));
      ValidityMoves(records, OpDecide(key, input));
      if key !in records { return Err(Fault.NotFound); }
      r := Decide(records[key], input);
      if r.Ok? { records := records[key := r.value]; }
    }

    /** Only an approved, unexpired approval is consumed, for its exact operation, content and authority, and once:
        afterwards no consumption of it succeeds. */
    method ConsumeApproval(key: Key, input: ConsumeInput) returns (r: Result<Approval, Fault>)
      modifies this
      ensures Outcome(records, r) == ConsumeAt(old(records), key, input)
      ensures (old(Keyed()) ==> Keyed())
      ensures r.Ok? ==>
                && key in old(records) && old(records)[key].status == Approved
                && records == old(records)[key := r.value]
                && r.value.decision.Some? && (r.value.status == Consumed <==> input.consumedAt < r.value.request.expiresAt)
                && r.value.request.operationId == input.operationId && r.value.request.coordinate == input.coordinate
                && r.value.request.intentFingerprint == input.intentFingerprint
                && r.value.request.expectedAuthority == input.currentAuthority
                && forall again: ConsumeInput :: Consume(records[key], again).Err?
      ensures r.Err? ==> records == old(records)
      ensures old(Valid()) ==>
                (Valid() <==> !(r.Ok? && r.value.status == Consumed && input.consumedAt < r.value.decision.value.decidedAt))
      ensures if key in old(records) then Consumes(old(records)[key], input, r) else r == Err(Fault.NotFound)
    {
      hide KeysOk, StoreOk, Moves, ValidRequest, DecisionOk, ConsumptionOk, Consumes;
      if key in records { ConsumeMeans(records[key], input); }
      ApplyMoves(records, OpConsume(key, input));
      ValidityMoves(records, OpConsume(key, input));
      if key in records { ConsumingMoves(records[key], input); }
      if key !in records { return Err(Fault.NotFound); }
      r := Consume(records[key], input);
      if r.Ok? { records := records[key := r.value]; }
    }

    /** Only a pending approval past its expiry expires, and afterwards it can be neither decided nor consumed. */
    method ExpireApproval(key: Key, expectedRevision: nat, expiredAt: Timestamp) returns (r: Result<Approval, Fault>)
      modifies this
      ensures Outcome(records, r) == ExpireAt(old(records), key, expectedRevision, expiredAt)
      ensures (old(Keyed()) ==> Keyed()) && (old(Valid()) ==> Valid())
      ensures r.Ok? ==>
                && key in old(records) && old(records)[key].status == ApprovalStatus.Pending
                && old(records)[key].request.expiresAt <= expiredAt
                && records == old(records)[key := r.value] && r.value.status == Expired
                && (forall decision: DecisionInput :: Decide(records[key], decision).Err?)
                && (forall consumption: ConsumeInput :: Consume(records[key], consumption).Err?)
      ensures r.Err? ==> records == old(records)
      ensures if key in old(records) then Expires(old(records)[key], expectedRevision, expiredAt, r) else r == Err(Fault.NotFound)
    {
      hide KeysOk, StoreOk, Moves, ValidRequest, DecisionOk, ConsumptionOk, Expires;
      if key in records { ExpireMeans(records[key], expectedRevision, expiredAt); }
      ApplyMoves(records, OpExpire(key, expectedRevision, expiredAt));
      ValidityMoves(records, OpExpire(key, expectedRevision, expiredAt));
      if key !in records { return Err(Fault.NotFound); }
      r := Expire(records[key], expectedRevision, expiredAt);
      if r.Ok? { records := records[key := r.value]; }
    }
  }

  // ---------------------------------------------------------------- runs

  datatype Op =
    | OpEnsure(request: Request)
    | OpDecide(key: Key, decision: DecisionInput)
    | OpConsume(key: Key, consumption: ConsumeInput)
    | OpExpire(key: Key, expectedRevision: nat, expiredAt: Timestamp)

  function Apply(s: Store, op: Op): Outcome {
    match op
    case OpEnsure(request) => Ensure(s, request)
    case OpDecide(key, input) => DecideAt(s, key, input)
    case OpConsume(key, input) => ConsumeAt(s, key, input)
    case OpExpire(key, revision, at) => ExpireAt(s, key, revision, at)
  }

  function Run(s: Store, ops: seq<Op>): Store {
    if ops == [] then s else Apply(Run(s, ops[..|ops| - 1]), ops[|ops| - 1]).store
  }

  /** The approvals consumed by the operations, one entry for each consumption. */
  function Consumptions(s: Store, ops: seq<Op>): seq<Key> {
    if ops == [] then []
    else
      var op := ops[|ops| - 1];
      var r := Apply(Run(s, ops[..|ops| - 1]), op).result;
      Consumptions(s, ops[..|ops| - 1]) + (if op.OpConsume? && r.Ok? && r.value.status == Consumed then [op.key] else [])
  }

  /** Every stored approval stands under the key of its own request, which is valid. */
  ghost predicate KeysOk(s: Store) {
    forall key :: key in s ==> ValidRequest(s[key].request) && KeyOf(s[key].request) == key
  }

  ghost predicate StoreOk(s: Store) {
    forall key :: key in s ==> ValidApproval(s[key]) && KeyOf(s[key].request) == key
  }

  /** What an operation may change of a stored approval. */
  ghost predicate Moves(a: Approval, b: Approval) {
    && b.request == a.request && (b == a || b.revision == a.revision + 1)
    && (a.status == Consumed || a.status == Rejected || a.status == Expired ==> b == a)
    && (a.status == Approved ==> b == a || b.status == Consumed || b.status == Expired)
    && (a.decision.Some? ==> b.decision == a.decision)
  }

  /** Whatever the times, an operation moves every stored approval only as allowed, and keeps each under its key. */
  lemma ApplyMoves(s: Store, op: Op)
    ensures forall key :: key in s ==> key in Apply(s, op).store && Moves(s[key], Apply(s, op).store[key])
    ensures KeysOk(s) ==> KeysOk(Apply(s, op).store)
  {
    hide ValidApproval, ValidRequest, Decide, Consume, Expire, Moves, KeysOk;
    AllMoveSame(s);
    match op
    case OpEnsure(request) =>
      if ValidRequest(request) && KeyOf(request) !in s { AddedKeyed(s, request, Apply(s, op).store[KeyOf(request)]); }
    case OpDecide(key, input) =>
      if key in s && Decide(s[key], input).Ok? { DecidingMoves(s[key], input); OneMoves(s, key, Decide(s[key], input).value); }
    case OpConsume(key, input) =>
      if key in s && Consume(s[key], input).Ok? { ConsumingMoves(s[key], input); OneMoves(s, key, Consume(s[key], input).value); }
    case OpExpire(key, revision, at) =>
      if key in s && Expire(s[key], revision, at).Ok? {
        ExpiringMoves(s[key], revision, at);
        OneMoves(s, key, Expire(s[key], revision, at).value);
      }
  }

  lemma AllMoveSame(s: Store)
    ensures forall key :: key in s ==> Moves(s[key], s[key])
  {}

  lemma AddedKeyed(s: Store, request: Request, a: Approval)
    requires ValidRequest(request) && a.request == request
    ensures KeysOk(s) ==> KeysOk(s[KeyOf(request) := a])
  {
    hide ValidRequest;
  }

  lemma OneMoves(s: Store, key: Key, b: Approval)
    requires key in s && Moves(s[key], b)
    ensures forall k :: k in s ==> Moves(s[k], s[key := b][k])
    ensures KeysOk(s) ==> KeysOk(s[key := b])
  {
    hide ValidRequest;
  }

  /** The operation consumes an approval at a time before that approval's own decision. */
  predicate ConsumesTooEarly(s: Store, op: Op) {
    && op.OpConsume? && op.key in s
    && Consume(s[op.key], op.consumption).Ok? && Consume(s[op.key], op.consumption).value.status == Consumed
    && s[op.key].decision.Some? && op.consumption.consumedAt < s[op.key].decision.value.decidedAt
  }

  /** A store in order stays so exactly unless the operation consumes too early, and one that is not never gets back. */
  lemma ValidityMoves(s: Store, op: Op)
    ensures StoreOk(Apply(s, op).store) <==> StoreOk(s) && !ConsumesTooEarly(s, op)
  {
    hide ValidApproval, Decide, Consume, Expire, Moves, ValidRequest;
    match op
    case OpEnsure(request) => if ValidRequest(request) && KeyOf(request) !in s { FreshValid(request); AddedOk(s, KeyOf(request), Apply(s, op).store); }
    case OpDecide(key, input) =>
      if key in s && Decide(s[key], input).Ok? { DecidingMoves(s[key], input); ReplacedOk(s, key, Decide(s[key], input).value); }
    case OpConsume(key, input) =>
      if key in s && Consume(s[key], input).Ok? {
        ConsumingMoves(s[key], input);
        ConsumingJudged(s[key], input);
        ReplacedOk(s, key, Consume(s[key], input).value);
      }
    case OpExpire(key, revision, at) =>
      if key in s && Expire(s[key], revision, at).Ok? { ExpiringMoves(s[key], revision, at); ReplacedOk(s, key, Expire(s[key], revision, at).value); }
  }

  /** Replacing a valid record leaves the store in order exactly when the others are and the new one is valid. */
  lemma ReplacedOk(s: Store, key: Key, b: Approval)
    requires key in s && ValidApproval(s[key]) && b.request == s[key].request
    ensures StoreOk(s[key := b]) <==> StoreOk(s) && ValidApproval(b)
  {
    hide ValidApproval;
    var t := s[key := b];
    assert t[key] == b;
    if StoreOk(t) {
      forall k | k in s ensures ValidApproval(s[k]) && KeyOf(s[k].request) == k { assert k in t && (k != key ==> t[k] == s[k]); }
    }
  }

  lemma AddedOk(s: Store, key: Key, t: Store)
    requires key !in s && key in t && t == s[key := t[key]] && ValidApproval(t[key]) && KeyOf(t[key].request) == key
    ensures StoreOk(t) <==> StoreOk(s)
  {
    hide ValidApproval;
    if StoreOk(t) {
      forall k | k in s ensures ValidApproval(s[k]) && KeyOf(s[k].request) == k { assert k in t; }
    }
  }

  lemma ConsumingJudged(a: Approval, input: ConsumeInput)
    requires Consume(a, input).Ok?
    ensures ValidApproval(a) && a.decision.Some?
    ensures ValidApproval(Consume(a, input).value)
            <==> !(Consume(a, input).value.status == Consumed && input.consumedAt < a.decision.value.decidedAt)
  {}

  lemma FreshValid(r: Request)
    requires ValidRequest(r)
    ensures ValidApproval(Approval(r, ApprovalStatus.Pending, 1, r.requestedAt, None, None))
  {}

  lemma DecidingMoves(a: Approval, input: DecisionInput)
    ensures Decide(a, input).Ok? ==>
              && ValidApproval(a) && ValidApproval(Decide(a, input).value) && Moves(a, Decide(a, input).value)
              && (var b := Decide(a, input).value; b.decision.Some? ==> b.decision.value.decidedAt <= input.decidedAt)
  {}

  lemma ConsumingMoves(a: Approval, input: ConsumeInput)
    ensures Consume(a, input).Ok? ==>
              Moves(a, Consume(a, input).value) && a.decision.Some? && Consume(a, input).value.decision == a.decision
              && (input.consumedAt >= a.decision.value.decidedAt ==> ValidApproval(Consume(a, input).value))
  {}

  lemma ExpiringMoves(a: Approval, revision: nat, at: Timestamp)
    ensures Expire(a, revision, at).Ok? ==>
              && ValidApproval(a) && ValidApproval(Expire(a, revision, at).value) && Moves(a, Expire(a, revision, at).value)
              && Expire(a, revision, at).value.decision.None?
  {}

  /** No consumption of the run carries a time before its own approval's decision. Nothing is asked of the order of
      times otherwise. */
  ghost predicate NeverTooEarly(ops: seq<Op>) {
    forall n {:trigger ops[..n]} :: 0 <= n < |ops| ==> !ConsumesTooEarly(Run(map[], ops[..n]), ops[n])
  }

  /** Every approval in the store that a run leaves satisfies the record invariant exactly when no consumption of the run
      came too early. */
  lemma {:induction false} RunsStayValid(ops: seq<Op>)
    ensures StoreOk(Run(map[], ops)) <==> NeverTooEarly(ops)
  {
    hide Apply, ConsumesTooEarly, StoreOk;
    if ops == [] {
      NothingStored();
    } else {
      var n := |ops| - 1;
      RunsStayValid(ops[..n]);
      ValidityMoves(Run(map[], ops[..n]), ops[n]);
      assert forall k :: 0 <= k <= n ==> ops[..n][..k] == ops[..k];
      assert ops[..n] == ops[..|ops| - 1];
    }
  }

  lemma NothingStored()
    ensures StoreOk(map[]) && KeysOk(map[])
  {}

  /** Every run keeps each approval under the key of its own valid request. */
  lemma {:induction false} RunsStayKeyed(ops: seq<Op>)
    ensures KeysOk(Run(map[], ops))
  {
    hide Apply, KeysOk, Moves;
    if ops == [] {
      NothingStored();
    } else {
      RunsStayKeyed(ops[..|ops| - 1]);
      ApplyMoves(Run(map[], ops[..|ops| - 1]), ops[|ops| - 1]);
    }
  }

  ghost predicate AllConsumed(keys: seq<Key>, s: Store) {
    forall i :: 0 <= i < |keys| ==> keys[i] in s && s[keys[i]].status == Consumed
  }

  ghost predicate NoneTwice(keys: seq<Key>) {
    forall i, j :: 0 <= i < j < |keys| ==> keys[i] != keys[j]
  }

  lemma StayConsumed(keys: seq<Key>, s: Store, t: Store)
    requires AllConsumed(keys, s) && forall key :: key in s ==> key in t && Moves(s[key], t[key])
    ensures AllConsumed(keys, t)
  {}

  lemma OneMoreConsumed(keys: seq<Key>, key: Key, s: Store, t: Store)
    requires AllConsumed(keys, s) && AllConsumed(keys, t) && NoneTwice(keys)
    requires key in s && s[key].status != Consumed && key in t && t[key].status == Consumed
    ensures AllConsumed(keys + [key], t) && NoneTwice(keys + [key])
  {}

  /** An approval that was consumed stays as it is, so over every run, whatever its times, it is consumed at most once. */
  lemma {:induction false} ConsumedOnce(ops: seq<Op>)
    ensures NoneTwice(Consumptions(map[], ops)) && AllConsumed(Consumptions(map[], ops), Run(map[], ops))
  {
    hide Apply, Moves, NoneTwice, AllConsumed;
    if ops == [] {
      NothingConsumed();
    } else {
      var n := |ops| - 1;
      var s, op := Run(map[], ops[..n]), ops[n];
      var keys := Consumptions(map[], ops[..n]);
      ConsumedOnce(ops[..n]);
      ApplyMoves(s, op);
      StayConsumed(keys, s, Apply(s, op).store);
      ConsumptionChanges(s, op);
      if op.OpConsume? && Apply(s, op).result.Ok? && Apply(s, op).result.value.status == Consumed {
        OneMoreConsumed(keys, op.key, s, Apply(s, op).store);
      } else {
        assert keys + [] == keys;
      }
    }
  }

  lemma NothingConsumed()
    ensures NoneTwice([]) && AllConsumed([], map[])
  {}

  lemma ConsumptionChanges(s: Store, op: Op)
    ensures op.OpConsume? && Apply(s, op).result.Ok? && Apply(s, op).result.value.status == Consumed ==>
              && op.key in s && s[op.key].status == Approved
              && op.key in Apply(s, op).store && Apply(s, op).store[op.key].status == Consumed
  {
    hide ValidApproval;
  }

  /** The revision that admission asks for does not change when the approval is consumed, unless that was too early. */
  lemma AdmissionRevisionStays(s: Store, key: Key, input: ConsumeInput)
    requires key in s && ConsumeAt(s, key, input).result.Ok? && ConsumeAt(s, key, input).result.value.status == Consumed
    ensures RevisionForAdmission(s[key]) == Ok(s[key].revision) && input.consumedAt < s[key].request.expiresAt
    ensures RevisionForAdmission(ConsumeAt(s, key, input).store[key]) == Ok(s[key].revision)
            <==> !ConsumesTooEarly(s, OpConsume(key, input))
  {
    ConsumingKeepsValid(s[key], input);
  }

  /** Two requests under one key agree on everything but their times: the key is bound to the content. */
  lemma KeyBindsContent(a: Request, b: Request)
    requires ValidRequest(a) && ValidRequest(b) && KeyOf(a) == KeyOf(b)
    ensures b == a.(requestedAt := b.requestedAt, expiresAt := b.expiresAt)
  {}

  /** So ensuring a valid request never conflicts. */
  lemma EnsuringNeverConflicts(s: Store, r: Request)
    requires KeysOk(s) && ValidRequest(r)
    ensures Ensure(s, r).result.Ok?
  {
    if KeyOf(r) in s { KeyBindsContent(s[KeyOf(r)].request, r); }
  }
}
