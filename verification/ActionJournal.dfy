/** The journal as a value: its maps and what each operation makes of them. Every operation runs alone, so each is
    one step. A step that throws keeps what it had already written, as the in-memory maps do. */
module ActionJournal {
  import opened Wrappers
  import opened ActionRecords
  import opened StableSort

  datatype RecordKey = RecordKey(sessionId: Id, actorId: Id, operationId: OperationId)

  datatype ConflictKey = ConflictKey(sessionId: Id, key: Id)

  /** order lists the record keys by admission, which is the iteration order of the record map. */
  datatype Journal = Journal(
    records: map<RecordKey, ActionRecord>, order: seq<RecordKey>,
    conflicts: map<ConflictKey, OperationId>, sequences: map<RecordKey, nat>, nextSequence: nat)

  const Empty := Journal(map[], [], map[], map[], 0)

  /** The answer of the run authority for a coordinate; a fault is any failure other than a closed run. */
  datatype RunAuthority = RunOpen | Closed | Fault

  type AuthorityCheck = Coordinate -> RunAuthority

  /** What one operation leaves behind and what it returns or throws. */
  datatype Outcome<T> = Outcome(journal: Journal, result: Result<T, ActionError>)

  function KeyOf(r: ActionRecord): RecordKey {
    RecordKey(r.intent.sessionId, r.intent.actorId, r.intent.operationId)
  }

  /** The key under which the owner of a conflict key is stored. */
  function OwnerKey(op: OperationId): RecordKey {
    RecordKey(op.coordinate.sessionId, op.coordinate.actorId, op)
  }

  predicate Indexed(j: Journal) {
    forall k :: k in j.order ==> k in j.records
  }

  predicate InStream(r: ActionRecord, sessionId: Id, actorId: Id) {
    r.intent.sessionId == sessionId && r.intent.actorId == actorId
  }

  predicate InRun(r: ActionRecord, runId: Option<Id>) {
    runId.Some? ==> r.intent.coordinate.runId == runId.value
  }

  // ---------------------------------------------------------------- the conflict table

  function ConflictKeysOf(r: ActionRecord): set<ConflictKey> {
    set k | k in r.intent.conflictKeys :: ConflictKey(r.intent.sessionId, k)
  }

  predicate CanAcquire(conflicts: map<ConflictKey, OperationId>, r: ActionRecord) {
    forall c :: c in ConflictKeysOf(r) && c in conflicts ==> conflicts[c] == r.intent.operationId
  }

  function Acquire(conflicts: map<ConflictKey, OperationId>, r: ActionRecord): map<ConflictKey, OperationId> {
    conflicts + map c | c in ConflictKeysOf(r) :: r.intent.operationId
  }

  function Release(conflicts: map<ConflictKey, OperationId>, r: ActionRecord): map<ConflictKey, OperationId> {
    map c | c in conflicts && !(c in ConflictKeysOf(r) && conflicts[c] == r.intent.operationId) :: conflicts[c]
  }

  /** Stores a new version of a record, with the conflict table it goes with. */
  function Store(j: Journal, r: ActionRecord, conflicts: map<ConflictKey, OperationId>): Journal {
    j.(records := j.records[KeyOf(r) := r], conflicts := conflicts)
  }

  // ---------------------------------------------------------------- ensure

  predicate AwaitsGoal(r: ActionRecord, sessionId: Id, actorId: Id) {
    InStream(r, sessionId, actorId) && r.intent.goalProjection.Some? && r.settlement.None?
  }

  /** How many of the first n records await their goal. */
  function AwaitingGoals(j: Journal, sessionId: Id, actorId: Id, n: nat): nat
    requires Indexed(j) && n <= |j.order|
  {
    if n == 0 then 0
    else AwaitingGoals(j, sessionId, actorId, n - 1)
         + (if AwaitsGoal(j.records[j.order[n - 1]], sessionId, actorId) then 1 else 0)
  }

  function Admitted(intent: Intent, now: Timestamp): ActionRecord {
    ActionRecord(intent, Pending, 0, now, now, None, None, None)
  }

  /** Appends a record under the next admission sequence. */
  function Admit(j: Journal, record: ActionRecord): Journal {
    var key := KeyOf(record);
    Journal(j.records[key := record], j.order + [key], j.conflicts,
            j.sequences[key := j.nextSequence + 1], j.nextSequence + 1)
  }

  function Ensure(j: Journal, config: Config, intent: Intent, now: Timestamp, authority: AuthorityCheck): Outcome<ActionRecord>
    requires Indexed(j)
  {
    var record := Admitted(intent, now);
    var key := KeyOf(record);
    if key in j.records then
      if j.records[key].intent.intentFingerprint != intent.intentFingerprint then Outcome(j, Err(IntentConflict))
      else Outcome(j, Ok(j.records[key]))
    else if intent.goalProjection.Some? && config.limits.None? then Outcome(j, Err(GoalLimitsMissing))
    else if intent.goalProjection.Some?
            && AwaitingGoals(j, intent.sessionId, intent.actorId, |j.order|) >= config.limits.value.maxPendingPerStream then
      Outcome(j, Err(GoalCapacity))
    else if !ValidRecord(record, config) then Outcome(j, Err(StateConflict))
    else if !Fits(record, config) then Outcome(j, Err(FitError(config)))
    else match authority(intent.coordinate)
      case Closed => Outcome(j, Err(RunClosed))
      case Fault => Outcome(j, Err(RunAuthorityFault))
      case RunOpen =>
        Outcome(Admit(j, record), Ok(record))
  }

  // ---------------------------------------------------------------- next delivery

  /** Retires pending work of closed runs, at most candidateLimit records, from position i on. */
  function RetireClosed(j: Journal, config: Config, request: ClaimRequest, authority: AuthorityCheck, i: nat, retired: nat)
    : (o: Outcome<bool>)
    requires Indexed(j) && i <= |j.order|
    ensures Indexed(o.journal) && o.journal.order == j.order
    decreases |j.order| - i
  {
    if i == |j.order| then Outcome(j, Ok(retired != 0))
    else
      var record := j.records[j.order[i]];
      if !InStream(record, request.sessionId, request.actorId) || record.status != Pending then
        RetireClosed(j, config, request, authority, i + 1, retired)
      else match authority(record.intent.coordinate)
        case Fault => Outcome(j, Err(RunAuthorityFault))
        case RunOpen => RetireClosed(j, config, request, authority, i + 1, retired)
        case Closed =>
          match RetireAction(record, request.claimedAt)
          case Err(e) => Outcome(j, Err(e))
          case Ok(t) =>
            if !ValidRecord(t.record, config) then Outcome(j, Err(StateConflict))
            else if !Fits(t.record, config) then Outcome(j, Err(FitError(config)))
            else
              var j' := Store(j, t.record, Release(j.conflicts, record));
              if retired + 1 >= request.candidateLimit then Outcome(j', Ok(true))
              else RetireClosed(j', config, request, authority, i + 1, retired + 1)
  }

  predicate Due(r: ActionRecord, request: ClaimRequest) {
    && InStream(r, request.sessionId, request.actorId)
    && InRun(r, request.runId)
    && r.status == Claimed && r.claim.Some? && r.claim.value.expiresAt <= request.claimedAt
  }

  /** The due claims among the first n records, in admission order. */
  function DueClaims(j: Journal, request: ClaimRequest, n: nat): seq<ActionRecord>
    requires Indexed(j) && n <= |j.order|
  {
    if n == 0 then []
    else DueClaims(j, request, n - 1) + (if Due(j.records[j.order[n - 1]], request) then [j.records[j.order[n - 1]]] else [])
  }

  function ExpiryRank(r: ActionRecord): Rank {
    (if r.claim.Some? then r.claim.value.expiresAt else 0, 0)
  }

  /** The claims one call may expire: the first candidateLimit due claims by expiry, ties by admission. */
  function Expiring(j: Journal, request: ClaimRequest): seq<ActionRecord>
    requires Indexed(j)
  {
    Take(Sort(DueClaims(j, request, |j.order|), ExpiryRank), if request.candidateLimit > 0 then request.candidateLimit else 0)
  }

  datatype Expiry = Expiry(replayable: set<OperationId>, changed: bool)

  /** Safe claims of open runs become replayable; every other due claim becomes uncertain and keeps its conflict keys. */
  function ExpireDue(j: Journal, config: Config, request: ClaimRequest, authority: AuthorityCheck,
                     due: seq<ActionRecord>, i: nat, expiry: Expiry): (o: Outcome<Expiry>)
    requires Indexed(j) && i <= |due|
    ensures Indexed(o.journal) && o.journal.order == j.order
    decreases |due| - i
  {
    if i == |due| then Outcome(j, Ok(expiry))
    else
      var record := due[i];
      var run := authority(record.intent.coordinate);
      if record.intent.replayPolicy == Safe && run == Fault then Outcome(j, Err(RunAuthorityFault))
      else if record.intent.replayPolicy == Safe && run == RunOpen then
        ExpireDue(j, config, request, authority, due, i + 1,
                  expiry.(replayable := expiry.replayable + {record.intent.operationId}))
      else
        match ExpireAction(record, request.claimedAt)
        case Err(e) => Outcome(j, Err(e))
        case Ok(t) =>
          if !Fits(t.record, config) then Outcome(j, Err(FitError(config)))
          else ExpireDue(Store(j, t.record, j.conflicts), config, request, authority, due, i + 1,
                         expiry.(changed := true))
  }

  /** The first record from position i on that is claimed or uncertain and not among the replayable ones. */
  function OldestUnsettled(j: Journal, sessionId: Id, actorId: Id, runId: Option<Id>, replayable: set<OperationId>, i: nat)
    : Option<ActionRecord>
    requires Indexed(j) && i <= |j.order|
    decreases |j.order| - i
  {
    if i == |j.order| then None
    else
      var record := j.records[j.order[i]];
      if InStream(record, sessionId, actorId) && InRun(record, runId)
         && record.intent.operationId !in replayable && Holding(record) then Some(record)
      else OldestUnsettled(j, sessionId, actorId, runId, replayable, i + 1)
  }

  /** Claims the first record from position i on that is open and conflict-free, after at most candidateLimit candidates. */
  function ClaimPending(j: Journal, config: Config, request: ClaimRequest, authority: AuthorityCheck,
                        replayable: set<OperationId>, i: nat, scanned: nat): (o: Outcome<Option<ActionRecord>>)
    requires Indexed(j) && i <= |j.order|
    ensures Indexed(o.journal) && o.journal.order == j.order
    decreases |j.order| - i
  {
    if i == |j.order| then Outcome(j, Ok(None))
    else
      var record := j.records[j.order[i]];
      var replay := record.intent.operationId in replayable;
      if !InStream(record, request.sessionId, request.actorId) || !InRun(record, request.runId)
         || (record.status != Pending && !replay) then
        ClaimPending(j, config, request, authority, replayable, i + 1, scanned)
      else if scanned + 1 > request.candidateLimit then Outcome(j, Ok(None))
      else match authority(record.intent.coordinate)
        case Fault => Outcome(j, Err(RunAuthorityFault))
        case Closed => ClaimPending(j, config, request, authority, replayable, i + 1, scanned + 1)
        case RunOpen =>
          if !CanAcquire(j.conflicts, record) then
            ClaimPending(j, config, request, authority, replayable, i + 1, scanned + 1)
          else
            match (if replay then ReclaimAction(record, request) else ClaimAction(record, request))
            case Err(e) => Outcome(j, Err(e))
            case Ok(t) =>
              if !ValidRecord(t.record, config) then Outcome(j, Err(StateConflict))
              else if !Fits(t.record, config) then Outcome(j, Err(FitError(config)))
              else
                var free := if replay then Release(j.conflicts, record) else j.conflicts;
                Outcome(Store(j, t.record, Acquire(free, t.record)), Ok(Some(t.record)))
  }

  datatype Delivery = Dispatch(action: ActionRecord) | Reconciliation(action: ActionRecord)

  datatype Selection = Selection(changed: bool, delivery: Option<Delivery>)

  function Next(j: Journal, config: Config, request: ClaimRequest, authority: AuthorityCheck): Outcome<Selection>
    requires Indexed(j)
  {
    if !ValidClaimRequest(request) then Outcome(j, Err(InvalidRequest))
    else
      var retire := RetireClosed(j, config, request, authority, 0, 0);
      if retire.result.Err? then Outcome(retire.journal, Err(retire.result.error))
      else
        var expire := ExpireDue(retire.journal, config, request, authority, Expiring(retire.journal, request), 0,
                                Expiry({}, false));
        if expire.result.Err? then Outcome(expire.journal, Err(expire.result.error))
        else Deliver(expire.journal, config, request, authority, expire.result.value.replayable,
                     retire.result.value || expire.result.value.changed)
  }

  /** Unsettled work is reconciled first; only then is pending or replayable work claimed. */
  function Deliver(j: Journal, config: Config, request: ClaimRequest, authority: AuthorityCheck,
                   replayable: set<OperationId>, changed: bool): Outcome<Selection>
    requires Indexed(j)
  {
    var unsettled := OldestUnsettled(j, request.sessionId, request.actorId, request.runId, replayable, 0);
    if unsettled.Some? then Outcome(j, Ok(Selection(changed, Some(Reconciliation(unsettled.value)))))
    else
      var claim := ClaimPending(j, config, request, authority, replayable, 0, 0);
      if claim.result.Err? then Outcome(claim.journal, Err(claim.result.error))
      else if claim.result.value.Some? then
        Outcome(claim.journal, Ok(Selection(true, Some(Dispatch(claim.result.value.value)))))
      else
        var waiting := OldestUnsettled(claim.journal, request.sessionId, request.actorId, request.runId, {}, 0);
        Outcome(claim.journal,
                Ok(Selection(changed, if waiting.Some? then Some(Reconciliation(waiting.value)) else None)))
  }

  function Recover(j: Journal, sessionId: Id, actorId: Id): Option<Delivery>
    requires Indexed(j)
  {
    var unsettled := OldestUnsettled(j, sessionId, actorId, None, {}, 0);
    if unsettled.Some? then Some(Reconciliation(unsettled.value)) else None
  }

  // ---------------------------------------------------------------- receipts, reconciliation, settlement

  /** Stores the outcome of a transition of the record under key, releasing its conflict keys when it says so. */
  function Commit(j: Journal, config: Config, record: ActionRecord, t: Transition): Outcome<ActionRecord> {
    if !t.changed then Outcome(j, Ok(t.record))
    else if !Fits(t.record, config) then Outcome(j, Err(FitError(config)))
    else Outcome(Store(j, t.record, if t.releaseConflicts then Release(j.conflicts, record) else j.conflicts), Ok(t.record))
  }

  function RecordReceipt(j: Journal, config: Config, input: ReceiptInput): Outcome<ActionRecord> {
    var key := RecordKey(input.sessionId, input.actorId, input.operationId);
    if key !in j.records then Outcome(j, Err(NotFound))
    else match ReceiptAction(j.records[key], input)
      case Err(e) => Outcome(j, Err(e))
      case Ok(t) => Commit(j, config, j.records[key], t)
  }

  function Reconcile(j: Journal, config: Config, input: ReconcileInput, authority: AuthorityCheck): Outcome<ActionRecord> {
    var key := RecordKey(input.sessionId, input.actorId, input.operationId);
    if key !in j.records then Outcome(j, Err(NotFound))
    else
      var record := j.records[key];
      match ReconcileAction(record, input)
      case Err(e) => Outcome(j, Err(e))
      case Ok(t) =>
        if t.record.status != Pending then Commit(j, config, record, t)
        else match authority(record.intent.coordinate)
          case Fault => Outcome(j, Err(RunAuthorityFault))
          case RunOpen => Commit(j, config, record, t)
          case Closed =>
            match RetireAction(t.record, input.reconciledAt)
            case Err(e) => Outcome(j, Err(e))
            case Ok(retired) => Commit(j, config, record, Transition(retired.record, t.releaseConflicts, true))
  }

  function Settle(j: Journal, config: Config, input: SettlementInput): Outcome<ActionRecord> {
    var key := RecordKey(input.sessionId, input.actorId, input.operationId);
    if config.limits.None? then Outcome(j, Err(GoalLimitsMissing))
    else if key !in j.records then Outcome(j, Err(NotFound))
    else match SettleAction(j.records[key], input)
      case Err(e) => Outcome(j, Err(e))
      case Ok(t) =>
        if t.changed && !ValidRecord(t.record, config) then Outcome(j, Err(StateConflict))
        else Commit(j, config, j.records[key], t)
  }

  // ---------------------------------------------------------------- purge

  datatype PurgeRequest = PurgeRequest(
    sessionId: Id, actorId: Id, beforeUpdatedAt: Timestamp, limit: nat, retain: set<OperationId>)

  predicate Purgeable(r: ActionRecord, request: PurgeRequest) {
    && InStream(r, request.sessionId, request.actorId)
    && r.intent.operationId !in request.retain
    && Terminal(r)
    && r.updatedAt < request.beforeUpdatedAt
    && (r.intent.goalProjection.None? || r.settlement.Some?)
  }

  datatype Ranked = Ranked(record: ActionRecord, sequence: nat)

  /** The purgeable records among the first n, each with its admission sequence. */
  function PurgeCandidates(j: Journal, request: PurgeRequest, n: nat): seq<Ranked>
    requires Indexed(j) && n <= |j.order|
  {
    if n == 0 then []
    else
      var key := j.order[n - 1];
      PurgeCandidates(j, request, n - 1)
      + (if key in j.sequences && Purgeable(j.records[key], request)
         then [Ranked(j.records[key], j.sequences[key])] else [])
  }

  function AgeRank(c: Ranked): Rank {
    (c.record.updatedAt, c.sequence)
  }

  function Without(order: seq<RecordKey>, key: RecordKey): (r: seq<RecordKey>)
    ensures forall k :: k in r <==> k in order && k != key
  {
    if order == [] then []
    else Without(order[..|order| - 1], key) + (if order[|order| - 1] == key then [] else [order[|order| - 1]])
  }

  function Remove(j: Journal, r: ActionRecord): Journal {
    Journal(j.records - {KeyOf(r)}, Without(j.order, KeyOf(r)), Release(j.conflicts, r),
            j.sequences - {KeyOf(r)}, j.nextSequence)
  }

  function RemoveAll(j: Journal, purged: seq<Ranked>): Journal {
    if purged == [] then j else Remove(RemoveAll(j, purged[..|purged| - 1]), purged[|purged| - 1].record)
  }

  /** What one purge removes: the oldest purgeable records, at most limit of them. */
  function Purged(j: Journal, request: PurgeRequest): seq<Ranked>
    requires Indexed(j)
  {
    Take(Sort(PurgeCandidates(j, request, |j.order|), AgeRank), request.limit)
  }

  function OperationIds(purged: seq<Ranked>): seq<OperationId> {
    if purged == [] then []
    else OperationIds(purged[..|purged| - 1]) + [purged[|purged| - 1].record.intent.operationId]
  }

  function Purge(j: Journal, request: PurgeRequest): Journal
    requires Indexed(j)
  {
    RemoveAll(j, Purged(j, request))
  }

  // ---------------------------------------------------------------- goal projections

  datatype GoalCandidate = GoalCandidate(sequence: nat, action: ActionRecord)

  datatype GoalPage = GoalPage(candidates: seq<GoalCandidate>, nextAfterSequence: Option<nat>)

  /** The records of a stream that await their goal and were admitted after a sequence, among the first n, in order. */
  function GoalsAfter(j: Journal, sessionId: Id, actorId: Id, after: nat, n: nat): seq<GoalCandidate>
    requires Indexed(j) && n <= |j.order|
  {
    if n == 0 then []
    else
      var key := j.order[n - 1];
      GoalsAfter(j, sessionId, actorId, after, n - 1)
      + (if key in j.sequences && j.sequences[key] > after && AwaitsGoal(j.records[key], sessionId, actorId)
         then [GoalCandidate(j.sequences[key], j.records[key])] else [])
  }

  predicate Oversize(config: Config, c: GoalCandidate)
    requires config.limits.Some?
  {
    config.recordBytes(c.action) > config.limits.value.maxRecordBytes
  }

  function PageOf(goals: seq<GoalCandidate>, limit: nat): GoalPage
    requires limit > 0
  {
    if |goals| > limit then GoalPage(goals[..limit], Some(goals[limit - 1].sequence)) else GoalPage(goals, None)
  }

  /** One page; a candidate that would not fit its byte budget fails the whole page. */
  function ListGoals(j: Journal, config: Config, sessionId: Id, actorId: Id, after: nat, limit: nat): Result<GoalPage, ActionError>
    requires Indexed(j)
  {
    if config.limits.None? then Err(GoalLimitsMissing)
    else if limit == 0 || limit > config.limits.value.maxListBatchSize then Err(InvalidRequest)
    else
      var goals := GoalsAfter(j, sessionId, actorId, after, |j.order|);
      if exists c :: c in Take(goals, limit + 1) && Oversize(config, c) then Err(GoalRecordTooLarge)
      else Ok(PageOf(goals, limit))
  }
}
