/** The in-memory journal: a class whose methods update its maps in loops over the records by admission. Each method
    is proved to do to its fields what the operation of module ActionJournal does to the journal value. */
module InMemoryActionJournal {
  import opened Wrappers
  import opened ActionRecords
  import opened StableSort
  import opened ActionJournal
  import opened ActionJournalInvariant
  import opened ActionJournalSteps
  import opened ActionDelivery
  import opened ActionReceipts
  import Runs = ActionJournalRuns

  class InMemoryActionJournal {
    const config: Config
    var records: map<RecordKey, ActionRecord>
    var order: seq<RecordKey>
    var conflicts: map<ConflictKey, OperationId>
    var sequences: map<RecordKey, nat>
    var nextSequence: nat

    function State(): Journal
      reads this
    {
      Journal(records, order, conflicts, sequences, nextSequence)
    }

    ghost predicate Valid()
      reads this
    {
      Inv(State(), config) && Indexed(State())
    }

    constructor (config: Config)
      ensures Valid() && State() == Empty && this.config == config
    {
      this.config := config;
      records, order, conflicts, sequences, nextSequence := map[], [], map[], map[], 0;
    }

    // -------------------------------------------------------------- the conflict table

    method CanAcquireKeys(record: ActionRecord) returns (free: bool)
      ensures free == CanAcquire(conflicts, record)
    {
      free := true;
      for i := 0 to |record.intent.conflictKeys|
        invariant free
        invariant forall k :: 0 <= k < i ==>
                    var c := ConflictKey(record.intent.sessionId, record.intent.conflictKeys[k]);
                    c in conflicts ==> conflicts[c] == record.intent.operationId
      {
        var c := ConflictKey(record.intent.sessionId, record.intent.conflictKeys[i]);
        if c in conflicts && conflicts[c] != record.intent.operationId {
          assert c in ConflictKeysOf(record);
          return false;
        }
      }
    }

    method AcquireKeys(record: ActionRecord)
      modifies this`conflicts
      ensures conflicts == Acquire(old(conflicts), record)
    {
      for i := 0 to |record.intent.conflictKeys|
        invariant conflicts == old(conflicts)
                    + map c | c in KeysUpTo(record, i) :: record.intent.operationId
      {
        var c := ConflictKey(record.intent.sessionId, record.intent.conflictKeys[i]);
        OneMoreKey(record, i);
        hide KeysUpTo;
        conflicts := conflicts[c := record.intent.operationId];
      }
      assert KeysUpTo(record, |record.intent.conflictKeys|) == ConflictKeysOf(record);
    }

    method ReleaseKeys(record: ActionRecord)
      modifies this`conflicts
      ensures conflicts == Release(old(conflicts), record)
    {
      for i := 0 to |record.intent.conflictKeys|
        invariant conflicts == map c | c in old(conflicts)
                    && !(c in KeysUpTo(record, i) && old(conflicts)[c] == record.intent.operationId) :: old(conflicts)[c]
      {
        var c := ConflictKey(record.intent.sessionId, record.intent.conflictKeys[i]);
        assert KeysUpTo(record, i + 1) == KeysUpTo(record, i) + {c};
        if c in conflicts && conflicts[c] == record.intent.operationId { conflicts := conflicts - {c}; }
      }
      assert KeysUpTo(record, |record.intent.conflictKeys|) == ConflictKeysOf(record);
    }

    // -------------------------------------------------------------- operations

    method CountAwaitingGoals(sessionId: Id, actorId: Id) returns (pending: nat)
      requires Indexed(State())
      ensures pending == AwaitingGoals(State(), sessionId, actorId, |order|)
    {
      pending := 0;
      for i := 0 to |order|
        invariant pending == AwaitingGoals(State(), sessionId, actorId, i)
      {
        hide AwaitsGoal;
        if AwaitsGoal(records[order[i]], sessionId, actorId) { pending := pending + 1; }
      }
    }

    method EnsureAction(intent: Intent, now: Timestamp, authority: AuthorityCheck) returns (r: Result<ActionRecord, ActionError>)
      requires Valid()
      modifies this
      ensures Valid()
      ensures Outcome(State(), r) == Ensure(old(State()), config, intent, now, authority)
      ensures AdmissionRecorded(old(State()), State(), r, config, intent, now, authority(intent.coordinate))
    {
      hide Inv, ValidRecord, Fits, AwaitingGoals, AdmissionRecorded;
      EnsureKeepsInv(State(), config, intent, now, authority);
      EnsureMeans(State(), config, intent, now, authority);
      InvIndexed(Ensure(State(), config, intent, now, authority).journal, config);
      var record := Admitted(intent, now);
      var key := KeyOf(record);
      if key in records {
        if records[key].intent.intentFingerprint != intent.intentFingerprint { return Err(IntentConflict); }
        return Ok(records[key]);
      }
      if intent.goalProjection.Some? {
        if config.limits.None? { return Err(GoalLimitsMissing); }
        var pending := CountAwaitingGoals(intent.sessionId, intent.actorId);
        if pending >= config.limits.value.maxPendingPerStream { return Err(GoalCapacity); }
      }
      if !ValidRecord(record, config) { return Err(StateConflict); }
      if !Fits(record, config) { return Err(FitError(config)); }
      match authority(intent.coordinate) {
        case Closed => return Err(RunClosed);
        case Fault => return Err(RunAuthorityFault);
        case RunOpen =>
      }
      records := records[key := record];
      order := order + [key];
      nextSequence := nextSequence + 1;
      sequences := sequences[key := nextSequence];
      return Ok(record);
    }

    method RetireClosedPending(request: ClaimRequest, authority: AuthorityCheck) returns (r: Result<bool, ActionError>)
      requires Indexed(State())
      modifies this`records, this`conflicts
      ensures Outcome(State(), r) == RetireClosed(old(State()), config, request, authority, 0, 0)
    {
      var retired := 0;
      for i := 0 to |order|
        invariant Indexed(State())
        invariant RetireClosed(State(), config, request, authority, i, retired)
                  == RetireClosed(old(State()), config, request, authority, 0, 0)
      {
        hide ValidRecord, Fits, Release, RetireAction, InStream;
        var record := records[order[i]];
        if !InStream(record, request.sessionId, request.actorId) || record.status != Pending { continue; }
        match authority(record.intent.coordinate) {
          case Fault => return Err(RunAuthorityFault);
          case RunOpen => continue;
          case Closed =>
        }
        var t := RetireAction(record, request.claimedAt);
        if t.Err? { return Err(t.error); }
        if !ValidRecord(t.value.record, config) { return Err(StateConflict); }
        if !Fits(t.value.record, config) { return Err(FitError(config)); }
        ReleaseKeys(record);
        records := records[KeyOf(t.value.record) := t.value.record];
        retired := retired + 1;
        if retired >= request.candidateLimit { return Ok(true); }
      }
      return Ok(retired != 0);
    }

    /** Appends, sorts, and drops the last claim when there are more than limit. */
    method KeepFirst(kept: seq<ActionRecord>, record: ActionRecord, limit: nat) returns (r: seq<ActionRecord>)
      requires |kept| <= limit
      ensures r == Take(Sort(kept + [record], ExpiryRank), limit)
    {
      r := Sort(kept + [record], ExpiryRank);
      TakeDropsLast(r, limit);
      if |r| > limit { r := r[..|r| - 1]; }
    }

    /** The due claims that this call may expire, kept sorted and bounded while scanning. */
    method ScanDueClaims(request: ClaimRequest) returns (expired: seq<ActionRecord>)
      requires Indexed(State()) && request.candidateLimit > 0
      ensures expired == Expiring(State(), request)
    {
      expired := [];
      for i := 0 to |order|
        invariant expired == Take(Sort(DueClaims(State(), request, i), ExpiryRank), request.candidateLimit)
      {
        hide Due, Sort, Take, DueClaims;
        DueScanStep(State(), request, i, request.candidateLimit);
        if Due(records[order[i]], request) {
          expired := KeepFirst(expired, records[order[i]], request.candidateLimit);
        }
      }
    }

    method ExpireDueClaims(request: ClaimRequest, authority: AuthorityCheck) returns (r: Result<Expiry, ActionError>)
      requires Indexed(State()) && request.candidateLimit > 0
      modifies this`records
      ensures Outcome(State(), r)
              == ExpireDue(old(State()), config, request, authority, Expiring(old(State()), request), 0, Expiry({}, false))
    {
      var expired := ScanDueClaims(request);
      var replayable: set<OperationId> := {};
      var changed := false;
      for i := 0 to |expired|
        invariant Indexed(State())
        invariant ExpireDue(State(), config, request, authority, expired, i, Expiry(replayable, changed))
                  == ExpireDue(old(State()), config, request, authority, expired, 0, Expiry({}, false))
      {
        hide Fits, ExpireAction, Expiring;
        var record := expired[i];
        if record.intent.replayPolicy == Safe {
          match authority(record.intent.coordinate) {
            case Fault => return Err(RunAuthorityFault);
            case RunOpen =>
              replayable := replayable + {record.intent.operationId};
              continue;
            case Closed =>
          }
        }
        var t := ExpireAction(record, request.claimedAt);
        if t.Err? { return Err(t.error); }
        if !Fits(t.value.record, config) { return Err(FitError(config)); }
        records := records[KeyOf(t.value.record) := t.value.record];
        changed := true;
      }
      return Ok(Expiry(replayable, changed));
    }

    method FindOldestUnsettled(sessionId: Id, actorId: Id, runId: Option<Id>, replayable: set<OperationId>)
      returns (r: Option<ActionRecord>)
      requires Indexed(State())
      ensures r == OldestUnsettled(State(), sessionId, actorId, runId, replayable, 0)
    {
      for i := 0 to |order|
        invariant OldestUnsettled(State(), sessionId, actorId, runId, replayable, i)
                  == OldestUnsettled(State(), sessionId, actorId, runId, replayable, 0)
      {
        hide InStream, InRun, Holding;
        var record := records[order[i]];
        if InStream(record, sessionId, actorId) && InRun(record, runId)
           && record.intent.operationId !in replayable && Holding(record) {
          return Some(record);
        }
      }
      return None;
    }

    method ClaimPendingRecord(request: ClaimRequest, authority: AuthorityCheck, replayable: set<OperationId>)
      returns (r: Result<Option<ActionRecord>, ActionError>)
      requires Indexed(State())
      modifies this`records, this`conflicts
      ensures Outcome(State(), r) == ClaimPending(old(State()), config, request, authority, replayable, 0, 0)
    {
      var scanned := 0;
      for i := 0 to |order|
        invariant State() == old(State())
        invariant ClaimPending(State(), config, request, authority, replayable, i, scanned)
                  == ClaimPending(old(State()), config, request, authority, replayable, 0, 0)
      {
        hide ValidRecord, Fits, Release, Acquire, CanAcquire, ClaimAction, ReclaimAction, InStream, InRun;
        var record := records[order[i]];
        var replay := record.intent.operationId in replayable;
        if !InStream(record, request.sessionId, request.actorId) || !InRun(record, request.runId)
           || (record.status != Pending && !replay) {
          continue;
        }
        scanned := scanned + 1;
        if scanned > request.candidateLimit { return Ok(None); }
        match authority(record.intent.coordinate) {
          case Fault => return Err(RunAuthorityFault);
          case Closed => continue;
          case RunOpen =>
        }
        var free := CanAcquireKeys(record);
        if !free { continue; }
        var t := if replay then ReclaimAction(record, request) else ClaimAction(record, request);
        if t.Err? { return Err(t.error); }
        if !ValidRecord(t.value.record, config) { return Err(StateConflict); }
        if !Fits(t.value.record, config) { return Err(FitError(config)); }
        if replay { ReleaseKeys(record); }
        AcquireKeys(t.value.record);
        records := records[KeyOf(t.value.record) := t.value.record];
        return Ok(Some(t.value.record));
      }
      return Ok(None);
    }

    method NextDelivery(request: ClaimRequest, authority: AuthorityCheck) returns (r: Result<Selection, ActionError>)
      requires Valid()
      modifies this
      ensures Valid()
      ensures Outcome(State(), r) == Next(old(State()), config, request, authority)
      ensures r.Ok? ==> Offers(old(State()), State(), r.value.delivery, request, authority)
      ensures request.candidateLimit <= 0 || request.expiresAt <= request.claimedAt ==> r == Err(InvalidRequest) && State() == old(State())
    {
      hide Inv, Offers, RetireClosed, ExpireDue, Expiring, OldestUnsettled, ClaimPending;
      NextKeepsInv(State(), config, request, authority);
      if Next(State(), config, request, authority).result.Ok? { NextOffers(State(), config, request, authority); }
      InvIndexed(Next(State(), config, request, authority).journal, config);
      if !ValidClaimRequest(request) { return Err(InvalidRequest); }
      var retired := RetireClosedPending(request, authority);
      if retired.Err? { return Err(retired.error); }
      var expiry := ExpireDueClaims(request, authority);
      if expiry.Err? { return Err(expiry.error); }
      var changed := retired.value || expiry.value.changed;
      var unsettled := FindOldestUnsettled(request.sessionId, request.actorId, request.runId, expiry.value.replayable);
      if unsettled.Some? { return Ok(Selection(changed, Some(Reconciliation(unsettled.value)))); }
      var claimed := ClaimPendingRecord(request, authority, expiry.value.replayable);
      if claimed.Err? { return Err(claimed.error); }
      if claimed.value.Some? { return Ok(Selection(true, Some(Dispatch(claimed.value.value)))); }
      var waiting := FindOldestUnsettled(request.sessionId, request.actorId, request.runId, {});
      return Ok(Selection(changed, if waiting.Some? then Some(Reconciliation(waiting.value)) else None));
    }

    method RecoverDelivery(sessionId: Id, actorId: Id) returns (r: Option<Delivery>)
      requires Valid()
      ensures r == Recover(State(), sessionId, actorId)
      ensures match r
        case None => forall k :: k in records && k.sessionId == sessionId && k.actorId == actorId ==> !Holding(records[k])
        case Some(Reconciliation(a)) =>
          exists p :: FirstHolding(State(), sessionId, actorId, a, p)
        case Some(Dispatch(_)) => false
    {
      RecoverIsFirst(State(), config, sessionId, actorId);
      var unsettled := FindOldestUnsettled(sessionId, actorId, None, {});
      r := if unsettled.Some? then Some(Reconciliation(unsettled.value)) else None;
    }

    method RecordActionReceipt(input: ReceiptInput) returns (r: Result<ActionRecord, ActionError>)
      requires Valid()
      modifies this
      ensures Valid()
      ensures Outcome(State(), r) == RecordReceipt(old(State()), config, input)
      ensures ReceiptRecorded(old(State()), State(), r, input)
    {
      hide Inv, ReceiptAction, Fits, Release, ReceiptRecorded;
      RecordReceiptKeepsInv(State(), config, input);
      RecordReceiptMeans(State(), config, input);
      InvIndexed(RecordReceipt(State(), config, input).journal, config);
      var key := RecordKey(input.sessionId, input.actorId, input.operationId);
      if key !in records { return Err(NotFound); }
      var record := records[key];
      var t := ReceiptAction(record, input);
      if t.Err? { return Err(t.error); }
      if t.value.changed {
        if !Fits(t.value.record, config) { return Err(FitError(config)); }
        if t.value.releaseConflicts { ReleaseKeys(record); }
        records := records[KeyOf(t.value.record) := t.value.record];
      }
      return Ok(t.value.record);
    }

    method ReconcileRecord(input: ReconcileInput, authority: AuthorityCheck) returns (r: Result<ActionRecord, ActionError>)
      requires Valid()
      modifies this
      ensures Valid()
      ensures Outcome(State(), r) == Reconcile(old(State()), config, input, authority)
      ensures ResolutionRecorded(old(State()), State(), r, input, authority)
    {
      hide Inv, ReconcileAction, RetireAction, Fits, Release, ResolutionRecorded;
      ReconcileKeepsInv(State(), config, input, authority);
      ReconcileMeans(State(), config, input, authority);
      InvIndexed(Reconcile(State(), config, input, authority).journal, config);
      var key := RecordKey(input.sessionId, input.actorId, input.operationId);
      if key !in records { return Err(NotFound); }
      var record := records[key];
      var o := ReconcileAction(record, input);
      if o.Err? { return Err(o.error); }
      var t := o.value;
      if t.record.status == Pending {
        match authority(record.intent.coordinate) {
          case Fault => return Err(RunAuthorityFault);
          case RunOpen =>
          case Closed =>
            var retired := RetireAction(t.record, input.reconciledAt);
            if retired.Err? { return Err(retired.error); }
            t := t.(record := retired.value.record, changed := true);
        }
      }
      if t.changed {
        if !Fits(t.record, config) { return Err(FitError(config)); }
        if t.releaseConflicts { ReleaseKeys(record); }
        records := records[KeyOf(t.record) := t.record];
      }
      return Ok(t.record);
    }

    method ListGoalProjections(sessionId: Id, actorId: Id, after: nat, limit: nat) returns (r: Result<GoalPage, ActionError>)
      requires Valid()
      ensures r == ListGoals(State(), config, sessionId, actorId, after, limit)
    {
      hide Inv, AwaitsGoal, Oversize;
      if config.limits.None? { return Err(GoalLimitsMissing); }
      if limit == 0 || limit > config.limits.value.maxListBatchSize { return Err(InvalidRequest); }
      var candidates: seq<GoalCandidate> := [];
      ghost var all := GoalsAfter(State(), sessionId, actorId, after, |order|);
      var i := 0;
      while i < |order| && |candidates| <= limit
        invariant i <= |order| && |candidates| <= limit + 1
        invariant candidates == GoalsAfter(State(), sessionId, actorId, after, i) && candidates <= all
        invariant forall c :: c in candidates ==> !Oversize(config, c)
      {
        GoalsPrefix(State(), sessionId, actorId, after, i + 1, |order|);
        var key := order[i];
        if key in sequences && sequences[key] > after && AwaitsGoal(records[key], sessionId, actorId) {
          var candidate := GoalCandidate(sequences[key], records[key]);
          if Oversize(config, candidate) {
            TakeHolds(all, candidates, candidate, limit + 1);
            return Err(GoalRecordTooLarge);
          }
          candidates := candidates + [candidate];
        }
        i := i + 1;
      }
      PageOfScan(all, candidates, limit);
      var page := if |candidates| > limit then candidates[..limit] else candidates;
      return Ok(GoalPage(page, if |candidates| > limit then Some(page[limit - 1].sequence) else None));
    }

    method SettleGoalProjection(input: SettlementInput) returns (r: Result<ActionRecord, ActionError>)
      requires Valid()
      modifies this
      ensures Valid()
      ensures Outcome(State(), r) == Settle(old(State()), config, input)
      ensures SettlementRecorded(old(State()), State(), r, input, config)
    {
      hide Inv, SettleAction, ValidRecord, Fits, Release, SettlementRecorded;
      SettleKeepsInv(State(), config, input);
      SettleMeans(State(), config, input);
      InvIndexed(Settle(State(), config, input).journal, config);
      var key := RecordKey(input.sessionId, input.actorId, input.operationId);
      if config.limits.None? { return Err(GoalLimitsMissing); }
      if key !in records { return Err(NotFound); }
      var t := SettleAction(records[key], input);
      if t.Err? { return Err(t.error); }
      SettleReleasesNothing(records[key], input);
      if t.value.changed {
        if !ValidRecord(t.value.record, config) { return Err(StateConflict); }
        if !Fits(t.value.record, config) { return Err(FitError(config)); }
        records := records[KeyOf(t.value.record) := t.value.record];
      }
      return Ok(t.value.record);
    }

    method PurgeTerminal(request: PurgeRequest) returns (purged: seq<OperationId>)
      requires Valid()
      modifies this
      ensures Valid()
      ensures State() == Purge(old(State()), request)
      ensures purged == OperationIds(Purged(old(State()), request))
    {
      hide Inv, Purgeable, Release, Without, PurgeCandidates;
      Runs.PurgeKeepsInv(State(), config, request);
      InvIndexed(Purge(State(), request), config);
      var candidates := PurgeCandidates(State(), request, |order|);
      var eligible := Take(Sort(candidates, AgeRank), request.limit);
      purged := [];
      for i := 0 to |eligible|
        invariant State() == RemoveAll(old(State()), eligible[..i])
        invariant purged == OperationIds(eligible[..i])
      {
        var record := eligible[i].record;
        assert eligible[..i + 1][..i] == eligible[..i];
        ReleaseKeys(record);
        records := records - {KeyOf(record)};
        order := Without(order, KeyOf(record));
        sequences := sequences - {KeyOf(record)};
        purged := purged + [record.intent.operationId];
      }
      assert eligible[..|eligible|] == eligible;
    }
  }

  /** The record at position p of the admission order is the first of its stream that is claimed or uncertain. */
  ghost predicate FirstHolding(j: Journal, sessionId: Id, actorId: Id, a: ActionRecord, p: nat) {
    && Indexed(j) && p < |j.order| && j.records[j.order[p]] == a
    && j.order[p].sessionId == sessionId && j.order[p].actorId == actorId && Holding(a)
    && forall q :: 0 <= q < p && j.order[q].sessionId == sessionId && j.order[q].actorId == actorId ==> !Holding(j.records[j.order[q]])
  }

  lemma RecoverIsFirst(j: Journal, config: Config, sessionId: Id, actorId: Id)
    requires Inv(j, config) && Indexed(j)
    ensures match Recover(j, sessionId, actorId)
      case None => forall k :: k in j.records && k.sessionId == sessionId && k.actorId == actorId ==> !Holding(j.records[k])
      case Some(Reconciliation(a)) => exists p :: FirstHolding(j, sessionId, actorId, a, p)
      case Some(Dispatch(_)) => false
  {
    hide Inv, OldestUnsettled, OrderOk, Keyed, TableOk, RecordsOk, Holding;
    InvParts(j, config);
    OldestUnsettledIsFirst(j, sessionId, actorId, None, {}, 0);
    forall k | k in j.records ensures KeyOf(j.records[k]) == k && exists i :: 0 <= i < |j.order| && j.order[i] == k {
      KeyedAt(j, k);
      Listed(j, k);
    }
    match OldestUnsettled(j, sessionId, actorId, None, {}, 0)
    case None =>
    case Some(a) =>
      var p :| 0 <= p < |j.order| && j.records[j.order[p]] == a && Unsettled(a, sessionId, actorId, None, {})
               && forall q :: 0 <= q < p ==> !Unsettled(j.records[j.order[q]], sessionId, actorId, None, {});
      assert FirstHolding(j, sessionId, actorId, a, p);
  }

  lemma OneMoreKey(record: ActionRecord, i: nat)
    requires i < |record.intent.conflictKeys|
    ensures KeysUpTo(record, i + 1)
            == KeysUpTo(record, i) + {ConflictKey(record.intent.sessionId, record.intent.conflictKeys[i])}
  {}

  function KeysUpTo(record: ActionRecord, n: nat): set<ConflictKey>
    requires n <= |record.intent.conflictKeys|
  {
    set k | k in record.intent.conflictKeys[..n] :: ConflictKey(record.intent.sessionId, k)
  }

  lemma TakeDropsLast<T>(xs: seq<T>, n: nat)
    requires |xs| <= n + 1
    ensures Take(xs, n) == if |xs| > n then xs[..|xs| - 1] else xs
  {}

  /** One record of the bounded scan: the kept claims stay the first ones of all due claims so far. */
  lemma DueScanStep(j: Journal, request: ClaimRequest, i: nat, n: nat)
    requires Indexed(j) && i < |j.order|
    ensures Take(Sort(DueClaims(j, request, i + 1), ExpiryRank), n)
            == if Due(j.records[j.order[i]], request)
               then Take(Sort(Take(Sort(DueClaims(j, request, i), ExpiryRank), n) + [j.records[j.order[i]]], ExpiryRank), n)
               else Take(Sort(DueClaims(j, request, i), ExpiryRank), n)
  {
    hide Due, ExpiryRank, Sort, Take;
    BoundedScanStep(DueClaims(j, request, i), j.records[j.order[i]], ExpiryRank, n);
    assert DueClaims(j, request, i) + [] == DueClaims(j, request, i);
  }

  lemma TakeHolds(all: seq<GoalCandidate>, front: seq<GoalCandidate>, c: GoalCandidate, n: nat)
    requires front + [c] <= all && |front| < n
    ensures c in Take(all, n)
  {
    assert Take(all, n)[|front|] == (front + [c])[|front|];
  }

  /** Stopping the scan one candidate beyond the limit is enough to make the page. */
  lemma PageOfScan(all: seq<GoalCandidate>, scanned: seq<GoalCandidate>, limit: nat)
    requires scanned <= all && limit > 0 && |scanned| <= limit + 1 && (scanned == all || |scanned| == limit + 1)
    ensures Take(all, limit + 1) == scanned
    ensures PageOf(all, limit)
            == if |scanned| > limit then GoalPage(scanned[..limit], Some(scanned[limit - 1].sequence))
               else GoalPage(scanned, None)
  {}

  lemma SettleReleasesNothing(r: ActionRecord, input: SettlementInput)
    requires SettleAction(r, input).Ok?
    ensures !SettleAction(r, input).value.releaseConflicts
  {}

  /** What the first n records contribute stays at the front. */
  lemma {:induction false} GoalsPrefix(j: Journal, sessionId: Id, actorId: Id, after: nat, n: nat, m: nat)
    requires Indexed(j) && n <= m <= |j.order|
    ensures GoalsAfter(j, sessionId, actorId, after, n) <= GoalsAfter(j, sessionId, actorId, after, m)
    decreases m - n
  {
    if n < m { GoalsPrefix(j, sessionId, actorId, after, n, m - 1); }
  }
}
