/** What selecting a delivery chooses: which pending work is retired, which due claims expire, which record is offered. */
module ActionDelivery {
  import opened Wrappers
  import opened ActionRecords
  import opened StableSort
  import opened ActionJournal
  import opened ActionJournalInvariant
  import opened ActionJournalSteps

  // ---------------------------------------------------------------- retirement

  predicate ClosedPending(r: ActionRecord, request: ClaimRequest, authority: AuthorityCheck) {
    InStream(r, request.sessionId, request.actorId) && r.status == Pending && authority(r.intent.coordinate) == Closed
  }

  /** How many records at positions i up to p are pending work of a closed run. */
  function ClosedBetween(j: Journal, request: ClaimRequest, authority: AuthorityCheck, i: nat, p: nat): nat
    requires Indexed(j) && i <= p <= |j.order|
    decreases p - i
  {
    if i == p then 0
    else (if ClosedPending(j.records[j.order[i]], request, authority) then 1 else 0)
         + ClosedBetween(j, request, authority, i + 1, p)
  }

  lemma {:induction false} ClosedBetweenFrame(j: Journal, j': Journal, request: ClaimRequest, authority: AuthorityCheck,
                                              i: nat, p: nat)
    requires Indexed(j) && Indexed(j') && j'.order == j.order && i <= p <= |j.order|
    requires forall q :: i <= q < p ==> j'.records[j.order[q]] == j.records[j.order[q]]
    ensures ClosedBetween(j', request, authority, i, p) == ClosedBetween(j, request, authority, i, p)
    decreases p - i
  {
    if i < p { ClosedBetweenFrame(j, j', request, authority, i + 1, p); }
  }

  /** What position p holds once retirement, having already retired some records, has run from position i on. */
  ghost function AfterRetirement(j: Journal, request: ClaimRequest, authority: AuthorityCheck, i: nat, retired: nat, p: nat): ActionRecord
    requires Indexed(j) && i <= |j.order| && p < |j.order|
  {
    var r := j.records[j.order[p]];
    if i <= p && ClosedPending(r, request, authority)
       && retired + ClosedBetween(j, request, authority, i, p) < request.candidateLimit
    then r.(status := Failed, updatedAt := request.claimedAt)
    else r
  }

  ghost predicate RetiredFrom(j: Journal, j': Journal, request: ClaimRequest, authority: AuthorityCheck, i: nat, retired: nat)
    requires Indexed(j) && Indexed(j') && j'.order == j.order && i <= |j.order|
  {
    forall p :: 0 <= p < |j.order| ==> j'.records[j.order[p]] == AfterRetirement(j, request, authority, i, retired, p)
  }

  /** Retiring the record at position i first and going on from there retires the same records. */
  lemma RetiredCompose(j: Journal, j1: Journal, j2: Journal, request: ClaimRequest, authority: AuthorityCheck, i: nat, retired: nat)
    requires Indexed(j) && Indexed(j1) && Indexed(j2) && j1.order == j.order && j2.order == j.order && i < |j.order|
    requires ClosedPending(j.records[j.order[i]], request, authority) && retired < request.candidateLimit
    requires j1.records[j.order[i]] == j.records[j.order[i]].(status := Failed, updatedAt := request.claimedAt)
    requires forall q :: 0 <= q < |j.order| && q != i ==> j1.records[j.order[q]] == j.records[j.order[q]]
    requires RetiredFrom(j1, j2, request, authority, i + 1, retired + 1)
    ensures RetiredFrom(j, j2, request, authority, i, retired)
  {
    hide ClosedPending;
    forall p | 0 <= p < |j.order|
      ensures j2.records[j.order[p]] == AfterRetirement(j, request, authority, i, retired, p)
    {
      if i < p { ClosedBetweenFrame(j, j1, request, authority, i + 1, p); }
    }
  }

  lemma RetiredAtLimit(j: Journal, j1: Journal, request: ClaimRequest, authority: AuthorityCheck, i: nat, retired: nat)
    requires Indexed(j) && Indexed(j1) && j1.order == j.order && i < |j.order|
    requires ClosedPending(j.records[j.order[i]], request, authority) && retired + 1 == request.candidateLimit
    requires j1.records[j.order[i]] == j.records[j.order[i]].(status := Failed, updatedAt := request.claimedAt)
    requires forall q :: 0 <= q < |j.order| && q != i ==> j1.records[j.order[q]] == j.records[j.order[q]]
    ensures RetiredFrom(j, j1, request, authority, i, retired)
  {
    hide ClosedPending;
  }

  /** Retirement fails exactly the first candidateLimit pending records of closed runs, in admission order. */
  lemma {:induction false} RetirementExact(j: Journal, config: Config, request: ClaimRequest, authority: AuthorityCheck,
                                           i: nat, retired: nat)
    requires Indexed(j) && Distinct(j.order) && Keyed(j) && i <= |j.order| && retired < request.candidateLimit
    requires RetireClosed(j, config, request, authority, i, retired).result.Ok?
    ensures RetiredFrom(j, RetireClosed(j, config, request, authority, i, retired).journal, request, authority, i, retired)
    decreases |j.order| - i
  {
    hide ValidRecord, Fits, InStream, Release, KnownUnapplied, RetiredFrom;
    if i == |j.order| {
      NothingRetired(j, request, authority, retired);
    } else {
      var record := j.records[j.order[i]];
      assert KeyOf(record) == j.order[i] by { KeyedAt(j, j.order[i]); }
      if ClosedPending(record, request, authority) {
        var t := RetireAction(record, request.claimedAt).value.record;
        var j1 := Store(j, t, Release(j.conflicts, record));
        StoreKeyed(j, t, Release(j.conflicts, record));
        if retired + 1 < request.candidateLimit {
          RetirementExact(j1, config, request, authority, i + 1, retired + 1);
          RetiredCompose(j, j1, RetireClosed(j1, config, request, authority, i + 1, retired + 1).journal, request, authority, i, retired);
        } else {
          RetiredAtLimit(j, j1, request, authority, i, retired);
        }
      } else {
        RetirementExact(j, config, request, authority, i + 1, retired);
        RetiredSkip(j, RetireClosed(j, config, request, authority, i + 1, retired).journal, request, authority, i, retired);
      }
    }
  }

  lemma NothingRetired(j: Journal, request: ClaimRequest, authority: AuthorityCheck, retired: nat)
    requires Indexed(j)
    ensures RetiredFrom(j, j, request, authority, |j.order|, retired)
  {}

  lemma RetiredSkip(j: Journal, j2: Journal, request: ClaimRequest, authority: AuthorityCheck, i: nat, retired: nat)
    requires Indexed(j) && Indexed(j2) && j2.order == j.order && i < |j.order|
    requires !ClosedPending(j.records[j.order[i]], request, authority)
    requires RetiredFrom(j, j2, request, authority, i + 1, retired)
    ensures RetiredFrom(j, j2, request, authority, i, retired)
  {
    hide ClosedPending;
  }

  lemma StoreKeyed(j: Journal, r: ActionRecord, conflicts: map<ConflictKey, OperationId>)
    requires Keyed(j) && KeyOf(r) in j.records && j.records[KeyOf(r)].intent == r.intent
    ensures Keyed(Store(j, r, conflicts))
  {}

  // ---------------------------------------------------------------- expiry

  /** The claim ran out when the request came, in its stream and run. */
  predicate RanOut(r: ActionRecord, request: ClaimRequest) {
    && r.intent.sessionId == request.sessionId && r.intent.actorId == request.actorId
    && (request.runId == None || request.runId == Some(r.intent.coordinate.runId))
    && r.status == Claimed && r.claim.Some? && request.claimedAt >= r.claim.value.expiresAt
  }

  lemma {:induction false} DueClaimsComplete(j: Journal, request: ClaimRequest, n: nat)
    requires Indexed(j) && n <= |j.order|
    ensures forall i :: 0 <= i < n && Due(j.records[j.order[i]], request) ==> j.records[j.order[i]] in DueClaims(j, request, n)
  {
    hide Due;
    if n > 0 { DueClaimsComplete(j, request, n - 1); }
  }

  lemma DueMeans(request: ClaimRequest)
    ensures forall r :: Due(r, request) <==> RanOut(r, request)
  {}

  lemma ExpiryRanks(request: ClaimRequest)
    ensures forall x, r :: RanOut(x, request) && RanOut(r, request) && !Before(ExpiryRank(x), ExpiryRank(r)) ==>
              x.claim.value.expiresAt >= r.claim.value.expiresAt
  {}

  /** One selection expires stored claims that ran out, at most candidateLimit of them, and leaves one of these only when
      the limit is reached, and then none that expires before a chosen one. */
  lemma ExpiringIsEarliest(j: Journal, config: Config, request: ClaimRequest, r: ActionRecord)
    requires Inv(j, config) && Indexed(j) && request.candidateLimit > 0 && r in Expiring(j, request)
    ensures KeyOf(r) in j.records && j.records[KeyOf(r)] == r && RanOut(r, request)
    ensures |Expiring(j, request)| <= request.candidateLimit
    ensures forall k :: k in j.records && RanOut(j.records[k], request) && j.records[k] !in Expiring(j, request) ==>
              && |Expiring(j, request)| == request.candidateLimit
              && j.records[k].claim.value.expiresAt >= r.claim.value.expiresAt
  {
    hide Inv, Due, RanOut, ExpiryRank, Before, Sort, Take, OrderOk, Keyed, TableOk, RecordsOk;
    var all := DueClaims(j, request, |j.order|);
    InvParts(j, config);
    DueMeans(request);
    ExpiryRanks(request);
    DueClaimsSound(j, request, |j.order|);
    DueClaimsComplete(j, request, |j.order|);
    FirstAreLeast(all, ExpiryRank, request.candidateLimit, r);
    forall k | k in j.records && RanOut(j.records[k], request) ensures j.records[k] in all {
      Listed(j, k);
      var i :| 0 <= i < |j.order| && j.order[i] == k;
    }
  }

  lemma Listed(j: Journal, k: RecordKey)
    requires OrderOk(j) && k in j.records
    ensures exists i :: 0 <= i < |j.order| && j.order[i] == k
  {
    assert k in j.order;
  }

  predicate StaysReplayable(r: ActionRecord, authority: AuthorityCheck) {
    r.intent.replayPolicy == Safe && authority(r.intent.coordinate) == RunOpen
  }

  function Expired(r: ActionRecord, request: ClaimRequest, authority: AuthorityCheck): ActionRecord {
    if StaysReplayable(r, authority) then r else r.(status := Uncertain, updatedAt := request.claimedAt)
  }

  lemma RestStoredOnce(j: Journal, due: seq<ActionRecord>, i: nat, r: ActionRecord)
    requires i < |due| && StoredOnce(j, due[i..]) && KeyOf(r) == KeyOf(due[i])
    ensures KeyOf(due[i]) in j.records && j.records[KeyOf(due[i])] == due[i]
    ensures StoredOnce(j, due[i + 1..]) && StoredOnce(Store(j, r, j.conflicts), due[i + 1..])
    ensures forall k :: i < k < |due| ==> KeyOf(due[k]) != KeyOf(due[i])
  {
    assert due[i..][0] == due[i] && due[i..][1..] == due[i + 1..];
    forall k | i < k < |due| ensures KeyOf(due[k]) != KeyOf(due[i]) { assert due[i..][k - i] == due[k]; }
  }

  /** Every other record, and the conflict table, stay as they were. */
  lemma {:induction false} ExpiryFrame(j: Journal, config: Config, request: ClaimRequest, authority: AuthorityCheck,
                                       due: seq<ActionRecord>, i: nat, expiry: Expiry, key: RecordKey)
    requires Indexed(j) && i <= |due| && key in j.records && forall k :: i <= k < |due| ==> KeyOf(due[k]) != key
    ensures var j' := ExpireDue(j, config, request, authority, due, i, expiry).journal;
            j'.conflicts == j.conflicts && key in j'.records && j'.records[key] == j.records[key]
    decreases |due| - i
  {
    hide Fits;
    if i < |due| {
      var record := due[i];
      if record.intent.replayPolicy == Safe && authority(record.intent.coordinate) == Fault {
      } else if StaysReplayable(record, authority) {
        ExpiryFrame(j, config, request, authority, due, i + 1,
                    expiry.(replayable := expiry.replayable + {record.intent.operationId}), key);
      } else {
        var o := ExpireAction(record, request.claimedAt);
        if o.Ok? && Fits(o.value.record, config) {
          ExpiryFrame(Store(j, o.value.record, j.conflicts), config, request, authority, due, i + 1,
                      expiry.(changed := true), key);
        }
      }
    }
  }

  /** Of the due claims, safe ones of open runs become replayable and keep their claim; every other one becomes uncertain. */
  lemma {:induction false} ExpiryExact(j: Journal, config: Config, request: ClaimRequest, authority: AuthorityCheck,
                                       due: seq<ActionRecord>, i: nat, expiry: Expiry, k: nat)
    requires Indexed(j) && i <= k < |due| && StoredOnce(j, due[i..])
    requires ExpireDue(j, config, request, authority, due, i, expiry).result.Ok?
    ensures var j' := ExpireDue(j, config, request, authority, due, i, expiry).journal;
            KeyOf(due[k]) in j'.records && j'.records[KeyOf(due[k])] == Expired(due[k], request, authority)
    decreases |due| - i
  {
    hide Fits, StoredOnce;
    var record := due[i];
    RestStoredOnce(j, due, i, record);
    if StaysReplayable(record, authority) {
      var next := expiry.(replayable := expiry.replayable + {record.intent.operationId});
      if k == i { ExpiryFrame(j, config, request, authority, due, i + 1, next, KeyOf(record)); }
      else { ExpiryExact(j, config, request, authority, due, i + 1, next, k); }
    } else {
      var t := ExpireAction(record, request.claimedAt).value.record;
      RestStoredOnce(j, due, i, t);
      if k == i {
        ExpiryFrame(Store(j, t, j.conflicts), config, request, authority, due, i + 1, expiry.(changed := true), KeyOf(record));
      } else {
        ExpiryExact(Store(j, t, j.conflicts), config, request, authority, due, i + 1, expiry.(changed := true), k);
      }
    }
  }

  lemma {:induction false} ReplayableExact(j: Journal, config: Config, request: ClaimRequest, authority: AuthorityCheck,
                                           due: seq<ActionRecord>, i: nat, expiry: Expiry, op: OperationId)
    requires Indexed(j) && i <= |due|
    requires ExpireDue(j, config, request, authority, due, i, expiry).result.Ok?
    ensures op in ExpireDue(j, config, request, authority, due, i, expiry).result.value.replayable
            <==> (op in expiry.replayable
                  || exists k :: i <= k < |due| && due[k].intent.operationId == op && StaysReplayable(due[k], authority))
    decreases |due| - i
  {
    hide Fits, ExpireAction;
    if i < |due| {
      var record := due[i];
      if StaysReplayable(record, authority) {
        ReplayableExact(j, config, request, authority, due, i + 1,
                        expiry.(replayable := expiry.replayable + {record.intent.operationId}), op);
      } else {
        var t := ExpireAction(record, request.claimedAt).value.record;
        ReplayableExact(Store(j, t, j.conflicts), config, request, authority, due, i + 1, expiry.(changed := true), op);
      }
    }
  }

  // ---------------------------------------------------------------- the choice

  predicate Unsettled(r: ActionRecord, sessionId: Id, actorId: Id, runId: Option<Id>, replayable: set<OperationId>) {
    InStream(r, sessionId, actorId) && InRun(r, runId) && r.intent.operationId !in replayable && Holding(r)
  }

  /** The record offered for reconciliation is the first unsettled one by admission; none is offered only if there is none. */
  lemma {:induction false} OldestUnsettledIsFirst(j: Journal, sessionId: Id, actorId: Id, runId: Option<Id>,
                                                  replayable: set<OperationId>, i: nat)
    requires Indexed(j) && i <= |j.order|
    ensures match OldestUnsettled(j, sessionId, actorId, runId, replayable, i)
      case None => forall p :: i <= p < |j.order| ==>
        !Unsettled(j.records[j.order[p]], sessionId, actorId, runId, replayable)
      case Some(r) =>
        (exists p :: i <= p < |j.order| && j.records[j.order[p]] == r
          && Unsettled(r, sessionId, actorId, runId, replayable)
          && forall q :: i <= q < p ==> !Unsettled(j.records[j.order[q]], sessionId, actorId, runId, replayable))
    decreases |j.order| - i
  {
    if i < |j.order| { OldestUnsettledIsFirst(j, sessionId, actorId, runId, replayable, i + 1); }
  }

  predicate Claimable(r: ActionRecord, request: ClaimRequest, replayable: set<OperationId>) {
    && InStream(r, request.sessionId, request.actorId) && InRun(r, request.runId)
    && (r.status == Pending || r.intent.operationId in replayable)
  }

  predicate Passed(j: Journal, r: ActionRecord, authority: AuthorityCheck) {
    authority(r.intent.coordinate) == Closed || !CanAcquire(j.conflicts, r)
  }

  /** A dispatched record was claimable, of an open run and free of conflicts, every claimable record admitted before it
      was closed or in conflict, and it now carries the request's claim on its next attempt. */
  lemma {:induction false} ClaimIsFirstFree(j: Journal, config: Config, request: ClaimRequest, authority: AuthorityCheck,
                                            replayable: set<OperationId>, i: nat, scanned: nat) returns (p: nat)
    requires Indexed(j) && i <= |j.order|
    requires ClaimPending(j, config, request, authority, replayable, i, scanned).result.Ok?
    requires ClaimPending(j, config, request, authority, replayable, i, scanned).result.value.Some?
    ensures i <= p < |j.order|
    ensures var before := j.records[j.order[p]];
            var r := ClaimPending(j, config, request, authority, replayable, i, scanned).result.value.value;
      && Claimable(before, request, replayable)
      && authority(before.intent.coordinate) == RunOpen && CanAcquire(j.conflicts, before)
      && r.intent == before.intent && r.status == Claimed && r.attempt == before.attempt + 1
      && r.claim == Some(Claim(request.claimToken, request.claimantId, r.attempt, request.claimedAt, request.expiresAt))
    ensures forall q :: i <= q < p && Claimable(j.records[j.order[q]], request, replayable) ==>
              Passed(j, j.records[j.order[q]], authority)
    decreases |j.order| - i
  {
    hide ValidRecord, Fits, Release, Acquire, CanAcquire, InStream, InRun;
    var record := j.records[j.order[i]];
    if !Claimable(record, request, replayable) {
      p := ClaimIsFirstFree(j, config, request, authority, replayable, i + 1, scanned);
    } else if authority(record.intent.coordinate) == Closed || !CanAcquire(j.conflicts, record) {
      p := ClaimIsFirstFree(j, config, request, authority, replayable, i + 1, scanned + 1);
    } else {
      p := i;
    }
  }

  /** How many records at positions i up to p could be claimed. */
  function ClaimableBetween(j: Journal, request: ClaimRequest, replayable: set<OperationId>, i: nat, p: nat): nat
    requires Indexed(j) && i <= p <= |j.order|
    decreases p - i
  {
    if i == p then 0
    else (if Claimable(j.records[j.order[i]], request, replayable) then 1 else 0)
         + ClaimableBetween(j, request, replayable, i + 1, p)
  }

  /** Nothing is dispatched only when each of the first candidateLimit claimable records was closed or in conflict. */
  lemma {:induction false} NoClaimMeansNoneFree(j: Journal, config: Config, request: ClaimRequest, authority: AuthorityCheck,
                                                replayable: set<OperationId>, i: nat, scanned: nat, q: nat)
    requires Indexed(j) && i <= q < |j.order| && Claimable(j.records[j.order[q]], request, replayable)
    requires ClaimPending(j, config, request, authority, replayable, i, scanned).result == Ok(None)
    requires scanned + ClaimableBetween(j, request, replayable, i, q) < request.candidateLimit
    ensures Passed(j, j.records[j.order[q]], authority)
    decreases |j.order| - i
  {
    hide ValidRecord, Fits, Release, Acquire, CanAcquire, InStream, InRun, ClaimAction, ReclaimAction;
    if i < q {
      if Claimable(j.records[j.order[i]], request, replayable) {
        NoClaimMeansNoneFree(j, config, request, authority, replayable, i + 1, scanned + 1, q);
      } else {
        NoClaimMeansNoneFree(j, config, request, authority, replayable, i + 1, scanned, q);
      }
    }
  }

  // ---------------------------------------------------------------- the order of the choice

  /** Claimed or uncertain work that a request of this scope has to see to. */
  predicate Open(r: ActionRecord, request: ClaimRequest) {
    && r.intent.sessionId == request.sessionId && r.intent.actorId == request.actorId
    && (request.runId == None || request.runId == Some(r.intent.coordinate.runId))
    && (r.status == Claimed || r.status == Uncertain)
  }

  /** Work that may be claimed again instead of reconciled: a safe claim of an open run that ran out. */
  predicate MayRepeat(r: ActionRecord, request: ClaimRequest, authority: AuthorityCheck) {
    RanOut(r, request) && r.intent.replayPolicy == Safe && authority(r.intent.coordinate) == RunOpen
  }

  lemma OpenMeans(request: ClaimRequest, replayable: set<OperationId>)
    ensures forall r :: Unsettled(r, request.sessionId, request.actorId, request.runId, replayable)
                        <==> Open(r, request) && r.intent.operationId !in replayable
  {}

  /** Retirement leaves open work as it was. */
  lemma OpenAfterRetirement(j: Journal, config: Config, request: ClaimRequest, authority: AuthorityCheck, k: RecordKey)
    requires Inv(j, config) && Indexed(j) && k in j.records && ValidClaimRequest(request)
    requires RetireClosed(j, config, request, authority, 0, 0).result.Ok?
    ensures var j1 := RetireClosed(j, config, request, authority, 0, 0).journal;
      k in j1.records && (Open(j.records[k], request) || Open(j1.records[k], request) ==> j1.records[k] == j.records[k])
  {
    hide RetireClosed, Inv, OrderOk, Keyed, TableOk, RecordsOk, ClosedBetween;
    InvParts(j, config);
    assert Distinct(j.order) by { Ordered(j); }
    RetirementExact(j, config, request, authority, 0, 0);
    Listed(j, k);
    var p :| 0 <= p < |j.order| && j.order[p] == k;
  }

  lemma Ordered(j: Journal)
    requires OrderOk(j)
    ensures Distinct(j.order)
  {
    hide Distinct;
  }

  /** Expiry makes open work at most uncertain, and what may be repeated stays as it was. */
  lemma OpenAfterExpiry(j: Journal, config: Config, request: ClaimRequest, authority: AuthorityCheck, k: RecordKey)
    requires Inv(j, config) && Indexed(j) && k in j.records && request.candidateLimit > 0
    requires ExpireDue(j, config, request, authority, Expiring(j, request), 0, Expiry({}, false)).result.Ok?
    ensures var o := ExpireDue(j, config, request, authority, Expiring(j, request), 0, Expiry({}, false));
      && k in o.journal.records && (Open(j.records[k], request) <==> Open(o.journal.records[k], request))
      && (j.records[k].intent.operationId in o.result.value.replayable ==>
            o.journal.records[k] == j.records[k] && MayRepeat(j.records[k], request, authority))
  {
    hide ExpireDue, Expiring, Inv, OrderOk, Keyed, TableOk, RecordsOk, RanOut;
    var due := Expiring(j, request);
    ExpiringStoredOnce(j, config, request);
    assert due[0..] == due;
    InvRecord(j, config, k);
    ReplayableExact(j, config, request, authority, due, 0, Expiry({}, false), j.records[k].intent.operationId);
    if d :| 0 <= d < |due| && KeyOf(due[d]) == k {
      assert due[d] in due;
      ExpiringIsEarliest(j, config, request, due[d]);
      ExpiryExact(j, config, request, authority, due, 0, Expiry({}, false), d);
      ExpiredOpen(due[d], request, authority);
      OneKey(j, config, due, d, authority);
    } else {
      ExpiryFrame(j, config, request, authority, due, 0, Expiry({}, false), k);
      forall e | 0 <= e < |due| ensures due[e].intent.operationId != j.records[k].intent.operationId {
        assert due[e] in due;
        ExpiringIsEarliest(j, config, request, due[e]);
        InvRecord(j, config, KeyOf(due[e]));
        SoundKey(due[e], config);
        SoundKey(j.records[k], config);
      }
    }
  }

  lemma OneKey(j: Journal, config: Config, due: seq<ActionRecord>, d: nat, authority: AuthorityCheck)
    requires Inv(j, config) && StoredOnce(j, due) && d < |due|
    ensures (exists e :: 0 <= e < |due| && due[e].intent.operationId == due[d].intent.operationId && StaysReplayable(due[e], authority))
            ==> StaysReplayable(due[d], authority)
  {
    hide Inv, StaysReplayable;
    forall e | 0 <= e < |due| && due[e].intent.operationId == due[d].intent.operationId ensures e == d {
      InvRecord(j, config, KeyOf(due[e]));
      InvRecord(j, config, KeyOf(due[d]));
      SoundKey(due[e], config);
      SoundKey(due[d], config);
    }
  }

  lemma ExpiredOpen(r: ActionRecord, request: ClaimRequest, authority: AuthorityCheck)
    requires RanOut(r, request)
    ensures Open(r, request) && Open(Expired(r, request, authority), request)
    ensures StaysReplayable(r, authority) ==> Expired(r, request, authority) == r && MayRepeat(r, request, authority)
  {}

  /** No open record before position p keeps it from being the next to reconcile. */
  ghost predicate FirstOpen(j: Journal, request: ClaimRequest, authority: AuthorityCheck, a: ActionRecord, p: nat) {
    && Indexed(j) && p < |j.order| && j.records[j.order[p]] == a && Open(a, request)
    && forall q :: 0 <= q < p && Open(j.records[j.order[q]], request) ==> MayRepeat(j.records[j.order[q]], request, authority)
  }

  ghost predicate NoneOpen(j: Journal, request: ClaimRequest) {
    forall k :: k in j.records ==> !Open(j.records[k], request)
  }

  ghost predicate OpenRepeat(j: Journal, request: ClaimRequest, authority: AuthorityCheck) {
    forall k :: k in j.records && Open(j.records[k], request) ==> MayRepeat(j.records[k], request, authority)
  }

  /** What is offered, told of the journals before and behind the selection: new work only when everything open may be
      repeated, otherwise the oldest open record that may not be skipped, and nothing only when nothing is open. */
  ghost predicate Offers(j: Journal, j': Journal, delivery: Option<Delivery>, request: ClaimRequest, authority: AuthorityCheck) {
    match delivery
    case None => NoneOpen(j', request)
    case Some(Reconciliation(a)) => exists p :: FirstOpen(j', request, authority, a, p)
    case Some(Dispatch(a)) =>
      && OpenRepeat(j, request, authority)
      && KeyOf(a) in j'.records && j'.records[KeyOf(a)] == a && a.status == Claimed
      && a.claim == Some(Claim(request.claimToken, request.claimantId, a.attempt, request.claimedAt, request.expiresAt))
      && KeyOf(a) in j.records && authority(a.intent.coordinate) == RunOpen
  }

  lemma RepeatableByExpiry(j: Journal, config: Config, request: ClaimRequest, authority: AuthorityCheck, k: RecordKey)
    requires Inv(j, config) && Indexed(j) && k in j.records && ValidClaimRequest(request)
    requires RetireClosed(j, config, request, authority, 0, 0).result.Ok?
    requires var j1 := RetireClosed(j, config, request, authority, 0, 0).journal;
      ExpireDue(j1, config, request, authority, Expiring(j1, request), 0, Expiry({}, false)).result.Ok?
    ensures var j1 := RetireClosed(j, config, request, authority, 0, 0).journal;
      var o := ExpireDue(j1, config, request, authority, Expiring(j1, request), 0, Expiry({}, false));
      && k in o.journal.records && (Open(j.records[k], request) <==> Open(o.journal.records[k], request))
      && o.journal.records[k].intent == j.records[k].intent
      && (Open(j.records[k], request) && j.records[k].intent.operationId in o.result.value.replayable ==>
            o.journal.records[k] == j.records[k] && MayRepeat(j.records[k], request, authority))
  {
    hide RetireClosed, ExpireDue, Expiring, Inv, Open, MayRepeat, Delivers, StoredOnce;
    var j1 := RetireClosed(j, config, request, authority, 0, 0).journal;
    OpenAfterRetirement(j, config, request, authority, k);
    RetireClosedDelivers(j, config, request, authority, 0, 0);
    OpenAfterExpiry(j1, config, request, authority, k);
    var due := Expiring(j1, request);
    ExpiringStoredOnce(j1, config, request);
    assert due[0..] == due;
    ExpireDueDelivers(j1, config, request, authority, due, 0, Expiry({}, false));
    var o := ExpireDue(j1, config, request, authority, due, 0, Expiry({}, false));
    SameIntent(j.records[k], j1.records[k]);
    SameIntent(j1.records[k], o.journal.records[k]);
  }

  lemma SameIntent(r: ActionRecord, r': ActionRecord)
    requires Delivers(r, r')
    ensures r'.intent == r.intent
  {}

  /** Where everything open may be repeated the scan for unsettled work finds nothing, and the other way round. */
  lemma OldestMeans(j: Journal, j': Journal, config: Config, request: ClaimRequest, authority: AuthorityCheck, replayable: set<OperationId>)
    requires Inv(j', config) && Indexed(j') && j.records.Keys == j'.records.Keys
    requires forall k :: k in j.records ==>
      && (Open(j.records[k], request) <==> Open(j'.records[k], request)) && j'.records[k].intent == j.records[k].intent
      && (Open(j.records[k], request) && j.records[k].intent.operationId in replayable ==>
            j'.records[k] == j.records[k] && MayRepeat(j.records[k], request, authority))
    ensures match OldestUnsettled(j', request.sessionId, request.actorId, request.runId, replayable, 0)
      case None => OpenRepeat(j, request, authority)
      case Some(a) => exists p :: FirstOpen(j', request, authority, a, p)
  {
    hide Inv, OldestUnsettled, Open, MayRepeat, Unsettled, OrderOk, Keyed, TableOk, RecordsOk;
    OldestUnsettledIsFirst(j', request.sessionId, request.actorId, request.runId, replayable, 0);
    OpenMeans(request, replayable);
    InvParts(j', config);
    match OldestUnsettled(j', request.sessionId, request.actorId, request.runId, replayable, 0)
    case None =>
      forall k | k in j.records && Open(j.records[k], request) ensures MayRepeat(j.records[k], request, authority) {
        Listed(j', k);
        var i :| 0 <= i < |j'.order| && j'.order[i] == k;
      }
    case Some(a) =>
      var p :| 0 <= p < |j'.order| && j'.records[j'.order[p]] == a
               && Unsettled(a, request.sessionId, request.actorId, request.runId, replayable)
               && forall q :: 0 <= q < p ==> !Unsettled(j'.records[j'.order[q]], request.sessionId, request.actorId, request.runId, replayable);
      assert FirstOpen(j', request, authority, a, p);
  }

  /** With nothing excepted the scan finds the first open record, or none is open. */
  lemma OldestOverall(j: Journal, config: Config, request: ClaimRequest, authority: AuthorityCheck)
    requires Inv(j, config) && Indexed(j)
    ensures match OldestUnsettled(j, request.sessionId, request.actorId, request.runId, {}, 0)
      case None => NoneOpen(j, request)
      case Some(a) => exists p :: FirstOpen(j, request, authority, a, p)
  {
    hide Inv, OldestUnsettled, Open, MayRepeat, Unsettled, OrderOk, Keyed, TableOk, RecordsOk;
    OldestUnsettledIsFirst(j, request.sessionId, request.actorId, request.runId, {}, 0);
    OpenMeans(request, {});
    InvParts(j, config);
    match OldestUnsettled(j, request.sessionId, request.actorId, request.runId, {}, 0)
    case None =>
      forall k | k in j.records ensures !Open(j.records[k], request) {
        Listed(j, k);
        var i :| 0 <= i < |j.order| && j.order[i] == k;
      }
    case Some(a) =>
      var p :| 0 <= p < |j.order| && j.records[j.order[p]] == a
               && Unsettled(a, request.sessionId, request.actorId, request.runId, {})
               && forall q :: 0 <= q < p ==> !Unsettled(j.records[j.order[q]], request.sessionId, request.actorId, request.runId, {});
      assert FirstOpen(j, request, authority, a, p);
  }

  /** A claimed record is stored as it was handed out, one attempt behind the one it had. */
  lemma {:induction false} ClaimStored(j: Journal, config: Config, request: ClaimRequest, authority: AuthorityCheck,
                                       replayable: set<OperationId>, i: nat, scanned: nat)
    requires Indexed(j) && i <= |j.order| && Keyed(j)
    ensures var o := ClaimPending(j, config, request, authority, replayable, i, scanned);
      o.result.Ok? && o.result.value.Some? ==>
        var r := o.result.value.value;
        && KeyOf(r) in j.records && KeyOf(r) in o.journal.records && o.journal.records[KeyOf(r)] == r
        && r.attempt == j.records[KeyOf(r)].attempt + 1
    decreases |j.order| - i
  {
    hide ValidRecord, Fits, CanAcquire, Acquire, Release;
    if i < |j.order| {
      assert j.order[i] in j.order;
      KeyedAt(j, j.order[i]);
      ClaimStored(j, config, request, authority, replayable, i + 1, scanned);
      ClaimStored(j, config, request, authority, replayable, i + 1, scanned + 1);
    }
  }

  lemma ClaimOffers(j: Journal, config: Config, request: ClaimRequest, authority: AuthorityCheck, replayable: set<OperationId>)
    requires Inv(j, config) && Indexed(j)
    requires ClaimPending(j, config, request, authority, replayable, 0, 0).result.Ok?
    ensures var o := ClaimPending(j, config, request, authority, replayable, 0, 0);
      match o.result.value
      case None => o.journal == j
      case Some(a) =>
        && KeyOf(a) in o.journal.records && o.journal.records[KeyOf(a)] == a && a.status == Claimed && KeyOf(a) in j.records
        && a.claim == Some(Claim(request.claimToken, request.claimantId, a.attempt, request.claimedAt, request.expiresAt))
        && authority(a.intent.coordinate) == RunOpen
  {
    hide ClaimPending, Inv, OrderOk, Keyed, TableOk, RecordsOk, Claimable, CanAcquire;
    InvParts(j, config);
    if ClaimPending(j, config, request, authority, replayable, 0, 0).result.value.Some? {
      var p := ClaimIsFirstFree(j, config, request, authority, replayable, 0, 0);
      ClaimStored(j, config, request, authority, replayable, 0, 0);
    } else {
      NoClaimKeeps(j, config, request, authority, replayable, 0, 0);
    }
  }

  lemma {:induction false} NoClaimKeeps(j: Journal, config: Config, request: ClaimRequest, authority: AuthorityCheck,
                                        replayable: set<OperationId>, i: nat, scanned: nat)
    requires Indexed(j) && i <= |j.order| && ClaimPending(j, config, request, authority, replayable, i, scanned).result == Ok(None)
    ensures ClaimPending(j, config, request, authority, replayable, i, scanned).journal == j
    decreases |j.order| - i
  {
    hide ValidRecord, Fits, CanAcquire, Acquire, Release, InStream, InRun, ClaimAction, ReclaimAction;
    if i < |j.order| && scanned <= request.candidateLimit {
      var record := j.records[j.order[i]];
      if Claimable(record, request, replayable) {
        if scanned < request.candidateLimit { NoClaimKeeps(j, config, request, authority, replayable, i + 1, scanned + 1); }
      } else {
        NoClaimKeeps(j, config, request, authority, replayable, i + 1, scanned);
      }
    } else if i < |j.order| && !Claimable(j.records[j.order[i]], request, replayable) {
      NoClaimKeeps(j, config, request, authority, replayable, i + 1, scanned);
    }
  }

  lemma NextOffers(j: Journal, config: Config, request: ClaimRequest, authority: AuthorityCheck)
    requires Inv(j, config) && Indexed(j) && Next(j, config, request, authority).result.Ok?
    ensures var o := Next(j, config, request, authority);
      Offers(j, o.journal, o.result.value.delivery, request, authority)
  {
    hide RetireClosed, ExpireDue, Expiring, ClaimPending, OldestUnsettled, Inv, Open, MayRepeat, DeliversAll, StoredOnce, OpenRepeat, NoneOpen, FirstOpen;
    var retire := RetireClosed(j, config, request, authority, 0, 0);
    RetireClosedDelivers(j, config, request, authority, 0, 0);
    var due := Expiring(retire.journal, request);
    ExpiringStoredOnce(retire.journal, config, request);
    assert due[0..] == due;
    ExpireDueDelivers(retire.journal, config, request, authority, due, 0, Expiry({}, false));
    var expire := ExpireDue(retire.journal, config, request, authority, due, 0, Expiry({}, false));
    forall k | k in j.records ensures k in expire.journal.records {
      RepeatableByExpiry(j, config, request, authority, k);
    }
    DeliversAllTransitive(j, retire.journal, expire.journal);
    DeliveredKeys(j, expire.journal);
    var replayable := expire.result.value.replayable;
    forall k | k in j.records ensures
        && (Open(j.records[k], request) <==> Open(expire.journal.records[k], request))
        && expire.journal.records[k].intent == j.records[k].intent
        && (Open(j.records[k], request) && j.records[k].intent.operationId in replayable ==>
            expire.journal.records[k] == j.records[k] && MayRepeat(j.records[k], request, authority))
    {
      RepeatableByExpiry(j, config, request, authority, k);
    }
    OldestMeans(j, expire.journal, config, request, authority, replayable);
    if OldestUnsettled(expire.journal, request.sessionId, request.actorId, request.runId, replayable, 0).None? {
      ClaimOffers(expire.journal, config, request, authority, replayable);
      OldestOverall(expire.journal, config, request, authority);
    }
  }

  lemma DeliveredKeys(j: Journal, j': Journal)
    requires DeliversAll(j, j')
    ensures j'.records.Keys == j.records.Keys
  {}
}
