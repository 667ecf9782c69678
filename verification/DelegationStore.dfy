/** Delegated runs: the store's state as a value, and what each operation returns and leaves. */
module DelegationStore {
  import opened Wrappers
  import opened StableSort

  type Id = string
  type Timestamp = int

  datatype Partition = Partition(ownerId: Id, timelineId: Id, generation: nat)

  /** A draft stands for its own fingerprint: equal fingerprints mean equal normalized drafts. */
  datatype Draft = Draft(partition: Partition, delegationId: Id, assignment: string, createdAt: Timestamp)

  datatype Status = Pending | Running | Completed | Failed | Cancelled

  datatype DelegationRecord = DelegationRecord(
    draft: Draft, delegationKey: nat, status: Status, revision: nat, attempt: nat,
    childRunId: Option<Id>, result: Option<string>, failureCode: Option<Id>,
    startedAt: Option<Timestamp>, settledAt: Option<Timestamp>, updatedAt: Timestamp)

  datatype Lease = Lease(token: Id, ownerId: Id, expiresAt: Timestamp)

  datatype RecordKey = RecordKey(partition: Partition, delegationId: Id)

  /** records with their insertion order, as the store's map iterates. */
  datatype Store = Store(
    records: map<RecordKey, DelegationRecord>, order: seq<RecordKey>, fingerprints: map<RecordKey, Draft>,
    leases: map<nat, Lease>, settledTokens: map<nat, Id>, nextKey: nat)

  const Empty := Store(map[], [], map[], map[], map[], 1)

  datatype Limits = Limits(maxPendingPerGeneration: nat, maxPurgeBatchSize: nat)

  datatype Fault = InvalidArgument | CapacityExceeded | Conflict | RunConflict | AlreadyTerminal | NoLease | NotFound

  datatype Delivery = Delivery(record: DelegationRecord, lease: Lease)

  datatype Outcome<T> = Outcome(store: Store, result: Result<T, Fault>)

  predicate Terminal(status: Status) {
    status == Completed || status == Failed || status == Cancelled
  }

  function KeyOf(draft: Draft): RecordKey {
    RecordKey(draft.partition, draft.delegationId)
  }

  predicate InPartition(s: Store, i: nat, part: Partition) {
    i < |s.order| && s.order[i] in s.records && s.records[s.order[i]].draft.partition == part
  }

  /** How many of a partition's records are not terminal. */
  function Live(records: map<RecordKey, DelegationRecord>, order: seq<RecordKey>, part: Partition): (live: nat) {
    if order == [] then 0
    else
      var key := order[|order| - 1];
      Live(records, order[..|order| - 1], part)
      + (if key in records && records[key].draft.partition == part && !Terminal(records[key].status) then 1 else 0)
  }

  function Put(s: Store, r: DelegationRecord): Store {
    s.(records := s.records[KeyOf(r.draft) := r])
  }

  /** The position, from i on, of the partition's record with this delegation key. */
  function Find(s: Store, part: Partition, delegationKey: nat, i: nat): (p: nat)
    requires i <= |s.order|
    ensures i <= p <= |s.order|
    ensures p < |s.order| ==> InPartition(s, p, part) && s.records[s.order[p]].delegationKey == delegationKey
    decreases |s.order| - i
  {
    if i == |s.order| || (InPartition(s, i, part) && s.records[s.order[i]].delegationKey == delegationKey) then i
    else Find(s, part, delegationKey, i + 1)
  }

  function Required(s: Store, part: Partition, delegationKey: nat): (r: Option<DelegationRecord>)
    ensures r.Some? ==> r.value in s.records.Values && r.value.delegationKey == delegationKey && r.value.draft.partition == part
  {
    var p := Find(s, part, delegationKey, 0);
    if p == |s.order| then None else Some(s.records[s.order[p]])
  }

  predicate HoldsLease(s: Store, r: DelegationRecord, token: Id, now: Timestamp) {
    && r.status == Running && r.delegationKey in s.leases && s.leases[r.delegationKey].token == token
    && now >= r.updatedAt && s.leases[r.delegationKey].expiresAt > now
  }

  // ---------------------------------------------------------------- operations

  function Create(s: Store, limits: Limits, draft: Draft, maxPending: nat): Outcome<DelegationRecord> {
    var key := KeyOf(draft);
    if maxPending < 1 then Outcome(s, Err(InvalidArgument))
    else if maxPending > limits.maxPendingPerGeneration then Outcome(s, Err(CapacityExceeded))
    else if key in s.records then
      if key !in s.fingerprints || s.fingerprints[key] != draft then Outcome(s, Err(Conflict)) else Outcome(s, Ok(s.records[key]))
    else if Live(s.records, s.order, draft.partition) >= maxPending then Outcome(s, Err(CapacityExceeded))
    else
      var r := DelegationRecord(draft, s.nextKey, Pending, 1, 0, None, None, None, None, None, draft.createdAt);
      Outcome(Put(s, r).(order := s.order + [key], fingerprints := s.fingerprints[key := draft], nextKey := s.nextKey + 1), Ok(r))
  }

  function Claim(s: Store, key: RecordKey, ownerId: Id, now: Timestamp, expires: Timestamp, token: Id): Outcome<Delivery> {
    if key !in s.records then Outcome(s, Err(NotFound))
    else
      var r := s.records[key];
      if expires <= now || Terminal(r.status) || now < r.updatedAt then Outcome(s, Err(NoLease))
      else if r.delegationKey in s.leases && s.leases[r.delegationKey].expiresAt > now then Outcome(s, Err(NoLease))
      else
        var updated := r.(status := Running, revision := r.revision + 1, attempt := r.attempt + 1,
                          startedAt := if r.startedAt.None? then Some(now) else r.startedAt, updatedAt := now);
        var lease := Lease(token, ownerId, expires);
        Outcome(Put(s, updated).(leases := s.leases[r.delegationKey := lease]), Ok(Delivery(updated, lease)))
  }

  function Renew(s: Store, part: Partition, delegationKey: nat, token: Id, now: Timestamp, expiresAt: Timestamp): Outcome<Delivery> {
    match Required(s, part, delegationKey)
    case None => Outcome(s, Err(NotFound))
    case Some(r) =>
      if !HoldsLease(s, r, token, now) then Outcome(s, Err(NoLease))
      else
        var lease := s.leases[delegationKey];
        if expiresAt < lease.expiresAt || expiresAt <= now then Outcome(s, Err(NoLease))
        else if expiresAt == lease.expiresAt then Outcome(s, Ok(Delivery(r, lease)))
        else
          var updated := r.(updatedAt := now, revision := r.revision + 1);
          var extended := lease.(expiresAt := expiresAt);
          Outcome(Put(s, updated).(leases := s.leases[delegationKey := extended]), Ok(Delivery(updated, extended)))
  }

  function BindRun(s: Store, part: Partition, delegationKey: nat, token: Id, runId: Id, now: Timestamp): Outcome<DelegationRecord> {
    match Required(s, part, delegationKey)
    case None => Outcome(s, Err(NotFound))
    case Some(r) =>
      if !HoldsLease(s, r, token, now) then Outcome(s, Err(NoLease))
      else if r.childRunId.Some? then
        if r.childRunId != Some(runId) then Outcome(s, Err(RunConflict)) else Outcome(s, Ok(r))
      else
        var updated := r.(childRunId := Some(runId), updatedAt := now, revision := r.revision + 1);
        Outcome(Put(s, updated), Ok(updated))
  }

  /** How a delegation ends: completed with a result or failed with a code by the lease's holder, or cancelled. */
  datatype Ending = EndCompleted(result: string) | EndFailed(code: Id) | EndCancelled

  function Ended(r: DelegationRecord, ending: Ending, now: Timestamp): DelegationRecord {
    var settled := r.(settledAt := Some(now), updatedAt := now, revision := r.revision + 1);
    match ending
    case EndCompleted(result) => settled.(status := Completed, result := Some(result))
    case EndFailed(code) => settled.(status := Failed, failureCode := Some(code))
    case EndCancelled => settled.(status := Cancelled)
  }

  function SettleWith(s: Store, r: DelegationRecord, ending: Ending, now: Timestamp): Store {
    Put(s, Ended(r, ending, now)).(leases := s.leases - {r.delegationKey})
  }

  /** complete and fail: settling again with the same token and content returns the settled record. */
  function Settle(s: Store, part: Partition, delegationKey: nat, token: Id, ending: Ending, now: Timestamp): Outcome<DelegationRecord>
    requires !ending.EndCancelled?
  {
    match Required(s, part, delegationKey)
    case None => Outcome(s, Err(NotFound))
    case Some(r) =>
      if (ending.EndCompleted? && r.status == Completed) || (ending.EndFailed? && r.status == Failed) then
        if delegationKey in s.settledTokens && s.settledTokens[delegationKey] == token
           && (if ending.EndCompleted? then r.result == Some(ending.result) else r.failureCode == Some(ending.code))
        then Outcome(s, Ok(r)) else Outcome(s, Err(NoLease))
      else if !HoldsLease(s, r, token, now) then Outcome(s, Err(NoLease))
      else
        Outcome(SettleWith(s, r, ending, now).(settledTokens := s.settledTokens[delegationKey := token]), Ok(Ended(r, ending, now)))
  }

  function Abandon(s: Store, part: Partition, delegationKey: nat, token: Id, now: Timestamp): Outcome<DelegationRecord> {
    match Required(s, part, delegationKey)
    case None => Outcome(s, Err(NotFound))
    case Some(r) =>
      if !HoldsLease(s, r, token, now) then Outcome(s, Err(NoLease))
      else
        var updated := r.(status := Pending, updatedAt := now, revision := r.revision + 1);
        Outcome(Put(s, updated).(leases := s.leases - {delegationKey}), Ok(updated))
  }

  function Cancel(s: Store, key: RecordKey, expectedRevision: nat, now: Timestamp): Outcome<DelegationRecord> {
    if key !in s.records then Outcome(s, Err(NotFound))
    else
      var r := s.records[key];
      if r.revision != expectedRevision then Outcome(s, Err(Conflict))
      else if Terminal(r.status) then Outcome(s, Err(AlreadyTerminal))
      else if now < r.updatedAt then Outcome(s, Err(NoLease))
      else Outcome(SettleWith(s, r, EndCancelled, now), Ok(Ended(r, EndCancelled, now)))
  }

  // ---------------------------------------------------------------- purging

  /** The partition's terminal records of the first n that were last updated before the instant. */
  function Purgeable(s: Store, part: Partition, before: Timestamp, n: nat): seq<DelegationRecord>
    requires n <= |s.order|
  {
    if n == 0 then []
    else Purgeable(s, part, before, n - 1)
         + (if InPartition(s, n - 1, part) && Terminal(s.records[s.order[n - 1]].status) && s.records[s.order[n - 1]].updatedAt < before
            then [s.records[s.order[n - 1]]] else [])
  }

  function AgeRank(r: DelegationRecord): Rank {
    (r.updatedAt, r.delegationKey)
  }

  function Selected(s: Store, part: Partition, before: Timestamp, limit: nat): seq<DelegationRecord> {
    Take(Sort(Purgeable(s, part, before, |s.order|), AgeRank), limit)
  }

  function Without(order: seq<RecordKey>, key: RecordKey): seq<RecordKey> {
    if order == [] then []
    else Without(order[..|order| - 1], key) + (if order[|order| - 1] == key then [] else [order[|order| - 1]])
  }

  function Remove(s: Store, r: DelegationRecord): Store {
    var key := KeyOf(r.draft);
    Store(s.records - {key}, Without(s.order, key), s.fingerprints - {key}, s.leases - {r.delegationKey},
          s.settledTokens - {r.delegationKey}, s.nextKey)
  }

  function RemoveAll(s: Store, purged: seq<DelegationRecord>): Store {
    if purged == [] then s else Remove(RemoveAll(s, purged[..|purged| - 1]), purged[|purged| - 1])
  }

  function KeysOf(purged: seq<DelegationRecord>): seq<nat> {
    seq(|purged|, i requires 0 <= i < |purged| => purged[i].delegationKey)
  }

  function Purge(s: Store, limits: Limits, part: Partition, before: Timestamp, limit: nat): Outcome<seq<nat>> {
    if limit < 1 then Outcome(s, Err(InvalidArgument))
    else if limit > limits.maxPurgeBatchSize then Outcome(s, Err(CapacityExceeded))
    else
      var purged := Selected(s, part, before, limit);
      Outcome(RemoveAll(s, purged), Ok(KeysOf(purged)))
  }
}
