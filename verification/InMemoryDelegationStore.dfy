/** The in-memory delegation store: a class whose methods update its maps. Each method is proved to do to its fields
    what the operation of module DelegationStore does to the store value. */
module InMemoryDelegationStore {
  import opened Wrappers
  import opened StableSort
  import opened DelegationStore
  import opened DelegationLeases
  import opened DelegationOutcomes

  class InMemoryDelegationStore {
    const limits: Limits
    var records: map<RecordKey, DelegationRecord>
    var order: seq<RecordKey>
    var fingerprints: map<RecordKey, Draft>
    var leases: map<nat, Lease>
    var settledTokens: map<nat, Id>
    var nextKey: nat

    function State(): Store
      reads this
    {
      Store(records, order, fingerprints, leases, settledTokens, nextKey)
    }

    /** What every run of operations keeps. */
    ghost predicate Valid()
      reads this
    {
      Inv(State(), limits)
    }

    constructor (limits: Limits)
      ensures this.limits == limits && State() == Empty && Valid()
    {
      this.limits := limits;
      records, order, fingerprints, leases, settledTokens, nextKey := map[], [], map[], map[], map[], 1;
      new;
      EmptyInv(limits);
    }

    /** The number of a partition's records that are not terminal. */
    method ActiveCount(part: Partition) returns (active: nat)
      ensures active == Live(records, order, part)
    {
      active := 0;
      for i := 0 to |order|
        invariant active == Live(records, order[..i], part)
      {
        assert order[..i + 1][..i] == order[..i];
        if order[i] in records && records[order[i]].draft.partition == part && !Terminal(records[order[i]].status) {
          active := active + 1;
        }
      }
      assert order[..|order|] == order;
    }

    method CreateDelegation(draft: Draft, maxPending: nat) returns (r: Result<DelegationRecord, Fault>)
      requires Valid()
      modifies this
      ensures Valid() && Outcome(State(), r) == Create(old(State()), limits, draft, maxPending)
      ensures Creates(old(State()), State(), r, limits, draft, maxPending)
    {
      hide Inv, Evolves, Creates;
      CreateKeepsInv(State(), limits, draft, maxPending);
      CreateMeans(State(), limits, draft, maxPending);
      if maxPending < 1 { return Err(InvalidArgument); }
      if maxPending > limits.maxPendingPerGeneration { return Err(CapacityExceeded); }
      var key := KeyOf(draft);
      if key in records {
        if key !in fingerprints || fingerprints[key] != draft { return Err(Conflict); }
        return Ok(records[key]);
      }
      var active := ActiveCount(draft.partition);
      if active >= maxPending { return Err(CapacityExceeded); }
      var record := DelegationRecord(draft, nextKey, Pending, 1, 0, None, None, None, None, None, draft.createdAt);
      nextKey := nextKey + 1;
      records := records[key := record];
      order := order + [key];
      fingerprints := fingerprints[key := draft];
      r := Ok(record);
    }

    /** A claim takes over only work whose lease ran out, under the new token, one attempt further; it changes no other
        record, and nothing when it fails. */
    method ClaimDelegation(key: RecordKey, ownerId: Id, now: Timestamp, expires: Timestamp, newToken: Id)
      returns (r: Result<Delivery, Fault>)
      requires Valid()
      modifies this
      ensures Valid() && Outcome(State(), r) == Claim(old(State()), key, ownerId, now, expires, newToken)
      ensures r.Ok? ==>
                var record := r.value.record;
                && key in old(records) && record.attempt == old(records)[key].attempt + 1 && record.status == Running
                && !Terminal(old(records)[key].status)
                && (record.delegationKey in old(leases) ==> old(leases)[record.delegationKey].expiresAt <= now)
                && Leased(State(), record.delegationKey, newToken, now) && records == old(records)[key := record]
      ensures r.Err? ==> State() == old(State())
      ensures Claims(old(State()), State(), r, key, ownerId, now, expires, newToken)
    {
      hide Inv, Claims;
      ClaimFences(State(), limits, key, ownerId, now, expires, newToken);
      ClaimMeans(State(), limits, key, ownerId, now, expires, newToken);
      if key !in records { return Err(NotFound); }
      var record := records[key];
      if expires <= now || Terminal(record.status) || now < record.updatedAt { return Err(NoLease); }
      if record.delegationKey in leases && leases[record.delegationKey].expiresAt > now { return Err(NoLease); }
      var updated := record.(status := Running, revision := record.revision + 1, attempt := record.attempt + 1,
                             startedAt := if record.startedAt.None? then Some(now) else record.startedAt, updatedAt := now);
      Set(updated);
      leases := leases[record.delegationKey := Lease(newToken, ownerId, expires)];
      r := Ok(Delivery(updated, Lease(newToken, ownerId, expires)));
    }

    method Set(record: DelegationRecord)
      modifies this`records
      ensures records == old(records)[KeyOf(record.draft) := record]
    {
      records := records[KeyOf(record.draft) := record];
    }

    /** requiredSequence: the scan over the partition's records. */
    method FindRecord(part: Partition, delegationKey: nat) returns (r: Option<DelegationRecord>)
      ensures r == Required(State(), part, delegationKey)
    {
      var i := 0;
      while i < |order|
        invariant 0 <= i <= |order|
        invariant Find(State(), part, delegationKey, 0) == Find(State(), part, delegationKey, i)
      {
        if order[i] in records && records[order[i]].draft.partition == part && records[order[i]].delegationKey == delegationKey {
          return Some(records[order[i]]);
        }
        i := i + 1;
      }
      r := None;
    }

    /** Only the token that holds an unexpired lease renews it, and never shortens it. */
    method RenewLease(part: Partition, delegationKey: nat, token: Id, now: Timestamp, expiresAt: Timestamp)
      returns (r: Result<Delivery, Fault>)
      requires Valid()
      modifies this
      ensures Valid() && Outcome(State(), r) == Renew(old(State()), part, delegationKey, token, now, expiresAt)
      ensures r.Ok? ==> Leased(old(State()), delegationKey, token, now) && Leased(State(), delegationKey, token, now)
                        && leases[delegationKey].expiresAt == expiresAt >= old(leases[delegationKey].expiresAt)
      ensures r.Err? ==> State() == old(State())
      ensures forall key :: Named(old(State()), part, delegationKey, key) ==> RenewsFor(old(State()), State(), r, key, token, now, expiresAt)
      ensures (forall key :: !Named(old(State()), part, delegationKey, key)) ==> r == Err(NotFound) && State() == old(State())
    {
      hide Inv, Required, RenewsFor;
      RenewMeans(State(), limits, part, delegationKey, token, now, expiresAt);
      RenewFences(State(), limits, part, delegationKey, token, now, expiresAt);
      var found := FindRecord(part, delegationKey);
      if found.None? { return Err(NotFound); }
      var record := found.value;
      if !HoldsLease(State(), record, token, now) { return Err(NoLease); }
      var lease := leases[delegationKey];
      if expiresAt < lease.expiresAt || expiresAt <= now { return Err(NoLease); }
      if expiresAt != lease.expiresAt {
        var updated := record.(updatedAt := now, revision := record.revision + 1);
        Set(updated);
        leases := leases[delegationKey := lease.(expiresAt := expiresAt)];
        return Ok(Delivery(updated, lease.(expiresAt := expiresAt)));
      }
      r := Ok(Delivery(record, lease));
    }

    /** Only the token that holds an unexpired lease binds the child run, and only once: a bound run stays. */
    method BindChildRun(part: Partition, delegationKey: nat, token: Id, runId: Id, now: Timestamp)
      returns (r: Result<DelegationRecord, Fault>)
      requires Valid()
      modifies this
      ensures Valid() && Outcome(State(), r) == BindRun(old(State()), part, delegationKey, token, runId, now)
      ensures r.Ok? ==> Leased(old(State()), delegationKey, token, now) && Leased(State(), delegationKey, token, now) && r.value.childRunId == Some(runId)
      ensures forall key :: key in old(records) && old(records)[key].childRunId.Some? ==>
                key in records && records[key].childRunId == old(records)[key].childRunId
      ensures r.Err? ==> State() == old(State())
      ensures forall key :: Named(old(State()), part, delegationKey, key) ==> BindsFor(old(State()), State(), r, key, token, runId, now)
      ensures (forall key :: !Named(old(State()), part, delegationKey, key)) ==> r == Err(NotFound) && State() == old(State())
    {
      hide Inv, Required, BindsFor;
      BindMeans(State(), limits, part, delegationKey, token, runId, now);
      BindFences(State(), limits, part, delegationKey, token, runId, now);
      var found := FindRecord(part, delegationKey);
      if found.None? { return Err(NotFound); }
      var record := found.value;
      if !HoldsLease(State(), record, token, now) { return Err(NoLease); }
      if record.childRunId.Some? {
        if record.childRunId != Some(runId) { return Err(RunConflict); }
        return Ok(record);
      }
      var updated := record.(childRunId := Some(runId), updatedAt := now, revision := record.revision + 1);
      Set(updated);
      r := Ok(updated);
    }

    method SettleRecord(record: DelegationRecord, ending: Ending, now: Timestamp) returns (updated: DelegationRecord)
      modifies this
      ensures State() == SettleWith(old(State()), record, ending, now) && updated == Ended(record, ending, now)
    {
      leases := leases - {record.delegationKey};
      updated := Ended(record, ending, now);
      Set(updated);
    }

    /** complete: the token that holds an unexpired lease ends the work, or repeats its own ending; then no lease is
        left. */
    method Complete(part: Partition, delegationKey: nat, token: Id, result: string, now: Timestamp)
      returns (r: Result<DelegationRecord, Fault>)
      requires Valid()
      modifies this
      ensures Valid() && Outcome(State(), r) == Settle(old(State()), part, delegationKey, token, EndCompleted(result), now)
      ensures r.Ok? ==>
                && r.value.status == Completed && r.value.result == Some(result)
                && delegationKey !in leases && delegationKey in settledTokens && settledTokens[delegationKey] == token
                && (Leased(old(State()), delegationKey, token, now) || State() == old(State()))
      ensures r.Err? ==> State() == old(State())
      ensures forall key :: Named(old(State()), part, delegationKey, key) ==> SettlesFor(old(State()), State(), r, key, token, EndCompleted(result), now)
      ensures (forall key :: !Named(old(State()), part, delegationKey, key)) ==> r == Err(NotFound) && State() == old(State())
    {
      hide Inv, Required, SettlesFor;
      SettleMeans(State(), limits, part, delegationKey, token, EndCompleted(result), now);
      SettleFences(State(), limits, part, delegationKey, token, EndCompleted(result), now);
      var found := FindRecord(part, delegationKey);
      if found.None? { return Err(NotFound); }
      var record := found.value;
      if record.status == Completed {
        if delegationKey !in settledTokens || settledTokens[delegationKey] != token || record.result != Some(result) {
          return Err(NoLease);
        }
        return Ok(record);
      }
      if !HoldsLease(State(), record, token, now) { return Err(NoLease); }
      var updated := SettleRecord(record, EndCompleted(result), now);
      settledTokens := settledTokens[delegationKey := token];
      r := Ok(updated);
    }

    /** fail: the same with a failure code. */
    method Fail(part: Partition, delegationKey: nat, token: Id, code: Id, now: Timestamp)
      returns (r: Result<DelegationRecord, Fault>)
      requires Valid()
      modifies this
      ensures Valid() && Outcome(State(), r) == Settle(old(State()), part, delegationKey, token, EndFailed(code), now)
      ensures r.Ok? ==>
                && r.value.status == Failed && r.value.failureCode == Some(code)
                && delegationKey !in leases && delegationKey in settledTokens && settledTokens[delegationKey] == token
                && (Leased(old(State()), delegationKey, token, now) || State() == old(State()))
      ensures r.Err? ==> State() == old(State())
      ensures forall key :: Named(old(State()), part, delegationKey, key) ==> SettlesFor(old(State()), State(), r, key, token, EndFailed(code), now)
      ensures (forall key :: !Named(old(State()), part, delegationKey, key)) ==> r == Err(NotFound) && State() == old(State())
    {
      hide Inv, Required, SettlesFor;
      SettleMeans(State(), limits, part, delegationKey, token, EndFailed(code), now);
      SettleFences(State(), limits, part, delegationKey, token, EndFailed(code), now);
      var found := FindRecord(part, delegationKey);
      if found.None? { return Err(NotFound); }
      var record := found.value;
      if record.status == Failed {
        if delegationKey !in settledTokens || settledTokens[delegationKey] != token || record.failureCode != Some(code) {
          return Err(NoLease);
        }
        return Ok(record);
      }
      if !HoldsLease(State(), record, token, now) { return Err(NoLease); }
      var updated := SettleRecord(record, EndFailed(code), now);
      settledTokens := settledTokens[delegationKey := token];
      r := Ok(updated);
    }

    /** Only the token that holds an unexpired lease gives the work back, and then no lease is left. */
    method AbandonLease(part: Partition, delegationKey: nat, token: Id, now: Timestamp)
      returns (r: Result<DelegationRecord, Fault>)
      requires Valid()
      modifies this
      ensures Valid() && Outcome(State(), r) == Abandon(old(State()), part, delegationKey, token, now)
      ensures r.Ok? ==> Leased(old(State()), delegationKey, token, now) && delegationKey !in leases && r.value.status == Pending
      ensures r.Err? ==> State() == old(State())
      ensures forall key :: Named(old(State()), part, delegationKey, key) ==> AbandonsFor(old(State()), State(), r, key, token, now)
      ensures (forall key :: !Named(old(State()), part, delegationKey, key)) ==> r == Err(NotFound) && State() == old(State())
    {
      hide Inv, Required, AbandonsFor;
      AbandonMeans(State(), limits, part, delegationKey, token, now);
      AbandonFences(State(), limits, part, delegationKey, token, now);
      var found := FindRecord(part, delegationKey);
      if found.None? { return Err(NotFound); }
      var record := found.value;
      if !HoldsLease(State(), record, token, now) { return Err(NoLease); }
      leases := leases - {record.delegationKey};
      var updated := record.(status := Pending, updatedAt := now, revision := record.revision + 1);
      Set(updated);
      r := Ok(updated);
    }

    /** Cancelling ends work that had not ended, whoever holds its lease, and leaves no lease; a later settlement with
        that lease's token finds none. */
    method CancelDelegation(key: RecordKey, expectedRevision: nat, now: Timestamp) returns (r: Result<DelegationRecord, Fault>)
      requires Valid()
      modifies this
      ensures Valid() && Outcome(State(), r) == Cancel(old(State()), key, expectedRevision, now)
      ensures r.Ok? ==>
                && key in old(records) && !Terminal(old(records)[key].status) && r.value.status == Cancelled
                && r.value.delegationKey !in leases && r.value.delegationKey !in settledTokens
                && records == old(records)[key := r.value]
      ensures r.Err? ==> State() == old(State())
      ensures Cancels(old(State()), State(), r, key, expectedRevision, now)
    {
      hide Inv, Cancels;
      CancelFences(State(), limits, key, expectedRevision, now);
      CancelMeans(State(), limits, key, expectedRevision, now);
      if key !in records { return Err(NotFound); }
      var record := records[key];
      if record.revision != expectedRevision { return Err(Conflict); }
      if Terminal(record.status) { return Err(AlreadyTerminal); }
      if now < record.updatedAt { return Err(NoLease); }
      leases := leases - {record.delegationKey};
      var updated := SettleRecord(record, EndCancelled, now);
      assert old(leases) - {record.delegationKey} - {record.delegationKey} == old(leases) - {record.delegationKey};
      r := Ok(updated);
    }

    /** The terminal records of a partition that were last updated before the instant. */
    method TerminalBefore(part: Partition, before: Timestamp) returns (candidates: seq<DelegationRecord>)
      ensures candidates == Purgeable(State(), part, before, |order|)
    {
      candidates := [];
      for i := 0 to |order|
        invariant candidates == Purgeable(State(), part, before, i)
      {
        if order[i] in records && records[order[i]].draft.partition == part
           && Terminal(records[order[i]].status) && records[order[i]].updatedAt < before {
          candidates := candidates + [records[order[i]]];
        }
      }
    }

    method RemoveRecord(record: DelegationRecord)
      modifies this
      ensures State() == Remove(old(State()), record)
    {
      var key := KeyOf(record.draft);
      records := records - {key};
      order := Without(order, key);
      fingerprints := fingerprints - {key};
      leases := leases - {record.delegationKey};
      settledTokens := settledTokens - {record.delegationKey};
    }

    method PurgeTerminal(part: Partition, before: Timestamp, limit: nat) returns (r: Result<seq<nat>, Fault>)
      requires Valid()
      modifies this
      ensures Valid() && Outcome(State(), r) == Purge(old(State()), limits, part, before, limit)
      ensures Purges(old(State()), State(), r, limits, part, before, limit)
    {
      hide Purgeable, Remove, Sort, Take, State, Inv, Evolves, RecordOk, Purges;
      PurgeKeepsInv(State(), limits, part, before, limit);
      PurgeMeans(State(), limits, part, before, limit);
      if limit < 1 { return Err(InvalidArgument); }
      if limit > limits.maxPurgeBatchSize { return Err(CapacityExceeded); }
      var candidates := TerminalBefore(part, before);
      var selected := Take(Sort(candidates, AgeRank), limit);
      OrderIs();
      for i := 0 to |selected|
        invariant State() == RemoveAll(old(State()), selected[..i])
      {
        assert selected[..i + 1][..i] == selected[..i];
        RemoveRecord(selected[i]);
      }
      assert selected[..|selected|] == selected;
      r := Ok(KeysOf(selected));
    }

    lemma OrderIs()
      ensures State().order == order
    {}
  }
}
