/** What each operation on a delegation leaves, field by field, and exactly when it succeeds. */
module DelegationOutcomes {
  import opened Wrappers
  import opened StableSort
  import opened DelegationStore
  import opened DelegationLeases

  /** Only the record under the key changes, and perhaps leases and tokens. */
  ghost predicate OnlyRecord(s: Store, s': Store, key: RecordKey, t: DelegationRecord) {
    s'.records == s.records[key := t] && s'.order == s.order && s'.fingerprints == s.fingerprints && s'.nextKey == s.nextKey
  }

  /** The stored record of this partition with this delegation key. */
  ghost predicate Named(s: Store, part: Partition, d: nat, key: RecordKey) {
    key in s.records && key.partition == part && s.records[key].delegationKey == d
  }

  /** The token's lease has not run out, and the clock is not behind the record. */
  ghost predicate MayAct(s: Store, r: DelegationRecord, token: Id, now: Timestamp) {
    && r.status == Running && r.delegationKey in s.leases && token == s.leases[r.delegationKey].token
    && now < s.leases[r.delegationKey].expiresAt && r.updatedAt <= now
  }

  predicate Open(r: DelegationRecord) {
    r.status == Pending || r.status == Running
  }

  /** The next version of a record: one revision on, at this time, the same work. */
  ghost predicate NextVersion(r: DelegationRecord, t: DelegationRecord, now: Timestamp) {
    t.revision == r.revision + 1 && t.updatedAt == now && t.draft == r.draft && t.delegationKey == r.delegationKey
  }

  lemma NamedIsRequired(s: Store, limits: Limits, part: Partition, d: nat)
    requires Inv(s, limits)
    ensures forall key :: Named(s, part, d, key) ==> Required(s, part, d) == Some(s.records[key]) && KeyOf(s.records[key].draft) == key
    ensures Required(s, part, d).Some? ==> Named(s, part, d, KeyOf(Required(s, part, d).value.draft))
  {
    hide Inv, Required, RecordOk;
    forall key | Named(s, part, d, key) ensures Required(s, part, d) == Some(s.records[key]) && KeyOf(s.records[key].draft) == key {
      RequiredExact(s, limits, part, d, key);
      KeyHere(s, limits, key);
    }
    if Required(s, part, d).Some? { RequiredHere(s, limits, part, d); }
  }

  // ---------------------------------------------------------------- claim

  ghost predicate Claims(s: Store, s': Store, result: Result<Delivery, Fault>, key: RecordKey, ownerId: Id, now: Timestamp,
                         expires: Timestamp, token: Id) {
    && (result.Err? ==> s' == s && result.error == if key in s.records then NoLease else NotFound)
    && (result.Ok? <==>
          && key in s.records && Open(s.records[key]) && s.records[key].updatedAt <= now && now < expires
          && (s.records[key].delegationKey in s.leases ==> s.leases[s.records[key].delegationKey].expiresAt <= now))
    && (result.Ok? ==>
          var r, t := s.records[key], result.value.record;
          && OnlyRecord(s, s', key, t) && NextVersion(r, t, now)
          && t.status == Running && t.attempt == r.attempt + 1
          && (if r.attempt == 0 then t.startedAt == Some(now) else t.startedAt == r.startedAt)
          && t.childRunId == r.childRunId && t.result.None? && t.failureCode.None? && t.settledAt.None?
          && result.value.lease == Lease(token, ownerId, expires)
          && s'.leases == s.leases[r.delegationKey := Lease(token, ownerId, expires)] && s'.settledTokens == s.settledTokens)
  }

  lemma ClaimMeans(s: Store, limits: Limits, key: RecordKey, ownerId: Id, now: Timestamp, expires: Timestamp, token: Id)
    requires Inv(s, limits)
    ensures var o := Claim(s, key, ownerId, now, expires, token); Claims(s, o.store, o.result, key, ownerId, now, expires, token)
  {
    hide OrderOk, TokensOk, CapacityOk;
    if key in s.records { assert RecordOk(s, key, s.records[key]); }
  }

  // ---------------------------------------------------------------- the holder's operations

  ghost predicate RenewsFor(s: Store, s': Store, result: Result<Delivery, Fault>, key: RecordKey, token: Id, now: Timestamp, expiresAt: Timestamp)
    requires key in s.records
  {
    var r := s.records[key];
    && (result.Ok? <==> MayAct(s, r, token, now) && s.leases[r.delegationKey].expiresAt <= expiresAt && now < expiresAt)
    && (result.Err? ==> result.error == NoLease && s' == s)
    && (result.Ok? ==>
          var before, t := s.leases[r.delegationKey], result.value.record;
          var after := Lease(token, before.ownerId, expiresAt);
          && result.value.lease == after && s'.leases == s.leases[r.delegationKey := after] && s'.settledTokens == s.settledTokens
          && OnlyRecord(s, s', key, t)
          && (if expiresAt == before.expiresAt then t == r
              else NextVersion(r, t, now) && t == r.(revision := t.revision, updatedAt := t.updatedAt)))
  }

  ghost predicate BindsFor(s: Store, s': Store, result: Result<DelegationRecord, Fault>, key: RecordKey, token: Id, runId: Id, now: Timestamp)
    requires key in s.records
  {
    var r := s.records[key];
    && (result.Ok? <==> MayAct(s, r, token, now) && (r.childRunId.None? || r.childRunId == Some(runId)))
    && (result.Err? ==> s' == s && result.error == if MayAct(s, r, token, now) then RunConflict else NoLease)
    && (result.Ok? ==>
          var t := result.value;
          && OnlyRecord(s, s', key, t) && s'.leases == s.leases && s'.settledTokens == s.settledTokens && t.childRunId == Some(runId)
          && (if r.childRunId.Some? then t == r
              else NextVersion(r, t, now) && t == r.(childRunId := t.childRunId, revision := t.revision, updatedAt := t.updatedAt)))
  }

  /** The record says how the work ended. */
  predicate EndsAs(t: DelegationRecord, ending: Ending) {
    match ending
    case EndCompleted(result) => t.status == Completed && t.result == Some(result)
    case EndFailed(code) => t.status == Failed && t.failureCode == Some(code)
    case EndCancelled => t.status == Cancelled && t.result.None? && t.failureCode.None?
  }

  ghost predicate SettlesFor(s: Store, s': Store, result: Result<DelegationRecord, Fault>, key: RecordKey, token: Id, ending: Ending, now: Timestamp)
    requires key in s.records
  {
    var r := s.records[key];
    var repeated := EndsAs(r, ending) && r.delegationKey in s.settledTokens && token == s.settledTokens[r.delegationKey];
    && (result.Ok? <==> repeated || MayAct(s, r, token, now))
    && (result.Err? ==> result.error == NoLease && s' == s)
    && (repeated ==> result == Ok(r) && s' == s)
    && (MayAct(s, r, token, now) && result.Ok? ==>
          var t := result.value;
          && OnlyRecord(s, s', key, t) && NextVersion(r, t, now) && EndsAs(t, ending) && t.settledAt == Some(now)
          && (ending.EndCompleted? ==> t.failureCode.None?) && (ending.EndFailed? ==> t.result.None?)
          && t.attempt == r.attempt && t.childRunId == r.childRunId && t.startedAt == r.startedAt
          && s'.leases == s.leases - {r.delegationKey} && s'.settledTokens == s.settledTokens[r.delegationKey := token])
  }

  ghost predicate AbandonsFor(s: Store, s': Store, result: Result<DelegationRecord, Fault>, key: RecordKey, token: Id, now: Timestamp)
    requires key in s.records
  {
    var r := s.records[key];
    && (result.Ok? <==> MayAct(s, r, token, now))
    && (result.Err? ==> result.error == NoLease && s' == s)
    && (result.Ok? ==>
          var t := result.value;
          && OnlyRecord(s, s', key, t) && NextVersion(r, t, now) && t.status == Pending
          && t == r.(status := t.status, revision := t.revision, updatedAt := t.updatedAt)
          && s'.leases == s.leases - {r.delegationKey} && s'.settledTokens == s.settledTokens)
  }

  lemma RenewMeans(s: Store, limits: Limits, part: Partition, d: nat, token: Id, now: Timestamp, expiresAt: Timestamp)
    requires Inv(s, limits)
    ensures var o := Renew(s, part, d, token, now, expiresAt);
      && (forall key :: Named(s, part, d, key) ==> RenewsFor(s, o.store, o.result, key, token, now, expiresAt))
      && ((forall key :: !Named(s, part, d, key)) ==> o.store == s && o.result == Err(NotFound))
  {
    NamedIsRequired(s, limits, part, d);
    hide Inv, Required, RenewsFor, HoldsLease;
    var o := Renew(s, part, d, token, now, expiresAt);
    forall key | Named(s, part, d, key) ensures RenewsFor(s, o.store, o.result, key, token, now, expiresAt) {
      RenewKnown(s, part, key, token, now, expiresAt);
    }
  }

  lemma RenewKnown(s: Store, part: Partition, key: RecordKey, token: Id, now: Timestamp, expiresAt: Timestamp)
    requires key in s.records && KeyOf(s.records[key].draft) == key
    requires Required(s, part, s.records[key].delegationKey) == Some(s.records[key])
    ensures var o := Renew(s, part, s.records[key].delegationKey, token, now, expiresAt);
      RenewsFor(s, o.store, o.result, key, token, now, expiresAt)
  {
    hide Required;
  }

  lemma BindMeans(s: Store, limits: Limits, part: Partition, d: nat, token: Id, runId: Id, now: Timestamp)
    requires Inv(s, limits)
    ensures var o := BindRun(s, part, d, token, runId, now);
      && (forall key :: Named(s, part, d, key) ==> BindsFor(s, o.store, o.result, key, token, runId, now))
      && ((forall key :: !Named(s, part, d, key)) ==> o.store == s && o.result == Err(NotFound))
  {
    NamedIsRequired(s, limits, part, d);
    hide Inv, Required, BindsFor, HoldsLease;
    var o := BindRun(s, part, d, token, runId, now);
    forall key | Named(s, part, d, key) ensures BindsFor(s, o.store, o.result, key, token, runId, now) {
      BindKnown(s, part, key, token, runId, now);
    }
  }

  lemma BindKnown(s: Store, part: Partition, key: RecordKey, token: Id, runId: Id, now: Timestamp)
    requires key in s.records && KeyOf(s.records[key].draft) == key
    requires Required(s, part, s.records[key].delegationKey) == Some(s.records[key])
    ensures var o := BindRun(s, part, s.records[key].delegationKey, token, runId, now);
      BindsFor(s, o.store, o.result, key, token, runId, now)
  {
    hide Required;
  }

  lemma FieldsHere(s: Store, limits: Limits, key: RecordKey)
    requires Inv(s, limits) && key in s.records
    ensures FieldsOk(s.records[key]) && KeyOf(s.records[key].draft) == key
  {
    hide OrderOk, TokensOk, CapacityOk;
    assert RecordOk(s, key, s.records[key]);
  }

  lemma SettleMeans(s: Store, limits: Limits, part: Partition, d: nat, token: Id, ending: Ending, now: Timestamp)
    requires Inv(s, limits) && !ending.EndCancelled?
    ensures var o := Settle(s, part, d, token, ending, now);
      && (forall key :: Named(s, part, d, key) ==> SettlesFor(s, o.store, o.result, key, token, ending, now))
      && ((forall key :: !Named(s, part, d, key)) ==> o.store == s && o.result == Err(NotFound))
  {
    NamedIsRequired(s, limits, part, d);
    hide Inv, Required, SettlesFor, HoldsLease, Ended, SettleWith;
    var o := Settle(s, part, d, token, ending, now);
    forall key | Named(s, part, d, key) ensures SettlesFor(s, o.store, o.result, key, token, ending, now) {
      FieldsHere(s, limits, key);
      SettleKnown(s, part, key, token, ending, now);
    }
  }

  lemma SettleKnown(s: Store, part: Partition, key: RecordKey, token: Id, ending: Ending, now: Timestamp)
    requires key in s.records && FieldsOk(s.records[key]) && KeyOf(s.records[key].draft) == key && !ending.EndCancelled?
    requires Required(s, part, s.records[key].delegationKey) == Some(s.records[key])
    ensures var o := Settle(s, part, s.records[key].delegationKey, token, ending, now);
      SettlesFor(s, o.store, o.result, key, token, ending, now)
  {
    hide Required;
  }

  lemma AbandonMeans(s: Store, limits: Limits, part: Partition, d: nat, token: Id, now: Timestamp)
    requires Inv(s, limits)
    ensures var o := Abandon(s, part, d, token, now);
      && (forall key :: Named(s, part, d, key) ==> AbandonsFor(s, o.store, o.result, key, token, now))
      && ((forall key :: !Named(s, part, d, key)) ==> o.store == s && o.result == Err(NotFound))
  {
    NamedIsRequired(s, limits, part, d);
    hide Inv, Required, AbandonsFor, HoldsLease;
    var o := Abandon(s, part, d, token, now);
    forall key | Named(s, part, d, key) ensures AbandonsFor(s, o.store, o.result, key, token, now) {
      AbandonKnown(s, part, key, token, now);
    }
  }

  lemma AbandonKnown(s: Store, part: Partition, key: RecordKey, token: Id, now: Timestamp)
    requires key in s.records && KeyOf(s.records[key].draft) == key
    requires Required(s, part, s.records[key].delegationKey) == Some(s.records[key])
    ensures var o := Abandon(s, part, s.records[key].delegationKey, token, now); AbandonsFor(s, o.store, o.result, key, token, now)
  {
    hide Required;
  }

  // ---------------------------------------------------------------- cancelling

  ghost predicate Cancels(s: Store, s': Store, result: Result<DelegationRecord, Fault>, key: RecordKey, expectedRevision: nat, now: Timestamp) {
    && (result.Ok? <==> key in s.records && s.records[key].revision == expectedRevision && Open(s.records[key]) && s.records[key].updatedAt <= now)
    && (result.Err? ==>
          && s' == s
          && result.error == (if key !in s.records then NotFound else if s.records[key].revision != expectedRevision then Conflict
                              else if Open(s.records[key]) then NoLease else AlreadyTerminal))
    && (result.Ok? ==>
          var r, t := s.records[key], result.value;
          && OnlyRecord(s, s', key, t) && NextVersion(r, t, now) && EndsAs(t, EndCancelled) && t.settledAt == Some(now)
          && t.attempt == r.attempt && t.childRunId == r.childRunId && t.startedAt == r.startedAt
          && s'.leases == s.leases - {r.delegationKey} && s'.settledTokens == s.settledTokens)
  }

  lemma CancelMeans(s: Store, limits: Limits, key: RecordKey, expectedRevision: nat, now: Timestamp)
    requires Inv(s, limits)
    ensures var o := Cancel(s, key, expectedRevision, now); Cancels(s, o.store, o.result, key, expectedRevision, now)
  {
    hide Inv;
    if key in s.records { FieldsHere(s, limits, key); }
  }

  // ---------------------------------------------------------------- creating

  /** The records of a partition that have not ended. */
  ghost function OpenKeys(s: Store, part: Partition): set<RecordKey> {
    set key | key in s.records && s.records[key].draft.partition == part && Open(s.records[key])
  }

  ghost function FirstOf(keys: set<RecordKey>, order: seq<RecordKey>): set<RecordKey> {
    set k | k in keys && k in order
  }

  lemma {:induction false} LiveCounted(s: Store, order: seq<RecordKey>, part: Partition)
    requires forall i, j :: 0 <= i < j < |order| ==> order[i] != order[j]
    ensures Live(s.records, order, part) == |FirstOf(OpenKeys(s, part), order)|
  {
    hide OpenKeys, FirstOf, Terminal;
    var keys := OpenKeys(s, part);
    if order == [] {
      NoneFirst(keys);
    } else {
      LiveCounted(s, order[..|order| - 1], part);
      OpenHere(s, part, order[|order| - 1]);
      OneMoreFirst(keys, order);
    }
  }

  lemma NoneFirst(keys: set<RecordKey>)
    ensures FirstOf(keys, []) == {}
  {}

  lemma OneMoreFirst(keys: set<RecordKey>, order: seq<RecordKey>)
    requires order != [] && forall i, j :: 0 <= i < j < |order| ==> order[i] != order[j]
    ensures |FirstOf(keys, order)| == |FirstOf(keys, order[..|order| - 1])| + (if order[|order| - 1] in keys then 1 else 0)
  {
    var front, last := order[..|order| - 1], order[|order| - 1];
    assert order == front + [last] && last !in front;
    assert FirstOf(keys, order) == FirstOf(keys, front) + (if last in keys then {last} else {});
  }

  lemma OpenHere(s: Store, part: Partition, key: RecordKey)
    ensures key in OpenKeys(s, part) <==> key in s.records && s.records[key].draft.partition == part && !Terminal(s.records[key].status)
  {}

  ghost predicate Creates(s: Store, s': Store, result: Result<DelegationRecord, Fault>, limits: Limits, draft: Draft, maxPending: nat) {
    var key := RecordKey(draft.partition, draft.delegationId);
    && (result.Err? || key in s.records ==> s' == s)
    && (maxPending == 0 ==> result == Err(InvalidArgument))
    && (maxPending > limits.maxPendingPerGeneration ==> result == Err(CapacityExceeded))
    && (1 <= maxPending <= limits.maxPendingPerGeneration ==>
          if key in s.records then result == if s.records[key].draft == draft then Ok(s.records[key]) else Err(Conflict)
          else if |OpenKeys(s, draft.partition)| >= maxPending then result == Err(CapacityExceeded)
          else
            && result.Ok?
            && result.value.draft == draft && result.value.delegationKey == s.nextKey && result.value.status == Pending
            && result.value.revision == 1 && result.value.attempt == 0 && result.value.updatedAt == draft.createdAt
            && result.value.childRunId.None? && result.value.result.None? && result.value.failureCode.None?
            && result.value.startedAt.None? && result.value.settledAt.None?
            && s'.records == s.records[key := result.value] && s'.order == s.order + [key] && s'.nextKey == s.nextKey + 1
            && s'.leases == s.leases && s'.settledTokens == s.settledTokens)
  }

  lemma CreateMeans(s: Store, limits: Limits, draft: Draft, maxPending: nat)
    requires Inv(s, limits)
    ensures var o := Create(s, limits, draft, maxPending); Creates(s, o.store, o.result, limits, draft, maxPending)
  {
    hide TokensOk, CapacityOk, Live, OpenKeys;
    var key := KeyOf(draft);
    if key in s.records { assert RecordOk(s, key, s.records[key]); }
    OrderDistinct(s);
    LiveCounted(s, s.order, draft.partition);
    AllOpen(s, draft.partition);
  }

  lemma OrderDistinct(s: Store)
    requires OrderOk(s.records, s.order)
    ensures forall i, j :: 0 <= i < j < |s.order| ==> s.order[i] != s.order[j]
  {
    forall i, j | 0 <= i < j < |s.order| ensures s.order[i] != s.order[j] {
      assert s.order[i] in s.order && s.order[j] in s.order;
    }
  }

  lemma AllOpen(s: Store, part: Partition)
    requires OrderOk(s.records, s.order)
    ensures FirstOf(OpenKeys(s, part), s.order) == OpenKeys(s, part)
  {}

  // ---------------------------------------------------------------- purging

  /** Records that a purge of this partition may remove. */
  ghost predicate MayGo(s: Store, key: RecordKey, part: Partition, before: Timestamp) {
    key in s.records && key.partition == part && !Open(s.records[key]) && s.records[key].updatedAt < before
  }

  predicate NotOlder(x: DelegationRecord, c: DelegationRecord) {
    x.updatedAt > c.updatedAt || (x.updatedAt == c.updatedAt && x.delegationKey >= c.delegationKey)
  }

  lemma AgeRanks()
    ensures forall x, c :: !Before(AgeRank(x), AgeRank(c)) <==> NotOlder(x, c)
  {}

  lemma {:induction false} PurgeableExact(s: Store, limits: Limits, part: Partition, before: Timestamp, n: nat)
    requires Inv(s, limits) && n <= |s.order|
    ensures forall r :: r in Purgeable(s, part, before, n)
              <==> exists i :: 0 <= i < n && s.order[i] in s.records && r == s.records[s.order[i]] && MayGo(s, s.order[i], part, before)
  {
    hide Inv, MayGo;
    if n > 0 {
      PurgeableExact(s, limits, part, before, n - 1);
      GoesHere(s, limits, part, before, n - 1);
    }
  }

  lemma GoesHere(s: Store, limits: Limits, part: Partition, before: Timestamp, i: nat)
    requires Inv(s, limits) && i < |s.order|
    ensures s.order[i] in s.records
    ensures MayGo(s, s.order[i], part, before)
            <==> InPartition(s, i, part) && Terminal(s.records[s.order[i]].status) && s.records[s.order[i]].updatedAt < before
  {
    assert s.order[i] in s.order;
    FieldsHere(s, limits, s.order[i]);
  }

  /** A purge removes records that may go, at most limit of them, the least recently updated first, and nothing else. */
  ghost predicate Purges(s: Store, s': Store, result: Result<seq<nat>, Fault>, limits: Limits, part: Partition, before: Timestamp, limit: nat) {
    && (result.Ok? <==> 1 <= limit <= limits.maxPurgeBatchSize)
    && (result.Err? ==> s' == s && result.error == if limit < 1 then InvalidArgument else CapacityExceeded)
    && s'.nextKey == s.nextKey
    && (forall key :: key in s'.records ==> key in s.records && s'.records[key] == s.records[key])
    && (result.Ok? ==>
          && |result.value| <= limit
          && (forall key :: key in s.records ==> (key !in s'.records <==> s.records[key].delegationKey in result.value))
          && (forall key :: key in s.records && key !in s'.records ==> MayGo(s, key, part, before))
          && (forall key, x :: key in s.records && key !in s'.records && x in s'.records && MayGo(s, x, part, before) ==>
                |result.value| == limit && NotOlder(s.records[x], s.records[key])))
  }

  lemma {:induction false} RemovedRecords(s: Store, purged: seq<DelegationRecord>)
    ensures RemoveAll(s, purged).nextKey == s.nextKey
    ensures forall key :: key in RemoveAll(s, purged).records
              <==> key in s.records && forall i :: 0 <= i < |purged| ==> KeyOf(purged[i].draft) != key
    ensures forall key :: key in RemoveAll(s, purged).records ==> RemoveAll(s, purged).records[key] == s.records[key]
  {
    hide KeyOf, Without;
    if purged != [] {
      var front := purged[..|purged| - 1];
      RemovedRecords(s, front);
      assert purged == front + [purged[|purged| - 1]];
    }
  }

  lemma SelectedMeans(s: Store, limits: Limits, part: Partition, before: Timestamp, limit: nat)
    requires Inv(s, limits)
    ensures var selected := Selected(s, part, before, limit);
      && (forall r :: r in selected ==> KeyOf(r.draft) in s.records && MayGo(s, KeyOf(r.draft), part, before) && s.records[KeyOf(r.draft)] == r)
      && (forall x, c :: x in s.records && MayGo(s, x, part, before) && s.records[x] !in selected && c in selected ==>
            |selected| == limit && NotOlder(s.records[x], c))
  {
    hide Inv, MayGo, NotOlder, AgeRank, Before, Sort, Take;
    var all := Purgeable(s, part, before, |s.order|);
    PurgeableExact(s, limits, part, before, |s.order|);
    AgeRanks();
    forall c | c in Selected(s, part, before, limit)
      ensures c in all && KeyOf(c.draft) in s.records && MayGo(s, KeyOf(c.draft), part, before) && s.records[KeyOf(c.draft)] == c
      ensures forall x :: x in all && x !in Selected(s, part, before, limit) ==>
                |Selected(s, part, before, limit)| == limit && !Before(AgeRank(x), AgeRank(c))
    {
      FirstAreLeast(all, AgeRank, limit, c);
      var i :| 0 <= i < |s.order| && s.order[i] in s.records && c == s.records[s.order[i]] && MayGo(s, s.order[i], part, before);
      GoesHere(s, limits, part, before, i);
      FieldsHere(s, limits, s.order[i]);
    }
    forall x | x in s.records && MayGo(s, x, part, before) ensures s.records[x] in all { GoneListed(s, limits, x, part, before); }
  }

  lemma GoneListed(s: Store, limits: Limits, x: RecordKey, part: Partition, before: Timestamp)
    requires Inv(s, limits) && MayGo(s, x, part, before)
    ensures s.records[x] in Purgeable(s, part, before, |s.order|)
  {
    PurgeableExact(s, limits, part, before, |s.order|);
    hide MayGo, RecordsOk, TokensOk, CapacityOk;
    assert x in s.records by { Stored(s, x, part, before); }
    assert x in s.order;
    var i :| 0 <= i < |s.order| && s.order[i] == x;
  }

  lemma Stored(s: Store, x: RecordKey, part: Partition, before: Timestamp)
    requires MayGo(s, x, part, before)
    ensures x in s.records
  {}

  /** What is gone is what was selected. */
  lemma GoneExactly(s: Store, limits: Limits, selected: seq<DelegationRecord>, key: RecordKey)
    requires Inv(s, limits) && key in s.records
    requires forall r :: r in selected ==> KeyOf(r.draft) in s.records && s.records[KeyOf(r.draft)] == r
    ensures key !in RemoveAll(s, selected).records <==> s.records[key] in selected
    ensures key !in RemoveAll(s, selected).records <==> s.records[key].delegationKey in KeysOf(selected)
  {
    hide Inv, RemoveAll;
    RemovedRecords(s, selected);
    SelectedKey(s, limits, selected, key);
  }

  lemma PurgeMeans(s: Store, limits: Limits, part: Partition, before: Timestamp, limit: nat)
    requires Inv(s, limits)
    ensures var o := Purge(s, limits, part, before, limit); Purges(s, o.store, o.result, limits, part, before, limit)
  {
    hide Inv, Selected, MayGo, NotOlder, RemoveAll, KeysOf;
    var selected := Selected(s, part, before, limit);
    SelectedMeans(s, limits, part, before, limit);
    RemovedRecords(s, selected);
    SelectedShort(s, part, before, limit);
    var s' := RemoveAll(s, selected);
    KeysCount(selected);
    forall key | key in s.records
      ensures key !in s'.records <==> s.records[key].delegationKey in KeysOf(selected)
      ensures key !in s'.records <==> s.records[key] in selected
    {
      GoneExactly(s, limits, selected, key);
    }
    forall key | key in s.records && key !in s'.records ensures MayGo(s, key, part, before) { FieldsHere(s, limits, key); }
  }

  lemma KeysCount(selected: seq<DelegationRecord>)
    ensures |KeysOf(selected)| == |selected|
  {}

  lemma SelectedShort(s: Store, part: Partition, before: Timestamp, limit: nat)
    ensures |Selected(s, part, before, limit)| <= limit
  {}

  lemma SelectedKey(s: Store, limits: Limits, selected: seq<DelegationRecord>, key: RecordKey)
    requires Inv(s, limits) && key in s.records
    requires forall r :: r in selected ==> KeyOf(r.draft) in s.records && s.records[KeyOf(r.draft)] == r
    ensures (exists i :: 0 <= i < |selected| && KeyOf(selected[i].draft) == key) <==> s.records[key].delegationKey in KeysOf(selected)
    ensures (exists i :: 0 <= i < |selected| && KeyOf(selected[i].draft) == key) <==> s.records[key] in selected
  {
    FieldsHere(s, limits, key);
    hide RecordsOk, TokensOk, CapacityOk, Ascending;
    var r := s.records[key];
    if i :| 0 <= i < |selected| && KeyOf(selected[i].draft) == key {
      assert selected[i] in selected;
      assert KeysOf(selected)[i] == r.delegationKey;
    }
    if r.delegationKey in KeysOf(selected) {
      var i :| 0 <= i < |selected| && KeysOf(selected)[i] == r.delegationKey;
      assert selected[i] in selected;
      SameDelegation(s, key, KeyOf(selected[i].draft));
    }
    if r in selected { var i :| 0 <= i < |selected| && selected[i] == r; }
  }
}
