/** What every reachable delegation store keeps: leases fence, endings are final and capacity holds. */
module DelegationLeases {
  import opened Wrappers
  import opened StableSort
  import opened DelegationStore

  // ---------------------------------------------------------------- the invariant

  ghost predicate FieldsOk(r: DelegationRecord) {
    && r.revision >= 1 && r.delegationKey >= 1
    && (r.startedAt.Some? <==> r.attempt >= 1) && (r.status == Running ==> r.attempt >= 1)
    && (r.settledAt.Some? <==> Terminal(r.status))
    && (r.result.Some? <==> r.status == Completed) && (r.failureCode.Some? <==> r.status == Failed)
  }

  /** A lease exists exactly for a running record, and a settling token exactly for one that its holder settled. */
  ghost predicate RecordOk(s: Store, key: RecordKey, r: DelegationRecord) {
    && KeyOf(r.draft) == key && key in s.fingerprints && s.fingerprints[key] == r.draft
    && r.delegationKey < s.nextKey && FieldsOk(r)
    && (r.delegationKey in s.leases <==> r.status == Running)
    && (r.delegationKey in s.settledTokens <==> r.status == Completed || r.status == Failed)
  }

  ghost predicate RecordsOk(s: Store) {
    && (forall key :: key in s.records ==> RecordOk(s, key, s.records[key]))
    && s.fingerprints.Keys == s.records.Keys && s.nextKey >= 1
  }

  /** Records are listed once, by ascending delegation key. */
  ghost predicate OrderOk(records: map<RecordKey, DelegationRecord>, order: seq<RecordKey>) {
    && (forall key :: key in order <==> key in records)
    && Ascending(records, order)
  }

  ghost predicate Ascending(records: map<RecordKey, DelegationRecord>, order: seq<RecordKey>) {
    forall i, j :: 0 <= i < j < |order| && order[i] in records && order[j] in records ==>
      records[order[i]].delegationKey < records[order[j]].delegationKey
  }

  ghost predicate HasKey(s: Store, d: nat) {
    exists key :: key in s.records && s.records[key].delegationKey == d
  }

  ghost predicate TokensOk(s: Store) {
    && (forall d :: d in s.leases ==> HasKey(s, d))
    && (forall d :: d in s.settledTokens ==> HasKey(s, d))
  }

  ghost predicate CapacityOk(s: Store, limits: Limits) {
    forall part :: Live(s.records, s.order, part) <= limits.maxPendingPerGeneration
  }

  ghost predicate Inv(s: Store, limits: Limits) {
    RecordsOk(s) && OrderOk(s.records, s.order) && TokensOk(s) && CapacityOk(s, limits)
  }

  // ---------------------------------------------------------------- finding a record

  lemma SameDelegation(s: Store, a: RecordKey, b: RecordKey)
    requires OrderOk(s.records, s.order) && a in s.records && b in s.records
    requires s.records[a].delegationKey == s.records[b].delegationKey
    ensures a == b
  {
    assert a in s.order && b in s.order;
    var i :| 0 <= i < |s.order| && s.order[i] == a;
    var j :| 0 <= j < |s.order| && s.order[j] == b;
  }

  lemma {:induction false} FindMisses(s: Store, part: Partition, d: nat, i: nat, k: nat)
    requires i <= k < |s.order| && InPartition(s, k, part) && s.records[s.order[k]].delegationKey == d
    ensures Find(s, part, d, i) <= k
    decreases |s.order| - i
  {
    if i < k { FindMisses(s, part, d, i + 1, k); }
  }

  /** requiredSequence returns the partition's one record with this delegation key, if there is one. */
  lemma RequiredExact(s: Store, limits: Limits, part: Partition, d: nat, key: RecordKey)
    requires Inv(s, limits) && key in s.records && s.records[key].delegationKey == d
    ensures Required(s, part, d) == if key.partition == part then Some(s.records[key]) else None
  {
    hide CapacityOk, TokensOk, FieldsOk;
    assert RecordOk(s, key, s.records[key]);
    assert key in s.order;
    var k :| 0 <= k < |s.order| && s.order[k] == key;
    var p := Find(s, part, d, 0);
    if key.partition == part { FindMisses(s, part, d, 0, k); }
    if p < |s.order| { SameDelegation(s, s.order[p], key); }
  }

  lemma RequiredHere(s: Store, limits: Limits, part: Partition, d: nat)
    requires Inv(s, limits) && Required(s, part, d).Some?
    ensures var r := Required(s, part, d).value;
      KeyOf(r.draft) in s.records && s.records[KeyOf(r.draft)] == r && RecordOk(s, KeyOf(r.draft), r)
  {
    hide CapacityOk, TokensOk, FieldsOk, OrderOk;
    var p := Find(s, part, d, 0);
    assert RecordOk(s, s.order[p], s.records[s.order[p]]);
  }

  // ---------------------------------------------------------------- replacing one record

  /** How an operation may change a record: what is decided stays decided. */
  ghost predicate Moves(r: DelegationRecord, r': DelegationRecord) {
    && r'.draft == r.draft && r'.delegationKey == r.delegationKey && r'.attempt >= r.attempt
    && (r' == r || r'.revision > r.revision)
    && (r.childRunId.Some? ==> r'.childRunId == r.childRunId) && (r.startedAt.Some? ==> r'.startedAt == r.startedAt)
    && (Terminal(r.status) ==> r' == r)
  }

  lemma {:induction false} LiveFalls(m: map<RecordKey, DelegationRecord>, n: map<RecordKey, DelegationRecord>, order: seq<RecordKey>, part: Partition)
    requires forall key :: key in n ==> key in m && n[key].draft == m[key].draft && (Terminal(m[key].status) ==> Terminal(n[key].status))
    ensures Live(n, order, part) <= Live(m, order, part)
  {
    if order != [] { LiveFalls(m, n, order[..|order| - 1], part); }
  }

  /** Tokens of other delegations do not change with this one. */
  ghost predicate OnlyToken<T>(m: map<nat, T>, n: map<nat, T>, d: nat) {
    forall k :: k != d ==> (k in n <==> k in m) && (k in m ==> n[k] == m[k])
  }

  ghost predicate Replaces(s: Store, s': Store, r: DelegationRecord, r': DelegationRecord) {
    && KeyOf(r.draft) in s.records && s.records[KeyOf(r.draft)] == r && Moves(r, r')
    && s'.records == s.records[KeyOf(r.draft) := r'] && s'.order == s.order && s'.fingerprints == s.fingerprints
    && s'.nextKey == s.nextKey
    && OnlyToken(s.leases, s'.leases, r.delegationKey) && OnlyToken(s.settledTokens, s'.settledTokens, r.delegationKey)
  }

  lemma ReplaceRecord(s: Store, s': Store, limits: Limits, r: DelegationRecord, r': DelegationRecord, key: RecordKey)
    requires Inv(s, limits) && Replaces(s, s', r, r') && RecordOk(s', KeyOf(r.draft), r') && key in s'.records
    ensures RecordOk(s', key, s'.records[key])
  {
    hide CapacityOk, TokensOk, FieldsOk, OrderOk;
    if key != KeyOf(r.draft) {
      assert RecordOk(s, key, s.records[key]);
      OtherDelegation(s, limits, key, KeyOf(r.draft));
    }
  }

  lemma OtherDelegation(s: Store, limits: Limits, a: RecordKey, b: RecordKey)
    requires Inv(s, limits) && a in s.records && b in s.records && a != b
    ensures s.records[a].delegationKey != s.records[b].delegationKey
  {
    hide CapacityOk, TokensOk, RecordsOk, OrderOk;
    if s.records[a].delegationKey == s.records[b].delegationKey { SameDelegation(s, a, b); }
  }

  lemma ReplaceOrder(s: Store, s': Store, r: DelegationRecord, r': DelegationRecord)
    requires OrderOk(s.records, s.order) && Replaces(s, s', r, r')
    ensures OrderOk(s'.records, s'.order)
  {}

  lemma ReplaceRecords(s: Store, s': Store, limits: Limits, r: DelegationRecord, r': DelegationRecord)
    requires Inv(s, limits) && Replaces(s, s', r, r') && RecordOk(s', KeyOf(r.draft), r')
    ensures RecordsOk(s') && OrderOk(s'.records, s'.order)
  {
    ReplaceOrder(s, s', r, r');
    hide CapacityOk, TokensOk, OrderOk, RecordOk, OnlyToken, Moves;
    forall key | key in s'.records ensures RecordOk(s', key, s'.records[key]) { ReplaceRecord(s, s', limits, r, r', key); }
  }

  lemma ReplaceTokens(s: Store, s': Store, limits: Limits, r: DelegationRecord, r': DelegationRecord)
    requires Inv(s, limits) && Replaces(s, s', r, r')
    ensures TokensOk(s')
  {
    hide CapacityOk, RecordsOk, OrderOk;
    forall d | d in s'.leases || d in s'.settledTokens ensures HasKey(s', d) {
      if d == r.delegationKey { assert s'.records[KeyOf(r.draft)].delegationKey == d; }
      else {
        assert HasKey(s, d);
        var key :| key in s.records && s.records[key].delegationKey == d;
        assert s'.records[key].delegationKey == d;
      }
    }
  }

  lemma ReplaceCapacity(s: Store, s': Store, limits: Limits, r: DelegationRecord, r': DelegationRecord)
    requires CapacityOk(s, limits) && Replaces(s, s', r, r')
    ensures CapacityOk(s', limits)
  {
    forall part ensures Live(s'.records, s'.order, part) <= limits.maxPendingPerGeneration {
      LiveFalls(s.records, s'.records, s.order, part);
    }
  }

  lemma ReplaceKeepsInv(s: Store, s': Store, limits: Limits, r: DelegationRecord, r': DelegationRecord)
    requires Inv(s, limits) && Replaces(s, s', r, r') && RecordOk(s', KeyOf(r.draft), r')
    ensures Inv(s', limits)
  {
    hide RecordsOk, OrderOk, TokensOk, CapacityOk, Replaces, RecordOk;
    ReplaceRecords(s, s', limits, r, r');
    ReplaceTokens(s, s', limits, r, r');
    ReplaceCapacity(s, s', limits, r, r');
  }

  // ---------------------------------------------------------------- operations

  datatype Op =
    | OpCreate(draft: Draft, maxPending: nat)
    | OpClaim(key: RecordKey, ownerId: Id, now: Timestamp, expires: Timestamp, token: Id)
    | OpRenew(part: Partition, delegationKey: nat, token: Id, now: Timestamp, expires: Timestamp)
    | OpBindRun(part: Partition, delegationKey: nat, token: Id, runId: Id, now: Timestamp)
    | OpSettle(part: Partition, delegationKey: nat, token: Id, ending: Ending, now: Timestamp)
    | OpAbandon(part: Partition, delegationKey: nat, token: Id, now: Timestamp)
    | OpCancel(key: RecordKey, expectedRevision: nat, now: Timestamp)
    | OpPurge(part: Partition, before: Timestamp, limit: nat)

  function Apply(s: Store, limits: Limits, op: Op): Store {
    match op
    case OpCreate(draft, maxPending) => Create(s, limits, draft, maxPending).store
    case OpClaim(key, ownerId, now, expires, token) => Claim(s, key, ownerId, now, expires, token).store
    case OpRenew(part, d, token, now, expires) => Renew(s, part, d, token, now, expires).store
    case OpBindRun(part, d, token, runId, now) => BindRun(s, part, d, token, runId, now).store
    case OpSettle(part, d, token, ending, now) => if ending.EndCancelled? then s else Settle(s, part, d, token, ending, now).store
    case OpAbandon(part, d, token, now) => Abandon(s, part, d, token, now).store
    case OpCancel(key, revision, now) => Cancel(s, key, revision, now).store
    case OpPurge(part, before, limit) => Purge(s, limits, part, before, limit).store
  }

  /** An operation on one record leaves the store alone or replaces that record. */
  ghost predicate OneRecord(s: Store, s': Store) {
    s' == s || exists r, r' :: Replaces(s, s', r, r') && RecordOk(s', KeyOf(r.draft), r')
  }

  lemma ClaimReplaces(s: Store, limits: Limits, key: RecordKey, ownerId: Id, now: Timestamp, expires: Timestamp, token: Id)
    requires Inv(s, limits)
    ensures OneRecord(s, Claim(s, key, ownerId, now, expires, token).store)
  {
    hide OrderOk, TokensOk, CapacityOk;
    var o := Claim(s, key, ownerId, now, expires, token);
    if o.result.Ok? {
      assert RecordOk(s, key, s.records[key]);
      assert Replaces(s, o.store, s.records[key], o.result.value.record);
    }
  }

  ghost predicate Here(s: Store, r: DelegationRecord) {
    KeyOf(r.draft) in s.records && s.records[KeyOf(r.draft)] == r && RecordOk(s, KeyOf(r.draft), r)
  }

  /** Replacing a record that stays running, with the same lease or a longer one. */
  lemma RunningReplaced(s: Store, s': Store, r: DelegationRecord, r': DelegationRecord)
    requires Here(s, r) && r.status == Running && Moves(r, r')
    requires r' == r.(childRunId := r'.childRunId, updatedAt := r'.updatedAt, revision := r.revision + 1)
    requires s' == Put(s, r').(leases := s'.leases) && OnlyToken(s.leases, s'.leases, r.delegationKey) && r.delegationKey in s'.leases
    ensures OneRecord(s, s')
  {
    assert Replaces(s, s', r, r') && RecordOk(s', KeyOf(r.draft), r');
  }

  /** Replacing a record whose lease ends. */
  lemma StoppedReplaced(s: Store, s': Store, r: DelegationRecord, r': DelegationRecord)
    requires Here(s, r) && !Terminal(r.status) && Moves(r, r') && FieldsOk(r') && r'.status != Running
    requires s' == Put(s, r').(leases := s.leases - {r.delegationKey}, settledTokens := s'.settledTokens)
    requires OnlyToken(s.settledTokens, s'.settledTokens, r.delegationKey)
    requires r.delegationKey in s'.settledTokens <==> r'.status == Completed || r'.status == Failed
    ensures OneRecord(s, s')
  {
    hide FieldsOk, Moves;
    assert r'.draft == r.draft && r'.delegationKey == r.delegationKey by { SameIdentity(r, r'); }
    assert Replaces(s, s', r, r') && RecordOk(s', KeyOf(r.draft), r');
  }

  lemma SameIdentity(r: DelegationRecord, r': DelegationRecord)
    requires Moves(r, r')
    ensures r'.draft == r.draft && r'.delegationKey == r.delegationKey
  {}

  lemma Unchanged(s: Store)
    ensures OneRecord(s, s)
  {}

  lemma RenewReplaces(s: Store, limits: Limits, part: Partition, d: nat, token: Id, now: Timestamp, expires: Timestamp)
    requires Inv(s, limits)
    ensures OneRecord(s, Renew(s, part, d, token, now, expires).store)
  {
    hide Inv, Required, OneRecord, RecordOk;
    Unchanged(s);
    var o := Renew(s, part, d, token, now, expires);
    if o.store != s {
      RequiredHere(s, limits, part, d);
      RunningReplaced(s, o.store, Required(s, part, d).value, o.result.value.record);
    }
  }

  lemma BindReplaces(s: Store, limits: Limits, part: Partition, d: nat, token: Id, runId: Id, now: Timestamp)
    requires Inv(s, limits)
    ensures OneRecord(s, BindRun(s, part, d, token, runId, now).store)
  {
    hide Inv, Required, OneRecord, RecordOk;
    Unchanged(s);
    var o := BindRun(s, part, d, token, runId, now);
    if o.store != s {
      RequiredHere(s, limits, part, d);
      RunningReplaced(s, o.store, Required(s, part, d).value, o.result.value);
    }
  }

  lemma EndedMoves(r: DelegationRecord, ending: Ending, now: Timestamp)
    requires !Terminal(r.status) && FieldsOk(r)
    ensures Moves(r, Ended(r, ending, now)) && FieldsOk(Ended(r, ending, now)) && Terminal(Ended(r, ending, now).status)
    ensures Ended(r, ending, now).status == (match ending case EndCompleted(_) => Completed case EndFailed(_) => Failed case EndCancelled => Cancelled)
  {}

  lemma HereFields(s: Store, r: DelegationRecord)
    requires Here(s, r)
    ensures FieldsOk(r) && (r.delegationKey in s.settledTokens <==> r.status == Completed || r.status == Failed)
  {}

  lemma SettleReplaces(s: Store, limits: Limits, part: Partition, d: nat, token: Id, ending: Ending, now: Timestamp)
    requires Inv(s, limits) && !ending.EndCancelled?
    ensures OneRecord(s, Settle(s, part, d, token, ending, now).store)
  {
    hide Inv, Required, OneRecord, RecordOk, Ended, Moves, FieldsOk;
    Unchanged(s);
    var o := Settle(s, part, d, token, ending, now);
    if o.store != s {
      RequiredHere(s, limits, part, d);
      var r := Required(s, part, d).value;
      HereFields(s, r);
      EndedMoves(r, ending, now);
      SameIdentity(r, Ended(r, ending, now));
      StoppedReplaced(s, o.store, r, Ended(r, ending, now));
    }
  }

  lemma AbandonReplaces(s: Store, limits: Limits, part: Partition, d: nat, token: Id, now: Timestamp)
    requires Inv(s, limits)
    ensures OneRecord(s, Abandon(s, part, d, token, now).store)
  {
    hide Inv, Required, OneRecord, RecordOk;
    Unchanged(s);
    var o := Abandon(s, part, d, token, now);
    if o.store != s {
      RequiredHere(s, limits, part, d);
      HereFields(s, Required(s, part, d).value);
      StoppedReplaced(s, o.store, Required(s, part, d).value, o.result.value);
    }
  }

  lemma CancelReplaces(s: Store, limits: Limits, key: RecordKey, revision: nat, now: Timestamp)
    requires Inv(s, limits)
    ensures OneRecord(s, Cancel(s, key, revision, now).store)
  {
    hide Inv, OneRecord, RecordOk, Ended, Moves, FieldsOk;
    Unchanged(s);
    var o := Cancel(s, key, revision, now);
    if o.store != s {
      var r := s.records[key];
      RecordHere(s, limits, key);
      HereUnder(s, key);
      HereFields(s, r);
      EndedMoves(r, EndCancelled, now);
      SameIdentity(r, Ended(r, EndCancelled, now));
      StoppedReplaced(s, o.store, r, Ended(r, EndCancelled, now));
    }
  }

  lemma HereUnder(s: Store, key: RecordKey)
    requires key in s.records && RecordOk(s, key, s.records[key])
    ensures KeyOf(s.records[key].draft) == key && Here(s, s.records[key])
  {}

  lemma OneRecordKeepsInv(s: Store, s': Store, limits: Limits)
    requires Inv(s, limits) && OneRecord(s, s')
    ensures Inv(s', limits)
  {
    hide Inv, Replaces, RecordOk;
    if s' != s {
      var r, r' :| Replaces(s, s', r, r') && RecordOk(s', KeyOf(r.draft), r');
      ReplaceKeepsInv(s, s', limits, r, r');
    }
  }

  // ---------------------------------------------------------------- creating

  lemma BelowNext(s: Store, limits: Limits, d: nat)
    requires Inv(s, limits)
    ensures HasKey(s, d) ==> d < s.nextKey
    ensures d in s.leases || d in s.settledTokens ==> HasKey(s, d)
  {
    hide CapacityOk, OrderOk, FieldsOk;
    if HasKey(s, d) {
      var key :| key in s.records && s.records[key].delegationKey == d;
      assert RecordOk(s, key, s.records[key]);
    }
  }

  lemma CreateOrder(s: Store, limits: Limits, r: DelegationRecord)
    requires Inv(s, limits) && KeyOf(r.draft) !in s.records && r.delegationKey == s.nextKey
    ensures OrderOk(s.records[KeyOf(r.draft) := r], s.order + [KeyOf(r.draft)])
  {
    hide CapacityOk, TokensOk, FieldsOk;
    var key, order := KeyOf(r.draft), s.order + [KeyOf(r.draft)];
    var records := s.records[key := r];
    assert key !in s.order;
    forall i, j | 0 <= i < j < |order| && order[i] in records && order[j] in records
      ensures records[order[i]].delegationKey < records[order[j]].delegationKey
    {
      assert order[i] == s.order[i] && order[i] in s.records;
      assert RecordOk(s, order[i], s.records[order[i]]);
      if j < |s.order| { assert order[j] == s.order[j]; }
    }
  }

  function Created(s: Store, r: DelegationRecord): Store {
    Put(s, r).(order := s.order + [KeyOf(r.draft)], fingerprints := s.fingerprints[KeyOf(r.draft) := r.draft],
               nextKey := s.nextKey + 1)
  }

  lemma CreatedRecord(s: Store, limits: Limits, r: DelegationRecord, key: RecordKey)
    requires Inv(s, limits) && KeyOf(r.draft) !in s.records && r.delegationKey == s.nextKey && key in s.records
    ensures RecordOk(Created(s, r), key, s.records[key])
  {
    hide CapacityOk, OrderOk, TokensOk, FieldsOk;
    assert RecordOk(s, key, s.records[key]);
  }

  lemma NewRecordOk(s: Store, r: DelegationRecord)
    requires r.delegationKey == s.nextKey && r.status == Pending && FieldsOk(r)
    requires s.nextKey !in s.leases && s.nextKey !in s.settledTokens
    ensures RecordOk(Created(s, r), KeyOf(r.draft), r)
  {
    hide FieldsOk;
  }

  lemma CreateRecords(s: Store, limits: Limits, r: DelegationRecord)
    requires Inv(s, limits) && KeyOf(r.draft) !in s.records && r.delegationKey == s.nextKey && r.status == Pending && FieldsOk(r)
    ensures RecordsOk(Created(s, r))
  {
    BelowNext(s, limits, s.nextKey);
    hide CapacityOk, OrderOk, TokensOk, FieldsOk, HasKey, RecordOk;
    NewRecordOk(s, r);
    var s' := Created(s, r);
    forall key | key in s'.records ensures RecordOk(s', key, s'.records[key]) {
      if key != KeyOf(r.draft) { CreatedRecord(s, limits, r, key); }
    }
  }

  /** Tokens stay with records that stay. */
  lemma KeepTokens(s: Store, s': Store)
    requires TokensOk(s) && s'.leases.Keys <= s.leases.Keys && s'.settledTokens.Keys <= s.settledTokens.Keys
    requires forall key :: key in s.records && (s.records[key].delegationKey in s'.leases || s.records[key].delegationKey in s'.settledTokens) ==>
               key in s'.records && s'.records[key].delegationKey == s.records[key].delegationKey
    ensures TokensOk(s')
  {
    forall d | d in s'.leases || d in s'.settledTokens ensures HasKey(s', d) {
      assert HasKey(s, d);
      var key :| key in s.records && s.records[key].delegationKey == d;
      assert s'.records[key].delegationKey == d;
    }
  }

  lemma {:induction false} LiveSame(m: map<RecordKey, DelegationRecord>, n: map<RecordKey, DelegationRecord>, order: seq<RecordKey>, part: Partition)
    requires forall key :: key in order ==> (key in n <==> key in m) && (key in m ==> n[key] == m[key])
    ensures Live(n, order, part) == Live(m, order, part)
  {
    if order != [] { LiveSame(m, n, order[..|order| - 1], part); }
  }

  lemma CreateCapacity(s: Store, limits: Limits, r: DelegationRecord)
    requires OrderOk(s.records, s.order) && CapacityOk(s, limits) && KeyOf(r.draft) !in s.records
    requires Live(s.records, s.order, r.draft.partition) < limits.maxPendingPerGeneration
    ensures CapacityOk(Created(s, r), limits)
  {
    var s' := Created(s, r);
    assert KeyOf(r.draft) !in s.order && s'.order[..|s.order|] == s.order;
    hide OrderOk;
    forall part ensures Live(s'.records, s'.order, part) <= limits.maxPendingPerGeneration {
      LiveSame(s.records, s'.records, s.order, part);
    }
  }

  /** What an operation does to the records as a whole. */
  ghost predicate Evolves(s: Store, s': Store) {
    && s'.nextKey >= s.nextKey
    && forall key :: key in s'.records ==>
         if key in s.records then Moves(s.records[key], s'.records[key]) else s'.records[key].delegationKey >= s.nextKey
  }

  lemma CreatedKeepsInv(s: Store, limits: Limits, r: DelegationRecord)
    requires Inv(s, limits) && KeyOf(r.draft) !in s.records && r.delegationKey == s.nextKey && r.status == Pending && FieldsOk(r)
    requires Live(s.records, s.order, r.draft.partition) < limits.maxPendingPerGeneration
    ensures Inv(Created(s, r), limits) && Evolves(s, Created(s, r))
  {
    hide RecordsOk, OrderOk, TokensOk, CapacityOk, Live, FieldsOk;
    CreateRecords(s, limits, r);
    CreateOrder(s, limits, r);
    CreateCapacity(s, limits, r);
    KeepTokens(s, Created(s, r));
  }

  lemma StaysSame(s: Store)
    ensures Evolves(s, s)
  {}

  lemma CreateKeepsInv(s: Store, limits: Limits, draft: Draft, maxPending: nat)
    requires Inv(s, limits)
    ensures Inv(Create(s, limits, draft, maxPending).store, limits) && Evolves(s, Create(s, limits, draft, maxPending).store)
  {
    assert s.nextKey >= 1;
    hide Inv, Live, Evolves;
    StaysSame(s);
    var o := Create(s, limits, draft, maxPending);
    if o.store != s { CreatedKeepsInv(s, limits, o.result.value); }
  }

  // ---------------------------------------------------------------- purging

  /** Removing r takes its record or, when it is gone already, nothing. */
  ghost predicate Removable(s: Store, r: DelegationRecord) {
    if KeyOf(r.draft) in s.records then s.records[KeyOf(r.draft)] == r else !HasKey(s, r.delegationKey)
  }

  lemma {:induction false} WithoutOnly(order: seq<RecordKey>, key: RecordKey)
    ensures forall k :: k in Without(order, key) <==> k in order && k != key
  {
    if order != [] { WithoutOnly(order[..|order| - 1], key); }
  }

  lemma {:induction false} WithoutOrdered(records: map<RecordKey, DelegationRecord>, order: seq<RecordKey>, key: RecordKey)
    requires Ascending(records, order)
    ensures Ascending(records - {key}, Without(order, key))
  {
    if order != [] {
      var front, last := order[..|order| - 1], order[|order| - 1];
      WithoutOrdered(records, front, key);
      WithoutOnly(front, key);
      var rest := Without(front, key);
      forall i | 0 <= i < |rest| && rest[i] in records - {key} && last in records
        ensures records[rest[i]].delegationKey < records[last].delegationKey
      {
        assert rest[i] in front;
      }
    }
  }

  lemma {:induction false} LiveWithout(records: map<RecordKey, DelegationRecord>, order: seq<RecordKey>, key: RecordKey, part: Partition)
    ensures Live(records - {key}, Without(order, key), part) <= Live(records, order, part)
  {
    if order != [] {
      var front, last := order[..|order| - 1], order[|order| - 1];
      LiveWithout(records, front, key, part);
      var rest := Without(front, key);
      if last != key {
        assert (rest + [last])[..|rest + [last]| - 1] == rest;
      } else {
        assert rest + [] == rest;
      }
    }
  }

  lemma RemoveRecord(s: Store, limits: Limits, r: DelegationRecord, key: RecordKey)
    requires Inv(s, limits) && Removable(s, r) && key in s.records && key != KeyOf(r.draft)
    ensures s.records[key].delegationKey != r.delegationKey
  {
    hide CapacityOk, FieldsOk, RecordsOk, TokensOk, OrderOk;
    if s.records[key].delegationKey == r.delegationKey && KeyOf(r.draft) in s.records { SameDelegation(s, key, KeyOf(r.draft)); }
  }

  lemma RemoveRecords(s: Store, limits: Limits, r: DelegationRecord)
    requires Inv(s, limits) && Removable(s, r)
    ensures RecordsOk(Remove(s, r)) && TokensOk(Remove(s, r))
  {
    hide CapacityOk, FieldsOk, OrderOk, TokensOk, Removable, Without;
    var s' := Remove(s, r);
    forall key | key in s'.records ensures RecordOk(s', key, s'.records[key]) && s'.records[key].delegationKey != r.delegationKey {
      assert RecordOk(s, key, s.records[key]);
      RemoveRecord(s, limits, r, key);
    }
    hide RecordsOk;
    RemoveTokens(s, limits, r);
  }

  lemma RemoveTokens(s: Store, limits: Limits, r: DelegationRecord)
    requires Inv(s, limits) && Removable(s, r)
    ensures TokensOk(Remove(s, r))
  {
    hide CapacityOk, FieldsOk, OrderOk, RecordsOk, Without;
    KeepTokens(s, Remove(s, r));
  }

  lemma RemoveCapacity(s: Store, limits: Limits, r: DelegationRecord)
    requires CapacityOk(s, limits)
    ensures CapacityOk(Remove(s, r), limits)
  {
    forall part ensures Live(Remove(s, r).records, Remove(s, r).order, part) <= limits.maxPendingPerGeneration {
      LiveWithout(s.records, s.order, KeyOf(r.draft), part);
    }
  }

  lemma RemoveOrder(s: Store, r: DelegationRecord)
    requires OrderOk(s.records, s.order)
    ensures OrderOk(Remove(s, r).records, Remove(s, r).order)
  {
    hide Ascending, Without;
    WithoutOnly(s.order, KeyOf(r.draft));
    WithoutOrdered(s.records, s.order, KeyOf(r.draft));
  }

  lemma RemoveEvolves(s: Store, r: DelegationRecord)
    ensures Evolves(s, Remove(s, r))
  {}

  lemma RemoveKeepsInv(s: Store, limits: Limits, r: DelegationRecord)
    requires Inv(s, limits) && Removable(s, r)
    ensures Inv(Remove(s, r), limits) && Evolves(s, Remove(s, r))
  {
    hide RecordsOk, TokensOk, OrderOk, CapacityOk, Removable, Remove, Evolves;
    RemoveRecords(s, limits, r);
    RemoveOrder(s, r);
    RemoveCapacity(s, limits, r);
    RemoveEvolves(s, r);
  }

  lemma StillRemovable(s: Store, limits: Limits, r: DelegationRecord, other: DelegationRecord)
    requires Inv(s, limits) && Removable(s, r) && Removable(s, other)
    ensures Removable(Remove(s, r), other)
  {
    hide CapacityOk, FieldsOk, TokensOk;
    var s' := Remove(s, r);
    var key := KeyOf(other.draft);
    if key !in s'.records && HasKey(s', other.delegationKey) {
      var k :| k in s'.records && s'.records[k].delegationKey == other.delegationKey;
      assert HasKey(s, other.delegationKey) by { assert s.records[k].delegationKey == other.delegationKey; }
      SameDelegation(s, k, key);
      assert false;
    }
  }

  ghost predicate AllRemovable(s: Store, purged: seq<DelegationRecord>) {
    forall i :: 0 <= i < |purged| ==> Removable(s, purged[i])
  }

  lemma MovesOn(a: DelegationRecord, b: DelegationRecord, c: DelegationRecord)
    requires Moves(a, b) && Moves(b, c)
    ensures Moves(a, c)
  {}

  lemma EvolvesOn(s: Store, t: Store, u: Store)
    requires Evolves(s, t) && Evolves(t, u) && forall key :: key in u.records && key in s.records ==> key in t.records
    ensures Evolves(s, u)
  {
    hide Moves;
    forall key | key in u.records
      ensures if key in s.records then Moves(s.records[key], u.records[key]) else u.records[key].delegationKey >= s.nextKey
    {
      if key in s.records { MovesOn(s.records[key], t.records[key], u.records[key]); }
      else if key in t.records { SameDelegationKey(t.records[key], u.records[key]); }
    }
  }

  lemma {:induction false} RemoveAllKeepsInv(s: Store, limits: Limits, purged: seq<DelegationRecord>, rest: seq<DelegationRecord>)
    requires Inv(s, limits) && AllRemovable(s, purged + rest)
    ensures Inv(RemoveAll(s, purged), limits) && Evolves(s, RemoveAll(s, purged)) && AllRemovable(RemoveAll(s, purged), rest)
    ensures RemoveAll(s, purged).records.Keys <= s.records.Keys
    decreases |purged|
  {
    hide Inv, Evolves, Removable;
    if purged == [] {
      assert purged + rest == rest;
      StaysSame(s);
    } else {
      var n := |purged| - 1;
      assert purged + rest == purged[..n] + ([purged[n]] + rest);
      RemoveAllKeepsInv(s, limits, purged[..n], [purged[n]] + rest);
      var t := RemoveAll(s, purged[..n]);
      assert ([purged[n]] + rest)[0] == purged[n];
      RemoveKeepsInv(t, limits, purged[n]);
      EvolvesOn(s, t, Remove(t, purged[n]));
      forall i | 0 <= i < |rest| ensures Removable(Remove(t, purged[n]), rest[i]) {
        assert ([purged[n]] + rest)[i + 1] == rest[i];
        StillRemovable(t, limits, purged[n], rest[i]);
      }
    }
  }

  lemma {:induction false} PurgeableHere(s: Store, limits: Limits, part: Partition, before: Timestamp, n: nat)
    requires Inv(s, limits) && n <= |s.order|
    ensures forall r :: r in Purgeable(s, part, before, n) ==>
              KeyOf(r.draft) in s.records && s.records[KeyOf(r.draft)] == r && Terminal(r.status) && r.draft.partition == part
  {
    hide CapacityOk, TokensOk, OrderOk, FieldsOk;
    if n > 0 {
      PurgeableHere(s, limits, part, before, n - 1);
      if InPartition(s, n - 1, part) { assert RecordOk(s, s.order[n - 1], s.records[s.order[n - 1]]); }
    }
  }

  /** Only terminal records of the partition are purged. */
  lemma SelectedHere(s: Store, limits: Limits, part: Partition, before: Timestamp, limit: nat)
    requires Inv(s, limits)
    ensures forall r :: r in Selected(s, part, before, limit) ==>
              KeyOf(r.draft) in s.records && s.records[KeyOf(r.draft)] == r && Terminal(r.status) && r.draft.partition == part
    ensures AllRemovable(s, Selected(s, part, before, limit))
  {
    hide Inv;
    PurgeableHere(s, limits, part, before, |s.order|);
    var all := Purgeable(s, part, before, |s.order|);
    SortIsSorted(all, AgeRank);
    forall r | r in Selected(s, part, before, limit) ensures r in all {
      assert r in Sort(all, AgeRank);
      assert r in multiset(Sort(all, AgeRank));
    }
  }

  lemma PurgeKeepsInv(s: Store, limits: Limits, part: Partition, before: Timestamp, limit: nat)
    requires Inv(s, limits)
    ensures Inv(Purge(s, limits, part, before, limit).store, limits) && Evolves(s, Purge(s, limits, part, before, limit).store)
  {
    hide Inv, Evolves, Selected, Removable;
    StaysSame(s);
    SelectedHere(s, limits, part, before, limit);
    var purged := Selected(s, part, before, limit);
    assert purged + [] == purged;
    RemoveAllKeepsInv(s, limits, purged, []);
  }

  // ---------------------------------------------------------------- every operation, every run

  lemma OneRecordEvolves(s: Store, s': Store)
    requires OneRecord(s, s')
    ensures Evolves(s, s')
  {
    hide RecordOk;
    if s' != s {
      var r, r' :| Replaces(s, s', r, r') && RecordOk(s', KeyOf(r.draft), r');
    }
  }

  lemma ApplyKeepsInv(s: Store, limits: Limits, op: Op)
    requires Inv(s, limits)
    ensures Inv(Apply(s, limits, op), limits) && Evolves(s, Apply(s, limits, op))
  {
    hide Inv, Evolves, OneRecord, Create, Claim, Renew, BindRun, Settle, Abandon, Cancel, Purge;
    var s' := Apply(s, limits, op);
    StaysSame(s);
    match op
    case OpCreate(draft, maxPending) => CreateKeepsInv(s, limits, draft, maxPending);
    case OpPurge(part, before, limit) => PurgeKeepsInv(s, limits, part, before, limit);
    case _ => OneRecordOp(s, limits, op); OneRecordKeepsInv(s, s', limits); OneRecordEvolves(s, s');
  }

  lemma OneRecordOp(s: Store, limits: Limits, op: Op)
    requires Inv(s, limits) && !op.OpCreate? && !op.OpPurge?
    ensures OneRecord(s, Apply(s, limits, op))
  {
    hide Inv, OneRecord, Create, Claim, Renew, BindRun, Settle, Abandon, Cancel, Purge;
    Unchanged(s);
    match op
    case OpClaim(key, ownerId, now, expires, token) => ClaimReplaces(s, limits, key, ownerId, now, expires, token);
    case OpRenew(part, d, token, now, expires) => RenewReplaces(s, limits, part, d, token, now, expires);
    case OpBindRun(part, d, token, runId, now) => BindReplaces(s, limits, part, d, token, runId, now);
    case OpSettle(part, d, token, ending, now) => if !ending.EndCancelled? { SettleReplaces(s, limits, part, d, token, ending, now); }
    case OpAbandon(part, d, token, now) => AbandonReplaces(s, limits, part, d, token, now);
    case OpCancel(key, revision, now) => CancelReplaces(s, limits, key, revision, now);
  }

  function Run(s: Store, limits: Limits, ops: seq<Op>): Store {
    if ops == [] then s else Apply(Run(s, limits, ops[..|ops| - 1]), limits, ops[|ops| - 1])
  }

  /** Every record now either descends from the one that had its key then or was created since, under a key never used
      before. */
  ghost predicate Descends(s: Store, s': Store) {
    && s'.nextKey >= s.nextKey
    && forall key :: key in s'.records ==>
         || s'.records[key].delegationKey >= s.nextKey
         || (key in s.records && Moves(s.records[key], s'.records[key]))
  }

  lemma DescendsOn(s: Store, t: Store, u: Store)
    requires Descends(s, t) && Evolves(t, u)
    ensures Descends(s, u)
  {
    hide Moves;
    forall key | key in u.records
      ensures u.records[key].delegationKey >= s.nextKey || (key in s.records && Moves(s.records[key], u.records[key]))
    {
      if key in t.records {
        SameDelegationKey(t.records[key], u.records[key]);
        if t.records[key].delegationKey < s.nextKey { MovesOn(s.records[key], t.records[key], u.records[key]); }
      }
    }
  }

  lemma SameDelegationKey(a: DelegationRecord, b: DelegationRecord)
    requires Moves(a, b)
    ensures a.delegationKey == b.delegationKey
  {}

  lemma RecordStays(r: DelegationRecord)
    ensures Moves(r, r)
  {}

  /** In every reachable store a lease exists exactly for a running record and no partition holds more live records than
      its limit; and along every run a record keeps its child run, its start and, once terminal, everything, while its
      attempt and revision only grow. */
  lemma {:induction false} RunsKeepInv(s: Store, limits: Limits, ops: seq<Op>)
    requires Inv(s, limits)
    ensures Inv(Run(s, limits, ops), limits) && Descends(s, Run(s, limits, ops))
  {
    hide Inv, Apply, Evolves;
    if ops == [] {
      hide Moves;
      forall key | key in s.records ensures Moves(s.records[key], s.records[key]) { RecordStays(s.records[key]); }
    } else {
      hide Descends;
      var front := ops[..|ops| - 1];
      RunsKeepInv(s, limits, front);
      ApplyKeepsInv(Run(s, limits, front), limits, ops[|ops| - 1]);
      DescendsOn(s, Run(s, limits, front), Run(s, limits, ops));
    }
  }

  lemma EmptyInv(limits: Limits)
    ensures Inv(Empty, limits)
  {}

  // ---------------------------------------------------------------- fencing

  /** The token that each delegation was last claimed with. */
  datatype History = History(store: Store, latest: map<nat, Id>)

  function Record(h: History, limits: Limits, op: Op): History {
    var s' := Apply(h.store, limits, op);
    History(s', if op.OpClaim? && Claim(h.store, op.key, op.ownerId, op.now, op.expires, op.token).result.Ok?
                then h.latest[h.store.records[op.key].delegationKey := op.token] else h.latest)
  }

  function RunHistory(h: History, limits: Limits, ops: seq<Op>): History {
    if ops == [] then h else Record(RunHistory(h, limits, ops[..|ops| - 1]), limits, ops[|ops| - 1])
  }

  /** Every token the store accepts is the latest of its delegation. */
  ghost predicate TokensLatest(h: History) {
    && (forall d :: d in h.store.leases ==> d in h.latest && h.latest[d] == h.store.leases[d].token)
    && (forall d :: d in h.store.settledTokens ==> d in h.latest && h.latest[d] == h.store.settledTokens[d])
  }

  /** Leases are only shortened, extended or replaced by a claim; settling tokens come from the lease. */
  ghost predicate TokensFrom(s: Store, s': Store) {
    && (forall d :: d in s'.leases ==> d in s.leases && s'.leases[d].token == s.leases[d].token)
    && (forall d :: d in s'.settledTokens ==>
          || (d in s.settledTokens && s'.settledTokens[d] == s.settledTokens[d])
          || (d in s.leases && s'.settledTokens[d] == s.leases[d].token))
  }

  lemma {:induction false} RemoveAllTokens(s: Store, purged: seq<DelegationRecord>)
    ensures TokensFrom(s, RemoveAll(s, purged))
  {
    if purged != [] { RemoveAllTokens(s, purged[..|purged| - 1]); }
  }

  lemma OtherOpTokens(s: Store, limits: Limits, op: Op)
    requires !op.OpClaim?
    ensures TokensFrom(s, Apply(s, limits, op))
  {
    hide Required, RemoveAll, Selected, Live;
    if op.OpPurge? { RemoveAllTokens(s, Selected(s, op.part, op.before, op.limit)); }
  }

  lemma RecordKeepsLatest(h: History, limits: Limits, op: Op)
    requires Inv(h.store, limits) && TokensLatest(h)
    ensures TokensLatest(Record(h, limits, op))
  {
    hide Inv, TokensLatest, Apply, TokensFrom;
    if op.OpClaim? {
      ClaimedTokens(h, limits, op);
    } else {
      OtherOpTokens(h.store, limits, op);
      FromLatest(h, Apply(h.store, limits, op));
    }
  }

  lemma FromLatest(h: History, s': Store)
    requires TokensLatest(h) && TokensFrom(h.store, s')
    ensures TokensLatest(History(s', h.latest))
  {}

  lemma ClaimedTokens(h: History, limits: Limits, op: Op)
    requires Inv(h.store, limits) && TokensLatest(h) && op.OpClaim?
    ensures TokensLatest(Record(h, limits, op))
  {
    hide CapacityOk, OrderOk, TokensOk, FieldsOk;
    if op.key in h.store.records { assert RecordOk(h.store, op.key, h.store.records[op.key]); }
  }

  lemma {:induction false} RunsKeepLatest(limits: Limits, ops: seq<Op>)
    ensures var h := RunHistory(History(Empty, map[]), limits, ops);
      Inv(h.store, limits) && TokensLatest(h)
  {
    hide Inv, Apply, TokensLatest, Record;
    if ops == [] {
      EmptyInv(limits);
      NoTokens();
    } else {
      var front := ops[..|ops| - 1];
      RunsKeepLatest(limits, front);
      var h := RunHistory(History(Empty, map[]), limits, front);
      ApplyKeepsInv(h.store, limits, ops[|ops| - 1]);
      RecordKeepsLatest(h, limits, ops[|ops| - 1]);
      RecordedStore(h, limits, ops[|ops| - 1]);
    }
  }

  lemma NoTokens()
    ensures TokensLatest(History(Empty, map[]))
  {}

  lemma RecordedStore(h: History, limits: Limits, op: Op)
    ensures Record(h, limits, op).store == Apply(h.store, limits, op)
  {
    hide Apply;
  }

  /** The operations that present a lease token. */
  predicate Succeeds(s: Store, op: Op) {
    match op
    case OpRenew(part, d, token, now, expires) => Renew(s, part, d, token, now, expires).result.Ok?
    case OpBindRun(part, d, token, runId, now) => BindRun(s, part, d, token, runId, now).result.Ok?
    case OpSettle(part, d, token, ending, now) => !ending.EndCancelled? && Settle(s, part, d, token, ending, now).result.Ok?
    case OpAbandon(part, d, token, now) => Abandon(s, part, d, token, now).result.Ok?
    case _ => false
  }

  /** Over every run, an operation that presents a lease token succeeds only with the token of the delegation's latest
      claim, and one that does not succeed leaves the store as it was; so with fresh tokens a superseded holder can
      neither change nor settle anything. */
  lemma OnlyLatestTokenSucceeds(limits: Limits, ops: seq<Op>, op: Op)
    requires op.OpRenew? || op.OpBindRun? || op.OpSettle? || op.OpAbandon?
    ensures var h := RunHistory(History(Empty, map[]), limits, ops);
      && (Succeeds(h.store, op) ==> op.delegationKey in h.latest && h.latest[op.delegationKey] == op.token)
      && (!Succeeds(h.store, op) ==> Apply(h.store, limits, op) == h.store)
  {
    RunsKeepLatest(limits, ops);
    hide Inv, RunHistory, Required;
  }

  // ---------------------------------------------------------------- settling again

  /** A delegation that its lease's holder has settled with this token. */
  ghost predicate SettledBy(s: Store, r: DelegationRecord, token: Id) {
    && Here(s, r) && (r.status == Completed || r.status == Failed)
    && r.delegationKey in s.settledTokens && s.settledTokens[r.delegationKey] == token
  }

  lemma SettledStep(s: Store, limits: Limits, r: DelegationRecord, token: Id, op: Op)
    requires Inv(s, limits) && SettledBy(s, r, token)
    ensures var s' := Apply(s, limits, op); HasKey(s', r.delegationKey) ==> SettledBy(s', r, token)
  {
    var s' := Apply(s, limits, op);
    ApplyKeepsInv(s, limits, op);
    SettledTokenStays(s, limits, r, token, op);
    hide Apply, OrderOk, CapacityOk, FieldsOk, TokensOk;
    if HasKey(s', r.delegationKey) {
      var key :| key in s'.records && s'.records[key].delegationKey == r.delegationKey;
      assert RecordOk(s', key, s'.records[key]);
      if key in s.records { SameDelegation(s, key, KeyOf(r.draft)); }
    }
  }

  lemma SettledTokenStays(s: Store, limits: Limits, r: DelegationRecord, token: Id, op: Op)
    requires SettledBy(s, r, token)
    ensures var s' := Apply(s, limits, op);
      r.delegationKey in s'.settledTokens ==> s'.settledTokens[r.delegationKey] == token
  {
    if op.OpClaim? {
      hide Inv;
    } else {
      OtherOpTokens(s, limits, op);
      hide Apply;
    }
  }

  lemma {:induction false} SettledRuns(s: Store, limits: Limits, r: DelegationRecord, token: Id, ops: seq<Op>)
    requires Inv(s, limits) && SettledBy(s, r, token)
    ensures var s' := Run(s, limits, ops); HasKey(s', r.delegationKey) ==> SettledBy(s', r, token)
  {
    hide Inv, Apply, SettledBy, HasKey;
    if ops != [] {
      var front := ops[..|ops| - 1];
      SettledRuns(s, limits, r, token, front);
      RunsKeepInv(s, limits, front);
      SettledBelow(s, limits, r, token);
      if HasKey(Run(s, limits, front), r.delegationKey) {
        SettledStep(Run(s, limits, front), limits, r, token, ops[|ops| - 1]);
      } else {
        GoneStays(Run(s, limits, front), limits, r.delegationKey, ops[|ops| - 1]);
      }
    }
  }

  lemma SettledBelow(s: Store, limits: Limits, r: DelegationRecord, token: Id)
    requires Inv(s, limits) && SettledBy(s, r, token)
    ensures r.delegationKey < s.nextKey
  {
    hide OrderOk, CapacityOk, FieldsOk, TokensOk;
  }

  /** A delegation key is never used again. */
  lemma GoneStays(s: Store, limits: Limits, d: nat, op: Op)
    requires Inv(s, limits) && d < s.nextKey && !HasKey(s, d)
    ensures !HasKey(Apply(s, limits, op), d)
  {
    ApplyKeepsInv(s, limits, op);
    hide Inv, Apply;
    var s' := Apply(s, limits, op);
    forall key | key in s'.records ensures s'.records[key].delegationKey != d {
      if key in s.records { assert s.records[key].delegationKey != d; }
    }
  }

  lemma SettleEnds(s: Store, limits: Limits, part: Partition, d: nat, token: Id, ending: Ending, now: Timestamp)
    requires Inv(s, limits) && !ending.EndCancelled? && Settle(s, part, d, token, ending, now).result.Ok?
    ensures var first := Settle(s, part, d, token, ending, now); var r := first.result.value;
      && Inv(first.store, limits) && SettledBy(first.store, r, token) && r.delegationKey == d && r.draft.partition == part
      && (if ending.EndCompleted? then r.status == Completed && r.result == Some(ending.result)
          else r.status == Failed && r.failureCode == Some(ending.code))
  {
    hide Inv, Required, FieldsOk, OneRecord, RecordOk;
    var first := Settle(s, part, d, token, ending, now);
    SettleReplaces(s, limits, part, d, token, ending, now);
    OneRecordKeepsInv(s, first.store, limits);
    RequiredHere(s, limits, part, d);
    RecordHere(first.store, limits, KeyOf(first.result.value.draft));
  }

  lemma RecordHere(s: Store, limits: Limits, key: RecordKey)
    requires Inv(s, limits) && key in s.records
    ensures RecordOk(s, key, s.records[key])
  {
    hide CapacityOk, OrderOk, TokensOk, RecordOk;
  }

  /** Settling again with the same token and content, at any later time, returns the settled record and changes
      nothing, for as long as the record has not been purged. */
  lemma SettlingRepeats(s: Store, limits: Limits, part: Partition, d: nat, token: Id, ending: Ending, now: Timestamp,
                        ops: seq<Op>, later: Timestamp)
    requires Inv(s, limits) && !ending.EndCancelled? && Settle(s, part, d, token, ending, now).result.Ok?
    ensures var first := Settle(s, part, d, token, ending, now);
      var s' := Run(first.store, limits, ops);
      HasKey(s', d) ==> Settle(s', part, d, token, ending, later) == Outcome(s', first.result)
  {
    hide Inv, SettledBy, Settle, HasKey;
    var first := Settle(s, part, d, token, ending, now);
    SettleEnds(s, limits, part, d, token, ending, now);
    SettledRuns(first.store, limits, first.result.value, token, ops);
    RunsKeepInv(first.store, limits, ops);
    if HasKey(Run(first.store, limits, ops), d) {
      SettlesAgain(Run(first.store, limits, ops), limits, first.result.value, token, ending, later);
    }
  }

  lemma SettlesAgain(s: Store, limits: Limits, r: DelegationRecord, token: Id, ending: Ending, later: Timestamp)
    requires Inv(s, limits) && SettledBy(s, r, token) && !ending.EndCancelled?
    requires if ending.EndCompleted? then r.status == Completed && r.result == Some(ending.result)
             else r.status == Failed && r.failureCode == Some(ending.code)
    ensures Settle(s, r.draft.partition, r.delegationKey, token, ending, later) == Outcome(s, Ok(r))
  {
    hide Inv, Required, RecordOk;
    RequiredExact(s, limits, r.draft.partition, r.delegationKey, KeyOf(r.draft));
  }

  // ---------------------------------------------------------------- what one successful operation means

  /** The token holds a lease that has not run out. */
  predicate Leased(s: Store, delegationKey: nat, token: Id, now: Timestamp) {
    && delegationKey in s.leases && s.leases[delegationKey].token == token
    && s.leases[delegationKey].expiresAt > now
  }

  lemma FoundHere(s: Store, limits: Limits, part: Partition, delegationKey: nat)
    requires Inv(s, limits)
    ensures Required(s, part, delegationKey).Some? ==>
              var r := Required(s, part, delegationKey).value;
              && r.delegationKey == delegationKey && KeyOf(r.draft) in s.records && s.records[KeyOf(r.draft)] == r
              && (delegationKey in s.leases <==> r.status == Running)
  {
    hide Inv, Required;
    if Required(s, part, delegationKey).Some? { RequiredHere(s, limits, part, delegationKey); }
  }

  /** A claim takes over only work whose lease ran out, under the new token and one attempt further, and changes no other
      record. */
  lemma ClaimFences(s: Store, limits: Limits, key: RecordKey, ownerId: Id, now: Timestamp, expires: Timestamp, token: Id)
    requires Inv(s, limits)
    ensures var o := Claim(s, key, ownerId, now, expires, token);
      && Inv(o.store, limits)
      && (o.result.Ok? ==>
            var r := o.result.value.record;
            && key in s.records && r.attempt == s.records[key].attempt + 1 && r.status == Running
            && !Terminal(s.records[key].status)
            && (r.delegationKey in s.leases ==> s.leases[r.delegationKey].expiresAt <= now)
            && Leased(o.store, r.delegationKey, token, now) && o.store.records == s.records[key := r])
      && (o.result.Err? ==> o.store == s)
  {
    hide Inv, Evolves, RecordOk;
    ApplyKeepsInv(s, limits, OpClaim(key, ownerId, now, expires, token));
    if key in s.records { KeyHere(s, limits, key); }
  }

  lemma KeyHere(s: Store, limits: Limits, key: RecordKey)
    requires Inv(s, limits) && key in s.records
    ensures KeyOf(s.records[key].draft) == key
    ensures s.records[key].delegationKey in s.settledTokens
            <==> s.records[key].status == Completed || s.records[key].status == Failed
  {
    hide Inv;
    RecordHere(s, limits, key);
  }

  /** Only the token that holds an unexpired lease renews it, and never to an earlier end. */
  lemma RenewFences(s: Store, limits: Limits, part: Partition, d: nat, token: Id, now: Timestamp, expiresAt: Timestamp)
    requires Inv(s, limits)
    ensures var o := Renew(s, part, d, token, now, expiresAt);
      && Inv(o.store, limits)
      && (o.result.Ok? ==> Leased(s, d, token, now) && Leased(o.store, d, token, now)
                           && s.leases[d].expiresAt <= o.store.leases[d].expiresAt == expiresAt)
      && (o.result.Err? ==> o.store == s)
  {
    hide Inv, Evolves, RecordOk, Required;
    ApplyKeepsInv(s, limits, OpRenew(part, d, token, now, expiresAt));
    FoundHere(s, limits, part, d);
  }

  /** Only the token that holds an unexpired lease binds the child run, and a bound run stays. */
  lemma BindFences(s: Store, limits: Limits, part: Partition, d: nat, token: Id, runId: Id, now: Timestamp)
    requires Inv(s, limits)
    ensures var o := BindRun(s, part, d, token, runId, now);
      && Inv(o.store, limits)
      && (o.result.Ok? ==> Leased(s, d, token, now) && Leased(o.store, d, token, now) && o.result.value.childRunId == Some(runId))
      && (forall key :: key in s.records && s.records[key].childRunId.Some? ==>
            key in o.store.records && o.store.records[key].childRunId == s.records[key].childRunId)
      && (o.result.Err? ==> o.store == s)
  {
    hide Inv, Evolves, RecordOk, Required;
    ApplyKeepsInv(s, limits, OpBindRun(part, d, token, runId, now));
    FoundHere(s, limits, part, d);
  }

  /** The token that holds an unexpired lease ends the work, or repeats its own ending and changes nothing; then no lease
      is left. */
  lemma SettleFences(s: Store, limits: Limits, part: Partition, d: nat, token: Id, ending: Ending, now: Timestamp)
    requires Inv(s, limits) && !ending.EndCancelled?
    ensures var o := Settle(s, part, d, token, ending, now);
      && Inv(o.store, limits)
      && (o.result.Ok? ==>
            && (if ending.EndCompleted? then o.result.value.status == Completed && o.result.value.result == Some(ending.result)
                else o.result.value.status == Failed && o.result.value.failureCode == Some(ending.code))
            && d !in o.store.leases && d in o.store.settledTokens && o.store.settledTokens[d] == token
            && (Leased(s, d, token, now) || o.store == s))
      && (o.result.Err? ==> o.store == s)
  {
    hide Inv, Evolves, RecordOk, Required;
    ApplyKeepsInv(s, limits, OpSettle(part, d, token, ending, now));
    FoundHere(s, limits, part, d);
  }

  /** Only the token that holds an unexpired lease gives the work back, and then no lease is left. */
  lemma AbandonFences(s: Store, limits: Limits, part: Partition, d: nat, token: Id, now: Timestamp)
    requires Inv(s, limits)
    ensures var o := Abandon(s, part, d, token, now);
      && Inv(o.store, limits)
      && (o.result.Ok? ==> Leased(s, d, token, now) && d !in o.store.leases && o.result.value.status == Pending)
      && (o.result.Err? ==> o.store == s)
  {
    hide Inv, Evolves, RecordOk, Required;
    ApplyKeepsInv(s, limits, OpAbandon(part, d, token, now));
    FoundHere(s, limits, part, d);
  }

  /** Cancelling ends work that had not ended, whoever holds its lease, and leaves no lease to settle it with. */
  lemma CancelFences(s: Store, limits: Limits, key: RecordKey, revision: nat, now: Timestamp)
    requires Inv(s, limits)
    ensures var o := Cancel(s, key, revision, now);
      && Inv(o.store, limits)
      && (o.result.Ok? ==>
            && key in s.records && !Terminal(s.records[key].status) && o.result.value.status == Cancelled
            && o.result.value.delegationKey !in o.store.leases && o.result.value.delegationKey !in o.store.settledTokens
            && o.store.records == s.records[key := o.result.value])
      && (o.result.Err? ==> o.store == s)
  {
    hide Inv, Evolves, RecordOk;
    ApplyKeepsInv(s, limits, OpCancel(key, revision, now));
    if key in s.records { KeyHere(s, limits, key); }
  }
}
