/** Every journal operation keeps the invariant and moves each record only forward. */
module ActionJournalSteps {
  import opened Wrappers
  import opened ActionRecords
  import opened StableSort
  import opened ActionJournal
  import opened ActionJournalInvariant

  /** What any operation may do to a stored record. */
  ghost predicate Advances(r: ActionRecord, r': ActionRecord) {
    && r'.intent == r.intent && r'.createdAt == r.createdAt
    && r'.attempt >= r.attempt
    && (r'.attempt == r.attempt && r'.claim.Some? ==> r'.claim == r.claim)
    && (Terminal(r) ==> r' == r || (r.settlement.None? && r' == r.(updatedAt := r'.updatedAt, settlement := r'.settlement)))
    && (r'.attempt > r.attempt && r.intent.replayPolicy != Safe ==> r.status == Pending && r'.attempt == r.attempt + 1)
  }

  /** What selecting a delivery may do: it never makes a record pending and takes no receipt. */
  ghost predicate Delivers(r: ActionRecord, r': ActionRecord) {
    Advances(r, r') && r'.receipt == r.receipt && (r'.status == Pending || Terminal(r) ==> r' == r)
  }

  /** The records of j' are those of j, each moved forward by selecting deliveries. */
  ghost predicate DeliversAll(j: Journal, j': Journal) {
    && j'.order == j.order && j'.sequences == j.sequences && j'.nextSequence == j.nextSequence
    && j'.records.Keys == j.records.Keys
    && forall k :: k in j.records ==> Delivers(j.records[k], j'.records[k])
  }

  /** Any record of j' is a record of j of the same admission, moved forward, or is newly admitted. */
  ghost predicate Evolves(j: Journal, j': Journal) {
    && j.nextSequence <= j'.nextSequence
    && j'.sequences.Keys == j'.records.Keys
    && forall k :: k in j'.records ==>
         || (&& k in j.records && k in j.sequences && j'.sequences[k] == j.sequences[k]
             && Advances(j.records[k], j'.records[k]))
         || (j'.sequences[k] > j.nextSequence && j'.records[k].attempt == 0 && j'.records[k].receipt.None?)
  }

  lemma InvParts(j: Journal, config: Config)
    requires Inv(j, config)
    ensures OrderOk(j) && Keyed(j) && TableOk(j) && RecordsOk(j, config)
  {
    hide OrderOk, Keyed, TableOk, RecordsOk;
  }

  lemma InvIndexed(j: Journal, config: Config)
    requires Inv(j, config)
    ensures Indexed(j)
  {
    hide Keyed, TableOk, RecordsOk;
  }

  lemma InvRecord(j: Journal, config: Config, k: RecordKey)
    requires Inv(j, config) && k in j.records
    ensures Sound(j.records[k], config) && KeyOf(j.records[k]) == k && k in j.order
  {
    hide TableOk, Sound, Fits;
  }

  // ---------------------------------------------------------------- selecting a delivery

  lemma DeliversTransitive(a: ActionRecord, b: ActionRecord, c: ActionRecord)
    requires Delivers(a, b) && Delivers(b, c)
    ensures Delivers(a, c)
  {}

  lemma DeliversAllTransitive(a: Journal, b: Journal, c: Journal)
    requires DeliversAll(a, b) && DeliversAll(b, c)
    ensures DeliversAll(a, c)
  {
    hide Delivers;
    forall k | k in a.records ensures Delivers(a.records[k], c.records[k]) {
      DeliversTransitive(a.records[k], b.records[k], c.records[k]);
    }
  }

  /** Storing a record that a transition moved forward keeps the invariant. */
  lemma StoreDelivers(j: Journal, config: Config, r: ActionRecord, conflicts: map<ConflictKey, OperationId>)
    requires Inv(j, config) && KeyOf(r) in j.records && Delivers(j.records[KeyOf(r)], r)
    requires Sound(r, config) && Fits(r, config)
    requires Holding(r) && !Holding(j.records[KeyOf(r)]) ==> CanAcquire(j.conflicts, r)
    requires conflicts == TableAfter(j, r)
    ensures Inv(Store(j, r, conflicts), config)
    ensures DeliversAll(j, Store(j, r, conflicts))
  {
    hide Inv, Sound, Fits, CanAcquire, TableAfter;
    StoreKeepsInv(j, config, r);
  }

  lemma RetireDelivers(j: Journal, config: Config, k: RecordKey, now: Timestamp)
    requires Inv(j, config) && k in j.records && j.records[k].status == Pending
    requires RetireAction(j.records[k], now).Ok?
    requires ValidRecord(RetireAction(j.records[k], now).value.record, config)
    requires Fits(RetireAction(j.records[k], now).value.record, config)
    ensures var j' := Store(j, RetireAction(j.records[k], now).value.record, Release(j.conflicts, j.records[k]));
            Inv(j', config) && DeliversAll(j, j')
  {
    hide Inv, Prepared, Fits, Release, CanAcquire;
    var record := j.records[k];
    var r := RetireAction(record, now).value.record;
    InvRecord(j, config, k);
    assert Keyed(j) && TableOk(j) by { InvParts(j, config); }
    ReleaseOfFreeRecord(j, record);
    StoreDelivers(j, config, r, Release(j.conflicts, record));
  }

  lemma {:induction false} RetireClosedDelivers(j: Journal, config: Config, request: ClaimRequest,
                                                authority: AuthorityCheck, i: nat, retired: nat)
    requires Inv(j, config) && Indexed(j) && i <= |j.order|
    ensures var o := RetireClosed(j, config, request, authority, i, retired);
            Inv(o.journal, config) && DeliversAll(j, o.journal)
    decreases |j.order| - i
  {
    hide Inv, Prepared, ValidRecord, KnownUnapplied, Fits, Release, InStream, DeliversAll, RetireAction;
    if i == |j.order| {
      DeliversAllReflexive(j);
    } else {
      var k := j.order[i];
      var record := j.records[k];
      DeliversAllReflexive(j);
      if !InStream(record, request.sessionId, request.actorId) || record.status != Pending {
        RetireClosedDelivers(j, config, request, authority, i + 1, retired);
      } else if authority(record.intent.coordinate) == RunOpen {
        RetireClosedDelivers(j, config, request, authority, i + 1, retired);
      } else if authority(record.intent.coordinate) == Closed {
        var o := RetireAction(record, request.claimedAt);
        if o.Ok? && ValidRecord(o.value.record, config) && Fits(o.value.record, config) {
          RetireDelivers(j, config, k, request.claimedAt);
          var j' := Store(j, o.value.record, Release(j.conflicts, record));
          if retired + 1 < request.candidateLimit {
            RetireClosedDelivers(j', config, request, authority, i + 1, retired + 1);
            DeliversAllTransitive(j, j', RetireClosed(j', config, request, authority, i + 1, retired + 1).journal);
          }
        }
      }
    }
  }

  /** Due claims are stored records, each once. */
  ghost predicate StoredOnce(j: Journal, rs: seq<ActionRecord>) {
    && (forall i :: 0 <= i < |rs| ==> KeyOf(rs[i]) in j.records && j.records[KeyOf(rs[i])] == rs[i])
    && (forall a, b :: 0 <= a < b < |rs| ==> KeyOf(rs[a]) != KeyOf(rs[b]))
  }

  lemma ExpireDelivers(j: Journal, config: Config, record: ActionRecord, now: Timestamp)
    requires Inv(j, config) && KeyOf(record) in j.records && j.records[KeyOf(record)] == record
    requires ExpireAction(record, now).Ok? && Fits(ExpireAction(record, now).value.record, config)
    ensures var j' := Store(j, ExpireAction(record, now).value.record, j.conflicts);
            Inv(j', config) && DeliversAll(j, j')
  {
    hide Inv, Prepared, Fits, Release, CanAcquire;
    InvRecord(j, config, KeyOf(record));
    StoreDelivers(j, config, ExpireAction(record, now).value.record, j.conflicts);
  }

  lemma {:induction false} ExpireDueDelivers(j: Journal, config: Config, request: ClaimRequest, authority: AuthorityCheck,
                                             due: seq<ActionRecord>, i: nat, expiry: Expiry)
    requires Inv(j, config) && Indexed(j) && i <= |due| && StoredOnce(j, due[i..])
    ensures var o := ExpireDue(j, config, request, authority, due, i, expiry);
            Inv(o.journal, config) && DeliversAll(j, o.journal)
    decreases |due| - i
  {
    hide Inv, Fits, ExpireAction;
    if i < |due| {
      var record := due[i];
      var run := authority(record.intent.coordinate);
      assert due[i..][0] == record && due[i..][1..] == due[i + 1..];
      if record.intent.replayPolicy == Safe && run == Fault {
      } else if record.intent.replayPolicy == Safe && run == RunOpen {
        ExpireDueDelivers(j, config, request, authority, due, i + 1,
                          expiry.(replayable := expiry.replayable + {record.intent.operationId}));
      } else {
        var o := ExpireAction(record, request.claimedAt);
        if o.Ok? && Fits(o.value.record, config) {
          ExpireDelivers(j, config, record, request.claimedAt);
          var j' := Store(j, o.value.record, j.conflicts);
          ExpiredKey(record, request.claimedAt);
          InvIndexed(j', config);
          ExpireDueDelivers(j', config, request, authority, due, i + 1, expiry.(changed := true));
          DeliversAllTransitive(j, j', ExpireDue(j', config, request, authority, due, i + 1, expiry.(changed := true)).journal);
        }
      }
    }
  }

  lemma ExpiredKey(record: ActionRecord, now: Timestamp)
    requires ExpireAction(record, now).Ok?
    ensures KeyOf(ExpireAction(record, now).value.record) == KeyOf(record)
  {}

  lemma {:induction false} DueClaimsSound(j: Journal, request: ClaimRequest, n: nat)
    requires Keyed(j) && Indexed(j) && n <= |j.order|
    ensures forall r :: r in DueClaims(j, request, n) ==>
              KeyOf(r) in j.order[..n] && KeyOf(r) in j.records && j.records[KeyOf(r)] == r && Due(r, request)
  {
    hide Due;
    if n > 0 {
      DueClaimsSound(j, request, n - 1);
      assert j.order[..n] == j.order[..n - 1] + [j.order[n - 1]];
    }
  }

  lemma {:induction false} DueClaimsStoredOnce(j: Journal, request: ClaimRequest, n: nat)
    requires Distinct(j.order) && Keyed(j) && Indexed(j) && n <= |j.order|
    ensures StoredOnce(j, DueClaims(j, request, n))
  {
    hide Due, Keyed;
    DueClaimsSound(j, request, n);
    if n > 0 {
      DueClaimsSound(j, request, n - 1);
      DueClaimsStoredOnce(j, request, n - 1);
      var front := DueClaims(j, request, n - 1);
      forall a | 0 <= a < |front| ensures KeyOf(front[a]) != j.order[n - 1] {
        assert front[a] in front;
      }
      assert j.order[n - 1] in j.order;
      assert KeyOf(j.records[j.order[n - 1]]) == j.order[n - 1] by { KeyedAt(j, j.order[n - 1]); }
    }
  }

  lemma KeyedAt(j: Journal, k: RecordKey)
    requires Keyed(j) && k in j.records
    ensures KeyOf(j.records[k]) == k
  {}

  lemma ExpiringStoredOnce(j: Journal, config: Config, request: ClaimRequest)
    requires Inv(j, config) && Indexed(j)
    ensures StoredOnce(j, Expiring(j, request))
  {
    hide TableOk, RecordsOk, Due, StoredOnce;
    var due := DueClaims(j, request, |j.order|);
    DueClaimsStoredOnce(j, request, |j.order|);
    SortIsSorted(due, ExpiryRank);
    PermutationStoredOnce(j, due, Sort(due, ExpiryRank));
    TakeStoredOnce(j, Sort(due, ExpiryRank), if request.candidateLimit > 0 then request.candidateLimit else 0);
  }

  lemma TakeStoredOnce(j: Journal, rs: seq<ActionRecord>, n: nat)
    requires StoredOnce(j, rs)
    ensures StoredOnce(j, Take(rs, n))
  {}

  lemma PermutationStoredOnce(j: Journal, xs: seq<ActionRecord>, ys: seq<ActionRecord>)
    requires StoredOnce(j, xs) && multiset(ys) == multiset(xs)
    ensures StoredOnce(j, ys)
  {
    forall i | 0 <= i < |ys| ensures KeyOf(ys[i]) in j.records && j.records[KeyOf(ys[i])] == ys[i] {
      assert ys[i] in multiset(xs);
    }
    forall a, b | 0 <= a < b < |ys| ensures KeyOf(ys[a]) != KeyOf(ys[b]) {
      if ys[a] == ys[b] {
        TwiceInMultiset(ys, a, b);
        OnceInMultiset(xs, ys[a]);
      }
    }
  }

  lemma TwiceInMultiset<T>(xs: seq<T>, a: nat, b: nat)
    requires a < b < |xs| && xs[a] == xs[b]
    ensures multiset(xs)[xs[a]] >= 2
  {
    assert xs == xs[..b] + [xs[b]] + xs[b + 1..];
    assert xs[a] in multiset(xs[..b]) by { assert xs[..b][a] == xs[a]; }
  }

  lemma {:induction false} OnceInMultiset<T>(xs: seq<T>, x: T)
    requires Distinct(xs)
    ensures multiset(xs)[x] <= 1
  {
    if xs != [] {
      var front, last := xs[..|xs| - 1], xs[|xs| - 1];
      assert xs == front + [last];
      OnceInMultiset(front, x);
      assert last !in front;
    }
  }

  // ---------------------------------------------------------------- claiming and the whole selection

  lemma ClaimDelivers(j: Journal, config: Config, record: ActionRecord, request: ClaimRequest)
    requires Inv(j, config) && KeyOf(record) in j.records && j.records[KeyOf(record)] == record
    requires ClaimAction(record, request).Ok? && CanAcquire(j.conflicts, record)
    requires Fits(ClaimAction(record, request).value.record, config)
    ensures var r := ClaimAction(record, request).value.record;
            var j' := Store(j, r, Acquire(j.conflicts, r));
            Inv(j', config) && DeliversAll(j, j')
  {
    hide Inv, Prepared, Fits, Acquire;
    InvRecord(j, config, KeyOf(record));
    var r := ClaimAction(record, request).value.record;
    assert ConflictKeysOf(r) == ConflictKeysOf(record);
    StoreDelivers(j, config, r, Acquire(j.conflicts, r));
  }

  lemma ReclaimDelivers(j: Journal, config: Config, record: ActionRecord, request: ClaimRequest)
    requires Inv(j, config) && KeyOf(record) in j.records && j.records[KeyOf(record)] == record
    requires ReclaimAction(record, request).Ok?
    requires Fits(ReclaimAction(record, request).value.record, config)
    ensures var r := ReclaimAction(record, request).value.record;
            var j' := Store(j, r, Acquire(Release(j.conflicts, record), r));
            Inv(j', config) && DeliversAll(j, j')
  {
    hide Inv, Prepared, Fits, Acquire, Release, CanAcquire, TableOk, Keyed, OrderOk, RecordsOk;
    InvRecord(j, config, KeyOf(record));
    var r := ReclaimAction(record, request).value.record;
    InvParts(j, config);
    ReacquireOfHolder(j, record, r);
    StoreDelivers(j, config, r, j.conflicts);
  }

  lemma DeliversAllReflexive(j: Journal)
    ensures DeliversAll(j, j)
  {}

  lemma {:induction false} ClaimPendingDelivers(j: Journal, config: Config, request: ClaimRequest, authority: AuthorityCheck,
                                                replayable: set<OperationId>, i: nat, scanned: nat)
    requires Inv(j, config) && Indexed(j) && i <= |j.order|
    ensures var o := ClaimPending(j, config, request, authority, replayable, i, scanned);
            Inv(o.journal, config) && DeliversAll(j, o.journal)
    decreases |j.order| - i
  {
    hide Inv, ValidRecord, Fits, Release, Acquire, CanAcquire, ClaimAction, ReclaimAction, DeliversAll, Sound, InStream, InRun;
    DeliversAllReflexive(j);
    if i < |j.order| {
      var record := j.records[j.order[i]];
      var replay := record.intent.operationId in replayable;
      InvRecord(j, config, j.order[i]);
      if !InStream(record, request.sessionId, request.actorId) || !InRun(record, request.runId)
         || (record.status != Pending && !replay) {
        ClaimPendingDelivers(j, config, request, authority, replayable, i + 1, scanned);
      } else if scanned + 1 <= request.candidateLimit && authority(record.intent.coordinate) != Fault {
        if authority(record.intent.coordinate) == Closed || !CanAcquire(j.conflicts, record) {
          ClaimPendingDelivers(j, config, request, authority, replayable, i + 1, scanned + 1);
        } else if replay {
          var o := ReclaimAction(record, request);
          if o.Ok? && Fits(o.value.record, config) { ReclaimDelivers(j, config, record, request); }
        } else {
          var o := ClaimAction(record, request);
          if o.Ok? && Fits(o.value.record, config) { ClaimDelivers(j, config, record, request); }
        }
      }
    }
  }

  /** Selecting a delivery keeps the invariant, on every path that throws too, and only moves records forward. */
  lemma NextKeepsInv(j: Journal, config: Config, request: ClaimRequest, authority: AuthorityCheck)
    requires Inv(j, config) && Indexed(j)
    ensures Inv(Next(j, config, request, authority).journal, config)
    ensures DeliversAll(j, Next(j, config, request, authority).journal)
  {
    hide Inv, RetireClosed, ExpireDue, Expiring, ClaimPending, OldestUnsettled, DeliversAll, StoredOnce;
    DeliversAllReflexive(j);
    if ValidClaimRequest(request) {
      var retire := RetireClosed(j, config, request, authority, 0, 0);
      RetireClosedDelivers(j, config, request, authority, 0, 0);
      if retire.result.Ok? {
        var j1 := retire.journal;
        InvIndexed(j1, config);
        var due := Expiring(j1, request);
        ExpiringStoredOnce(j1, config, request);
        assert due[0..] == due;
        var expire := ExpireDue(j1, config, request, authority, due, 0, Expiry({}, false));
        ExpireDueDelivers(j1, config, request, authority, due, 0, Expiry({}, false));
        DeliversAllTransitive(j, j1, expire.journal);
        if expire.result.Ok? {
          var j2 := expire.journal;
          InvIndexed(j2, config);
          ClaimPendingDelivers(j2, config, request, authority, expire.result.value.replayable, 0, 0);
          DeliversAllTransitive(j, j2, ClaimPending(j2, config, request, authority, expire.result.value.replayable, 0, 0).journal);
        }
      }
    }
  }

  // ---------------------------------------------------------------- every operation

  lemma DeliversEvolves(j: Journal, j': Journal, config: Config)
    requires Inv(j, config) && DeliversAll(j, j')
    ensures Evolves(j, j')
  {
    hide Keyed, TableOk, RecordsOk, Advances;
  }

  lemma StoreEvolves(j: Journal, config: Config, r: ActionRecord, conflicts: map<ConflictKey, OperationId>)
    requires Inv(j, config) && KeyOf(r) in j.records && Advances(j.records[KeyOf(r)], r)
    ensures Evolves(j, Store(j, r, conflicts))
  {
    hide Keyed, TableOk, RecordsOk;
  }

  lemma EnsureKeepsInv(j: Journal, config: Config, intent: Intent, now: Timestamp, authority: AuthorityCheck)
    requires Inv(j, config) && Indexed(j)
    ensures Inv(Ensure(j, config, intent, now, authority).journal, config)
    ensures Evolves(j, Ensure(j, config, intent, now, authority).journal)
  {
    hide Inv, TableOk, Keyed, OrderOk, RecordsOk, Evolves, ValidRecord, AwaitingGoals, Fits;
    var j' := Ensure(j, config, intent, now, authority).journal;
    InvParts(j, config);
    if j' == j {
      DeliversAllReflexive(j);
      DeliversEvolves(j, j, config);
    } else {
      var record := Admitted(intent, now);
      assert ValidRecord(record, config) && Fits(record, config);
      AdmitKeepsInv(j, config, record);
    }
  }

  lemma AdmitKeepsOrder(j: Journal, record: ActionRecord)
    requires OrderOk(j) && KeyOf(record) !in j.records
    ensures OrderOk(Admit(j, record))
  {
    hide Distinct;
    var j' := Admit(j, record);
    OrderPush(j.order, KeyOf(record));
    forall a, b | 0 <= a < b < |j'.order| && j'.order[a] in j'.sequences && j'.order[b] in j'.sequences
      ensures j'.sequences[j'.order[a]] < j'.sequences[j'.order[b]]
    {
      assert j'.order[a] == j.order[a] && j.order[a] in j.order;
      if b < |j.order| { assert j'.order[b] == j.order[b] && j.order[b] in j.order; }
    }
  }

  lemma OrderPush(order: seq<RecordKey>, key: RecordKey)
    requires Distinct(order) && key !in order
    ensures Distinct(order + [key])
  {}

  lemma AdmitKeepsTable(j: Journal, record: ActionRecord)
    requires Keyed(j) && TableOk(j) && KeyOf(record) !in j.records && !Holding(record)
    requires KeyOf(record) == OwnerKey(record.intent.operationId)
    ensures Keyed(Admit(j, record)) && TableOk(Admit(j, record))
  {
    var j' := Admit(j, record);
    forall c | c in j'.conflicts ensures Held(j', c) { assert Held(j, c); }
    forall k | k in j'.records && Holding(j'.records[k]) ensures Owns(j', j'.records[k]) { assert Owns(j, j.records[k]); }
  }

  lemma AdmitKeepsRecords(j: Journal, config: Config, record: ActionRecord)
    requires RecordsOk(j, config) && Sound(record, config) && Fits(record, config)
    ensures RecordsOk(Admit(j, record), config)
  {
    hide Sound, Fits;
  }

  lemma AdmittedSound(record: ActionRecord, config: Config)
    requires ValidRecord(record, config) && record.attempt == 0 && record.status == Pending && record.receipt.None?
    ensures Sound(record, config)
  {
    hide Prepared;
  }

  lemma AdmitKeepsInv(j: Journal, config: Config, record: ActionRecord)
    requires OrderOk(j) && Keyed(j) && TableOk(j) && RecordsOk(j, config)
    requires KeyOf(record) !in j.records && ValidRecord(record, config) && Fits(record, config)
    requires record.attempt == 0 && record.status == Pending && record.receipt.None?
    ensures Inv(Admit(j, record), config) && Evolves(j, Admit(j, record))
  {
    hide ValidRecord, Sound, Fits, Keyed, TableOk, RecordsOk, OrderOk, Evolves;
    AdmittedSound(record, config);
    SoundKey(record, config);
    AdmitKeepsOrder(j, record);
    AdmitKeepsTable(j, record);
    AdmitKeepsRecords(j, config, record);
    AdmitEvolves(j, record);
  }

  lemma AdmitEvolves(j: Journal, record: ActionRecord)
    requires OrderOk(j) && KeyOf(record) !in j.records && record.attempt == 0 && record.receipt.None?
    ensures Evolves(j, Admit(j, record))
  {}

  /** The table that Commit stores is the one the invariant needs. */
  lemma CommitKeepsInv(j: Journal, config: Config, record: ActionRecord, t: Transition)
    requires Inv(j, config) && KeyOf(record) in j.records && j.records[KeyOf(record)] == record
    requires t.changed ==> Sound(t.record, config) && Advances(record, t.record) && !(Holding(t.record) && !Holding(record))
    requires t.changed && Holding(record) ==> (t.releaseConflicts <==> !Holding(t.record))
    ensures Inv(Commit(j, config, record, t).journal, config)
    ensures Evolves(j, Commit(j, config, record, t).journal)
  {
    hide Inv, Sound, Fits, OrderOk, Keyed, TableOk, RecordsOk, Evolves, Release;
    if t.changed && Fits(t.record, config) {
      InvParts(j, config);
      if !Holding(record) { ReleaseOfFreeRecord(j, record); }
      StoreKeepsInv(j, config, t.record);
      StoreEvolves(j, config, t.record, if t.releaseConflicts then Release(j.conflicts, record) else j.conflicts);
    } else {
      DeliversAllReflexive(j);
      DeliversEvolves(j, j, config);
    }
  }

  lemma UnchangedEvolves(j: Journal, config: Config)
    requires Inv(j, config)
    ensures Evolves(j, j)
  {
    hide Inv, Evolves;
    DeliversAllReflexive(j);
    DeliversEvolves(j, j, config);
  }

  lemma ReceiptAdvances(r: ActionRecord, input: ReceiptInput, config: Config)
    requires Sound(r, config) && ReceiptAction(r, input).Ok?
    ensures Advances(r, ReceiptAction(r, input).value.record)
  {}

  lemma RecordReceiptKeepsInv(j: Journal, config: Config, input: ReceiptInput)
    requires Inv(j, config)
    ensures Inv(RecordReceipt(j, config, input).journal, config)
    ensures Evolves(j, RecordReceipt(j, config, input).journal)
  {
    hide Inv, Evolves, Sound, Fits, Advances, ReceiptAction, Commit;
    UnchangedEvolves(j, config);
    var key := RecordKey(input.sessionId, input.actorId, input.operationId);
    if key in j.records {
      InvRecord(j, config, key);
      var record := j.records[key];
      ReceiptKeepsSound(record, input, config);
      if ReceiptAction(record, input).Ok? {
        ReceiptAdvances(record, input, config);
        CommitKeepsInv(j, config, record, ReceiptAction(record, input).value);
      }
    }
  }

  lemma ReconcileAdvances(r: ActionRecord, input: ReconcileInput, config: Config)
    requires Sound(r, config) && ReconcileAction(r, input).Ok?
    ensures Advances(r, ReconcileAction(r, input).value.record)
  {}

  lemma RetireAfterReconcile(r: ActionRecord, t: ActionRecord, now: Timestamp, config: Config)
    requires Sound(r, config) && Sound(t, config) && Advances(r, t) && t.attempt == r.attempt && RetireAction(t, now).Ok?
    ensures Sound(RetireAction(t, now).value.record, config) && Advances(r, RetireAction(t, now).value.record)
    ensures !Holding(RetireAction(t, now).value.record)
  {}

  lemma ReconcileKeepsAttempt(r: ActionRecord, input: ReconcileInput)
    requires ReconcileAction(r, input).Ok?
    ensures ReconcileAction(r, input).value.record.attempt == r.attempt
  {}

  lemma ReconcileKeepsInv(j: Journal, config: Config, input: ReconcileInput, authority: AuthorityCheck)
    requires Inv(j, config)
    ensures Inv(Reconcile(j, config, input, authority).journal, config)
    ensures Evolves(j, Reconcile(j, config, input, authority).journal)
  {
    hide Inv, Evolves, Sound, Fits, Advances, ReconcileAction, RetireAction, Commit;
    UnchangedEvolves(j, config);
    var key := RecordKey(input.sessionId, input.actorId, input.operationId);
    if key in j.records {
      InvRecord(j, config, key);
      var record := j.records[key];
      ReconcileKeepsSound(record, input, config);
      if ReconcileAction(record, input).Ok? {
        var t := ReconcileAction(record, input).value;
        ReconcileAdvances(record, input, config);
        ReconcileKeepsAttempt(record, input);
        if t.record.status != Pending || authority(record.intent.coordinate) == RunOpen {
          CommitKeepsInv(j, config, record, t);
        } else if authority(record.intent.coordinate) == Closed && RetireAction(t.record, input.reconciledAt).Ok? {
          RetireAfterReconcile(record, t.record, input.reconciledAt, config);
          CommitKeepsInv(j, config, record,
                         Transition(RetireAction(t.record, input.reconciledAt).value.record, t.releaseConflicts, true));
        }
      }
    }
  }

  lemma SettleAdvances(r: ActionRecord, input: SettlementInput, config: Config)
    requires Sound(r, config) && SettleAction(r, input).Ok? && SettleAction(r, input).value.changed
    requires ValidRecord(SettleAction(r, input).value.record, config)
    ensures var t := SettleAction(r, input).value;
            Sound(t.record, config) && Advances(r, t.record) && !Holding(t.record) && !Holding(r)
  {}

  lemma SettleKeepsInv(j: Journal, config: Config, input: SettlementInput)
    requires Inv(j, config)
    ensures Inv(Settle(j, config, input).journal, config)
    ensures Evolves(j, Settle(j, config, input).journal)
  {
    hide Inv, Evolves, Sound, ValidRecord, Fits, Advances, SettleAction, Commit;
    UnchangedEvolves(j, config);
    var key := RecordKey(input.sessionId, input.actorId, input.operationId);
    if config.limits.Some? && key in j.records {
      InvRecord(j, config, key);
      var record := j.records[key];
      var o := SettleAction(record, input);
      if o.Ok? && (!o.value.changed || ValidRecord(o.value.record, config)) {
        if o.value.changed { SettleAdvances(record, input, config); }
        CommitKeepsInv(j, config, record, o.value);
      }
    }
  }
}
