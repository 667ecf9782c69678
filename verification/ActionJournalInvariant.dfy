/** The journal invariant, which links the record map, the conflict table and the admission sequences. */
module ActionJournalInvariant {
  import opened Wrappers
  import opened ActionRecords
  import opened StableSort
  import opened ActionJournal

  ghost predicate OrderOk(j: Journal) {
    && Distinct(j.order)
    && (forall k :: k in j.order <==> k in j.records)
    && j.sequences.Keys == j.records.Keys
    && (forall k :: k in j.sequences ==> 1 <= j.sequences[k] <= j.nextSequence)
    && (forall a, b :: 0 <= a < b < |j.order| && j.order[a] in j.sequences && j.order[b] in j.sequences ==>
          j.sequences[j.order[a]] < j.sequences[j.order[b]])
  }

  /** Every record is stored under its own key, which its operation identifier determines. */
  ghost predicate Keyed(j: Journal) {
    forall k :: k in j.records ==>
      KeyOf(j.records[k]) == k && OwnerKey(j.records[k].intent.operationId) == k
  }

  ghost predicate RecordsOk(j: Journal, config: Config) {
    forall k :: k in j.records ==> Sound(j.records[k], config) && Fits(j.records[k], config)
  }

  /** The record that owns conflict key c is stored, holds its keys, and c is one of them. */
  ghost predicate Held(j: Journal, c: ConflictKey)
    requires c in j.conflicts
  {
    var key := OwnerKey(j.conflicts[c]);
    key in j.records && Holding(j.records[key]) && c in ConflictKeysOf(j.records[key])
  }

  ghost predicate Owns(j: Journal, r: ActionRecord) {
    forall c :: c in ConflictKeysOf(r) ==> c in j.conflicts && j.conflicts[c] == r.intent.operationId
  }

  /** The table holds exactly the conflict keys of claimed and uncertain records, each mapped to its owner. */
  ghost predicate TableOk(j: Journal) {
    && (forall c :: c in j.conflicts ==> Held(j, c))
    && (forall k :: k in j.records && Holding(j.records[k]) ==> Owns(j, j.records[k]))
  }

  ghost predicate Inv(j: Journal, config: Config) {
    OrderOk(j) && Keyed(j) && TableOk(j) && RecordsOk(j, config)
  }

  /** No two holding records of one session share a conflict key. */
  lemma HoldersExclude(j: Journal, a: RecordKey, b: RecordKey)
    requires Keyed(j) && TableOk(j) && a in j.records && b in j.records && a != b
    requires Holding(j.records[a]) && Holding(j.records[b]) && a.sessionId == b.sessionId
    ensures ConflictKeysOf(j.records[a]) !! ConflictKeysOf(j.records[b])
    ensures forall k :: k in j.records[a].intent.conflictKeys ==> k !in j.records[b].intent.conflictKeys
  {
    var ra, rb := j.records[a], j.records[b];
    assert Owns(j, ra) && Owns(j, rb) && ra.intent.operationId != rb.intent.operationId;
    forall k | k in ra.intent.conflictKeys ensures k !in rb.intent.conflictKeys {
      var c := ConflictKey(a.sessionId, k);
      assert c in ConflictKeysOf(ra);
      assert c !in ConflictKeysOf(rb);
    }
  }

  // ---------------------------------------------------------------- storing one record

  lemma SoundKey(r: ActionRecord, config: Config)
    requires Sound(r, config)
    ensures KeyOf(r) == OwnerKey(r.intent.operationId)
  {}

  lemma ReleaseOfFreeRecord(j: Journal, r: ActionRecord)
    requires Keyed(j) && TableOk(j) && KeyOf(r) in j.records && j.records[KeyOf(r)] == r && !Holding(r)
    ensures Release(j.conflicts, r) == j.conflicts
  {
    forall c | c in j.conflicts ensures !(c in ConflictKeysOf(r) && j.conflicts[c] == r.intent.operationId) {
      assert Held(j, c);
    }
  }

  lemma ReacquireOfHolder(j: Journal, before: ActionRecord, r: ActionRecord)
    requires TableOk(j) && KeyOf(before) in j.records && j.records[KeyOf(before)] == before && Holding(before)
    requires r.intent == before.intent
    ensures Acquire(Release(j.conflicts, before), r) == j.conflicts
  {
    assert Owns(j, before);
  }

  /** The conflict table that goes with replacing a stored record by r. */
  ghost function TableAfter(j: Journal, r: ActionRecord): map<ConflictKey, OperationId>
    requires KeyOf(r) in j.records
  {
    var before := j.records[KeyOf(r)];
    if Holding(before) == Holding(r) then j.conflicts
    else if Holding(r) then Acquire(j.conflicts, r)
    else Release(j.conflicts, before)
  }

  lemma StoreKeepsOwners(j: Journal, r: ActionRecord, k: RecordKey)
    requires Keyed(j) && TableOk(j) && KeyOf(r) in j.records && j.records[KeyOf(r)].intent == r.intent
    requires Holding(r) && !Holding(j.records[KeyOf(r)]) ==> CanAcquire(j.conflicts, r)
    requires k in j.records && k != KeyOf(r) && Holding(j.records[k])
    ensures Owns(Store(j, r, TableAfter(j, r)), j.records[k])
  {
    var j' := Store(j, r, TableAfter(j, r));
    assert Owns(j, j.records[k]);
    forall c | c in ConflictKeysOf(j.records[k])
      ensures c in j'.conflicts && j'.conflicts[c] == j.records[k].intent.operationId
    {
      assert j.conflicts[c] != r.intent.operationId;
    }
  }

  lemma StoreKeepsHeld(j: Journal, r: ActionRecord, c: ConflictKey)
    requires Keyed(j) && TableOk(j) && KeyOf(r) in j.records && j.records[KeyOf(r)].intent == r.intent
    requires c in TableAfter(j, r)
    ensures Held(Store(j, r, TableAfter(j, r)), c)
  {
    hide Owns;
    assert ConflictKeysOf(j.records[KeyOf(r)]) == ConflictKeysOf(r);
    if c in j.conflicts { assert Held(j, c); }
  }

  lemma StoreKeepsOwn(j: Journal, r: ActionRecord)
    requires Keyed(j) && TableOk(j) && KeyOf(r) in j.records && j.records[KeyOf(r)].intent == r.intent && Holding(r)
    ensures Owns(Store(j, r, TableAfter(j, r)), r)
  {
    hide Held;
    var before := j.records[KeyOf(r)];
    assert ConflictKeysOf(before) == ConflictKeysOf(r);
    if Holding(before) { assert Owns(j, before); }
  }

  lemma StoreKeepsTable(j: Journal, r: ActionRecord)
    requires Keyed(j) && TableOk(j) && KeyOf(r) in j.records && j.records[KeyOf(r)].intent == r.intent
    requires Holding(r) && !Holding(j.records[KeyOf(r)]) ==> CanAcquire(j.conflicts, r)
    ensures Keyed(Store(j, r, TableAfter(j, r)))
    ensures TableOk(Store(j, r, TableAfter(j, r)))
  {
    hide Held, Owns, TableAfter, CanAcquire;
    var j' := Store(j, r, TableAfter(j, r));
    forall c | c in j'.conflicts ensures Held(j', c) { StoreKeepsHeld(j, r, c); }
    forall k | k in j'.records && Holding(j'.records[k]) ensures Owns(j', j'.records[k]) {
      if k != KeyOf(r) { StoreKeepsOwners(j, r, k); } else { StoreKeepsOwn(j, r); }
    }
  }

  lemma StoreKeepsOrder(j: Journal, r: ActionRecord, conflicts: map<ConflictKey, OperationId>)
    requires OrderOk(j) && KeyOf(r) in j.records
    ensures OrderOk(Store(j, r, conflicts))
  {
    assert Store(j, r, conflicts).records.Keys == j.records.Keys;
  }

  lemma StoreKeepsRecords(j: Journal, config: Config, r: ActionRecord, conflicts: map<ConflictKey, OperationId>)
    requires RecordsOk(j, config) && Sound(r, config) && Fits(r, config)
    ensures RecordsOk(Store(j, r, conflicts), config)
  {
    hide Sound, Fits;
  }

  lemma StoreKeepsInv(j: Journal, config: Config, r: ActionRecord)
    requires Inv(j, config) && KeyOf(r) in j.records && j.records[KeyOf(r)].intent == r.intent
    requires Sound(r, config) && Fits(r, config)
    requires Holding(r) && !Holding(j.records[KeyOf(r)]) ==> CanAcquire(j.conflicts, r)
    ensures Inv(Store(j, r, TableAfter(j, r)), config)
  {
    hide Sound, Fits, OrderOk, RecordsOk, Keyed, TableOk;
    StoreKeepsTable(j, r);
    StoreKeepsOrder(j, r, TableAfter(j, r));
    StoreKeepsRecords(j, config, r, TableAfter(j, r));
  }
}
