/** Purging, and what holds over whole runs of the journal. */
module ActionJournalRuns {
  import opened Wrappers
  import opened ActionRecords
  import opened StableSort
  import opened ActionJournal
  import opened ActionJournalInvariant
  import opened ActionJournalSteps

  // ---------------------------------------------------------------- purging

  /** Each candidate is a stored purgeable record with its admission sequence. */
  ghost predicate Candidate(j: Journal, request: PurgeRequest, c: Ranked) {
    var k := KeyOf(c.record);
    && k in j.records && j.records[k] == c.record && k in j.sequences && j.sequences[k] == c.sequence
    && Purgeable(c.record, request)
  }

  lemma {:induction false} PurgeCandidatesExact(j: Journal, request: PurgeRequest, n: nat)
    requires Keyed(j) && Indexed(j) && n <= |j.order| && j.sequences.Keys == j.records.Keys
    ensures forall c :: c in PurgeCandidates(j, request, n) ==> Candidate(j, request, c)
    ensures forall i :: 0 <= i < n && Purgeable(j.records[j.order[i]], request) ==>
              Ranked(j.records[j.order[i]], j.sequences[j.order[i]]) in PurgeCandidates(j, request, n)
  {
    hide Purgeable;
    if n > 0 {
      PurgeCandidatesExact(j, request, n - 1);
      KeyedAt(j, j.order[n - 1]);
    }
  }

  /** The record was not updated before the other one, or was admitted before it when both were updated at once. */
  predicate NotOlder(x: Ranked, c: Ranked) {
    x.record.updatedAt > c.record.updatedAt || (x.record.updatedAt == c.record.updatedAt && x.sequence >= c.sequence)
  }

  lemma AgeRanks()
    ensures forall x, c :: !Before(AgeRank(x), AgeRank(c)) <==> NotOlder(x, c)
  {}

  /** The purge takes purgeable records only, at most limit of them, and a purgeable record is left only when the
      limit is reached and nothing taken ranks behind it. */
  lemma PurgedAreOldest(j: Journal, request: PurgeRequest, c: Ranked)
    requires OrderOk(j) && Keyed(j) && Indexed(j) && c in Purged(j, request)
    ensures Candidate(j, request, c)
    ensures |Purged(j, request)| <= request.limit
    ensures forall x :: Candidate(j, request, x) && x !in Purged(j, request) ==>
              |Purged(j, request)| == request.limit && NotOlder(x, c)
  {
    hide Candidate, AgeRank, NotOlder;
    AgeRanks();
    var all := PurgeCandidates(j, request, |j.order|);
    PurgeCandidatesExact(j, request, |j.order|);
    FirstAreLeast(all, AgeRank, request.limit, c);
    forall x | Candidate(j, request, x) ensures x in all {
      CandidateListed(j, request, x);
    }
  }

  lemma CandidateListed(j: Journal, request: PurgeRequest, x: Ranked)
    requires OrderOk(j) && Keyed(j) && Indexed(j) && Candidate(j, request, x)
    ensures x in PurgeCandidates(j, request, |j.order|)
  {
    PurgeCandidatesExact(j, request, |j.order|);
    var k := KeyOf(x.record);
    assert k in j.order;
    var i :| 0 <= i < |j.order| && j.order[i] == k;
  }

  lemma {:induction false} WithoutKeepsOrder(order: seq<RecordKey>, key: RecordKey, sequences: map<RecordKey, nat>)
    requires Distinct(order) && forall k :: k in order ==> k in sequences
    requires forall a, b :: 0 <= a < b < |order| ==> sequences[order[a]] < sequences[order[b]]
    ensures Distinct(Without(order, key))
    ensures forall a, b :: 0 <= a < b < |Without(order, key)| ==>
              sequences[Without(order, key)[a]] < sequences[Without(order, key)[b]]
  {
    if order != [] {
      var front, last := order[..|order| - 1], order[|order| - 1];
      WithoutKeepsOrder(front, key, sequences);
      var rest := Without(front, key);
      forall a | 0 <= a < |rest| ensures rest[a] != last && sequences[rest[a]] < sequences[last] {
        assert rest[a] in front;
        var i :| 0 <= i < |front| && front[i] == rest[a];
        assert order[i] == rest[a];
      }
    }
  }

  lemma RemoveKeepsOrder(j: Journal, r: ActionRecord)
    requires OrderOk(j)
    ensures OrderOk(Remove(j, r))
  {
    WithoutKeepsOrder(j.order, KeyOf(r), j.sequences);
  }

  /** Purging terminal records drops exactly them and leaves the conflict table alone. */
  lemma {:induction false} RemoveAllShape(j: Journal, purged: seq<Ranked>)
    requires OrderOk(j) && Keyed(j) && TableOk(j)
    requires forall c :: c in purged ==>
               KeyOf(c.record) in j.records && j.records[KeyOf(c.record)] == c.record && !Holding(c.record)
    ensures var j' := RemoveAll(j, purged);
            && OrderOk(j') && j'.conflicts == j.conflicts && j'.nextSequence == j.nextSequence
            && (forall k :: k in j'.records <==> k in j.records && forall c :: c in purged ==> KeyOf(c.record) != k)
            && (forall k :: k in j'.records ==> j'.records[k] == j.records[k] && j'.sequences[k] == j.sequences[k])
  {
    if purged != [] {
      var front, last := purged[..|purged| - 1], purged[|purged| - 1];
      assert purged == front + [last];
      assert forall c :: c in purged <==> c in front || c == last;
      RemoveAllShape(j, front);
      RemoveKeepsOrder(RemoveAll(j, front), last.record);
      assert last in purged;
      ReleaseOfFreeRecord(j, last.record);
    }
  }

  /** What a purge leaves: every record but the purged ones, unchanged, and the conflict table. */
  lemma PurgeShape(j: Journal, request: PurgeRequest)
    requires OrderOk(j) && Keyed(j) && TableOk(j) && Indexed(j)
    ensures var j' := Purge(j, request);
      && OrderOk(j') && j'.conflicts == j.conflicts && j'.nextSequence == j.nextSequence
      && (forall k :: k in j'.records ==> k in j.records && j'.records[k] == j.records[k] && j'.sequences[k] == j.sequences[k])
      && (forall k :: k in j.records && k !in j'.records ==> Purgeable(j.records[k], request))
  {
    hide TableOk, Keyed, OrderOk;
    var purged := Purged(j, request);
    forall c | c in purged ensures Candidate(j, request, c) {
      hide Candidate;
      PurgedAreOldest(j, request, c);
    }
    RemoveAllShape(j, purged);
  }

  lemma PurgeKeepsInv(j: Journal, config: Config, request: PurgeRequest)
    requires Inv(j, config) && Indexed(j)
    ensures Inv(Purge(j, request), config)
    ensures Evolves(j, Purge(j, request))
    ensures forall k :: k in j.records && k !in Purge(j, request).records ==> Purgeable(j.records[k], request)
  {
    hide OrderOk, Keyed, TableOk, RecordsOk, Evolves, Purge, Purgeable;
    PurgeShape(j, request);
    assert forall k :: k in j.records && Holding(j.records[k]) ==> k in Purge(j, request).records by { PurgeableFree(request); }
    PurgeKeepsTable(j, Purge(j, request));
    KeptRecords(j, Purge(j, request), config);
  }

  lemma PurgeableFree(request: PurgeRequest)
    ensures forall r :: Purgeable(r, request) ==> !Holding(r)
  {}

  lemma KeptRecords(j: Journal, j': Journal, config: Config)
    requires RecordsOk(j, config) && OrderOk(j) && OrderOk(j') && j.nextSequence == j'.nextSequence
    requires forall k :: k in j'.records ==> k in j.records && j'.records[k] == j.records[k] && j'.sequences[k] == j.sequences[k]
    ensures RecordsOk(j', config) && Evolves(j, j')
  {
    hide Sound, Fits;
  }

  lemma PurgeKeepsTable(j: Journal, j': Journal)
    requires Keyed(j) && TableOk(j) && j'.conflicts == j.conflicts
    requires forall k :: k in j'.records ==> k in j.records && j'.records[k] == j.records[k]
    requires forall k :: k in j.records && Holding(j.records[k]) ==> k in j'.records
    ensures Keyed(j') && TableOk(j')
  {
    forall c | c in j'.conflicts ensures Held(j', c) { assert Held(j, c); }
    forall k | k in j'.records && Holding(j'.records[k]) ensures Owns(j', j'.records[k]) { assert Owns(j, j.records[k]); }
  }

  /** The limit of what a run guarantees: a purged action was not retained, and when it is ensured again it is admitted
      anew and starts over at attempt zero, even when it had succeeded. A goal may lack the capacity for that, and a
      closed run refuses it; nothing else does. */
  lemma PurgedWorkStartsOver(j: Journal, config: Config, request: PurgeRequest, k: RecordKey,
                             now: Timestamp, authority: AuthorityCheck)
    requires Inv(j, config) && Indexed(j) && k in j.records && k !in Purge(j, request).records
    requires Indexed(Purge(j, request))
    ensures var intent := j.records[k].intent;
            var again := Ensure(Purge(j, request), config, intent, now, authority);
            && intent.operationId !in request.retain
            && Purge(j, request).nextSequence == j.nextSequence && Admitted(intent, now).attempt == 0
            && (again.result.Ok? ==>
                  again == Outcome(Admit(Purge(j, request), Admitted(intent, now)), Ok(Admitted(intent, now))))
            && (intent.goalProjection.None? ==> (again.result.Ok? <==> authority(intent.coordinate) == RunOpen))
  {
    hide Purge, Inv, Prepared, OrderOk, Keyed, TableOk, RecordsOk;
    InvRecord(j, config, k);
    InvParts(j, config);
    PurgeShape(j, request);
  }

  // ---------------------------------------------------------------- whole runs

  datatype Op =
    | EnsureOp(intent: Intent, now: Timestamp, authority: AuthorityCheck)
    | NextOp(claim: ClaimRequest, authority: AuthorityCheck)
    | ReceiptOp(receipt: ReceiptInput)
    | ReconcileOp(reconcile: ReconcileInput, authority: AuthorityCheck)
    | SettleOp(settlement: SettlementInput)
    | PurgeOp(purge: PurgeRequest)

  /** The operations of a journal whose order lists stored records only, as every reachable one's does. */
  ghost function Apply(j: Journal, config: Config, op: Op): Journal {
    if !Indexed(j) then j
    else match op
    case EnsureOp(intent, now, authority) => Ensure(j, config, intent, now, authority).journal
    case NextOp(claim, authority) => Next(j, config, claim, authority).journal
    case ReceiptOp(receipt) => RecordReceipt(j, config, receipt).journal
    case ReconcileOp(reconcile, authority) => Reconcile(j, config, reconcile, authority).journal
    case SettleOp(settlement) => Settle(j, config, settlement).journal
    case PurgeOp(purge) => Purge(j, purge)
  }

  /** Every operation, whether it returns or throws, keeps the invariant and moves records only forward. */
  lemma ApplyKeepsInv(j: Journal, config: Config, op: Op)
    requires Inv(j, config)
    ensures Indexed(j) && Inv(Apply(j, config, op), config) && Evolves(j, Apply(j, config, op))
  {
    InvIndexed(j, config);
    hide Inv, Evolves, DeliversAll, Ensure, Next, RecordReceipt, Reconcile, Settle, Purge;
    match op
    case EnsureOp(intent, now, authority) => EnsureKeepsInv(j, config, intent, now, authority);
    case NextOp(claim, authority) =>
      NextKeepsInv(j, config, claim, authority);
      DeliversEvolves(j, Next(j, config, claim, authority).journal, config);
    case ReceiptOp(receipt) => RecordReceiptKeepsInv(j, config, receipt);
    case ReconcileOp(reconcile, authority) => ReconcileKeepsInv(j, config, reconcile, authority);
    case SettleOp(settlement) => SettleKeepsInv(j, config, settlement);
    case PurgeOp(purge) => PurgeKeepsInv(j, config, purge);
  }

  /** run lists the journals that a sequence of operations passes through, from the empty one. */
  ghost predicate IsRun(run: seq<Journal>, ops: seq<Op>, config: Config) {
    && |run| == |ops| + 1 && run[0] == Empty
    && forall i :: 0 <= i < |ops| ==> run[i + 1] == Apply(run[i], config, ops[i])
  }

  lemma {:induction false} RunKeepsInv(run: seq<Journal>, ops: seq<Op>, config: Config, i: nat)
    requires IsRun(run, ops, config) && i < |run|
    ensures Inv(run[i], config) && Indexed(run[i])
    ensures i > 0 ==> Evolves(run[i - 1], run[i])
  {
    if i > 0 {
      hide Evolves, Apply, Inv;
      RunKeepsInv(run, ops, config, i - 1);
      ApplyKeepsInv(run[i - 1], config, ops[i - 1]);
      InvIndexed(run[i], config);
    }
  }

  /** In every reachable journal two holding records of one session have no conflict key in common. */
  lemma ReachableHoldersExclude(run: seq<Journal>, ops: seq<Op>, config: Config, i: nat, a: RecordKey, b: RecordKey)
    requires IsRun(run, ops, config) && i < |run|
    requires a in run[i].records && b in run[i].records && a != b && a.sessionId == b.sessionId
    requires Holding(run[i].records[a]) && Holding(run[i].records[b])
    ensures forall k :: k in run[i].records[a].intent.conflictKeys ==> k !in run[i].records[b].intent.conflictKeys
  {
    hide IsRun, OrderOk, RecordsOk;
    RunKeepsInv(run, ops, config, i);
    HoldersExclude(run[i], a, b);
  }

  // An admission is named by its sequence, which is never reused. A record that is purged and admitted again is
  // another admission, and starts again at attempt zero.

  ghost predicate AdmittedAs(j: Journal, k: RecordKey, sequence: nat) {
    k in j.records && k in j.sequences && j.sequences[k] == sequence
  }

  lemma {:induction false} SequencesGrow(run: seq<Journal>, ops: seq<Op>, config: Config, i: nat, h: nat)
    requires IsRun(run, ops, config) && i <= h < |run|
    ensures run[i].nextSequence <= run[h].nextSequence
    decreases h - i
  {
    if i < h {
      SequencesGrow(run, ops, config, i, h - 1);
      RunKeepsInv(run, ops, config, h) by { hide IsRun; }
    }
  }

  lemma SequenceBound(j: Journal, config: Config, k: RecordKey, sequence: nat)
    requires Inv(j, config) && AdmittedAs(j, k, sequence)
    ensures sequence <= j.nextSequence
  {
    hide Keyed, TableOk, RecordsOk;
  }

  lemma StepBack(a: Journal, b: Journal, k: RecordKey, sequence: nat)
    requires Evolves(a, b) && AdmittedAs(b, k, sequence)
    ensures || (AdmittedAs(a, k, sequence) && Advances(a.records[k], b.records[k]))
            || (sequence > a.nextSequence && b.records[k].attempt == 0 && b.records[k].receipt.None?)
  {
    hide Advances;
  }

  /** What a later journal of the run shows of an admission that an earlier one already held. */
  ghost predicate Continues(r: ActionRecord, r': ActionRecord) {
    && r'.intent == r.intent && r'.attempt >= r.attempt
    && (r'.attempt == r.attempt && r'.claim.Some? ==> r'.claim == r.claim)
    && (Terminal(r) ==> r'.status == r.status && r'.attempt == r.attempt && r'.receipt == r.receipt)
  }

  /** One admission keeps its key and intent; its attempts never decrease; success and failure are final. */
  lemma {:induction false} AdmissionContinues(run: seq<Journal>, ops: seq<Op>, config: Config, i: nat, h: nat,
                                              k: RecordKey, k': RecordKey, sequence: nat)
    requires IsRun(run, ops, config) && i <= h < |run|
    requires AdmittedAs(run[i], k, sequence) && AdmittedAs(run[h], k', sequence)
    ensures k == k' && Continues(run[i].records[k], run[h].records[k])
    decreases h - i
  {
    hide IsRun, Inv, Evolves;
    if i < h {
      RunKeepsInv(run, ops, config, h);
      RunKeepsInv(run, ops, config, i);
      SequenceBound(run[i], config, k, sequence);
      SequencesGrow(run, ops, config, i, h - 1);
      StepBack(run[h - 1], run[h], k', sequence);
      AdmissionContinues(run, ops, config, i, h - 1, k, k', sequence);
    } else {
      RunKeepsInv(run, ops, config, i);
      OneKeyPerSequence(run[i], config, k, k', sequence);
    }
  }

  lemma OneKeyPerSequence(j: Journal, config: Config, k: RecordKey, k': RecordKey, sequence: nat)
    requires Inv(j, config) && AdmittedAs(j, k, sequence) && AdmittedAs(j, k', sequence)
    ensures k == k'
  {
    hide Keyed, TableOk, RecordsOk;
    assert k in j.order && k' in j.order;
    var a :| 0 <= a < |j.order| && j.order[a] == k;
    var b :| 0 <= b < |j.order| && j.order[b] == k';
  }

  /** The journal shows attempt n of this admission as rejected. */
  ghost predicate RejectionRecorded(j: Journal, k: RecordKey, sequence: nat, n: nat) {
    && AdmittedAs(j, k, sequence)
    && var receipt := j.records[k].receipt;
       receipt.Some? && receipt.value.outcome == OutcomeRejected && receipt.value.attempt == n
  }

  lemma PendingWasRejected(j: Journal, config: Config, k: RecordKey)
    requires Inv(j, config) && k in j.records && j.records[k].status == Pending
    ensures KnownUnapplied(j.records[k])
  {
    hide OrderOk, Keyed, TableOk, Prepared, Fits, Chronicled;
  }

  /** An action that is not safe to replay is claimed again only after every earlier attempt was recorded as rejected. */
  lemma {:induction false} EarlierAttemptsRejected(run: seq<Journal>, ops: seq<Op>, config: Config, i: nat,
                                                   k: RecordKey, sequence: nat, n: nat) returns (h: nat)
    requires IsRun(run, ops, config) && i < |run| && AdmittedAs(run[i], k, sequence)
    requires run[i].records[k].intent.replayPolicy != Safe && 1 <= n < run[i].records[k].attempt
    ensures h <= i && RejectionRecorded(run[h], k, sequence, n)
  {
    hide IsRun, Inv, Evolves;
    h := 0;
    RunKeepsInv(run, ops, config, i);
    if i == 0 {
      EmptyHasNoRecords(run, ops, config, k);
    } else {
      StepBack(run[i - 1], run[i], k, sequence);
      RunKeepsInv(run, ops, config, i - 1);
      if n < run[i - 1].records[k].attempt {
        h := EarlierAttemptsRejected(run, ops, config, i - 1, k, sequence, n);
      } else {
        PendingWasRejected(run[i - 1], config, k);
        h := i - 1;
      }
    }
  }

  lemma EmptyHasNoRecords(run: seq<Journal>, ops: seq<Op>, config: Config, k: RecordKey)
    requires IsRun(run, ops, config)
    ensures k !in run[0].records
  {}

  lemma NeverTwice(run: seq<Journal>, ops: seq<Op>, config: Config, i: nat, k: RecordKey)
    requires IsRun(run, ops, config) && i < |run| && k in run[i].records
    requires run[i].records[k].intent.replayPolicy == Never
    ensures run[i].records[k].attempt <= 1
  {
    hide IsRun, Inv, ValidRecord;
    RunKeepsInv(run, ops, config, i);
    InvRecord(run[i], config, k);
  }
}
