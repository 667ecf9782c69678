/** What a whole run hands out, and how often the game may have applied an action. */
module ActionEffects {
  import opened Wrappers
  import opened ActionRecords
  import opened StableSort
  import opened ActionJournal
  import opened ActionJournalInvariant
  import opened ActionJournalSteps
  import opened ActionJournalRuns
  import opened ActionDelivery
  import opened ActionReceipts

  // ---------------------------------------------------------------- dispatches

  /** The record that a selection hands out for execution. */
  ghost function Dispatched(j: Journal, config: Config, op: Op): Option<ActionRecord> {
    if !Indexed(j) || !op.NextOp? then None
    else match Next(j, config, op.claim, op.authority).result
      case Ok(Selection(_, Some(Dispatch(action)))) => Some(action)
      case _ => None
  }

  /** A dispatch raises the attempt of its record, and the record is stored as handed out. */
  lemma DispatchRaises(j: Journal, config: Config, op: Op)
    requires Inv(j, config) && Indexed(j) && Dispatched(j, config, op).Some?
    ensures var action := Dispatched(j, config, op).value; var j' := Apply(j, config, op);
      && KeyOf(action) in j.records && KeyOf(action) in j'.records
      && j'.records[KeyOf(action)] == action && j'.sequences == j.sequences
      && action.attempt > j.records[KeyOf(action)].attempt && action.intent == j.records[KeyOf(action)].intent
  {
    hide Inv, RetireClosed, ExpireDue, ClaimPending, OldestUnsettled, Expiring, Delivers;
    var request, authority := op.claim, op.authority;
    NextKeepsInv(j, config, request, authority);
    var retire := RetireClosed(j, config, request, authority, 0, 0);
    RetireClosedDelivers(j, config, request, authority, 0, 0);
    ExpiringStoredOnce(retire.journal, config, request);
    var due := Expiring(retire.journal, request);
    assert due[0..] == due;
    ExpireDueDelivers(retire.journal, config, request, authority, due, 0, Expiry({}, false));
    var expire := ExpireDue(retire.journal, config, request, authority, due, 0, Expiry({}, false));
    DeliversAllTransitive(j, retire.journal, expire.journal);
    InvParts(expire.journal, config);
    ClaimStored(expire.journal, config, request, authority, expire.result.value.replayable, 0, 0);
    var action := Dispatched(j, config, op).value;
    DeliversMeans(j.records[KeyOf(action)], expire.journal.records[KeyOf(action)]);
    DeliversMeans(j.records[KeyOf(action)], action);
  }

  lemma DeliversMeans(r: ActionRecord, r': ActionRecord)
    requires Delivers(r, r')
    ensures r'.attempt >= r.attempt && r'.intent == r.intent
  {}

  /** The admission sequence under which the record was handed out. */
  function SequenceOf(j: Journal, action: ActionRecord): Option<nat> {
    if KeyOf(action) in j.sequences then Some(j.sequences[KeyOf(action)]) else None
  }

  /** No attempt of an admission is handed out twice: a later dispatch of it has a higher attempt. */
  lemma DispatchedOnce(run: seq<Journal>, ops: seq<Op>, config: Config, i: nat, h: nat)
    requires IsRun(run, ops, config) && i < h < |ops|
    requires Dispatched(run[i], config, ops[i]).Some? && Dispatched(run[h], config, ops[h]).Some?
    requires SequenceOf(run[i], Dispatched(run[i], config, ops[i]).value) == SequenceOf(run[h], Dispatched(run[h], config, ops[h]).value)
    ensures var a, b := Dispatched(run[i], config, ops[i]).value, Dispatched(run[h], config, ops[h]).value;
      KeyOf(a) == KeyOf(b) && a.intent == b.intent && a.attempt < b.attempt
  {
    hide Inv, Apply, Dispatched, Evolves;
    var a, b := Dispatched(run[i], config, ops[i]).value, Dispatched(run[h], config, ops[h]).value;
    RunKeepsInv(run, ops, config, i);
    RunKeepsInv(run, ops, config, h);
    DispatchRaises(run[i], config, ops[i]);
    DispatchRaises(run[h], config, ops[h]);
    RunSequences(run, ops, config, i);
    RunSequences(run, ops, config, h);
    AdmissionContinues(run, ops, config, i + 1, h, KeyOf(a), KeyOf(b), run[i].sequences[KeyOf(a)]);
  }

  lemma RunSequences(run: seq<Journal>, ops: seq<Op>, config: Config, i: nat)
    requires IsRun(run, ops, config) && i < |run|
    ensures run[i].sequences.Keys == run[i].records.Keys
  {
    hide IsRun, Keyed, TableOk, RecordsOk;
    RunKeepsInv(run, ops, config, i);
  }

  // ---------------------------------------------------------------- effects

  /** A set of dispatches whose effect the game applied, each named by its step of the run. */
  ghost predicate Effects(run: seq<Journal>, ops: seq<Op>, config: Config, effects: set<nat>)
    requires IsRun(run, ops, config)
  {
    forall i :: i in effects ==> i < |ops| && Dispatched(run[i], config, ops[i]).Some?
  }

  /** The operation reports that this attempt of the operation under this key, claimed under this token, was not applied. */
  predicate ReportsRejection(op: Op, k: RecordKey, claimToken: Id, attempt: nat) {
    match op
    case ReceiptOp(input) =>
      && RecordKey(input.sessionId, input.actorId, input.operationId) == k
      && input.claimToken == claimToken && input.attempt == attempt && input.outcome == OutcomeRejected
    case ReconcileOp(input, _) =>
      && RecordKey(input.sessionId, input.actorId, input.operationId) == k
      && input.claimToken == claimToken && input.attempt == attempt && input.resolution == NotApplied
    case _ => false
  }

  /** A later operation of the run reports a rejection of what step i dispatched. */
  ghost predicate Contradicted(run: seq<Journal>, ops: seq<Op>, config: Config, i: nat, h: nat)
    requires IsRun(run, ops, config) && i < |ops| && h < |ops| && Dispatched(run[i], config, ops[i]).Some?
  {
    var a := Dispatched(run[i], config, ops[i]).value;
    && a.claim.Some? && KeyOf(a) in run[i].sequences && AdmittedAs(run[h], KeyOf(a), run[i].sequences[KeyOf(a)])
    && ReportsRejection(ops[h], KeyOf(a), a.claim.value.claimToken, a.attempt)
  }

  /** Nobody reports a rejection, to the journal, of an attempt whose effect the game applied. */
  ghost predicate Truthful(run: seq<Journal>, ops: seq<Op>, config: Config, effects: set<nat>)
    requires IsRun(run, ops, config) && Effects(run, ops, config, effects)
  {
    forall i, h {:trigger ops[h], ops[i]} :: i in effects && i < h < |ops| ==> !Contradicted(run, ops, config, i, h)
  }

  /** A new rejection in a record was reported in this step, under the claim that the record then had. */
  lemma StepReports(j: Journal, config: Config, op: Op, k: RecordKey, n: nat)
    requires Inv(j, config) && Indexed(j) && k in j.records && k in Apply(j, config, op).records
    requires var receipt := Apply(j, config, op).records[k].receipt;
      receipt != j.records[k].receipt && receipt.Some? && receipt.value.outcome == OutcomeRejected && receipt.value.attempt == n
    ensures j.records[k].claim.Some? && j.records[k].attempt == n
            && ReportsRejection(op, k, j.records[k].claim.value.claimToken, n)
  {
    hide Inv, Ensure, Next, RecordReceipt, Reconcile, Settle, Purge, OrderOk, Keyed, TableOk, RecordsOk, NamesAnother;
    match op
    case EnsureOp(intent, now, authority) => EnsureMeans(j, config, intent, now, authority);
    case NextOp(claim, authority) => NextKeepsInv(j, config, claim, authority);
    case ReceiptOp(input) => RecordReceiptMeans(j, config, input);
    case ReconcileOp(input, authority) => ReconcileMeans(j, config, input, authority);
    case SettleOp(input) => SettleMeans(j, config, input);
    case PurgeOp(purge) => InvParts(j, config); PurgeShape(j, purge);
  }

  /** No rejection of a dispatched attempt is recorded before or right behind the dispatch. */
  lemma NotYetRejected(run: seq<Journal>, ops: seq<Op>, config: Config, i: nat, h: nat)
    requires IsRun(run, ops, config) && i < |ops| && Dispatched(run[i], config, ops[i]).Some? && h <= i + 1
    ensures var a := Dispatched(run[i], config, ops[i]).value;
      && KeyOf(a) in run[i].sequences && !RejectionRecorded(run[h], KeyOf(a), run[i].sequences[KeyOf(a)], a.attempt)
  {
    hide Inv, Apply, Dispatched, IsRun;
    RunLength(run, ops, config);
    var a := Dispatched(run[i], config, ops[i]).value;
    StoredAfter(run, ops, config, i);
    var sequence := run[i].sequences[KeyOf(a)];
    if RejectionRecorded(run[h], KeyOf(a), sequence, a.attempt) {
      RunKeepsInv(run, ops, config, h);
      InvRecord(run[h], config, KeyOf(a));
      if h <= i {
        RunKeepsInv(run, ops, config, i);
        RunSequences(run, ops, config, i);
        DispatchFrom(run, ops, config, i);
        AdmissionContinues(run, ops, config, h, i, KeyOf(a), KeyOf(a), sequence);
      } else {
        DispatchedClaimed(run[i], config, ops[i]);
      }
      ReceiptBound(run[h].records[KeyOf(a)], config);
    }
  }

  lemma ReceiptBound(r: ActionRecord, config: Config)
    requires Sound(r, config) && r.receipt.Some?
    ensures r.receipt.value.attempt <= r.attempt && (r.status == Claimed ==> r.receipt.value.attempt < r.attempt)
  {}

  lemma DispatchFrom(run: seq<Journal>, ops: seq<Op>, config: Config, i: nat)
    requires IsRun(run, ops, config) && i < |ops| && Dispatched(run[i], config, ops[i]).Some?
    ensures var a := Dispatched(run[i], config, ops[i]).value;
      KeyOf(a) in run[i].records && a.attempt > run[i].records[KeyOf(a)].attempt
  {
    hide Inv, Apply, Dispatched, IsRun;
    RunLength(run, ops, config);
    RunKeepsInv(run, ops, config, i);
    DispatchRaises(run[i], config, ops[i]);
  }

  lemma DispatchedClaimed(j: Journal, config: Config, op: Op)
    requires Dispatched(j, config, op).Some?
    ensures Dispatched(j, config, op).value.status == Claimed && Dispatched(j, config, op).value.claim.Some?
  {
    hide RetireClosed, ExpireDue, Expiring, ClaimPending, OldestUnsettled;
    var request, authority := op.claim, op.authority;
    var retire := RetireClosed(j, config, request, authority, 0, 0).journal;
    var expire := ExpireDue(retire, config, request, authority, Expiring(retire, request), 0, Expiry({}, false));
    var p := ClaimIsFirstFree(expire.journal, config, request, authority, expire.result.value.replayable, 0, 0);
  }

  /** A rejection that appears behind one step was reported in it. */
  lemma NewRejection(run: seq<Journal>, ops: seq<Op>, config: Config, i: nat, g: nat)
    requires IsRun(run, ops, config) && i < g < |ops| && Dispatched(run[i], config, ops[i]).Some?
    requires var a := Dispatched(run[i], config, ops[i]).value;
      && KeyOf(a) in run[i].sequences && AdmittedAs(run[g], KeyOf(a), run[i].sequences[KeyOf(a)])
      && !RejectionRecorded(run[g], KeyOf(a), run[i].sequences[KeyOf(a)], a.attempt)
      && RejectionRecorded(run[g + 1], KeyOf(a), run[i].sequences[KeyOf(a)], a.attempt)
    ensures Contradicted(run, ops, config, i, g)
  {
    var a := Dispatched(run[i], config, ops[i]).value;
    RunStep(run, ops, config, g);
    hide Inv, Apply, Dispatched, IsRun;
    RunKeepsInv(run, ops, config, g);
    StepReports(run[g], config, ops[g], KeyOf(a), a.attempt);
    StoredAfter(run, ops, config, i);
    DispatchedClaimed(run[i], config, ops[i]);
    AdmissionContinues(run, ops, config, i + 1, g, KeyOf(a), KeyOf(a), run[i].sequences[KeyOf(a)]);
  }

  lemma {:induction false} FirstRejection(run: seq<Journal>, h: nat, k: RecordKey, sequence: nat, n: nat) returns (g: nat)
    requires h < |run| && RejectionRecorded(run[h], k, sequence, n)
    ensures g <= h && RejectionRecorded(run[g], k, sequence, n) && (g > 0 ==> !RejectionRecorded(run[g - 1], k, sequence, n))
    decreases h
  {
    g := h;
    if h > 0 && RejectionRecorded(run[h - 1], k, sequence, n) { g := FirstRejection(run, h - 1, k, sequence, n); }
  }

  /** A rejection of a dispatched attempt that the journal holds was reported in between, under the dispatched claim. */
  lemma RejectionWasReported(run: seq<Journal>, ops: seq<Op>, config: Config, i: nat, h: nat) returns (g: nat)
    requires IsRun(run, ops, config) && i < |ops| && h < |run| && Dispatched(run[i], config, ops[i]).Some?
    requires var a := Dispatched(run[i], config, ops[i]).value;
      KeyOf(a) in run[i].sequences && RejectionRecorded(run[h], KeyOf(a), run[i].sequences[KeyOf(a)], a.attempt)
    ensures i < g < h && Contradicted(run, ops, config, i, g)
  {
    hide Inv, Apply, Dispatched, IsRun, Contradicted, RejectionRecorded, AdmittedAs;
    RunLength(run, ops, config);
    var a := Dispatched(run[i], config, ops[i]).value;
    var k, sequence := KeyOf(a), run[i].sequences[KeyOf(a)];
    var first := FirstRejection(run, h, k, sequence, a.attempt);
    if first <= i + 1 { NotYetRejected(run, ops, config, i, first); }
    RejectedAdmission(run, ops, config, first, k, sequence, a.attempt);
    g := first - 1;
    NewRejection(run, ops, config, i, g);
  }

  lemma RejectedAdmission(run: seq<Journal>, ops: seq<Op>, config: Config, h: nat, k: RecordKey, sequence: nat, n: nat)
    requires IsRun(run, ops, config) && 0 < h < |run| && RejectionRecorded(run[h], k, sequence, n)
    ensures AdmittedAs(run[h - 1], k, sequence)
  {
    hide Inv, Apply, Evolves, IsRun;
    RunKeepsInv(run, ops, config, h);
    StepBack(run[h - 1], run[h], k, sequence);
  }

  lemma RunLength(run: seq<Journal>, ops: seq<Op>, config: Config)
    requires IsRun(run, ops, config)
    ensures |run| == |ops| + 1
  {}

  lemma RunStep(run: seq<Journal>, ops: seq<Op>, config: Config, g: nat)
    requires IsRun(run, ops, config) && g < |ops|
    ensures run[g + 1] == Apply(run[g], config, ops[g])
  {}

  /** Over a whole run, a truthful game applies at most one dispatch of an admission that is not safe to replay. */
  lemma EffectAtMostOnce(run: seq<Journal>, ops: seq<Op>, config: Config, effects: set<nat>, e: nat, f: nat)
    requires IsRun(run, ops, config) && Effects(run, ops, config, effects) && Truthful(run, ops, config, effects)
    requires e in effects && f in effects
    requires Dispatched(run[e], config, ops[e]).value.intent.replayPolicy != Safe
    requires SequenceOf(run[e], Dispatched(run[e], config, ops[e]).value) == SequenceOf(run[f], Dispatched(run[f], config, ops[f]).value)
    ensures e == f
  {
    hide Dispatched, Apply, RejectionRecorded, Inv;
    if e != f {
      var i, h := if e < f then e else f, if e < f then f else e;
      var a, b := Dispatched(run[i], config, ops[i]).value, Dispatched(run[h], config, ops[h]).value;
      DispatchedOnce(run, ops, config, i, h);
      StoredAfter(run, ops, config, i);
      StoredAfter(run, ops, config, h);
      var sequence := run[i].sequences[KeyOf(a)];
      var at := EarlierAttemptsRejected(run, ops, config, h + 1, KeyOf(b), sequence, a.attempt);
      var g := RejectionWasReported(run, ops, config, i, at);
    }
  }

  lemma StoredAfter(run: seq<Journal>, ops: seq<Op>, config: Config, i: nat)
    requires IsRun(run, ops, config) && i < |ops| && Dispatched(run[i], config, ops[i]).Some?
    ensures var a := Dispatched(run[i], config, ops[i]).value;
      && KeyOf(a) in run[i].sequences && a.attempt >= 1
      && AdmittedAs(run[i + 1], KeyOf(a), run[i].sequences[KeyOf(a)]) && run[i + 1].records[KeyOf(a)] == a
  {
    hide Inv, Apply, Dispatched;
    RunKeepsInv(run, ops, config, i);
    RunSequences(run, ops, config, i);
    DispatchRaises(run[i], config, ops[i]);
  }

  // ---------------------------------------------------------------- retention

  predicate Concerns(purge: PurgeRequest, operationId: OperationId) {
    purge.sessionId == operationId.coordinate.sessionId && purge.actorId == operationId.coordinate.actorId
  }

  /** Every purge of the operation's own stream lists it among what to retain. */
  ghost predicate Retained(ops: seq<Op>, operationId: OperationId) {
    forall i :: 0 <= i < |ops| && ops[i].PurgeOp? && Concerns(ops[i].purge, operationId) ==> operationId in ops[i].purge.retain
  }

  ghost predicate StaysAdmitted(j: Journal, j': Journal, k: RecordKey) {
    k in j.records && k in j.sequences ==> k in j'.records && k in j'.sequences && j'.sequences[k] == j.sequences[k]
  }

  /** Only a purge that does not retain a record ends its admission. */
  lemma ApplyKeepsAdmission(j: Journal, config: Config, op: Op, k: RecordKey)
    requires Inv(j, config) && Indexed(j) && k in j.records
    requires op.PurgeOp? && op.purge.sessionId == k.sessionId && op.purge.actorId == k.actorId ==> k.operationId in op.purge.retain
    ensures StaysAdmitted(j, Apply(j, config, op), k)
  {
    hide Inv, Keyed, TableOk, RecordsOk, Ensure, Next, RecordReceipt, Reconcile, Settle, Purge, Delivers;
    match op
    case EnsureOp(intent, now, authority) => EnsureKeepsAdmission(j, config, intent, now, authority, k);
    case NextOp(claim, authority) => NextKeepsInv(j, config, claim, authority);
    case ReceiptOp(receipt) => ReceiptKeepsAdmission(j, config, receipt, k);
    case ReconcileOp(reconcile, authority) => ReconcileKeepsAdmission(j, config, reconcile, authority, k);
    case SettleOp(settlement) => SettleKeepsAdmission(j, config, settlement, k);
    case PurgeOp(purge) =>
      InvParts(j, config);
      PurgeShape(j, purge);
      InvRecord(j, config, k);
  }

  lemma EnsureKeepsAdmission(j: Journal, config: Config, intent: Intent, now: Timestamp, authority: AuthorityCheck, k: RecordKey)
    requires Indexed(j)
    ensures StaysAdmitted(j, Ensure(j, config, intent, now, authority).journal, k)
  {
    hide ValidRecord, Fits, AwaitingGoals;
  }

  lemma CommitKeepsAdmission(j: Journal, config: Config, record: ActionRecord, t: Transition, k: RecordKey)
    ensures StaysAdmitted(j, Commit(j, config, record, t).journal, k)
  {
    hide Fits, Release;
  }

  lemma ReceiptKeepsAdmission(j: Journal, config: Config, input: ReceiptInput, k: RecordKey)
    ensures StaysAdmitted(j, RecordReceipt(j, config, input).journal, k)
  {
    hide ReceiptAction, Commit;
    var key := RecordKey(input.sessionId, input.actorId, input.operationId);
    if key in j.records && ReceiptAction(j.records[key], input).Ok? {
      CommitKeepsAdmission(j, config, j.records[key], ReceiptAction(j.records[key], input).value, k);
    }
  }

  lemma ReconcileKeepsAdmission(j: Journal, config: Config, input: ReconcileInput, authority: AuthorityCheck, k: RecordKey)
    ensures StaysAdmitted(j, Reconcile(j, config, input, authority).journal, k)
  {
    hide ReconcileAction, RetireAction, Commit;
    var key := RecordKey(input.sessionId, input.actorId, input.operationId);
    if key in j.records && ReconcileAction(j.records[key], input).Ok? {
      var t := ReconcileAction(j.records[key], input).value;
      CommitKeepsAdmission(j, config, j.records[key], t, k);
      if RetireAction(t.record, input.reconciledAt).Ok? {
        CommitKeepsAdmission(j, config, j.records[key],
                             Transition(RetireAction(t.record, input.reconciledAt).value.record, t.releaseConflicts, true), k);
      }
    }
  }

  lemma SettleKeepsAdmission(j: Journal, config: Config, input: SettlementInput, k: RecordKey)
    ensures StaysAdmitted(j, Settle(j, config, input).journal, k)
  {
    hide SettleAction, Commit, ValidRecord;
    var key := RecordKey(input.sessionId, input.actorId, input.operationId);
    if key in j.records && SettleAction(j.records[key], input).Ok? {
      CommitKeepsAdmission(j, config, j.records[key], SettleAction(j.records[key], input).value, k);
    }
  }

  lemma {:induction false} RetainedStays(run: seq<Journal>, ops: seq<Op>, config: Config, operationId: OperationId, i: nat, h: nat)
    requires IsRun(run, ops, config) && Retained(ops, operationId) && i <= h < |run|
    requires OwnerKey(operationId) in run[i].records
    ensures StaysAdmitted(run[i], run[h], OwnerKey(operationId)) && OwnerKey(operationId) in run[h].records
    decreases h - i
  {
    hide Inv, Apply;
    RunSequences(run, ops, config, i);
    if i < h {
      RetainedStays(run, ops, config, operationId, i, h - 1);
      RunKeepsInv(run, ops, config, h - 1);
      RunSequences(run, ops, config, h - 1);
      ApplyKeepsAdmission(run[h - 1], config, ops[h - 1], OwnerKey(operationId));
    }
  }

  /** An operation that every purge of its stream retains is admitted once: all its records in the run carry one
      admission sequence. */
  lemma OneAdmission(run: seq<Journal>, ops: seq<Op>, config: Config, operationId: OperationId, i: nat, h: nat, a: nat, b: nat)
    requires IsRun(run, ops, config) && Retained(ops, operationId) && i < |run| && h < |run|
    requires AdmittedAs(run[i], OwnerKey(operationId), a) && AdmittedAs(run[h], OwnerKey(operationId), b)
    ensures a == b
  {
    hide Retained, Apply;
    if i <= h {
      RetainedStays(run, ops, config, operationId, i, h);
    } else {
      RetainedStays(run, ops, config, operationId, h, i);
    }
  }

  /** So a truthful game applies an operation that is not safe to replay at most once in the whole run, if every purge
      of its stream retains it. */
  lemma RetainedEffectAtMostOnce(run: seq<Journal>, ops: seq<Op>, config: Config, effects: set<nat>, operationId: OperationId, e: nat, f: nat)
    requires IsRun(run, ops, config) && Effects(run, ops, config, effects) && Truthful(run, ops, config, effects)
    requires Retained(ops, operationId) && e in effects && f in effects
    requires Dispatched(run[e], config, ops[e]).value.intent.operationId == operationId
    requires Dispatched(run[f], config, ops[f]).value.intent.operationId == operationId
    requires Dispatched(run[e], config, ops[e]).value.intent.replayPolicy != Safe
    ensures e == f
  {
    hide Retained, Dispatched, Truthful, Apply;
    OwnKeyOfDispatch(run, ops, config, e);
    OwnKeyOfDispatch(run, ops, config, f);
    StoredAfter(run, ops, config, e);
    StoredAfter(run, ops, config, f);
    var key := OwnerKey(operationId);
    OneAdmission(run, ops, config, operationId, e + 1, f + 1, run[e].sequences[key], run[f].sequences[key]);
    EffectAtMostOnce(run, ops, config, effects, e, f);
  }

  lemma OwnKeyOfDispatch(run: seq<Journal>, ops: seq<Op>, config: Config, i: nat)
    requires IsRun(run, ops, config) && i < |ops| && Dispatched(run[i], config, ops[i]).Some?
    ensures var a := Dispatched(run[i], config, ops[i]).value; KeyOf(a) == OwnerKey(a.intent.operationId)
  {
    hide Dispatched, OrderOk, TableOk, RecordsOk, Apply;
    StoredAfter(run, ops, config, i);
    RunKeepsInv(run, ops, config, i + 1);
  }

  // ---------------------------------------------------------------- what retaining is worth

  /** A finished record outlives every purge that retains this set exactly when the set lists its operation. */
  lemma RetainingProtects(j: Journal, config: Config, k: RecordKey, retain: set<OperationId>)
    requires Inv(j, config) && Indexed(j) && k in j.records && Terminal(j.records[k])
    requires j.records[k].intent.goalProjection.None? || j.records[k].settlement.Some?
    ensures (forall request: PurgeRequest :: request.retain == retain ==> k in Purge(j, request).records)
            <==> k.operationId in retain
  {
    hide Inv, Purge, OrderOk, Keyed, TableOk, RecordsOk;
    InvParts(j, config);
    InvRecord(j, config, k);
    if k.operationId in retain {
      forall request: PurgeRequest | request.retain == retain ensures k in Purge(j, request).records { PurgeShape(j, request); }
    } else {
      var request := PurgeRequest(k.sessionId, k.actorId, j.records[k].updatedAt + 1, |j.order|, retain);
      WidePurgeTakes(j, request, k);
      assert request.retain == retain && k !in Purge(j, request).records;
    }
  }

  /** A purge with room for every record takes all that it may. */
  lemma WidePurgeTakes(j: Journal, request: PurgeRequest, k: RecordKey)
    requires OrderOk(j) && Keyed(j) && TableOk(j) && Indexed(j) && k in j.records
    requires Purgeable(j.records[k], request) && request.limit == |j.order|
    ensures k !in Purge(j, request).records
  {
    hide TableOk, Purgeable;
    var c := Ranked(j.records[k], j.sequences[k]);
    CandidateListed(j, request, c);
    CandidatesFit(j, request, |j.order|);
    SortIsSorted(PurgeCandidates(j, request, |j.order|), AgeRank);
    var purged := Purged(j, request);
    assert c in multiset(PurgeCandidates(j, request, |j.order|)) && purged == Sort(PurgeCandidates(j, request, |j.order|), AgeRank);
    assert c in multiset(purged);
    forall x | x in purged ensures KeyOf(x.record) in j.records && j.records[KeyOf(x.record)] == x.record && !Holding(x.record) {
      PurgedAreOldest(j, request, x);
      PurgeableFree(request);
    }
    RemoveAllShape(j, purged);
  }

  /** A purge with room for every record removes exactly the finished records of its stream that were last updated before
      its bound, that it need not retain, and whose goal, if any, was told. */
  lemma WidePurgeExact(j: Journal, config: Config, request: PurgeRequest, k: RecordKey)
    requires Inv(j, config) && Indexed(j) && k in j.records && request.limit == |j.order|
    ensures var r := j.records[k];
      k !in Purge(j, request).records
      <==> (&& (r.status == Succeeded || r.status == Failed) && r.updatedAt < request.beforeUpdatedAt
            && k.sessionId == request.sessionId && k.actorId == request.actorId && k.operationId !in request.retain
            && (r.intent.goalProjection == None || r.settlement != None))
  {
    hide Inv, Purge, OrderOk, Keyed, TableOk, RecordsOk;
    InvParts(j, config);
    InvRecord(j, config, k);
    PurgeShape(j, request);
    if Purgeable(j.records[k], request) { WidePurgeTakes(j, request, k); }
  }

  lemma {:induction false} CandidatesFit(j: Journal, request: PurgeRequest, n: nat)
    requires Indexed(j) && n <= |j.order|
    ensures |PurgeCandidates(j, request, n)| <= n
  {
    hide Purgeable;
    if n > 0 { CandidatesFit(j, request, n - 1); }
  }
}
