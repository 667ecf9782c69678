/** A run that applies an action twice: it succeeds, a purge that does not retain it forgets it, and it is admitted
    again. The action is of the kind that is never replayed. */
module ActionTwice {
  import opened Wrappers
  import opened ActionRecords
  import opened StableSort
  import opened ActionJournal
  import opened ActionJournalInvariant
  import opened ActionJournalSteps
  import opened ActionJournalRuns
  import opened ActionEffects

  const WORK := Coordinate("session", "actor", "run", 1)
  const AUTHORITY := Authority("timeline", 1, 1)
  const OPERATION := OperationId(WORK, "act", "key")
  const FINGERPRINT := IntentFingerprint(WORK, "act", "key", "{}", AUTHORITY, {}, Never, None)
  const INTENT := Intent("session", "actor", OPERATION, FINGERPRINT, PayloadFingerprint("{}"), WORK, "act", "key", "{}",
                         AUTHORITY, [], Never, None)
  const KEY := RecordKey("session", "actor", OPERATION)

  const CLAIM := ClaimRequest("session", "actor", None, "claimant", "token", 1, 10, 1)
  const RECEIPT := ReceiptInput("session", "actor", OPERATION, "token", 1, OutcomeSucceeded, 2, None, None, None)
  const PURGE := PurgeRequest("session", "actor", 3, 1, {})

  function Open(coordinate: Coordinate): RunAuthority {
    RunOpen
  }

  const PENDING := Admitted(INTENT, 0)
  const CLAIMED := ActionRecord(INTENT, Claimed, 1, 0, 1, Some(Claim("token", "claimant", 1, 1, 10)), None, None)
  const DONE := ActionRecord(INTENT, Succeeded, 1, 0, 2, None,
                             Some(Receipt(OPERATION, "token", 1, OutcomeSucceeded, 2, None, None, None)), None)

  /** A journal with this record alone, under an admission sequence. */
  function Holds(r: ActionRecord, sequence: nat): Journal {
    Journal(map[KEY := r], [KEY], map[], map[KEY := sequence], sequence)
  }

  function Bare(sequence: nat): Journal {
    Journal(map[], [], map[], map[], sequence)
  }

  lemma EnsureAdmits(config: Config, sequence: nat)
    ensures Ensure(Bare(sequence), config, INTENT, 0, Open) == Outcome(Holds(PENDING, sequence + 1), Ok(PENDING))
  {
    assert (set k | k in INTENT.conflictKeys) == {};
  }

  lemma NoConflictKeys()
    ensures ConflictKeysOf(CLAIMED) == {} && ConflictKeysOf(PENDING) == {} && ConflictKeysOf(DONE) == {}
  {}

  lemma NothingRetired(config: Config, sequence: nat)
    ensures RetireClosed(Holds(PENDING, sequence), config, CLAIM, Open, 0, 0) == Outcome(Holds(PENDING, sequence), Ok(false))
  {
    assert RetireClosed(Holds(PENDING, sequence), config, CLAIM, Open, 1, 0) == Outcome(Holds(PENDING, sequence), Ok(false));
  }

  lemma NothingExpires(sequence: nat)
    ensures Expiring(Holds(PENDING, sequence), CLAIM) == []
  {
    assert DueClaims(Holds(PENDING, sequence), CLAIM, 0) == [];
    assert DueClaims(Holds(PENDING, sequence), CLAIM, 1) == [];
  }

  lemma NothingUnsettled(sequence: nat)
    ensures OldestUnsettled(Holds(PENDING, sequence), "session", "actor", None, {}, 0) == None
  {
    assert OldestUnsettled(Holds(PENDING, sequence), "session", "actor", None, {}, 1) == None;
  }

  lemma PendingIsClaimed(config: Config, sequence: nat)
    ensures ClaimPending(Holds(PENDING, sequence), config, CLAIM, Open, {}, 0, 0)
            == Outcome(Holds(CLAIMED, sequence), Ok(Some(CLAIMED)))
  {
    NoConflictKeys();
    assert (set k | k in INTENT.conflictKeys) == {};
    assert ClaimAction(PENDING, CLAIM) == Ok(Transition(CLAIMED, false, true));
    assert Acquire(map[], CLAIMED) == map[];
    assert Store(Holds(PENDING, sequence), CLAIMED, map[]) == Holds(CLAIMED, sequence);
  }

  lemma NextDispatches(config: Config, sequence: nat)
    ensures Next(Holds(PENDING, sequence), config, CLAIM, Open)
            == Outcome(Holds(CLAIMED, sequence), Ok(Selection(true, Some(Dispatch(CLAIMED)))))
  {
    hide RetireClosed, Expiring, OldestUnsettled, ClaimPending, Holds;
    NothingRetired(config, sequence);
    NothingExpires(sequence);
    NothingUnsettled(sequence);
    PendingIsClaimed(config, sequence);
  }

  lemma ReceiptSucceeds(config: Config)
    ensures RecordReceipt(Holds(CLAIMED, 1), config, RECEIPT) == Outcome(Holds(DONE, 1), Ok(DONE))
  {
    assert Release(map[], CLAIMED) == map[];
    assert ReceiptAction(CLAIMED, RECEIPT) == Ok(Transition(DONE, true, true));
  }

  lemma PurgeForgets()
    ensures Purge(Holds(DONE, 1), PURGE) == Bare(1)
  {
    hide Sort, Insert, AgeRank;
    var j := Holds(DONE, 1);
    assert PurgeCandidates(j, PURGE, 0) == [];
    assert PurgeCandidates(j, PURGE, 1) == [Ranked(DONE, 1)];
    OneSorted(Ranked(DONE, 1));
    assert Purged(j, PURGE) == [Ranked(DONE, 1)];
    assert RemoveAll(j, []) == j;
    assert Release(map[], DONE) == map[];
    assert [KEY][..0] == [] && KeyOf(DONE) == KEY && Without([KEY], KEY) == [];
    assert Remove(j, DONE) == Bare(1);
    assert [Ranked(DONE, 1)][..0] == [];
  }

  lemma OneSorted(x: Ranked)
    ensures Sort([x], AgeRank) == [x]
  {
    assert [x][..0] == [] && Sort<Ranked>([], AgeRank) == [];
  }

  const STEPS := [EnsureOp(INTENT, 0, Open), NextOp(CLAIM, Open), ReceiptOp(RECEIPT), PurgeOp(PURGE),
                  EnsureOp(INTENT, 0, Open), NextOp(CLAIM, Open)]

  function Journals(): seq<Journal> {
    [Bare(0), Holds(PENDING, 1), Holds(CLAIMED, 1), Holds(DONE, 1), Bare(1), Holds(PENDING, 2), Holds(CLAIMED, 2)]
  }

  lemma JournalsAreRun(config: Config)
    ensures IsRun(Journals(), STEPS, config)
  {
    hide Ensure, Next, RecordReceipt, Purge, Indexed;
    EnsureAdmits(config, 0);
    NextDispatches(config, 1);
    ReceiptSucceeds(config);
    PurgeForgets();
    EnsureAdmits(config, 1);
    NextDispatches(config, 2);
    AllIndexed();
    var run := Journals();
    assert Apply(run[0], config, STEPS[0]) == run[1] && Apply(run[1], config, STEPS[1]) == run[2];
    assert Apply(run[2], config, STEPS[2]) == run[3] && Apply(run[3], config, STEPS[3]) == run[4];
    assert Apply(run[4], config, STEPS[4]) == run[5] && Apply(run[5], config, STEPS[5]) == run[6];
  }

  lemma AllIndexed()
    ensures forall i :: 0 <= i < 7 ==> Indexed(Journals()[i])
  {}

  /** Both dispatches hand out attempt 1 of an operation that is never replayed, no rejection is ever reported, and so a
      truthful game applies it twice. */
  lemma PurgedWorkIsDoneTwice(config: Config)
    ensures IsRun(Journals(), STEPS, config)
    ensures Effects(Journals(), STEPS, config, {1, 5}) && Truthful(Journals(), STEPS, config, {1, 5})
    ensures Dispatched(Journals()[1], config, STEPS[1]) == Some(CLAIMED) == Dispatched(Journals()[5], config, STEPS[5])
    ensures CLAIMED.intent.operationId == OPERATION && CLAIMED.intent.replayPolicy == Never && CLAIMED.attempt == 1
    ensures !Retained(STEPS, OPERATION)
  {
    hide Next, Apply, IsRun, Holds, Bare;
    JournalsAreRun(config) by { hide *; }
    NextDispatches(config, 1);
    NextDispatches(config, 2);
    NeverRejected();
    AllIndexed();
    hide ReportsRejection, Dispatched, AdmittedAs;
    forall i, h | i in {1, 5} && i < h < |STEPS| ensures !Contradicted(Journals(), STEPS, config, i, h) {}
    assert STEPS[3].PurgeOp? && Concerns(STEPS[3].purge, OPERATION);
  }

  lemma NeverRejected()
    ensures forall h, k, claimToken, n :: 0 <= h < |STEPS| ==> !ReportsRejection(STEPS[h], k, claimToken, n)
  {}
}
