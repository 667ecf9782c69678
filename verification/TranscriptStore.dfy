/** The in-memory transcript store, and restoring a stream that it holds. */
module TranscriptStore {
  import opened Wrappers
  import opened Transcript
  import opened TranscriptInvariant
  import opened TranscriptRepair
  import opened TranscriptRestore
  import opened TranscriptPurge
  import opened TranscriptRestored

  datatype StoreFault =
    | WriteConflict(expected: Option<nat>, actual: Option<nat>)
    | RecordIdConflict
    | InvalidRequest
    | CheckpointUnavailable
    | NotACheckpoint
    | InvalidBoundary

  // ---------------------------------------------------------------- what the operations compute

  function Head(log: seq<Record>): Option<nat> {
    if log == [] then None else Some(log[|log| - 1].sequence)
  }

  function IdsOf(records: seq<Record>): (ids: seq<Id>)
    ensures |ids| == |records| && forall i :: 0 <= i < |ids| ==> ids[i] == records[i].recordId
  {
    seq(|records|, i requires 0 <= i < |records| => records[i].recordId)
  }

  function IdSet(records: seq<Record>): set<Id> {
    set id | id in IdsOf(records)
  }

  /** The log after an append: the caller must know the head, and no record id may repeat. */
  function Appended(log: seq<Record>, expected: Option<nat>, records: seq<Record>): Result<seq<Record>, StoreFault> {
    if Head(log) != expected then Err(WriteConflict(expected, Head(log)))
    else if !FreshIds(IdsOf(records), IdSet(log)) then Err(RecordIdConflict)
    else Ok(log + records)
  }

  /** The first position, from i on, of a record with this sequence. */
  function FindSequence(log: seq<Record>, sequence: nat, i: nat): (p: nat)
    requires i <= |log|
    ensures i <= p <= |log| && (p < |log| ==> log[p].sequence == sequence)
    ensures forall k :: i <= k < p ==> log[k].sequence != sequence
    decreases |log| - i
  {
    if i == |log| || log[i].sequence == sequence then i else FindSequence(log, sequence, i + 1)
  }

  /** A retained revision at or before the checkpoint's source, or the empty one, forbids the purge. */
  predicate Holds(retain: seq<Option<nat>>, source: nat) {
    exists k :: 0 <= k < |retain| && (retain[k].None? || retain[k].value <= source)
  }

  function Purged(log: seq<Record>, checkpointRevision: nat, limit: nat, retain: seq<Option<nat>>): Result<seq<Record>, StoreFault> {
    if checkpointRevision < 1 || limit < 1 then Err(InvalidRequest)
    else
      var c := FindSequence(log, checkpointRevision, 0);
      if c < 1 || c == |log| then Err(CheckpointUnavailable)
      else if !log[c].body.Checkpoint? then Err(NotACheckpoint)
      else if !ExactBoundary(log[c], log[c - 1]) then Err(InvalidBoundary)
      else if c - 1 > limit || Holds(retain, log[c - 1].sequence) then Ok(log)
      else Ok(log[c - 1..])
  }

  // ---------------------------------------------------------------- laws

  /** Of two writers that both start from one head, the second to arrive is refused. */
  lemma SecondWriterRefused(log: seq<Record>, expected: Option<nat>, records: seq<Record>, others: seq<Record>)
    requires records != [] && Appended(log, expected, records).Ok?
    requires Some(records[|records| - 1].sequence) != expected
    ensures var log' := Appended(log, expected, records).value;
      Appended(log', expected, others) == Err(WriteConflict(expected, Some(records[|records| - 1].sequence)))
  {
    var log' := log + records;
    assert log'[|log'| - 1] == records[|records| - 1];
  }

  /** Purging a readable stream keeps every revision it was asked to retain, and drops at most limit records. */
  lemma PurgeKeepsRetained(stream: StreamKey, log: seq<Record>, checkpointRevision: nat, limit: nat, retain: seq<Option<nat>>, k: nat)
    requires Accepted(stream, log) && log != [] && log[0].sequence >= 1
    requires k < |retain| && retain[k].Some?
    requires Purged(log, checkpointRevision, limit, retain).Ok?
    ensures var log' := Purged(log, checkpointRevision, limit, retain).value;
      && |log| - |log'| <= limit
      && (Accepted(stream, log') ==> Materialize(stream, log', retain[k].value) == Materialize(stream, log, retain[k].value))
  {
    hide ExactBoundary, ScanLog, Materialize;
    var c := FindSequence(log, checkpointRevision, 0);
    var log' := Purged(log, checkpointRevision, limit, retain).value;
    if log' != log && Accepted(stream, log') {
      Sequences(stream, log, c - 1);
      Sequences(stream, log, c);
      PurgeKeepsReplay(stream, log, c, retain[k].value);
    }
  }

  lemma {:induction false} FreshMeans(ids: seq<Id>, taken: set<Id>)
    ensures FreshIds(ids, taken)
            <==> (forall i :: 0 <= i < |ids| ==> ids[i] !in taken) && (forall i, j :: 0 <= i < j < |ids| ==> ids[i] != ids[j])
  {
    if ids != [] {
      FreshMeans(ids[1..], taken + {ids[0]});
      assert forall i :: 1 <= i < |ids| ==> ids[i] == ids[1..][i - 1];
      assert forall i :: 0 <= i < |ids| - 1 ==> ids[1..][i] == ids[i + 1];
    }
  }

  /** An append succeeds exactly for a caller that knows the head and brings record ids that are new and differ. */
  lemma AppendMeans(log: seq<Record>, expected: Option<nat>, records: seq<Record>)
    ensures var head := if log == [] then None else Some(log[|log| - 1].sequence);
      match Appended(log, expected, records)
      case Ok(log') =>
        && log' == log + records && expected == head
        && (forall i, k :: 0 <= i < |records| && 0 <= k < |log| ==> records[i].recordId != log[k].recordId)
        && (forall i, j :: 0 <= i < j < |records| ==> records[i].recordId != records[j].recordId)
      case Err(e) =>
        if expected != head then e == WriteConflict(expected, head)
        else e == RecordIdConflict
             && ((exists i, k :: 0 <= i < |records| && 0 <= k < |log| && records[i].recordId == log[k].recordId)
                 || exists i, j :: 0 <= i < j < |records| && records[i].recordId == records[j].recordId)
  {
    FreshMeans(IdsOf(records), IdSet(log));
    forall i, k | 0 <= i < |records| && 0 <= k < |log| && records[i].recordId == log[k].recordId
      ensures IdsOf(records)[i] in IdSet(log)
    {
      assert IdsOf(log)[k] == log[k].recordId;
    }
    if i :| 0 <= i < |IdsOf(records)| && IdsOf(records)[i] in IdSet(log) {
      var k :| 0 <= k < |log| && IdsOf(log)[k] == IdsOf(records)[i];
      assert records[i].recordId == log[k].recordId;
    }
    hide FreshIds;
  }

  /** The checkpoint at position c allows the cut: few enough records go, and every retained revision lies behind its
      source. */
  ghost predicate MayCut(log: seq<Record>, c: nat, limit: nat, retain: seq<Option<nat>>)
    requires 1 <= c < |log|
  {
    c <= limit + 1 && forall k :: 0 <= k < |retain| ==> retain[k].Some? && log[c - 1].sequence < retain[k].value
  }

  /** A purge cuts the log right before its checkpoint's source exactly when it may, and otherwise keeps it. */
  lemma PurgeMeans(log: seq<Record>, checkpointRevision: nat, limit: nat, retain: seq<Option<nat>>, c: nat)
    requires c < |log| && log[c].sequence == checkpointRevision && forall k :: 0 <= k < c ==> log[k].sequence != checkpointRevision
    ensures var r := Purged(log, checkpointRevision, limit, retain);
      if checkpointRevision == 0 || limit == 0 then r == Err(InvalidRequest)
      else if c == 0 then r == Err(CheckpointUnavailable)
      else if !log[c].body.Checkpoint? then r == Err(NotACheckpoint)
      else if !ExactBoundary(log[c], log[c - 1]) then r == Err(InvalidBoundary)
      else r == Ok(if MayCut(log, c, limit, retain) then log[c - 1..] else log)
  {
    hide ExactBoundary;
    assert FindSequence(log, checkpointRevision, 0) == c;
  }

  // ---------------------------------------------------------------- a prepared repair, one record at a time

  lemma {:induction false} PrepareOneMore(first: nat, drafts: seq<Draft>, ids: seq<Id>, i: nat)
    requires i < |drafts| <= |ids|
    ensures PrepareAll(first, drafts[..i + 1], ids) == PrepareAll(first, drafts[..i], ids) + [Prepared(drafts[i], ids[i], first + i)]
    decreases |drafts|
  {
    if i > 0 {
      PrepareOneMore(first + 1, drafts[1..], ids[1..], i - 1);
      assert drafts[..i + 1][1..] == drafts[1..][..i] && drafts[..i][1..] == drafts[1..][..i - 1];
    } else {
      assert drafts[..1][1..] == [];
    }
  }

  lemma {:induction false} ReportOneMore(s: Scan, drafts: seq<Draft>, i: nat)
    requires i < |drafts|
    ensures var d := drafts[i]; var r := RestoredBy(s, drafts[..i]);
      RestoredBy(s, drafts[..i + 1])
      == Restored(r.messages + (if d.body.ToolCompleted? then [d.body.message] else []),
                  r.closed + (if d.body.RunClosed? then [RunOfDraft(d)] else []))
  {
    DraftsOneMore(drafts, i);
    var d := drafts[i];
    var m := if d.body.ToolCompleted? then [d.body.message] else [];
    var c := if d.body.RunClosed? then [RunOfDraft(d)] else [];
    assert s.messages + (DraftMessages(drafts[..i]) + m) == (s.messages + DraftMessages(drafts[..i])) + m;
    assert s.terminalRuns + (DraftRuns(drafts[..i]) + c) == (s.terminalRuns + DraftRuns(drafts[..i])) + c;
  }

  lemma {:induction false} DraftsOneMore(drafts: seq<Draft>, i: nat)
    requires i < |drafts|
    ensures DraftMessages(drafts[..i + 1])
            == DraftMessages(drafts[..i]) + (if drafts[i].body.ToolCompleted? then [drafts[i].body.message] else [])
    ensures DraftRuns(drafts[..i + 1])
            == DraftRuns(drafts[..i]) + (if drafts[i].body.RunClosed? then [RunOfDraft(drafts[i])] else [])
    decreases |drafts|
  {
    if i > 0 {
      DraftsOneMore(drafts[1..], i - 1);
      assert drafts[..i + 1][1..] == drafts[1..][..i] && drafts[..i][1..] == drafts[1..][..i - 1];
    } else {
      assert drafts[..1][1..] == [] && drafts[..0] == [];
    }
  }

  /** A fresh id is not among the records already appended. */
  lemma {:induction false} FreshHere(ids: seq<Id>, taken: set<Id>, i: nat)
    requires i < |ids| && FreshIds(ids, taken)
    ensures ids[i] !in taken && ids[i] !in ids[..i]
  {
    if i > 0 {
      FreshHere(ids[1..], taken + {ids[0]}, i - 1);
      assert ids[..i] == [ids[0]] + ids[1..][..i - 1];
    }
  }

  lemma IdSetPush(records: seq<Record>, r: Record)
    ensures IdSet(records + [r]) == IdSet(records) + {r.recordId}
  {
    assert IdsOf(records + [r]) == IdsOf(records) + [r.recordId];
  }

  lemma ScanIds(stream: StreamKey, log: seq<Record>)
    requires ScanLog(stream, log).Ok?
    ensures ScanLog(stream, log).value.recordIds == IdSet(log)
    ensures ScanLog(stream, log).value.expected == match Head(log) case None => 1 case Some(n) => n + 1
  {
    hide ScanLog;
    ScanCounts(stream, log);
    forall id ensures id in IdSet(log) <==> id in ScanLog(stream, log).value.recordIds {
      if k :| 0 <= k < |log| && log[k].recordId == id { assert IdsOf(log)[k] == id; }
      if id in IdsOf(log) { var k :| 0 <= k < |log| && IdsOf(log)[k] == id; assert log[k].recordId == id; }
    }
  }

  datatype RestoreFault = Unreadable(fault: Fault) | RecordIdReused | Interrupted

  /** InMemoryTranscriptStore. */
  class InMemoryTranscriptStore {
    var streams: map<StreamKey, seq<Record>>

    ghost function LogOf(stream: StreamKey): seq<Record>
      reads this
    {
      if stream in streams then streams[stream] else []
    }

    constructor ()
      ensures forall stream :: LogOf(stream) == []
    {
      streams := map[];
    }

    method Load(stream: StreamKey) returns (records: seq<Record>)
      ensures records == LogOf(stream)
    {
      records := if stream in streams then streams[stream] else [];
    }

    method Append(stream: StreamKey, expected: Option<nat>, records: seq<Record>) returns (r: Result<Option<nat>, StoreFault>)
      modifies this
      ensures match Appended(old(LogOf(stream)), expected, records)
              case Err(e) => r == Err(e) && streams == old(streams)
              case Ok(log) => r == Ok(Head(log)) && LogOf(stream) == log
                              && forall other :: other != stream ==> LogOf(other) == old(LogOf(other))
    {
      var current := Load(stream);
      if Head(current) != expected { return Err(WriteConflict(expected, Head(current))); }
      var taken := IdSet(current);
      var i := 0;
      while i < |records|
        invariant 0 <= i <= |records| && streams == old(streams)
        invariant FreshIds(IdsOf(records), IdSet(current)) <==> FreshIds(IdsOf(records)[i..], taken)
      {
        assert IdsOf(records)[i..][1..] == IdsOf(records)[i + 1..];
        if records[i].recordId in taken { return Err(RecordIdConflict); }
        taken := taken + {records[i].recordId};
        i := i + 1;
      }
      streams := streams[stream := current + records];
      r := Ok(Head(current + records));
    }

    method PurgeBeforeCheckpoint(stream: StreamKey, checkpointRevision: nat, limit: nat, retain: seq<Option<nat>>)
      returns (r: Result<nat, StoreFault>)
      modifies this
      ensures match Purged(old(LogOf(stream)), checkpointRevision, limit, retain)
              case Err(e) => r == Err(e) && streams == old(streams)
              case Ok(log) => r == Ok(|old(LogOf(stream))| - |log|) && LogOf(stream) == log
                              && forall other :: other != stream ==> LogOf(other) == old(LogOf(other))
    {
      if checkpointRevision < 1 || limit < 1 { return Err(InvalidRequest); }
      var records := Load(stream);
      var c := 0;
      while c < |records| && records[c].sequence != checkpointRevision
        invariant 0 <= c <= |records|
        invariant FindSequence(records, checkpointRevision, 0) == FindSequence(records, checkpointRevision, c)
      {
        c := c + 1;
      }
      if c < 1 || c == |records| { return Err(CheckpointUnavailable); }
      if !records[c].body.Checkpoint? { return Err(NotACheckpoint); }
      if !ExactBoundary(records[c], records[c - 1]) { return Err(InvalidBoundary); }
      var held := false;
      for k := 0 to |retain|
        invariant held <==> Holds(retain[..k], records[c - 1].sequence)
      {
        if retain[k].None? || retain[k].value <= records[c - 1].sequence { held := true; }
        assert forall j :: 0 <= j < k ==> retain[..k + 1][j] == retain[..k][j];
        assert retain[..k + 1][k] == retain[k];
      }
      assert retain[..|retain|] == retain;
      if c - 1 > limit || held { return Ok(0); }
      streams := streams[stream := records[c - 1..]];
      r := Ok(c - 1);
    }
  }

  /** The next prepared record fits behind the ones already appended. */
  lemma NextFits(stream: StreamKey, log: seq<Record>, drafts: seq<Draft>, ids: seq<Id>, i: nat)
    requires Accepted(stream, log) && i < |drafts| <= |ids|
    requires FreshIds(ids[..|drafts|], CommittedScan(stream, log).value.recordIds)
    ensures var first := CommittedScan(stream, log).value.expected;
      var current := log + PrepareAll(first, drafts[..i], ids);
      var record := Prepared(drafts[i], ids[i], first + i);
      Appended(current, Head(current), [record]) == Ok(log + PrepareAll(first, drafts[..i + 1], ids))
  {
    hide ScanLog, PrepareAll, FreshIds, Appended, Head;
    var first := CommittedScan(stream, log).value.expected;
    var current := log + PrepareAll(first, drafts[..i], ids);
    var record := Prepared(drafts[i], ids[i], first + i);
    ScanIds(stream, log);
    FreshHere(ids[..|drafts|], CommittedScan(stream, log).value.recordIds, i);
    assert ids[..|drafts|][..i] == ids[..i];
    PreparedTail(log, first, drafts, ids, i);
    OneFits(current, record);
    PrepareOneMore(first, drafts, ids, i);
    assert current + [record] == log + PrepareAll(first, drafts[..i + 1], ids);
  }

  lemma OneFits(current: seq<Record>, record: Record)
    requires record.recordId !in IdSet(current)
    ensures Appended(current, Head(current), [record]) == Ok(current + [record])
  {
    OneFresh(record, IdSet(current));
    hide FreshIds;
  }

  lemma OneFresh(record: Record, taken: set<Id>)
    requires record.recordId !in taken
    ensures FreshIds(IdsOf([record]), taken)
  {
    assert IdsOf([record]) == [record.recordId] && [record.recordId][1..] == [];
  }

  lemma {:induction false} PreparedTail(log: seq<Record>, first: nat, drafts: seq<Draft>, ids: seq<Id>, i: nat)
    requires i <= |drafts| <= |ids|
    ensures var current := log + PrepareAll(first, drafts[..i], ids);
      && (i > 0 ==> Head(current) == Some(first + i - 1))
      && (i == 0 ==> current == log)
      && forall id :: id in IdSet(current) ==> id in IdSet(log) || id in ids[..i]
  {
    if i > 0 {
      PreparedTail(log, first, drafts, ids, i - 1);
      PrepareOneMore(first, drafts, ids, i - 1);
      var before := log + PrepareAll(first, drafts[..i - 1], ids);
      var record := Prepared(drafts[i - 1], ids[i - 1], first + i - 1);
      assert log + PrepareAll(first, drafts[..i], ids) == before + [record];
      IdSetPush(before, record);
      assert ids[..i] == ids[..i - 1] + [ids[i - 1]];
    }
  }

  /** appendPrepared for the next record of a repair. */
  method AppendPrepared(store: InMemoryTranscriptStore, stream: StreamKey, ghost log: seq<Record>, first: nat,
                        drafts: seq<Draft>, ids: seq<Id>, i: nat, revision: Option<nat>)
    returns (head: Option<nat>)
    requires Accepted(stream, log) && i < |drafts| <= |ids| && first == CommittedScan(stream, log).value.expected
    requires FreshIds(ids[..|drafts|], CommittedScan(stream, log).value.recordIds)
    requires store.LogOf(stream) == log + PrepareAll(first, drafts[..i], ids) && revision == Head(store.LogOf(stream))
    modifies store
    ensures store.LogOf(stream) == log + PrepareAll(first, drafts[..i + 1], ids) && head == Head(store.LogOf(stream))
    ensures forall other :: other != stream ==> store.LogOf(other) == old(store.LogOf(other))
  {
    hide Accepted, CommittedScan, PrepareAll, FreshIds, Appended, Head;
    NextFits(stream, log, drafts, ids, i);
    var appended := store.Append(stream, revision, [Prepared(drafts[i], ids[i], first + i)]);
    head := appended.value;
  }

  /** The log is kept, and every record behind it is a repair that it calls for. */
  ghost predicate OnlyRepairs(stream: StreamKey, log: seq<Record>, log': seq<Record>, recovery: Recovery) {
    && log <= log'
    && (log' != log ==> Accepted(stream, log))
    && forall k :: |log| <= k < |log'| ==> Repairs(stream, log, recovery, log'[k].coordinate, log'[k].body)
  }

  lemma {:induction false} PreparedAt(first: nat, drafts: seq<Draft>, ids: seq<Id>, i: nat)
    requires i < |drafts| <= |ids|
    ensures PrepareAll(first, drafts, ids)[i] == Prepared(drafts[i], ids[i], first + i)
    decreases |drafts|
  {
    if i > 0 { PreparedAt(first + 1, drafts[1..], ids[1..], i - 1); }
  }

  lemma RestoreOnlyRepairs(stream: StreamKey, log: seq<Record>, recovery: Recovery, ids: seq<Id>, budget: nat)
    ensures OnlyRepairs(stream, log, AfterRestore(stream, log, recovery, ids, budget), recovery)
  {
    hide ScanLog, PrepareAll, FreshIds, Repairs, RepairOf;
    var log' := AfterRestore(stream, log, recovery, ids, budget);
    if log' != log {
      var drafts := RepairOf(stream, log, recovery);
      var first := CommittedScan(stream, log).value.expected;
      var done := drafts[..Min(budget, |drafts|)];
      forall k | |log| <= k < |log'| ensures Repairs(stream, log, recovery, log'[k].coordinate, log'[k].body) {
        PreparedAt(first, done, ids, k - |log|);
        RepairSays(stream, log, recovery, drafts[k - |log|]);
      }
    }
  }

  /** restore, with the record ids it draws and the number of appends it lives to make. Each append is its own
      commit, so what a crash leaves behind is a prefix of the repair. */
  method Restore(store: InMemoryTranscriptStore, stream: StreamKey, recovery: Recovery, ids: seq<Id>, budget: nat)
    returns (r: Result<Restored, RestoreFault>)
    modifies store
    ensures store.LogOf(stream) == AfterRestore(stream, old(store.LogOf(stream)), recovery, ids, budget)
    ensures forall other :: other != stream ==> store.LogOf(other) == old(store.LogOf(other))
    ensures r.Ok? ==> Accepted(stream, old(store.LogOf(stream)))
                      && r.value == RestoreResult(stream, old(store.LogOf(stream)), recovery)
                      && budget >= |RepairOf(stream, old(store.LogOf(stream)), recovery)|
    ensures r.Err? && r.error.Unreadable? <==> !Accepted(stream, old(store.LogOf(stream)))
    ensures OnlyRepairs(stream, old(store.LogOf(stream)), store.LogOf(stream), recovery)
  {
    hide OnlyRepairs, RestoredBy, PrepareAll, FreshIds, Repair, ScanLog, Repairable, Typed, Accepted;
    var log := store.Load(stream);
    RestoreOnlyRepairs(stream, log, recovery, ids, budget);
    var scanned := ScanCommittedTranscript(stream, log);
    if scanned.Err? { return Err(Unreadable(scanned.error)); }
    var s := scanned.value;
    AcceptedScan(stream, log);
    var drafts := Repair(s, recovery);
    if |ids| < |drafts| || !FreshIds(ids[..|drafts|], s.recordIds) { return Err(RecordIdReused); }
    var messages, closed, revision := s.messages, s.terminalRuns, Head(log);
    NothingPrepared(log, s, drafts, ids);
    var i := 0;
    while i < |drafts| && i < budget
      invariant 0 <= i <= |drafts| && i <= budget
      invariant store.LogOf(stream) == log + PrepareAll(s.expected, drafts[..i], ids)
      invariant forall other :: other != stream ==> store.LogOf(other) == old(store.LogOf(other))
      invariant revision == Head(store.LogOf(stream))
      invariant Restored(messages, closed) == RestoredBy(s, drafts[..i])
    {
      ReportOneMore(s, drafts, i);
      revision := AppendPrepared(store, stream, log, s.expected, drafts, ids, i, revision);
      if drafts[i].body.ToolCompleted? { messages := messages + [drafts[i].body.message]; }
      if drafts[i].body.RunClosed? { closed := closed + [RunOfDraft(drafts[i])]; }
      i := i + 1;
    }
    if i < |drafts| { return Err(Interrupted); }
    assert drafts[..i] == drafts;
    r := Ok(Restored(messages, closed));
  }

  lemma NothingPrepared(log: seq<Record>, s: Scan, drafts: seq<Draft>, ids: seq<Id>)
    requires |drafts| <= |ids|
    ensures log == log + PrepareAll(s.expected, drafts[..0], ids)
    ensures Restored(s.messages, s.terminalRuns) == RestoredBy(s, drafts[..0])
  {}
}
