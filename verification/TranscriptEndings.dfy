/** Which deferred runs a restore ends, told of the log alone. */
module TranscriptEndings {
  import opened Wrappers
  import opened Transcript
  import opened TranscriptInvariant
  import opened TranscriptRepair
  import opened TranscriptRestore
  import opened TranscriptPurge
  import opened TranscriptPurgedRestore
  import opened TranscriptCalls
  import opened TranscriptRestored
  import opened TranscriptGrammar

  // ---------------------------------------------------------------- why a turn's message stopped

  /** The turn holds the stop reason of its message. */
  ghost predicate StopKnown(log: seq<Record>, t: OpenTurn) {
    && (t.assistantRecordId.None? ==> t.assistantStopReason.None?)
    && (t.assistantRecordId.Some? ==> forall m: nat :: m < |log| && SpokenAt(log, m) ==> t.assistantStopReason == Some(log[m].body.message.stopReason))
  }

  /** The turn that position k closes ended with this reason, or without a message. */
  ghost predicate StopAt(log: seq<Record>, k: nat, reason: Option<StopReason>) {
    && k < |log|
    && (reason.None? <==> !Spoken(log[..k]))
    && forall m: nat :: m < k && SpokenAt(log[..k], m) ==> reason == Some(log[m].body.message.stopReason)
  }

  ghost predicate ClosedFor(log: seq<Record>, run: Id, turn: ClosedTurn, k: nat) {
    ClosedAs(log, run, turn, k) && StopAt(log, k, turn.assistantStopReason)
  }

  ghost predicate TurnsKnown(log: seq<Record>, s: Scan) {
    && (s.openTurn.Some? ==> StopKnown(log, s.openTurn.value))
    && (forall run :: run in s.lastClosed ==> exists k: nat :: ClosedFor(log, run, s.lastClosed[run], k))
  }

  lemma FoldStops(r: Record, t: OpenTurn, messages: seq<Message>)
    requires WellFormed(r) && !Ends(r)
    ensures FoldIntoTurn(r, t, messages).Ok? ==>
              var f := FoldIntoTurn(r, t, messages).value.openTurn;
              f.Some? && f.value.assistantStopReason == (if Speaks(r) then Some(r.body.message.stopReason) else t.assistantStopReason)
  {
    hide OpenToolCalls, FirstUnanswered, FindCall;
  }

  lemma StepStops(stream: StreamKey, s: Scan, r: Record)
    requires Step(stream, s, r).Ok? && !Ends(r)
    ensures var t' := Step(stream, s, r).value.openTurn;
      t'.Some? && t'.value.assistantStopReason
                  == (if Speaks(r) then Some(r.body.message.stopReason) else CurrentTurn(s, r).assistantStopReason)
  {
    hide FoldIntoTurn, ExactBoundary, TerminalFits, FirstUnanswered;
    if WellFormed(r) { FoldStops(r, CurrentTurn(s, r), s.messages); }
  }

  lemma StopGrows(log: seq<Record>, r: Record, t: OpenTurn, t': OpenTurn)
    requires !Ends(r) && TurnParts(log, t) && StopKnown(log, t) && CallsMove(t, r, t') && (Speaks(r) ==> t.assistantRecordId.None?)
    requires t'.assistantStopReason == (if Speaks(r) then Some(r.body.message.stopReason) else t.assistantStopReason)
    ensures StopKnown(log + [r], t')
  {
    hide InTurn, OpenedAt, StartsAt, FinishesAt;
    var log' := log + [r];
    forall m: nat | m < |log'| && SpokenAt(log', m) && t'.assistantRecordId.Some?
      ensures t'.assistantStopReason == Some(log'[m].body.message.stopReason)
    {
      TurnPush(log, r, m);
      if m < |log| { assert log'[m] == log[m]; }
    }
  }

  lemma ClosedStays(log: seq<Record>, r: Record, run: Id, turn: ClosedTurn, k: nat)
    requires ClosedFor(log, run, turn, k) && !(r.body.TurnClosed? && r.coordinate.runId == run)
    ensures ClosedFor(log + [r], run, turn, k)
  {
    hide SpokenAt, LastTurn, ClosedAs;
    ClosedHere(log, run, turn, k);
    TurnPushed(log, r, run, turn, k);
    assert (log + [r])[..k] == log[..k];
  }

  lemma TurnPushed(log: seq<Record>, r: Record, run: Id, turn: ClosedTurn, k: nat)
    requires ClosedAs(log, run, turn, k) && !(r.body.TurnClosed? && r.coordinate.runId == run)
    ensures ClosedAs(log + [r], run, turn, k)
  {}

  lemma ClosedHere(log: seq<Record>, run: Id, turn: ClosedTurn, k: nat)
    requires ClosedAs(log, run, turn, k)
    ensures k < |log|
  {}

  lemma NewlyClosed(log: seq<Record>, r: Record, t: OpenTurn, turn: ClosedTurn)
    requires r.body.TurnClosed? && TurnParts(log, t) && StopKnown(log, t)
    requires turn == ClosedTurn(r.coordinate, r.body.status, t.assistantStopReason)
    ensures ClosedFor(log + [r], r.coordinate.runId, turn, |log|)
  {
    hide InTurn, OpenedAt;
    var log' := log + [r];
    assert log'[..|log|] == log;
    TurnLast(log, r, turn);
    if t.assistantRecordId.Some? { var m: nat :| SpokenAt(log, m) && log[m].recordId == t.assistantRecordId.value; }
  }

  lemma {:induction false} ScanStops(stream: StreamKey, log: seq<Record>)
    requires ScanLog(stream, log).Ok?
    ensures TurnsKnown(log, ScanLog(stream, log).value)
  {
    hide Step, TurnsKnown;
    if log == [] {
      NoTurnKnown();
    } else {
      var front, r := log[..|log| - 1], log[|log| - 1];
      assert log == front + [r];
      ScanStops(stream, front);
      StepKnown(stream, front, ScanLog(stream, front).value, r);
    }
  }

  lemma NoTurnKnown()
    ensures TurnsKnown([], EmptyScan)
  {}

  lemma StepKnown(stream: StreamKey, log: seq<Record>, s: Scan, r: Record)
    requires ScanLog(stream, log) == Ok(s) && Step(stream, s, r).Ok? && TurnsKnown(log, s)
    ensures TurnsKnown(log + [r], Step(stream, s, r).value)
  {
    hide Step, ScanLog, StopKnown, ClosedFor, CallsMove, DeferredMoves, TurnParts, TurnReflects, Coherent, TurnMatches, Shows;
    var s' := Step(stream, s, r).value;
    ScanCoherent(stream, log);
    ScanCounts(stream, log);
    StepTracks(stream, s, r);
    StepMoves(stream, s, r);
    CurrentMatches(stream, log, s, r);
    MatchesParts(log, CurrentTurn(s, r));
    if Ends(r) {
      StepEnds(stream, s, r);
    } else {
      StepTurn(stream, s, r);
      StepStops(stream, s, r);
      if s.openTurn.None? { FreshStop(log, r); }
      StopGrows(log, r, CurrentTurn(s, r), s'.openTurn.value);
    }
    forall run | run in s'.lastClosed ensures exists k: nat :: ClosedFor(log + [r], run, s'.lastClosed[run], k) {
      if r.body.TurnClosed? && run == r.coordinate.runId && s.openTurn.Some? {
        NewlyClosed(log, r, s.openTurn.value, s'.lastClosed[run]);
      } else {
        var k: nat :| ClosedFor(log, run, s.lastClosed[run], k);
        ClosedStays(log, r, run, s.lastClosed[run], k);
      }
    }
  }

  lemma MatchesParts(log: seq<Record>, t: OpenTurn)
    requires TurnMatches(log, t)
    ensures TurnParts(log, t)
  {
    hide TurnParts, TurnReflects, CallsOk, OneStartEach;
  }

  lemma FreshStop(log: seq<Record>, r: Record)
    ensures StopKnown(log, OpenTurn(r.coordinate, false, None, None, [], None))
  {}

  // ---------------------------------------------------------------- the runs that a restore ends

  /** The run's last turn was interrupted, or its message did not stop in order to run tools. */
  ghost predicate LastTurnOver(log: seq<Record>, run: Id) {
    exists k: nat, reason: Option<StopReason> ::
      LastTurn(log, run, k) && StopAt(log, k, reason) && (log[k].body.status == TurnInterrupted || reason != Some(ToolUse))
  }

  /** The run of the log's open turn. */
  predicate OpenFor(log: seq<Record>, run: Id) {
    Open(log) && log[|log| - 1].coordinate.runId == run
  }

  lemma OneStop(log: seq<Record>, k: nat, a: Option<StopReason>, b: Option<StopReason>)
    requires StopAt(log, k, a) && StopAt(log, k, b)
    ensures a == b
  {
    hide SpokenAt;
    if Spoken(log[..k]) {
      var m: nat :| SpokenAt(log[..k], m);
      SpokenHere(log[..k], m);
    }
  }

  lemma SpokenHere(log: seq<Record>, m: nat)
    requires SpokenAt(log, m)
    ensures m < |log|
  {}

  lemma LastTurnSays(log: seq<Record>, s: Scan, run: Id)
    requires TurnsKnown(log, s) && run in s.lastClosed
    ensures LastTurnOver(log, run)
            <==> (s.lastClosed[run].status == TurnInterrupted || s.lastClosed[run].assistantStopReason != Some(ToolUse))
  {
    hide StopAt, StopKnown;
    var turn := s.lastClosed[run];
    var k: nat :| ClosedFor(log, run, turn, k);
    OneLast(log, run);
    if j: nat, reason: Option<StopReason> :| LastTurn(log, run, j) && StopAt(log, j, reason)
                                             && (log[j].body.status == TurnInterrupted || reason != Some(ToolUse)) {
      OneStop(log, k, reason, turn.assistantStopReason);
    }
  }

  /** The pending operation of a turn is the last one of that turn's own run. */
  lemma PendingIsOpen(stream: StreamKey, log: seq<Record>, s: Scan, run: Id)
    requires ScanLog(stream, log) == Ok(s) && Coherent(stream, s) && run in s.latestOrigins && !OpenRun(s, run)
    requires s.openTurn.Some? && PendingTurn(s.openTurn.value)
    ensures s.latestOrigins[run].body.DeferredOpened? && s.openTurn.value.deferred.value.0.body.DeferredOpened?
    ensures s.latestOrigins[run].body.operationId != s.openTurn.value.deferred.value.0.body.operationId
  {
    ScanTracks(stream, log);
    var t := s.openTurn.value;
    var own := t.coordinate.runId;
    hide ScanLog, ClosuresCoherent, OpenedBy, ClosedAs, Abandoned, CallsOk;
    assert OriginCoherent(s, run);
    var k: nat :| OpenedBy(log, run, s.latestOrigins[run], k);
    var j: nat :| OpenedBy(log, own, s.latestOrigins[own], j);
    OpenedMeans(log, run, s.latestOrigins[run], k);
    OpenedMeans(log, own, s.latestOrigins[own], j);
    OneOperation(stream, log, k, j);
  }

  /** Operation ids are opened once. */
  lemma OneOperation(stream: StreamKey, log: seq<Record>, a: nat, b: nat)
    requires ScanLog(stream, log).Ok? && a < |log| && b < |log| && a != b
    requires log[a].body.DeferredOpened? && log[b].body.DeferredOpened?
    ensures log[a].body.operationId != log[b].body.operationId
  {
    hide ScanLog, Step;
    var k, h := if a < b then b else a, if a < b then a else b;
    ScanPrefix(stream, log, k);
    ScanPrefix(stream, log, k + 1);
    ScanNext(stream, log, k);
    OperationsSeen(stream, log[..k], log[k].body.operationId);
    OpensNew(stream, ScanLog(stream, log[..k]).value, log[k]);
    assert log[..k][h] == log[h];
  }

  lemma OpensNew(stream: StreamKey, s: Scan, r: Record)
    requires Step(stream, s, r).Ok? && r.body.DeferredOpened?
    ensures r.body.operationId !in s.deferredOrigins
  {
    hide FoldRecord;
  }

  /** A restore ends exactly the runs that opened deferred work and were not ended, whose last turn is the open one with no
      operation pending, or is over without a call to run. */
  lemma EndedByLog(stream: StreamKey, log: seq<Record>, recovery: Recovery, run: Id)
    requires Accepted(stream, log)
    ensures (exists d :: d in RepairOf(stream, log, recovery) && d.body.RunClosed? && d.coordinate.runId == run)
            <==> (&& (exists h :: 0 <= h < |log| && log[h].body.DeferredOpened? && log[h].coordinate.runId == run)
                  && !(exists h :: 0 <= h < |log| && log[h].body.RunClosed? && log[h].coordinate.runId == run)
                  && (if OpenFor(log, run) then !PendingIn(log) else LastTurnOver(log, run)))
  {
    EndedExactly(stream, log, recovery, run);
    var s := CommittedScan(stream, log).value;
    ScanOfAccepted(stream, log);
    OriginsSeen(stream, log, run);
    if run in s.latestOrigins { EndedSays(stream, log, s, run); }
  }

  lemma EndedSays(stream: StreamKey, log: seq<Record>, s: Scan, run: Id)
    requires ScanLog(stream, log) == Ok(s) && run in s.latestOrigins
    ensures Ended(s, run) <==> if OpenFor(log, run) then !PendingIn(log) else LastTurnOver(log, run)
  {
    ScanCoherent(stream, log);
    ScanStops(stream, log);
    ScanShows(stream, log);
    RunOpen(log, s, run);
    hide ScanLog, TurnsKnown, LastTurnOver, PendingIn, ClosuresCoherent, TurnMatches, TurnOk;
    assert OriginCoherent(s, run);
    if OpenRun(s, run) {
      var r := log[|log| - 1];
      CurrentMatches(stream, log, s, r);
      PendingOk(stream, log, s, r, "", "");
    } else {
      LastTurnSays(log, s, run);
      if s.openTurn.Some? && PendingTurn(s.openTurn.value) { PendingIsOpen(stream, log, s, run); }
    }
  }

  lemma RunOpen(log: seq<Record>, s: Scan, run: Id)
    requires Shows(log, s)
    ensures OpenRun(s, run) <==> OpenFor(log, run)
    ensures s.openTurn.Some? ==> log != []
  {
    hide TurnParts;
  }
}
