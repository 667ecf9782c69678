/** In which order a resumed restore reports the deferred runs it closes: when it is the order of an undisturbed one. */
module TranscriptOrder {
  import opened Wrappers
  import opened Transcript
  import opened TranscriptInvariant
  import opened TranscriptRepair
  import opened TranscriptResume
  import opened TranscriptRestore

  /** The first position of a run, from i on; |order| when there is none. */
  function Place(order: seq<Id>, run: Id, i: nat): (p: nat)
    requires i <= |order|
    ensures i <= p <= |order| && (p < |order| ==> order[p] == run)
    ensures forall k :: i <= k < p ==> order[k] != run
    decreases |order| - i
  {
    if i == |order| || order[i] == run then i else Place(order, run, i + 1)
  }

  function PlaceOf(order: seq<Id>, d: Draft): nat {
    Place(order, d.coordinate.runId, 0)
  }

  /** The drafts name runs in the order in which those first opened deferred work. */
  ghost predicate InOrder(order: seq<Id>, drafts: seq<Draft>) {
    forall i, j :: 0 <= i < j < |drafts| ==> PlaceOf(order, drafts[i]) < PlaceOf(order, drafts[j])
  }

  ghost predicate Terminals(drafts: seq<Draft>) {
    forall i :: 0 <= i < |drafts| ==> drafts[i].body.RunClosed?
  }

  // ---------------------------------------------------------------- lists in order

  lemma {:induction false} OneInOrder(order: seq<Id>, a: seq<Draft>, b: seq<Draft>)
    requires InOrder(order, a) && InOrder(order, b) && forall d :: d in a <==> d in b
    ensures a == b
  {
    if a == [] {
      SomeDraft(b);
    } else {
      assert a[0] in a && b != [];
      assert b[0] in b;
      SameHead(order, a, b);
      forall d ensures d in a[1..] <==> d in b[1..] {
        TailMember(order, a, d);
        TailMember(order, b, d);
      }
      TailInOrder(order, a, 1);
      TailInOrder(order, b, 1);
      OneInOrder(order, a[1..], b[1..]);
      assert a == [a[0]] + a[1..] && b == [b[0]] + b[1..];
    }
  }

  lemma SameHead(order: seq<Id>, a: seq<Draft>, b: seq<Draft>)
    requires InOrder(order, a) && InOrder(order, b) && a != [] && b != [] && a[0] in b && b[0] in a
    ensures a[0] == b[0]
  {
    var i :| 0 <= i < |a| && a[i] == b[0];
    var j :| 0 <= j < |b| && b[j] == a[0];
    HeadFirst(order, a, i);
    HeadFirst(order, b, j);
  }

  lemma HeadFirst(order: seq<Id>, drafts: seq<Draft>, i: nat)
    requires InOrder(order, drafts) && i < |drafts|
    ensures i > 0 ==> PlaceOf(order, drafts[0]) < PlaceOf(order, drafts[i])
  {
    hide PlaceOf;
  }

  lemma TailMember(order: seq<Id>, drafts: seq<Draft>, d: Draft)
    requires InOrder(order, drafts) && drafts != []
    ensures d in drafts[1..] <==> d in drafts && d != drafts[0]
  {
    hide PlaceOf;
    if d in drafts[1..] {
      var j :| 1 <= j < |drafts| && drafts[j] == d;
      assert PlaceOf(order, drafts[0]) < PlaceOf(order, drafts[j]);
    }
  }

  lemma TailInOrder(order: seq<Id>, drafts: seq<Draft>, n: nat)
    requires InOrder(order, drafts) && n <= |drafts|
    ensures InOrder(order, drafts[n..])
  {
    hide PlaceOf;
    forall i, j | 0 <= i < j < |drafts[n..]| ensures PlaceOf(order, drafts[n..][i]) < PlaceOf(order, drafts[n..][j]) {
      assert drafts[n..][i] == drafts[n + i] && drafts[n..][j] == drafts[n + j];
    }
  }

  lemma {:induction false} RunsNameDrafts(a: seq<Draft>, b: seq<Draft>)
    requires Terminals(a) && Terminals(b)
    ensures DraftRuns(a) == DraftRuns(b) <==> a == b
  {
    if a != [] && b != [] {
      RunsNameDrafts(a[1..], b[1..]);
      assert DraftRuns(a)[0] == RunOfDraft(a[0]) && DraftRuns(a)[1..] == DraftRuns(a[1..]);
      assert DraftRuns(b)[0] == RunOfDraft(b[0]) && DraftRuns(b)[1..] == DraftRuns(b[1..]);
      assert a == [a[0]] + a[1..] && b == [b[0]] + b[1..];
    }
  }

  // ---------------------------------------------------------------- the terminals of a repair

  lemma PlaceOfRun(stream: StreamKey, s: Scan, i: nat)
    requires Coherent(stream, s) && i < |s.originOrder|
    ensures Place(s.originOrder, s.originOrder[i], 0) == i
  {
    hide Coherent;
    var p := Place(s.originOrder, s.originOrder[i], 0);
    if p < i { OrderDistinct(stream, s, p, i); }
  }

  lemma {:induction false} RunClosesInOrder(stream: StreamKey, s: Scan, repaired: set<Id>, i: nat)
    requires Coherent(stream, s) && Typed(s) && i <= |s.originOrder|
    ensures Terminals(RunCloses(s, repaired, None, i)) && InOrder(s.originOrder, RunCloses(s, repaired, None, i))
    ensures forall d :: d in RunCloses(s, repaired, None, i) ==> i <= PlaceOf(s.originOrder, d)
    decreases |s.originOrder| - i
  {
    hide Coherent, IsClose, Closable, Place;
    if i < |s.originOrder| {
      RunClosesInOrder(stream, s, repaired, i + 1);
      var rest := RunCloses(s, repaired, None, i + 1);
      var run := s.originOrder[i];
      if Closable(s, repaired, None, run) {
        var d := RunCloses(s, repaired, None, i)[0];
        CloseOfOrder(s, repaired, i);
        CloseNamesRun(stream, s, repaired, run, d);
        PlaceOfRun(stream, s, i);
        PrependInOrder(s.originOrder, d, rest);
      } else {
        assert [] + rest == rest;
      }
    }
  }

  lemma PrependInOrder(order: seq<Id>, d: Draft, rest: seq<Draft>)
    requires InOrder(order, rest)
    ensures InOrder(order, [d] + rest) <==> forall e :: e in rest ==> PlaceOf(order, d) < PlaceOf(order, e)
  {
    hide PlaceOf;
    var all := [d] + rest;
    if forall e :: e in rest ==> PlaceOf(order, d) < PlaceOf(order, e) {
      forall i, j | 0 <= i < j < |all| ensures PlaceOf(order, all[i]) < PlaceOf(order, all[j]) {
        assert all[j] == rest[j - 1];
        if i > 0 { assert all[i] == rest[i - 1]; }
      }
    } else {
      var e :| e in rest && !(PlaceOf(order, d) < PlaceOf(order, e));
      var j :| 0 <= j < |rest| && rest[j] == e;
      assert all[0] == d && all[j + 1] == e;
    }
  }

  /** Behind a closed turn, the terminals left are reported in the order of a fresh repair exactly when they are in
      order. */
  lemma RestInOrder(stream: StreamKey, s: Scan, recovery: Recovery, rest: seq<Draft>)
    requires Repairable(stream, s) && s.openTurn.None? && Continues(s, recovery, rest)
    ensures RestoredBy(s, rest).closed == RestoredBy(s, Repair(s, recovery)).closed <==> InOrder(s.originOrder, rest)
  {
    hide Coherent, RunCloses, InOrder, DraftRuns, DraftMessages, Typed;
    ClosedTurnRepair(s, recovery);
    var again := Repair(s, recovery);
    RunClosesInOrder(stream, s, {}, 0);
    RunsNameDrafts(rest, again);
    CancelLeft(s.terminalRuns, DraftRuns(rest), DraftRuns(again));
    if InOrder(s.originOrder, rest) { OneInOrder(s.originOrder, rest, again); }
  }

  lemma CancelLeft<T>(front: seq<T>, a: seq<T>, b: seq<T>)
    ensures front + a == front + b <==> a == b
  {
    assert (front + a)[|front|..] == a && (front + b)[|front|..] == b;
  }

  // ---------------------------------------------------------------- one crash

  /** The open turn's own run is closed first, although another run that is due opened deferred work before it. */
  ghost predicate Overtakes(s: Scan)
    requires Typed(s)
  {
    RepairsOpenRun(s) && exists run :: run in s.originOrder && Closable(s, OwnRun(s), None, run) && Earlier(s, run)
  }

  predicate Earlier(s: Scan, run: Id)
    requires s.openTurn.Some?
  {
    Place(s.originOrder, run, 0) < Place(s.originOrder, s.openTurn.value.coordinate.runId, 0)
  }

  lemma ClosingInOrder(stream: StreamKey, s: Scan)
    requires Repairable(stream, s) && s.openTurn.Some?
    ensures InOrder(s.originOrder, OwnClose(s) + RunCloses(s, OwnRun(s), None, 0)) <==> !Overtakes(s)
  {
    hide Coherent, RunCloses, InOrder, Closable, Place, Typed;
    var closes := RunCloses(s, OwnRun(s), None, 0);
    RunClosesInOrder(stream, s, OwnRun(s), 0);
    if RepairsOpenRun(s) {
      var own := OwnClose(s)[0];
      PrependInOrder(s.originOrder, own, closes);
      assert OwnClose(s) + closes == [own] + closes;
      OvertakingTerminal(stream, s, own, closes);
    } else {
      assert OwnClose(s) + closes == closes;
    }
  }

  lemma OvertakingTerminal(stream: StreamKey, s: Scan, own: Draft, closes: seq<Draft>)
    requires Repairable(stream, s) && s.openTurn.Some? && RepairsOpenRun(s)
    requires own.coordinate == s.openTurn.value.coordinate && closes == RunCloses(s, OwnRun(s), None, 0)
    ensures (forall e :: e in closes ==> PlaceOf(s.originOrder, own) < PlaceOf(s.originOrder, e)) <==> !Overtakes(s)
  {
    hide Coherent, RunCloses, IsClose, Place;
    forall e | e in closes && !(PlaceOf(s.originOrder, own) < PlaceOf(s.originOrder, e)) ensures Overtakes(s) {
      RunClosesMember(s, OwnRun(s), 0, e);
      var k :| 0 <= k < |s.originOrder| && IsClose(s, OwnRun(s), s.originOrder[k], e);
      OwnIsLater(stream, s, k, e);
    }
    if Overtakes(s) {
      var run :| run in s.originOrder && Closable(s, OwnRun(s), None, run) && Earlier(s, run);
      var k :| 0 <= k < |s.originOrder| && s.originOrder[k] == run;
      var e := CloseDraft(s, run, s.lastClosed[run].coordinate);
      DueHere(s, k, e);
      RunClosesMember(s, OwnRun(s), 0, e);
      CloseNamesRun(stream, s, OwnRun(s), run, e);
      assert e in closes;
    }
  }

  lemma DueHere(s: Scan, k: nat, e: Draft)
    requires Typed(s) && k < |s.originOrder| && Closable(s, OwnRun(s), None, s.originOrder[k])
    requires e == CloseDraft(s, s.originOrder[k], s.lastClosed[s.originOrder[k]].coordinate)
    ensures IsClose(s, OwnRun(s), s.originOrder[k], e)
  {}

  lemma OwnIsLater(stream: StreamKey, s: Scan, k: nat, e: Draft)
    requires Repairable(stream, s) && RepairsOpenRun(s) && k < |s.originOrder| && IsClose(s, OwnRun(s), s.originOrder[k], e)
    requires PlaceOf(s.originOrder, e) <= Place(s.originOrder, s.openTurn.value.coordinate.runId, 0)
    ensures Overtakes(s)
  {
    hide Coherent, Closable, CloseDraft;
    CloseNamesRun(stream, s, OwnRun(s), s.originOrder[k], e);
    PlaceOfRun(stream, s, k);
    assert Earlier(s, s.originOrder[k]);
  }

  /** One crash changes the order of the reported runs exactly when it stops right behind the turn's closure and the
      turn's own run would have overtaken another. */
  lemma OrderKept(stream: StreamKey, log: seq<Record>, a: Attempt, again: Recovery, undisturbed: Recovery)
    requires Settleable(stream, log)
    ensures Settleable(stream, AfterAttempt(stream, log, a)) && Typed(CommittedScan(stream, log).value)
    ensures RestoreResult(stream, AfterAttempt(stream, log, a), again).closed == RestoreResult(stream, log, undisturbed).closed
            <==> !(CommittedScan(stream, log).value.openTurn.Some? && Appends(stream, log, a) == |LeftOf(stream, log)| + 1
                   && Overtakes(CommittedScan(stream, log).value))
  {
    hide Coherent, CommittedScan, Continues, Typed, RestoredBy, Pending, Repair, AfterAttempt, Appends, Overtakes, Left;
    AttemptLeaves(stream, log, a);
    var log', n := AfterAttempt(stream, log, a), Appends(stream, log, a);
    ClosesWhoeverReads(stream, log, a.recovery, undisturbed);
    ClosesWhoeverReads(stream, log', a.recovery, again);
    SettleableIsRepairable(stream, log);
    SettleableIsRepairable(stream, log');
    var rest := RepairOf(stream, log, a.recovery)[n..];
    OrderOfRest(stream, CommittedScan(stream, log).value, CommittedScan(stream, log').value, a.recovery, n, rest);
  }

  lemma OrderOfRest(stream: StreamKey, s: Scan, s': Scan, recovery: Recovery, n: nat, rest: seq<Draft>)
    requires Repairable(stream, s) && Repairable(stream, s') && Continues(s', recovery, rest) && Moved(s, s', n)
    requires n <= |Repair(s, recovery)| && rest == Repair(s, recovery)[n..]
    ensures RestoredBy(s', rest).closed == RestoredBy(s', Repair(s', recovery)).closed
            <==> !(s.openTurn.Some? && n == |Left(s)| + 1 && Overtakes(s))
  {
    hide Coherent, Typed, RestoredBy, Repair, Overtakes, Left, InOrder, RunCloses, OwnClose;
    if s'.openTurn.None? {
      RestInOrder(stream, s', recovery, rest);
      if s.openTurn.Some? {
        RestOfClosing(stream, s, recovery, n);
      } else {
        ClosedTurnRepair(s, recovery);
        RunClosesInOrder(stream, s, {}, 0);
        TailInOrder(s.originOrder, Repair(s, recovery), n);
      }
    }
  }

  lemma RestOfClosing(stream: StreamKey, s: Scan, recovery: Recovery, n: nat)
    requires Repairable(stream, s) && s.openTurn.Some? && |Left(s)| < n <= |Repair(s, recovery)|
    ensures InOrder(s.originOrder, Repair(s, recovery)[n..]) <==> !(n == |Left(s)| + 1 && Overtakes(s))
  {
    hide Coherent, Typed, Repair, Overtakes, Left, InOrder, RunCloses, OwnRun, OwnClose, DraftMessages, DraftRuns;
    RepairAnswers(stream, s, recovery);
    var m := n - |Left(s)|;
    SliceTwice(Repair(s, recovery), |Left(s)|, n);
    ClosingSuffix(stream, s, m);
  }

  lemma SliceTwice<T>(xs: seq<T>, a: nat, b: nat)
    requires a <= b <= |xs|
    ensures xs[b..] == xs[a..][b - a..]
  {}

  lemma ClosingSuffix(stream: StreamKey, s: Scan, m: nat)
    requires Repairable(stream, s) && s.openTurn.Some? && 1 <= m <= |Closing(s)|
    ensures InOrder(s.originOrder, Closing(s)[m..]) <==> !(m == 1 && Overtakes(s))
  {
    hide Coherent, Overtakes, Left, InOrder, RunCloses, CloseDraft, PendingTurn;
    var closes := RunCloses(s, OwnRun(s), None, 0);
    if m == 1 {
      ClosingInOrder(stream, s);
      assert Closing(s)[1..] == OwnClose(s) + closes;
    } else {
      RunClosesInOrder(stream, s, OwnRun(s), 0);
      var k := m - 1 - |OwnClose(s)|;
      assert Closing(s)[m..] == closes[k..];
      TailInOrder(s.originOrder, closes, k);
    }
  }

  // ---------------------------------------------------------------- any number of crashes

  /** The attempt stops right behind the turn's closure, and the turn's own run would have overtaken another. */
  ghost predicate Disturbs(stream: StreamKey, log: seq<Record>, a: Attempt) {
    && Accepted(stream, log)
    && var s := CommittedScan(stream, log).value;
    && Typed(s) && s.openTurn.Some? && Appends(stream, log, a) == |Left(s)| + 1 && Overtakes(s)
  }

  /** Some attempt does. */
  ghost predicate Disturbed(stream: StreamKey, log: seq<Record>, attempts: seq<Attempt>)
    decreases |attempts|
  {
    && attempts != []
    && (Disturbs(stream, log, attempts[0]) || Disturbed(stream, AfterAttempt(stream, log, attempts[0]), attempts[1..]))
  }

  /** Behind a closed turn no attempt disturbs the order any more. */
  lemma {:induction false} ClosedUndisturbed(stream: StreamKey, log: seq<Record>, attempts: seq<Attempt>)
    requires Settleable(stream, log) && CommittedScan(stream, log).value.openTurn.None?
    ensures !Disturbed(stream, log, attempts)
    decreases |attempts|
  {
    hide CommittedScan, AfterAttempt, Pending, RestoredBy, Left, Leaves, Appends, Overtakes, Typed;
    if attempts != [] {
      AttemptLeaves(stream, log, attempts[0]);
      ClosedUndisturbed(stream, AfterAttempt(stream, log, attempts[0]), attempts[1..]);
    }
  }

  lemma DisturbsExactly(stream: StreamKey, log: seq<Record>, a: Attempt, again: Recovery, undisturbed: Recovery)
    requires Settleable(stream, log)
    ensures Settleable(stream, AfterAttempt(stream, log, a))
    ensures RestoreResult(stream, AfterAttempt(stream, log, a), again).closed == RestoreResult(stream, log, undisturbed).closed
            <==> !Disturbs(stream, log, a)
    ensures Disturbs(stream, log, a) ==> CommittedScan(stream, AfterAttempt(stream, log, a)).value.openTurn.None?
  {
    hide CommittedScan, AfterAttempt, Pending, RestoreResult, RestoredBy, Left, Leaves, Appends, Overtakes, Typed;
    OrderKept(stream, log, a, again, undisturbed);
    AttemptLeaves(stream, log, a);
  }

  /** However many attempts are cut short, and wherever, the runs are reported in the order of one undisturbed restore
      exactly when no attempt disturbs it. */
  lemma {:induction false} OrderKeptExactly(stream: StreamKey, log: seq<Record>, attempts: seq<Attempt>, last: Recovery, undisturbed: Recovery)
    requires Settleable(stream, log)
    ensures Settleable(stream, AfterAttempts(stream, log, attempts))
    ensures RestoreResult(stream, AfterAttempts(stream, log, attempts), last).closed == RestoreResult(stream, log, undisturbed).closed
            <==> !Disturbed(stream, log, attempts)
    decreases |attempts|
  {
    hide Accepted, CommittedScan, AfterAttempt, Pending, RestoreResult, Disturbs;
    if attempts == [] {
      ClosesWhoeverReads(stream, log, last, undisturbed);
    } else {
      var next := AfterAttempt(stream, log, attempts[0]);
      DisturbsExactly(stream, log, attempts[0], undisturbed, undisturbed);
      OrderKeptExactly(stream, next, attempts[1..], last, undisturbed);
      if Disturbs(stream, log, attempts[0]) { ClosedUndisturbed(stream, next, attempts[1..]); }
    }
  }
}
