/** The answer of an activation in the worldbook's own terms: which entries, for which reasons, in which order. */
module WorldbookAnswer {
  import opened Wrappers
  import opened StableSort
  import opened Worldbook
  import opened WorldbookActivation
  import opened WorldbookClosure

  // ---------------------------------------------------------------- who may be activated

  /** The scope shuts out the actor, misses a tag, or meets one that it must not. */
  ghost predicate ShutOut(e: Entry, actorId: Id, tags: set<Id>) {
    && e.scope.Some?
    && var s := e.scope.value;
       || (s.actorIds.Some? && actorId !in s.actorIds.value)
       || (s.requiredTags.Some? && exists tag :: tag in s.requiredTags.value && tag !in tags)
       || (s.excludedTags.Some? && exists tag :: tag in s.excludedTags.value && tag in tags)
  }

  lemma {:induction false} EligibleExact(entries: seq<Entry>, actorId: Id, tags: set<Id>)
    ensures forall e :: e in Eligible(entries, actorId, tags) <==> e in entries && !ShutOut(e, actorId, tags)
  {
    hide ShutOut;
    if entries != [] {
      var front, last := entries[..|entries| - 1], entries[|entries| - 1];
      EligibleExact(front, actorId, tags);
      ScopeMeans(last, actorId, tags);
      assert entries == front + [last];
    }
  }

  lemma ScopeMeans(e: Entry, actorId: Id, tags: set<Id>)
    ensures ScopeMatches(e.scope, actorId, tags) <==> !ShutOut(e, actorId, tags)
  {}

  /** Eligible entries keep their order. */
  lemma {:induction false} EligibleInOrder(entries: seq<Entry>, actorId: Id, tags: set<Id>, i: nat, j: nat)
    requires i < j < |Eligible(entries, actorId, tags)|
    ensures exists p, q :: 0 <= p < q < |entries|
                           && entries[p] == Eligible(entries, actorId, tags)[i] && entries[q] == Eligible(entries, actorId, tags)[j]
  {
    hide ScopeMatches;
    var front, last := entries[..|entries| - 1], entries[|entries| - 1];
    var kept := Eligible(front, actorId, tags);
    if j < |kept| {
      EligibleInOrder(front, actorId, tags, i, j);
      var p, q :| 0 <= p < q < |front| && front[p] == kept[i] && front[q] == kept[j];
      assert entries[p] == kept[i] && entries[q] == kept[j];
    } else {
      EligibleAmong(front, actorId, tags);
      assert kept[i] in front;
      var p :| 0 <= p < |front| && front[p] == kept[i];
      assert entries[p] == kept[i] && entries[|entries| - 1] == last;
    }
  }

  // ---------------------------------------------------------------- the reason

  /** The keyword is the first of the list that some segment contains, and the segment at place j the first of those. */
  ghost predicate FirstAt(fold: Folding, caseSensitive: bool, keywords: seq<string>, segments: seq<Segment>, i: nat, j: nat) {
    && i < |keywords| && j < |segments| && Found(fold, caseSensitive, segments[j].text, keywords[i])
    && (forall k :: 0 <= k < i ==> !SomeContains(fold, caseSensitive, keywords[k], Texts(segments)))
    && (forall k :: 0 <= k < j ==> !Found(fold, caseSensitive, segments[k].text, keywords[i]))
  }

  ghost predicate FirstFinds(fold: Folding, a: Activation, segments: seq<Segment>, keyword: string, segmentId: Id)
    requires a.Keywords?
  {
    exists i: nat, j: nat ::
      FirstAt(fold, a.caseSensitive, a.primary, segments, i, j) && a.primary[i] == keyword && segments[j].segmentId == segmentId
  }

  lemma {:induction false} HitIsFirst(fold: Folding, caseSensitive: bool, keywords: seq<string>, segments: seq<Segment>, k: nat)
    returns (i: nat, j: nat)
    requires k <= |keywords| && FirstHit(fold, caseSensitive, keywords, segments, k).Some?
    requires forall h :: 0 <= h < k ==> !SomeContains(fold, caseSensitive, keywords[h], Texts(segments))
    ensures FirstAt(fold, caseSensitive, keywords, segments, i, j)
    ensures FirstHit(fold, caseSensitive, keywords, segments, k) == Some(Hit(keywords[i], segments[j].segmentId))
    decreases |keywords| - k
  {
    hide Contains, Found, SomeContains;
    ScanFinds(fold, caseSensitive, keywords[k], segments);
    var p := Scan(fold, caseSensitive, keywords[k], segments, 0);
    if p < |segments| {
      i, j := k, p;
      forall h | 0 <= h <= p ensures Found(fold, caseSensitive, segments[h].text, keywords[k]) <==> h == p {
        ContainsMeans(fold, caseSensitive, segments[h].text, keywords[k]);
      }
    } else {
      i, j := HitIsFirst(fold, caseSensitive, keywords, segments, k + 1);
    }
  }

  /** A search compares every keyword with every segment up to the first hit, and all of them without one. */
  lemma {:induction false} HitCosts(fold: Folding, caseSensitive: bool, keywords: seq<string>, segments: seq<Segment>, k: nat)
    requires k <= |keywords|
    ensures match FirstHit(fold, caseSensitive, keywords, segments, k)
      case None => HitCost(fold, caseSensitive, keywords, segments, k) == (|keywords| - k) * |segments|
      case Some(_) => exists i: nat, j: nat :: HitPlace(fold, caseSensitive, keywords, segments, k, i, j)
    decreases |keywords| - k
  {
    hide Contains;
    if k < |keywords| {
      var p := Scan(fold, caseSensitive, keywords[k], segments, 0);
      if p < |segments| {
        ContainsMeans(fold, caseSensitive, segments[p].text, keywords[k]);
        assert HitPlace(fold, caseSensitive, keywords, segments, k, k, p);
      } else {
        HitCosts(fold, caseSensitive, keywords, segments, k + 1);
        if FirstHit(fold, caseSensitive, keywords, segments, k + 1).Some? {
          var i: nat, j: nat :| HitPlace(fold, caseSensitive, keywords, segments, k + 1, i, j);
          assert (i - k) * |segments| == (i - (k + 1)) * |segments| + |segments|;
          assert HitPlace(fold, caseSensitive, keywords, segments, k, i, j);
        } else {
          assert (|keywords| - k) * |segments| == (|keywords| - (k + 1)) * |segments| + |segments|;
        }
      }
    }
  }

  ghost predicate HitPlace(fold: Folding, caseSensitive: bool, keywords: seq<string>, segments: seq<Segment>, k: nat, i: nat, j: nat)
    requires k <= |keywords|
  {
    && k <= i < |keywords| && j < |segments| && Found(fold, caseSensitive, segments[j].text, keywords[i])
    && FirstHit(fold, caseSensitive, keywords, segments, k) == Some(Hit(keywords[i], segments[j].segmentId))
    && HitCost(fold, caseSensitive, keywords, segments, k) == (i - k) * |segments| + j + 1
  }

  lemma MatchReason(fold: Folding, a: Activation, segments: seq<Segment>, initial: bool)
    requires a.Keywords? && KeywordMatch(fold, a, segments, initial).Some?
    ensures var r := KeywordMatch(fold, a, segments, initial).value;
      r.KeywordReason? && r.initial == initial && FirstFinds(fold, a, segments, r.primaryKeyword, r.segmentId)
      && Meets(fold, a, Texts(segments))
  {
    KeywordsMeet(fold, a, segments, initial);
    hide FirstHit, SecondaryFits, Meets, FirstAt;
    var i, j := HitIsFirst(fold, a.caseSensitive, a.primary, segments, 0);
  }

  /** What round n scans. */
  function Scanned(fold: Folding, eligible: seq<Entry>, segments: seq<Segment>, n: nat): seq<Segment> {
    var p := Round(fold, eligible, segments, n);
    p.segments + Contents(p.frontier)
  }

  /** The reason given for an entry is the true one: it is constant, the scan met its keywords, or some round did, which
      the scan had not done. */
  ghost predicate Justified(fold: Folding, eligible: seq<Entry>, segments: seq<Segment>, m: Matched) {
    match m.reason
    case ConstantReason => m.entry.activation.Constant?
    case KeywordReason(initial, keyword, segmentId) =>
      && m.entry.activation.Keywords?
      && if initial then
           Started(fold, m.entry, Texts(segments)) && FirstFinds(fold, m.entry.activation, segments, keyword, segmentId)
         else
           && !Started(fold, m.entry, Texts(segments))
           && exists n :: RoundFinds(fold, eligible, segments, m.entry, keyword, segmentId, n)
  }

  ghost predicate RoundFinds(fold: Folding, eligible: seq<Entry>, segments: seq<Segment>, e: Entry, keyword: string, segmentId: Id, n: nat) {
    && Triggered(fold, e, Texts(Scanned(fold, eligible, segments, n))) && e.activation.Keywords?
    && FirstFinds(fold, e.activation, Scanned(fold, eligible, segments, n), keyword, segmentId)
  }

  lemma InitialReason(fold: Folding, e: Entry, segments: seq<Segment>, eligible: seq<Entry>)
    requires InitialMatch(fold, e, segments).Some?
    ensures Justified(fold, eligible, segments, Matched(e, InitialMatch(fold, e, segments).value))
  {
    hide KeywordMatch, FirstFinds, Meets;
    MatchesWhenStarted(fold, e, segments);
    if e.activation.Keywords? { MatchReason(fold, e.activation, segments, true); }
  }

  lemma {:induction false} InitialReasons(fold: Folding, front: seq<Entry>, segments: seq<Segment>, eligible: seq<Entry>)
    ensures forall m :: m in Initially(fold, front, segments) ==> Justified(fold, eligible, segments, m)
  {
    hide InitialMatch, Justified;
    if front != [] {
      var e := front[|front| - 1];
      InitialReasons(fold, front[..|front| - 1], segments, eligible);
      if InitialMatch(fold, e, segments).Some? { InitialReason(fold, e, segments, eligible); }
    }
  }

  lemma RecursiveReason(fold: Folding, e: Entry, segments: seq<Segment>, eligible: seq<Entry>, n: nat)
    requires RecursiveMatch(fold, e, Scanned(fold, eligible, segments, n)).Some? && !Started(fold, e, Texts(segments))
    ensures Justified(fold, eligible, segments, Matched(e, RecursiveMatch(fold, e, Scanned(fold, eligible, segments, n)).value))
  {
    hide KeywordMatch, FirstFinds, Meets, Scanned, Started, Triggered;
    var scanned := Scanned(fold, eligible, segments, n);
    MatchesWhenTriggered(fold, e, scanned);
    MatchReason(fold, e.activation, scanned, false);
    var r := RecursiveMatch(fold, e, scanned).value;
    assert RoundFinds(fold, eligible, segments, e, r.primaryKeyword, r.segmentId, n);
  }

  lemma {:induction false} DiscoveredReasons(fold: Folding, front: seq<Entry>, activated: seq<Matched>, segments: seq<Segment>, eligible: seq<Entry>, n: nat)
    requires forall e :: e in front && !Active(activated, e.entryId) ==> !Started(fold, e, Texts(segments))
    ensures forall m :: m in Discovered(fold, front, activated, Scanned(fold, eligible, segments, n)) ==> Justified(fold, eligible, segments, m)
  {
    hide RecursiveMatch, Justified, Active, Scanned, Started;
    if front != [] {
      var e := front[|front| - 1];
      DiscoveredReasons(fold, front[..|front| - 1], activated, segments, eligible, n);
      if !Active(activated, e.entryId) && RecursiveMatch(fold, e, Scanned(fold, eligible, segments, n)).Some? {
        RecursiveReason(fold, e, segments, eligible, n);
      }
    }
  }

  lemma {:induction false} RoundReasons(fold: Folding, eligible: seq<Entry>, segments: seq<Segment>, n: nat)
    requires DistinctIds(eligible)
    ensures forall m :: m in Round(fold, eligible, segments, n).activated ==> Justified(fold, eligible, segments, m)
  {
    hide Discovered, Initially, Justified, Active, Started, DistinctIds, EntriesOf, Texts;
    if n == 0 {
      InitialReasons(fold, eligible, segments, eligible);
    } else {
      RoundReasons(fold, eligible, segments, n - 1);
      var q := Round(fold, eligible, segments, n - 1);
      RoundEntries(fold, eligible, segments, n - 1);
      forall e | e in eligible && !Active(q.activated, e.entryId) ensures !Started(fold, e, Texts(segments)) {
        ActiveEntry(q.activated, eligible, e);
      }
      DiscoveredReasons(fold, eligible, q.activated, segments, eligible, n - 1);
    }
  }

  // ---------------------------------------------------------------- the answer

  /** Higher priorities come first, and among equals lower positions. */
  ghost predicate Ordered(answer: seq<Matched>) {
    forall i, j :: 0 <= i < j < |answer| ==>
      || answer[i].entry.priority > answer[j].entry.priority
      || (answer[i].entry.priority == answer[j].entry.priority && answer[i].entry.position <= answer[j].entry.position)
  }

  /** Nobody is shut out, the entries are closed under the scan and under each other's contents, each is listed once for
      its true reason, and without "none" secondaries there is no smaller such set. */
  ghost predicate Answers(fold: Folding, entries: seq<Entry>, actorId: Id, tags: set<Id>, segments: seq<Segment>, answer: seq<Matched>) {
    var eligible := Eligible(entries, actorId, tags);
    && (forall e :: e in eligible <==> e in entries && !ShutOut(e, actorId, tags))
    && (forall e :: e in EntriesOf(answer) ==> e in eligible)
    && Closed(fold, eligible, segments, EntriesOf(answer))
    && (AllNoNone(eligible) ==> Least(fold, eligible, segments, EntriesOf(answer)))
    && (forall m :: m in answer ==> Justified(fold, eligible, segments, m))
    && Ordered(answer)
    && (forall i, j :: 0 <= i < j < |answer| ==> answer[i].entry.entryId != answer[j].entry.entryId)
  }

  ghost predicate OnceEach(matched: seq<Matched>) {
    forall i, j :: 0 <= i < j < |matched| ==> matched[i].entry.entryId != matched[j].entry.entryId
  }

  lemma {:induction false} InitiallyOnce(fold: Folding, eligible: seq<Entry>, segments: seq<Segment>)
    requires DistinctIds(eligible)
    ensures OnceEach(Initially(fold, eligible, segments))
  {
    hide InitialMatch, Started, Texts, EntriesOf;
    if eligible != [] {
      var front, e := eligible[..|eligible| - 1], eligible[|eligible| - 1];
      InitiallyOnce(fold, front, segments);
      InitiallyAre(fold, front, segments);
      var found := Initially(fold, front, segments);
      forall i | 0 <= i < |found| ensures found[i].entry.entryId != e.entryId {
        EntryIn(found, i);
        var k :| 0 <= k < |front| && front[k] == found[i].entry;
        assert eligible[k] == front[k];
      }
    }
  }

  lemma EntryIn(matched: seq<Matched>, i: nat)
    requires i < |matched|
    ensures matched[i].entry in EntriesOf(matched)
  {
    assert matched[i] in matched;
  }

  lemma {:induction false} DiscoveredOnce(fold: Folding, eligible: seq<Entry>, activated: seq<Matched>, segments: seq<Segment>)
    requires DistinctIds(eligible)
    ensures OnceEach(Discovered(fold, eligible, activated, segments))
  {
    hide RecursiveMatch, Active;
    if eligible != [] {
      var front, e := eligible[..|eligible| - 1], eligible[|eligible| - 1];
      DiscoveredOnce(fold, front, activated, segments);
      DiscoveredAmong(fold, front, activated, segments);
      var found := Discovered(fold, front, activated, segments);
      forall i | 0 <= i < |found| ensures found[i].entry.entryId != e.entryId {
        assert found[i] in found;
        var k :| 0 <= k < |front| && front[k] == found[i].entry;
        assert eligible[k] == front[k];
      }
    }
  }

  lemma {:induction false} RoundOnce(fold: Folding, eligible: seq<Entry>, segments: seq<Segment>, n: nat)
    requires DistinctIds(eligible)
    ensures OnceEach(Round(fold, eligible, segments, n).activated)
  {
    hide Discovered, Initially, DistinctIds;
    if n == 0 {
      InitiallyOnce(fold, eligible, segments);
    } else {
      RoundOnce(fold, eligible, segments, n - 1);
      var q := Round(fold, eligible, segments, n - 1);
      var scanned := q.segments + Contents(q.frontier);
      DiscoveredOnce(fold, eligible, q.activated, scanned);
      DiscoveredAmong(fold, eligible, q.activated, scanned);
      var found := Discovered(fold, eligible, q.activated, scanned);
      forall i, j | 0 <= i < |q.activated| && 0 <= j < |found| ensures q.activated[i].entry.entryId != found[j].entry.entryId {
        assert found[j] in found;
      }
    }
  }

  lemma SortOnce(matched: seq<Matched>)
    requires OnceEach(matched)
    ensures OnceEach(Sort(matched, OrderRank))
  {
    SortIsSorted(matched, OrderRank);
    hide Sort;
    var sorted := Sort(matched, OrderRank);
    forall i, j | 0 <= i < j < |sorted| ensures sorted[i].entry.entryId != sorted[j].entry.entryId {
      assert sorted[i] in multiset(matched) && sorted[j] in multiset(matched);
      var a :| 0 <= a < |matched| && matched[a] == sorted[i];
      var b :| 0 <= b < |matched| && matched[b] == sorted[j];
      if a == b { Twice(sorted, i, j); Once(matched, a); }
    }
  }

  lemma Twice(xs: seq<Matched>, i: nat, j: nat)
    requires i < j < |xs| && xs[i] == xs[j]
    ensures multiset(xs)[xs[i]] >= 2
  {
    assert xs == xs[..j] + [xs[j]] + xs[j + 1..];
    assert xs[i] in multiset(xs[..j]) by { assert xs[..j][i] == xs[i]; }
  }

  lemma Once(xs: seq<Matched>, a: nat)
    requires a < |xs| && OnceEach(xs)
    ensures multiset(xs)[xs[a]] == 1
  {
    assert xs == xs[..a] + [xs[a]] + xs[a + 1..];
    forall k | 0 <= k < |xs| && k != a ensures xs[k] != xs[a] {}
    assert xs[a] !in xs[..a] && xs[a] !in xs[a + 1..];
  }

  lemma SortOrders(matched: seq<Matched>)
    ensures Ordered(Sort(matched, OrderRank))
  {
    SortIsSorted(matched, OrderRank);
    hide Sort;
  }

  lemma SettledAnswers(fold: Folding, entries: seq<Entry>, actorId: Id, tags: set<Id>, segments: seq<Segment>, steps: nat)
    requires DistinctIds(entries)
    requires Settled(fold, Eligible(entries, actorId, tags), Round(fold, Eligible(entries, actorId, tags), segments, steps))
    ensures Answers(fold, entries, actorId, tags, segments,
                    Sort(Round(fold, Eligible(entries, actorId, tags), segments, steps).activated, OrderRank))
  {
    hide Round, Settled, Closed, AllNoNone, DistinctIds, Sort, EntriesOf, Justified, Ordered, OrderRank, Least, ShutOut, Eligible, Started, Texts;
    var eligible := Eligible(entries, actorId, tags);
    var p := Round(fold, eligible, segments, steps);
    EligibleDistinct(entries, actorId, tags);
    EligibleExact(entries, actorId, tags);
    RoundEntries(fold, eligible, segments, steps);
    SettledIsClosed(fold, eligible, segments, steps);
    SortKeepsEntries(p.activated);
    if AllNoNone(eligible) { AnswerIsLeast(fold, eligible, segments, steps); }
    RoundReasons(fold, eligible, segments, steps);
    RoundOnce(fold, eligible, segments, steps);
    SortOnce(p.activated);
    SortOrders(p.activated);
    SortIsSorted(p.activated, OrderRank);
    forall m | m in Sort(p.activated, OrderRank) ensures m in p.activated { assert m in multiset(p.activated); }
  }

  /** activateEntries: the entries activated by the permitted rounds, by falling priority and then by position. */
  method ActivateEntries(fold: Folding, entries: seq<Entry>, actorId: Id, tags: set<Id>, segments: seq<Segment>, limits: Limits)
    returns (r: Result<seq<Matched>, Fault>)
    requires DistinctIds(entries)
    ensures var eligible := Eligible(entries, actorId, tags);
      && (r.Ok? <==> Permits(fold, eligible, segments, limits))
      && (r.Ok? ==> r.value == Sort(Round(fold, eligible, segments, limits.maxRecursionSteps).activated, OrderRank))
      && (r.Err? ==> Explains(fold, eligible, segments, limits, r.error))
      && (r.Ok? ==> Answers(fold, entries, actorId, tags, segments, r.value))
  {
    hide Answers, Discovered, DiscoverTotal, InitialTotal, Initially, Eligible, Round, RoundCost, Settled, Sort;
    EligibleDistinct(entries, actorId, tags);
    var eligible := Eligible(entries, actorId, tags);
    var budget := new MatchBudget(limits.maxMatchEvaluations);
    ghost var m := limits.maxRecursionSteps;
    RoundStart(fold, eligible, segments);
    RoundsGrow(fold, eligible, segments, 0, m);
    RoundsGrow(fold, eligible, segments, m, m + 1);
    var first := InitialPass(fold, eligible, segments, limits.maxActivatedEntries, budget);
    if first.Err? { return Err(first.error); }
    var progress := Progress(first.value, Recursive(first.value), []);
    var step := 0;
    while step < limits.maxRecursionSteps && progress.frontier != []
      invariant 0 <= step <= limits.maxRecursionSteps && budget.Valid() && fresh(budget)
      invariant progress == Round(fold, eligible, segments, step) && |progress.activated| <= limits.maxActivatedEntries
      invariant budget.used == RoundCost(fold, eligible, segments, step)
    {
      RoundNext(fold, eligible, segments, step);
      RoundsGrow(fold, eligible, segments, step + 1, m);
      var scanned := progress.segments + Contents(progress.frontier);
      var found := RecursivePass(fold, eligible, progress.activated, scanned, limits.maxActivatedEntries, budget);
      if found.Err? { return Err(found.error); }
      progress := Progress(progress.activated + found.value, Recursive(found.value), scanned);
      step := step + 1;
    }
    if progress.frontier != [] {
      RoundNext(fold, eligible, segments, step);
      var scanned := progress.segments + Contents(progress.frontier);
      var more := StillMatches(fold, eligible, progress.activated, scanned, budget);
      if more.Err? { return Err(more.error); }
      if more.value { return Err(RecursionLimitExceeded); }
    } else {
      NoFrontierSettles(fold, eligible, segments, step);
      SettledStays(fold, eligible, segments, step, m);
      IdleCost(fold, eligible, segments, step, m + 1);
    }
    r := Ok(Sort(progress.activated, OrderRank));
    SettledAnswers(fold, entries, actorId, tags, segments, limits.maxRecursionSteps);
  }

}
