/** Activating worldbook entries: the loops with their match budget, and the rounds they compute. */
module WorldbookActivation {
  import opened Wrappers
  import opened StableSort
  import opened Worldbook

  class MatchBudget {
    var used: nat
    const maximum: nat

    ghost predicate Valid()
      reads this
    {
      used <= maximum
    }

    constructor (maximum: nat)
      ensures this.maximum == maximum && used == 0
    {
      this.maximum := maximum;
      used := 0;
    }

    /** chargeMatch. */
    method Charge() returns (ok: bool)
      requires Valid()
      modifies this
      ensures Valid() && ok == (old(used) < maximum) && used == if ok then old(used) + 1 else old(used)
    {
      if used >= maximum { return false; }
      used := used + 1;
      ok := true;
    }
  }

  /** cost more matches were evaluated, or the budget did not reach that far. */
  twostate predicate Spent(budget: MatchBudget, cost: nat, ok: bool)
    reads budget
  {
    && (ok <==> old(budget.used) + cost <= budget.maximum)
    && (ok ==> budget.used == old(budget.used) + cost)
  }

  method FirstKeywordMatch(fold: Folding, keywords: seq<string>, segments: seq<Segment>, caseSensitive: bool, budget: MatchBudget)
    returns (r: Result<Option<Hit>, Fault>)
    requires budget.Valid()
    modifies budget
    ensures budget.Valid() && Spent(budget, HitCost(fold, caseSensitive, keywords, segments, 0), r.Ok?)
    ensures r == if r.Ok? then Ok(FirstHit(fold, caseSensitive, keywords, segments, 0)) else Err(MatchCapacity)
  {
    var k := 0;
    while k < |keywords|
      invariant 0 <= k <= |keywords| && budget.Valid()
      invariant FirstHit(fold, caseSensitive, keywords, segments, 0) == FirstHit(fold, caseSensitive, keywords, segments, k)
      invariant old(budget.used) + HitCost(fold, caseSensitive, keywords, segments, 0)
                == budget.used + HitCost(fold, caseSensitive, keywords, segments, k)
    {
      var j := 0;
      while j < |segments|
        invariant 0 <= j <= |segments| && budget.Valid()
        invariant Scan(fold, caseSensitive, keywords[k], segments, 0) == Scan(fold, caseSensitive, keywords[k], segments, j)
        invariant old(budget.used) + HitCost(fold, caseSensitive, keywords, segments, 0)
                  == budget.used - j + HitCost(fold, caseSensitive, keywords, segments, k)
      {
        var ok := budget.Charge();
        if !ok { return Err(MatchCapacity); }
        if Contains(fold, caseSensitive, segments[j].text, keywords[k]) { return Ok(Some(Hit(keywords[k], segments[j].segmentId))); }
        j := j + 1;
      }
      k := k + 1;
    }
    r := Ok(None);
  }

  /** keywordMatch's check of the secondary keywords. */
  method CheckSecondary(fold: Folding, secondary: Option<Secondary>, segments: seq<Segment>, caseSensitive: bool, budget: MatchBudget)
    returns (r: Result<bool, Fault>)
    requires budget.Valid()
    modifies budget
    ensures budget.Valid() && Spent(budget, SecondaryCost(fold, caseSensitive, secondary, segments), r.Ok?)
    ensures r == if r.Ok? then Ok(SecondaryFits(fold, caseSensitive, secondary, segments)) else Err(MatchCapacity)
  {
    hide HitCost, FirstHit;
    if secondary.None? { return Ok(true); }
    var s := secondary.value;
    if s.mode != AllOf {
      var hit := FirstKeywordMatch(fold, s.keywords, segments, caseSensitive, budget);
      if hit.Err? { return Err(MatchCapacity); }
      return Ok(if s.mode == AnyOf then hit.value.Some? else hit.value.None?);
    }
    var k := 0;
    while k < |s.keywords|
      invariant 0 <= k <= |s.keywords| && budget.Valid()
      invariant AllHit(fold, caseSensitive, s.keywords, segments, 0) == AllHit(fold, caseSensitive, s.keywords, segments, k)
      invariant old(budget.used) + AllCost(fold, caseSensitive, s.keywords, segments, 0)
                == budget.used + AllCost(fold, caseSensitive, s.keywords, segments, k)
    {
      var hit := FirstKeywordMatch(fold, [s.keywords[k]], segments, caseSensitive, budget);
      if hit.Err? { return Err(MatchCapacity); }
      if hit.value.None? { return Ok(false); }
      k := k + 1;
    }
    r := Ok(true);
  }

  method MatchKeywords(fold: Folding, a: Activation, segments: seq<Segment>, initial: bool, budget: MatchBudget)
    returns (r: Result<Option<Reason>, Fault>)
    requires budget.Valid() && a.Keywords?
    modifies budget
    ensures budget.Valid() && Spent(budget, KeywordCost(fold, a, segments), r.Ok?)
    ensures r == if r.Ok? then Ok(KeywordMatch(fold, a, segments, initial)) else Err(MatchCapacity)
  {
    hide HitCost, FirstHit, SecondaryCost, SecondaryFits;
    var primary := FirstKeywordMatch(fold, a.primary, segments, a.caseSensitive, budget);
    if primary.Err? { return Err(MatchCapacity); }
    if primary.value.None? { return Ok(None); }
    var fits := CheckSecondary(fold, a.secondary, segments, a.caseSensitive, budget);
    if fits.Err? { return Err(MatchCapacity); }
    if !fits.value { return Ok(None); }
    r := Ok(Some(KeywordReason(initial, primary.value.value.keyword, primary.value.value.segmentId)));
  }

  // ---------------------------------------------------------------- growing totals

  lemma {:induction false} InitialGrows(fold: Folding, eligible: seq<Entry>, segments: seq<Segment>, i: nat)
    requires i <= |eligible|
    ensures |Initially(fold, eligible[..i], segments)| <= |Initially(fold, eligible, segments)|
    ensures InitialTotal(fold, eligible[..i], segments) <= InitialTotal(fold, eligible, segments)
    decreases |eligible| - i
  {
    hide InitialMatch, InitialCost;
    if i == |eligible| {
      assert eligible[..i] == eligible;
    } else {
      assert eligible[..i + 1][..i] == eligible[..i];
      InitialGrows(fold, eligible, segments, i + 1);
    }
  }

  lemma {:induction false} DiscoverGrows(fold: Folding, eligible: seq<Entry>, activated: seq<Matched>, segments: seq<Segment>, i: nat)
    requires i <= |eligible|
    ensures |Discovered(fold, eligible[..i], activated, segments)| <= |Discovered(fold, eligible, activated, segments)|
    ensures DiscoverTotal(fold, eligible[..i], activated, segments) <= DiscoverTotal(fold, eligible, activated, segments)
    decreases |eligible| - i
  {
    hide RecursiveMatch, RecursiveCost, Active;
    if i == |eligible| {
      assert eligible[..i] == eligible;
    } else {
      assert eligible[..i + 1][..i] == eligible[..i];
      DiscoverGrows(fold, eligible, activated, segments, i + 1);
    }
  }

  // ---------------------------------------------------------------- the passes

  /** Constant entries and entries that the scan's segments match. */
  method InitialPass(fold: Folding, eligible: seq<Entry>, segments: seq<Segment>, maximum: nat, budget: MatchBudget)
    returns (r: Result<seq<Matched>, Fault>)
    requires budget.Valid()
    modifies budget
    ensures budget.Valid()
    ensures r.Ok? ==> r.value == Initially(fold, eligible, segments) && |r.value| <= maximum
                      && budget.used == old(budget.used) + InitialTotal(fold, eligible, segments)
    ensures r.Err? ==> !r.error.RecursionLimitExceeded?
    ensures r == Err(MatchCapacity) ==> old(budget.used) + InitialTotal(fold, eligible, segments) > budget.maximum
    ensures r == Err(ActivationCapacity) ==> |Initially(fold, eligible, segments)| > maximum
  {
    hide KeywordCost, KeywordMatch;
    var activated := [];
    for i := 0 to |eligible|
      invariant budget.Valid() && activated == Initially(fold, eligible[..i], segments) && |activated| <= maximum
      invariant budget.used == old(budget.used) + InitialTotal(fold, eligible[..i], segments)
    {
      var e := eligible[i];
      assert eligible[..i + 1][..i] == eligible[..i];
      InitialGrows(fold, eligible, segments, i + 1);
      var reason := if e.activation.Constant? then Some(ConstantReason) else None;
      if !e.activation.Constant? && e.activation.phase != RecursivePhase {
        var matched := MatchKeywords(fold, e.activation, segments, true, budget);
        if matched.Err? { return Err(MatchCapacity); }
        reason := matched.value;
      }
      if reason.Some? {
        if |activated| >= maximum { return Err(ActivationCapacity); }
        activated := activated + [Matched(e, reason.value)];
      }
    }
    assert eligible[..|eligible|] == eligible;
    r := Ok(activated);
  }

  lemma {:induction false} DiscoveredAmong(fold: Folding, eligible: seq<Entry>, activated: seq<Matched>, segments: seq<Segment>)
    ensures forall m :: m in Discovered(fold, eligible, activated, segments) ==> m.entry in eligible && !Active(activated, m.entry.entryId)
  {
    hide RecursiveMatch;
    if eligible != [] {
      DiscoveredAmong(fold, eligible[..|eligible| - 1], activated, segments);
    }
  }

  /** An entry behind the ones of this round looked at so far is active exactly when it was before the round. */
  lemma ActiveBefore(fold: Folding, eligible: seq<Entry>, activated: seq<Matched>, segments: seq<Segment>, i: nat)
    requires DistinctIds(eligible) && i < |eligible|
    ensures Active(activated + Discovered(fold, eligible[..i], activated, segments), eligible[i].entryId)
            <==> Active(activated, eligible[i].entryId)
  {
    var found := Discovered(fold, eligible[..i], activated, segments);
    DiscoveredAmong(fold, eligible[..i], activated, segments);
    hide Discovered;
    var id := eligible[i].entryId;
    forall m | m in found ensures m.entry.entryId != id {
      var j :| 0 <= j < i && eligible[..i][j] == m.entry;
    }
    forall k | |activated| <= k < |activated + found| ensures (activated + found)[k].entry.entryId != id {
      assert (activated + found)[k] == found[k - |activated|];
    }
    if k :| 0 <= k < |activated| && activated[k].entry.entryId == id { assert (activated + found)[k] == activated[k]; }
  }

  /** recursiveMatch for one entry that is not active yet. */
  method MatchRecursive(fold: Folding, e: Entry, segments: seq<Segment>, budget: MatchBudget) returns (r: Result<Option<Reason>, Fault>)
    requires budget.Valid()
    modifies budget
    ensures budget.Valid() && Spent(budget, RecursiveCost(fold, e, segments), r.Ok?)
    ensures r == if r.Ok? then Ok(RecursiveMatch(fold, e, segments)) else Err(MatchCapacity)
  {
    hide KeywordCost, KeywordMatch;
    if e.activation.Constant? || e.activation.phase == InitialPhase { return Ok(None); }
    r := MatchKeywords(fold, e.activation, segments, false, budget);
  }

  /** One round: the entries that the scanned contents newly match. */
  method RecursivePass(fold: Folding, eligible: seq<Entry>, activated: seq<Matched>, segments: seq<Segment>, maximum: nat,
                       budget: MatchBudget)
    returns (r: Result<seq<Matched>, Fault>)
    requires budget.Valid() && DistinctIds(eligible) && |activated| <= maximum
    modifies budget
    ensures budget.Valid()
    ensures r.Ok? ==> r.value == Discovered(fold, eligible, activated, segments) && |activated| + |r.value| <= maximum
                      && budget.used == old(budget.used) + DiscoverTotal(fold, eligible, activated, segments)
    ensures r.Err? ==> !r.error.RecursionLimitExceeded?
    ensures r == Err(MatchCapacity) ==> old(budget.used) + DiscoverTotal(fold, eligible, activated, segments) > budget.maximum
    ensures r == Err(ActivationCapacity) ==> |activated| + |Discovered(fold, eligible, activated, segments)| > maximum
  {
    hide RecursiveCost, RecursiveMatch, Active;
    var discovered := [];
    for i := 0 to |eligible|
      invariant budget.Valid() && discovered == Discovered(fold, eligible[..i], activated, segments)
      invariant |activated| + |discovered| <= maximum
      invariant budget.used == old(budget.used) + DiscoverTotal(fold, eligible[..i], activated, segments)
    {
      var e := eligible[i];
      assert eligible[..i + 1][..i] == eligible[..i];
      DiscoverGrows(fold, eligible, activated, segments, i + 1);
      ActiveBefore(fold, eligible, activated, segments, i);
      if !Active(activated + discovered, e.entryId) {
        var reason := MatchRecursive(fold, e, segments, budget);
        if reason.Err? { return Err(MatchCapacity); }
        if reason.value.Some? {
          if |activated + discovered| >= maximum { return Err(ActivationCapacity); }
          discovered := discovered + [Matched(e, reason.value.value)];
        }
      }
    }
    assert eligible[..|eligible|] == eligible;
    r := Ok(discovered);
  }

  /** The check behind the last permitted round: whether yet another entry would match. */
  method StillMatches(fold: Folding, eligible: seq<Entry>, activated: seq<Matched>, segments: seq<Segment>, budget: MatchBudget)
    returns (r: Result<bool, Fault>)
    requires budget.Valid()
    modifies budget
    ensures budget.Valid()
    ensures r.Ok? ==> (r.value <==> Discovered(fold, eligible, activated, segments) != [])
    ensures r == Ok(false) ==> old(budget.used) + DiscoverTotal(fold, eligible, activated, segments) <= budget.maximum
    ensures r.Err? ==> r == Err(MatchCapacity)
                       && old(budget.used) + DiscoverTotal(fold, eligible, activated, segments) > budget.maximum
  {
    hide RecursiveCost, RecursiveMatch, Active;
    for i := 0 to |eligible|
      invariant budget.Valid() && Discovered(fold, eligible[..i], activated, segments) == []
      invariant budget.used == old(budget.used) + DiscoverTotal(fold, eligible[..i], activated, segments)
    {
      var e := eligible[i];
      assert eligible[..i + 1][..i] == eligible[..i];
      DiscoverGrows(fold, eligible, activated, segments, i + 1);
      if !Active(activated, e.entryId) {
        var reason := MatchRecursive(fold, e, segments, budget);
        if reason.Err? { return Err(MatchCapacity); }
        if reason.value.Some? { return Ok(true); }
      }
    }
    assert eligible[..|eligible|] == eligible;
    r := Ok(false);
  }

  // ---------------------------------------------------------------- rounds that change nothing

  lemma {:induction false} NothingInNothing(fold: Folding, caseSensitive: bool, keywords: seq<string>, k: nat)
    requires k <= |keywords|
    ensures FirstHit(fold, caseSensitive, keywords, [], k).None?
    decreases |keywords| - k
  {
    if k < |keywords| { NothingInNothing(fold, caseSensitive, keywords, k + 1); }
  }

  /** Without a scanned content nothing matches recursively. */
  lemma {:induction false} NothingDiscovered(fold: Folding, eligible: seq<Entry>, activated: seq<Matched>)
    ensures Discovered(fold, eligible, activated, []) == []
  {
    if eligible != [] {
      var e := eligible[|eligible| - 1];
      NothingDiscovered(fold, eligible[..|eligible| - 1], activated);
      if e.activation.Keywords? { NothingInNothing(fold, e.activation.caseSensitive, e.activation.primary, 0); }
      hide FirstHit;
    }
  }

  lemma {:induction false} DiscoveredAll(fold: Folding, eligible: seq<Entry>, activated: seq<Matched>, segments: seq<Segment>, i: nat)
    requires i < |eligible| && RecursiveMatch(fold, eligible[i], segments).Some? && !Active(activated, eligible[i].entryId)
    ensures exists m :: m in Discovered(fold, eligible, activated, segments) && m.entry == eligible[i]
  {
    hide RecursiveMatch, Active;
    var n := |eligible| - 1;
    if i == n {
      var m := Matched(eligible[i], RecursiveMatch(fold, eligible[i], segments).value);
      assert m in Discovered(fold, eligible, activated, segments);
    } else {
      DiscoveredAll(fold, eligible[..n], activated, segments, i);
      var m :| m in Discovered(fold, eligible[..n], activated, segments) && m.entry == eligible[i];
      assert m in Discovered(fold, eligible, activated, segments);
    }
  }

  lemma ActiveIn(matched: seq<Matched>, m: Matched)
    requires m in matched
    ensures Active(matched, m.entry.entryId)
  {
    var i :| 0 <= i < |matched| && matched[i] == m;
  }

  /** Scanning the same contents again after a round discovers nothing. */
  lemma {:induction false} AgainNothing(fold: Folding, all: seq<Entry>, activated: seq<Matched>, segments: seq<Segment>, n: nat)
    requires n <= |all|
    ensures Discovered(fold, all[..n], activated + Discovered(fold, all, activated, segments), segments) == []
  {
    hide RecursiveMatch, Active;
    if n > 0 {
      assert all[..n][..n - 1] == all[..n - 1];
      AgainNothing(fold, all, activated, segments, n - 1);
      var later := activated + Discovered(fold, all, activated, segments);
      if RecursiveMatch(fold, all[n - 1], segments).Some? {
        if Active(activated, all[n - 1].entryId) {
          StillActive(activated, Discovered(fold, all, activated, segments), all[n - 1].entryId);
        } else {
          DiscoveredAll(fold, all, activated, segments, n - 1);
          var m :| m in Discovered(fold, all, activated, segments) && m.entry == all[n - 1];
          ActiveIn(later, m);
        }
      }
    }
  }

  lemma StillActive(activated: seq<Matched>, more: seq<Matched>, id: Id)
    requires Active(activated, id)
    ensures Active(activated + more, id)
  {
    var i :| 0 <= i < |activated| && activated[i].entry.entryId == id;
    assert (activated + more)[i].entry.entryId == id;
  }

  /** With nothing left to scan, the activation is settled. */
  lemma NoFrontierSettles(fold: Folding, eligible: seq<Entry>, segments: seq<Segment>, n: nat)
    requires Round(fold, eligible, segments, n).frontier == []
    ensures Settled(fold, eligible, Round(fold, eligible, segments, n))
  {
    hide Discovered;
    var p := Round(fold, eligible, segments, n);
    assert p.segments + [] == p.segments;
    if n == 0 {
      NothingDiscovered(fold, eligible, p.activated);
    } else {
      var q := Round(fold, eligible, segments, n - 1);
      AgainNothing(fold, eligible, q.activated, p.segments, |eligible|);
      assert eligible[..|eligible|] == eligible;
    }
  }

  /** Once settled, every further round keeps the activation, has nothing to scan and costs nothing after the first. */
  lemma {:induction false} SettledStays(fold: Folding, eligible: seq<Entry>, segments: seq<Segment>, n: nat, m: nat)
    requires n <= m && Settled(fold, eligible, Round(fold, eligible, segments, n))
    ensures Round(fold, eligible, segments, m).activated == Round(fold, eligible, segments, n).activated
    ensures Settled(fold, eligible, Round(fold, eligible, segments, m))
    ensures m > n ==> Round(fold, eligible, segments, m).frontier == []
  {
    hide Discovered;
    if m > n {
      SettledStays(fold, eligible, segments, n, m - 1);
      NoFrontierSettles(fold, eligible, segments, m);
      var p := Round(fold, eligible, segments, m - 1);
      assert p.activated + [] == p.activated;
    }
  }

  lemma {:induction false} RoundsGrow(fold: Folding, eligible: seq<Entry>, segments: seq<Segment>, n: nat, m: nat)
    requires n <= m
    ensures RoundCost(fold, eligible, segments, n) <= RoundCost(fold, eligible, segments, m)
    ensures |Round(fold, eligible, segments, n).activated| <= |Round(fold, eligible, segments, m).activated|
  {
    hide Discovered, DiscoverTotal, InitialTotal;
    if n < m { RoundsGrow(fold, eligible, segments, n, m - 1); }
  }

  /** Rounds behind one without a frontier cost nothing. */
  lemma {:induction false} IdleCost(fold: Folding, eligible: seq<Entry>, segments: seq<Segment>, n: nat, m: nat)
    requires n <= m && Round(fold, eligible, segments, n).frontier == []
    ensures RoundCost(fold, eligible, segments, m) == RoundCost(fold, eligible, segments, n)
    ensures Round(fold, eligible, segments, m).frontier == []
  {
    hide Discovered, DiscoverTotal, InitialTotal;
    if n < m {
      IdleCost(fold, eligible, segments, n, m - 1);
      NoFrontierSettles(fold, eligible, segments, m - 1);
    }
  }

  // ---------------------------------------------------------------- the whole activation

  /** The limits let the activation return: it settles within the permitted rounds, fits, and its matches, with those of
      the check behind the last round, stay within the budget. */
  ghost predicate Permits(fold: Folding, eligible: seq<Entry>, segments: seq<Segment>, limits: Limits) {
    var last := Round(fold, eligible, segments, limits.maxRecursionSteps);
    && Settled(fold, eligible, last) && |last.activated| <= limits.maxActivatedEntries
    && RoundCost(fold, eligible, segments, limits.maxRecursionSteps + 1) <= limits.maxMatchEvaluations
  }

  ghost predicate Explains(fold: Folding, eligible: seq<Entry>, segments: seq<Segment>, limits: Limits, fault: Fault) {
    var last := Round(fold, eligible, segments, limits.maxRecursionSteps);
    match fault
    case RecursionLimitExceeded => !Settled(fold, eligible, last)
    case ActivationCapacity => |last.activated| > limits.maxActivatedEntries
    case MatchCapacity => RoundCost(fold, eligible, segments, limits.maxRecursionSteps + 1) > limits.maxMatchEvaluations
  }

  lemma {:induction false} EligibleAmong(entries: seq<Entry>, actorId: Id, tags: set<Id>)
    ensures forall e :: e in Eligible(entries, actorId, tags) ==> e in entries
  {
    hide ScopeMatches;
    if entries != [] { EligibleAmong(entries[..|entries| - 1], actorId, tags); }
  }

  lemma {:induction false} EligibleDistinct(entries: seq<Entry>, actorId: Id, tags: set<Id>)
    requires DistinctIds(entries)
    ensures DistinctIds(Eligible(entries, actorId, tags))
  {
    hide ScopeMatches;
    if entries != [] {
      var front, last := entries[..|entries| - 1], entries[|entries| - 1];
      EligibleDistinct(front, actorId, tags);
      EligibleAmong(front, actorId, tags);
      var kept := Eligible(front, actorId, tags);
      forall i | 0 <= i < |kept| ensures kept[i].entryId != last.entryId {
        assert kept[i] in front;
        var j :| 0 <= j < |front| && front[j] == kept[i];
      }
    }
  }

  lemma RoundStart(fold: Folding, eligible: seq<Entry>, segments: seq<Segment>)
    ensures var first := Initially(fold, eligible, segments);
      Round(fold, eligible, segments, 0) == Progress(first, Recursive(first), [])
    ensures RoundCost(fold, eligible, segments, 0) == InitialTotal(fold, eligible, segments)
  {}

  lemma RoundNext(fold: Folding, eligible: seq<Entry>, segments: seq<Segment>, n: nat)
    ensures var p := Round(fold, eligible, segments, n);
      var scanned := p.segments + Contents(p.frontier);
      var found := Discovered(fold, eligible, p.activated, scanned);
      && Round(fold, eligible, segments, n + 1) == Progress(p.activated + found, Recursive(found), scanned)
      && (p.frontier != [] ==>
            RoundCost(fold, eligible, segments, n + 1)
            == RoundCost(fold, eligible, segments, n) + DiscoverTotal(fold, eligible, p.activated, scanned))
      && (Settled(fold, eligible, p) <==> found == [])
  {
    hide Discovered, DiscoverTotal;
  }

  /** Two sets of limits that both let the activation return give the same answer: the same entries for the same
      reasons in the same order. */
  lemma LimitsDoNotMatter(fold: Folding, eligible: seq<Entry>, segments: seq<Segment>, a: Limits, b: Limits)
    requires Permits(fold, eligible, segments, a) && Permits(fold, eligible, segments, b)
    ensures Round(fold, eligible, segments, a.maxRecursionSteps).activated
            == Round(fold, eligible, segments, b.maxRecursionSteps).activated
  {
    hide Round, Settled, RoundCost;
    if a.maxRecursionSteps <= b.maxRecursionSteps {
      SettledStays(fold, eligible, segments, a.maxRecursionSteps, b.maxRecursionSteps);
    } else {
      SettledStays(fold, eligible, segments, b.maxRecursionSteps, a.maxRecursionSteps);
    }
  }
}
