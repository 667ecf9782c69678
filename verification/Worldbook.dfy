/** Worldbook entries, keyword matching and the rounds of recursive activation. */
module Worldbook {
  import opened Wrappers
  import opened StableSort

  type Id = string

  datatype Segment = Segment(segmentId: Id, text: string)

  datatype Mode = AnyOf | AllOf | NoneOf

  datatype Secondary = Secondary(mode: Mode, keywords: seq<string>)

  datatype Phase = InitialPhase | RecursivePhase | AnyPhase

  datatype Activation =
    | Constant
    | Keywords(phase: Phase, caseSensitive: bool, primary: seq<string>, secondary: Option<Secondary>)

  datatype Scope = Scope(actorIds: Option<seq<Id>>, requiredTags: Option<seq<Id>>, excludedTags: Option<seq<Id>>)

  datatype Entry = Entry(
    entryId: Id, priority: int, content: string, recursive: bool, activation: Activation, scope: Option<Scope>, position: nat)

  datatype Reason = ConstantReason | KeywordReason(initial: bool, primaryKeyword: string, segmentId: Id)

  datatype Matched = Matched(entry: Entry, reason: Reason)

  datatype Hit = Hit(keyword: string, segmentId: Id)

  datatype Limits = Limits(maxMatchEvaluations: nat, maxRecursionSteps: nat, maxActivatedEntries: nat)

  datatype Fault = MatchCapacity | ActivationCapacity | RecursionLimitExceeded

  /** Lower-casing, which the matcher applies to both sides unless an entry is case-sensitive. */
  type Folding = string -> string

  // ---------------------------------------------------------------- matching

  predicate OccursAt(text: string, needle: string, i: nat) {
    i + |needle| <= |text| && text[i..i + |needle|] == needle
  }

  predicate Includes(text: string, needle: string) {
    exists i: nat :: i <= |text| && OccursAt(text, needle, i)
  }

  predicate Contains(fold: Folding, caseSensitive: bool, text: string, keyword: string) {
    if caseSensitive then Includes(text, keyword) else Includes(fold(text), fold(keyword))
  }

  /** The first segment from j on that contains the keyword; |segments| when none does. */
  function Scan(fold: Folding, caseSensitive: bool, keyword: string, segments: seq<Segment>, j: nat): (p: nat)
    requires j <= |segments|
    ensures j <= p <= |segments|
    ensures forall i :: j <= i < p ==> !Contains(fold, caseSensitive, segments[i].text, keyword)
    ensures p < |segments| ==> Contains(fold, caseSensitive, segments[p].text, keyword)
    decreases |segments| - j
  {
    if j == |segments| || Contains(fold, caseSensitive, segments[j].text, keyword) then j
    else Scan(fold, caseSensitive, keyword, segments, j + 1)
  }

  /** The first keyword, from k on, that some segment contains, with the first such segment. */
  function FirstHit(fold: Folding, caseSensitive: bool, keywords: seq<string>, segments: seq<Segment>, k: nat): Option<Hit>
    requires k <= |keywords|
    decreases |keywords| - k
  {
    if k == |keywords| then None
    else
      var p := Scan(fold, caseSensitive, keywords[k], segments, 0);
      if p < |segments| then Some(Hit(keywords[k], segments[p].segmentId)) else FirstHit(fold, caseSensitive, keywords, segments, k + 1)
  }

  /** How many texts that search looks at. */
  function HitCost(fold: Folding, caseSensitive: bool, keywords: seq<string>, segments: seq<Segment>, k: nat): nat
    requires k <= |keywords|
    decreases |keywords| - k
  {
    if k == |keywords| then 0
    else
      var p := Scan(fold, caseSensitive, keywords[k], segments, 0);
      if p < |segments| then p + 1 else |segments| + HitCost(fold, caseSensitive, keywords, segments, k + 1)
  }

  /** Whether every keyword from k on is found, searched one after the other. */
  predicate AllHit(fold: Folding, caseSensitive: bool, keywords: seq<string>, segments: seq<Segment>, k: nat)
    requires k <= |keywords|
    decreases |keywords| - k
  {
    k == |keywords|
    || (FirstHit(fold, caseSensitive, [keywords[k]], segments, 0).Some? && AllHit(fold, caseSensitive, keywords, segments, k + 1))
  }

  function AllCost(fold: Folding, caseSensitive: bool, keywords: seq<string>, segments: seq<Segment>, k: nat): nat
    requires k <= |keywords|
    decreases |keywords| - k
  {
    if k == |keywords| then 0
    else HitCost(fold, caseSensitive, [keywords[k]], segments, 0)
         + (if FirstHit(fold, caseSensitive, [keywords[k]], segments, 0).None? then 0
            else AllCost(fold, caseSensitive, keywords, segments, k + 1))
  }

  predicate SecondaryFits(fold: Folding, caseSensitive: bool, secondary: Option<Secondary>, segments: seq<Segment>) {
    match secondary
    case None => true
    case Some(s) =>
      match s.mode
      case AnyOf => FirstHit(fold, caseSensitive, s.keywords, segments, 0).Some?
      case AllOf => AllHit(fold, caseSensitive, s.keywords, segments, 0)
      case NoneOf => FirstHit(fold, caseSensitive, s.keywords, segments, 0).None?
  }

  function SecondaryCost(fold: Folding, caseSensitive: bool, secondary: Option<Secondary>, segments: seq<Segment>): nat {
    match secondary
    case None => 0
    case Some(s) =>
      if s.mode == AllOf then AllCost(fold, caseSensitive, s.keywords, segments, 0)
      else HitCost(fold, caseSensitive, s.keywords, segments, 0)
  }

  function KeywordMatch(fold: Folding, a: Activation, segments: seq<Segment>, initial: bool): Option<Reason>
    requires a.Keywords?
  {
    match FirstHit(fold, a.caseSensitive, a.primary, segments, 0)
    case None => None
    case Some(hit) =>
      if SecondaryFits(fold, a.caseSensitive, a.secondary, segments) then Some(KeywordReason(initial, hit.keyword, hit.segmentId))
      else None
  }

  function KeywordCost(fold: Folding, a: Activation, segments: seq<Segment>): nat
    requires a.Keywords?
  {
    HitCost(fold, a.caseSensitive, a.primary, segments, 0)
    + (if FirstHit(fold, a.caseSensitive, a.primary, segments, 0).None? then 0
       else SecondaryCost(fold, a.caseSensitive, a.secondary, segments))
  }

  function InitialMatch(fold: Folding, e: Entry, segments: seq<Segment>): Option<Reason> {
    if e.activation.Constant? then Some(ConstantReason)
    else if e.activation.phase == RecursivePhase then None
    else KeywordMatch(fold, e.activation, segments, true)
  }

  function InitialCost(fold: Folding, e: Entry, segments: seq<Segment>): nat {
    if e.activation.Constant? || e.activation.phase == RecursivePhase then 0 else KeywordCost(fold, e.activation, segments)
  }

  function RecursiveMatch(fold: Folding, e: Entry, segments: seq<Segment>): Option<Reason> {
    if e.activation.Constant? || e.activation.phase == InitialPhase then None
    else KeywordMatch(fold, e.activation, segments, false)
  }

  function RecursiveCost(fold: Folding, e: Entry, segments: seq<Segment>): nat {
    if e.activation.Constant? || e.activation.phase == InitialPhase then 0 else KeywordCost(fold, e.activation, segments)
  }

  // ---------------------------------------------------------------- who may be activated

  predicate ScopeMatches(scope: Option<Scope>, actorId: Id, tags: set<Id>) {
    match scope
    case None => true
    case Some(s) =>
      && (s.actorIds.Some? ==> actorId in s.actorIds.value)
      && (s.requiredTags.Some? ==> forall tag :: tag in s.requiredTags.value ==> tag in tags)
      && (s.excludedTags.Some? ==> forall tag :: tag in s.excludedTags.value ==> tag !in tags)
  }

  function Eligible(entries: seq<Entry>, actorId: Id, tags: set<Id>): seq<Entry> {
    if entries == [] then []
    else Eligible(entries[..|entries| - 1], actorId, tags)
         + (if ScopeMatches(entries[|entries| - 1].scope, actorId, tags) then [entries[|entries| - 1]] else [])
  }

  predicate DistinctIds(entries: seq<Entry>) {
    forall i, j :: 0 <= i < j < |entries| ==> entries[i].entryId != entries[j].entryId
  }

  // ---------------------------------------------------------------- rounds

  /** The entries activated so far in order of activation, the recursive ones whose content is still to be scanned, and
      the contents scanned so far. */
  datatype Progress = Progress(activated: seq<Matched>, frontier: seq<Matched>, segments: seq<Segment>)

  function Initially(fold: Folding, eligible: seq<Entry>, segments: seq<Segment>): seq<Matched> {
    if eligible == [] then []
    else
      var e := eligible[|eligible| - 1];
      Initially(fold, eligible[..|eligible| - 1], segments)
      + (match InitialMatch(fold, e, segments) case None => [] case Some(r) => [Matched(e, r)])
  }

  function InitialTotal(fold: Folding, eligible: seq<Entry>, segments: seq<Segment>): nat {
    if eligible == [] then 0
    else InitialTotal(fold, eligible[..|eligible| - 1], segments) + InitialCost(fold, eligible[|eligible| - 1], segments)
  }

  function Recursive(matched: seq<Matched>): seq<Matched> {
    if matched == [] then []
    else Recursive(matched[..|matched| - 1]) + (if matched[|matched| - 1].entry.recursive then [matched[|matched| - 1]] else [])
  }

  function Contents(matched: seq<Matched>): seq<Segment> {
    if matched == [] then []
    else Contents(matched[..|matched| - 1])
         + [Segment(matched[|matched| - 1].entry.entryId, matched[|matched| - 1].entry.content)]
  }

  predicate Active(activated: seq<Matched>, id: Id) {
    exists i :: 0 <= i < |activated| && activated[i].entry.entryId == id
  }

  function Discovered(fold: Folding, eligible: seq<Entry>, activated: seq<Matched>, segments: seq<Segment>): seq<Matched> {
    if eligible == [] then []
    else
      var e := eligible[|eligible| - 1];
      Discovered(fold, eligible[..|eligible| - 1], activated, segments)
      + (if Active(activated, e.entryId) then []
         else match RecursiveMatch(fold, e, segments) case None => [] case Some(r) => [Matched(e, r)])
  }

  function DiscoverTotal(fold: Folding, eligible: seq<Entry>, activated: seq<Matched>, segments: seq<Segment>): nat {
    if eligible == [] then 0
    else
      var e := eligible[|eligible| - 1];
      DiscoverTotal(fold, eligible[..|eligible| - 1], activated, segments)
      + (if Active(activated, e.entryId) then 0 else RecursiveCost(fold, e, segments))
  }

  function Begin(fold: Folding, eligible: seq<Entry>, segments: seq<Segment>): Progress {
    var first := Initially(fold, eligible, segments);
    Progress(first, Recursive(first), [])
  }

  function Advance(fold: Folding, eligible: seq<Entry>, p: Progress): Progress {
    var segments := p.segments + Contents(p.frontier);
    var discovered := Discovered(fold, eligible, p.activated, segments);
    Progress(p.activated + discovered, Recursive(discovered), segments)
  }

  function Round(fold: Folding, eligible: seq<Entry>, segments: seq<Segment>, n: nat): Progress {
    if n == 0 then Begin(fold, eligible, segments) else Advance(fold, eligible, Round(fold, eligible, segments, n - 1))
  }

  /** The matches evaluated by n rounds; a round without a frontier is not run. */
  function RoundCost(fold: Folding, eligible: seq<Entry>, segments: seq<Segment>, n: nat): nat {
    if n == 0 then InitialTotal(fold, eligible, segments)
    else
      var p := Round(fold, eligible, segments, n - 1);
      RoundCost(fold, eligible, segments, n - 1)
      + (if p.frontier == [] then 0 else DiscoverTotal(fold, eligible, p.activated, p.segments + Contents(p.frontier)))
  }

  /** One more round would activate nothing. */
  predicate Settled(fold: Folding, eligible: seq<Entry>, p: Progress) {
    Discovered(fold, eligible, p.activated, p.segments + Contents(p.frontier)) == []
  }

  function OrderRank(m: Matched): Rank {
    (-m.entry.priority, m.entry.position)
  }
}
