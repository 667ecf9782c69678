/** Without "none" secondaries the activated entries are the least set that contains the initial matches and is closed
    under recursive matching. */
module WorldbookClosure {
  import opened Wrappers
  import opened StableSort
  import opened Worldbook
  import opened WorldbookActivation

  // ---------------------------------------------------------------- matching against a set of texts

  /** The keyword occurs in the text at this place; unless case matters both are lower-cased first. */
  predicate FoundAt(fold: Folding, caseSensitive: bool, text: string, keyword: string, i: nat) {
    if caseSensitive then i + |keyword| <= |text| && text[i..i + |keyword|] == keyword
    else i + |fold(keyword)| <= |fold(text)| && fold(text)[i..i + |fold(keyword)|] == fold(keyword)
  }

  ghost predicate Found(fold: Folding, caseSensitive: bool, text: string, keyword: string) {
    exists i: nat :: FoundAt(fold, caseSensitive, text, keyword, i)
  }

  lemma ContainsMeans(fold: Folding, caseSensitive: bool, text: string, keyword: string)
    ensures Contains(fold, caseSensitive, text, keyword) <==> Found(fold, caseSensitive, text, keyword)
  {
    if i: nat :| FoundAt(fold, caseSensitive, text, keyword, i) {
      if caseSensitive { assert OccursAt(text, keyword, i); } else { assert OccursAt(fold(text), fold(keyword), i); }
    }
    if caseSensitive && Includes(text, keyword) {
      var i: nat :| i <= |text| && OccursAt(text, keyword, i);
      assert FoundAt(fold, caseSensitive, text, keyword, i);
    }
    if !caseSensitive && Includes(fold(text), fold(keyword)) {
      var i: nat :| i <= |fold(text)| && OccursAt(fold(text), fold(keyword), i);
      assert FoundAt(fold, caseSensitive, text, keyword, i);
    }
  }

  ghost predicate SomeContains(fold: Folding, caseSensitive: bool, keyword: string, texts: set<string>) {
    exists text :: text in texts && Found(fold, caseSensitive, text, keyword)
  }

  ghost predicate SomeKeyword(fold: Folding, caseSensitive: bool, keywords: seq<string>, texts: set<string>) {
    exists keyword :: keyword in keywords && SomeContains(fold, caseSensitive, keyword, texts)
  }

  ghost predicate EveryKeyword(fold: Folding, caseSensitive: bool, keywords: seq<string>, texts: set<string>) {
    forall keyword :: keyword in keywords ==> SomeContains(fold, caseSensitive, keyword, texts)
  }

  /** The texts hold a primary keyword, and the secondary ones as their mode asks. */
  ghost predicate Meets(fold: Folding, a: Activation, texts: set<string>)
    requires a.Keywords?
  {
    && SomeKeyword(fold, a.caseSensitive, a.primary, texts)
    && match a.secondary
       case None => true
       case Some(s) =>
         match s.mode
         case AnyOf => SomeKeyword(fold, a.caseSensitive, s.keywords, texts)
         case AllOf => EveryKeyword(fold, a.caseSensitive, s.keywords, texts)
         case NoneOf => !SomeKeyword(fold, a.caseSensitive, s.keywords, texts)
  }

  /** What makes an entry match the contents of other entries. */
  ghost predicate Triggered(fold: Folding, e: Entry, texts: set<string>) {
    e.activation.Keywords? && (e.activation.phase == RecursivePhase || e.activation.phase == AnyPhase) && Meets(fold, e.activation, texts)
  }

  /** What makes an entry match the texts of the scan. */
  ghost predicate Started(fold: Folding, e: Entry, texts: set<string>) {
    e.activation.Constant? || ((e.activation.phase == InitialPhase || e.activation.phase == AnyPhase) && Meets(fold, e.activation, texts))
  }

  ghost function Texts(segments: seq<Segment>): set<string> {
    set s | s in segments :: s.text
  }

  lemma ScanFinds(fold: Folding, caseSensitive: bool, keyword: string, segments: seq<Segment>)
    ensures Scan(fold, caseSensitive, keyword, segments, 0) < |segments| <==> SomeContains(fold, caseSensitive, keyword, Texts(segments))
  {
    hide Contains, Found;
    var p := Scan(fold, caseSensitive, keyword, segments, 0);
    if p < |segments| {
      assert segments[p].text in Texts(segments);
      ContainsMeans(fold, caseSensitive, segments[p].text, keyword);
    }
    if text :| text in Texts(segments) && Found(fold, caseSensitive, text, keyword) {
      var s :| s in segments && s.text == text;
      var i :| 0 <= i < |segments| && segments[i] == s;
      ContainsMeans(fold, caseSensitive, text, keyword);
    }
  }

  lemma {:induction false} HitFinds(fold: Folding, caseSensitive: bool, keywords: seq<string>, segments: seq<Segment>, k: nat)
    requires k <= |keywords|
    ensures FirstHit(fold, caseSensitive, keywords, segments, k).Some? <==> SomeKeyword(fold, caseSensitive, keywords[k..], Texts(segments))
    decreases |keywords| - k
  {
    hide SomeContains, Scan;
    if k < |keywords| {
      ScanFinds(fold, caseSensitive, keywords[k], segments);
      HitFinds(fold, caseSensitive, keywords, segments, k + 1);
      assert keywords[k..] == [keywords[k]] + keywords[k + 1..];
    }
  }

  lemma {:induction false} AllFinds(fold: Folding, caseSensitive: bool, keywords: seq<string>, segments: seq<Segment>, k: nat)
    requires k <= |keywords|
    ensures AllHit(fold, caseSensitive, keywords, segments, k) <==> EveryKeyword(fold, caseSensitive, keywords[k..], Texts(segments))
    decreases |keywords| - k
  {
    hide SomeContains, FirstHit;
    if k < |keywords| {
      HitFinds(fold, caseSensitive, [keywords[k]], segments, 0);
      assert [keywords[k]][0..] == [keywords[k]] && keywords[k] in [keywords[k]];
      AllFinds(fold, caseSensitive, keywords, segments, k + 1);
      assert keywords[k..] == [keywords[k]] + keywords[k + 1..];
    }
  }

  lemma KeywordsMeet(fold: Folding, a: Activation, segments: seq<Segment>, initial: bool)
    requires a.Keywords?
    ensures KeywordMatch(fold, a, segments, initial).Some? <==> Meets(fold, a, Texts(segments))
  {
    hide SomeKeyword, EveryKeyword, FirstHit, AllHit;
    HitFinds(fold, a.caseSensitive, a.primary, segments, 0);
    assert a.primary[0..] == a.primary;
    if a.secondary.Some? {
      var s := a.secondary.value;
      HitFinds(fold, a.caseSensitive, s.keywords, segments, 0);
      AllFinds(fold, a.caseSensitive, s.keywords, segments, 0);
      assert s.keywords[0..] == s.keywords;
    }
  }

  /** The keyword search over segments finds exactly what the texts trigger. */
  lemma MatchesWhenTriggered(fold: Folding, e: Entry, segments: seq<Segment>)
    ensures RecursiveMatch(fold, e, segments).Some? <==> Triggered(fold, e, Texts(segments))
  {
    hide KeywordMatch, Meets;
    if e.activation.Keywords? { KeywordsMeet(fold, e.activation, segments, false); }
  }

  /** The scan matches exactly constant entries and those that it may start and whose keywords it meets. */
  lemma MatchesWhenStarted(fold: Folding, e: Entry, segments: seq<Segment>)
    ensures InitialMatch(fold, e, segments).Some? <==> Started(fold, e, Texts(segments))
  {
    hide KeywordMatch, Meets;
    if e.activation.Keywords? { KeywordsMeet(fold, e.activation, segments, true); }
  }

  predicate NoNone(e: Entry) {
    e.activation.Keywords? && e.activation.secondary.Some? ==> e.activation.secondary.value.mode != NoneOf
  }

  /** More texts never lose a match. */
  lemma TriggeredGrows(fold: Folding, e: Entry, texts: set<string>, more: set<string>)
    requires NoNone(e) && texts <= more && Triggered(fold, e, texts)
    ensures Triggered(fold, e, more)
  {
    hide Found;
    forall keyword | SomeContains(fold, e.activation.caseSensitive, keyword, texts)
      ensures SomeContains(fold, e.activation.caseSensitive, keyword, more)
    {
      var text :| text in texts && Found(fold, e.activation.caseSensitive, text, keyword);
    }
    hide SomeContains;
  }

  // ---------------------------------------------------------------- closed sets

  ghost function RecursiveTexts(entries: set<Entry>): set<string> {
    set e | e in entries && e.recursive :: e.content
  }

  /** The set holds every eligible entry that the scan starts, and every eligible entry that the contents of its recursive entries trigger. */
  ghost predicate Closed(fold: Folding, eligible: seq<Entry>, segments: seq<Segment>, entries: set<Entry>) {
    && (forall e :: e in eligible && Started(fold, e, Texts(segments)) ==> e in entries)
    && (forall e :: e in eligible && Triggered(fold, e, RecursiveTexts(entries)) ==> e in entries)
  }

  ghost function EntriesOf(matched: seq<Matched>): set<Entry> {
    set m | m in matched :: m.entry
  }

  /** entries is the least closed set. */
  ghost predicate Least(fold: Folding, eligible: seq<Entry>, segments: seq<Segment>, entries: set<Entry>) {
    && Closed(fold, eligible, segments, entries)
    && forall other :: Closed(fold, eligible, segments, other) ==> entries <= other
  }

  // ---------------------------------------------------------------- what a round has scanned

  lemma {:induction false} RecursiveOnly(matched: seq<Matched>)
    ensures forall m :: m in Recursive(matched) <==> m in matched && m.entry.recursive
  {
    if matched != [] {
      RecursiveOnly(matched[..|matched| - 1]);
      assert matched == matched[..|matched| - 1] + [matched[|matched| - 1]];
    }
  }

  lemma {:induction false} ContentsAre(matched: seq<Matched>)
    ensures forall text :: text in Texts(Contents(matched)) <==> exists m :: m in matched && m.entry.content == text
  {
    if matched != [] {
      var front, last := matched[..|matched| - 1], matched[|matched| - 1];
      ContentsAre(front);
      assert matched == front + [last];
      TextsPush(Contents(front), Segment(last.entry.entryId, last.entry.content));
    }
  }

  lemma TextsPush(segments: seq<Segment>, s: Segment)
    ensures Texts(segments + [s]) == Texts(segments) + {s.text}
  {}

  lemma TextsConcat(a: seq<Segment>, b: seq<Segment>)
    ensures Texts(a + b) == Texts(a) + Texts(b)
  {}

  lemma {:induction false} FrontierTexts(matched: seq<Matched>)
    ensures Texts(Contents(Recursive(matched))) == RecursiveTexts(EntriesOf(matched))
  {
    hide Contents, Recursive, Texts;
    RecursiveOnly(matched);
    ContentsAre(Recursive(matched));
    forall text ensures text in Texts(Contents(Recursive(matched))) <==> text in RecursiveTexts(EntriesOf(matched)) {
      if m :| m in Recursive(matched) && m.entry.content == text { assert m.entry in EntriesOf(matched); }
      if text in RecursiveTexts(EntriesOf(matched)) {
        var e :| e in EntriesOf(matched) && e.recursive && e.content == text;
        var m :| m in matched && m.entry == e;
      }
    }
  }

  lemma EntriesConcat(a: seq<Matched>, b: seq<Matched>)
    ensures EntriesOf(a + b) == EntriesOf(a) + EntriesOf(b)
    ensures RecursiveTexts(EntriesOf(a + b)) == RecursiveTexts(EntriesOf(a)) + RecursiveTexts(EntriesOf(b))
  {}

  /** What the next round scans is the content of every recursive entry active so far. */
  lemma {:induction false} ScannedTexts(fold: Folding, eligible: seq<Entry>, segments: seq<Segment>, n: nat)
    ensures var p := Round(fold, eligible, segments, n);
      Texts(p.segments + Contents(p.frontier)) == RecursiveTexts(EntriesOf(p.activated))
  {
    hide Contents, Recursive, Texts, RecursiveTexts, EntriesOf, Discovered, Initially;
    var p := Round(fold, eligible, segments, n);
    TextsConcat(p.segments, Contents(p.frontier));
    if n == 0 {
      FrontierTexts(p.activated);
      NoTexts();
    } else {
      ScannedTexts(fold, eligible, segments, n - 1);
      var q := Round(fold, eligible, segments, n - 1);
      var found := Discovered(fold, eligible, q.activated, p.segments);
      FrontierTexts(found);
      EntriesConcat(q.activated, found);
    }
  }

  lemma NoTexts()
    ensures Texts([]) == {}
  {}

  // ---------------------------------------------------------------- the rounds and the closed sets

  lemma {:induction false} InitiallyAre(fold: Folding, eligible: seq<Entry>, segments: seq<Segment>)
    ensures forall e :: e in EntriesOf(Initially(fold, eligible, segments)) <==> e in eligible && Started(fold, e, Texts(segments))
  {
    hide InitialMatch, Started, Texts;
    if eligible != [] {
      MatchesWhenStarted(fold, eligible[|eligible| - 1], segments);
      var front, e := eligible[..|eligible| - 1], eligible[|eligible| - 1];
      InitiallyAre(fold, front, segments);
      assert eligible == front + [e];
      EntriesConcat(Initially(fold, front, segments),
                    match InitialMatch(fold, e, segments) case None => [] case Some(r) => [Matched(e, r)]);
    }
  }

  lemma {:induction false} DiscoveredAre(fold: Folding, eligible: seq<Entry>, activated: seq<Matched>, segments: seq<Segment>)
    ensures forall e :: e in EntriesOf(Discovered(fold, eligible, activated, segments))
              <==> e in eligible && !Active(activated, e.entryId) && RecursiveMatch(fold, e, segments).Some?
  {
    hide RecursiveMatch, Active;
    if eligible != [] {
      var front, e := eligible[..|eligible| - 1], eligible[|eligible| - 1];
      DiscoveredAre(fold, front, activated, segments);
      assert eligible == front + [e];
      EntriesConcat(Discovered(fold, front, activated, segments),
                    if Active(activated, e.entryId) then []
                    else match RecursiveMatch(fold, e, segments) case None => [] case Some(r) => [Matched(e, r)]);
    }
  }

  lemma {:induction false} RoundEntries(fold: Folding, eligible: seq<Entry>, segments: seq<Segment>, n: nat)
    ensures var entries := EntriesOf(Round(fold, eligible, segments, n).activated);
      && (forall e :: e in entries ==> e in eligible)
      && (forall e :: e in eligible && Started(fold, e, Texts(segments)) ==> e in entries)
  {
    hide Discovered, Initially, EntriesOf, Started, Texts;
    if n == 0 {
      InitiallyAre(fold, eligible, segments);
    } else {
      RoundEntries(fold, eligible, segments, n - 1);
      var q := Round(fold, eligible, segments, n - 1);
      var scanned := q.segments + Contents(q.frontier);
      DiscoveredAre(fold, eligible, q.activated, scanned);
      EntriesConcat(q.activated, Discovered(fold, eligible, q.activated, scanned));
    }
  }

  lemma ActiveEntry(activated: seq<Matched>, eligible: seq<Entry>, e: Entry)
    requires DistinctIds(eligible) && e in eligible && forall x :: x in EntriesOf(activated) ==> x in eligible
    ensures Active(activated, e.entryId) <==> e in EntriesOf(activated)
  {
    if i :| 0 <= i < |activated| && activated[i].entry.entryId == e.entryId {
      assert activated[i].entry in EntriesOf(activated);
    }
    if e in EntriesOf(activated) {
      var m :| m in activated && m.entry == e;
      var i :| 0 <= i < |activated| && activated[i] == m;
    }
  }

  /** An activation is settled exactly when its entries form a closed set. */
  lemma SettledIsClosed(fold: Folding, eligible: seq<Entry>, segments: seq<Segment>, n: nat)
    requires DistinctIds(eligible)
    ensures var p := Round(fold, eligible, segments, n);
      Settled(fold, eligible, p) <==> Closed(fold, eligible, segments, EntriesOf(p.activated))
  {
    hide Discovered, Round, Triggered, RecursiveMatch, Started, Active, RecursiveTexts, DistinctIds;
    var p := Round(fold, eligible, segments, n);
    var scanned := p.segments + Contents(p.frontier);
    ScannedTexts(fold, eligible, segments, n);
    RoundEntries(fold, eligible, segments, n);
    DiscoveredAre(fold, eligible, p.activated, scanned);
    forall e | e in eligible
      ensures Triggered(fold, e, RecursiveTexts(EntriesOf(p.activated))) <==> RecursiveMatch(fold, e, scanned).Some?
      ensures Active(p.activated, e.entryId) <==> e in EntriesOf(p.activated)
    {
      MatchesWhenTriggered(fold, e, scanned);
      ActiveEntry(p.activated, eligible, e);
    }
    SomeEntry(Discovered(fold, eligible, p.activated, scanned));
  }

  lemma SomeEntry(matched: seq<Matched>)
    ensures matched == [] <==> forall e :: e !in EntriesOf(matched)
  {
    if matched != [] { assert matched[0].entry in EntriesOf(matched); }
  }

  ghost predicate AllNoNone(eligible: seq<Entry>) {
    forall e :: e in eligible ==> NoNone(e)
  }

  /** No round leaves any closed set. */
  lemma {:induction false} RoundsStayInside(fold: Folding, eligible: seq<Entry>, segments: seq<Segment>, n: nat, other: set<Entry>)
    requires AllNoNone(eligible) && Closed(fold, eligible, segments, other)
    ensures EntriesOf(Round(fold, eligible, segments, n).activated) <= other
  {
    hide Discovered, Initially, Triggered, RecursiveMatch, Active, EntriesOf, AllNoNone, RecursiveTexts, Contents, Texts;
    if n == 0 {
      InitiallyAre(fold, eligible, segments);
    } else {
      RoundsStayInside(fold, eligible, segments, n - 1, other);
      var q := Round(fold, eligible, segments, n - 1);
      var scanned := q.segments + Contents(q.frontier);
      ScannedTexts(fold, eligible, segments, n - 1);
      var found := Discovered(fold, eligible, q.activated, scanned);
      DiscoveredAre(fold, eligible, q.activated, scanned);
      EntriesConcat(q.activated, found);
      TextsInside(EntriesOf(q.activated), other);
      forall e | e in EntriesOf(found) ensures e in other {
        MatchesWhenTriggered(fold, e, scanned);
        StaysInside(fold, eligible, segments, e, Texts(scanned), other);
      }
    }
  }

  lemma TextsInside(entries: set<Entry>, other: set<Entry>)
    requires entries <= other
    ensures RecursiveTexts(entries) <= RecursiveTexts(other)
  {}

  lemma StaysInside(fold: Folding, eligible: seq<Entry>, segments: seq<Segment>, e: Entry, texts: set<string>, other: set<Entry>)
    requires AllNoNone(eligible) && Closed(fold, eligible, segments, other) && e in eligible
    requires texts <= RecursiveTexts(other) && Triggered(fold, e, texts)
    ensures e in other
  {
    hide Triggered, Started, NoNone, RecursiveTexts;
    TriggeredGrows(fold, e, texts, RecursiveTexts(other));
  }

  lemma SortKeepsEntries(matched: seq<Matched>)
    ensures EntriesOf(Sort(matched, OrderRank)) == EntriesOf(matched)
  {
    SortIsSorted(matched, OrderRank);
    hide Sort;
    forall m ensures m in Sort(matched, OrderRank) <==> m in matched {
      assert m in multiset(Sort(matched, OrderRank)) <==> m in multiset(matched);
    }
  }

  /** Without "none" secondaries the entries after the permitted rounds are the least closed set exactly when the
      activation is settled: then it is the answer, and otherwise the recursion limit is exceeded. */
  lemma AnswerIsLeast(fold: Folding, eligible: seq<Entry>, segments: seq<Segment>, steps: nat)
    requires DistinctIds(eligible) && AllNoNone(eligible)
    ensures var p := Round(fold, eligible, segments, steps);
      Settled(fold, eligible, p) <==> Least(fold, eligible, segments, EntriesOf(Sort(p.activated, OrderRank)))
  {
    hide Round, Settled, Closed, AllNoNone, DistinctIds, Sort, EntriesOf;
    var p := Round(fold, eligible, segments, steps);
    SortKeepsEntries(p.activated);
    SettledIsClosed(fold, eligible, segments, steps);
    forall other | Closed(fold, eligible, segments, other) ensures EntriesOf(p.activated) <= other {
      RoundsStayInside(fold, eligible, segments, steps, other);
    }
  }
}
