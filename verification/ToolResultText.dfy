/** How many bytes text takes inside a canonical JSON tool result, and truncating an error message to fit one. */
module ToolResultText {
  /** A UTF-16 code unit. */
  type Unit = u: nat | u < 0x10000

  predicate High(u: Unit) {
    0xD800 <= u <= 0xDBFF
  }

  predicate Low(u: Unit) {
    0xDC00 <= u <= 0xDFFF
  }

  // ---------------------------------------------------------------- bytes

  predicate StartsPair(s: seq<Unit>) {
    |s| >= 2 && High(s[0]) && Low(s[1])
  }

  /** UTF-8 bytes of one code unit outside a pair; a lone surrogate becomes the replacement character. */
  function UnitBytes(u: Unit): nat {
    if u < 0x80 then 1 else if u < 0x800 then 2 else 3
  }

  function Utf8Bytes(s: seq<Unit>): nat {
    if s == [] then 0 else if StartsPair(s) then 4 + Utf8Bytes(s[2..]) else UnitBytes(s[0]) + Utf8Bytes(s[1..])
  }

  /** Bytes of one code unit inside a JSON string, with the escapes of section 7 of RFC 8259; a lone surrogate is
      escaped. */
  function UnitCost(u: Unit): nat {
    if u == 0x22 || u == 0x5C || u == 8 || u == 9 || u == 10 || u == 12 || u == 13 then 2
    else if u < 0x20 || High(u) || Low(u) then 6
    else UnitBytes(u)
  }

  function JsonCost(s: seq<Unit>): nat {
    if s == [] then 0 else if StartsPair(s) then 4 + JsonCost(s[2..]) else UnitCost(s[0]) + JsonCost(s[1..])
  }

  const EMPTY_PART := |"{\"text\":\"\",\"type\":\"text\"}"|
  const EMPTY_RESULT := |"{\"content\":[{\"text\":\"\",\"type\":\"text\"}],\"details\":{}}"|

  function PartBytes(text: seq<Unit>): nat {
    EMPTY_PART + JsonCost(text)
  }

  /** toolResultEnvelopeBytes. */
  function ResultBytes(text: seq<Unit>): nat {
    EMPTY_RESULT + JsonCost(text)
  }

  /** The canonical content array: brackets, parts and the commas between them. */
  function ContentBytes(parts: seq<seq<Unit>>): nat {
    2 + (if parts == [] then 0 else |parts| - 1) + PartsBytes(parts)
  }

  function PartsBytes(parts: seq<seq<Unit>>): nat {
    if parts == [] then 0 else PartBytes(parts[0]) + PartsBytes(parts[1..])
  }

  function Joined(parts: seq<seq<Unit>>): seq<Unit> {
    if parts == [] then [] else parts[0] + Joined(parts[1..])
  }

  // ---------------------------------------------------------------- the derived budgets

  /** textToolResultExpansionBytes. */
  function ExpansionBytes(maximumTextBytes: nat): nat {
    maximumTextBytes * 6
  }

  /** textToolResultContentBytes. */
  function ContentBudget(maximumTextBytes: nat, maximumParts: nat): nat {
    ExpansionBytes(maximumTextBytes) + EMPTY_PART * maximumParts + maximumParts + 1
  }

  /** requiredTextToolResultBytes. */
  function RequiredBytes(maximumTextBytes: nat): nat {
    ExpansionBytes(maximumTextBytes) + EMPTY_RESULT
  }

  /** The cost when no surrogate is ever paired, which bounds every way of cutting the text. */
  function LooseCost(s: seq<Unit>): nat {
    if s == [] then 0 else UnitCost(s[0]) + LooseCost(s[1..])
  }

  lemma {:induction false} JsonWithinLoose(s: seq<Unit>)
    ensures JsonCost(s) <= LooseCost(s)
  {
    if s != [] {
      if StartsPair(s) {
        JsonWithinLoose(s[2..]);
        assert s[1..][1..] == s[2..];
      } else {
        JsonWithinLoose(s[1..]);
      }
    }
  }

  lemma {:induction false} LooseConcat(a: seq<Unit>, b: seq<Unit>)
    ensures LooseCost(a + b) == LooseCost(a) + LooseCost(b)
  {
    if a == [] {
      assert a + b == b;
    } else {
      LooseConcat(a[1..], b);
      assert (a + b)[1..] == a[1..] + b;
    }
  }

  lemma {:induction false} LooseWithinSix(s: seq<Unit>)
    ensures LooseCost(s) <= 6 * Utf8Bytes(s)
  {
    if s != [] {
      if StartsPair(s) {
        LooseWithinSix(s[2..]);
        assert s[1..][1..] == s[2..];
      } else {
        LooseWithinSix(s[1..]);
      }
    }
  }

  lemma {:induction false} PartsWithinLoose(parts: seq<seq<Unit>>)
    ensures PartsBytes(parts) <= EMPTY_PART * |parts| + LooseCost(Joined(parts))
  {
    if parts != [] {
      PartsWithinLoose(parts[1..]);
      JsonWithinLoose(parts[0]);
      LooseConcat(parts[0], Joined(parts[1..]));
      hide JsonCost, LooseCost;
    }
  }

  /** Text of at most n UTF-8 bytes, cut anywhere into at most k parts, even inside a surrogate pair, encodes within the
      derived content budget. */
  lemma SplitTextFits(parts: seq<seq<Unit>>, n: nat, k: nat)
    requires Utf8Bytes(Joined(parts)) <= n && |parts| <= k && k >= 1
    ensures ContentBytes(parts) <= ContentBudget(n, k)
  {
    hide Utf8Bytes, LooseCost, PartsBytes, Joined;
    PartsWithinLoose(parts);
    LooseWithinSix(Joined(parts));
    assert EMPTY_PART * |parts| <= EMPTY_PART * k;
  }

  /** One text of at most n UTF-8 bytes fits the admission derived for a whole text result. */
  lemma WholeTextFits(text: seq<Unit>, n: nat)
    requires Utf8Bytes(text) <= n
    ensures ResultBytes(text) <= RequiredBytes(n)
  {
    JsonWithinLoose(text);
    LooseWithinSix(text);
  }

  /** Text of n control characters: one UTF-8 byte each, and an escape of six bytes. */
  function Controls(n: nat): (s: seq<Unit>)
    ensures |s| == n && forall i :: 0 <= i < n ==> s[i] == 1
  {
    seq(n, _ => 1)
  }

  lemma {:induction false} ControlsCost(n: nat)
    ensures Utf8Bytes(Controls(n)) == n && JsonCost(Controls(n)) == 6 * n
  {
    if n > 0 {
      ControlsCost(n - 1);
      assert Controls(n)[1..] == Controls(n - 1);
    }
  }

  /** Parts that are all empty but the first. */
  function FirstPart(text: seq<Unit>, k: nat): (parts: seq<seq<Unit>>)
    requires k >= 1
    ensures |parts| == k
  {
    [text] + seq(k - 1, _ => [])
  }

  lemma {:induction false} EmptyParts(k: nat)
    ensures PartsBytes(seq(k, _ => [])) == EMPTY_PART * k && Joined(seq(k, _ => [])) == []
  {
    if k > 0 {
      EmptyParts(k - 1);
      var parts: seq<seq<Unit>> := seq(k, _ => []);
      var rest: seq<seq<Unit>> := seq(k - 1, _ => []);
      assert parts[1..] == rest && parts[0] == [];
    }
  }

  /** No smaller content budget would do: some text of n bytes in k parts needs all of it. */
  lemma SplitBudgetIsLeast(n: nat, k: nat)
    requires k >= 1
    ensures var parts := FirstPart(Controls(n), k);
      |parts| == k && Utf8Bytes(Joined(parts)) == n && ContentBytes(parts) == ContentBudget(n, k)
  {
    hide Utf8Bytes, JsonCost;
    var parts := FirstPart(Controls(n), k);
    ControlsCost(n);
    EmptyParts(k - 1);
    var rest: seq<seq<Unit>> := seq(k - 1, _ => []);
    assert parts[1..] == rest && parts[0] == Controls(n) && Controls(n) + [] == Controls(n);
  }

  /** Nor would a smaller admission for a whole result. */
  lemma WholeBudgetIsLeast(n: nat)
    ensures Utf8Bytes(Controls(n)) == n && ResultBytes(Controls(n)) == RequiredBytes(n)
  {
    ControlsCost(n);
  }

  // ---------------------------------------------------------------- truncation

  /** A cut that leaves no high surrogate at the end. */
  predicate SafeCut(s: seq<Unit>, k: nat) {
    k <= |s| && (k > 0 ==> !High(s[k - 1]))
  }

  function SafeEnd(s: seq<Unit>, length: nat): (end: nat)
    requires length <= |s|
    ensures end <= length
  {
    if length > 0 && High(s[length - 1]) then length - 1 else length
  }

  function SafePrefix(s: seq<Unit>, length: nat): seq<Unit>
    requires length <= |s|
  {
    s[..SafeEnd(s, length)]
  }

  /** Outside a pair, text costs what its two sides cost. */
  lemma {:induction false} CostSplits(s: seq<Unit>, k: nat)
    requires k <= |s| && !(0 < k < |s| && High(s[k - 1]) && Low(s[k]))
    ensures JsonCost(s) == JsonCost(s[..k]) + JsonCost(s[k..])
    decreases |s|
  {
    if k == 0 {
      assert s[..0] == [] && s[0..] == s;
    } else if StartsPair(s) {
      CostSplits(s[2..], k - 2);
      assert s[2..][..k - 2] == s[..k][2..] && s[2..][k - 2..] == s[k..];
    } else {
      CostSplits(s[1..], k - 1);
      assert s[1..][..k - 1] == s[..k][1..] && s[1..][k - 1..] == s[k..];
    }
  }

  /** A longer safe prefix never costs less: also when its end had to step back before a high surrogate. */
  lemma PrefixesGrow(s: seq<Unit>, j: nat, k: nat)
    requires j <= k <= |s|
    ensures JsonCost(SafePrefix(s, j)) <= JsonCost(SafePrefix(s, k))
  {
    hide JsonCost;
    var a, b := SafeEnd(s, j), SafeEnd(s, k);
    if a < b {
      assert s[..b][..a] == s[..a];
      if a == j {
        CostSplits(s[..b], a);
      } else {
        StepBack(s, a, b);
      }
    }
  }

  /** Cutting one unit before a high surrogate splits no pair unless the unit before it is one too. */
  lemma StepBack(s: seq<Unit>, a: nat, b: nat)
    requires a < b <= |s| && High(s[a])
    ensures JsonCost(s[..a]) <= JsonCost(s[..b])
  {
    hide JsonCost;
    assert s[..b][..a] == s[..a];
    CostSplits(s[..b], a);
  }

  /** No high surrogate directly behind another: what a caller can check to know that every cut is safe. */
  predicate NoAdjacentHighs(s: seq<Unit>) {
    forall i :: 0 <= i < |s| - 1 ==> !(High(s[i]) && High(s[i + 1]))
  }

  /** r fits, or is empty because nothing does; and every safe cut behind it is too long. */
  ghost predicate LongestFit(s: seq<Unit>, maxResultBytes: nat, r: seq<Unit>) {
    && |r| <= |s| && r == s[..|r|]
    && (r == [] || ResultBytes(r) <= maxResultBytes)
    && (NoAdjacentHighs(s) ==> SafeCut(s, |r|))
    && forall j :: |r| < j <= |s| && SafeCut(s, j) ==> ResultBytes(s[..j]) > maxResultBytes
  }

  /** The last length up to n whose safe prefix fits; 0 when none does. */
  function LongestLength(s: seq<Unit>, maxResultBytes: nat, n: nat): (k: nat)
    requires n <= |s|
    ensures k <= n && (k > 0 ==> ResultBytes(SafePrefix(s, k)) <= maxResultBytes)
    ensures forall j :: k < j <= n ==> ResultBytes(SafePrefix(s, j)) > maxResultBytes
  {
    if n == 0 || ResultBytes(SafePrefix(s, n)) <= maxResultBytes then n else LongestLength(s, maxResultBytes, n - 1)
  }

  function Truncated(s: seq<Unit>, maxResultBytes: nat): seq<Unit> {
    if ResultBytes(s) <= maxResultBytes then s else SafePrefix(s, LongestLength(s, maxResultBytes, |s|))
  }

  /** truncateToolErrorMessage: a binary search over lengths. */
  method TruncateToolErrorMessage(message: seq<Unit>, maxResultBytes: nat) returns (r: seq<Unit>)
    ensures r == Truncated(message, maxResultBytes)
    ensures ResultBytes(message) <= maxResultBytes ==> r == message
    ensures ResultBytes(message) > maxResultBytes ==> LongestFit(message, maxResultBytes, r)
    ensures ResultBytes([]) <= maxResultBytes ==> ResultBytes(r) <= maxResultBytes
  {
    hide JsonCost;
    if ResultBytes(message) <= maxResultBytes { return message; }
    var lower, upper := 0, |message|;
    while lower < upper
      invariant 0 <= lower <= upper <= |message|
      invariant lower > 0 ==> ResultBytes(SafePrefix(message, lower)) <= maxResultBytes
      invariant forall j :: upper < j <= |message| ==> ResultBytes(SafePrefix(message, j)) > maxResultBytes
    {
      var middle := (lower + upper + 1) / 2;
      if ResultBytes(SafePrefix(message, middle)) <= maxResultBytes {
        lower := middle;
      } else {
        forall j | middle <= j <= |message| ensures ResultBytes(SafePrefix(message, j)) > maxResultBytes {
          PrefixesGrow(message, middle, j);
        }
        upper := middle - 1;
      }
    }
    r := SafePrefix(message, lower);
    FitsLongest(message, maxResultBytes, lower);
  }

  lemma FitsLongest(s: seq<Unit>, maxResultBytes: nat, lower: nat)
    requires lower <= |s| && (lower > 0 ==> ResultBytes(SafePrefix(s, lower)) <= maxResultBytes)
    requires forall j :: lower < j <= |s| ==> ResultBytes(SafePrefix(s, j)) > maxResultBytes
    ensures LongestFit(s, maxResultBytes, SafePrefix(s, lower))
  {
    hide JsonCost;
    var k := SafeEnd(s, lower);
    assert SafePrefix(s, lower) == s[..k];
    forall j | k < j <= |s| && SafeCut(s, j) ensures ResultBytes(s[..j]) > maxResultBytes {
      assert SafePrefix(s, j) == s[..j];
    }
  }

  // ---------------------------------------------------------------- where a truncated message ends

  /** The message is kept whole, or cut so that no high surrogate is left at its end. */
  predicate CutSafely(s: seq<Unit>, maxResultBytes: nat) {
    ResultBytes(s) <= maxResultBytes || SafeCut(s, |Truncated(s, maxResultBytes)|)
  }

  /** Every limit cuts the message safely exactly when it has no two high surrogates in a row. */
  lemma EveryCutIsSafe(s: seq<Unit>)
    ensures (forall maxResultBytes: nat :: CutSafely(s, maxResultBytes)) <==> NoAdjacentHighs(s)
  {
    hide JsonCost;
    if NoAdjacentHighs(s) {
      forall maxResultBytes: nat ensures CutSafely(s, maxResultBytes) {
        assert SafeCut(s, SafeEnd(s, LongestLength(s, maxResultBytes, |s|)));
      }
    } else {
      var i :| 0 <= i < |s| - 1 && High(s[i]) && High(s[i + 1]);
      EndsInHigh(s, i);
      assert !CutSafely(s, ResultBytes(s[..i + 1]));
    }
  }

  /** The limit that the text up to the first of two high surrogates just fits cuts between them. */
  lemma EndsInHigh(s: seq<Unit>, i: nat)
    requires i < |s| - 1 && High(s[i]) && High(s[i + 1])
    ensures var limit := ResultBytes(s[..i + 1]);
      ResultBytes(s) > limit && Truncated(s, limit) == s[..i + 1] && !SafeCut(s, i + 1)
  {
    hide JsonCost;
    var limit := ResultBytes(s[..i + 1]);
    LongerCosts(s, i + 1, |s|);
    assert s[..|s|] == s;
    assert SafePrefix(s, i + 2) == s[..i + 1];
    forall j | i + 2 < j <= |s| ensures ResultBytes(SafePrefix(s, j)) > limit {
      LongerCosts(s, i + 1, SafeEnd(s, j));
    }
    assert LongestLength(s, limit, |s|) == i + 2;
  }

  /** More text behind a cut in front of a high surrogate costs more. */
  lemma LongerCosts(s: seq<Unit>, a: nat, b: nat)
    requires a < b <= |s| && High(s[a])
    ensures JsonCost(s[..a]) < JsonCost(s[..b])
  {
    assert s[..b][..a] == s[..a];
    CostSplits(s[..b], a);
    assert s[..b][a..] != [];
    SomeCost(s[..b][a..]);
    hide JsonCost;
  }

  lemma SomeCost(s: seq<Unit>)
    requires s != []
    ensures JsonCost(s) > 0
  {}

  /** A message of two high surrogates, and a limit that leaves one of them at the end. */
  lemma TruncationCanEndInHigh()
    ensures Truncated([0xD83D, 0xD83D], ResultBytes([0xD83D])) == [0xD83D] && High(0xD83D)
  {
    hide JsonCost;
    EndsInHigh([0xD83D, 0xD83D], 0);
    assert [0xD83D, 0xD83D][..1] == [0xD83D];
  }
}
