/** Reading a stored artifact page by page, by byte offsets that never fall inside a code point. */
module ArtifactPages {
  import opened Wrappers

  type Byte = b: nat | b < 256

  predicate IsContinuation(b: Byte) {
    128 <= b < 192
  }

  /** A position where no continuation byte stands. */
  predicate Boundary(bytes: seq<Byte>, i: nat) {
    i == |bytes| || (i < |bytes| && !IsContinuation(bytes[i]))
  }

  datatype Page = Page(offsetBytes: nat, content: seq<Byte>, contentBytes: nat, nextOffsetBytes: Option<nat>)

  datatype Fault = BadOffset | MaxBytesTooSmall | ResultTooSmall

  /** The last boundary from offset up to e. */
  function EndAt(bytes: seq<Byte>, offset: nat, e: nat): (r: nat)
    requires offset <= e <= |bytes|
    ensures offset <= r <= e && (r == offset || Boundary(bytes, r))
    ensures forall k :: r < k <= e ==> !Boundary(bytes, k)
  {
    if e > offset && !Boundary(bytes, e) then EndAt(bytes, offset, e - 1) else e
  }

  /** The first boundary behind offset: where the code point at offset ends. */
  function FirstEnd(bytes: seq<Byte>, e: nat): (r: nat)
    requires e <= |bytes|
    ensures e <= r <= |bytes| && Boundary(bytes, r)
    ensures forall k :: e <= k < r ==> !Boundary(bytes, k)
    decreases |bytes| - e
  {
    if Boundary(bytes, e) then e else FirstEnd(bytes, e + 1)
  }

  function Min(a: nat, b: nat): nat {
    if a < b then a else b
  }

  function PageTo(bytes: seq<Byte>, offset: nat, end: nat): Page
    requires offset <= end <= |bytes|
  {
    Page(offset, bytes[offset..end], end - offset, if end < |bytes| then Some(end) else None)
  }

  /** The page that pageAtBudget builds. */
  function PageAt(bytes: seq<Byte>, offset: nat, budget: nat): Page
    requires offset <= |bytes|
  {
    PageTo(bytes, offset, EndAt(bytes, offset, Min(|bytes|, offset + budget)))
  }

  method PageAtBudget(bytes: seq<Byte>, offset: nat, budget: nat) returns (p: Page)
    requires offset <= |bytes|
    ensures p == PageAt(bytes, offset, budget)
  {
    var end := Min(|bytes|, offset + budget);
    while end > offset && end < |bytes| && IsContinuation(bytes[end])
      invariant offset <= end <= |bytes|
      invariant EndAt(bytes, offset, Min(|bytes|, offset + budget)) == EndAt(bytes, offset, end)
    {
      end := end - 1;
    }
    p := PageTo(bytes, offset, end);
  }

  /** A page of whole code points: it starts and ends at a boundary, is not empty, holds exactly the artifact's bytes in
      between, stays within both limits, and names the next offset exactly when bytes are left. */
  ghost predicate GoodPage(bytes: seq<Byte>, offset: nat, requested: nat, resultBytes: Page -> nat, maxResultBytes: nat, p: Page) {
    && offset <= |bytes| && p.offsetBytes == offset
    && var end := offset + p.contentBytes;
    && end <= |bytes| && Boundary(bytes, end) && p == PageTo(bytes, offset, end)
    && (offset < |bytes| ==> 0 < p.contentBytes <= requested && resultBytes(p) <= maxResultBytes)
  }

  lemma PageIsGood(bytes: seq<Byte>, offset: nat, budget: nat, requested: nat, resultBytes: Page -> nat, maxResultBytes: nat)
    requires offset < |bytes| && budget <= requested
    requires PageAt(bytes, offset, budget).contentBytes > 0 && resultBytes(PageAt(bytes, offset, budget)) <= maxResultBytes
    ensures GoodPage(bytes, offset, requested, resultBytes, maxResultBytes, PageAt(bytes, offset, budget))
  {}

  /** Any budget that covers the next code point yields a page that holds it. */
  lemma BudgetHoldsFirst(bytes: seq<Byte>, offset: nat, budget: nat)
    requires offset < |bytes| && FirstEnd(bytes, offset + 1) - offset <= budget
    ensures PageAt(bytes, offset, budget).contentBytes > 0
    ensures budget == FirstEnd(bytes, offset + 1) - offset ==> PageAt(bytes, offset, budget) == PageTo(bytes, offset, FirstEnd(bytes, offset + 1))
  {}

  /** The page from offset to this end is asked for and its result fits. */
  predicate Fits(bytes: seq<Byte>, offset: nat, end: nat, requested: nat, resultBytes: Page -> nat, maxResultBytes: nat) {
    && offset < end <= |bytes| && end - offset <= requested && Boundary(bytes, end)
    && resultBytes(PageTo(bytes, offset, end)) <= maxResultBytes
  }

  /** The page that is longer by one code point does not fit. */
  ghost predicate NextTooLong(bytes: seq<Byte>, offset: nat, requested: nat, resultBytes: Page -> nat, maxResultBytes: nat, p: Page) {
    var end := offset + p.contentBytes;
    end < |bytes| ==> !Fits(bytes, offset, FirstEnd(bytes, end + 1), requested, resultBytes, maxResultBytes)
  }

  /** Where a page fits, so do the shorter ones. */
  ghost predicate ShorterFit(bytes: seq<Byte>, offset: nat, requested: nat, resultBytes: Page -> nat, maxResultBytes: nat) {
    forall a, b :: a < b && offset < a && Boundary(bytes, a) && Fits(bytes, offset, b, requested, resultBytes, maxResultBytes) ==>
      Fits(bytes, offset, a, requested, resultBytes, maxResultBytes)
  }

  /** So when shorter pages fit wherever longer ones do, a good page whose next one is too long is the longest of all. */
  lemma NothingLongerFits(bytes: seq<Byte>, offset: nat, requested: nat, resultBytes: Page -> nat, maxResultBytes: nat, p: Page, end: nat)
    requires GoodPage(bytes, offset, requested, resultBytes, maxResultBytes, p)
    requires NextTooLong(bytes, offset, requested, resultBytes, maxResultBytes, p)
    requires ShorterFit(bytes, offset, requested, resultBytes, maxResultBytes)
    requires Fits(bytes, offset, end, requested, resultBytes, maxResultBytes)
    ensures end <= offset + p.contentBytes
  {}

  /** A budget that does not fit although the one before does ends the page that is longer by one code point. */
  lemma NextBudget(bytes: seq<Byte>, offset: nat, budget: nat, requested: nat, resultBytes: Page -> nat, maxResultBytes: nat)
    requires offset < |bytes| && offset + budget < |bytes| && budget < requested
    requires PageAt(bytes, offset, budget).contentBytes > 0 && resultBytes(PageAt(bytes, offset, budget)) <= maxResultBytes
    requires PageAt(bytes, offset, budget + 1).contentBytes > 0 && resultBytes(PageAt(bytes, offset, budget + 1)) > maxResultBytes
    ensures NextTooLong(bytes, offset, requested, resultBytes, maxResultBytes, PageAt(bytes, offset, budget))
  {
    var end := EndAt(bytes, offset, offset + budget);
    var longer := EndAt(bytes, offset, offset + budget + 1);
    assert longer == offset + budget + 1 || longer == end;
    assert FirstEnd(bytes, end + 1) == offset + budget + 1;
  }

  /** No page longer than the whole request is asked for. */
  lemma FullBudget(bytes: seq<Byte>, offset: nat, requested: nat, resultBytes: Page -> nat, maxResultBytes: nat)
    requires offset < |bytes|
    ensures NextTooLong(bytes, offset, requested, resultBytes, maxResultBytes, PageAt(bytes, offset, Min(requested, |bytes| - offset)))
  {}

  lemma AtEnd(bytes: seq<Byte>, requested: nat, resultBytes: Page -> nat, maxResultBytes: nat)
    ensures var p := Page(|bytes|, [], 0, None);
      GoodPage(bytes, |bytes|, requested, resultBytes, maxResultBytes, p) && NextTooLong(bytes, |bytes|, requested, resultBytes, maxResultBytes, p)
  {}

  /** fitArtifactPage: a binary search over budgets. The size of a result need not grow with the budget, since the next
      offset disappears on the last page; the search still finds a page whenever the next code point alone fits. */
  method FitArtifactPage(bytes: seq<Byte>, offset: nat, requested: nat, resultBytes: Page -> nat, maxResultBytes: nat)
    returns (r: Result<Page, Fault>)
    ensures r == Err(BadOffset) <==> !Boundary(bytes, offset)
    ensures Boundary(bytes, offset) && offset < |bytes| ==>
              var first := FirstEnd(bytes, offset + 1);
              && (r == Err(MaxBytesTooSmall) <==> first - offset > requested)
              && (first - offset <= requested && resultBytes(PageTo(bytes, offset, first)) <= maxResultBytes ==> r.Ok?)
    ensures r.Ok? ==> GoodPage(bytes, offset, requested, resultBytes, maxResultBytes, r.value)
    ensures r.Ok? ==> NextTooLong(bytes, offset, requested, resultBytes, maxResultBytes, r.value)
    ensures Boundary(bytes, offset) && offset == |bytes| ==> r.Ok?
  {
    hide GoodPage, NextTooLong, PageAt;
    AtEnd(bytes, requested, resultBytes, maxResultBytes);
    if offset > |bytes| || (offset < |bytes| && IsContinuation(bytes[offset])) { return Err(BadOffset); }
    if offset == |bytes| { return Ok(Page(offset, [], 0, None)); }
    var firstEnd := offset + 1;
    while firstEnd < |bytes| && IsContinuation(bytes[firstEnd])
      invariant offset < firstEnd <= |bytes|
      invariant FirstEnd(bytes, offset + 1) == FirstEnd(bytes, firstEnd)
    {
      firstEnd := firstEnd + 1;
    }
    var low, high: int := firstEnd - offset, Min(requested, |bytes| - offset);
    if low > high { return Err(MaxBytesTooSmall); }
    var best: Option<Page> := None;
    ghost var least := low;
    while low <= high
      invariant least <= low && high <= Min(requested, |bytes| - offset)
      invariant best.Some? ==> GoodPage(bytes, offset, requested, resultBytes, maxResultBytes, best.value)
      invariant low - 1 <= high
      invariant best.Some? ==> low > least && best.value == PageAt(bytes, offset, low - 1)
      invariant best.Some? ==> best.value.contentBytes > 0 && resultBytes(best.value) <= maxResultBytes
      invariant high < Min(requested, |bytes| - offset) ==> high + 1 >= least && resultBytes(PageAt(bytes, offset, high + 1)) > maxResultBytes
      invariant best.None? ==> low == least && (high >= least || resultBytes(PageTo(bytes, offset, firstEnd)) > maxResultBytes)
      decreases high - low
    {
      var budget := (low + high) / 2;
      var page := PageAtBudget(bytes, offset, budget);
      BudgetHoldsFirst(bytes, offset, budget);
      if page.contentBytes > 0 && resultBytes(page) <= maxResultBytes {
        PageIsGood(bytes, offset, budget, requested, resultBytes, maxResultBytes);
        best := Some(page);
        low := budget + 1;
      } else {
        high := budget - 1;
      }
    }
    if best.None? { return Err(ResultTooSmall); }
    if high < Min(requested, |bytes| - offset) {
      BudgetHoldsFirst(bytes, offset, high + 1);
      NextBudget(bytes, offset, high, requested, resultBytes, maxResultBytes);
    } else {
      FullBudget(bytes, offset, requested, resultBytes, maxResultBytes);
    }
    r := Ok(best.value);
  }

  // ---------------------------------------------------------------- following the next offsets

  /** Pages read one after the other, each from the offset that the one before named. */
  ghost predicate Chain(bytes: seq<Byte>, requested: nat, resultBytes: Page -> nat, maxResultBytes: nat, offset: nat, pages: seq<Page>)
    decreases |pages|
  {
    pages != []
    && GoodPage(bytes, offset, requested, resultBytes, maxResultBytes, pages[0])
    && (if pages[0].nextOffsetBytes.None? then |pages| == 1
        else Chain(bytes, requested, resultBytes, maxResultBytes, pages[0].nextOffsetBytes.value, pages[1..]))
  }

  function Contents(pages: seq<Page>): seq<Byte> {
    if pages == [] then [] else pages[0].content + Contents(pages[1..])
  }

  lemma GoodPageShape(bytes: seq<Byte>, offset: nat, requested: nat, resultBytes: Page -> nat, maxResultBytes: nat, p: Page)
    requires GoodPage(bytes, offset, requested, resultBytes, maxResultBytes, p)
    ensures var end := offset + p.contentBytes;
      && offset <= end <= |bytes| && bytes[offset..] == p.content + bytes[end..]
      && p.nextOffsetBytes == (if end < |bytes| then Some(end) else None)
      && (end < |bytes| ==> p.contentBytes > 0)
  {}

  /** The pages of a finished chain put the artifact together again, byte for byte, in no more pages than bytes. */
  lemma {:induction false} ChainReassembles(bytes: seq<Byte>, requested: nat, resultBytes: Page -> nat, maxResultBytes: nat,
                                            offset: nat, pages: seq<Page>)
    requires Chain(bytes, requested, resultBytes, maxResultBytes, offset, pages)
    ensures offset <= |bytes| && Contents(pages) == bytes[offset..]
    ensures |pages| <= 1 + |bytes| - offset
    decreases |pages|
  {
    hide GoodPage;
    GoodPageShape(bytes, offset, requested, resultBytes, maxResultBytes, pages[0]);
    if pages[0].nextOffsetBytes.Some? {
      ChainReassembles(bytes, requested, resultBytes, maxResultBytes, pages[0].nextOffsetBytes.value, pages[1..]);
    }
  }

  // ---------------------------------------------------------------- code points

  // Section 3 of RFC 3629.

  type CodePoint = c: nat | c < 0x110000

  function Tail(n: nat): Byte {
    128 + n % 64
  }

  function Encode(c: CodePoint): (bytes: seq<Byte>)
    ensures 1 <= |bytes| <= 4
  {
    if c < 0x80 then [c]
    else if c < 0x800 then [192 + c / 64, Tail(c)]
    else if c < 0x10000 then [224 + c / 4096, Tail(c / 64), Tail(c)]
    else [240 + c / 262144, Tail(c / 4096), Tail(c / 64), Tail(c)]
  }

  lemma EncodeShape(c: CodePoint)
    ensures !IsContinuation(Encode(c)[0]) && forall k :: 1 <= k < |Encode(c)| ==> IsContinuation(Encode(c)[k])
  {}

  function EncodeAll(text: seq<CodePoint>): seq<Byte> {
    if text == [] then [] else Encode(text[0]) + EncodeAll(text[1..])
  }

  lemma {:induction false} EncodePrefix(text: seq<CodePoint>, n: nat)
    requires n <= |text|
    ensures EncodeAll(text) == EncodeAll(text[..n]) + EncodeAll(text[n..])
  {
    if n > 0 {
      EncodePrefix(text[1..], n - 1);
      assert text[..n][1..] == text[1..][..n - 1] && text[1..][n - 1..] == text[n..];
    } else {
      assert text[..0] == [] && text[0..] == text;
    }
  }

  /** A boundary of encoded text lies between two code points. */
  lemma {:induction false} BoundaryBetween(text: seq<CodePoint>, i: nat) returns (n: nat)
    requires i <= |EncodeAll(text)| && Boundary(EncodeAll(text), i)
    ensures n <= |text| && |EncodeAll(text[..n])| == i
    decreases |text|
  {
    if i == 0 {
      n := 0;
    } else {
      EncodeShape(text[0]);
      var width := |Encode(text[0])|;
      var rest := EncodeAll(text[1..]);
      assert EncodeAll(text)[..width] == Encode(text[0]);
      forall k | 1 <= k < width ensures IsContinuation(EncodeAll(text)[k]) {
        assert EncodeAll(text)[k] == Encode(text[0])[k];
      }
      if i < |EncodeAll(text)| { assert EncodeAll(text)[i] == rest[i - width]; }
      n := BoundaryBetween(text[1..], i - width);
      n := n + 1;
      assert text[..n][1..] == text[1..][..n - 1];
    }
  }

  /** So a page of encoded text holds whole code points of it. */
  lemma PageHoldsCodePoints(text: seq<CodePoint>, requested: nat, resultBytes: Page -> nat, maxResultBytes: nat, offset: nat, p: Page)
    returns (from: nat, to: nat)
    requires Boundary(EncodeAll(text), offset) && GoodPage(EncodeAll(text), offset, requested, resultBytes, maxResultBytes, p)
    ensures from <= to <= |text| && p.content == EncodeAll(text[from..to])
  {
    var bytes := EncodeAll(text);
    var end := offset + p.contentBytes;
    from := BoundaryBetween(text, offset);
    to := BoundaryBetween(text, end);
    LongerEncodes(text, to, from);
    EncodePrefix(text, to);
    EncodePrefix(text[..to], from);
    assert text[..to][..from] == text[..from] && text[..to][from..] == text[from..to];
  }

  lemma LongerEncodes(text: seq<CodePoint>, n: nat, m: nat)
    requires n <= |text| && m <= |text|
    ensures n < m ==> |EncodeAll(text[..n])| < |EncodeAll(text[..m])|
  {
    if n < m {
      EncodePrefix(text[..m], n);
      assert text[..m][..n] == text[..n] && text[..m][n..] != [];
    }
  }

  /** A request for at least four bytes always covers the next code point of encoded text. */
  lemma FourBytesCover(text: seq<CodePoint>, offset: nat)
    requires offset < |EncodeAll(text)| && Boundary(EncodeAll(text), offset)
    ensures FirstEnd(EncodeAll(text), offset + 1) - offset <= 4
  {
    var n := BoundaryBetween(text, offset);
    EncodePrefix(text, n);
    assert text[..|text|] == text;
    var bytes, rest := EncodeAll(text), text[n..];
    var width := |Encode(rest[0])|;
    assert bytes == EncodeAll(text[..n]) + (Encode(rest[0]) + EncodeAll(rest[1..]));
    if offset + width < |bytes| {
      EncodeShape(rest[1..][0]);
      assert bytes[offset + width] == EncodeAll(rest[1..])[0] == Encode(rest[1..][0])[0];
    }
    assert Boundary(bytes, offset + width);
  }
}
